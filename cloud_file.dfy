/** The transcript serializer of memory/CloudFile.py: `append_doc_content`
    renders each message as one `role: content` line and appends the lines,
    joined by newlines, to the project document. */
module CloudFile {

  /** A message as `append_doc_content` sees it: a dictionary, an object
      with `.role` and `.content`, or anything else, shown by `str`. */
  datatype Record = Dict(fields: map<string, string>) | Obj(role: string, content: string) | Opaque(repr: string)

  /** `msg.get('role', 'unknown')`, `msg.get('content', '')` and the two
      other cases of the loop body. */
  function Line(r: Record): string {
    match r
    case Dict(f) =>
      (if "role" in f then f["role"] else "unknown") + ": " + (if "content" in f then f["content"] else "")
    case Obj(role, content) => role + ": " + content
    case Opaque(repr) => repr
  }

  /** The lines of `content`, in order. */
  function Lines(content: seq<Record>): (r: seq<string>)
    ensures |r| == |content| && forall i :: 0 <= i < |content| ==> r[i] == Line(content[i])
  {
    if content == [] then [] else Lines(content[..|content| - 1]) + [Line(content[|content| - 1])]
  }

  /** `"\n".join(lines)` */
  function Join(lines: seq<string>): string {
    if lines == [] then ""
    else if |lines| == 1 then lines[0]
    else Join(lines[..|lines| - 1]) + "\n" + lines[|lines| - 1]
  }

  /** `append_doc_content(content)`: the formatting loop and the join. */
  method FormatContent(content: seq<Record>) returns (s: string)
    ensures s == Join(Lines(content))
  {
    var formatted: seq<string> := [];
    var i := 0;
    while i < |content|
      invariant 0 <= i <= |content|
      invariant formatted == Lines(content[..i])
    {
      assert content[..i + 1][..i] == content[..i];
      formatted := formatted + [Line(content[i])];
      i := i + 1;
    }
    assert content[..i] == content;
    s := JoinLines(formatted);
  }

  /** `"\n".join(formatted_content)`, left to right. */
  method JoinLines(lines: seq<string>) returns (s: string)
    ensures s == Join(lines)
  {
    s := "";
    var i := 0;
    while i < |lines|
      invariant 0 <= i <= |lines|
      invariant s == Join(lines[..i])
    {
      assert lines[..i + 1][..i] == lines[..i];
      if i == 0 {
        s := lines[0];
      } else {
        s := s + "\n" + lines[i];
      }
      i := i + 1;
    }
    assert lines[..i] == lines;
  }

  /** The text of `lines[k]` sits in the join after the earlier lines and
      their separators. */
  function Offset(lines: seq<string>, k: nat): nat
    requires k <= |lines|
  {
    if k == 0 then 0 else Offset(lines, k - 1) + |lines[k - 1]| + 1
  }

  /** No line holds a newline. */
  predicate SingleLines(lines: seq<string>) {
    forall i, j :: 0 <= i < |lines| && 0 <= j < |lines[i]| ==> lines[i][j] != '\n'
  }

  /** `s.split("\n")` */
  function Split(s: string): (r: seq<string>)
    ensures |r| >= 1
    decreases |s|
  {
    if |s| == 0 then [""]
    else
      var rest := Split(s[1..]);
      if s[0] == '\n' then [""] + rest
      else [[s[0]] + rest[0]] + rest[1..]
  }

  lemma {:induction false} SplitPlain(t: string)
    requires forall j :: 0 <= j < |t| ==> t[j] != '\n'
    ensures Split(t) == [t]
    decreases |t|
  {
    if |t| > 0 {
      SplitPlain(t[1..]);
      assert [t[0]] + t[1..] == t;
    }
  }

  lemma {:induction false} SplitAfter(t: string, rest: string)
    requires forall j :: 0 <= j < |t| ==> t[j] != '\n'
    ensures Split(t + "\n" + rest) == [t] + Split(rest)
    decreases |t|
  {
    if |t| == 0 {
      assert t + "\n" + rest == "\n" + rest;
      assert ("\n" + rest)[1..] == rest;
    } else {
      var s := t + "\n" + rest;
      assert s[1..] == t[1..] + "\n" + rest;
      SplitAfter(t[1..], rest);
      assert [t[0]] + t[1..] == t;
    }
  }

  /** Joining `a` and `b` by a newline is joining `a`'s lines, a newline,
      then `b`'s. */
  lemma {:induction false} JoinAppend(a: seq<string>, b: seq<string>)
    requires a != [] && b != []
    ensures Join(a + b) == Join(a) + "\n" + Join(b)
    decreases |b|
  {
    if |b| == 1 {
      assert (a + b)[..|a + b| - 1] == a;
    } else {
      var b' := b[..|b| - 1];
      assert (a + b)[..|a + b| - 1] == a + b';
      JoinAppend(a, b');
      assert b[..|b| - 1] == b';
    }
  }

  /** Lines without newlines come back from the transcript by splitting it
      at newlines; the empty transcript has no lines to give back but one
      empty one. */
  lemma {:induction false} SplitJoin(lines: seq<string>)
    requires lines != [] && SingleLines(lines)
    ensures Split(Join(lines)) == lines
    decreases |lines|
  {
    if |lines| == 1 {
      SplitPlain(lines[0]);
    } else {
      var rest := lines[1..];
      assert SingleLines(rest) by {
        forall i, j | 0 <= i < |rest| && 0 <= j < |rest[i]| ensures rest[i][j] != '\n' {
          assert rest[i] == lines[i + 1];
        }
      }
      JoinAppend([lines[0]], rest);
      assert [lines[0]] + rest == lines;
      SplitAfter(lines[0], Join(rest));
      SplitJoin(rest);
    }
  }

  /** The transcript has one newline fewer than lines, all of them
      separators: its length is the lines' lengths plus the separators. */
  lemma {:induction false} JoinLength(lines: seq<string>)
    requires lines != []
    ensures |Join(lines)| == Offset(lines, |lines|) - 1
    decreases |lines|
  {
    if |lines| > 1 {
      var init := lines[..|lines| - 1];
      JoinLength(init);
      OffsetPrefix(lines, init, |lines| - 1);
    }
  }

  lemma {:induction false} OffsetPrefix(lines: seq<string>, init: seq<string>, k: nat)
    requires k <= |init| <= |lines| && init == lines[..|init|]
    ensures Offset(lines, k) == Offset(init, k)
    decreases k
  {
    if k > 0 {
      OffsetPrefix(lines, init, k - 1);
    }
  }

  /** An empty input gives the empty string; one record gives its line with
      no separator. */
  lemma FormatEdges(r: Record)
    ensures Join(Lines([])) == ""
    ensures Join(Lines([r])) == Line(r)
  {
  }

  /** A dictionary without `role` or `content` falls back to the defaults. */
  lemma DictDefaults()
    ensures Line(Dict(map[])) == "unknown: "
    ensures Line(Dict(map["role" := "user"])) == "user: "
  {
  }

  /** A project document: `append_content_in_doc` adds each transcript as
      one paragraph. */
  class Project {
    var paragraphs: seq<string>

    constructor ()
      ensures paragraphs == []
    {
      paragraphs := [];
    }

    /** `append_doc_content(content)` */
    method AppendDocContent(content: seq<Record>)
      modifies this
      ensures paragraphs == old(paragraphs) + [Join(Lines(content))]
    {
      var s := FormatContent(content);
      paragraphs := paragraphs + [s];
    }
  }
}
