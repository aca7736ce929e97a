/** The plotting helper of tools/Tools.py: `insert_fig_object`, which makes
    plotting code create a `fig` object that the caller can show. */
module Tools {
  import opened Text

  /** `plot_aliases + sns_aliases`, in order. */
  const ALIASES: seq<string> := ["plt.", "matplotlib.pyplot.", "plot", "sns.", "seaborn."]
  const FIGURE_CALL := "plt.figure"
  const FIG_ASSIGN := "fig = "
  const FIG_PROLOGUE := "fig = plt.figure()\n"

  /** The code already creates a figure object. */
  predicate HasFigure(code: string) {
    Contains(code, "fig = plt.figure") || Contains(code, "fig, ax = plt.subplots()")
  }

  /** `min((code.find(a) for a in aliases if code.find(a) >= 0), default=-1)`. */
  function FirstOccurrence(code: string, aliases: seq<string>): (r: int)
    ensures -1 <= r <= |code|
    decreases |aliases|
  {
    if aliases == [] then -1
    else
      var f := Find(code, aliases[0]);
      var rest := FirstOccurrence(code, aliases[1..]);
      if f == -1 then rest
      else if rest == -1 || f <= rest then f
      else rest
  }

  /** The first occurrence is the least position at which any of `aliases`
      occurs, and -1 exactly when none does. */
  lemma {:induction false} FirstOccurrenceIsLeast(code: string, aliases: seq<string>)
    ensures var r := FirstOccurrence(code, aliases);
      (r == -1 <==> forall k :: 0 <= k < |aliases| ==> Find(code, aliases[k]) == -1) &&
      (r != -1 ==> exists k :: 0 <= k < |aliases| && r == Find(code, aliases[k])) &&
      (forall k :: 0 <= k < |aliases| && Find(code, aliases[k]) != -1 ==> r != -1 && r <= Find(code, aliases[k]))
    decreases |aliases|
  {
    if aliases != [] {
      FirstOccurrenceIsLeast(code, aliases[1..]);
      var r := FirstOccurrence(code, aliases);
      var rest := FirstOccurrence(code, aliases[1..]);
      assert forall k :: 1 <= k < |aliases| ==> aliases[k] == aliases[1..][k - 1];
      if r != -1 && r != Find(code, aliases[0]) {
        var k :| 0 <= k < |aliases[1..]| && rest == Find(code, aliases[1..][k]);
        assert r == Find(code, aliases[k + 1]);
      }
    }
  }

  /** `insert_fig_object(code_str)` as written. */
  function InsertFigObject(code: string): string {
    if HasFigure(code) then code
    else
      var i := Find(code, FIGURE_CALL);
      Placed(code, FirstOccurrence(code, ALIASES), i, if i == -1 then -1 else FindFrom(code, ")", i))
  }

  /** The rewrite once the first alias is at `first`, the first
      `plt.figure` at `i` and the next `)` at `close` (each -1 when
      absent). When no `)` follows `plt.figure`, `closing_bracket_index`
      is -1 and the last slice `code_str[closing_bracket_index + 1:]` is
      the whole code. */
  function Placed(code: string, first: int, i: int, close: int): string
    requires -1 <= first <= |code| && -1 <= i <= |code| && -1 <= close < |code|
    requires close != -1 ==> i <= close
  {
    if first == -1 then code
    else if i != -1 then
      // Python's code_str[i:close + 1] is empty when close == -1.
      code[..i] + FIG_ASSIGN + (if close == -1 then "" else code[i..close + 1]) + code[close + 1..]
    else code[..first] + FIG_PROLOGUE + code[first..]
  }

  /** `insert_fig_object` as evidently intended: `fig = ` goes in front of
      the first `plt.figure` whether or not a `)` follows it. */
  function InsertFigObjectIntended(code: string): string {
    if HasFigure(code) then code
    else PlacedIntended(code, FirstOccurrence(code, ALIASES), Find(code, FIGURE_CALL))
  }

  function PlacedIntended(code: string, first: int, i: int): string
    requires -1 <= first <= |code| && -1 <= i <= |code|
  {
    if first == -1 then code
    else if i != -1 then code[..i] + FIG_ASSIGN + code[i..]
    else code[..first] + FIG_PROLOGUE + code[first..]
  }

  lemma FindBounds(code: string, pat: string)
    ensures -1 <= Find(code, pat) <= |code|
    ensures Find(code, pat) >= 0 ==> OccursAt(code, pat, Find(code, pat))
  {
  }

  /** Code that already creates a figure is returned unchanged. */
  lemma ExistingFigureKept(code: string)
    requires HasFigure(code)
    ensures InsertFigObject(code) == code && InsertFigObjectIntended(code) == code
  {
  }

  /** Code that mentions none of the plotting aliases is returned unchanged. */
  lemma {:induction false} NoPlottingKept(code: string)
    requires forall k :: 0 <= k < |ALIASES| ==> !Contains(code, ALIASES[k])
    ensures InsertFigObject(code) == code && InsertFigObjectIntended(code) == code
  {
    forall k | 0 <= k < |ALIASES| ensures Find(code, ALIASES[k]) == -1 {
      ContainsIffFound(code, ALIASES[k]);
    }
    FirstOccurrenceIsLeast(code, ALIASES);
  }

  /** Without `plt.figure`, the prologue goes in front of the first
      occurrence of any alias. */
  lemma {:induction false} PrologueBeforeFirstAlias(code: string)
    requires !HasFigure(code) && !Contains(code, FIGURE_CALL)
    requires exists k :: 0 <= k < |ALIASES| && Contains(code, ALIASES[k])
    ensures var p := FirstOccurrence(code, ALIASES);
      0 <= p < |code| &&
      InsertFigObject(code) == code[..p] + FIG_PROLOGUE + code[p..] &&
      (exists k :: 0 <= k < |ALIASES| && OccursAt(code, ALIASES[k], p)) &&
      (forall k, j :: 0 <= k < |ALIASES| && 0 <= j < p ==> !OccursAt(code, ALIASES[k], j))
  {
    var k :| 0 <= k < |ALIASES| && Contains(code, ALIASES[k]);
    ContainsIffFound(code, ALIASES[k]);
    FirstOccurrenceIsLeast(code, ALIASES);
    ContainsIffFound(code, FIGURE_CALL);
    var p := FirstOccurrence(code, ALIASES);
    var k' :| 0 <= k' < |ALIASES| && p == Find(code, ALIASES[k']);
    assert OccursAt(code, ALIASES[k'], p);
    forall k2, j | 0 <= k2 < |ALIASES| && 0 <= j < p ensures !OccursAt(code, ALIASES[k2], j) {
      var f := Find(code, ALIASES[k2]);
      assert f == -1 || j < f;
    }
  }

  /** With a `)` after the first `plt.figure`, `fig = ` goes in front of it. */
  lemma {:induction false} AssignBeforeFigureCall(code: string)
    requires !HasFigure(code) && Find(code, FIGURE_CALL) >= 0
    requires FindFrom(code, ")", Find(code, FIGURE_CALL)) != -1
    ensures var i := Find(code, FIGURE_CALL);
      0 <= i && InsertFigObject(code) == code[..i] + FIG_ASSIGN + code[i..] &&
      InsertFigObject(code) == InsertFigObjectIntended(code)
  {
    FigureCallIsAnAlias(code);
    var i := Find(code, FIGURE_CALL);
    var close := FindFrom(code, ")", i);
    var first := FirstOccurrence(code, ALIASES);
    FindBounds(code, FIGURE_CALL);
    assert InsertFigObject(code) == Placed(code, first, i, close);
    PlacedClosed(code, first, i, close);
    assert InsertFigObjectIntended(code) == PlacedIntended(code, first, i);
  }

  /** With a `)` at `close`, the as-written slices put the code back
      together around `fig = `. */
  lemma PlacedClosed(code: string, first: int, i: int, close: int)
    requires 0 <= first <= |code| && 0 <= i <= close < |code|
    ensures Placed(code, first, i, close) == code[..i] + FIG_ASSIGN + code[i..] == PlacedIntended(code, first, i)
  {
    assert code[i..close + 1] + code[close + 1..] == code[i..];
  }

  /** `plt.figure` begins with the alias `plt.`, so finding it means some
      alias occurs. */
  lemma {:induction false} FigureCallIsAnAlias(code: string)
    requires Find(code, FIGURE_CALL) >= 0
    ensures FirstOccurrence(code, ALIASES) != -1
  {
    var i := Find(code, FIGURE_CALL);
    assert |FIGURE_CALL| == 10 && OccursAt(code, FIGURE_CALL, i);
    var w := code[i..i + 10];
    assert w == FIGURE_CALL;
    assert code[i..i + 4] == w[..4];
    assert w[..4] == ALIASES[0];
    assert OccursAt(code, ALIASES[0], i);
    assert Find(code, ALIASES[0]) != -1;
    FirstOccurrenceIsLeast(code, ALIASES);
  }

  /** As written: with no `)` after `plt.figure`, everything before it is
      written twice. */
  lemma {:induction false} NoClosingDuplicatesPrefix(code: string)
    requires !HasFigure(code) && Find(code, FIGURE_CALL) >= 0
    requires FindFrom(code, ")", Find(code, FIGURE_CALL)) == -1
    ensures var i := Find(code, FIGURE_CALL);
      0 <= i <= |code| && InsertFigObject(code) == code[..i] + FIG_ASSIGN + code
  {
    FigureCallIsAnAlias(code);
    var i := Find(code, FIGURE_CALL);
    FindBounds(code, FIGURE_CALL);
    var first := FirstOccurrence(code, ALIASES);
    assert InsertFigObject(code) == Placed(code, first, i, -1);
  }

  /** ... so the result is longer than the intended one by that prefix. */
  lemma NoClosingOverlong(code: string)
    requires !HasFigure(code) && Find(code, FIGURE_CALL) >= 0
    requires FindFrom(code, ")", Find(code, FIGURE_CALL)) == -1
    ensures |InsertFigObject(code)| == |InsertFigObjectIntended(code)| + Find(code, FIGURE_CALL)
  {
    NoClosingDuplicatesPrefix(code);
    FigureCallIsAnAlias(code);
    var i := Find(code, FIGURE_CALL);
    assert InsertFigObjectIntended(code) == code[..i] + FIG_ASSIGN + code[i..];
  }

  /** A one-character pattern absent from `s[start..]` is not found there. */
  lemma {:induction false} AbsentCharNotFound(s: string, c: char, start: nat)
    requires forall j :: start <= j < |s| ==> s[j] != c
    ensures FindFrom(s, [c], start) == -1
  {
    forall j | start <= j ensures !OccursAt(s, [c], j) {
      if j + 1 <= |s| {
        assert s[j..j + 1][0] == s[j];
      }
    }
  }

  /** The example input: `plt.figure` at 2, no `)` after it, no figure yet. */
  lemma ExampleFacts(code: string)
    requires code == "a;" + FIGURE_CALL + "("
    ensures Find(code, FIGURE_CALL) == 2 && FindFrom(code, ")", 2) == -1 && !HasFigure(code)
  {
    assert code[2..12] == FIGURE_CALL;
    assert OccursAt(code, FIGURE_CALL, 2);
    assert code[0] != FIGURE_CALL[0] && code[1] != FIGURE_CALL[0];
    assert !OccursAt(code, FIGURE_CALL, 0) && !OccursAt(code, FIGURE_CALL, 1);
    assert ')' !in FIGURE_CALL;
    forall j | 2 <= j < |code| ensures code[j] != ')' {
      if j < 12 {
        assert code[j] == FIGURE_CALL[j - 2];
      }
    }
    AbsentCharNotFound(code, ')', 2);
    assert [')'] == ")";
    NotContainsLong(code, "fig = plt.figure");
    NotContainsLong(code, "fig, ax = plt.subplots()");
  }

  /** A concrete input on which the code as written repeats its prefix:
      `a;plt.figure(` becomes `a;fig = a;plt.figure(`. */
  lemma DuplicationExample(code: string)
    requires code == "a;" + FIGURE_CALL + "("
    ensures InsertFigObject(code) == "a;" + FIG_ASSIGN + code
  {
    ExampleFacts(code);
    NoClosingDuplicatesPrefix(code);
    assert code[..2] == "a;";
    assert InsertFigObject(code) == "a;" + FIG_ASSIGN + code;
  }

  /** On the same input the intended insertion gives
      `a;fig = plt.figure(`. */
  lemma IntendedExample(code: string)
    requires code == "a;" + FIGURE_CALL + "("
    ensures InsertFigObjectIntended(code) == "a;" + FIG_ASSIGN + FIGURE_CALL + "("
  {
    ExampleFacts(code);
    FigureCallIsAnAlias(code);
    FindBounds(code, FIGURE_CALL);
    assert code[..2] == "a;";
    assert code[2..] == FIGURE_CALL + "(";
    assert InsertFigObjectIntended(code) == code[..2] + FIG_ASSIGN + code[2..];
  }

  /** A pattern longer than the text does not occur in it. */
  lemma {:induction false} NotContainsLong(s: string, pat: string)
    requires |s| < |pat|
    ensures !Contains(s, pat)
    decreases |s|
  {
    if |s| > 0 {
      NotContainsLong(s[1..], pat);
    }
  }

  /** `fig = ` in front of `plt.figure` spells `fig = plt.figure`. */
  lemma AssignSpellsFigure(code: string, i: int)
    requires OccursAt(code, FIGURE_CALL, i)
    ensures HasFigure(code[..i] + FIG_ASSIGN + code[i..])
  {
    var r := code[..i] + FIG_ASSIGN + code[i..];
    assert r[i..i + 16] == FIG_ASSIGN + code[i..i + |FIGURE_CALL|];
    assert OccursAt(r, "fig = plt.figure", i);
    ContainsIffOccurs(r, "fig = plt.figure");
  }

  /** The prologue spells `fig = plt.figure` wherever it goes. */
  lemma PrologueSpellsFigure(code: string, p: int)
    requires 0 <= p <= |code|
    ensures HasFigure(code[..p] + FIG_PROLOGUE + code[p..])
  {
    var r := code[..p] + FIG_PROLOGUE + code[p..];
    assert r[p..p + 16] == FIG_PROLOGUE[..16];
    assert OccursAt(r, "fig = plt.figure", p);
    ContainsIffOccurs(r, "fig = plt.figure");
  }

  /** Once the intended rewrite has changed the code, the code creates a
      figure. */
  lemma {:induction false} IntendedCreatesFigure(code: string)
    requires InsertFigObjectIntended(code) != code
    ensures HasFigure(InsertFigObjectIntended(code))
  {
    var first := FirstOccurrence(code, ALIASES);
    var i := Find(code, FIGURE_CALL);
    FindBounds(code, FIGURE_CALL);
    assert InsertFigObjectIntended(code) == PlacedIntended(code, first, i);
    if i != -1 {
      AssignSpellsFigure(code, i);
    } else {
      PrologueSpellsFigure(code, first);
    }
  }

  /** A second run of the intended rewrite changes nothing. */
  lemma IntendedIdempotent(code: string)
    ensures InsertFigObjectIntended(InsertFigObjectIntended(code)) == InsertFigObjectIntended(code)
  {
    if InsertFigObjectIntended(code) != code {
      IntendedCreatesFigure(code);
    }
  }

  /** Once an alias is found, the as-written rewrite lengthens the code. */
  lemma {:induction false} AsWrittenGrows(code: string)
    requires !HasFigure(code) && FirstOccurrence(code, ALIASES) != -1
    ensures |InsertFigObject(code)| >= |code| + |FIG_ASSIGN|
  {
    FindBounds(code, FIGURE_CALL);
    var i := Find(code, FIGURE_CALL);
    var close := if i == -1 then -1 else FindFrom(code, ")", i);
    assert InsertFigObject(code) == Placed(code, FirstOccurrence(code, ALIASES), i, close);
  }

  /** The example's result does not spell `fig = plt.figure`. */
  lemma ExampleResultLacksFigure(code: string)
    requires code == "a;" + FIG_ASSIGN + "a;" + FIGURE_CALL + "("
    ensures !HasFigure(code)
  {
    var pat := "fig = plt.figure";
    assert code[..9] == "a;fig = a";
    forall j | 0 <= j ensures !OccursAt(code, pat, j) {
      if j + 16 <= |code| {
        assert code[j..j + 16][0] == code[j];
        if j == 2 {
          assert code[j..j + 16][6] == code[8] == 'a';
        } else if j == 0 {
          assert code[0] == 'a';
        } else if j == 1 {
          assert code[1] == ';';
        } else if j == 3 {
          assert code[3] == 'i';
        } else if j == 4 {
          assert code[4] == 'g';
        } else {
          assert code[5] == ' ';
        }
      }
    }
    ContainsIffOccurs(code, "fig = plt.figure");
    NotContainsLong(code, "fig, ax = plt.subplots()");
  }

  /** The code as written is not idempotent: a second run on the example's
      result inserts again. */
  lemma AsWrittenNotIdempotent(input: string)
    requires input == "a;" + FIGURE_CALL + "("
    ensures InsertFigObject(InsertFigObject(input)) != InsertFigObject(input)
  {
    DuplicationExample(input);
    var code := "a;" + FIG_ASSIGN + "a;" + FIGURE_CALL + "(";
    assert InsertFigObject(input) == code;
    ExampleResultLacksFigure(code);
    assert code[10..20] == FIGURE_CALL;
    assert OccursAt(code, FIGURE_CALL, 10);
    FigureCallIsAnAlias(code);
    AsWrittenGrows(code);
  }
}
