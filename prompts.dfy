/** The prompt texts of planning/Planning.py and `modify_prompt` as a
    function on buffer states: appending the chain-of-thought and markdown
    suffixes to the last message, and removing them with `replace`. */
module Prompts {
  import opened Messages
  import opened Text
  import opened BufferSpec
  import BufferProps

  // ------------------------------------------------------------- the suffixes

  const COT_TAIL := "一步步思考并得出结论。"
  /** `cot_prompt` */
  const COT := "请" + COT_TAIL
  const MD_HEAD := "任何回答都"
  const MD_TAIL := "以markdown格式进行输出。"
  /** `md_prompt` */
  const MD := MD_HEAD + "请" + MD_TAIL

  /** `s` written `n` times. */
  function Rep(s: string, n: nat): (r: string)
    ensures |r| == n * |s|
  {
    if n == 0 then "" else s + Rep(s, n - 1)
  }

  /** `f` applied `n` times. */
  function Iterate(f: string -> string, x: string, n: nat): string
    decreases n
  {
    if n == 0 then x else Iterate(f, f(x), n - 1)
  }

  function AddSuffix(suffix: string): string -> string {
    x => x + suffix
  }

  function RemoveAll(pat: string): string -> string {
    x => Strip(x, pat)
  }

  lemma {:induction false} IterateAddSuffix(x: string, suffix: string, n: nat)
    ensures Iterate(AddSuffix(suffix), x, n) == x + Rep(suffix, n)
    decreases n
  {
    if n > 0 {
      IterateAddSuffix(x + suffix, suffix, n - 1);
      assert Rep(suffix, n) == suffix + Rep(suffix, n - 1);
    }
  }

  lemma {:induction false} IterateRemoveAbsent(x: string, pat: string, n: nat)
    requires !Contains(x, pat)
    ensures Iterate(RemoveAll(pat), x, n) == x
    decreases n
  {
    if n > 0 {
      StripAbsent(x, pat);
      IterateRemoveAbsent(x, pat, n - 1);
    }
  }

  /** Stripping every copy of `p` from a run of copies leaves nothing. */
  lemma {:induction false} StripRep(p: string, n: nat)
    requires |p| > 0
    ensures Strip(Rep(p, n), p) == ""
    decreases n
  {
    if n > 0 {
      StripLeading(p, Rep(p, n - 1));
      StripRep(p, n - 1);
    }
  }

  lemma {:induction false} RepLacks(p: string, n: nat, ch: char)
    requires ch !in p
    ensures ch !in Rep(p, n)
    decreases n
  {
    if n > 0 {
      RepLacks(p, n - 1, ch);
    }
  }

  /** A text lacking the first character of `pat` cannot contain it. */
  lemma LacksHead(s: string, pat: string)
    requires |pat| > 0 && pat[0] !in s
    ensures !Contains(s, pat)
  {
    ContainsIffOccurs(s, pat);
    forall i | 0 <= i ensures !OccursAt(s, pat, i) {
      if i + |pat| <= |s| {
        assert s[i..i + |pat|][0] == s[i];
      }
    }
  }

  /** An occurrence of `pat` starting `j` characters before `x` would have
      to agree with `x`; some character shows it does not. */
  predicate Clashes(pat: string, j: int, x: string) {
    exists k :: 0 <= k < |x| && 0 <= j + k < |pat| && pat[j + k] != x[k]
  }

  /** No occurrence of `pat` starts inside `c` in `c + x`, when `c` lacks
      `pat` and no shift of `pat` agrees with the front of `x`. */
  lemma FrontIntact(c: string, x: string, pat: string)
    requires !Contains(c, pat)
    requires forall j :: 1 <= j < |pat| ==> Clashes(pat, j, x)
    ensures forall i :: 0 <= i < |c| ==> !OccursAt(c + x, pat, i)
  {
    ContainsIffOccurs(c, pat);
    forall i | 0 <= i < |c| ensures !OccursAt(c + x, pat, i) {
      if i + |pat| <= |c| {
        assert (c + x)[i..i + |pat|] == c[i..i + |pat|];
        assert !OccursAt(c, pat, i);
      } else if i + |pat| <= |c + x| {
        var j := |c| - i;
        assert Clashes(pat, j, x);
        var k :| 0 <= k < |x| && 0 <= j + k < |pat| && pat[j + k] != x[k];
        assert (c + x)[i..i + |pat|][j + k] == x[k];
      }
    }
  }

  /** When no occurrence starts inside `c` and `x` lacks `pat`, so does
      `c + x`. */
  lemma LacksJoined(c: string, x: string, pat: string)
    requires forall i :: 0 <= i < |c| ==> !OccursAt(c + x, pat, i)
    requires !Contains(x, pat)
    ensures !Contains(c + x, pat)
  {
    ContainsIffOccurs(x, pat);
    ContainsIffOccurs(c + x, pat);
    forall i | |c| <= i ensures !OccursAt(c + x, pat, i) {
      if i + |pat| <= |c + x| {
        assert (c + x)[i..i + |pat|] == x[i - |c|..i - |c| + |pat|];
        assert !OccursAt(x, pat, i - |c|);
      }
    }
  }

  /** A text that begins with the first character of `pat` clashes with
      every shift of `pat`, when that character occurs in `pat` only once. */
  lemma HeadClashes(pat: string, x: string)
    requires |pat| > 0 && |x| > 0 && x[0] == pat[0] && pat[0] !in pat[1..]
    ensures forall j :: 1 <= j < |pat| ==> Clashes(pat, j, x)
  {
    forall j | 1 <= j < |pat| ensures Clashes(pat, j, x) {
      assert pat[j] == pat[1..][j - 1];
    }
  }

  /** The markdown suffix clashes with every shift against a text that
      begins with the chain-of-thought suffix: its only '请' is followed by
      '以', not '一'. */
  lemma MdClashesWithCot(x: string)
    requires IsPrefix(COT, x)
    ensures forall j :: 1 <= j < |MD| ==> Clashes(MD, j, x)
  {
    assert '请' !in MD_HEAD && '请' !in MD_TAIL;
    assert |MD_HEAD| == 5 && MD_TAIL[0] == '以' && COT_TAIL[0] == '一';
    assert x[0] == COT[0] == '请' && x[1] == COT[1];
    forall j | 1 <= j < |MD| ensures Clashes(MD, j, x) {
      if j < 5 {
        assert MD[j] == MD_HEAD[j];
        assert MD[j] != x[0];
      } else if j == 5 {
        assert MD[6] == MD_TAIL[0];
        assert MD[j + 1] != x[1];
      } else {
        assert MD[j] == MD_TAIL[j - 6];
        assert MD[j] != x[0];
      }
    }
  }

  lemma HeadsAreUnique()
    ensures |COT| > 0 && COT[0] !in COT[1..]
    ensures |MD| > 0 && MD[0] !in MD[1..]
    ensures MD[0] !in COT
  {
    assert COT[1..] == COT_TAIL;
    assert '请' !in COT_TAIL;
    assert MD[1..] == MD_HEAD[1..] + "请" + MD_TAIL;
    assert '任' !in MD_HEAD[1..] && '任' !in MD_TAIL;
    assert '任' !in COT_TAIL;
  }

  /** Removing the markdown suffix (at least once if it was appended)
      leaves the text and its chain-of-thought suffixes. */
  lemma MdStage(c: string, a: nat, b: nat, m: nat)
    requires !Contains(c, COT) && !Contains(c, MD)
    requires b > 0 ==> m > 0
    ensures Iterate(RemoveAll(MD), c + Rep(COT, a) + Rep(MD, b), m) == c + Rep(COT, a)
  {
    var rc := Rep(COT, a);
    var rm := Rep(MD, b);
    CotSuffixLacksMd(c, a);
    if b > 0 {
      MdSuffixStripped(c + rc, b);
      IterateRemoveAbsent(c + rc, MD, m - 1);
    } else {
      assert c + rc + rm == c + rc;
      IterateRemoveAbsent(c + rc, MD, m);
    }
  }

  /** One removal pass takes off all the Markdown suffixes behind a text
      that has none. */
  lemma MdSuffixStripped(x: string, b: nat)
    requires !Contains(x, MD) && b > 0
    ensures Strip(x + Rep(MD, b), MD) == x
  {
    HeadsAreUnique();
    var rm := Rep(MD, b);
    HeadClashes(MD, rm);
    FrontIntact(x, rm, MD);
    StripKeepsFront(x, rm, MD);
    StripRep(MD, b);
    assert x + "" == x;
  }

  /** Appending chain-of-thought suffixes introduces no Markdown suffix. */
  lemma CotSuffixLacksMd(c: string, a: nat)
    requires !Contains(c, MD)
    ensures !Contains(c + Rep(COT, a), MD)
  {
    HeadsAreUnique();
    var rc := Rep(COT, a);
    RepLacks(COT, a, MD[0]);
    LacksHead(rc, MD);
    if a > 0 {
      MdClashesWithCot(rc);
      FrontIntact(c, rc, MD);
      LacksJoined(c, rc, MD);
    } else {
      assert c + rc == c;
    }
  }

  /** Removing the chain-of-thought suffix (at least once if it was
      appended) restores the text. */
  lemma CotStage(c: string, a: nat, k: nat)
    requires !Contains(c, COT)
    requires a > 0 ==> k > 0
    ensures Iterate(RemoveAll(COT), c + Rep(COT, a), k) == c
  {
    HeadsAreUnique();
    var rc := Rep(COT, a);
    if a > 0 {
      HeadClashes(COT, rc);
      FrontIntact(c, rc, COT);
      StripKeepsFront(c, rc, COT);
      StripRep(COT, a);
      assert Strip(c + rc, COT) == c;
      IterateRemoveAbsent(c, COT, k - 1);
    } else {
      assert c + rc == c;
      IterateRemoveAbsent(c, COT, k);
    }
  }

  /** Removing the markdown suffix `m` times and then the chain-of-thought
      suffix `k` times undoes appending them `a` and `b` times, when the
      original text contains neither and each removal runs at least once
      for a suffix that was appended. */
  lemma RemoveUndoesAdd(c: string, a: nat, b: nat, k: nat, m: nat)
    requires !Contains(c, COT) && !Contains(c, MD)
    requires a > 0 ==> k > 0
    requires b > 0 ==> m > 0
    ensures Iterate(RemoveAll(COT), Iterate(RemoveAll(MD), c + Rep(COT, a) + Rep(MD, b), m), k) == c
  {
    MdStage(c, a, b, m);
    CotStage(c, a, k);
  }

  // ----------------------------------------------------------- modify_prompt

  /** `s` with the content of its last message replaced by `c`. */
  function WithLast(s: seq<Message>, c: string): (r: seq<Message>)
    requires |s| > 0
    ensures |r| == |s| && r[..|s| - 1] == s[..|s| - 1]
    ensures r[|s| - 1] == s[|s| - 1].(content := c)
  {
    s[..|s| - 1] + [s[|s| - 1].(content := c)]
  }

  function LastContent(s: seq<Message>): string
    requires |s| > 0
  {
    s[|s| - 1].content
  }

  lemma WithLastFacts(s: seq<Message>, c: string, d: string)
    requires |s| > 0
    ensures UpdateLast(s, AddSuffix(d)) == WithLast(s, LastContent(s) + d)
    ensures UpdateLast(s, RemoveAll(d)) == WithLast(s, Strip(LastContent(s), d))
    ensures WithLast(WithLast(s, c), d) == WithLast(s, d)
    ensures LastContent(WithLast(s, c)) == c
    ensures WithLast(s, LastContent(s)) == s
  {
  }

  lemma WithLastSplit(p: seq<Message>, h: seq<Message>, c: string)
    requires |h| > 0
    ensures WithLast(p + h, c) == p + WithLast(h, c)
    ensures LastContent(p + h) == LastContent(h)
  {
    assert (p + h)[..|p + h| - 1] == p + h[..|h| - 1];
  }

  /** The `action` argument: 'add', 'remove', or any other string, which
      changes nothing. */
  datatype Action = Add | Remove | Other

  /** One `if` block of `modify_prompt`: the same rewrite of
      `messages[-1]`, then of `history_messages[-1]`. */
  function EditBoth(s: State, f: string -> string): (r: Step)
    ensures r.status.Raised? ==> r.status.error == IndexError
  {
    var st := BufferSpec.EditLastMessage(s, f);
    if st.status.Raised? then st else BufferSpec.EditLastHistory(st.state, f)
  }

  /** `modify_prompt(messages, action, enable_md_output, enable_COT)`: 'add'
      appends the chain-of-thought suffix, then the markdown one; 'remove'
      deletes every markdown suffix, then every chain-of-thought suffix. */
  function ModifyPrompt(s: State, action: Action, enableMd: bool, enableCot: bool): (r: Step)
    ensures r.status.Raised? ==> r.status.error == IndexError
  {
    match action
    case Add => Blocks(s, AddSuffix(COT), enableCot, AddSuffix(MD), enableMd)
    case Remove => Blocks(s, RemoveAll(MD), enableMd, RemoveAll(COT), enableCot)
    case Other => Step(s, Ok)
  }

  /** Two consecutive `if` blocks; the second is skipped when the first
      raised. */
  function Blocks(s: State, f1: string -> string, first: bool, f2: string -> string, second: bool): (r: Step)
    ensures r.status.Raised? ==> r.status.error == IndexError
  {
    var a := if first then EditBoth(s, f1) else Step(s, Ok);
    if a.status.Raised? || !second then a else EditBoth(a.state, f2)
  }

  /** A buffer whose last message and last history message both exist. */
  predicate Editable(s: State) {
    Valid(s) && |s.messages| > 0 && |s.historyMessages| > 0
  }

  /** How many times one rewrite reaches the last message: twice when
      `messages[-1]` and `history_messages[-1]` are one object. */
  function Reach(s: State): nat {
    if s.aliased then 2 else 1
  }

  /** What `modify_prompt` does to one content when each rewrite reaches
      it `n` times. */
  function Rewrite(x: string, action: Action, enableMd: bool, enableCot: bool, n: nat): string {
    var nm := if enableMd then n else 0;
    var nc := if enableCot then n else 0;
    match action
    case Add => Iterate(AddSuffix(MD), Iterate(AddSuffix(COT), x, nc), nm)
    case Remove => Iterate(RemoveAll(COT), Iterate(RemoveAll(MD), x, nm), nc)
    case Other => x
  }

  /** One block rewrites exactly the two last contents, each as often as
      the rewrite reaches it, and keeps the buffer editable. */
  lemma EditBothShape(s: State, f: string -> string)
    requires Editable(s)
    ensures var n := Reach(s);
      EditBoth(s, f) == Step(s.(messages := WithLast(s.messages, Iterate(f, LastContent(s.messages), n)),
                                historyMessages := WithLast(s.historyMessages, Iterate(f, LastContent(s.historyMessages), n))), Ok)
    ensures Editable(EditBoth(s, f).state) && EditBoth(s, f).state.aliased == s.aliased
  {
    var ms := s.messages;
    var h := s.historyMessages;
    assert Iterate(f, LastContent(h), 2) == f(f(LastContent(h)));
    assert Iterate(f, LastContent(ms), 1) == f(LastContent(ms));
    assert Iterate(f, LastContent(h), 1) == f(LastContent(h));
    if s.aliased {
      WithLastSplit(s.systemMessages, h, LastContent(h));
      WithLastSplit(s.systemMessages, h, f(LastContent(h)));
      WithLastSplit(s.systemMessages, h, f(f(LastContent(h))));
      WithLastSplit(s.systemMessages, WithLast(h, f(LastContent(h))), f(f(LastContent(h))));
      assert UpdateLast(ms, f) == WithLast(ms, f(LastContent(ms)));
      assert UpdateLast(h, f) == WithLast(h, f(LastContent(h)));
      var s1 := s.(messages := WithLast(ms, f(LastContent(ms))), historyMessages := WithLast(h, f(LastContent(h))));
      assert BufferSpec.EditLastMessage(s, f) == Step(s1, Ok);
      assert UpdateLast(s1.messages, f) == WithLast(ms, f(f(LastContent(ms))));
      assert UpdateLast(s1.historyMessages, f) == WithLast(h, f(f(LastContent(h))));
    } else {
      assert UpdateLast(ms, f) == WithLast(ms, f(LastContent(ms)));
      assert UpdateLast(h, f) == WithLast(h, f(LastContent(h)));
    }
  }

  /** Two blocks rewrite the two last contents by the first rewrite, then
      the second, each as often as a rewrite reaches them. */
  lemma BlocksShape(s: State, f1: string -> string, first: bool, f2: string -> string, second: bool)
    requires Editable(s)
    ensures var n1 := if first then Reach(s) else 0;
      var n2 := if second then Reach(s) else 0;
      Blocks(s, f1, first, f2, second) ==
        Step(s.(messages := WithLast(s.messages, Iterate(f2, Iterate(f1, LastContent(s.messages), n1), n2)),
                historyMessages := WithLast(s.historyMessages, Iterate(f2, Iterate(f1, LastContent(s.historyMessages), n1), n2))), Ok)
  {
    var n := Reach(s);
    var n1 := if first then n else 0;
    var n2 := if second then n else 0;
    var cm := LastContent(s.messages);
    var ch := LastContent(s.historyMessages);
    var a := if first then EditBoth(s, f1) else Step(s, Ok);
    if first {
      EditBothShape(s, f1);
    } else {
      WithLastFacts(s.messages, cm, cm);
      WithLastFacts(s.historyMessages, ch, ch);
    }
    assert a == Step(s.(messages := WithLast(s.messages, Iterate(f1, cm, n1)),
                        historyMessages := WithLast(s.historyMessages, Iterate(f1, ch, n1))), Ok);
    WithLastFacts(s.messages, Iterate(f1, cm, n1), Iterate(f2, Iterate(f1, cm, n1), n2));
    WithLastFacts(s.historyMessages, Iterate(f1, ch, n1), Iterate(f2, Iterate(f1, ch, n1), n2));
    if second {
      assert Editable(a.state) && Reach(a.state) == n;
      EditBothShape(a.state, f2);
    }
  }

  /** `modify_prompt` changes nothing but the content of the last message
      and of the last history message, and rewrites each as often as the
      rewrite reaches it. */
  lemma ModifyPromptShape(s: State, action: Action, enableMd: bool, enableCot: bool)
    requires Editable(s)
    ensures var n := Reach(s);
      ModifyPrompt(s, action, enableMd, enableCot) ==
        Step(s.(messages := WithLast(s.messages, Rewrite(LastContent(s.messages), action, enableMd, enableCot, n)),
                historyMessages := WithLast(s.historyMessages, Rewrite(LastContent(s.historyMessages), action, enableMd, enableCot, n))), Ok)
  {
    match action
    case Add => BlocksShape(s, AddSuffix(COT), enableCot, AddSuffix(MD), enableMd);
    case Remove => BlocksShape(s, RemoveAll(MD), enableMd, RemoveAll(COT), enableCot);
    case Other =>
      WithLastFacts(s.messages, "", "");
      WithLastFacts(s.historyMessages, "", "");
  }

  /** 'remove' after 'add' restores the buffer when neither last content
      contains a suffix. */
  lemma ModifyPromptRoundTrip(s: State, enableMd: bool, enableCot: bool)
    requires Editable(s)
    requires !Contains(LastContent(s.messages), COT) && !Contains(LastContent(s.messages), MD)
    requires !Contains(LastContent(s.historyMessages), COT) && !Contains(LastContent(s.historyMessages), MD)
    ensures var a := ModifyPrompt(s, Add, enableMd, enableCot);
      a.status == Ok && ModifyPrompt(a.state, Remove, enableMd, enableCot) == Step(s, Ok)
  {
    var n := Reach(s);
    var nm := if enableMd then n else 0;
    var nc := if enableCot then n else 0;
    var cm := LastContent(s.messages);
    var ch := LastContent(s.historyMessages);
    ModifyPromptShape(s, Add, enableMd, enableCot);
    var s1 := ModifyPrompt(s, Add, enableMd, enableCot).state;
    var am := Rewrite(cm, Add, enableMd, enableCot, n);
    var ah := Rewrite(ch, Add, enableMd, enableCot, n);
    IterateAddSuffix(cm, COT, nc);
    IterateAddSuffix(cm + Rep(COT, nc), MD, nm);
    IterateAddSuffix(ch, COT, nc);
    IterateAddSuffix(ch + Rep(COT, nc), MD, nm);
    WithLastFacts(s.messages, am, cm);
    WithLastFacts(s.historyMessages, ah, ch);
    if s.aliased {
      WithLastSplit(s.systemMessages, s.historyMessages, ah);
      WithLastSplit(s.systemMessages, s.historyMessages, ch);
    }
    assert Editable(s1) && Reach(s1) == n;
    ModifyPromptShape(s1, Remove, enableMd, enableCot);
    RemoveUndoesAdd(cm, nc, nm, nc, nm);
    RemoveUndoesAdd(ch, nc, nm, nc, nm);
  }

  /** The source's aliasing quirk: when `messages[-1]` is the last history
      message itself, 'add' appends each suffix twice; on a freshly copied
      buffer, once. */
  lemma AddAppendsTwiceWhenShared(s: State)
    requires Editable(s)
    ensures var r := ModifyPrompt(s, Add, true, true);
      var c := LastContent(s.historyMessages);
      r.status == Ok &&
      (s.aliased ==> LastContent(r.state.historyMessages) == c + COT + COT + MD + MD) &&
      (!s.aliased ==> LastContent(r.state.historyMessages) == c + COT + MD)
  {
    var c := LastContent(s.historyMessages);
    ModifyPromptShape(s, Add, true, true);
    IterateAddSuffix(c, COT, Reach(s));
    IterateAddSuffix(c + Rep(COT, Reach(s)), MD, Reach(s));
    assert Rep(COT, 2) == COT + COT;
    assert Rep(MD, 2) == MD + MD;
    assert Rep(COT, 1) == COT && Rep(MD, 1) == MD;
    WithLastFacts(s.historyMessages, Rewrite(c, Add, true, true, Reach(s)), c);
  }

  // ------------------------------------------ add_task_decomposition_prompt

  const DECOMPOSE_PRE := "现有用户问题如下："
  const DECOMPOSE_POST := "。为了回答这个问题，总共需要分几步来执行呢？若无需拆分执行步骤，请直接回答原始问题。"

  /** The task-decomposition question built around a user question. */
  function Decompose(q: string): string {
    DECOMPOSE_PRE + q + DECOMPOSE_POST
  }

  /** The question inside a task-decomposition question, if `t` is one. */
  function Unwrap(t: string): Option<string> {
    if |t| >= |DECOMPOSE_PRE| + |DECOMPOSE_POST| && t[..|DECOMPOSE_PRE|] == DECOMPOSE_PRE &&
       t[|t| - |DECOMPOSE_POST|..] == DECOMPOSE_POST
    then Some(t[|DECOMPOSE_PRE|..|t| - |DECOMPOSE_POST|])
    else None
  }

  /** The wrapped question can be read back. */
  lemma UnwrapDecompose(q: string)
    ensures Unwrap(Decompose(q)) == Some(q)
  {
    var t := Decompose(q);
    assert t[..|DECOMPOSE_PRE|] == DECOMPOSE_PRE;
    assert t[|t| - |DECOMPOSE_POST|..] == DECOMPOSE_POST;
    assert t[|DECOMPOSE_PRE|..|t| - |DECOMPOSE_POST|] == q;
  }

  /** Whatever unwraps is a wrapped question. */
  lemma DecomposeUnwrap(t: string)
    requires Unwrap(t).Some?
    ensures Decompose(Unwrap(t).value) == t
  {
    var q := Unwrap(t).value;
    assert t == t[..|DECOMPOSE_PRE|] + q + t[|t| - |DECOMPOSE_POST|..];
  }

  /** Different questions give different prompts. */
  lemma DecomposeInjective(p: string, q: string)
    requires Decompose(p) == Decompose(q)
    ensures p == q
  {
    UnwrapDecompose(p);
    UnwrapDecompose(q);
  }

  /** `{"role": "assistant", "content": c}` */
  function AssistantMessage(c: string): Message {
    Message("assistant", c, [], false, None, None)
  }

  /** The eight few-shot messages: four questions, each wrapped, and a
      canned answer after each. */
  function FewShot(): (r: seq<Message>)
    ensures |r| == 8
    ensures forall k :: 0 <= k < 4 ==> r[2 * k].role == "user" && Unwrap(r[2 * k].content).Some?
    ensures forall k :: 0 <= k < 4 ==> r[2 * k + 1].role == "assistant"
  {
    var q1, q2, q3, q4 := "请什么是机器学习？", "请帮我介绍下OpenAI。",
      "围绕数据库中的user_payments表，我想要检查该表是否存在缺失值",
      "我想寻找合适的缺失值填补方法，来填补user_payments数据集中的缺失值。";
    UnwrapDecompose(q1);
    UnwrapDecompose(q2);
    UnwrapDecompose(q3);
    UnwrapDecompose(q4);
    [UserMessage(Decompose(q1)), AssistantMessage("机器学习是一种人工智能（AI）的形式..."),
     UserMessage(Decompose(q2)), AssistantMessage("OpenAI是一家开发和应用友好人工智能的公司..."),
     UserMessage(Decompose(q3)), AssistantMessage("为了检查user_payments数据集是否存在缺失值..."),
     UserMessage(Decompose(q4)), AssistantMessage("为了找到合适的缺失值填充方法...")]
  }

  /** `messages_append` of each item in turn; the first that raises stops
      the rest. */
  function AppendAll(s: State, items: seq<Message>, tok: Message -> nat): (r: Step)
    ensures r.status.Raised? ==> r.status.error == IndexError
    decreases |items|
  {
    if items == [] then Step(s, Ok)
    else
      var st := AppendAll(s, items[..|items| - 1], tok);
      if st.status.Raised? then st else Append(st.state, Single(items[|items| - 1]), tok)
  }

  /** The last question copied with its content wrapped. */
  function Rephrased(m: Message): Message {
    m.(content := Decompose(m.content))
  }

  /** `add_task_decomposition_prompt(messages)`: the derived buffer. The
      caller's buffer is only read. */
  function TaskDecomposition(s: State, enc: Tokenizer): (r: Step)
    ensures r.status.Raised? ==> r.status.error == IndexError
  {
    var p := Pop(CopyOf(s, enc), true, Some(-1), enc.message);
    if p.status.Raised? then p
    else
      var e := AppendAll(p.state, FewShot(), enc.message);
      if e.status.Raised? then e
      else if |s.historyMessages| == 0 then Step(e.state, Raised(IndexError))
      else Append(e.state, Single(Rephrased(s.historyMessages[|s.historyMessages| - 1])), enc.message)
  }

  /** When the count stays under the threshold (or none is set), appending
      never evicts: a run of appends extends the history and adds each
      message's tokens. */
  lemma {:induction false} AppendAllFits(s: State, items: seq<Message>, tok: Message -> nat)
    requires Valid(s) && s.aliased && Aligned(s)
    requires s.tokensThr.Some? ==> s.tokensCount + SumTokens(items, tok) < s.tokensThr.value
    ensures var r := AppendAll(s, items, tok);
      r.status == Ok && Valid(r.state) && r.state.aliased && Aligned(r.state) &&
      r.state.tokensThr == s.tokensThr && r.state.systemMessages == s.systemMessages &&
      r.state.historyMessages == s.historyMessages + items &&
      r.state.tokensCount == s.tokensCount + SumTokens(items, tok)
    decreases |items|
  {
    if items == [] {
      assert s.historyMessages + items == s.historyMessages;
    } else {
      var init := items[..|items| - 1];
      var last := items[|items| - 1];
      AppendAllFits(s, init, tok);
      var st := AppendAll(s, init, tok).state;
      BufferProps.AppendMessage(st, last, tok);
      BufferProps.PopPartitions(Grown(st, Single(last), tok), false, None, tok);
      assert items == init + [last];
      assert s.historyMessages + items == s.historyMessages + init + [last];
    }
  }

  /** The copy with its last history message popped, when the copy's
      constructor keeps the system messages and nothing is evicted. */
  lemma CopyPopFits(s: State, enc: Tokenizer)
    requires Aligned(s) && |s.historyMessages| > 0 && UnderThreshold(s)
    requires !DropsSystem(Contents(s.systemMessages), s.tokensThr, enc)
    requires !ClearsAll(Contents(s.systemMessages), s.historyMessages[0].content, s.tokensThr, enc)
    ensures var h := s.historyMessages;
      var p := Pop(CopyOf(s, enc), true, Some(-1), enc.message);
      p.status == Ok && Valid(p.state) && p.state.aliased && Aligned(p.state) &&
      p.state.tokensThr == s.tokensThr &&
      p.state.systemMessages == SystemMessages(Contents(s.systemMessages)) &&
      p.state.historyMessages == h[..|h| - 1] &&
      p.state.tokensCount == s.tokensCount - enc.message(h[|h| - 1])
  {
    var c := CopyOf(s, enc);
    assert c.systemMessages == SystemMessages(Contents(s.systemMessages));
  }

  /** When the caller's buffer respects its threshold, its copy keeps the
      system messages, and the derived buffer's count stays under the
      threshold (always so without one), the derived buffer holds the
      caller's history minus its last message, the eight few-shot messages
      and the rewritten question, under the caller's system messages as the
      copy rebuilds them. */
  lemma TaskDecompositionShape(s: State, enc: Tokenizer)
    requires Aligned(s) && |s.historyMessages| > 0 && UnderThreshold(s)
    requires !DropsSystem(Contents(s.systemMessages), s.tokensThr, enc)
    requires !ClearsAll(Contents(s.systemMessages), s.historyMessages[0].content, s.tokensThr, enc)
    requires var h := s.historyMessages;
      s.tokensThr.Some? ==>
        s.tokensCount - enc.message(h[|h| - 1]) + SumTokens(FewShot(), enc.message) +
          enc.message(Rephrased(h[|h| - 1])) < s.tokensThr.value
    ensures var h := s.historyMessages;
      var q := Rephrased(h[|h| - 1]);
      var r := TaskDecomposition(s, enc);
      r.status == Ok && Valid(r.state) && r.state.aliased && Aligned(r.state) &&
      r.state.tokensThr == s.tokensThr &&
      r.state.systemMessages == SystemMessages(Contents(s.systemMessages)) &&
      r.state.historyMessages == h[..|h| - 1] + FewShot() + [q] &&
      r.state.tokensCount == s.tokensCount - enc.message(h[|h| - 1]) + SumTokens(FewShot(), enc.message) + enc.message(q)
  {
    var h := s.historyMessages;
    var q := Rephrased(h[|h| - 1]);
    var shots := FewShot();
    CopyPopFits(s, enc);
    var p := Pop(CopyOf(s, enc), true, Some(-1), enc.message).state;
    AppendAllFits(p, shots, enc.message);
    var e := AppendAll(p, shots, enc.message).state;
    BufferProps.AppendMessage(e, q, enc.message);
    BufferProps.PopPartitions(Grown(e, Single(q), enc.message), false, None, enc.message);
  }

  /** A message whose content the task-decomposition rewrite would leave
      as a wrapped question. */
  lemma RephrasedUnwraps(m: Message)
    ensures Unwrap(Rephrased(m).content) == Some(m.content)
    ensures Rephrased(m).(content := m.content) == m
  {
    UnwrapDecompose(m.content);
  }

  // -------------------------------------------------------- function_to_call

  /** How the called tool ended: with a returned text, or with an exception
      whose `str` is given. */
  datatype ToolOutcome = Returned(text: string) | Threw(message: string)

  const ERROR_PREFIX := "函数运行报错如下:"
  /** The substring `check_function_response` looks for. */
  const SENTINEL := "报错"

  /** The message `function_to_call` builds from the first tool call and
      the tool's outcome. */
  function ToolResultMessage(call: ToolCall, outcome: ToolOutcome): (r: Message)
    ensures r.role == "tool" && r.toolCallId == Some(call.id) && r.name == Some(call.name)
    ensures r.toolCalls == [] && !r.functionCall
  {
    var content := match outcome
      case Returned(t) => t
      case Threw(e) => ERROR_PREFIX + e;
    Message("tool", content, [], false, Some(call.id), Some(call.name))
  }

  /** A failing tool always yields a result that the sentinel test routes
      to debugging. */
  lemma FailureHitsSentinel(call: ToolCall, e: string)
    ensures Contains(ToolResultMessage(call, Threw(e)).content, SENTINEL)
  {
    var c := ToolResultMessage(call, Threw(e)).content;
    assert c == "函数运行" + SENTINEL + ("如下:" + e);
    assert OccursAt(c, SENTINEL, 4);
    ContainsIffOccurs(c, SENTINEL);
  }

  /** A tool that returns normally is routed by what its text says. */
  lemma ReturnedRoutesByText(call: ToolCall, t: string)
    ensures Contains(ToolResultMessage(call, Returned(t)).content, SENTINEL) <==> Contains(t, SENTINEL)
  {
  }

  // ------------------------------------------------------ convert_to_markdown

  const FENCE := "```"

  /** `convert_to_markdown(code, language)` */
  function ConvertToMarkdown(code: string, language: string): string {
    FENCE + language + "\n" + code + "\n" + FENCE
  }

  /** The language and the code of a fenced block, if `t` is one. */
  function ParseFence(t: string): Option<(string, string)> {
    if |t| < 8 || t[..3] != FENCE || t[|t| - 4..] != "\n" + FENCE then None
    else
      var j := Find(t[3..], "\n");
      if j < 0 || 3 + j + 1 > |t| - 4 then None
      else Some((t[3 + j + 1..|t| - 4], t[3..3 + j]))
  }

  /** A fenced block gives back its code and language, when the language
      has no line break. */
  lemma FenceRoundTrip(code: string, language: string)
    requires '\n' !in language
    ensures ParseFence(ConvertToMarkdown(code, language)) == Some((code, language))
  {
    var t := ConvertToMarkdown(code, language);
    var u := t[3..];
    assert u == language + "\n" + code + "\n" + FENCE;
    assert OccursAt(u, "\n", |language|);
    var j := Find(u, "\n");
    assert j != -1;
    forall k | 0 <= k < |language| ensures !OccursAt(u, "\n", k) {
      assert u[k..k + 1][0] == language[k];
    }
    assert j == |language|;
    assert t[..3] == FENCE;
    assert t[|t| - 4..] == "\n" + FENCE;
    assert t[3 + j + 1..|t| - 4] == code;
    assert t[3..3 + j] == language;
  }

  /** A field Python treats as true: present and not the empty string. */
  predicate Truthy(fields: map<string, string>, key: string) {
    key in fields && fields[key] != ""
  }

  /** The `markdown_code` of `handle_code_response`: the SQL query fenced as
      `sql`, else the Python code fenced as `python`; `None` when neither
      is set and the dictionary itself would be handed to `display`. What
      is shown gives the chosen code and its language back. */
  function RenderCall(fields: map<string, string>): (r: Option<string>)
    ensures r.Some? <==> Truthy(fields, "sql_query") || Truthy(fields, "py_code")
    ensures Truthy(fields, "sql_query") ==> ParseFence(r.value) == Some((fields["sql_query"], "sql"))
    ensures !Truthy(fields, "sql_query") && Truthy(fields, "py_code") ==>
      ParseFence(r.value) == Some((fields["py_code"], "python"))
  {
    if Truthy(fields, "sql_query") then
      FenceRoundTrip(fields["sql_query"], "sql");
      Some(ConvertToMarkdown(fields["sql_query"], "sql"))
    else if Truthy(fields, "py_code") then
      FenceRoundTrip(fields["py_code"], "python");
      Some(ConvertToMarkdown(fields["py_code"], "python"))
    else None
  }

  // ---------------------------------------------------------- fixed prompts

  /** The user prompts of one debugging round: one for efficient debugging,
      three for deep debugging in expert mode. */
  function DebugPrompts(expert: bool): (r: seq<string>)
    ensures |r| == if expert then 3 else 1
  {
    if !expert then ["你编写的代码报错了，请根据报错信息修改代码并重新执行。"]
    else ["之前执行的代码报错了，你觉得代码哪里编写错了？",
          "好的。那么根据你的分析，为了解决这个错误，从理论上来说，应该如何操作呢？",
          "非常好，接下来请按照你的逻辑编写相应代码并运行。"]
  }

  /** What the plan menu's '1' appends after the plan. */
  const PROCEED := "非常好，请按照该流程逐步执行。"

  /** The input that ends the expert re-ask dialogue and the chat loop. */
  const EXIT := "退出"

  /** The prompt asking the model to guide the user to rephrase. */
  function GuidePrompt(question: string): string {
    "以下是用户提问：" + question + "。该问题有些复杂，且用户意图并不清晰。请编写一段话，来引导用户重新提问。"
  }
}
