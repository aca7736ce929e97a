/** What the operations of memory/MessageManager.py guarantee, proved about
    the value model in BufferSpec. */
module BufferProps {
  import opened Messages
  import opened BufferSpec

  // ------------------------------------------------------------ eviction

  /** Eviction that succeeds leaves the count under the threshold. */
  lemma {:induction false} EvictBelowThreshold(h: seq<Message>, tokens: int, thr: Option<int>, tok: Message -> nat)
    requires Evict(h, tokens, thr, tok).Some? && thr.Some?
    ensures Evict(h, tokens, thr, tok).value.tokens < thr.value
    decreases |h|
  {
    if tokens >= thr.value {
      EvictBelowThreshold(h[..|h| - 1], tokens - tok(h[|h| - 1]), thr, tok);
    }
  }

  lemma SumTokensSuffixStep(h: seq<Message>, k: nat, tok: Message -> nat)
    requires k < |h|
    ensures SumTokens(h[k..], tok) == SumTokens(h[..|h| - 1][k..], tok) + tok(h[|h| - 1])
  {
    assert h[k..][..|h[k..]| - 1] == h[..|h| - 1][k..];
  }

  /** Eviction removes a suffix of the history (the newest messages) and
      subtracts exactly their tokens. */
  lemma {:induction false} EvictTrimsTail(h: seq<Message>, tokens: int, thr: Option<int>, tok: Message -> nat)
    requires Evict(h, tokens, thr, tok).Some?
    ensures var t := Evict(h, tokens, thr, tok).value;
      |t.history| <= |h| && t.history == h[..|t.history|] &&
      t.tokens == tokens - SumTokens(h[|t.history|..], tok)
    decreases |h|
  {
    if thr.Some? && tokens >= thr.value {
      var h' := h[..|h| - 1];
      EvictTrimsTail(h', tokens - tok(h[|h| - 1]), thr, tok);
      var t := Evict(h, tokens, thr, tok).value;
      SumTokensSuffixStep(h, |t.history|, tok);
      assert h'[..|t.history|] == h[..|t.history|];
    } else {
      assert h[|h|..] == [];
    }
  }

  /** Eviction stops as soon as the count is under the threshold: every
      shorter cut would have left it at or above. */
  lemma {:induction false} EvictMinimal(h: seq<Message>, tokens: int, thr: Option<int>, tok: Message -> nat, k: nat)
    requires Evict(h, tokens, thr, tok).Some? && thr.Some?
    requires |Evict(h, tokens, thr, tok).value.history| < k <= |h|
    ensures tokens - SumTokens(h[k..], tok) >= thr.value
    decreases |h|
  {
    if k == |h| {
      assert h[k..] == [];
    } else {
      var h' := h[..|h| - 1];
      EvictMinimal(h', tokens - tok(h[|h| - 1]), thr, tok, k);
      SumTokensSuffixStep(h, k, tok);
    }
  }

  /** Eviction raises exactly when even an empty history is over the
      threshold. */
  lemma {:induction false} EvictFailsIff(h: seq<Message>, tokens: int, thr: Option<int>, tok: Message -> nat)
    ensures Evict(h, tokens, thr, tok).None? <==>
      (thr.Some? && tokens - SumTokens(h, tok) >= thr.value)
    decreases |h|
  {
    if thr.Some? && tokens >= thr.value && |h| > 0 {
      EvictFailsIff(h[..|h| - 1], tokens - tok(h[|h| - 1]), thr, tok);
    } else if thr.Some? && tokens < thr.value {
      assert tokens - SumTokens(h, tok) < thr.value;
    }
  }

  // ------------------------------------------------------------ pop

  /** A pop that does not raise re-establishes
      `messages == system_messages + history_messages`. */
  lemma PopPartitions(s: State, manual: bool, index: Option<int>, tok: Message -> nat)
    requires Pop(s, manual, index, tok).status == Ok
    ensures var r := Pop(s, manual, index, tok).state;
      Valid(r) && r.aliased && r.messages == r.systemMessages + r.historyMessages &&
      r.systemMessages == s.systemMessages && r.numOfSystemMessages == s.numOfSystemMessages &&
      r.tokensThr == s.tokensThr && r.systemContentList == s.systemContentList
  {
  }

  /** A pop that does not raise leaves the count under the threshold. */
  lemma PopUnderThreshold(s: State, manual: bool, index: Option<int>, tok: Message -> nat)
    requires Pop(s, manual, index, tok).status == Ok
    ensures UnderThreshold(Pop(s, manual, index, tok).state)
  {
    var e := Evict(s.historyMessages, s.tokensCount, s.tokensThr, tok);
    if s.tokensThr.Some? {
      EvictBelowThreshold(s.historyMessages, s.tokensCount, s.tokensThr, tok);
    }
  }

  /** Manual pop with nothing to evict: index None or -1 removes the last
      message, an index in range removes that one, anything else raises
      ValueError; an empty history raises IndexError for None and -1. */
  lemma ManualPopCases(s: State, index: Option<int>, tok: Message -> nat)
    requires UnderThreshold(s)
    ensures var r := Pop(s, true, index, tok);
      var h := s.historyMessages;
      var idx := if index.None? then -1 else index.value;
      (idx == -1 && |h| > 0 ==>
         r.status == Ok && r.state.historyMessages == h[..|h| - 1] &&
         r.state.tokensCount == s.tokensCount - tok(h[|h| - 1])) &&
      (0 <= idx < |h| ==>
         r.status == Ok && r.state.historyMessages == RemoveAt(h, idx) &&
         r.state.tokensCount == s.tokensCount - tok(h[idx])) &&
      (idx == -1 && |h| == 0 ==> r.status == Raised(IndexError)) &&
      (idx != -1 && !(0 <= idx < |h|) ==> r.status == Raised(ValueError))
  {
    var h := s.historyMessages;
    if |h| > 0 {
      assert RemoveAt(h, |h| - 1) == h[..|h| - 1];
    }
  }

  // ------------------------------------------------------------ append

  /** In a partitioned state, `messages[num:]` after appending is the old
      history followed by what was appended. */
  lemma GrownHistory(s: State, item: Item, tok: Message -> nat)
    requires Valid(s) && s.aliased && Aligned(s)
    ensures Grown(s, item, tok).historyMessages == s.historyMessages + ItemMessages(item)
  {
    var grown := s.systemMessages + s.historyMessages + ItemMessages(item);
    assert grown[|s.systemMessages|..] == s.historyMessages + ItemMessages(item);
  }

  /** Appending one message places it last in the history and adds
      `tok(str(m))` to the count, before eviction; eviction then keeps a
      prefix of that history and leaves the count under the threshold. */
  lemma AppendMessage(s: State, m: Message, tok: Message -> nat)
    requires Valid(s) && s.aliased && Aligned(s)
    ensures var g := Grown(s, Single(m), tok);
      g.historyMessages == s.historyMessages + [m] && g.tokensCount == s.tokensCount + tok(m)
    ensures var r := Append(s, Single(m), tok);
      r.status == Ok ==>
        Valid(r.state) && Aligned(r.state) && UnderThreshold(r.state) &&
        |r.state.historyMessages| <= |s.historyMessages| + 1 &&
        r.state.historyMessages == (s.historyMessages + [m])[..|r.state.historyMessages|]
    ensures var r := Append(s, Single(m), tok);
      (s.tokensThr.None? || s.tokensCount + tok(m) < s.tokensThr.value) ==>
        r.status == Ok && r.state.historyMessages == s.historyMessages + [m] &&
        r.state.tokensCount == s.tokensCount + tok(m) &&
        r.state.messages == s.messages + [m]
  {
    GrownHistory(s, Single(m), tok);
    var g := Grown(s, Single(m), tok);
    var r := Append(s, Single(m), tok);
    if r.status == Ok {
      PopUnderThreshold(g, false, None, tok);
      EvictTrimsTail(g.historyMessages, g.tokensCount, g.tokensThr, tok);
    }
  }

  /** Appending another buffer B extends the history with ALL of
      `B.messages`, B's system messages included, and adds exactly
      `B.tokens_count`, before eviction. */
  lemma AppendBuffer(s: State, b: State, tok: Message -> nat)
    requires Valid(s) && s.aliased && Aligned(s)
    ensures var g := Grown(s, Merged(b.messages, b.tokensCount), tok);
      g.historyMessages == s.historyMessages + b.messages &&
      g.tokensCount == s.tokensCount + b.tokensCount
    ensures Valid(b) && b.aliased ==>
      Grown(s, Merged(b.messages, b.tokensCount), tok).historyMessages ==
        s.historyMessages + b.systemMessages + b.historyMessages
  {
    GrownHistory(s, Merged(b.messages, b.tokensCount), tok);
  }

  /** Appending anything else (a list, say) appends nothing. */
  lemma AppendUnsupported(s: State, tok: Message -> nat)
    requires Valid(s) && s.aliased && Aligned(s) && UnderThreshold(s)
    ensures Append(s, Unsupported, tok) == Step(s, Ok)
  {
    GrownHistory(s, Unsupported, tok);
    assert s.historyMessages + [] == s.historyMessages;
  }

  /** After an append that does not raise, the count is under the threshold
      (or no threshold is set). */
  lemma AppendUnderThreshold(s: State, item: Item, tok: Message -> nat)
    requires Append(s, item, tok).status == Ok
    ensures UnderThreshold(Append(s, item, tok).state)
    ensures Valid(Append(s, item, tok).state)
  {
    PopUnderThreshold(Grown(s, item, tok), false, None, tok);
  }

  /** Every message counts ten tokens. */
  function Ten(m: Message): nat {
    10
  }

  /** A buffer with threshold 50 whose messages each count 10 tokens: after
      six appends it holds only the first four, with 40 tokens, because each
      eviction drops the message just appended. */
  lemma SixAppendsOfTen(m1: Message, m2: Message, m3: Message, m4: Message, m5: Message, m6: Message)
    ensures var tok := Ten;
      var s0 := State([], [], [], [], 0, 0, Some(50), true);
      var s1 := Append(s0, Single(m1), tok).state;
      var s2 := Append(s1, Single(m2), tok).state;
      var s3 := Append(s2, Single(m3), tok).state;
      var s4 := Append(s3, Single(m4), tok).state;
      var s5 := Append(s4, Single(m5), tok).state;
      var r6 := Append(s5, Single(m6), tok);
      r6.status == Ok && r6.state.historyMessages == [m1, m2, m3, m4] && r6.state.tokensCount == 40
  {
    var tok := Ten;
    var s0 := State([], [], [], [], 0, 0, Some(50), true);
    var s1 := State([], [], [m1], [m1], 10, 0, Some(50), true);
    var s2 := State([], [], [m1, m2], [m1, m2], 20, 0, Some(50), true);
    var s3 := State([], [], [m1, m2, m3], [m1, m2, m3], 30, 0, Some(50), true);
    var s4 := State([], [], [m1, m2, m3, m4], [m1, m2, m3, m4], 40, 0, Some(50), true);
    AppendFits(s0, m1, tok);
    assert [] + [m1] == [m1];
    assert Append(s0, Single(m1), tok).state == s1;
    AppendFits(s1, m2, tok);
    assert Append(s1, Single(m2), tok).state == s2;
    AppendFits(s2, m3, tok);
    assert Append(s2, Single(m3), tok).state == s3;
    AppendFits(s3, m4, tok);
    assert Append(s3, Single(m4), tok).state == s4;
    AppendOverflowDropsNewest(s4, m5, tok);
    AppendOverflowDropsNewest(s4, m6, tok);
  }

  /** A message that fits under the threshold is appended to the history
      and to `messages`, with its tokens, and nothing else changes. */
  lemma AppendFits(s: State, m: Message, tok: Message -> nat)
    requires Valid(s) && s.aliased && Aligned(s)
    requires s.tokensThr.None? || s.tokensCount + tok(m) < s.tokensThr.value
    ensures Append(s, Single(m), tok) ==
      Step(s.(historyMessages := s.historyMessages + [m], messages := s.messages + [m],
              tokensCount := s.tokensCount + tok(m)), Ok)
  {
    GrownHistory(s, Single(m), tok);
  }

  /** From under the threshold, a message that alone pushes the count over
      is the one evicted: the buffer comes back exactly as it was. */
  lemma AppendOverflowDropsNewest(s: State, m: Message, tok: Message -> nat)
    requires Valid(s) && s.aliased && Aligned(s) && s.tokensThr.Some?
    requires s.tokensCount < s.tokensThr.value <= s.tokensCount + tok(m)
    ensures Append(s, Single(m), tok) == Step(s, Ok)
  {
    GrownHistory(s, Single(m), tok);
    var g := Grown(s, Single(m), tok);
    var h := s.historyMessages + [m];
    assert g.historyMessages == h && g.tokensCount == s.tokensCount + tok(m);
    assert h[..|h| - 1] == s.historyMessages && h[|h| - 1] == m;
    assert Evict(h, g.tokensCount, s.tokensThr, tok) == Evict(s.historyMessages, s.tokensCount, s.tokensThr, tok);
    assert Evict(s.historyMessages, s.tokensCount, s.tokensThr, tok) == Some(Trimmed(s.historyMessages, s.tokensCount));
  }

  // ------------------------------------------------------------ __init__

  /** The constructor leaves a partitioned buffer under its threshold: with
      nothing, when system and question together reach the threshold;
      with only the question, when the system contents alone reach it; and
      otherwise with one system message per content followed by the
      question. The content list itself is always kept. */
  lemma InitShape(cs: seq<string>, q: string, thr: Option<int>, enc: Tokenizer)
    ensures var s := Init(cs, q, thr, enc);
      Valid(s) && s.aliased && Aligned(s) &&
      s.systemContentList == cs && s.tokensThr == thr
    ensures thr.None? || thr.value > 0 ==> UnderThreshold(Init(cs, q, thr, enc))
    ensures var s := Init(cs, q, thr, enc);
      ClearsAll(cs, q, thr, enc) ==>
        s.messages == [] && s.historyMessages == [] && s.systemMessages == [] &&
        s.tokensCount == 0 && s.numOfSystemMessages == 0
    ensures var s := Init(cs, q, thr, enc);
      !ClearsAll(cs, q, thr, enc) && DropsSystem(cs, thr, enc) ==>
        s.systemMessages == [] && s.historyMessages == [UserMessage(q)] &&
        s.tokensCount == enc.text(q)
    ensures var s := Init(cs, q, thr, enc);
      !ClearsAll(cs, q, thr, enc) && !DropsSystem(cs, thr, enc) ==>
        s.systemMessages == SystemMessages(cs) && s.numOfSystemMessages == |cs| &&
        s.historyMessages == [UserMessage(q)] &&
        s.tokensCount == SystemTokens(cs, enc) + enc.text(q)
  {
  }

  // ------------------------------------------------------------ copy

  /** A copy has the same history, messages, count, threshold and number of
      system messages; its content list is the contents of the system
      messages. */
  lemma CopyAgrees(s: State, enc: Tokenizer)
    ensures var c := CopyOf(s, enc);
      c.historyMessages == s.historyMessages && c.messages == s.messages &&
      c.tokensCount == s.tokensCount && c.tokensThr == s.tokensThr &&
      c.numOfSystemMessages == s.numOfSystemMessages &&
      c.systemContentList == Contents(s.systemMessages) && Valid(c) && !c.aliased
  {
  }

  /** When the constructor inside `copy()` keeps the system messages, and
      those are plain system messages, the copy's next append or pop does
      exactly what the original's would, except that after a raise the
      copy's elements, never shared, stay unshared. */
  lemma CopyBehavesAlike(s: State, item: Item, enc: Tokenizer)
    requires s.systemMessages == SystemMessages(Contents(s.systemMessages))
    requires var q := if |s.historyMessages| > 0 then s.historyMessages[0].content else "";
      !DropsSystem(Contents(s.systemMessages), s.tokensThr, enc) &&
      !ClearsAll(Contents(s.systemMessages), q, s.tokensThr, enc)
    ensures var c := CopyOf(s, enc);
      Append(c, item, enc.message) ==
        var r := Append(s, item, enc.message);
        Step(r.state.(systemContentList := Contents(s.systemMessages), aliased := r.status == Ok), r.status)
  {
  }

  /** When the constructor inside `copy()` clears the system messages, the
      copy keeps the original's `messages` and system-message number but has
      an empty system prefix, so its first append rebuilds `messages`
      without the system messages. */
  lemma CopyLosesSystemPrefix(s: State, m: Message, enc: Tokenizer)
    requires Valid(s) && s.aliased && Aligned(s) && UnderThreshold(s)
    requires s.systemMessages != [] && |s.historyMessages| > 0
    requires ClearsAll(Contents(s.systemMessages), s.historyMessages[0].content, s.tokensThr, enc)
    requires s.tokensThr.Some? ==> s.tokensCount + enc.message(m) < s.tokensThr.value
    ensures CopyOf(s, enc).systemMessages == []
    ensures var r := Append(CopyOf(s, enc), Single(m), enc.message);
      r.status == Ok && r.state.historyMessages == s.historyMessages + [m] &&
      r.state.messages == s.historyMessages + [m]
  {
    var c := CopyOf(s, enc);
    var grown := s.messages + [m];
    assert grown[|s.systemMessages|..] == s.historyMessages + [m];
  }

  // ------------------------------------------- add/delete_system_messages

  /** `add_system_messages` extends the content list, sets the system
      messages and their number from the whole list, and then evicts; when
      that succeeds the threshold holds and `messages` is rebuilt. */
  lemma AddSystemShape(s: State, added: seq<string>, enc: Tokenizer)
    ensures var r := AddSystem(s, added, enc).state;
      r.systemContentList == s.systemContentList + added &&
      r.systemMessages == SystemMessages(s.systemContentList + added) &&
      r.numOfSystemMessages == |s.systemContentList| + |added| && Aligned(r)
    ensures var r := AddSystem(s, added, enc);
      r.status == Ok ==>
        Valid(r.state) && r.state.aliased && UnderThreshold(r.state) &&
        r.state.messages == r.state.systemMessages + r.state.historyMessages
  {
    var cs := s.systemContentList + added;
    var s1 := s.(tokensCount := s.tokensCount + enc.text(Concat(added)),
                 systemContentList := cs, systemMessages := SystemMessages(cs),
                 numOfSystemMessages := |cs|, messages := SystemMessages(cs) + s.historyMessages,
                 aliased := true);
    assert AddSystem(s, added, enc) == Pop(s1, false, None, enc.message);
    if AddSystem(s, added, enc).status == Ok {
      PopUnderThreshold(s1, false, None, enc.message);
    }
  }

  /** When the new contents' tokens still fit under the threshold nothing
      is evicted: the history stays and the count grows by exactly those
      tokens. */
  lemma AddSystemNoEviction(s: State, added: seq<string>, enc: Tokenizer)
    requires s.tokensThr.None? || s.tokensCount + enc.text(Concat(added)) < s.tokensThr.value
    ensures var r := AddSystem(s, added, enc);
      r.status == Ok && r.state.historyMessages == s.historyMessages &&
      r.state.tokensCount == s.tokensCount + enc.text(Concat(added))
  {
  }

  /** On a non-empty content list `delete_system_messages` subtracts the
      tokens of the concatenated contents, zeroes the number, empties the
      system lists and makes `messages` the history; on an empty list it
      changes nothing. Either way the threshold stays respected. */
  lemma DeleteSystemShape(s: State, enc: Tokenizer)
    requires UnderThreshold(s)
    ensures var r := DeleteSystem(s, enc);
      s.systemContentList != [] ==>
        r.numOfSystemMessages == 0 && r.systemContentList == [] && r.systemMessages == [] &&
        r.messages == s.historyMessages && r.historyMessages == s.historyMessages &&
        r.tokensCount == s.tokensCount - enc.text(Concat(s.systemContentList)) &&
        Valid(r) && Aligned(r) && UnderThreshold(r)
    ensures s.systemContentList == [] ==> DeleteSystem(s, enc) == s
  {
  }

  // ------------------------------------------------ delete_function_messages

  /** Kept and Dropped split a history: together they hold each message
      exactly as often as it occurs. */
  lemma {:induction false} KeptDroppedMultiset(h: seq<Message>)
    ensures multiset(Kept(h)) + multiset(Dropped(h)) == multiset(h)
  {
    if h != [] {
      var h' := h[..|h| - 1];
      KeptDroppedMultiset(h');
      assert h == h' + [h[|h| - 1]];
    }
  }

  /** No function message is kept. */
  lemma {:induction false} KeptHasNoFunctionMessage(h: seq<Message>, m: Message)
    requires m in Kept(h)
    ensures !IsFunctionMessage(m)
  {
    var h' := h[..|h| - 1];
    if m !in Kept(h') {
      assert m == h[|h| - 1];
    } else {
      KeptHasNoFunctionMessage(h', m);
    }
  }

  /** Only function messages are dropped. */
  lemma {:induction false} DroppedAreFunctionMessages(h: seq<Message>, m: Message)
    requires m in Dropped(h)
    ensures IsFunctionMessage(m)
  {
    var h' := h[..|h| - 1];
    if m !in Dropped(h') {
      assert m == h[|h| - 1];
    } else {
      DroppedAreFunctionMessages(h', m);
    }
  }

  /** With nothing to drop, everything is kept. */
  lemma {:induction false} KeptAllWhenNoneDropped(h: seq<Message>)
    requires Dropped(h) == []
    ensures Kept(h) == h
  {
    if h != [] {
      var h' := h[..|h| - 1];
      KeptAllWhenNoneDropped(h');
      assert h == h' + [h[|h| - 1]];
    }
  }

  /** A manual pop at index |a| removes the message there when nothing is
      evicted. */
  lemma PopAt(s: State, a: seq<Message>, last: Message, b: seq<Message>, tok: Message -> nat)
    requires s.historyMessages == a + [last] + b && UnderThreshold(s)
    ensures Pop(s, true, Some(|a|), tok) ==
      Step(Rebuild(s.(historyMessages := a + b, tokensCount := s.tokensCount - tok(last))), Ok)
  {
    assert (a + [last] + b)[|a|] == last;
    assert RemoveAt(a + [last] + b, |a|) == a + b;
  }

  /** One step of the reverse loop on a function message. */
  lemma DeleteFromDropStep(s: State, a: seq<Message>, last: Message, b: seq<Message>, tok: Message -> nat)
    requires s.historyMessages == a + [last] + b && UnderThreshold(s) && IsFunctionMessage(last)
    ensures DeleteFrom(s, |a|, tok) ==
      DeleteFrom(Rebuild(s.(historyMessages := a + b, tokensCount := s.tokensCount - tok(last))), |a| - 1, tok)
  {
    assert s.historyMessages[|a|] == last;
    PopAt(s, a, last, b, tok);
  }

  /** One step of the reverse loop on any other message. */
  lemma DeleteFromKeepStep(s: State, a: seq<Message>, last: Message, b: seq<Message>, tok: Message -> nat)
    requires s.historyMessages == a + [last] + b && !IsFunctionMessage(last)
    ensures DeleteFrom(s, |a|, tok) == DeleteFrom(s, |a| - 1, tok)
  {
    assert s.historyMessages[|a|] == last;
  }

  /** What the reverse loop over `a`, followed by the already scanned `b`,
      leaves when nothing is evicted: the function messages of `a` are gone
      and their tokens subtracted, the rest is as it was. */
  predicate FilteredFrom(s: State, a: seq<Message>, b: seq<Message>, tok: Message -> nat, r: Step) {
    r.status == Ok &&
    r.state.historyMessages == Kept(a) + b &&
    r.state.tokensCount == s.tokensCount - SumTokens(Dropped(a), tok) &&
    r.state.systemMessages == s.systemMessages && r.state.systemContentList == s.systemContentList &&
    r.state.numOfSystemMessages == s.numOfSystemMessages && r.state.tokensThr == s.tokensThr &&
    (Dropped(a) == [] ==> r.state == s) &&
    (Dropped(a) != [] ==> r.state.aliased && r.state.messages == s.systemMessages + Kept(a) + b)
  }

  /** The reverse loop over `a` (followed by the already scanned `b`), when
      nothing is evicted, removes exactly the function messages of `a`. */
  lemma {:induction false} DeleteFromFilters(s: State, a: seq<Message>, b: seq<Message>, tok: Message -> nat)
    requires s.historyMessages == a + b && UnderThreshold(s)
    ensures FilteredFrom(s, a, b, tok, DeleteFrom(s, |a| - 1, tok))
    decreases |a|, 1
  {
    if |a| == 0 {
      assert a + b == b;
    } else {
      var a' := a[..|a| - 1];
      var last := a[|a| - 1];
      assert a == a' + [last];
      assert a + b == a' + [last] + b;
      if IsFunctionMessage(last) {
        DeleteFromDrops(s, a', last, b, tok);
      } else {
        DeleteFromKeeps(s, a', last, b, tok);
      }
    }
  }

  /** The loop's step on a function message at the end of the scanned part. */
  lemma {:induction false} DeleteFromDrops(s: State, a': seq<Message>, last: Message, b: seq<Message>, tok: Message -> nat)
    requires s.historyMessages == a' + [last] + b && UnderThreshold(s) && IsFunctionMessage(last)
    ensures FilteredFrom(s, a' + [last], b, tok, DeleteFrom(s, |a'|, tok))
    decreases |a'| + 1, 0
  {
    var a := a' + [last];
    assert a[..|a| - 1] == a' && a[|a| - 1] == last;
    DeleteFromDropStep(s, a', last, b, tok);
    var s1 := Rebuild(s.(historyMessages := a' + b, tokensCount := s.tokensCount - tok(last)));
    DeleteFromFilters(s1, a', b, tok);
    SumTokensAppend(Dropped(a'), [last], tok);
    assert Dropped(a) == Dropped(a') + [last];
    assert Kept(a) == Kept(a');
    if Dropped(a') == [] {
      KeptAllWhenNoneDropped(a');
    }
  }

  /** The loop's step on any other message at the end of the scanned part. */
  lemma {:induction false} DeleteFromKeeps(s: State, a': seq<Message>, last: Message, b: seq<Message>, tok: Message -> nat)
    requires s.historyMessages == a' + [last] + b && UnderThreshold(s) && !IsFunctionMessage(last)
    ensures FilteredFrom(s, a' + [last], b, tok, DeleteFrom(s, |a'|, tok))
    decreases |a'| + 1, 0
  {
    var a := a' + [last];
    assert a[..|a| - 1] == a' && a[|a| - 1] == last;
    DeleteFromKeepStep(s, a', last, b, tok);
    assert a' + ([last] + b) == a' + [last] + b;
    DeleteFromFilters(s, a', [last] + b, tok);
    assert Kept(a) == Kept(a') + [last];
    assert Dropped(a) == Dropped(a');
    assert Kept(a') + ([last] + b) == Kept(a) + b;
  }

  /** `delete_function_messages` removes exactly the messages with a truthy
      `function_call` or role "function", keeps the others in order, and
      subtracts exactly the removed messages' tokens; with none to remove
      the buffer is untouched. */
  lemma DeleteFunctionMessagesFilters(s: State, tok: Message -> nat)
    requires UnderThreshold(s)
    ensures var r := DeleteFunctionMessages(s, tok);
      var h := s.historyMessages;
      r.status == Ok &&
      r.state.historyMessages == Kept(h) &&
      r.state.tokensCount == s.tokensCount - SumTokens(Dropped(h), tok) &&
      r.state.systemMessages == s.systemMessages &&
      (Dropped(h) == [] ==> r.state == s) &&
      (Dropped(h) != [] ==> r.state.messages == s.systemMessages + Kept(h))
  {
    var h := s.historyMessages;
    assert h + [] == h;
    DeleteFromFilters(s, h, [], tok);
    var r := DeleteFunctionMessages(s, tok);
    assert FilteredFrom(s, h, [], tok, r);
    assert Kept(h) + [] == Kept(h);
  }
}
