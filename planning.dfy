/** The turn orchestrator of planning/Planning.py. The completion service,
    the human at `input()` and the tools are a scripted World whose
    replies the methods consume in order; what they send is logged. */
module Planning {
  import opened Messages
  import opened Text
  import opened BufferSpec
  import opened Prompts
  import Memory
  import Registry

  /** One reply of the completion service to a chat request. */
  datatype Completion = Reply(message: Message) | AuthFailure

  /** A chat request as sent: the model and the messages. */
  datatype Request = Request(model: string, messages: seq<Message>)

  /** Everything outside the program that the orchestrator talks to. */
  class World {
    /** What the completion service will answer, in order. */
    var completions: seq<Completion>
    /** What the user will type at each `input()`, in order. */
    var inputs: seq<string>
    /** How each tool call will end, in order. */
    var toolOutcomes: seq<ToolOutcome>
    /** The chat requests made so far. */
    var requests: seq<Request>
    /** The one-minute waits so far. */
    var sleeps: nat
    /** The code blocks displayed before running a tool. */
    var shown: seq<string>
    /** What the user has typed so far. */
    var typed: seq<string>

    constructor (completions: seq<Completion>, inputs: seq<string>, toolOutcomes: seq<ToolOutcome>)
      ensures this.completions == completions && this.inputs == inputs && this.toolOutcomes == toolOutcomes
      ensures requests == [] && sleeps == 0 && shown == [] && typed == []
    {
      this.completions := completions;
      this.inputs := inputs;
      this.toolOutcomes := toolOutcomes;
      requests := [];
      sleeps := 0;
      shown := [];
      typed := [];
    }

    /** `client.chat.completions.create(model=model, messages=messages)` */
    method Create(model: string, messages: seq<Message>) returns (c: Option<Completion>)
      modifies this
      ensures old(completions) == [] ==> c.None? && completions == old(completions) && requests == old(requests)
      ensures old(completions) != [] ==>
        c == Some(old(completions)[0]) && completions == old(completions)[1..] &&
        requests == old(requests) + [Request(model, messages)]
      ensures inputs == old(inputs) && toolOutcomes == old(toolOutcomes) && sleeps == old(sleeps) && shown == old(shown)
      ensures typed == old(typed)
    {
      if completions == [] {
        return None;
      }
      c := Some(completions[0]);
      completions := completions[1..];
      requests := requests + [Request(model, messages)];
    }

    /** `input(prompt)` */
    method Input() returns (s: Option<string>)
      modifies this
      ensures old(inputs) == [] ==> s.None? && inputs == old(inputs) && typed == old(typed)
      ensures old(inputs) != [] ==>
        s == Some(old(inputs)[0]) && inputs == old(inputs)[1..] && typed == old(typed) + [old(inputs)[0]]
      ensures completions == old(completions) && toolOutcomes == old(toolOutcomes) &&
              requests == old(requests) && sleeps == old(sleeps) && shown == old(shown)
    {
      if inputs == [] {
        return None;
      }
      s := Some(inputs[0]);
      typed := typed + [inputs[0]];
      inputs := inputs[1..];
    }

    /** `time.sleep(60)` */
    method Sleep()
      modifies this
      ensures sleeps == old(sleeps) + 1
      ensures completions == old(completions) && inputs == old(inputs) && toolOutcomes == old(toolOutcomes) &&
              requests == old(requests) && shown == old(shown) && typed == old(typed)
    {
      sleeps := sleeps + 1;
    }

    /** `display(Markdown(markdown_code))` */
    method Show(x: string)
      modifies this
      ensures shown == old(shown) + [x]
      ensures completions == old(completions) && inputs == old(inputs) && toolOutcomes == old(toolOutcomes) &&
              requests == old(requests) && sleeps == old(sleeps) && typed == old(typed)
    {
      shown := shown + [x];
    }

    /** Running the called tool. */
    method RunTool() returns (o: Option<ToolOutcome>)
      modifies this
      ensures old(toolOutcomes) == [] ==> o.None? && toolOutcomes == old(toolOutcomes)
      ensures old(toolOutcomes) != [] ==> o == Some(old(toolOutcomes)[0]) && toolOutcomes == old(toolOutcomes)[1..]
      ensures completions == old(completions) && inputs == old(inputs) &&
              requests == old(requests) && sleeps == old(sleeps) && shown == old(shown) && typed == old(typed)
    {
      if toolOutcomes == [] {
        return None;
      }
      o := Some(toolOutcomes[0]);
      toolOutcomes := toolOutcomes[1..];
    }
  }

  // ------------------------------------------------------------ modify_prompt

  /** One `if` block of `modify_prompt`, run when `enabled`. */
  method Block(buf: Memory.MessageManager, f: string -> string, enabled: bool) returns (status: Status)
    modifies buf
    ensures Step(buf.Snap(), status) == (if enabled then EditBoth(old(buf.Snap()), f) else Step(old(buf.Snap()), Ok))
  {
    status := Ok;
    if enabled {
      status := buf.EditLastMessage(f);
      if status.Raised? {
        return;
      }
      status := buf.EditLastHistory(f);
    }
  }

  /** `modify_prompt(messages, action, enable_md_output, enable_COT)`, in
      place on the buffer. */
  method ModifyPromptOf(buf: Memory.MessageManager, action: Action, enableMd: bool, enableCot: bool)
    returns (status: Status)
    modifies buf
    ensures Step(buf.Snap(), status) == ModifyPrompt(old(buf.Snap()), action, enableMd, enableCot)
  {
    match action {
      case Other =>
        status := Ok;
      case Add =>
        status := Block(buf, AddSuffix(COT), enableCot);
        if status.Ok? && enableMd {
          status := Block(buf, AddSuffix(MD), true);
        }
      case Remove =>
        status := Block(buf, RemoveAll(MD), enableMd);
        if status.Ok? && enableCot {
          status := Block(buf, RemoveAll(COT), true);
        }
    }
  }

  // --------------------------------------------- add_task_decomposition_prompt

  /** Appending stops at the first item that raises. */
  lemma {:induction false} AppendAllStops(s: State, items: seq<Message>, i: nat, tok: Message -> nat)
    requires i <= |items| && AppendAll(s, items[..i], tok).status.Raised?
    ensures AppendAll(s, items, tok) == AppendAll(s, items[..i], tok)
    decreases |items| - i
  {
    if i < |items| {
      assert items[..|items| - 1][..i] == items[..i];
      AppendAllStops(s, items[..|items| - 1], i, tok);
    } else {
      assert items[..i] == items;
    }
  }

  /** The `for` loops of `add_task_decomposition_prompt` that append the
      worked examples one by one. */
  method AppendEach(d: Memory.MessageManager, items: seq<Message>) returns (status: Status)
    modifies d
    ensures Step(d.Snap(), status) == AppendAll(old(d.Snap()), items, d.encoding.message)
  {
    ghost var p := d.Snap();
    status := Ok;
    var i := 0;
    while i < |items|
      invariant 0 <= i <= |items|
      invariant AppendAll(p, items[..i], d.encoding.message) == Step(d.Snap(), Ok)
      invariant status == Ok
    {
      assert items[..i + 1][..i] == items[..i];
      ghost var before := d.Snap();
      status := d.MessagesAppend(Single(items[i]));
      assert AppendAll(p, items[..i + 1], d.encoding.message) ==
        Append(before, Single(items[i]), d.encoding.message);
      if status.Raised? {
        AppendAllStops(p, items, i + 1, d.encoding.message);
        return;
      }
      i := i + 1;
    }
    assert items[..i] == items;
  }

  /** `add_task_decomposition_prompt(messages)`: a fresh derived buffer;
      the caller's buffer is not changed. */
  method AddTaskDecompositionPrompt(buf: Memory.MessageManager) returns (r: Run<Memory.MessageManager>)
    ensures r.Done? ==>
      fresh(r.value) && r.value.encoding == buf.encoding &&
      TaskDecomposition(buf.Snap(), buf.encoding) == Step(r.value.Snap(), Ok)
    ensures !r.Done? ==> r.Failed? && TaskDecomposition(buf.Snap(), buf.encoding).status == Raised(r.error)
  {
    var d := buf.Copy();
    var st := d.MessagesPop(true, Some(-1));
    if st.Raised? {
      return Failed(st.error);
    }
    st := AppendEach(d, FewShot());
    if st.Raised? {
      return Failed(st.error);
    }
    if |buf.historyMessages| == 0 {
      return Failed(IndexError);
    }
    var question := Rephrased(buf.historyMessages[|buf.historyMessages| - 1]);
    st := d.MessagesAppend(Single(question));
    if st.Raised? {
      return Failed(st.error);
    }
    r := Done(d);
  }

  // ------------------------------------------------------- get_first_response

  /** How the retry loop ends outside expert mode: with a reply, by
      re-raising the authentication error, or with the script run out. */
  datatype RetryEnd = Answered(message: Message) | Reraised | Unscripted

  /** The loop's end, the replies and inputs left, the waits, and the
      requests sent, in order. */
  datatype Retry = Retry(end: RetryEnd, completions: seq<Completion>, inputs: seq<string>,
                         sleeps: nat, requests: seq<Request>)

  /** `r` after the requests `sent` and `k` waits. */
  function Prefixed(sent: seq<Request>, k: nat, r: Retry): Retry {
    r.(sleeps := k + r.sleeps, requests := sent + r.requests)
  }

  /** What the retry loop does after one reply `c`, with the inputs `ins`
      still to be typed: go on asking `model` after `slept` waits, or end;
      either way with the inputs that are then left. */
  datatype Decision = Continue(model: string, slept: nat, inputs: seq<string>) | Finish(end: RetryEnd, inputs: seq<string>)

  /** The `except AuthenticationError` handler of `get_first_response`
      outside expert mode: wait and retry; in developer mode ask first:
      '1' waits, '2' reads a new model name, anything else re-raises. */
  function Decide(c: Completion, ins: seq<string>, model: string, developer: bool): Decision {
    if c.Reply? then Finish(Answered(c.message), ins)
    else if !developer then Continue(model, 1, ins)
    else if ins == [] then Finish(Unscripted, ins)
    else if ins[0] == "1" then Continue(model, 1, ins[1..])
    else if ins[0] == "2" then
      if |ins| < 2 then Finish(Unscripted, ins[1..]) else Continue(ins[1], 0, ins[2..])
    else Finish(Reraised, ins[1..])
  }

  /** The `while True` loop of `get_first_response` outside expert mode,
      sending `msgs` until a reply, the end of the replies or a re-raise. */
  function PlainRetry(cs: seq<Completion>, ins: seq<string>, model: string, msgs: seq<Message>, developer: bool): (r: Retry)
    ensures |r.inputs| <= |ins| && |r.completions| <= |cs|
    ensures cs != [] ==> |r.requests| > 0 && r.requests[0] == Request(model, msgs)
    ensures cs == [] ==> r == Retry(Unscripted, cs, ins, 0, [])
    decreases |cs|
  {
    if cs == [] then Retry(Unscripted, cs, ins, 0, [])
    else match Decide(cs[0], ins, model, developer)
      case Finish(e, left) => Retry(e, cs[1..], left, 0, [Request(model, msgs)])
      case Continue(next, slept, left) =>
        Prefixed([Request(model, msgs)], slept, PlainRetry(cs[1..], left, next, msgs, developer))
  }

  /** One round of the retry loop, for the loop's summary `r0` after the
      requests `sent` and `k` waits: with no reply left the loop ends
      having sent nothing more; otherwise the reply either ends the loop or
      leaves the same summary one request and its waits further on. */
  lemma PlainRetryStep(r0: Retry, sent: seq<Request>, k: nat, cs: seq<Completion>, ins: seq<string>,
                       model: string, msgs: seq<Message>, developer: bool)
    requires r0 == Prefixed(sent, k, PlainRetry(cs, ins, model, msgs, developer))
    ensures cs == [] ==>
      r0.end == Unscripted && r0.completions == cs && r0.inputs == ins && r0.sleeps == k && r0.requests == sent
    ensures cs != [] ==> var d := Decide(cs[0], ins, model, developer);
      (d.Finish? ==> r0.end == d.end && r0.completions == cs[1..] && r0.inputs == d.inputs &&
                     r0.sleeps == k && r0.requests == sent + [Request(model, msgs)]) &&
      (d.Continue? ==> r0 == Prefixed(sent + [Request(model, msgs)], k + d.slept,
                                      PlainRetry(cs[1..], d.inputs, d.model, msgs, developer)))
  {
    if cs == [] {
      assert sent + [] == sent;
    } else {
      var d := Decide(cs[0], ins, model, developer);
      if d.Continue? {
        PrefixedTwice(sent, [Request(model, msgs)], k, d.slept, PlainRetry(cs[1..], d.inputs, d.model, msgs, developer));
      }
    }
  }

  lemma PrefixedTwice(a: seq<Request>, b: seq<Request>, j: nat, k: nat, r: Retry)
    ensures Prefixed(a, j, Prefixed(b, k, r)) == Prefixed(a + b, j + k, r)
  {
    assert a + (b + r.requests) == a + b + r.requests;
  }

  /** Outside both modes the loop never re-raises and reads no input: it
      waits once per failure and sends the same request until the first
      reply. */
  lemma {:induction false} PlainRetryWaitsForReply(cs: seq<Completion>, ins: seq<string>, model: string, msgs: seq<Message>)
    ensures var r := PlainRetry(cs, ins, model, msgs, false);
      !r.end.Reraised? && r.inputs == ins &&
      (forall i :: 0 <= i < |r.requests| ==> r.requests[i] == Request(model, msgs)) &&
      (r.end.Answered? <==> exists k :: 0 <= k < |cs| && cs[k].Reply?) &&
      (r.end.Answered? ==>
         |r.requests| == r.sleeps + 1 && r.sleeps < |cs| && cs[r.sleeps] == Reply(r.end.message) &&
         (forall j :: 0 <= j < r.sleeps ==> cs[j] == AuthFailure) && r.completions == cs[r.sleeps + 1..])
    decreases |cs|
  {
    if cs != [] && cs[0].AuthFailure? {
      PlainRetryWaitsForReply(cs[1..], ins, model, msgs);
      var r := PlainRetry(cs, ins, model, msgs, false);
      var t := PlainRetry(cs[1..], ins, model, msgs, false);
      assert r.requests == [Request(model, msgs)] + t.requests;
      if t.end.Answered? {
        assert cs[1..][t.sleeps] == cs[r.sleeps];
        forall j | 0 <= j < r.sleeps ensures cs[j] == AuthFailure {
          if j > 0 {
            assert cs[1..][j - 1] == cs[j];
          }
        }
        assert cs[1..][t.sleeps + 1..] == cs[r.sleeps + 1..];
      }
      if exists k :: 0 <= k < |cs| && cs[k].Reply? {
        var k :| 0 <= k < |cs| && cs[k].Reply?;
        assert cs[1..][k - 1].Reply?;
      }
      if exists k :: 0 <= k < |cs[1..]| && cs[1..][k].Reply? {
        var k :| 0 <= k < |cs[1..]| && cs[1..][k].Reply?;
        assert cs[k + 1].Reply?;
      }
    }
  }

  /** Every request in `rs` sends `msgs`, to `model` or to one of `ins`. */
  predicate NamedBy(rs: seq<Request>, model: string, msgs: seq<Message>, ins: seq<string>) {
    forall i :: 0 <= i < |rs| ==> rs[i].messages == msgs && (rs[i].model == model || rs[i].model in ins)
  }

  /** In developer mode every request sends the same messages, to the
      original model or to a name the user typed. */
  lemma {:induction false} PlainRetryModels(cs: seq<Completion>, ins: seq<string>, model: string, msgs: seq<Message>)
    ensures NamedBy(PlainRetry(cs, ins, model, msgs, true).requests, model, msgs, ins)
    decreases |cs|
  {
    var r := PlainRetry(cs, ins, model, msgs, true);
    if cs != [] && cs[0].AuthFailure? && ins != [] {
      if ins[0] == "1" {
        PlainRetryModels(cs[1..], ins[1..], model, msgs);
        var t := PlainRetry(cs[1..], ins[1..], model, msgs, true);
        assert r.requests == [Request(model, msgs)] + t.requests;
        forall i | 0 <= i < |r.requests|
          ensures r.requests[i].messages == msgs && (r.requests[i].model == model || r.requests[i].model in ins)
        {
          if i > 0 {
            assert r.requests[i] == t.requests[i - 1];
            assert t.requests[i - 1].model == model || t.requests[i - 1].model in ins[1..];
          }
        }
      } else if ins[0] == "2" && |ins| >= 2 {
        PlainRetryModels(cs[1..], ins[2..], ins[1], msgs);
        var t := PlainRetry(cs[1..], ins[2..], ins[1], msgs, true);
        assert r.requests == [Request(model, msgs)] + t.requests;
        forall i | 0 <= i < |r.requests|
          ensures r.requests[i].messages == msgs && (r.requests[i].model == model || r.requests[i].model in ins)
        {
          if i > 0 {
            assert r.requests[i] == t.requests[i - 1];
            assert t.requests[i - 1].model == ins[1] || t.requests[i - 1].model in ins[2..];
          }
        }
      }
    }
  }

  /** A concrete developer-mode run: after one failure, '2' switches the
      model for the retry. */
  lemma SwitchModelExample(m: Message, msgs: seq<Message>)
    ensures PlainRetry([AuthFailure, Reply(m)], ["2", "gpt-4"], "gpt-3.5-turbo", msgs, true) ==
      Retry(Answered(m), [], [], 0, [Request("gpt-3.5-turbo", msgs), Request("gpt-4", msgs)])
  {
    var cs := [AuthFailure, Reply(m)];
    var ins := ["2", "gpt-4"];
    assert cs[1..] == [Reply(m)];
    assert ins[2..] == [];
    assert PlainRetry(cs[1..], ins[2..], "gpt-4", msgs, true) == Retry(Answered(m), [], [], 0, [Request("gpt-4", msgs)]);
  }

  /** The prompt edit made on entry in developer mode. */
  function Added(s: State, developer: bool): Step {
    if developer then ModifyPrompt(s, Add, true, true) else Step(s, Ok)
  }

  /** The prompt edit made after the reply in developer mode. */
  function Restored(s: State, developer: bool): Step {
    if developer then ModifyPrompt(s, Remove, true, true) else Step(s, Ok)
  }

  /** How `get_first_response` ends outside expert mode, given how its
      retry loop ended, the buffer `a` it sent and the buffer `now` after. */
  predicate RetryDone(a: State, end: RetryEnd, developer: bool, r: Run<Option<Message>>, now: State) {
    match end
    case Answered(m) =>
      var z := Restored(a, developer);
      now == z.state && r == (if z.status.Raised? then Failed(z.status.error) else Done(Some(m)))
    case Reraised => r == Failed(AuthenticationError) && now == a
    case Unscripted => r == OutOfScript && now == a
  }

  /** One pass of the `while True` loop of `get_first_response` outside
      expert mode: one request and, on a failure, its handler. */
  method AttemptOnce(m: string, msgs: seq<Message>, developer: bool, world: World) returns (d: Decision)
    modifies world
    ensures world.toolOutcomes == old(world.toolOutcomes) && world.shown == old(world.shown)
    ensures old(world.completions) == [] ==>
      d == Finish(Unscripted, old(world.inputs)) && world.completions == old(world.completions) &&
      world.inputs == old(world.inputs) && world.sleeps == old(world.sleeps) && world.requests == old(world.requests)
    ensures old(world.completions) != [] ==>
      d == Decide(old(world.completions)[0], old(world.inputs), m, developer) &&
      world.completions == old(world.completions)[1..] && world.inputs == d.inputs &&
      world.sleeps == old(world.sleeps) + (if d.Continue? then d.slept else 0) &&
      world.requests == old(world.requests) + [Request(m, msgs)]
  {
    ghost var ins := world.inputs;
    var c := world.Create(m, msgs);
    if c.None? {
      return Finish(Unscripted, world.inputs);
    }
    if c.value.Reply? {
      return Finish(Answered(c.value.message), world.inputs);
    }
    if !developer {
      world.Sleep();
      return Continue(m, 1, world.inputs);
    }
    var choice := world.Input();
    if choice.None? {
      return Finish(Unscripted, world.inputs);
    }
    if choice.value == "1" {
      world.Sleep();
      return Continue(m, 1, world.inputs);
    } else if choice.value == "2" {
      var name := world.Input();
      if name.None? {
        return Finish(Unscripted, world.inputs);
      }
      assert ins[1..][1..] == ins[2..];
      return Continue(name.value, 0, world.inputs);
    }
    return Finish(Reraised, world.inputs);
  }

  /** The `while True` loop of `get_first_response` outside expert mode:
      it sends `msgs` until a reply, as `PlainRetry` says. */
  method PlainLoop(model: string, msgs: seq<Message>, developer: bool, world: World)
    returns (end: RetryEnd)
    modifies world
    ensures var R := PlainRetry(old(world.completions), old(world.inputs), model, msgs, developer);
      end == R.end && world.completions == R.completions && world.inputs == R.inputs &&
      world.sleeps == old(world.sleeps) + R.sleeps &&
      world.requests == old(world.requests) + R.requests
    ensures world.toolOutcomes == old(world.toolOutcomes) && world.shown == old(world.shown)
  {
    var m := model;
    ghost var sent: seq<Request> := [];
    ghost var k: nat := 0;
    ghost var R0 := PlainRetry(world.completions, world.inputs, model, msgs, developer);
    assert [] + R0.requests == R0.requests;
    assert world.requests == old(world.requests) + [];
    while true
      decreases |world.completions|
      invariant world.toolOutcomes == old(world.toolOutcomes) && world.shown == old(world.shown)
      invariant world.sleeps == old(world.sleeps) + k
      invariant R0 == Prefixed(sent, k, PlainRetry(world.completions, world.inputs, m, msgs, developer))
      invariant world.requests == old(world.requests) + sent
    {
      ghost var cs := world.completions;
      ghost var ins := world.inputs;
      var d := AttemptOnce(m, msgs, developer, world);
      PlainRetryStep(R0, sent, k, cs, ins, m, msgs, developer);
      if cs != [] {
        assert world.requests == old(world.requests) + (sent + [Request(m, msgs)]);
      }
      if d.Finish? {
        return d.end;
      }
      sent, k, m := sent + [Request(m, msgs)], k + d.slept, d.model;
    }
  }

  /** The guidance request of the expert-mode handler: on a copy of
      `target`, the last message is wrapped in the guidance prompt and sent;
      an empty buffer raises IndexError. */
  method AskGuidance(model: string, target: Memory.MessageManager, world: World) returns (r: Run<Completion>)
    modifies world
    ensures world.toolOutcomes == old(world.toolOutcomes) && world.shown == old(world.shown)
    ensures world.inputs == old(world.inputs) && old(world.requests) <= world.requests
    ensures |world.completions| <= |old(world.completions)|
    ensures r.Failed? ==> r.error == IndexError
  {
    var tmp := target.Copy();
    if |tmp.messages| == 0 {
      return Failed(IndexError);
    }
    var question := tmp.messages[|tmp.messages| - 1].content;
    var st := tmp.EditLastMessage(SetTo(GuidePrompt(question)));
    var c := world.Create(model, tmp.messages);
    if c.None? {
      return OutOfScript;
    }
    r := Done(c.value);
  }

  /** The `while True` loop of `get_first_response` in expert mode, on the
      derived buffer `target`: on an authentication failure it asks for a
      guiding text, shows it, and either stops on '退出' or puts the user's
      new question in the last history message and starts over. */
  method ExpertLoop(model: string, target: Memory.MessageManager, developer: bool, world: World)
    returns (r: Run<Option<Message>>)
    modifies target, world
    decreases |world.completions|, 0
    ensures world.toolOutcomes == old(world.toolOutcomes) && world.shown == old(world.shown)
    ensures |world.inputs| <= |old(world.inputs)| && old(world.requests) <= world.requests
    ensures r != Failed(ValueError)
  {
    while true
      decreases |world.completions|
      invariant world.toolOutcomes == old(world.toolOutcomes) && world.shown == old(world.shown)
      invariant |world.inputs| <= |old(world.inputs)| && old(world.requests) <= world.requests
      invariant |world.completions| <= |old(world.completions)|
    {
      var c := world.Create(model, target.messages);
      if c.None? {
        return OutOfScript;
      }
      if c.value.Reply? {
        if developer {
          var st := ModifyPromptOf(target, Remove, true, true);
          if st.Raised? {
            return Failed(st.error);
          }
        }
        return Done(Some(c.value.message));
      }
      var c2 := AskGuidance(model, target, world);
      if !c2.Done? {
        return if c2.Failed? then Failed(c2.error) else OutOfScript;
      }
      if c2.value.AuthFailure? {
        world.Sleep();
      } else {
        var answer := world.Input();
        if answer.None? {
          return OutOfScript;
        }
        if answer.value == EXIT {
          return Done(None);
        }
        var newQuestion := answer.value;
        var st := target.EditLastHistory(SetTo(newQuestion));
        if st.Raised? {
          return Failed(st.error);
        }
        r := GetFirstResponse(model, target, developer, true, world);
        return;
      }
    }
  }

  /** `get_first_response(model, messages, available_functions,
      is_developer_mode, is_expert_mode)`. Outside expert mode the outcome
      is that of `PlainRetry`; in expert mode the question is asked on a
      derived buffer and the caller's buffer keeps only the developer-mode
      suffixes. */
  method GetFirstResponse(model: string, buf: Memory.MessageManager, developer: bool, expert: bool, world: World)
    returns (r: Run<Option<Message>>)
    modifies buf, world
    decreases |world.completions|, 1
    ensures world.toolOutcomes == old(world.toolOutcomes) && world.shown == old(world.shown)
    ensures |world.inputs| <= |old(world.inputs)| && old(world.requests) <= world.requests
    ensures r != Failed(ValueError)
    ensures Added(old(buf.Snap()), developer).status.Raised? ==>
      r == Failed(Added(old(buf.Snap()), developer).status.error) &&
      buf.Snap() == Added(old(buf.Snap()), developer).state &&
      world.completions == old(world.completions) && world.inputs == old(world.inputs) &&
      world.requests == old(world.requests) && world.sleeps == old(world.sleeps)
    ensures !expert && Added(old(buf.Snap()), developer).status.Ok? ==>
      var a := Added(old(buf.Snap()), developer).state;
      var R := PlainRetry(old(world.completions), old(world.inputs), model, a.messages, developer);
      world.completions == R.completions && world.inputs == R.inputs &&
      world.sleeps == old(world.sleeps) + R.sleeps &&
      world.requests == old(world.requests) + R.requests &&
      RetryDone(a, R.end, developer, r, buf.Snap())
    ensures expert ==> buf.Snap() == Added(old(buf.Snap()), developer).state
    ensures r.Done? && r.value.None? ==> expert
  {
    if developer {
      var st := ModifyPromptOf(buf, Add, true, true);
      if st.Raised? {
        return Failed(st.error);
      }
    }
    if expert {
      var d := AddTaskDecompositionPrompt(buf);
      if !d.Done? {
        return Failed(d.error);
      }
      r := ExpertLoop(model, d.value, developer, world);
      return;
    }
    var end := PlainLoop(model, buf.messages, developer, world);
    match end {
      case Answered(m) =>
        if developer {
          var st := ModifyPromptOf(buf, Remove, true, true);
          if st.Raised? {
            return Failed(st.error);
          }
        }
        r := Done(Some(m));
      case Reraised =>
        r := Failed(AuthenticationError);
      case Unscripted =>
        r := OutOfScript;
    }
  }

  // ------------------------------------------------------- function_to_call

  /** `function_to_call(available_functions, function_call_message)`: look
      the first tool call's function up, decode its arguments, run it and
      wrap its result (or its error text) as a tool message. */
  method FunctionToCall(tools: Option<Registry.AvailableFunctions>, call: Message, world: World)
    returns (r: Run<Message>)
    modifies world
    ensures call.toolCalls == [] ==> r == Failed(IndexError)
    ensures call.toolCalls != [] && tools.None? ==> r == Failed(AttributeError)
    ensures call.toolCalls != [] && tools.Some? && tools.value.functionsDic.None? ==> r == Failed(TypeError)
    ensures (call.toolCalls != [] && tools.Some? && tools.value.functionsDic.Some? &&
             call.toolCalls[0].name !in tools.value.functionsDic.value) ==> r == Failed(KeyError)
    ensures r == Failed(ValueError) <==>
      (call.toolCalls != [] && tools.Some? && tools.value.functionsDic.Some? &&
       call.toolCalls[0].name in tools.value.functionsDic.value && call.toolCalls[0].arguments.Malformed?)
    ensures r.Done? <==>
      call.toolCalls != [] && tools.Some? && tools.value.functionsDic.Some? &&
      call.toolCalls[0].name in tools.value.functionsDic.value && call.toolCalls[0].arguments.Parsed? &&
      old(world.toolOutcomes) != []
    ensures r.Done? ==>
      r.value == ToolResultMessage(call.toolCalls[0], old(world.toolOutcomes)[0]) &&
      world.toolOutcomes == old(world.toolOutcomes)[1..]
    ensures !r.Done? ==> world.toolOutcomes == old(world.toolOutcomes)
    ensures r.OutOfScript? ==> old(world.toolOutcomes) == []
    ensures world.completions == old(world.completions) && world.inputs == old(world.inputs) &&
            world.requests == old(world.requests) && world.sleeps == old(world.sleeps) && world.shown == old(world.shown)
  {
    if call.toolCalls == [] {
      return Failed(IndexError);
    }
    var toolCall := call.toolCalls[0];
    if tools.None? {
      return Failed(AttributeError);
    }
    if tools.value.functionsDic.None? {
      return Failed(TypeError);
    }
    if toolCall.name !in tools.value.functionsDic.value {
      return Failed(KeyError);
    }
    if toolCall.arguments.Malformed? {
      return Failed(ValueError);
    }
    var outcome := world.RunTool();
    if outcome.None? {
      return OutOfScript;
    }
    r := Done(ToolResultMessage(toolCall, outcome.value));
  }

  // ----------------------------------------- one_chat_response and handlers

  /** What a turn outside plan mode on a buffer in state `s` sends first,
      judged by the request log before and after it and the replies `cs`
      it started with: it only adds requests, and outside expert mode,
      unless the developer-mode edit raises, its first request (when a
      reply is scripted) sends the buffer's messages, edited in developer
      mode, to `model`. */
  predicate AskedWith(before: seq<Request>, after: seq<Request>, cs: seq<Completion>, model: string,
                      s: State, developer: bool, expert: bool)
  {
    before <= after &&
    (!expert && Added(s, developer).status.Ok? && cs != [] ==>
       |before| < |after| && after[|before|] == Request(model, Added(s, developer).state.messages))
  }

  /** Requests added later do not change which request came first. */
  lemma AskedWithGrows(before: seq<Request>, mid: seq<Request>, after: seq<Request>, cs: seq<Completion>,
                       model: string, s: State, developer: bool, expert: bool)
    requires AskedWith(before, mid, cs, model, s, developer, expert) && mid <= after
    ensures AskedWith(before, after, cs, model, s, developer, expert)
  {
    if !expert && Added(s, developer).status.Ok? && cs != [] {
      assert after[|before|] == mid[|before|];
    }
  }

  /** The first request of a `one_chat_response` on a buffer in state `s`:
      outside plan mode it is `AskedWith` of `s`; in plan mode the turn goes
      straight to the decomposition buffer, so a failure to build it ends
      the turn with no request, and otherwise the request is `AskedWith` of
      the derived buffer. */
  predicate Asks(before: seq<Request>, after: seq<Request>, cs: seq<Completion>, model: string,
                 s: State, enc: Tokenizer, developer: bool, expert: bool, td: bool)
  {
    if !td then AskedWith(before, after, cs, model, s, developer, expert)
    else
      var d := TaskDecomposition(s, enc);
      (d.status.Raised? ==> after == before) &&
      (d.status.Ok? ==> AskedWith(before, after, cs, model, d.state, developer, expert))
  }

  /** Requests added after a turn that got its decomposition buffer do not
      change which request came first. */
  lemma AsksGrows(before: seq<Request>, mid: seq<Request>, after: seq<Request>, cs: seq<Completion>,
                  model: string, s: State, enc: Tokenizer, developer: bool, expert: bool, td: bool)
    requires Asks(before, mid, cs, model, s, enc, developer, expert, td) && mid <= after
    requires td ==> TaskDecomposition(s, enc).status.Ok?
    ensures Asks(before, after, cs, model, s, enc, developer, expert, td)
  {
    if td {
      AskedWithGrows(before, mid, after, cs, model, TaskDecomposition(s, enc).state, developer, expert);
    } else {
      AskedWithGrows(before, mid, after, cs, model, s, developer, expert);
    }
  }

  /** How a handler ends that has appended messages, with `p` the outcome
      of the appends, and then, with `fuel` left, starts a new turn, in plan
      mode when `td` holds: an append that raised ends it with that error,
      no fuel ends it unscripted, both with no request sent; otherwise the
      new turn asks as `Asks` says of the appended buffer. */
  predicate Continues(p: Step, fuel: nat, r: Run<Memory.MessageManager>, before: seq<Request>, after: seq<Request>,
                      cs: seq<Completion>, model: string, enc: Tokenizer, developer: bool, expert: bool, td: bool)
  {
    if p.status.Raised? then r == Failed(p.status.error) && after == before
    else if fuel == 0 then r == OutOfScript && after == before
    else Asks(before, after, cs, model, p.state, enc, developer, expert, td)
  }

  /** `check_function_response` from a buffer in state `s`, with `now` the
      buffer's state when it ends: a result without '报错' is appended
      with its call and the turn goes on on the same buffer; a result with
      it leaves the buffer alone and a copy gets the call, the result and
      the first debugging prompt before its turn, which is outside expert
      mode. */
  predicate Checked(s: State, call: Message, result: Message, enc: Tokenizer, expert: bool, fuel: nat,
                    r: Run<Memory.MessageManager>, now: State, before: seq<Request>, after: seq<Request>,
                    cs: seq<Completion>, model: string, developer: bool)
  {
    if !Contains(result.content, SENTINEL) then
      var p := AppendAll(s, [call, result], enc.message);
      Continues(p, fuel, r, before, after, cs, model, enc, developer, expert, false) &&
      (p.status.Raised? || fuel == 0 ==> now == p.state)
    else
      var p := AppendAll(CopyOf(s, enc), [call, result, UserMessage(DebugPrompts(expert)[0])], enc.message);
      now == s && Continues(p, fuel, r, before, after, cs, model, enc, developer, false, false)
  }

  /** The first tool call parses, and its code is one `handle_code_response`
      can display. */
  predicate Displayable(call: Message) {
    call.toolCalls != [] && call.toolCalls[0].arguments.Parsed? &&
    RenderCall(call.toolCalls[0].arguments.fields).Some?
  }

  /** `function_to_call` finds the tool and the tool's outcome is scripted. */
  predicate ToolRuns(tools: Option<Registry.AvailableFunctions>, call: Message, outcomes: seq<ToolOutcome>)
    reads if tools.Some? then {tools.value} else {}
  {
    call.toolCalls != [] && call.toolCalls[0].arguments.Parsed? &&
    tools.Some? && tools.value.functionsDic.Some? && call.toolCalls[0].name in tools.value.functionsDic.value &&
    outcomes != []
  }

  /** The outcome of appending two messages, one after the other. */
  lemma AppendAllPair(s: State, a: Message, b: Message, tok: Message -> nat)
    ensures AppendAll(s, [a, b], tok) ==
      var x := Append(s, Single(a), tok);
      if x.status.Raised? then x else Append(x.state, Single(b), tok)
  {
    assert [a, b][..1] == [a];
    assert [a][..0] == [];
    assert AppendAll(s, [a], tok) == Append(s, Single(a), tok);
  }

  /** The outcome of appending three messages, one after the other. */
  lemma AppendAllTriple(s: State, a: Message, b: Message, c: Message, tok: Message -> nat)
    ensures AppendAll(s, [a, b, c], tok) ==
      var x := AppendAll(s, [a, b], tok);
      if x.status.Raised? then x else Append(x.state, Single(c), tok)
  {
    assert [a, b, c][..2] == [a, b];
  }

  /** The first half of `one_chat_response`: the model's first response,
      and in plan mode (or when expert mode answers with a tool call) the
      response to the decomposition prompt instead; `decompose` says which.
      A plain question answered by text is sent once and its answer kept. */
  method FetchResponse(model: string, buf: Memory.MessageManager, developer: bool, expert: bool,
                       taskDecomposition: bool, world: World)
    returns (r: Run<Message>, decompose: bool)
    modifies buf, world
    ensures world.toolOutcomes == old(world.toolOutcomes) && world.shown == old(world.shown)
    ensures |world.inputs| <= |old(world.inputs)| && r != Failed(ValueError)
    ensures Asks(old(world.requests), world.requests, old(world.completions), model, old(buf.Snap()), buf.encoding,
                 developer, expert, taskDecomposition)
    ensures taskDecomposition ==> decompose
    ensures taskDecomposition && TaskDecomposition(old(buf.Snap()), buf.encoding).status.Raised? ==>
      r == Failed(TaskDecomposition(old(buf.Snap()), buf.encoding).status.error)
    ensures !developer && !expert && !taskDecomposition &&
            old(world.completions) != [] && old(world.completions)[0].Reply? ==>
      r == Done(old(world.completions)[0].message) && !decompose && buf.Snap() == old(buf.Snap()) &&
      world.requests == old(world.requests) + [Request(model, old(buf.messages))]
  {
    ghost var plain := !developer && !expert && !taskDecomposition && world.completions != [] && world.completions[0].Reply?;
    ghost var s0 := buf.Snap();
    if plain {
      assert PlainRetry(world.completions, world.inputs, model, s0.messages, false) ==
        Retry(Answered(world.completions[0].message), world.completions[1..], world.inputs, 0, [Request(model, s0.messages)]);
      assert Added(s0, developer).state == s0;
    }
    ghost var mid := world.requests;
    var response: Option<Message> := None;
    if !taskDecomposition {
      var first := GetFirstResponse(model, buf, developer, expert, world);
      mid := world.requests;
      if !first.Done? {
        return (if first.Failed? then Failed(first.error) else OutOfScript), false;
      }
      response := first.value;
      if expert && response.None? {
        return Failed(AttributeError), false;
      }
    }
    decompose := taskDecomposition;
    if taskDecomposition || (expert && response.Some? && response.value.toolCalls != []) {
      decompose := true;
      var fewShot := AddTaskDecompositionPrompt(buf);
      if !fewShot.Done? {
        return Failed(fewShot.error), decompose;
      }
      var second := GetFirstResponse(model, fewShot.value, developer, expert, world);
      if !taskDecomposition {
        AskedWithGrows(old(world.requests), mid, world.requests, old(world.completions), model, s0, developer, expert);
      }
      if !second.Done? {
        return (if second.Failed? then Failed(second.error) else OutOfScript), decompose;
      }
      response := second.value;
    }
    if response.None? {
      return Failed(AttributeError), decompose;
    }
    r := Done(response.value);
  }

  /** `delete_some_messages` pops of the last history message, stopping at
      the first that raises. */
  function PopTimes(s: State, n: nat, tok: Message -> nat): (r: Step)
    ensures r.status.Raised? ==> r.status.error == IndexError
  {
    if n == 0 then Step(s, Ok)
    else
      var p := PopTimes(s, n - 1, tok);
      if p.status.Raised? then p else Pop(p.state, true, Some(-1), tok)
  }

  /** Once a pop raises, no later pop happens. */
  lemma {:induction false} PopTimesStops(s: State, m: nat, n: nat, tok: Message -> nat)
    requires m <= n && PopTimes(s, m, tok).status.Raised?
    ensures PopTimes(s, n, tok) == PopTimes(s, m, tok)
    decreases n - m
  {
    if m < n {
      PopTimesStops(s, m, n - 1, tok);
    }
  }

  /** One manual pop of index -1 under the threshold. */
  lemma PopLastStep(s: State, tok: Message -> nat)
    requires UnderThreshold(s)
    ensures var h := s.historyMessages;
      Pop(s, true, Some(-1), tok) ==
        if h == [] then Step(s, Raised(IndexError))
        else Step(Rebuild(s.(historyMessages := h[..|h| - 1],
                             tokensCount := s.tokensCount - tok(h[|h| - 1]))), Ok)
  {
    assert Evict(s.historyMessages, s.tokensCount, s.tokensThr, tok) == Some(Trimmed(s.historyMessages, s.tokensCount));
  }

  /** The tokens of a suffix starting at `k`, split off its first message. */
  lemma SumTokensFrom(h: seq<Message>, k: nat, tok: Message -> nat)
    requires k < |h|
    ensures SumTokens(h[k..], tok) == tok(h[k]) + SumTokens(h[k + 1..], tok)
  {
    assert h[k..] == [h[k]] + h[k + 1..];
    SumTokensAppend([h[k]], h[k + 1..], tok);
    assert [h[k]][..0] == [];
  }

  /** The `n`-th pop happens on what the first `n - 1` left, when they
      raised nothing. */
  lemma PopTimesNext(s: State, n: nat, tok: Message -> nat)
    requires 0 < n && PopTimes(s, n - 1, tok).status == Ok
    ensures PopTimes(s, n, tok) == Pop(PopTimes(s, n - 1, tok).state, true, Some(-1), tok)
  {
  }

  /** A pop of the last message on a history that is the prefix `h[..k + 1]`
      leaves the prefix `h[..k]` and subtracts the tokens of `h[k]`. */
  lemma PopNext(t: State, h: seq<Message>, k: nat, base: int, tok: Message -> nat)
    requires UnderThreshold(t) && k < |h| && t.historyMessages == h[..k + 1]
    requires t.tokensCount == base - SumTokens(h[k + 1..], tok)
    ensures var r := Pop(t, true, Some(-1), tok);
      r.status == Ok && r.state.historyMessages == h[..k] &&
      r.state.tokensCount == base - SumTokens(h[k..], tok) &&
      UnderThreshold(r.state) && r.state.systemMessages == t.systemMessages &&
      r.state.tokensThr == t.tokensThr &&
      r.state.messages == t.systemMessages + r.state.historyMessages
  {
    var hp := t.historyMessages;
    assert hp[..|hp| - 1] == h[..k] && hp[|hp| - 1] == h[k];
    PopLastStep(t, tok);
    SumTokensFrom(h, k, tok);
  }

  /** Up to the history's length, each pop removes the next message from
      the end. */
  lemma {:induction false} PopTimesWithin(s: State, n: nat, tok: Message -> nat)
    requires UnderThreshold(s) && n <= |s.historyMessages|
    ensures var h := s.historyMessages;
      var r := PopTimes(s, n, tok);
      r.status == Ok && r.state.historyMessages == h[..|h| - n] &&
      r.state.tokensCount == s.tokensCount - SumTokens(h[|h| - n..], tok) &&
      UnderThreshold(r.state) && r.state.systemMessages == s.systemMessages &&
      r.state.tokensThr == s.tokensThr &&
      (0 < n ==> r.state.messages == s.systemMessages + r.state.historyMessages)
    decreases n
  {
    var h := s.historyMessages;
    if n == 0 {
      assert h[..|h|] == h;
      assert h[|h|..] == [];
    } else {
      PopTimesWithin(s, n - 1, tok);
      var p := PopTimes(s, n - 1, tok);
      PopNext(p.state, h, |h| - n, s.tokensCount, tok);
      PopTimesNext(s, n, tok);
    }
  }

  /** `n` manual pops of index -1 on a buffer under its threshold remove
      the last `n` history messages and their tokens, and rebuild
      `messages`; with fewer than `n` messages the history runs out and the
      pop after the last one raises IndexError. */
  lemma PopTimesTrims(s: State, n: nat, tok: Message -> nat)
    requires UnderThreshold(s)
    ensures var h := s.historyMessages;
      var r := PopTimes(s, n, tok);
      (n <= |h| ==>
         r.status == Ok && r.state.historyMessages == h[..|h| - n] &&
         r.state.tokensCount == s.tokensCount - SumTokens(h[|h| - n..], tok) &&
         UnderThreshold(r.state) && r.state.systemMessages == s.systemMessages &&
         r.state.tokensThr == s.tokensThr &&
         (0 < n ==> r.state.messages == s.systemMessages + r.state.historyMessages)) &&
      (|h| < n ==>
         r.status == Raised(IndexError) && r.state.historyMessages == [] &&
         r.state.tokensCount == s.tokensCount - SumTokens(h, tok))
  {
    var h := s.historyMessages;
    if n <= |h| {
      PopTimesWithin(s, n, tok);
    } else {
      PopTimesWithin(s, |h|, tok);
      assert h[0..] == h;
      var p := PopTimes(s, |h|, tok);
      PopLastStep(p.state, tok);
      assert PopTimes(s, |h| + 1, tok) == Step(p.state, Raised(IndexError));
      PopTimesStops(s, |h| + 1, n, tok);
    }
  }

  /** The `for i in range(delete_some_messages)` loop of
      `one_chat_response`. */
  method DeleteLast(buf: Memory.MessageManager, n: nat) returns (status: Status)
    modifies buf
    ensures Step(buf.Snap(), status) == PopTimes(old(buf.Snap()), n, buf.encoding.message)
  {
    var i := 0;
    while i < n
      invariant i <= n
      invariant Step(buf.Snap(), Ok) == PopTimes(old(buf.Snap()), i, buf.encoding.message)
    {
      status := buf.MessagesPop(true, Some(-1));
      if status.Raised? {
        PopTimesStops(old(buf.Snap()), i + 1, n, buf.encoding.message);
        return;
      }
      i := i + 1;
    }
    status := Ok;
  }

  /** `one_chat_response(model, messages, available_functions,
      is_developer_mode, is_expert_mode, delete_some_messages,
      is_task_decomposition)`. `fuel` bounds the depth of the mutual
      recursion through the handlers. Outside plan mode its first request
      sends the buffer as it is on entry; a plain question whose first
      reply is text is asked once and the reply recorded. */
  method OneChatResponse(model: string, buf: Memory.MessageManager, tools: Option<Registry.AvailableFunctions>,
                         developer: bool, expert: bool, deleteSome: nat, taskDecomposition: bool,
                         world: World, fuel: nat)
    returns (r: Run<Memory.MessageManager>)
    modifies buf, world
    decreases fuel, 4
    ensures r.Done? ==> r.value == buf || fresh(r.value)
    ensures old(world.shown) <= world.shown && |world.inputs| <= |old(world.inputs)|
    ensures old(world.requests) <= world.requests && r != Failed(ValueError)
    ensures Asks(old(world.requests), world.requests, old(world.completions), model, old(buf.Snap()), buf.encoding,
                 developer, expert, taskDecomposition)
    ensures !developer && !expert && !taskDecomposition && deleteSome == 0 &&
            old(world.completions) != [] && old(world.completions)[0].Reply? &&
            old(world.completions)[0].message.toolCalls == [] ==>
      var st := Append(old(buf.Snap()), Single(old(world.completions)[0].message), buf.encoding.message);
      buf.Snap() == st.state && r == (if st.status.Raised? then Failed(st.status.error) else Done(buf)) &&
      world.requests == old(world.requests) + [Request(model, old(buf.messages))]
  {
    ghost var s0 := buf.Snap();
    var response, decompose := FetchResponse(model, buf, developer, expert, taskDecomposition, world);
    ghost var mid := world.requests;
    if !response.Done? {
      return if response.Failed? then Failed(response.error) else OutOfScript;
    }
    var st := DeleteLast(buf, deleteSome);
    if st.Raised? {
      return Failed(st.error);
    }
    if response.value.toolCalls == [] {
      r := HandleTextResponse(model, buf, response.value, tools, developer, expert, deleteSome, decompose, world, fuel);
    } else {
      r := HandleCodeResponse(model, buf, response.value, tools, developer, expert, deleteSome, world, fuel);
    }
    AsksGrows(old(world.requests), mid, world.requests, old(world.completions), model, s0, buf.encoding,
              developer, expert, taskDecomposition);
  }

  /** The step the handlers share: `messages_append` of two messages, then
      a new `one_chat_response` on the same buffer, as `Continues` says. */
  method AppendAndContinue(model: string, buf: Memory.MessageManager, first: Message, second: Message,
                           tools: Option<Registry.AvailableFunctions>, developer: bool, expert: bool,
                           deleteSome: nat, taskDecomposition: bool, world: World, fuel: nat)
    returns (r: Run<Memory.MessageManager>)
    modifies buf, world
    decreases fuel, 0
    ensures r.Done? ==> r.value == buf || fresh(r.value)
    ensures old(world.shown) <= world.shown && |world.inputs| <= |old(world.inputs)|
    ensures old(world.requests) <= world.requests && r != Failed(ValueError)
    ensures var p := AppendAll(old(buf.Snap()), [first, second], buf.encoding.message);
      (p.status.Raised? || fuel == 0 ==> buf.Snap() == p.state) &&
      Continues(p, fuel, r, old(world.requests), world.requests, old(world.completions), model, buf.encoding,
                developer, expert, taskDecomposition)
  {
    AppendAllPair(buf.Snap(), first, second, buf.encoding.message);
    var st := buf.MessagesAppend(Single(first));
    if st.Raised? {
      return Failed(st.error);
    }
    st := buf.MessagesAppend(Single(second));
    if st.Raised? {
      return Failed(st.error);
    }
    if fuel == 0 {
      return OutOfScript;
    }
    r := OneChatResponse(model, buf, tools, developer, expert, deleteSome, taskDecomposition, world, fuel - 1);
  }

  /** The revise answer of the text menu: read the revision, append the
      answer and the revision as a user message, and run the turn again
      with `delete_some_messages=2` and the same flags. */
  method ReviseAndContinue(model: string, buf: Memory.MessageManager, answer: Message,
                           tools: Option<Registry.AvailableFunctions>, developer: bool, expert: bool,
                           taskDecomposition: bool, world: World, fuel: nat)
    returns (r: Run<Memory.MessageManager>)
    modifies buf, world
    decreases fuel, 1
    ensures r.Done? ==> r.value == buf || fresh(r.value)
    ensures old(world.shown) <= world.shown && |world.inputs| <= |old(world.inputs)|
    ensures old(world.requests) <= world.requests && r != Failed(ValueError)
    ensures old(world.inputs) == [] ==> r == OutOfScript && buf.Snap() == old(buf.Snap())
    ensures old(world.inputs) != [] ==>
      var p := AppendAll(old(buf.Snap()), [answer, UserMessage(old(world.inputs)[0])], buf.encoding.message);
      Continues(p, fuel, r, old(world.requests), world.requests, old(world.completions), model, buf.encoding,
                developer, expert, taskDecomposition) &&
      (p.status.Raised? || fuel == 0 ==> buf.Snap() == p.state)
  {
    var revision := world.Input();
    if revision.None? {
      return OutOfScript;
    }
    r := AppendAndContinue(model, buf, answer, UserMessage(revision.value), tools, developer, expert, 2,
                           taskDecomposition, world, fuel);
  }

  /** The rephrase answer of the text menu: read the new question, put it
      in place of the last message's content and run the turn again with
      the same flags. */
  method RephraseAndContinue(model: string, buf: Memory.MessageManager,
                             tools: Option<Registry.AvailableFunctions>, developer: bool, expert: bool,
                             deleteSome: nat, taskDecomposition: bool, world: World, fuel: nat)
    returns (r: Run<Memory.MessageManager>)
    modifies buf, world
    decreases fuel, 0
    ensures r.Done? ==> r.value == buf || fresh(r.value)
    ensures old(world.shown) <= world.shown && |world.inputs| <= |old(world.inputs)|
    ensures old(world.requests) <= world.requests && r != Failed(ValueError)
    ensures old(world.inputs) == [] ==> r == OutOfScript && buf.Snap() == old(buf.Snap())
    ensures old(world.inputs) != [] ==>
      var p := BufferSpec.EditLastMessage(old(buf.Snap()), SetTo(old(world.inputs)[0]));
      Continues(p, fuel, r, old(world.requests), world.requests, old(world.completions), model, buf.encoding,
                developer, expert, taskDecomposition) &&
      (p.status.Raised? || fuel == 0 ==> buf.Snap() == p.state)
  {
    var question := world.Input();
    if question.None? {
      return OutOfScript;
    }
    var st := buf.EditLastMessage(SetTo(question.value));
    if st.Raised? {
      return Failed(st.error);
    }
    if fuel == 0 {
      return OutOfScript;
    }
    r := OneChatResponse(model, buf, tools, developer, expert, deleteSome, taskDecomposition, world, fuel - 1);
  }

  /** The debugging loop of `check_function_response` on the copy `debug`:
      for each prompt, append it and run a turn outside expert mode, going
      on with the buffer that turn returns. The first turn sends the copy
      with the first prompt appended. */
  method DebugTurns(model: string, debug: Memory.MessageManager, prompts: seq<string>,
                    tools: Option<Registry.AvailableFunctions>, developer: bool, deleteSome: nat,
                    world: World, fuel: nat)
    returns (r: Run<Memory.MessageManager>)
    modifies debug, world
    decreases fuel, 0
    ensures r.Done? ==> r.value == debug || fresh(r.value)
    ensures old(world.shown) <= world.shown && |world.inputs| <= |old(world.inputs)|
    ensures old(world.requests) <= world.requests && r != Failed(ValueError)
    ensures prompts == [] ==> r == Done(debug) && world.requests == old(world.requests)
    ensures prompts != [] ==>
      Continues(Append(old(debug.Snap()), Single(UserMessage(prompts[0])), debug.encoding.message), fuel, r,
                old(world.requests), world.requests, old(world.completions), model, debug.encoding, developer, false, false)
  {
    ghost var p := if prompts == [] then Step(debug.Snap(), Ok)
                   else Append(debug.Snap(), Single(UserMessage(prompts[0])), debug.encoding.message);
    var current := debug;
    var i := 0;
    while i < |prompts|
      invariant 0 <= i <= |prompts|
      invariant current == debug || fresh(current)
      invariant old(world.shown) <= world.shown && |world.inputs| <= |old(world.inputs)|
      invariant old(world.requests) <= world.requests
      invariant i == 0 ==>
        current == debug && debug.Snap() == old(debug.Snap()) &&
        world.requests == old(world.requests) && world.completions == old(world.completions)
      invariant 0 < i ==>
        p.status.Ok? && 0 < fuel &&
        AskedWith(old(world.requests), world.requests, old(world.completions), model, p.state, developer, false)
    {
      ghost var mid := world.requests;
      var st := current.MessagesAppend(Single(UserMessage(prompts[i])));
      if st.Raised? {
        return Failed(st.error);
      }
      if fuel == 0 {
        return OutOfScript;
      }
      var next := OneChatResponse(model, current, tools, developer, false, deleteSome, false, world, fuel - 1);
      if 0 < i {
        AskedWithGrows(old(world.requests), mid, world.requests, old(world.completions), model, p.state, developer, false);
      }
      if !next.Done? {
        return next;
      }
      current := next.value;
      i := i + 1;
    }
    return Done(current);
  }

  /** `handle_code_response(...)`: a first tool call that is missing or
      does not parse is not an error, the turn is asked again; otherwise
      show its code, let the developer revise it, or run it and check its
      result. Arguments with neither code field make `display` raise. */
  method HandleCodeResponse(model: string, buf: Memory.MessageManager, call: Message,
                            tools: Option<Registry.AvailableFunctions>, developer: bool, expert: bool,
                            deleteSome: nat, world: World, fuel: nat)
    returns (r: Run<Memory.MessageManager>)
    modifies buf, world
    decreases fuel, 3
    ensures r.Done? ==> r.value == buf || fresh(r.value)
    ensures old(world.shown) <= world.shown && |world.inputs| <= |old(world.inputs)|
    ensures old(world.requests) <= world.requests && r != Failed(ValueError)
    ensures (call.toolCalls == [] || call.toolCalls[0].arguments.Malformed?) ==>
      (fuel == 0 ==> r == OutOfScript && buf.Snap() == old(buf.Snap()) && world.requests == old(world.requests)) &&
      (0 < fuel ==>
         AskedWith(old(world.requests), world.requests, old(world.completions), model, old(buf.Snap()), developer, expert))
    ensures call.toolCalls != [] && call.toolCalls[0].arguments.Parsed? && !Displayable(call) ==>
      r == Failed(TypeError) && buf.Snap() == old(buf.Snap()) && world.shown == old(world.shown) &&
      world.requests == old(world.requests)
    ensures Displayable(call) ==>
      |old(world.shown)| < |world.shown| &&
      world.shown[|old(world.shown)|] == RenderCall(call.toolCalls[0].arguments.fields).value
    ensures Displayable(call) && developer && (old(world.inputs) == [] || (|old(world.inputs)| == 1 && old(world.inputs)[0] != "1")) ==>
      r == OutOfScript && buf.Snap() == old(buf.Snap()) && world.requests == old(world.requests)
    ensures Displayable(call) && developer && |old(world.inputs)| >= 2 && old(world.inputs)[0] != "1" ==>
      var p := AppendAll(old(buf.Snap()), [call, UserMessage(old(world.inputs)[1])], buf.encoding.message);
      Continues(p, fuel, r, old(world.requests), world.requests, old(world.completions), model, buf.encoding, developer, expert, false) &&
      (p.status.Raised? || fuel == 0 ==> buf.Snap() == p.state)
    ensures Displayable(call) && (!developer || (old(world.inputs) != [] && old(world.inputs)[0] == "1")) ==>
      if ToolRuns(tools, call, old(world.toolOutcomes)) then
        Checked(old(buf.Snap()), call, ToolResultMessage(call.toolCalls[0], old(world.toolOutcomes)[0]), buf.encoding,
                expert, fuel, r, buf.Snap(), old(world.requests), world.requests, old(world.completions), model, developer)
      else !r.Done? && buf.Snap() == old(buf.Snap()) && world.requests == old(world.requests)
  {
    if call.toolCalls == [] || call.toolCalls[0].arguments.Malformed? {
      if fuel == 0 {
        return OutOfScript;
      }
      r := OneChatResponse(model, buf, tools, developer, expert, deleteSome, false, world, fuel - 1);
      return;
    }
    var markdown := RenderCall(call.toolCalls[0].arguments.fields);
    if markdown.None? {
      return Failed(TypeError);
    }
    world.Show(markdown.value);
    r := RunShownCall(model, buf, call, tools, developer, expert, deleteSome, world, fuel);
  }

  /** The rest of `handle_code_response` once the code is shown: the
      developer runs it or asks for a revision; otherwise the tool is
      called and its result checked. */
  method RunShownCall(model: string, buf: Memory.MessageManager, call: Message,
                      tools: Option<Registry.AvailableFunctions>, developer: bool, expert: bool,
                      deleteSome: nat, world: World, fuel: nat)
    returns (r: Run<Memory.MessageManager>)
    requires Displayable(call)
    modifies buf, world
    decreases fuel, 2
    ensures r.Done? ==> r.value == buf || fresh(r.value)
    ensures old(world.shown) <= world.shown && |world.inputs| <= |old(world.inputs)|
    ensures old(world.requests) <= world.requests && r != Failed(ValueError)
    ensures developer && (old(world.inputs) == [] || (|old(world.inputs)| == 1 && old(world.inputs)[0] != "1")) ==>
      r == OutOfScript && buf.Snap() == old(buf.Snap()) && world.requests == old(world.requests)
    ensures developer && |old(world.inputs)| >= 2 && old(world.inputs)[0] != "1" ==>
      var p := AppendAll(old(buf.Snap()), [call, UserMessage(old(world.inputs)[1])], buf.encoding.message);
      Continues(p, fuel, r, old(world.requests), world.requests, old(world.completions), model, buf.encoding, developer, expert, false) &&
      (p.status.Raised? || fuel == 0 ==> buf.Snap() == p.state)
    ensures (!developer || (old(world.inputs) != [] && old(world.inputs)[0] == "1")) ==>
      if ToolRuns(tools, call, old(world.toolOutcomes)) then
        Checked(old(buf.Snap()), call, ToolResultMessage(call.toolCalls[0], old(world.toolOutcomes)[0]), buf.encoding,
                expert, fuel, r, buf.Snap(), old(world.requests), world.requests, old(world.completions), model, developer)
      else !r.Done? && buf.Snap() == old(buf.Snap()) && world.requests == old(world.requests)
  {
    if developer {
      var choice := world.Input();
      if choice.None? {
        return OutOfScript;
      }
      if choice.value != "1" {
        var revision := world.Input();
        if revision.None? {
          return OutOfScript;
        }
        r := AppendAndContinue(model, buf, call, UserMessage(revision.value), tools, developer, expert, 2, false, world, fuel);
        return;
      }
    }
    var result := FunctionToCall(tools, call, world);
    if !result.Done? {
      return if result.Failed? then Failed(result.error) else OutOfScript;
    }
    r := CheckFunctionResponse(model, buf, call, result.value, tools, developer, expert, deleteSome, world, fuel);
  }

  /** `check_function_response(...)`, as `Checked` says: on a result that
      mentions '报错', hand the failure to a debugging conversation on a
      copy of the buffer, one turn per debugging prompt; otherwise record
      the call and its result and continue. */
  method CheckFunctionResponse(model: string, buf: Memory.MessageManager, call: Message, result: Message,
                               tools: Option<Registry.AvailableFunctions>, developer: bool, expert: bool,
                               deleteSome: nat, world: World, fuel: nat)
    returns (r: Run<Memory.MessageManager>)
    modifies buf, world
    decreases fuel, 1
    ensures r.Done? ==> r.value == buf || fresh(r.value)
    ensures old(world.shown) <= world.shown && |world.inputs| <= |old(world.inputs)|
    ensures old(world.requests) <= world.requests && r != Failed(ValueError)
    ensures Checked(old(buf.Snap()), call, result, buf.encoding, expert, fuel, r, buf.Snap(),
                    old(world.requests), world.requests, old(world.completions), model, developer)
    ensures Contains(result.content, SENTINEL) && r.Done? ==> fresh(r.value)
  {
    if Contains(result.content, SENTINEL) {
      var debug := buf.Copy();
      ghost var tok := debug.encoding.message;
      ghost var c0 := debug.Snap();
      AppendAllPair(c0, call, result, tok);
      AppendAllTriple(c0, call, result, UserMessage(DebugPrompts(expert)[0]), tok);
      var st := debug.MessagesAppend(Single(call));
      if st.Raised? {
        return Failed(st.error);
      }
      st := debug.MessagesAppend(Single(result));
      if st.Raised? {
        return Failed(st.error);
      }
      r := DebugTurns(model, debug, DebugPrompts(expert), tools, developer, deleteSome, world, fuel);
      return;
    }
    r := AppendAndContinue(model, buf, call, result, tools, developer, expert, deleteSome, false, world, fuel);
  }

  /** The rewrite that replaces a content by `c`. */
  function SetTo(c: string): string -> string {
    _ => c
  }

  /** `handle_text_response(...)`: record the answer, or in developer or
      plan mode ask what to do with it: record ('1'), revise ('2'), ask
      again ('3') or stop ('4'). In plan mode '1' also asks the model to
      carry the plan out. */
  method HandleTextResponse(model: string, buf: Memory.MessageManager, answer: Message,
                            tools: Option<Registry.AvailableFunctions>, developer: bool, expert: bool,
                            deleteSome: nat, taskDecomposition: bool, world: World, fuel: nat)
    returns (r: Run<Memory.MessageManager>)
    modifies buf, world
    decreases fuel, 3
    ensures r.Done? ==> r.value == buf || fresh(r.value)
    ensures old(world.shown) <= world.shown && |world.inputs| <= |old(world.inputs)|
    ensures old(world.requests) <= world.requests && r != Failed(ValueError)
    ensures !developer && !expert && !taskDecomposition ==>
      var st := Append(old(buf.Snap()), Single(answer), buf.encoding.message);
      buf.Snap() == st.state && r == (if st.status.Raised? then Failed(st.status.error) else Done(buf)) &&
      world.inputs == old(world.inputs) && world.requests == old(world.requests)
    ensures (developer || expert || taskDecomposition) && old(world.inputs) == [] ==>
      r == OutOfScript && buf.Snap() == old(buf.Snap())
    ensures (developer || expert || taskDecomposition) && old(world.inputs) != [] &&
            old(world.inputs)[0] != "1" && old(world.inputs)[0] != "2" && old(world.inputs)[0] != "3" ==>
      r == Done(buf) && buf.Snap() == old(buf.Snap()) && world.inputs == old(world.inputs)[1..]
    ensures !taskDecomposition && developer && old(world.inputs) != [] && old(world.inputs)[0] == "1" ==>
      var st := Append(old(buf.Snap()), Single(answer), buf.encoding.message);
      buf.Snap() == st.state && r == (if st.status.Raised? then Failed(st.status.error) else Done(buf)) &&
      world.inputs == old(world.inputs)[1..]
    ensures (taskDecomposition || (expert && !developer)) && old(world.inputs) != [] && old(world.inputs)[0] == "1" ==>
      var p := AppendAll(old(buf.Snap()), [answer, UserMessage(PROCEED)], buf.encoding.message);
      Continues(p, fuel, r, old(world.requests), world.requests, old(world.completions), model, buf.encoding,
                developer, false, false) &&
      (p.status.Raised? || fuel == 0 ==> buf.Snap() == p.state)
    ensures (developer || expert || taskDecomposition) && |old(world.inputs)| >= 2 && old(world.inputs)[0] == "2" ==>
      var p := AppendAll(old(buf.Snap()), [answer, UserMessage(old(world.inputs)[1])], buf.encoding.message);
      Continues(p, fuel, r, old(world.requests), world.requests, old(world.completions), model, buf.encoding,
                developer, expert, taskDecomposition) &&
      (p.status.Raised? || fuel == 0 ==> buf.Snap() == p.state)
    ensures (developer || expert || taskDecomposition) && |old(world.inputs)| >= 2 && old(world.inputs)[0] == "3" ==>
      var p := BufferSpec.EditLastMessage(old(buf.Snap()), SetTo(old(world.inputs)[1]));
      Continues(p, fuel, r, old(world.requests), world.requests, old(world.completions), model, buf.encoding,
                developer, expert, taskDecomposition) &&
      (p.status.Raised? || fuel == 0 ==> buf.Snap() == p.state)
  {
    var choice: Option<string> := None;
    if !taskDecomposition && developer {
      choice := world.Input();
      if choice.None? {
        return OutOfScript;
      }
      if choice.value == "1" {
        var st := buf.MessagesAppend(Single(answer));
        if st.Raised? {
          return Failed(st.error);
        }
        return Done(buf);
      }
    } else if taskDecomposition || expert {
      choice := world.Input();
      if choice.None? {
        return OutOfScript;
      }
      if choice.value == "1" {
        r := AppendAndContinue(model, buf, answer, UserMessage(PROCEED), tools, developer, false, deleteSome, false, world, fuel);
        return;
      }
    }
    if choice.None? {
      var st := buf.MessagesAppend(Single(answer));
      if st.Raised? {
        return Failed(st.error);
      }
      return Done(buf);
    }
    if choice.value == "2" {
      r := ReviseAndContinue(model, buf, answer, tools, developer, expert, taskDecomposition, world, fuel);
    } else if choice.value == "3" {
      r := RephraseAndContinue(model, buf, tools, developer, expert, deleteSome, taskDecomposition, world, fuel);
    } else {
      r := Done(buf);
    }
  }
}
