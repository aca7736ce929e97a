/** The user-facing agent of action/iQueryAgent.py: it picks a token
    threshold from the model name, owns the conversation buffer, runs one
    or many chat turns through the orchestrator, resets the buffer and
    uploads the history to a project document. */
module Agent {
  import opened Messages
  import opened Text
  import opened BufferSpec
  import Memory
  import Planning
  import Registry
  import CloudFile
  import Prompts

  /** The default `model` argument. */
  const DEFAULT_MODEL := "gpt-3.5-turbo-16k"
  /** The default `question` of a new buffer. */
  const GREETING := "你好。"

  /** The threshold rules of `__init__`, tried in order: the first whose
      key occurs in the model name gives the threshold. */
  const THRESHOLDS: seq<(string, int)> :=
    [("1106", 110000), ("16k", 12000), ("gpt-4-0613", 7000), ("gpt-4-turbo-preview", 110000)]
  /** The threshold when no rule applies. */
  const FALLBACK := 3000

  /** The value of the first rule whose key occurs in `model`, or
      `fallback`. */
  function FirstMatch(model: string, rules: seq<(string, int)>, fallback: int): int
    decreases |rules|
  {
    if rules == [] then fallback
    else if Contains(model, rules[0].0) then rules[0].1
    else FirstMatch(model, rules[1..], fallback)
  }

  /** `FirstMatch` gives the fallback when no rule applies. */
  lemma {:induction false} FirstMatchFallback(model: string, rules: seq<(string, int)>, fallback: int)
    requires forall k :: 0 <= k < |rules| ==> !Contains(model, rules[k].0)
    ensures FirstMatch(model, rules, fallback) == fallback
    decreases |rules|
  {
    if rules != [] {
      assert !Contains(model, rules[0].0);
      forall k | 0 <= k < |rules[1..]| ensures !Contains(model, rules[1..][k].0) {
        assert rules[1..][k] == rules[k + 1];
      }
      FirstMatchFallback(model, rules[1..], fallback);
    }
  }

  /** `FirstMatch` picks the earliest rule that applies. */
  lemma {:induction false} FirstMatchIsFirst(model: string, rules: seq<(string, int)>, fallback: int, k: nat)
    requires k < |rules| && Contains(model, rules[k].0)
    requires forall j :: 0 <= j < k ==> !Contains(model, rules[j].0)
    ensures FirstMatch(model, rules, fallback) == rules[k].1
    decreases k
  {
    if k > 0 {
      assert !Contains(model, rules[0].0);
      forall j | 0 <= j < k - 1 ensures !Contains(model, rules[1..][j].0) {
        assert rules[1..][j] == rules[j + 1];
      }
      FirstMatchIsFirst(model, rules[1..], fallback, k - 1);
    }
  }

  /** The `if '1106' in model ... else 3000` chain of `__init__`. */
  function ThresholdFor(model: string): (r: int)
    ensures r == FirstMatch(model, THRESHOLDS, FALLBACK)
    ensures r in {3000, 7000, 12000, 110000}
  {
    if Contains(model, "1106") then 110000
    else if Contains(model, "16k") then 12000
    else if Contains(model, "gpt-4-0613") then 7000
    else if Contains(model, "gpt-4-turbo-preview") then 110000
    else 3000
  }

  /** A string lacking one of `pat`'s characters does not contain `pat`. */
  lemma MissingCharNotContained(s: string, pat: string, c: char)
    requires c in pat && c !in s
    ensures !Contains(s, pat)
  {
    var k :| 0 <= k < |pat| && pat[k] == c;
    forall i ensures !OccursAt(s, pat, i) {
      if 0 <= i && i + |pat| <= |s| {
        assert s[i..i + |pat|][k] == s[i + k];
      }
    }
    ContainsIffOccurs(s, pat);
  }

  lemma DefaultLacks1106()
    ensures !Contains(DEFAULT_MODEL, "1106")
  {
    assert "1106"[2] == '0';
    assert '0' !in DEFAULT_MODEL;
    MissingCharNotContained(DEFAULT_MODEL, "1106", '0');
  }

  lemma DefaultHas16k()
    ensures Contains(DEFAULT_MODEL, "16k")
  {
    assert DEFAULT_MODEL[14..17] == "16k";
    assert OccursAt(DEFAULT_MODEL, "16k", 14);
    ContainsIffOccurs(DEFAULT_MODEL, "16k");
  }

  /** The default model gets the 16k threshold. */
  lemma DefaultThreshold()
    ensures ThresholdFor(DEFAULT_MODEL) == 12000
  {
    DefaultLacks1106();
    DefaultHas16k();
  }

  /** A 1106 model gets the large threshold even when it also names 16k. */
  lemma FirstRuleWins()
    ensures ThresholdFor("gpt-3.5-turbo-1106-16k") == 110000
  {
    var m := "gpt-3.5-turbo-1106-16k";
    assert m[14..18] == "1106";
    assert OccursAt(m, "1106", 14);
    ContainsIffOccurs(m, "1106");
  }

  /** A bare `gpt-4` gets the fallback. */
  lemma FallbackThreshold()
    ensures ThresholdFor("gpt-4") == 3000
  {
    var g := "gpt-4";
    assert "1106"[0] == '1' && "16k"[0] == '1' && "gpt-4-0613"[6] == '0' && "gpt-4-turbo-preview"[7] == 'u';
    assert '1' !in g && '0' !in g && 'u' !in g;
    MissingCharNotContained(g, "1106", '1');
    MissingCharNotContained(g, "16k", '1');
    MissingCharNotContained(g, "gpt-4-0613", '0');
    MissingCharNotContained(g, "gpt-4-turbo-preview", 'u');
  }

  /** The line a history message contributes to the uploaded transcript:
      its role and content, as `append_doc_content` renders a message
      dictionary. */
  function AsRecord(m: Message): CloudFile.Record {
    CloudFile.Dict(map["role" := m.role, "content" := m.content])
  }

  /** The history as `append_doc_content` receives it. */
  function Records(history: seq<Message>): (r: seq<CloudFile.Record>)
    ensures |r| == |history| && forall i :: 0 <= i < |history| ==> r[i] == AsRecord(history[i])
  {
    seq(|history|, i requires 0 <= i < |history| => AsRecord(history[i]))
  }

  /** Each history message becomes the line `role: content`. */
  lemma RecordLines(history: seq<Message>)
    ensures forall i :: 0 <= i < |history| ==>
      CloudFile.Lines(Records(history))[i] == history[i].role + ": " + history[i].content
  {
  }

  /** `iQueryAgent`: the model, the system contents, the project, the
      tools and the two modes are fixed at construction; the buffer is
      replaced by each turn and by `reset`. */
  class Agent {
    const model: string
    const systemContentList: seq<string>
    const project: Option<CloudFile.Project>
    const tools: Option<Registry.AvailableFunctions>
    const expert: bool
    const developer: bool
    const tokensThr: int
    /** The token counter every buffer of this agent uses. */
    const encoding: Tokenizer
    /** How appending the constructor's `messages` argument ended;
        `Raised` means the constructor raised. */
    const opening: Status
    var messages: Memory.MessageManager

    /** `iQueryAgent(api_key, model, system_content_list, project, messages,
        available_functions, is_expert_mode, is_developer_mode)` */
    constructor (model: string, systemContentList: seq<string>, project: Option<CloudFile.Project>,
                 initial: Option<Item>, tools: Option<Registry.AvailableFunctions>,
                 expert: bool, developer: bool, encoding: Tokenizer)
      ensures this.model == model && this.systemContentList == systemContentList && this.project == project
      ensures this.tools == tools && this.expert == expert && this.developer == developer
      ensures this.encoding == encoding && fresh(messages) && messages.encoding == encoding
      ensures tokensThr == ThresholdFor(model)
      ensures var s := Init(systemContentList, GREETING, Some(ThresholdFor(model)), encoding);
        if initial.None? then messages.Snap() == s && opening == Ok
        else Step(messages.Snap(), opening) == Append(s, initial.value, encoding.message)
    {
      this.model := model;
      this.systemContentList := systemContentList;
      this.project := project;
      this.tools := tools;
      this.expert := expert;
      this.developer := developer;
      this.encoding := encoding;
      var thr := ThresholdFor(model);
      tokensThr := thr;
      var buf := new Memory.MessageManager(systemContentList, GREETING, Some(thr), encoding);
      var status := Ok;
      if initial.Some? {
        status := buf.MessagesAppend(initial.value);
      }
      opening := status;
      messages := buf;
    }

    /** `chat(question)`. With a question: append it and run one turn.
        Without: run turns until the user types '退出', appending each
        other answer as the next question. A plain turn whose first reply
        is text records the question and the reply. */
    method Chat(question: Option<string>, world: Planning.World, fuel: nat) returns (r: Run<()>)
      modifies this, messages, world
      ensures messages == old(messages) || fresh(messages)
      ensures old(world.requests) <= world.requests && r != Failed(ValueError)
      ensures question.Some? ==>
        var asked := Append(old(messages.Snap()), Single(UserMessage(question.value)), old(messages).encoding.message);
        (asked.status.Raised? ==> r == Failed(asked.status.error) && world.requests == old(world.requests)) &&
        (asked.status.Ok? ==>
           Planning.AskedWith(old(world.requests), world.requests, old(world.completions), model, asked.state, developer, expert))
      ensures question.None? && r.Done? ==> |world.typed| > 0 && world.typed[|world.typed| - 1] == Prompts.EXIT
      ensures question.Some? && !developer && !expert &&
              old(world.completions) != [] && old(world.completions)[0].Reply? &&
              old(world.completions)[0].message.toolCalls == [] ==>
        var asked := Append(old(messages.Snap()), Single(UserMessage(question.value)), old(messages).encoding.message);
        var answered := Append(asked.state, Single(old(world.completions)[0].message), old(messages).encoding.message);
        messages == old(messages) &&
        (asked.status.Raised? ==> r == Failed(asked.status.error) && messages.Snap() == asked.state &&
                                  world.requests == old(world.requests)) &&
        (asked.status.Ok? ==> messages.Snap() == answered.state &&
                              r == (if answered.status.Raised? then Failed(answered.status.error) else Done(())) &&
                              world.requests == old(world.requests) + [Planning.Request(model, asked.state.messages)])
    {
      if question.Some? {
        var st := messages.MessagesAppend(Single(UserMessage(question.value)));
        if st.Raised? {
          return Failed(st.error);
        }
        var next := Planning.OneChatResponse(model, messages, tools, developer, expert, 0, false, world, fuel);
        if !next.Done? {
          return if next.Failed? then Failed(next.error) else OutOfScript;
        }
        messages := next.value;
        return Done(());
      }
      while true
        decreases |world.inputs|
        invariant messages == old(messages) || fresh(messages)
        invariant old(world.requests) <= world.requests
      {
        var next := Planning.OneChatResponse(model, messages, tools, developer, expert, 0, false, world, fuel);
        if !next.Done? {
          return if next.Failed? then Failed(next.error) else OutOfScript;
        }
        messages := next.value;
        var answer := world.Input();
        if answer.None? {
          return OutOfScript;
        }
        if answer.value == Prompts.EXIT {
          return Done(());
        }
        var st := messages.MessagesAppend(Single(UserMessage(answer.value)));
        if st.Raised? {
          return Failed(st.error);
        }
      }
    }

    /** `reset()`: a fresh buffer of the system contents with the default
        question and no threshold. */
    method Reset()
      modifies this
      ensures fresh(messages) && messages.encoding == encoding
      ensures messages.Snap() == Init(systemContentList, GREETING, None, encoding)
    {
      messages := new Memory.MessageManager(systemContentList, GREETING, None, encoding);
    }

    /** `upload_messages()`: without a project nothing happens; otherwise
        the history becomes one more paragraph of the project document. */
    method UploadMessages()
      modifies if project.Some? then {project.value} else {}
      ensures project.Some? ==>
        project.value.paragraphs == old(project.value.paragraphs) + [CloudFile.Join(CloudFile.Lines(Records(messages.historyMessages)))]
    {
      if project.None? {
        return;
      }
      project.value.AppendDocContent(Records(messages.historyMessages));
    }
  }
}
