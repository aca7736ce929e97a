/** The class MessageManager of memory/MessageManager.py: a token-budgeted
    conversation buffer whose methods update its fields in place. Each
    method is proved to leave exactly the state the matching function of
    BufferSpec describes; what those states guarantee is proved in
    BufferProps. */
module Memory {
  import opened Messages
  import opened BufferSpec
  import BufferProps

  /** The argument of `add_system_messages`: one string or a list. */
  datatype SystemContent = Text(text: string) | Texts(texts: seq<string>)

  /** A single string is wrapped into a one-element list. */
  function ContentList(c: SystemContent): seq<string> {
    match c
    case Text(t) => [t]
    case Texts(ts) => ts
  }

  /** The `+=` loop that concatenates contents. */
  method JoinContents(cs: seq<string>) returns (s: string)
    ensures s == Concat(cs)
  {
    s := "";
    var i := 0;
    while i < |cs|
      invariant 0 <= i <= |cs|
      invariant s == Concat(cs[..i])
    {
      assert cs[..i + 1][..i] == cs[..i];
      s := s + cs[i];
      i := i + 1;
    }
    assert cs[..|cs|] == cs;
  }

  /** The loop appending `{"role": "system", "content": c}` for each content. */
  method BuildSystemMessages(cs: seq<string>) returns (ms: seq<Message>)
    ensures ms == SystemMessages(cs)
  {
    ms := [];
    var i := 0;
    while i < |cs|
      invariant 0 <= i <= |cs|
      invariant ms == SystemMessages(cs[..i])
    {
      ms := ms + [SystemMessage(cs[i])];
      i := i + 1;
    }
    assert cs[..|cs|] == cs;
  }

  class MessageManager {
    var systemContentList: seq<string>
    var systemMessages: seq<Message>
    var historyMessages: seq<Message>
    var messages: seq<Message>
    var tokensCount: int
    var numOfSystemMessages: nat
    var tokensThr: Option<int>
    /** Whether the elements of `messages` are the system and history
        messages themselves (see BufferSpec.State). */
    var aliased: bool
    /** `tiktoken.encoding_for_model("gpt-3.5-turbo")`, left abstract. */
    const encoding: Tokenizer

    /** The fields as a value. */
    function Snap(): State
      reads this
    {
      State(systemContentList, systemMessages, historyMessages, messages,
            tokensCount, numOfSystemMessages, tokensThr, aliased)
    }

    /** `MessageManager(system_content_list, question, tokens_thr)` */
    constructor (systemContentList: seq<string>, question: string, tokensThr: Option<int>, encoding: Tokenizer)
      ensures Snap() == Init(systemContentList, question, tokensThr, encoding)
      ensures this.encoding == encoding
    {
      var systemMessages: seq<Message> := [];
      var messagesAll: seq<Message> := [];
      var num := 0;
      var allTokens := 0;
      if systemContentList != [] {
        systemMessages := BuildSystemMessages(systemContentList);
        var systemContent := JoinContents(systemContentList);
        var systemTokens := encoding.text(systemContent);
        messagesAll := messagesAll + systemMessages;
        num := |systemContentList|;
        if tokensThr.Some? && systemTokens >= tokensThr.value {
          systemMessages := [];
          messagesAll := [];
          num := 0;
          systemTokens := 0;
        }
        allTokens := allTokens + systemTokens;
      }
      var history := [UserMessage(question)];
      messagesAll := messagesAll + history;
      allTokens := allTokens + encoding.text(question);
      if tokensThr.Some? && allTokens >= tokensThr.value {
        history := [];
        systemMessages := [];
        messagesAll := [];
        num := 0;
        allTokens := 0;
      }
      this.systemContentList := systemContentList;
      this.messages := messagesAll;
      this.systemMessages := systemMessages;
      this.historyMessages := history;
      this.tokensCount := allTokens;
      this.numOfSystemMessages := num;
      this.tokensThr := tokensThr;
      this.aliased := true;
      this.encoding := encoding;
    }

    /** The inner `reduce_tokens(index)`: `history_messages.pop(index)` and
        subtract the popped message's tokens; `pop` on an empty list raises
        IndexError. */
    method ReduceTokens(index: int) returns (status: Status)
      requires index == -1 || 0 <= index < |historyMessages|
      modifies this
      ensures |old(historyMessages)| == 0 ==> status == Raised(IndexError) && Snap() == old(Snap())
      ensures |old(historyMessages)| > 0 ==>
        var i := if index == -1 then |old(historyMessages)| - 1 else index;
        status == Ok &&
        Snap() == old(Snap()).(historyMessages := RemoveAt(old(historyMessages), i),
                               tokensCount := old(tokensCount) - encoding.message(old(historyMessages)[i]))
      ensures |old(historyMessages)| > 0 && index == -1 ==>
        historyMessages == old(historyMessages)[..|old(historyMessages)| - 1] &&
        tokensCount == old(tokensCount) - encoding.message(old(historyMessages)[|old(historyMessages)| - 1])
    {
      if |historyMessages| == 0 {
        return Raised(IndexError);
      }
      var i := if index == -1 then |historyMessages| - 1 else index;
      var dropMessage := historyMessages[i];
      historyMessages := historyMessages[..i] + historyMessages[i + 1..];
      tokensCount := tokensCount - encoding.message(dropMessage);
      status := Ok;
    }

    /** The loop `while tokens_count >= tokens_thr: reduce_tokens(-1)` of
        `messages_pop`. */
    method EvictOverflow() returns (status: Status)
      modifies this
      ensures Evict(old(historyMessages), old(tokensCount), tokensThr, encoding.message).None? ==>
        status == Raised(IndexError) &&
        Snap() == old(Snap()).(historyMessages := [],
                               tokensCount := old(tokensCount) - SumTokens(old(historyMessages), encoding.message))
      ensures var e := Evict(old(historyMessages), old(tokensCount), tokensThr, encoding.message);
        e.Some? ==>
        status == Ok && Snap() == old(Snap()).(historyMessages := e.value.history, tokensCount := e.value.tokens)
    {
      status := Ok;
      if tokensThr.None? {
        return;
      }
      while tokensCount >= tokensThr.value
        invariant Evict(historyMessages, tokensCount, tokensThr, encoding.message) ==
                  Evict(old(historyMessages), old(tokensCount), tokensThr, encoding.message)
        invariant tokensCount - SumTokens(historyMessages, encoding.message) ==
                  old(tokensCount) - SumTokens(old(historyMessages), encoding.message)
        invariant Snap() == old(Snap()).(historyMessages := historyMessages, tokensCount := tokensCount)
        invariant status == Ok
        decreases |historyMessages|
      {
        status := ReduceTokens(-1);
        if status.Raised? {
          return;
        }
      }
    }

    /** `messages_pop(manual, index)`: evict from the tail while over the
        threshold, then, if manual, pop the given index. */
    method MessagesPop(manual: bool, index: Option<int>) returns (status: Status)
      modifies this
      ensures Step(Snap(), status) == Pop(old(Snap()), manual, index, encoding.message)
    {
      var before := historyMessages;
      status := EvictOverflow();
      if status.Raised? {
        aliased := aliased && before == [];
        return;
      }
      if manual {
        status := PopIndex(index);
        if status.Raised? {
          aliased := aliased && historyMessages == before;
          return;
        }
      }
      messages := systemMessages + historyMessages;
      aliased := true;
      status := Ok;
    }

    /** The manual part of `messages_pop`: check the index, then
        `reduce_tokens(index)`. */
    method PopIndex(index: Option<int>) returns (status: Status)
      modifies this
      ensures match ManualIndex(old(historyMessages), index)
        case Fails(e) => status == Raised(e) && Snap() == old(Snap())
        case Index(i) =>
          status == Ok &&
          Snap() == old(Snap()).(historyMessages := RemoveAt(old(historyMessages), i),
                                 tokensCount := old(tokensCount) - encoding.message(old(historyMessages)[i]))
    {
      if index.None? {
        status := ReduceTokens(-1);
      } else if 0 <= index.value < |historyMessages| || index.value == -1 {
        status := ReduceTokens(index.value);
      } else {
        return Raised(ValueError);
      }
    }

    /** `messages_append(item)` */
    method MessagesAppend(item: Item) returns (status: Status)
      modifies this
      ensures Step(Snap(), status) == Append(old(Snap()), item, encoding.message)
    {
      match item {
        case Single(m) =>
          messages := messages + [m];
          tokensCount := tokensCount + encoding.message(m);
        case Merged(ms, n) =>
          messages := messages + ms;
          tokensCount := tokensCount + n;
        case Unsupported =>
      }
      historyMessages := Drop(messages, numOfSystemMessages);
      assert Snap() == Grown(old(Snap()), item, encoding.message);
      status := MessagesPop(false, None);
    }

    /** `copy()`: a new buffer built by the constructor and then overwritten
        with copies of this one's lists and counters; this one is untouched. */
    method Copy() returns (c: MessageManager)
      ensures fresh(c) && c.encoding == encoding
      ensures c.Snap() == CopyOf(Snap(), encoding)
    {
      var systemContentStrList := Contents(systemMessages);
      var question := if |historyMessages| > 0 then historyMessages[0].content else "";
      c := new MessageManager(systemContentStrList, question, tokensThr, encoding);
      c.historyMessages := historyMessages;
      c.messages := messages;
      c.tokensCount := tokensCount;
      c.numOfSystemMessages := numOfSystemMessages;
      c.aliased := false;
    }

    /** `add_system_messages(content)` */
    method AddSystemMessages(content: SystemContent) returns (status: Status)
      modifies this
      ensures Step(Snap(), status) == AddSystem(old(Snap()), ContentList(content), encoding)
    {
      var added := ContentList(content);
      var contentList := systemContentList + added;
      var addedText := JoinContents(added);
      tokensCount := tokensCount + encoding.text(addedText);
      systemContentList := contentList;
      var system := BuildSystemMessages(contentList);
      systemMessages := system;
      numOfSystemMessages := |contentList|;
      messages := system + historyMessages;
      aliased := true;
      status := MessagesPop(false, None);
    }

    /** `delete_system_messages()` */
    method DeleteSystemMessages()
      modifies this
      ensures Snap() == DeleteSystem(old(Snap()), encoding)
    {
      if systemContentList != [] {
        var text := JoinContents(systemContentList);
        tokensCount := tokensCount - encoding.text(text);
        numOfSystemMessages := 0;
        systemContentList := [];
        systemMessages := [];
        messages := historyMessages;
        aliased := true;
      }
    }

    /** `delete_function_messages()`: a reverse index loop that pops every
        function message manually. */
    method DeleteFunctionMessages() returns (status: Status)
      modifies this
      ensures Step(Snap(), status) == BufferSpec.DeleteFunctionMessages(old(Snap()), encoding.message)
    {
      var index := |historyMessages| - 1;
      while index >= 0
        invariant index >= -1
        invariant DeleteFrom(Snap(), index, encoding.message) ==
                  DeleteFrom(old(Snap()), |old(historyMessages)| - 1, encoding.message)
        decreases index + 1
      {
        if index >= |historyMessages| {
          return Raised(IndexError);
        }
        var message := historyMessages[index];
        if message.functionCall || message.role == "function" {
          status := MessagesPop(true, Some(index));
          if status.Raised? {
            return;
          }
        }
        index := index - 1;
      }
      status := Ok;
    }

    /** `messages[-1]["content"] = f(messages[-1]["content"])` */
    method EditLastMessage(f: string -> string) returns (status: Status)
      modifies this
      ensures Step(Snap(), status) == BufferSpec.EditLastMessage(old(Snap()), f)
    {
      if |messages| == 0 {
        return Raised(IndexError);
      }
      messages := UpdateLast(messages, f);
      if aliased {
        if |historyMessages| > 0 {
          historyMessages := UpdateLast(historyMessages, f);
        } else if |systemMessages| > 0 {
          systemMessages := UpdateLast(systemMessages, f);
        } else {
          aliased := false;
        }
      }
      status := Ok;
    }

    /** `history_messages[-1]["content"] = f(history_messages[-1]["content"])` */
    method EditLastHistory(f: string -> string) returns (status: Status)
      modifies this
      ensures Step(Snap(), status) == BufferSpec.EditLastHistory(old(Snap()), f)
    {
      if |historyMessages| == 0 {
        return Raised(IndexError);
      }
      historyMessages := UpdateLast(historyMessages, f);
      if aliased && |messages| > 0 {
        messages := UpdateLast(messages, f);
      } else {
        aliased := false;
      }
      status := Ok;
    }
  }
}
