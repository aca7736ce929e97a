/** The conversation buffer of memory/MessageManager.py as a value: its
    fields, and one function per operation giving the state it leaves and
    whether it raised. The class in module Memory is proved against these. */
module BufferSpec {
  import opened Messages

  /** The fields of a MessageManager. `aliased` records object identity,
      which Python has implicitly: when it holds, `messages` was last built
      as `system_messages + history_messages`, so each of its elements IS
      the corresponding system or history message, and editing one edits
      the other. A fresh `copy()` deep-copies the lists, so nothing is
      shared until the next append or pop rebuilds `messages`. */
  datatype State = State(
    systemContentList: seq<string>,
    systemMessages: seq<Message>,
    historyMessages: seq<Message>,
    messages: seq<Message>,
    tokensCount: int,
    numOfSystemMessages: nat,
    tokensThr: Option<int>,
    aliased: bool)

  /** The state and the outcome an operation leaves. */
  datatype Step = Step(state: State, status: Status)

  /** What `messages_append` is given: a message (dict or completion
      message), another MessageManager (its `messages` and `tokens_count`),
      or anything else, such as a list. */
  datatype Item = Single(message: Message) | Merged(messages: seq<Message>, tokens: int) | Unsupported

  /** The partition invariant, for a state whose elements are shared. */
  predicate Valid(s: State) {
    s.aliased ==> s.messages == s.systemMessages + s.historyMessages
  }

  /** `num_of_system_messages` counts the system prefix. */
  predicate Aligned(s: State) {
    s.numOfSystemMessages == |s.systemMessages|
  }

  /** The threshold, if set, is respected. */
  predicate UnderThreshold(s: State) {
    s.tokensThr.Some? ==> s.tokensCount < s.tokensThr.value
  }

  /** `messages = system_messages + history_messages` */
  function Rebuild(s: State): (r: State)
    ensures Valid(r) && r.aliased
  {
    s.(messages := s.systemMessages + s.historyMessages, aliased := true)
  }

  // ---------------------------------------------------------------- __init__

  /** Tokens of the system contents as the constructor counts them. */
  function SystemTokens(cs: seq<string>, enc: Tokenizer): nat {
    if cs == [] then 0 else enc.text(Concat(cs))
  }

  /** The constructor drops the system messages when they alone reach the
      threshold. */
  predicate DropsSystem(cs: seq<string>, thr: Option<int>, enc: Tokenizer) {
    cs != [] && thr.Some? && SystemTokens(cs, enc) >= thr.value
  }

  /** The constructor clears everything when system and question together
      reach the threshold. */
  predicate ClearsAll(cs: seq<string>, question: string, thr: Option<int>, enc: Tokenizer) {
    thr.Some? &&
    (if DropsSystem(cs, thr, enc) then 0 else SystemTokens(cs, enc)) + enc.text(question) >= thr.value
  }

  /** `MessageManager(system_content_list, question, tokens_thr)` */
  function Init(cs: seq<string>, question: string, thr: Option<int>, enc: Tokenizer): State {
    var sys := if DropsSystem(cs, thr, enc) then [] else SystemMessages(cs);
    var count := (if DropsSystem(cs, thr, enc) then 0 else SystemTokens(cs, enc)) + enc.text(question);
    if ClearsAll(cs, question, thr, enc) then State(cs, [], [], [], 0, 0, thr, true)
    else State(cs, sys, [UserMessage(question)], sys + [UserMessage(question)], count, |sys|, thr, true)
  }

  // ------------------------------------------------------------ messages_pop

  /** What is left of a history after eviction. */
  datatype Trimmed = Trimmed(history: seq<Message>, tokens: int)

  /** The loop `while tokens_count >= tokens_thr: reduce_tokens(-1)`: drop
      the LAST history message and its tokens until under the threshold;
      `None` when the history runs out first (`pop` raises IndexError). */
  function Evict(h: seq<Message>, tokens: int, thr: Option<int>, tok: Message -> nat): Option<Trimmed>
    decreases |h|
  {
    if thr.None? || tokens < thr.value then Some(Trimmed(h, tokens))
    else if |h| == 0 then None
    else Evict(h[..|h| - 1], tokens - tok(h[|h| - 1]), thr, tok)
  }

  /** The index `reduce_tokens` pops for a manual pop, or None when
      `messages_pop` raises instead (`ValueError` for a bad index,
      `IndexError` for an empty history). */
  function ManualIndex(h: seq<Message>, index: Option<int>): (r: Result)
    ensures r.Index? ==> r.i < |h|
  {
    var idx := if index.None? then -1 else index.value;
    if idx == -1 || (0 <= idx < |h|) then
      if |h| == 0 then Fails(IndexError)
      else Index(if idx == -1 then |h| - 1 else idx)
    else Fails(ValueError)
  }

  datatype Result = Index(i: nat) | Fails(error: PyError)

  /** `messages_pop(manual, index)`. A raise leaves `messages` as it was,
      so elements stay shared only if eviction removed nothing. */
  function Pop(s: State, manual: bool, index: Option<int>, tok: Message -> nat): (r: Step)
    ensures r.status.Raised? ==>
      r.status.error == IndexError || (r.status.error == ValueError && manual && index.Some? && index.value != -1)
  {
    match Evict(s.historyMessages, s.tokensCount, s.tokensThr, tok)
    case None =>
      Step(s.(historyMessages := [], tokensCount := s.tokensCount - SumTokens(s.historyMessages, tok),
              aliased := s.aliased && s.historyMessages == []), Raised(IndexError))
    case Some(t) =>
      var s1 := s.(historyMessages := t.history, tokensCount := t.tokens);
      if !manual then Step(Rebuild(s1), Ok)
      else match ManualIndex(t.history, index)
        case Fails(e) => Step(s1.(aliased := s.aliased && t.history == s.historyMessages), Raised(e))
        case Index(i) =>
          Step(Rebuild(s1.(historyMessages := RemoveAt(t.history, i),
                           tokensCount := t.tokens - tok(t.history[i]))), Ok)
  }

  // --------------------------------------------------------- messages_append

  function ItemMessages(item: Item): seq<Message> {
    match item
    case Single(m) => [m]
    case Merged(ms, _) => ms
    case Unsupported => []
  }

  function ItemTokens(item: Item, tok: Message -> nat): int {
    match item
    case Single(m) => tok(m)
    case Merged(_, n) => n
    case Unsupported => 0
  }

  /** The state `messages_append` hands to `messages_pop`: `messages`
      extended, the tokens added, `history_messages = messages[num:]`. */
  function Grown(s: State, item: Item, tok: Message -> nat): State {
    var grown := s.messages + ItemMessages(item);
    s.(messages := grown, tokensCount := s.tokensCount + ItemTokens(item, tok),
       historyMessages := Drop(grown, s.numOfSystemMessages))
  }

  /** `messages_append(item)`; only eviction can raise. */
  function Append(s: State, item: Item, tok: Message -> nat): (r: Step)
    ensures r.status.Raised? ==> r.status.error == IndexError
  {
    Pop(Grown(s, item, tok), false, None, tok)
  }

  // ------------------------------------------------------------------ copy

  /** `copy()`: a fresh MessageManager is built from the system contents,
      the first history content and the threshold, and then its history,
      messages, count and system-message number are overwritten with
      copies. Its own `system_messages` stay as that constructor left them. */
  function CopyOf(s: State, enc: Tokenizer): State {
    var question := if |s.historyMessages| > 0 then s.historyMessages[0].content else "";
    Init(Contents(s.systemMessages), question, s.tokensThr, enc).(
      historyMessages := s.historyMessages,
      messages := s.messages,
      tokensCount := s.tokensCount,
      numOfSystemMessages := s.numOfSystemMessages,
      aliased := false)
  }

  // --------------------------------------------- add/delete_system_messages

  /** `add_system_messages(contents)`, after a single string has been
      wrapped into a list. `messages` is rebuilt from the system and
      history dictionaries themselves, so they are shared again even when
      the eviction that follows raises. */
  function AddSystem(s: State, added: seq<string>, enc: Tokenizer): Step {
    var cs := s.systemContentList + added;
    var sys := SystemMessages(cs);
    Pop(s.(tokensCount := s.tokensCount + enc.text(Concat(added)),
           systemContentList := cs, systemMessages := sys,
           numOfSystemMessages := |cs|, messages := sys + s.historyMessages, aliased := true),
        false, None, enc.message)
  }

  /** `delete_system_messages()`; `messages` becomes the history list itself. */
  function DeleteSystem(s: State, enc: Tokenizer): State {
    if s.systemContentList == [] then s
    else s.(tokensCount := s.tokensCount - enc.text(Concat(s.systemContentList)),
            numOfSystemMessages := 0, systemContentList := [], systemMessages := [],
            messages := s.historyMessages, aliased := true)
  }

  // ------------------------------------------------- delete_function_messages

  predicate IsFunctionMessage(m: Message) {
    m.functionCall || m.role == "function"
  }

  /** One pass of the reverse index loop, from `index` down to 0, popping
      each function message manually; indexing the live history past its
      end raises IndexError. */
  function DeleteFrom(s: State, index: int, tok: Message -> nat): Step
    decreases index + 1
  {
    if index < 0 then Step(s, Ok)
    else if index >= |s.historyMessages| then Step(s, Raised(IndexError))
    else if IsFunctionMessage(s.historyMessages[index]) then
      var st := Pop(s, true, Some(index), tok);
      if st.status.Raised? then st else DeleteFrom(st.state, index - 1, tok)
    else DeleteFrom(s, index - 1, tok)
  }

  /** `delete_function_messages()` */
  function DeleteFunctionMessages(s: State, tok: Message -> nat): Step {
    DeleteFrom(s, |s.historyMessages| - 1, tok)
  }

  /** The messages that are neither function calls nor function results. */
  function Kept(h: seq<Message>): (r: seq<Message>) {
    if h == [] then []
    else Kept(h[..|h| - 1]) + (if IsFunctionMessage(h[|h| - 1]) then [] else [h[|h| - 1]])
  }

  /** The function calls and results. */
  function Dropped(h: seq<Message>): (r: seq<Message>) {
    if h == [] then []
    else Dropped(h[..|h| - 1]) + (if IsFunctionMessage(h[|h| - 1]) then [h[|h| - 1]] else [])
  }

  // ------------------------------------------------------- editing one message

  /** `messages[-1]["content"] = f(messages[-1]["content"])`. When elements
      are shared, the edited object is also the last history message, or,
      with an empty history, the last system message. */
  function EditLastMessage(s: State, f: string -> string): (r: Step)
    ensures r.status.Raised? <==> |s.messages| == 0
    ensures r.status.Raised? ==> r.status.error == IndexError && r.state == s
  {
    if |s.messages| == 0 then Step(s, Raised(IndexError))
    else
      var ms := UpdateLast(s.messages, f);
      if !s.aliased then Step(s.(messages := ms), Ok)
      else if |s.historyMessages| > 0 then
        Step(s.(messages := ms, historyMessages := UpdateLast(s.historyMessages, f)), Ok)
      else if |s.systemMessages| > 0 then
        Step(s.(messages := ms, systemMessages := UpdateLast(s.systemMessages, f)), Ok)
      else Step(s.(messages := ms, aliased := false), Ok)
  }

  /** `history_messages[-1]["content"] = f(history_messages[-1]["content"])`;
      when elements are shared, the last of `messages` is the same object. */
  function EditLastHistory(s: State, f: string -> string): (r: Step)
    ensures r.status.Raised? <==> |s.historyMessages| == 0
    ensures r.status.Raised? ==> r.status.error == IndexError && r.state == s
  {
    if |s.historyMessages| == 0 then Step(s, Raised(IndexError))
    else
      var hs := UpdateLast(s.historyMessages, f);
      if s.aliased && |s.messages| > 0 then
        Step(s.(historyMessages := hs, messages := UpdateLast(s.messages, f)), Ok)
      else Step(s.(historyMessages := hs, aliased := false), Ok)
  }
}
