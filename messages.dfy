/** The chat message record shared by the whole core, the tokenizer as an
    abstract parameter, and the Python exceptions that can escape. */
module Messages {

  datatype Option<T> = None | Some(value: T)

  /** The Python exceptions the modelled code can raise. */
  datatype PyError =
    | IndexError          // `pop` or `[-1]` on an empty list
    | ValueError          // an out-of-range manual pop index
    | KeyError            // an unknown tool name
    | TypeError           // subscripting a registry that holds `None`
    | AttributeError      // `.tool_calls` of a response that is `None`
    | AuthenticationError // re-raised from the completion service

  /** How an operation that may raise ended. */
  datatype Status = Ok | Raised(error: PyError)

  /** How a call that consumes scripted replies ended: with a value, with
      an exception, or because the script (or the recursion bound) ran
      out. */
  datatype Run<T> = Done(value: T) | Failed(error: PyError) | OutOfScript

  /** The JSON arguments of a tool call once `json.loads` has run: either a
      dictionary of (string-valued) fields or a payload it rejects. */
  datatype Arguments = Malformed | Parsed(fields: map<string, string>)

  /** One entry of a response's `tool_calls`. */
  datatype ToolCall = ToolCall(id: string, name: string, arguments: Arguments)

  /** A chat message. The dictionary form and the completion-service object
      form are one record; `functionCall` is the truthiness of the
      dictionary's `function_call` entry. */
  datatype Message = Message(
    role: string,
    content: string,
    toolCalls: seq<ToolCall>,
    functionCall: bool,
    toolCallId: Option<string>,
    name: Option<string>)

  /** `{"role": "user", "content": c}` */
  function UserMessage(c: string): Message {
    Message("user", c, [], false, None, None)
  }

  /** `{"role": "system", "content": c}` */
  function SystemMessage(c: string): Message {
    Message("system", c, [], false, None, None)
  }

  /** The token counter: `len(encoding.encode(str(m)))` for a message and
      `len(encoding.encode(t))` for a string, both left uninterpreted. */
  datatype Tokenizer = Tokenizer(message: Message -> nat, text: string -> nat)

  /** One system message per content string, in order. */
  function SystemMessages(cs: seq<string>): (r: seq<Message>)
    ensures |r| == |cs|
    ensures forall i :: 0 <= i < |cs| ==> r[i] == SystemMessage(cs[i])
  {
    seq(|cs|, i requires 0 <= i < |cs| => SystemMessage(cs[i]))
  }

  /** `[m["content"] for m in ms]` */
  function Contents(ms: seq<Message>): (r: seq<string>)
    ensures |r| == |ms|
    ensures forall i :: 0 <= i < |ms| ==> r[i] == ms[i].content
  {
    seq(|ms|, i requires 0 <= i < |ms| => ms[i].content)
  }

  /** The contents of system messages built from `cs` are `cs` again. */
  lemma ContentsOfSystemMessages(cs: seq<string>)
    ensures Contents(SystemMessages(cs)) == cs
  {
  }

  /** The strings joined with no separator, as the `+=` loops build them. */
  function Concat(cs: seq<string>): string {
    if cs == [] then "" else Concat(cs[..|cs| - 1]) + cs[|cs| - 1]
  }

  /** Total tokens of a run of messages. */
  function SumTokens(ms: seq<Message>, tok: Message -> nat): nat {
    if ms == [] then 0 else SumTokens(ms[..|ms| - 1], tok) + tok(ms[|ms| - 1])
  }

  lemma {:induction false} SumTokensAppend(a: seq<Message>, b: seq<Message>, tok: Message -> nat)
    ensures SumTokens(a + b, tok) == SumTokens(a, tok) + SumTokens(b, tok)
    decreases |b|
  {
    if b == [] {
      assert a + b == a;
    } else {
      assert (a + b)[..|a + b| - 1] == a + b[..|b| - 1];
      SumTokensAppend(a, b[..|b| - 1], tok);
    }
  }

  /** Python's `s[n:]` for a non-negative `n`, which is empty past the end. */
  function Drop<T>(s: seq<T>, n: nat): (r: seq<T>)
    ensures n <= |s| ==> r == s[n..]
    ensures n > |s| ==> r == []
  {
    if n <= |s| then s[n..] else []
  }

  /** `s` without the element at index `i`. */
  function RemoveAt<T>(s: seq<T>, i: nat): (r: seq<T>)
    requires i < |s|
    ensures |r| == |s| - 1
    ensures forall j :: 0 <= j < i ==> r[j] == s[j]
    ensures forall j :: i <= j < |r| ==> r[j] == s[j + 1]
  {
    s[..i] + s[i + 1..]
  }

  /** `s` with the content of its last message rewritten by `f`. */
  function UpdateLast(s: seq<Message>, f: string -> string): (r: seq<Message>)
    requires |s| > 0
    ensures |r| == |s| && r[..|s| - 1] == s[..|s| - 1]
    ensures r[|s| - 1] == s[|s| - 1].(content := f(s[|s| - 1].content))
  {
    s[..|s| - 1] + [s[|s| - 1].(content := f(s[|s| - 1].content))]
  }
}
