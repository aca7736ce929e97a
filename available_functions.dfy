/** The tool registry of tools/AvailableFunctions.py: the class
    AvailableFunctions, which keeps the tool functions, their descriptions
    for the completion service and a name index, and `auto_functions`,
    which asks the completion service to describe functions and retries up
    to four times. */
module Registry {
  import opened Messages

  /** A Python function as the registry sees it: its `__name__` and its
      docstring. */
  datatype PyFunction = PyFunction(name: string, doc: string)

  /** A JSON Schema description as `json.loads` returned it. */
  datatype Schema = Schema(json: string)

  /** An element of `functions`: a generated `{"type": "function",
      "function": schema}`, a description the caller supplied, or the whole
      list `auto_functions` returned, which `add_function` appends as one
      element. */
  datatype Entry = Tool(schema: Schema) | Supplied(description: string) | Batch(entries: seq<Entry>)

  /** One reply of the completion service to a description request:
      something `json.loads` accepts, or something it rejects. */
  datatype Reply = Parsed(schema: Schema) | Unparseable

  /** The completion service as the description generator sees it: the
      replies it will give, in order. */
  class Describer {
    var replies: seq<Reply>

    constructor (replies: seq<Reply>)
      ensures this.replies == replies
    {
      this.replies := replies;
    }

    /** One `client.chat.completions.create` call. */
    method Next() returns (r: Option<Reply>)
      modifies this
      ensures old(replies) == [] ==> r.None? && replies == old(replies)
      ensures old(replies) != [] ==> r == Some(old(replies)[0]) && replies == old(replies)[1..]
    {
      if replies == [] {
        return None;
      }
      r := Some(replies[0]);
      replies := replies[1..];
    }
  }

  /** `{func.__name__: func for func in functions_list}` */
  function Index(fs: seq<PyFunction>): map<string, PyFunction>
    decreases |fs|
  {
    if fs == [] then map[] else Index(fs[..|fs| - 1])[fs[|fs| - 1].name := fs[|fs| - 1]]
  }

  /** The index names exactly the listed functions, each under its own
      name. */
  lemma {:induction false} IndexKeys(fs: seq<PyFunction>)
    ensures forall n :: n in Index(fs) <==> exists i :: 0 <= i < |fs| && fs[i].name == n
    ensures forall n :: n in Index(fs) ==> Index(fs)[n].name == n && Index(fs)[n] in fs
    decreases |fs|
  {
    if fs != [] {
      var init := fs[..|fs| - 1];
      IndexKeys(init);
      forall n | n in Index(fs) ensures exists i :: 0 <= i < |fs| && fs[i].name == n {
        if n != fs[|fs| - 1].name {
          assert n in Index(init);
          var i :| 0 <= i < |init| && init[i].name == n;
          assert fs[i] == init[i];
        }
      }
      forall i | 0 <= i < |fs| ensures fs[i].name in Index(fs) {
        if i < |init| {
          assert init[i] == fs[i];
        }
      }
    }
  }

  /** Among functions of the same name, the last one listed wins. */
  lemma {:induction false} IndexLastWins(fs: seq<PyFunction>, i: nat)
    requires i < |fs|
    requires forall j :: i < j < |fs| ==> fs[j].name != fs[i].name
    ensures fs[i].name in Index(fs) && Index(fs)[fs[i].name] == fs[i]
    decreases |fs|
  {
    if i < |fs| - 1 {
      var init := fs[..|fs| - 1];
      IndexLastWins(init, i);
    }
  }

  /** Registering one more function is one more index update. */
  lemma IndexAppend(fs: seq<PyFunction>, f: PyFunction)
    ensures Index(fs + [f]) == Index(fs)[f.name := f]
  {
    assert (fs + [f])[..|fs|] == fs;
  }

  // ----------------------------------------------------------- generation

  /** What one run of `functions_generate` gave, and the replies left. */
  datatype Generation = Generation(run: Run<seq<Entry>>, rest: seq<Reply>)

  /** `functions_generate(functions_list)`: one request per function, in
      order; the first reply `json.loads` rejects raises. */
  function Generate(fs: seq<PyFunction>, tape: seq<Reply>): Generation
    decreases |fs|
  {
    if fs == [] then Generation(Done([]), tape)
    else if tape == [] then Generation(OutOfScript, tape)
    else match tape[0]
      case Unparseable => Generation(Failed(ValueError), tape[1..])
      case Parsed(s) =>
        var g := Generate(fs[1..], tape[1..]);
        if g.run.Done? then g.(run := Done([Tool(s)] + g.run.value)) else g
  }

  /** A successful run gives one entry per function, in order, each the
      next reply's schema. */
  lemma {:induction false} GenerateInOrder(fs: seq<PyFunction>, tape: seq<Reply>)
    requires Generate(fs, tape).run.Done?
    ensures var es := Generate(fs, tape).run.value;
      |es| == |fs| && |fs| <= |tape| &&
      (forall i :: 0 <= i < |fs| ==> tape[i].Parsed? && es[i] == Tool(tape[i].schema)) &&
      Generate(fs, tape).rest == tape[|fs|..]
    decreases |fs|
  {
    if fs != [] {
      GenerateInOrder(fs[1..], tape[1..]);
      var es := Generate(fs, tape).run.value;
      forall i | 0 <= i < |fs| ensures tape[i].Parsed? && es[i] == Tool(tape[i].schema) {
        if i > 0 {
          assert tape[1..][i - 1] == tape[i];
        }
      }
    }
  }

  /** `generated` followed by whatever `g` produced. */
  function After(generated: seq<Entry>, g: Generation): Generation {
    if g.run.Done? then g.(run := Done(generated + g.run.value)) else g
  }

  lemma AfterAssoc(a: seq<Entry>, b: seq<Entry>, g: Generation)
    ensures After(a, After(b, g)) == After(a + b, g)
    ensures After([], g) == g
  {
    if g.run.Done? {
      assert a + (b + g.run.value) == a + b + g.run.value;
      assert [] + g.run.value == g.run.value;
    }
  }

  /** The loop of `functions_generate`: for each function, request a
      description and wrap it as `{"type": "function", "function": ...}`. */
  method FunctionsGenerate(fs: seq<PyFunction>, d: Describer) returns (r: Run<seq<Entry>>)
    modifies d
    ensures Generation(r, d.replies) == Generate(fs, old(d.replies))
  {
    var functions: seq<Entry> := [];
    var i := 0;
    AfterAssoc([], [], Generate(fs, d.replies));
    assert fs[0..] == fs;
    while i < |fs|
      invariant 0 <= i <= |fs|
      invariant Generate(fs, old(d.replies)) == After(functions, Generate(fs[i..], d.replies))
    {
      assert fs[i..][1..] == fs[i + 1..];
      var reply := d.Next();
      if reply.None? {
        return OutOfScript;
      }
      match reply.value
      case Unparseable =>
        return Failed(ValueError);
      case Parsed(s) =>
        AfterAssoc(functions, [Tool(s)], Generate(fs[i + 1..], d.replies));
        functions := functions + [Tool(s)];
      i := i + 1;
    }
    assert functions + [] == functions;
    assert Generate(fs[i..], d.replies) == Generation(Done([]), d.replies);
    r := Done(functions);
  }

  const MAX_ATTEMPTS := 4

  /** `auto_functions` with `n` attempts left: a failure is retried until
      the last attempt, whose failure is re-raised. */
  function Retry(fs: seq<PyFunction>, tape: seq<Reply>, n: nat): Generation
    requires n > 0
    decreases n
  {
    var g := Generate(fs, tape);
    if g.run.Failed? && n > 1 then Retry(fs, g.rest, n - 1) else g
  }

  /** `n` consecutive runs, from `tape` on, all raise. */
  predicate FailsTimes(fs: seq<PyFunction>, tape: seq<Reply>, n: nat)
    decreases n
  {
    n == 0 || (Generate(fs, tape).run.Failed? && FailsTimes(fs, Generate(fs, tape).rest, n - 1))
  }

  /** `auto_functions` raises exactly when all its attempts fail. */
  lemma {:induction false} RetryFailsIff(fs: seq<PyFunction>, tape: seq<Reply>, n: nat)
    requires n > 0
    ensures Retry(fs, tape, n).run.Failed? <==> FailsTimes(fs, tape, n)
    decreases n
  {
    if n > 1 && Generate(fs, tape).run.Failed? {
      RetryFailsIff(fs, Generate(fs, tape).rest, n - 1);
    }
  }

  /** `auto_functions` returns the first successful attempt's entries. */
  lemma {:induction false} RetryFirstSuccess(fs: seq<PyFunction>, tape: seq<Reply>, n: nat, k: nat)
    requires 0 < n && k < n
    requires FailsTimes(fs, tape, k)
    ensures Retry(fs, tape, n) == Retry(fs, Skip(fs, tape, k), n - k)
    decreases k
  {
    if k > 0 {
      RetryFirstSuccess(fs, Generate(fs, tape).rest, n - 1, k - 1);
    }
  }

  /** The replies left after `k` runs. */
  function Skip(fs: seq<PyFunction>, tape: seq<Reply>, k: nat): seq<Reply>
    decreases k
  {
    if k == 0 then tape else Skip(fs, Generate(fs, tape).rest, k - 1)
  }

  /** With nothing to describe, no request is made and nothing fails. */
  lemma RetryEmpty(tape: seq<Reply>, n: nat)
    requires n > 0
    ensures Retry([], tape, n) == Generation(Done([]), tape)
  {
  }

  /** `auto_functions(functions_list)` */
  method AutoFunctions(fs: seq<PyFunction>, d: Describer) returns (r: Run<seq<Entry>>)
    modifies d
    ensures Generation(r, d.replies) == Retry(fs, old(d.replies), MAX_ATTEMPTS)
  {
    var attempts := 0;
    while attempts < MAX_ATTEMPTS
      invariant 0 <= attempts < MAX_ATTEMPTS
      invariant Retry(fs, old(d.replies), MAX_ATTEMPTS) == Retry(fs, d.replies, MAX_ATTEMPTS - attempts)
      decreases MAX_ATTEMPTS - attempts
    {
      r := FunctionsGenerate(fs, d);
      if !r.Failed? {
        return;
      }
      attempts := attempts + 1;
      if attempts == MAX_ATTEMPTS {
        return;
      }
    }
  }

  class AvailableFunctions {
    var functionsList: seq<PyFunction>
    var functions: seq<Entry>
    var functionsDic: Option<map<string, PyFunction>>
    var functionCall: Option<string>

    /** The fields as `__init__` first sets them, before the branch. */
    constructor (functionsList: seq<PyFunction>, functions: seq<Entry>)
      ensures this.functionsList == functionsList && this.functions == functions
      ensures functionsDic.None? && functionCall.None?
    {
      this.functionsList := functionsList;
      this.functions := functions;
      functionsDic := None;
      functionCall := None;
    }

    /** The name index matches the function list. */
    predicate Indexed()
      reads this
    {
      functionsDic == Some(Index(functionsList))
    }

    /** `add_function(new_function, function_description,
        function_call_update)`. The function is listed before the index is
        touched, so a registry built from an empty list keeps it and then
        raises TypeError. */
    method AddFunction(f: PyFunction, description: Option<Entry>, update: Option<string>, d: Describer)
      returns (r: Run<()>)
      modifies this, d
      ensures functionsList == old(functionsList) + [f]
      ensures old(functionsDic).None? ==>
        r == Failed(TypeError) && functionsDic.None? &&
        functions == old(functions) && functionCall == old(functionCall) && d.replies == old(d.replies)
      ensures old(functionsDic).Some? ==> functionsDic == Some(old(functionsDic).value[f.name := f])
      ensures old(functionsDic).Some? && description.Some? ==>
        r == Done(()) && functions == old(functions) + [description.value] && d.replies == old(d.replies) &&
        functionCall == (if update.Some? then update else old(functionCall))
      ensures old(functionsDic).Some? && description.None? ==>
        var g := Retry([f], old(d.replies), MAX_ATTEMPTS);
        d.replies == g.rest &&
        (g.run.Done? ==> r == Done(()) && functions == old(functions) + [Batch(g.run.value)] &&
                         functionCall == (if update.Some? then update else old(functionCall))) &&
        (g.run.Failed? ==> r == Failed(g.run.error)) &&
        (g.run.OutOfScript? ==> r == OutOfScript) &&
        (!g.run.Done? ==> functions == old(functions) && functionCall == old(functionCall))
    {
      functionsList := functionsList + [f];
      if functionsDic.None? {
        return Failed(TypeError);
      }
      functionsDic := Some(functionsDic.value[f.name := f]);
      if description.None? {
        var generated := AutoFunctions([f], d);
        if !generated.Done? {
          return if generated.Failed? then Failed(generated.error) else OutOfScript;
        }
        functions := functions + [Batch(generated.value)];
      } else {
        functions := functions + [description.value];
      }
      if update.Some? {
        functionCall := update;
      }
      r := Done(());
    }
  }

  /** `AvailableFunctions(functions_list, functions, function_call)`: with
      functions, index them and keep the call mode; with no descriptions
      either, generate them. */
  method Build(functionsList: seq<PyFunction>, functions: seq<Entry>, functionCall: string, d: Describer)
    returns (r: Run<AvailableFunctions>)
    modifies d
    ensures r.Done? ==> fresh(r.value) && r.value.functionsList == functionsList
    ensures functionsList == [] ==>
      r.Done? && r.value.functionsDic.None? && r.value.functionCall.None? &&
      r.value.functions == functions && d.replies == old(d.replies)
    ensures functionsList != [] && functions != [] ==>
      r.Done? && r.value.Indexed() && r.value.functionCall == Some(functionCall) &&
      r.value.functions == functions && d.replies == old(d.replies)
    ensures functionsList != [] && functions == [] ==>
      var g := Retry(functionsList, old(d.replies), MAX_ATTEMPTS);
      d.replies == g.rest &&
      (g.run.Done? ==> r.Done? && r.value.Indexed() && r.value.functionCall == Some(functionCall) &&
                       r.value.functions == g.run.value) &&
      (g.run.Failed? ==> r == Failed(g.run.error)) &&
      (g.run.OutOfScript? ==> r == OutOfScript)
  {
    var a := new AvailableFunctions(functionsList, functions);
    if functionsList != [] {
      a.functionsDic := Some(Index(functionsList));
      a.functionCall := Some(functionCall);
      if functions == [] {
        var generated := AutoFunctions(functionsList, d);
        if !generated.Done? {
          return if generated.Failed? then Failed(generated.error) else OutOfScript;
        }
        a.functions := generated.value;
      }
    }
    r := Done(a);
  }

  /** `add_function` keeps the index in step with the list. */
  lemma AddKeepsIndexed(fs: seq<PyFunction>, f: PyFunction)
    ensures Index(fs)[f.name := f] == Index(fs + [f])
  {
    IndexAppend(fs, f);
  }
}
