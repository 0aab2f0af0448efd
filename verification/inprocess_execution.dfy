/**
 * `execute_user_code` of app/services/code_execution.py, the variant the API
 * router calls: validate, build a globals table whose `__builtins__` holds only
 * `print`, `range` and `len`, point the process-wide `sys.stdout` at a fresh
 * in-memory buffer, `exec` the code, and put the old `sys.stdout` back in `finally`.
 *
 * `exec` itself is not modelled: it is a parameter that, given the code and the
 * globals table, says what the code prints and whether it finishes or raises.
 */
module InProcessExecution {
  import opened Exceptions
  import Security

  /** The three builtin objects the code may use. */
  datatype Builtin = Print | Range | Len

  /** `allowed_builtins`, in the order of its dictionary display. */
  const AllowedBuiltins: seq<(string, Builtin)> := [("print", Print), ("range", Range), ("len", Len)]

  const BuiltinsKey: string := "__builtins__"

  type Globals = map<string, map<string, Builtin>>

  /** The globals table `exec` receives. */
  function SafeGlobals(): Globals
  {
    map[BuiltinsKey := map["print" := Print, "range" := Range, "len" := Len]]
  }

  /** What running the code does: it prints some text to whatever `sys.stdout` is
      at the time, then either finishes or raises. */
  datatype ExecBehaviour =
    | Completes(printed: string)
    | Fails(printed: string, exc: PyException)

  /** Fill `safe_globals["__builtins__"]` from `allowed_builtins`, one entry at a
      time. `__builtins__` holds exactly the three allowed names. */
  method BuildSafeGlobals() returns (g: Globals)
    ensures g.Keys == {BuiltinsKey}
    ensures g[BuiltinsKey].Keys == {"print", "range", "len"}
    ensures forall i :: 0 <= i < |AllowedBuiltins| ==> g[BuiltinsKey][AllowedBuiltins[i].0] == AllowedBuiltins[i].1
    ensures g == SafeGlobals()
  {
    g := map[BuiltinsKey := map[]];
    for i := 0 to |AllowedBuiltins|
      invariant g.Keys == {BuiltinsKey}
      invariant g[BuiltinsKey].Keys == set j | 0 <= j < i :: AllowedBuiltins[j].0
      invariant forall j :: 0 <= j < i ==> g[BuiltinsKey][AllowedBuiltins[j].0] == AllowedBuiltins[j].1
    {
      var name, value := AllowedBuiltins[i].0, AllowedBuiltins[i].1;
      g := g[BuiltinsKey := g[BuiltinsKey][name := value]];
    }
    assert AllowedBuiltins[0] == ("print", Print);
    assert AllowedBuiltins[1] == ("range", Range);
    assert AllowedBuiltins[2] == ("len", Len);
    assert g[BuiltinsKey] == SafeGlobals()[BuiltinsKey];
  }

  /** The completion of the whole call. */
  function Execute(code: string, parse: string -> Security.ParseResult, run: ExecBehaviour): Completion<string>
  {
    match Security.CheckForbiddenPatterns(code, parse)
    case Some(x) => Raised(x)
    case None =>
      match run
      case Completes(printed) => Normal(printed)
      case Fails(_, exc) =>
        if IsException(exc) then Raised(Sandbox(RuntimeError(Str(exc)))) else Raised(exc)
  }

  /** Whatever the gate raises (a syntax or security error, or an exception of the
      parser other than `SyntaxError`) reaches the caller unwrapped and no code
      runs; past the gate,
      the result is exactly what the code printed, and an exception from the code
      becomes a runtime error whose message is that exception's text. */
  lemma ExecuteOutcomes(code: string, parse: string -> Security.ParseResult, run: ExecBehaviour)
    ensures Security.CheckForbiddenPatterns(code, parse).Some? ==>
              Execute(code, parse, run) == Raised(Security.CheckForbiddenPatterns(code, parse).value)
    ensures parse(code).ParseRaises? ==> Execute(code, parse, run) == Raised(OtherException(parse(code).text))
    ensures Security.CheckForbiddenPatterns(code, parse).None? && run.Completes? ==>
              Execute(code, parse, run) == Normal(run.printed)
    ensures Security.CheckForbiddenPatterns(code, parse).None? && run.Fails? && IsException(run.exc) ==>
              Execute(code, parse, run).Raised? && Execute(code, parse, run).exc.Sandbox?
              && KindOf(Execute(code, parse, run).exc.error) == Runtime
              && Str(Execute(code, parse, run).exc) == Str(run.exc)
    ensures Security.CheckForbiddenPatterns(code, parse).None? && run.Fails? && !IsException(run.exc) ==>
              Execute(code, parse, run) == Raised(run.exc)
  {
  }

  /** The process-wide `sys.stdout` binding and the text written to every stream it
      has pointed to. */
  class Console {
    var stdout: nat
    var streams: map<nat, string>
    var nextStream: nat

    ghost predicate Valid()
      reads this
    {
      stdout in streams && forall s :: s in streams ==> s < nextStream
    }

    constructor ()
      ensures Valid() && stdout == 0 && streams == map[0 := ""]
    {
      stdout, streams, nextStream := 0, map[0 := ""], 1;
    }

    /** `io.StringIO()`: a new, empty stream. */
    method NewStringIO() returns (s: nat)
      requires Valid()
      modifies this
      ensures Valid()
      ensures s !in old(streams) && streams == old(streams)[s := ""] && stdout == old(stdout)
    {
      s := nextStream;
      nextStream := nextStream + 1;
      streams := streams[s := ""];
    }

    /** A write to `sys.stdout`, whichever stream it currently is. */
    method Write(text: string)
      requires Valid()
      modifies this
      ensures Valid()
      ensures stdout == old(stdout) && streams == old(streams)[stdout := old(streams)[stdout] + text]
    {
      streams := streams[stdout := streams[stdout] + text];
    }

    method ExecuteUserCode(code: string, parse: string -> Security.ParseResult,
                           exec: (string, Globals) -> ExecBehaviour)
      returns (c: Completion<string>)
      requires Valid()
      modifies this
      ensures Valid()
      ensures c == Execute(code, parse, exec(code, SafeGlobals()))
      // `sys.stdout` is restored on every path, and code that prints only through
      // `sys.stdout` reaches no stream that existed before the call
      ensures stdout == old(stdout)
      ensures forall s :: s in old(streams) ==> s in streams && streams[s] == old(streams)[s]
      // a rejected submission changes nothing
      ensures Security.CheckForbiddenPatterns(code, parse).Some? ==>
                streams == old(streams) && nextStream == old(nextStream)
    {
      var verdict := Security.CheckForbiddenPatterns(code, parse);
      if verdict.Some? {
        return Raised(verdict.value);
      }
      var safeGlobals := BuildSafeGlobals();
      var oldStdout := stdout;
      var buffer := NewStringIO();
      stdout := buffer;
      var run := exec(code, safeGlobals);
      assert run == exec(code, SafeGlobals());
      assert streams[stdout] == "";
      Write(run.printed);
      assert streams[stdout] == run.printed;
      match run {
        case Completes(_) =>
          c := Normal(streams[stdout]);
        case Fails(_, exc) =>
          c := if IsException(exc) then Raised(Sandbox(RuntimeError(Str(exc)))) else Raised(exc);
      }
      assert c == Execute(code, parse, run);
      // finally
      stdout := oldStdout;
    }
  }
}
