/**
 * `execute_user_code` of app/features/code_execution/services.py: validate, make a
 * private temporary directory, write the code to `user_code.py` in it, run
 * `python user_code.py` there as a child process with a 5-second wait, join its
 * output, wrap every `Exception` raised in the `try` block as a runtime error, and
 * remove the directory in `finally`.
 *
 * The filesystem is reduced to the set of existing directories and a map from
 * file paths to contents; the child process and everything asynchronous about it
 * are reduced to a `ChildBehaviour` chosen by the environment.
 */
module SubprocessExecution {
  import opened Wrappers
  import opened Exceptions
  import Security

  const Program: string := "python"
  const ScriptName: string := "user_code.py"
  const TimeoutMessage: string := "Execution timed out."
  const WrapPrefix: string := "Subprocess execution error: "

  datatype FilePath = FilePath(dir: nat, name: string)

  /** A child process started by `create_subprocess_exec`: the program, its script,
      its working directory, and the script's contents at the moment it started. */
  datatype Launch = Launch(program: string, script: FilePath, cwd: nat, scriptText: string)

  /** What the foreign steps inside the `try` block do. The exit status of the child
      is not part of it: the code never reads it. */
  datatype ChildBehaviour =
    | WriteFails(reason: string)              // `open`/`write` raised
    | SpawnFails(reason: string)              // `create_subprocess_exec` raised
    | Exits(stdout: string, stderr: string)   // `communicate()` finished within the wait
    | Hangs                                   // the wait expired: killed, leftover output drained and dropped
    | Interrupted(reason: string)             // a non-`Exception` (e.g. a cancellation) while waiting

  predicate Spawned(b: ChildBehaviour)
  {
    !b.WriteFails? && !b.SpawnFails?
  }

  /** The output join: stderr, when there is any, follows stdout after a newline. */
  function JoinOutput(stdout: string, stderr: string): string
  {
    stdout + (if stderr != [] then "\n" + stderr else "")
  }

  /** The joined output keeps stdout as a prefix and both parts can be read back
      from it: the join loses nothing. */
  lemma JoinOutputSplits(stdout: string, stderr: string)
    ensures JoinOutput(stdout, stderr)[..|stdout|] == stdout
    ensures |JoinOutput(stdout, stderr)| == |stdout| <==> stderr == []
    ensures stderr != [] ==> JoinOutput(stdout, stderr)[|stdout|] == '\n'
                             && JoinOutput(stdout, stderr)[|stdout| + 1..] == stderr
  {
  }

  /** How the `try` block ends, before its `except` clause. */
  function TryBlock(b: ChildBehaviour): Completion<string>
  {
    match b
    case WriteFails(reason) => Raised(OtherException(reason))
    case SpawnFails(reason) => Raised(OtherException(reason))
    case Exits(stdout, stderr) => Normal(JoinOutput(stdout, stderr))
    case Hangs => Raised(Sandbox(RuntimeError(TimeoutMessage)))
    case Interrupted(reason) => Raised(OtherBaseException(reason))
  }

  /** `except Exception as e: raise SandboxRuntimeError(f"Subprocess execution error: {e}")`. */
  function ExceptClause(c: Completion<string>): (r: Completion<string>)
    ensures c.Normal? ==> r == c
    ensures c.Raised? && !IsException(c.exc) ==> r == c
    ensures c.Raised? && IsException(c.exc) ==>
              r.Raised? && r.exc.Sandbox? && r.exc.error.RuntimeError?
              && |WrapPrefix| <= |r.exc.error.message|
              && r.exc.error.message[..|WrapPrefix|] == WrapPrefix
              && r.exc.error.message[|WrapPrefix|..] == Str(c.exc)
  {
    if c.Raised? && IsException(c.exc)
    then Raised(Sandbox(RuntimeError(WrapPrefix + Str(c.exc))))
    else c
  }

  /** The completion of the whole call. The gate runs outside the `try`, so
      whatever it raises is not wrapped. */
  function Execute(code: string, parse: string -> Security.ParseResult, b: ChildBehaviour): Completion<string>
  {
    match Security.CheckForbiddenPatterns(code, parse)
    case Some(x) => Raised(x)
    case None => ExceptClause(TryBlock(b))
  }

  /** What the call yields once the code has passed the gate: the exit status is
      never consulted, so every child that finishes in time gives a result, with
      its stderr (a traceback, say) after a newline; a timeout and every other
      `Exception` come out as runtime errors carrying the wrap prefix; only a
      non-`Exception` escapes as it is. */
  lemma ExecuteAfterGate(code: string, parse: string -> Security.ParseResult, b: ChildBehaviour)
    requires Security.CheckForbiddenPatterns(code, parse).None?
    ensures b.Exits? ==> Execute(code, parse, b) == Normal(JoinOutput(b.stdout, b.stderr))
    ensures b.Hangs? ==>
              Execute(code, parse, b) == Raised(Sandbox(RuntimeError(WrapPrefix + TimeoutMessage)))
    ensures b.WriteFails? || b.SpawnFails? ==>
              Execute(code, parse, b) == Raised(Sandbox(RuntimeError(WrapPrefix + b.reason)))
    ensures b.Interrupted? ==> Execute(code, parse, b) == Raised(OtherBaseException(b.reason))
  {
  }

  /** Syntax and security errors come only from the gate, and reach the caller as
      the gate raised them, as does an exception of the parser other than
      `SyntaxError`; everything after the gate is either a result, a wrapped
      runtime error, or a non-`Exception`. */
  lemma ExecuteErrorOrigin(code: string, parse: string -> Security.ParseResult, b: ChildBehaviour)
    ensures var c := Execute(code, parse, b);
            c.Raised? && c.exc.Sandbox? && !c.exc.error.RuntimeError? <==>
              Security.CheckForbiddenPatterns(code, parse).Some?
              && Security.CheckForbiddenPatterns(code, parse).value.Sandbox?
    ensures var c := Execute(code, parse, b);
            Security.CheckForbiddenPatterns(code, parse).Some? ==>
              c == Raised(Security.CheckForbiddenPatterns(code, parse).value)
    ensures var c := Execute(code, parse, b);
            parse(code).ParseRaises? ==> c == Raised(OtherException(parse(code).text))
    ensures var c := Execute(code, parse, b);
            c.Raised? && c.exc.Sandbox? && c.exc.error.RuntimeError? ==>
              |WrapPrefix| <= |c.exc.error.message| && c.exc.error.message[..|WrapPrefix|] == WrapPrefix
  {
  }

  /** The host's filesystem and process table, as far as this call touches them. */
  class SandboxHost {
    var dirs: set<nat>
    var files: map<FilePath, string>
    var nextId: nat
    ghost var created: seq<nat>      // directories made by `mkdtemp`, in order
    ghost var removed: seq<nat>      // directories removed by `rmtree`, in order
    ghost var launches: seq<Launch>  // child processes started, in order
    ghost var killed: seq<nat>       // indices in `launches` of the children killed, in order

    ghost predicate Valid()
      reads this
    {
      && (forall d :: d in dirs ==> d < nextId)
      && (forall p :: p in files ==> p.dir in dirs)
    }

    constructor ()
      ensures Valid()
      ensures dirs == {} && files == map[] && created == [] && removed == [] && launches == [] && killed == []
    {
      dirs, files, nextId := {}, map[], 0;
      created, removed, launches, killed := [], [], [], [];
    }

    /** `tempfile.mkdtemp`: a directory that did not exist before. */
    method MakeTempDir() returns (d: nat)
      requires Valid()
      modifies this
      ensures Valid()
      ensures d !in old(dirs) && dirs == old(dirs) + {d}
      ensures files == old(files) && created == old(created) + [d]
      ensures removed == old(removed) && launches == old(launches) && killed == old(killed)
    {
      d := nextId;
      nextId := nextId + 1;
      dirs := dirs + {d};
      created := created + [d];
    }

    /** `open(file_path, "w").write(code)` inside an existing directory. */
    method WriteFile(p: FilePath, text: string)
      requires Valid() && p.dir in dirs
      modifies this
      ensures Valid()
      ensures files == old(files)[p := text] && dirs == old(dirs)
      ensures created == old(created) && removed == old(removed) && launches == old(launches)
      ensures killed == old(killed)
    {
      files := files[p := text];
    }

    /** `create_subprocess_exec(program, script, cwd=cwd, ...)`. */
    method Spawn(script: FilePath, cwd: nat)
      requires Valid() && script in files
      modifies this
      ensures Valid()
      ensures launches == old(launches) + [Launch(Program, script, cwd, old(files)[script])]
      ensures dirs == old(dirs) && files == old(files)
      ensures created == old(created) && removed == old(removed) && killed == old(killed)
    {
      launches := launches + [Launch(Program, script, cwd, files[script])];
    }

    /** `process.kill()` on the most recently started child. */
    method KillLast()
      requires Valid() && launches != []
      modifies this
      ensures Valid()
      ensures killed == old(killed) + [|launches| - 1]
      ensures dirs == old(dirs) && files == old(files)
      ensures created == old(created) && removed == old(removed) && launches == old(launches)
    {
      killed := killed + [|launches| - 1];
    }

    /** `shutil.rmtree`: the directory and every file in it are gone. */
    method RemoveTree(d: nat)
      requires Valid() && d in dirs
      modifies this
      ensures Valid()
      ensures dirs == old(dirs) - {d}
      ensures files == map p | p in old(files) && p.dir != d :: old(files)[p]
      ensures removed == old(removed) + [d]
      ensures created == old(created) && launches == old(launches) && killed == old(killed)
    {
      dirs := dirs - {d};
      files := map p | p in files && p.dir != d :: files[p];
      removed := removed + [d];
    }

    method ExecuteUserCode(code: string, parse: string -> Security.ParseResult, b: ChildBehaviour)
      returns (c: Completion<string>)
      requires Valid()
      modifies this
      ensures Valid()
      ensures c == Execute(code, parse, b)
      // on every path, the sandbox directory and the script this call wrote are gone
      ensures dirs == old(dirs) && files == old(files)
      // a rejected submission gets no directory and no process
      ensures Security.CheckForbiddenPatterns(code, parse).Some? ==>
                created == old(created) && removed == old(removed) && launches == old(launches)
      // only a child that outlives the wait is killed
      ensures killed == old(killed) + (if Security.CheckForbiddenPatterns(code, parse).None? && b.Hangs?
                                       then [|old(launches)|] else [])
      // an accepted one gets one fresh directory, removed exactly once
      ensures Security.CheckForbiddenPatterns(code, parse).None? ==>
                |created| == |old(created)| + 1 && created[..|old(created)|] == old(created)
                && created[|old(created)|] !in old(dirs)
                && removed == old(removed) + [created[|old(created)|]]
      // and, unless writing or spawning failed, one child running its code in it
      ensures Security.CheckForbiddenPatterns(code, parse).None? && Spawned(b) ==>
                launches == old(launches) + [Launch(Program, FilePath(created[|old(created)|], ScriptName),
                                                    created[|old(created)|], code)]
      ensures Security.CheckForbiddenPatterns(code, parse).None? && !Spawned(b) ==>
                launches == old(launches)
    {
      var verdict := Security.CheckForbiddenPatterns(code, parse);
      if verdict.Some? {
        return Raised(verdict.value);
      }
      var sandboxDir := MakeTempDir();
      var body: Completion<string>;
      if b.WriteFails? {
        body := Raised(OtherException(b.reason));
      } else {
        var filePath := FilePath(sandboxDir, ScriptName);
        WriteFile(filePath, code);
        if b.SpawnFails? {
          body := Raised(OtherException(b.reason));
        } else {
          Spawn(filePath, sandboxDir);
          if b.Hangs? {
            KillLast();
          }
          body := TryBlock(b);
        }
      }
      c := ExceptClause(body);
      // finally
      if sandboxDir in dirs {
        RemoveTree(sandboxDir);
      }
      assert files == old(files);
    }
  }
}
