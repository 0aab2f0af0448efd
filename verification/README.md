# Sandboxed code runner: a Dafny model of the submit → validate → run → classify path

The service accepts a Python source text, rejects it up front if a static
deny-list check finds a forbidden import or call, runs it otherwise, and turns
every sandbox error into one of three error categories with an HTTP status. This
project models that path and proves what it promises:

- **The static gate** (`check_forbidden_patterns`, module `Security`). Python's
  parser is a parameter `parse: string -> ParseResult` that yields a syntax
  tree, raises a `SyntaxError` with some text, or raises another `Exception`
  (a `RecursionError` or `MemoryError` for deep nesting, depending on the
  version, or a `ValueError` for a null byte on Python 3.11 and earlier), which
  the gate does not catch and so passes on unchanged. The tree keeps only the node kinds the gate
  distinguishes: `Import(names)`, `ImportFrom(source)`, `Call(Name(id) | Computed)`
  and `Other`, each with its children. `ast.walk` is modelled exactly as the
  breadth-first queue it is (`WalkQueue`), and the check stops at the first
  violating node in that order. Proved: the walk visits every node exactly once
  (multiset equality with a pre-order flattening); the gate accepts exactly when
  no node of the tree violates, which is also exactly when a plain recursive
  descent finds none; a rejection reports the error of a node of the tree, the
  first violating one in walk order; the per-node rules for imports, `from`
  imports and calls in both directions; the root segment of a dotted name is its
  longest dot-free prefix.
- **The error taxonomy and the handlers** (modules `Exceptions`, `Handlers`). The
  three `SandboxError` subclasses are one datatype; only the security kind carries
  a `forbidden_item`. The three FastAPI handlers are one total function to the
  `ErrorResponse` body and a status code. Proved: status 500 exactly for the
  runtime kind and 400 otherwise; `detail` is `str(exc)`, the message;
  `forbidden_item` only for "security"; the category can be read back from the
  response and names the kind.
- **Execution, subprocess variant** (module `SubprocessExecution`). A class
  `SandboxHost` holds the existing directories, the files in them and ghost logs
  of the directories created and removed and the child processes started. The
  child's behaviour is chosen by the environment (`ChildBehaviour`: writing the
  script fails, spawning fails, it exits with some stdout and stderr, it hangs
  past the 5-second wait, or a non-`Exception` such as a cancellation
  interrupts the wait). Proved: the gate runs before the directory is made, and a
  rejected submission creates nothing and starts nothing; an accepted one gets one
  fresh directory, `user_code.py` holding the code, one `python` child with that
  directory as working directory, and the directory is removed exactly once, so
  the sandbox directory and the script this call wrote are gone on every path; a child that outlives the wait is
  killed; the exit status is never read, so every child that finishes in time
  yields a result, stdout followed by `"\n" + stderr` when stderr is non-empty; a timeout and every other `Exception`
  raised in the `try` become a runtime error `"Subprocess execution error: " +
  str(e)` — the timeout's message is therefore
  `"Subprocess execution error: Execution timed out."`.
- **Execution, in-process variant** (module `InProcessExecution`), the one the API
  router (app/api/v1/execute.py) calls. A class `Console` holds the process-wide
  `sys.stdout` binding and what has been written to each stream. `exec` is a
  parameter that, given the code and the globals table, says what the code prints
  and whether it finishes or raises. Proved: the globals table built by the loop
  has exactly `print`, `range` and `len` under `__builtins__`; `sys.stdout` is
  restored on every path, and code that prints only through `sys.stdout` reaches
  no stream that existed before; the result is exactly what the code printed; an `Exception` from the
  code becomes a runtime error whose message is its text; whatever the gate
  raises passes through unwrapped.
- **The API tests** (module `Scenarios`): each test of
  tests/features/code_execution/test_api.py as a lemma over the syntax tree
  Python gives the submission.

Behaviour of the code worth knowing:

- The subprocess variant never reads the exit status: a crashing script returns
  normally with its traceback appended (`Scenarios.DivisionByZeroInSubprocess`).
  The API test that expects status 500 for `1/0` holds for the in-process
  variant, the one app/main.py wires through the router.
- The subprocess variant raises its timeout error inside the `try` block, and its
  own `except Exception` clause re-wraps it, so its message carries the wrap
  prefix.
- Only `SyntaxError` is caught around `ast.parse`; any other exception of the
  parser leaves the gate, and both variants, unwrapped, and none of the three
  handlers answers it (`Scenarios.ParserExceptionEscapes`).
- The in-process variant, the one the router calls, has no time limit: code the
  gate accepts, such as `while True: pass`, keeps `exec` from returning, so its
  `finally` never runs and `sys.stdout` stays bound to that call's buffer; every
  later call saves and restores that buffer.
- app/core/handlers.py imports `ErrorResponse` from `app.models.schemas`, which is
  not among the files modelled; the shape is taken from app/schemas/execution.py.

## Model

| member | source | states |
|---|---|---|
| `Exceptions.NewSecurityError` | app/core/exceptions.py:10-13 | a security error keeps its message as its text and its forbidden item, None when not supplied |
| `Exceptions.SandboxFamily` | app/core/exceptions.py:4-21 | the three kinds are distinct members of the sandbox family, all caught by `except Exception`, and the text of each is its message |
| `Security.RootSegment` | app/core/security.py:18 | the root of a module name is a prefix with no dot, followed by a dot when shorter than the name, and the whole name when it has no dot |
| `Security.FirstForbiddenAlias` | app/core/security.py:16-19 | an import is rejected iff some alias has a deny-listed root; the reported alias is the first such one, in full |
| `Security.NodeViolation` | app/core/security.py:16-26 | per node: imports and `from` imports rejected iff the root is deny-listed (never for a relative import without module), calls iff the callee is a bare deny-listed name; an import reports its first deny-listed alias; message and forbidden item as raised |
| `Security.WalkVisitsEveryNodeOnce` | app/core/security.py:15 | the breadth-first walk yields every node of the tree exactly once, root first |
| `Security.FirstViolation` | app/core/security.py:15-26 | the loop returns normally iff no walked node violates, otherwise raises the error of the first violating node |
| `Security.CheckForbiddenPatterns` | app/core/security.py:9-26 | unparsable source gives a syntax error "Syntax error: " + parser text and no deny-list check; any other exception of the parser escapes unchanged; otherwise the verdict of the tree; the only sandbox errors are syntax or security errors |
| `Security.CheckTreeVerdict` | app/core/security.py:15-26 | the gate accepts iff no node of the tree violates; a rejection carries the error of a node of the tree, the first violating one in walk order |
| `Security.CheckTreeStructural` | app/core/security.py:15-26 | the breadth-first check decides the same as a recursive descent over root and children |
| `Handlers.Handle` | app/core/handlers.py:9-29 | detail is the error's text; status 500 iff runtime, else 400; forbidden_item only for "security" and then the error's item; category one of three |
| `Handlers.CategoryIdentifiesKind` | app/core/handlers.py:10-29 | the error kind can be read back from the response's error_type |
| `Handlers.SameCategoryIffSameKind` | app/core/handlers.py:9-29 | two errors share a category exactly when they share a kind |
| `SubprocessExecution.JoinOutputSplits` | app/features/code_execution/services.py:52-55 | the joined output starts with stdout, equals it iff stderr is empty, otherwise continues with a newline and stderr |
| `SubprocessExecution.ExceptClause` | app/features/code_execution/services.py:57-58 | every `Exception` becomes a runtime error whose message is the wrap prefix followed by its text; results and non-`Exception`s pass through |
| `SubprocessExecution.ExecuteAfterGate` | app/features/code_execution/services.py:25-58 | past the gate: a finished child yields the joined output whatever its exit status; timeout, write and spawn failures become wrapped runtime errors; a non-`Exception` escapes unchanged |
| `SubprocessExecution.ExecuteErrorOrigin` | app/features/code_execution/services.py:19-58 | syntax and security errors arise exactly when the gate raises one; whatever the gate raises, including a non-`SyntaxError` exception of the parser, propagates unwrapped; every runtime error carries the wrap prefix |
| `SubprocessExecution.SandboxHost.MakeTempDir` | app/features/code_execution/services.py:22 | the sandbox directory did not exist before and now does |
| `SubprocessExecution.SandboxHost.WriteFile` | app/features/code_execution/services.py:27-29 | the script file inside the directory holds the given text |
| `SubprocessExecution.SandboxHost.Spawn` | app/features/code_execution/services.py:32-38 | one child is started with the program, script and working directory given, running the script's current contents |
| `SubprocessExecution.SandboxHost.KillLast` | app/features/code_execution/services.py:45-47 | the most recently started child is recorded as killed; nothing else changes |
| `SubprocessExecution.SandboxHost.RemoveTree` | app/features/code_execution/services.py:60-66 | the directory and every file in it are gone, nothing else changes |
| `SubprocessExecution.SandboxHost.ExecuteUserCode` | app/features/code_execution/services.py:13-66 | completion as `Execute`; the sandbox directory and its script are gone on every path; rejected code creates no directory and no process; accepted code gets one fresh directory removed exactly once and, unless writing or spawning fails, one `python user_code.py` child in it running the code; that child is killed exactly when it outlives the wait |
| `InProcessExecution.BuildSafeGlobals` | app/services/code_execution.py:11-14 | the globals hold only `__builtins__`, which maps exactly `print`, `range` and `len` to those builtins |
| `InProcessExecution.ExecuteOutcomes` | app/services/code_execution.py:9-25 | whatever the gate raises, including a non-`SyntaxError` exception of the parser, propagates unwrapped; the result is exactly the printed text; an `Exception` becomes a runtime error with its text; a non-`Exception` escapes unchanged |
| `InProcessExecution.Console.NewStringIO` | app/services/code_execution.py:17 | a new empty stream, distinct from every existing one |
| `InProcessExecution.Console.Write` | app/services/code_execution.py:19-20 | text printed goes to the stream `sys.stdout` currently designates, and only there |
| `InProcessExecution.Console.ExecuteUserCode` | app/services/code_execution.py:9-25 | completion as `Execute` with the safe globals; `sys.stdout` restored on every path; earlier streams untouched; a rejected submission changes nothing |
| `Scenarios.ForbiddenModuleImport` | tests/features/code_execution/test_api.py:8-13 | `import os` gives 400, "security", forbidden item "os", in both variants |
| `Scenarios.ForbiddenFunction` | tests/features/code_execution/test_api.py:16-21 | `eval(...)` gives 400, "security", forbidden item "eval", in both variants |
| `Scenarios.UnbalancedParenthesis` | tests/features/code_execution/test_api.py:24-28 | unparsable code gives 400, "syntax", no forbidden item, in both variants |
| `Scenarios.ParserExceptionEscapes` | app/core/security.py:10-13 | a parser exception other than `SyntaxError` leaves both variants unchanged and is not a sandbox error |
| `Scenarios.DivisionByZero` | tests/features/code_execution/test_api.py:31-35 | in-process, `1/0` gives 500, "runtime", with the exception's text as detail |
| `Scenarios.DivisionByZeroInSubprocess` | app/features/code_execution/services.py:42-55 | in the subprocess variant the same crash returns normally with the traceback after a newline |
| `Scenarios.AllowedOutput` | tests/features/code_execution/test_api.py:38-42 | `print('Allowed')` yields exactly "Allowed\n" in both variants |
| `Scenarios.ImportAliases` | app/core/security.py:16-22 | `import json, os` is rejected for "os", `import os.path` for "os.path"; `import osx` and a relative import without module pass |

## Left out

- Python's parser (`ast.parse`) and interpreter (`exec`, the `python` child): they are parameters of the model, not modelled.
- The `level` of a relative `from` import: only the module name is kept, as it is all the gate reads.
- Asynchronous process management (concurrent pipe draining, signal delivery and reaping; `kill` is recorded only as a ghost log entry) and wall-clock time: the 5-second wait is reduced to "the child finished in time or hung".
- Byte decoding of the child's output: outputs are strings already; a decoding error is not modelled.
- Failure of `tempfile.mkdtemp` (outside the `try`, it would propagate unwrapped and leave nothing behind) and failure of `shutil.rmtree` in `finally`.
- The child's own filesystem effects: files it creates, changes or deletes outside its script are not modelled, so the model says nothing about the filesystem beyond the sandbox directory and its script.
- A child process deleting its own sandbox directory: nothing else removes it in the model, so the existence test before `rmtree` is always true.
- Directory permissions (0700) and the on-disk path of the sandbox directory: a directory is a number.
- What a partially written script file contains when `write` fails: the file is not created in the model, and it would be removed with the directory anyway.
- Concurrency between requests: each call runs alone on its host object. The route `run_code` (app/api/v1/execute.py:12) is a plain `def`, so FastAPI runs concurrent requests in a thread pool, where their swaps of the process-wide `sys.stdout` interleave: one request's output can land in another's buffer, and `sys.stdout` can be left bound to a stale buffer. The proved restore of `sys.stdout` holds for one call at a time only.
- InProcessExecution.Console.ExecuteUserCode: the executed code's other effects on the server process are not modelled (reaching modules through attributes such as `print.__self__`, which the gate does not inspect, writing to other streams, rebinding `sys.stdout`); the model lets the code print only through the current `sys.stdout`, so "no earlier stream is written" holds only for such code. `exec` is assumed to finish: the variant has no time limit, and code that loops forever never returns and leaves `sys.stdout` on its buffer. The restore of `sys.stdout` in `finally` holds for every run that ends.
- HTTP routing, request/response schemas, the 200 response, FastAPI's default handling of exceptions outside the sandbox family, request logging middleware, logging and configuration.
