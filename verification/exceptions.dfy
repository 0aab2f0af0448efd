/**
 * The sandbox's exception hierarchy (app/core/exceptions.py) together with the
 * small part of Python's exception model that the execution services depend on:
 * which exceptions an `except Exception` clause catches, and what `str(e)` is.
 */
module Exceptions {
  import opened Wrappers

  /** `SandboxError` and its three subclasses. Every kind keeps the message it was
      built with; only the security kind carries a `forbidden_item`. */
  datatype SandboxError =
    | SecurityError(message: string, forbiddenItem: Option<string>)
    | SyntaxError(message: string)
    | RuntimeError(message: string)

  /** The three subclasses, as a plain enumeration. */
  datatype ErrorKind = Security | Syntax | Runtime

  function KindOf(e: SandboxError): ErrorKind
  {
    match e
    case SecurityError(_, _) => Security
    case SyntaxError(_) => Syntax
    case RuntimeError(_) => Runtime
  }

  /** An exception in flight. `OtherException` is any `Exception` subclass outside the
      sandbox family (an `OSError`, a `ZeroDivisionError`, ...); `OtherBaseException`
      is a `BaseException` that is not an `Exception` (a cancellation, an interrupt),
      which `except Exception` does not catch. */
  datatype PyException =
    | Sandbox(error: SandboxError)
    | OtherException(text: string)
    | OtherBaseException(text: string)

  /** How a call ends: it returns a value, or an exception propagates out of it. */
  datatype Completion<T> = Normal(value: T) | Raised(exc: PyException)

  /** Does `except Exception` catch it? Every sandbox error does. */
  predicate IsException(x: PyException)
  {
    !x.OtherBaseException?
  }

  /** `str(e)`: the single argument the exception was constructed with. */
  function Str(x: PyException): string
  {
    match x
    case Sandbox(e) => e.message
    case OtherException(t) => t
    case OtherBaseException(t) => t
  }

  /** `SandboxSecurityError(message, forbidden_item=None)`: the constructor passes only
      `message` to `Exception.__init__` and stores `forbidden_item` beside it. */
  function NewSecurityError(message: string, forbiddenItem: Option<string> := None): (e: SandboxError)
    ensures KindOf(e) == Security
    ensures Str(Sandbox(e)) == message
    ensures e.forbiddenItem == forbiddenItem
  {
    SecurityError(message, forbiddenItem)
  }

  /** The three kinds are distinct, all belong to the sandbox family, and all are
      caught by `except Exception`; the text of each is its message and never the
      forbidden item. */
  lemma SandboxFamily(e: SandboxError)
    ensures IsException(Sandbox(e))
    ensures Str(Sandbox(e)) == e.message
    ensures KindOf(e) == Security <==> e.SecurityError?
    ensures KindOf(e) == Syntax <==> e.SyntaxError?
    ensures KindOf(e) == Runtime <==> e.RuntimeError?
  {
  }
}
