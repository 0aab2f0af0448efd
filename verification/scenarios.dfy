/**
 * The five API tests of tests/features/code_execution/test_api.py, stated over
 * the model: each submission, the syntax tree Python's parser gives it (only the
 * node kinds the gate distinguishes), and the response the handlers produce.
 * The API calls the in-process variant; where the subprocess variant behaves
 * differently, that is stated too.
 */
module Scenarios {
  import opened Wrappers
  import opened Exceptions
  import opened Security
  import opened Handlers
  import InProcessExecution
  import SubprocessExecution

  /** `print(<literal>)` as an expression statement: Expr(Call(Name(print, Load), [Constant])). */
  function PrintStatement(): Node
  {
    Node(Other, [Node(Call(Name("print")), [Node(Other, [Node(Other, [])]), Node(Other, [])])])
  }

  const ImportOsCode: string := "import os\nprint('Hello')"

  /** Module([Import([alias(os)]), <print statement>]). */
  function ImportOsTree(): Node
  {
    Node(Other, [Node(Import(["os"]), [Node(Other, [])]), PrintStatement()])
  }

  const EvalCode: string := "eval('print(123)')"

  /** Module([Expr(Call(Name(eval, Load), [Constant]))]). */
  function EvalTree(): Node
  {
    Node(Other, [Node(Other, [Node(Call(Name("eval")), [Node(Other, [Node(Other, [])]), Node(Other, [])])])])
  }

  const UnbalancedCode: string := "print('Hello' "
  const DivisionCode: string := "1/0"
  const AllowedCode: string := "print('Allowed')"
  const NullByteCode: string := "print('a')\0"

  /** Module([Expr(BinOp(Constant, Div, Constant))]): no import, no call. */
  function DivisionTree(): Node
  {
    Node(Other, [Node(Other, [Node(Other, [Node(Other, []), Node(Other, []), Node(Other, [])])])])
  }

  /** Module([<print statement>]). */
  function AllowedTree(): Node
  {
    Node(Other, [PrintStatement()])
  }

  /** test_forbidden_module_import: status 400, category "security", item "os";
      in either variant, and no code runs. */
  lemma ForbiddenModuleImport(parse: string -> ParseResult, run: InProcessExecution.ExecBehaviour,
                              child: SubprocessExecution.ChildBehaviour)
    requires parse(ImportOsCode) == Parsed(ImportOsTree())
    ensures CheckForbiddenPatterns(ImportOsCode, parse) == Some(Sandbox(SecurityError(ForbiddenImportMessage, Some("os"))))
    ensures var c := InProcessExecution.Execute(ImportOsCode, parse, run);
            c.Raised? && c.exc.Sandbox?
            && Handle(c.exc.error) == JsonResponse(400, ErrorResponse("security", ForbiddenImportMessage, Some("os")))
    ensures SubprocessExecution.Execute(ImportOsCode, parse, child)
            == InProcessExecution.Execute(ImportOsCode, parse, run)
  {
    var t := ImportOsTree();
    assert NodeViolation(t).None?;
    assert NodeViolation(t.children[0]) == Some(SecurityError(ForbiddenImportMessage, Some("os"))) by {
      assert RootSegment("os") == "os";
    }
    assert Walk(t)[1] == t.children[0];
  }

  /** test_forbidden_function: status 400, category "security", item "eval". */
  lemma ForbiddenFunction(parse: string -> ParseResult, run: InProcessExecution.ExecBehaviour,
                          child: SubprocessExecution.ChildBehaviour)
    requires parse(EvalCode) == Parsed(EvalTree())
    ensures var c := InProcessExecution.Execute(EvalCode, parse, run);
            c.Raised? && c.exc.Sandbox?
            && Handle(c.exc.error) == JsonResponse(400, ErrorResponse("security", ForbiddenCallMessage, Some("eval")))
    ensures SubprocessExecution.Execute(EvalCode, parse, child)
            == InProcessExecution.Execute(EvalCode, parse, run)
  {
    var t := EvalTree();
    var expr := t.children[0];
    var call := expr.children[0];
    assert [t][1..] + t.children == [expr];
    assert [expr][1..] + expr.children == [call];
    assert Walk(t) == [t, expr, call] + WalkQueue([call][1..] + call.children);
    assert NodeViolation(call) == Some(SecurityError(ForbiddenCallMessage, Some("eval")));
    assert FirstViolation(Walk(t)) == NodeViolation(call);
  }

  /** test_syntax_error: status 400, category "syntax", in either variant. */
  lemma UnbalancedParenthesis(parse: string -> ParseResult, run: InProcessExecution.ExecBehaviour,
                              child: SubprocessExecution.ChildBehaviour)
    requires parse(UnbalancedCode).Unparsable?
    ensures var c := InProcessExecution.Execute(UnbalancedCode, parse, run);
            c.Raised? && c.exc.Sandbox?
            && Handle(c.exc.error).statusCode == 400
            && Handle(c.exc.error).content.errorType == "syntax"
            && Handle(c.exc.error).content.forbiddenItem == None
    ensures SubprocessExecution.Execute(UnbalancedCode, parse, child)
            == InProcessExecution.Execute(UnbalancedCode, parse, run)
  {
  }

  /** A source text the parser refuses with an exception other than `SyntaxError`
      (on Python 3.11 and earlier a null byte makes `ast.parse` raise `ValueError`;
      deeply nested source raises `RecursionError` or `MemoryError`, depending on the
      version): the gate does not catch
      it, both variants let it escape as it is, and it is not a sandbox error, so
      none of the three handlers answers it. */
  lemma ParserExceptionEscapes(parse: string -> ParseResult, run: InProcessExecution.ExecBehaviour,
                               child: SubprocessExecution.ChildBehaviour, text: string)
    requires parse(NullByteCode) == ParseRaises(text)
    ensures InProcessExecution.Execute(NullByteCode, parse, run) == Raised(OtherException(text))
    ensures SubprocessExecution.Execute(NullByteCode, parse, child) == Raised(OtherException(text))
    ensures IsException(OtherException(text)) && !OtherException(text).Sandbox?
  {
  }

  /** test_runtime_error: in the in-process variant the ZeroDivisionError becomes a
      runtime error, status 500, whose detail is the exception's text. */
  lemma DivisionByZero(parse: string -> ParseResult, reason: string)
    requires parse(DivisionCode) == Parsed(DivisionTree())
    ensures var c := InProcessExecution.Execute(DivisionCode, parse,
                                                InProcessExecution.Fails("", OtherException(reason)));
            c.Raised? && c.exc.Sandbox?
            && Handle(c.exc.error) == JsonResponse(500, ErrorResponse("runtime", reason, None))
  {
    var t := DivisionTree();
    assert NoViolationIn(t);
    CheckTreeStructural(t);
  }

  /** The same submission under the subprocess variant: the child prints its
      traceback on stderr and exits, and since its exit status is never read the
      call returns normally with the traceback after a newline. */
  lemma DivisionByZeroInSubprocess(parse: string -> ParseResult, traceback: string)
    requires parse(DivisionCode) == Parsed(DivisionTree())
    requires traceback != []
    ensures SubprocessExecution.Execute(DivisionCode, parse, SubprocessExecution.Exits("", traceback))
            == Normal("\n" + traceback)
  {
    var t := DivisionTree();
    assert NoViolationIn(t);
    CheckTreeStructural(t);
    var child := SubprocessExecution.Exits("", traceback);
    SubprocessExecution.ExecuteAfterGate(DivisionCode, parse, child);
    assert SubprocessExecution.JoinOutput("", traceback) == "\n" + traceback;
  }

  /** test_allowed_code: the result is exactly "Allowed\n" in both variants. */
  lemma AllowedOutput(parse: string -> ParseResult)
    requires parse(AllowedCode) == Parsed(AllowedTree())
    ensures InProcessExecution.Execute(AllowedCode, parse, InProcessExecution.Completes("Allowed\n"))
            == Normal("Allowed\n")
    ensures SubprocessExecution.Execute(AllowedCode, parse, SubprocessExecution.Exits("Allowed\n", ""))
            == Normal("Allowed\n")
  {
    var t := AllowedTree();
    assert NodeViolation(PrintStatement().children[0]).None? by {
      assert "print" !in ForbiddenFunctions;
    }
    assert NoViolationIn(t);
    CheckTreeStructural(t);
    SubprocessExecution.ExecuteAfterGate(AllowedCode, parse, SubprocessExecution.Exits("Allowed\n", ""));
    assert SubprocessExecution.JoinOutput("Allowed\n", "") == "Allowed\n";
  }

  /** Every alias of one import statement is examined and the item reported is the
      full dotted alias: `import json, os` is rejected for `os`, `import os.path`
      for `os.path`; `import osx` and `from . import os` pass. */
  lemma ImportAliases()
    ensures NodeViolation(Node(Import(["json", "os"]), [])) == Some(SecurityError(ForbiddenImportMessage, Some("os")))
    ensures NodeViolation(Node(Import(["os.path"]), [])) == Some(SecurityError(ForbiddenImportMessage, Some("os.path")))
    ensures NodeViolation(Node(Import(["osx"]), [])).None?
    ensures NodeViolation(Node(ImportFrom(None), [])).None?
  {
    assert RootSegment("json") == "json" && "json" !in ForbiddenModules;
    assert RootSegment("os") == "os";
    assert FirstForbiddenAlias(["json", "os"]) == Some("os") by {
      assert ["json", "os"][1..] == ["os"];
    }
    assert RootSegment("os.path") == "os";
    assert FirstForbiddenAlias(["os.path"]) == Some("os.path");
    assert RootSegment("osx") == "osx" && "osx" !in ForbiddenModules;
    assert FirstForbiddenAlias(["osx"]) == None by {
      assert ["osx"][1..] == [];
    }
  }
}
