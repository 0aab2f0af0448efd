/**
 * The static deny-list gate `check_forbidden_patterns` (app/core/security.py).
 *
 * Python's parser is not modelled: it is a parameter `parse` that yields a syntax
 * tree, raises a `SyntaxError` with some text, or raises another exception. The tree keeps only what the gate looks at:
 * import statements with their alias names, `from M import ...` with its module,
 * calls with their callee, and every other node as `Other`; each node has children.
 */
module Security {
  import opened Wrappers
  import opened Exceptions

  const ForbiddenFunctions: set<string> := {"exec", "eval", "__import__", "open"}
  const ForbiddenModules: set<string> := {"os", "sys", "subprocess", "socket"}

  const ForbiddenImportMessage: string := "Forbidden module import"
  const ForbiddenCallMessage: string := "Forbidden function usage"
  const SyntaxErrorPrefix: string := "Syntax error: "

  /** The callee of a call: a bare identifier (an `ast.Name`, the only node with an
      `id`), or anything else (an attribute access, a subscript, another call ...). */
  datatype Callee = Name(id: string) | Computed

  datatype NodeKind =
    | Import(names: seq<string>)          // `import a.b, c`: the alias names in order
    | ImportFrom(source: Option<string>)  // `from M import ...`; None for `from . import x`
    | Call(func: Callee)
    | Other

  datatype Node = Node(kind: NodeKind, children: seq<Node>)

  /** What `ast.parse` does with a source text: it yields a tree, raises a
      `SyntaxError` with the given text, or raises some other `Exception` (a
      `RecursionError` or `MemoryError` for deeply nested source, or, on Python
      3.11 and earlier, a `ValueError` for a null byte), which the gate does not catch. */
  datatype ParseResult = Parsed(tree: Node) | Unparsable(message: string) | ParseRaises(text: string)

  // ---------------------------------------------------------------------------
  // Module names

  /** `name.split(".")[0]`: everything before the first dot. */
  function RootSegment(name: string): (root: string)
    ensures root <= name
    ensures '.' !in root
    ensures |root| < |name| ==> name[|root|] == '.'
    ensures '.' !in name ==> root == name
  {
    if name == [] || name[0] == '.' then [] else [name[0]] + RootSegment(name[1..])
  }

  predicate IsForbiddenModule(name: string)
  {
    RootSegment(name) in ForbiddenModules
  }

  /** The alias an `ast.Import` node is rejected for: the first one, in source order,
      whose root segment is deny-listed. */
  function FirstForbiddenAlias(names: seq<string>): (r: Option<string>)
    ensures r.None? <==> forall i :: 0 <= i < |names| ==> !IsForbiddenModule(names[i])
    ensures r.Some? ==> exists i :: 0 <= i < |names| && names[i] == r.value
                                    && IsForbiddenModule(names[i])
                                    && forall j :: 0 <= j < i ==> !IsForbiddenModule(names[j])
  {
    if names == [] then None
    else if IsForbiddenModule(names[0]) then Some(names[0])
    else
      FirstForbiddenAlias(names[1..])
  }

  // ---------------------------------------------------------------------------
  // One node

  /** The exception the body of the `for node in ast.walk(tree)` loop raises for one
      node, if any. A node is of one kind only, so at most one of the three tests can
      fire. */
  function NodeViolation(n: Node): (v: Option<SandboxError>)
    ensures v.Some? ==> v.value.SecurityError? && v.value.forbiddenItem.Some?
    ensures n.kind.Import? ==>
              (v.Some? <==> exists i :: 0 <= i < |n.kind.names| && IsForbiddenModule(n.kind.names[i]))
    ensures n.kind.Import? && v.Some? ==>
              v.value.message == ForbiddenImportMessage
              && v.value.forbiddenItem.value in n.kind.names
              && IsForbiddenModule(v.value.forbiddenItem.value)
    // the reported alias is the first deny-listed one, as the inner loop raises there
    ensures n.kind.Import? ==>
              v == (match FirstForbiddenAlias(n.kind.names)
                    case Some(a) => Some(SecurityError(ForbiddenImportMessage, Some(a)))
                    case None => None)
    ensures n.kind.ImportFrom? ==>
              (v.Some? <==> n.kind.source.Some? && IsForbiddenModule(n.kind.source.value))
    ensures n.kind.ImportFrom? && v.Some? ==>
              v.value == SecurityError(ForbiddenImportMessage, n.kind.source)
    ensures n.kind.Call? ==>
              (v.Some? <==> n.kind.func.Name? && n.kind.func.id in ForbiddenFunctions)
    ensures n.kind.Call? && v.Some? ==>
              v.value == SecurityError(ForbiddenCallMessage, Some(n.kind.func.id))
    ensures n.kind.Other? ==> v.None?
  {
    match n.kind
    case Import(names) =>
      (match FirstForbiddenAlias(names)
       case Some(alias) => Some(NewSecurityError(ForbiddenImportMessage, Some(alias)))
       case None => None)
    case ImportFrom(source) =>
      if source.Some? && source.value != [] && IsForbiddenModule(source.value)
      then Some(NewSecurityError(ForbiddenImportMessage, source))
      else None
    case Call(func) =>
      if func.Name? && func.id in ForbiddenFunctions
      then Some(NewSecurityError(ForbiddenCallMessage, Some(func.id)))
      else None
    case Other => None
  }

  // ---------------------------------------------------------------------------
  // The walk

  function Size(n: Node): nat
  {
    1 + ForestSize(n.children)
  }

  function ForestSize(ns: seq<Node>): nat
  {
    if ns == [] then 0 else Size(ns[0]) + ForestSize(ns[1..])
  }

  lemma {:induction false} ForestSizeAppend(a: seq<Node>, b: seq<Node>)
    ensures ForestSize(a + b) == ForestSize(a) + ForestSize(b)
  {
    if a == [] {
      assert a + b == b;
    } else {
      assert (a + b)[0] == a[0];
      assert (a + b)[1..] == a[1..] + b;
      ForestSizeAppend(a[1..], b);
    }
  }

  /** `ast.walk`: a breadth-first traversal driven by a queue; each step pops the
      front node, appends its children at the back and yields the node. */
  function WalkQueue(todo: seq<Node>): seq<Node>
    decreases ForestSize(todo)
  {
    if todo == [] then []
    else
      ForestSizeAppend(todo[1..], todo[0].children);
      assert ForestSize(todo) == 1 + ForestSize(todo[0].children) + ForestSize(todo[1..]);
      [todo[0]] + WalkQueue(todo[1..] + todo[0].children)
  }

  function Walk(tree: Node): seq<Node>
  {
    WalkQueue([tree])
  }

  /** Every node of a tree, in pre-order: the reference for "all nodes". */
  function Flatten(n: Node): seq<Node>
  {
    [n] + FlattenForest(n.children)
  }

  function FlattenForest(ns: seq<Node>): seq<Node>
  {
    if ns == [] then [] else Flatten(ns[0]) + FlattenForest(ns[1..])
  }

  lemma {:induction false} FlattenForestAppend(a: seq<Node>, b: seq<Node>)
    ensures FlattenForest(a + b) == FlattenForest(a) + FlattenForest(b)
  {
    if a == [] {
      assert a + b == b;
    } else {
      assert (a + b)[0] == a[0];
      assert (a + b)[1..] == a[1..] + b;
      FlattenForestAppend(a[1..], b);
    }
  }

  lemma {:induction false} WalkQueueVisitsForest(todo: seq<Node>)
    ensures multiset(WalkQueue(todo)) == multiset(FlattenForest(todo))
    decreases ForestSize(todo)
  {
    if todo != [] {
      var n, rest := todo[0], todo[1..];
      ForestSizeAppend(rest, n.children);
      assert ForestSize(todo) == 1 + ForestSize(n.children) + ForestSize(rest);
      WalkQueueVisitsForest(rest + n.children);
      FlattenForestAppend(rest, n.children);
    }
  }

  /** `ast.walk` yields every node of the tree exactly once, root first. */
  lemma WalkVisitsEveryNodeOnce(tree: Node)
    ensures multiset(Walk(tree)) == multiset(Flatten(tree))
    ensures Walk(tree)[0] == tree
  {
    WalkQueueVisitsForest([tree]);
    assert FlattenForest([tree]) == Flatten(tree) + FlattenForest([]);
  }

  // ---------------------------------------------------------------------------
  // The check

  /** The loop over the walked nodes: the first violation met stops it. */
  function FirstViolation(nodes: seq<Node>): (v: Option<SandboxError>)
    ensures v.None? <==> forall i :: 0 <= i < |nodes| ==> NodeViolation(nodes[i]).None?
    ensures v.Some? ==> exists i :: 0 <= i < |nodes| && NodeViolation(nodes[i]) == v
                                    && forall j :: 0 <= j < i ==> NodeViolation(nodes[j]).None?
  {
    if nodes == [] then None
    else if NodeViolation(nodes[0]).Some? then NodeViolation(nodes[0])
    else
      FirstViolation(nodes[1..])
  }

  function CheckTree(tree: Node): Option<SandboxError>
  {
    FirstViolation(Walk(tree))
  }

  /** `check_forbidden_patterns(code)`: None when it returns normally, otherwise the
      exception that leaves it. Only `SyntaxError` is caught around `ast.parse`;
      any other exception of the parser escapes as it is. */
  function CheckForbiddenPatterns(code: string, parse: string -> ParseResult): (v: Option<PyException>)
    ensures parse(code).Unparsable? ==>
              v == Some(Sandbox(SyntaxError(SyntaxErrorPrefix + parse(code).message)))
    ensures parse(code).ParseRaises? ==> v == Some(OtherException(parse(code).text))
    ensures parse(code).Parsed? ==>
              (v.None? <==> CheckTree(parse(code).tree).None?)
              && (v.Some? ==> v == Some(Sandbox(CheckTree(parse(code).tree).value)))
    ensures v.Some? && v.value.Sandbox? ==> v.value.error.SyntaxError? || v.value.error.SecurityError?
    ensures v.Some? && !v.value.Sandbox? ==> parse(code).ParseRaises? && IsException(v.value)
  {
    match parse(code)
    case Unparsable(message) => Some(Sandbox(SyntaxError(SyntaxErrorPrefix + message)))
    case ParseRaises(text) => Some(OtherException(text))
    case Parsed(tree) =>
      match CheckTree(tree)
      case Some(e) => Some(Sandbox(e))
      case None => None
  }

  /** The gate accepts a tree exactly when no node of it violates the deny-lists,
      and when it rejects, the error is the one of a node of the tree — namely of
      the first violating node in breadth-first order. */
  lemma CheckTreeVerdict(tree: Node)
    ensures CheckTree(tree).None? <==> forall n :: n in Flatten(tree) ==> NodeViolation(n).None?
    ensures CheckTree(tree).Some? ==>
              exists n :: n in Flatten(tree) && NodeViolation(n) == CheckTree(tree)
    ensures CheckTree(tree).Some? ==>
              exists i :: 0 <= i < |Walk(tree)| && NodeViolation(Walk(tree)[i]) == CheckTree(tree)
                          && forall j :: 0 <= j < i ==> NodeViolation(Walk(tree)[j]).None?
  {
    WalkVisitsEveryNodeOnce(tree);
    var w := Walk(tree);
    forall n ensures n in Flatten(tree) <==> n in w {
      assert n in Flatten(tree) <==> n in multiset(Flatten(tree));
      assert n in w <==> n in multiset(w);
    }
  }

  /** Every node of the subtree passes, stated by structural recursion. */
  predicate NoViolationIn(t: Node)
  {
    NodeViolation(t).None? && forall i :: 0 <= i < |t.children| ==> NoViolationIn(t.children[i])
  }

  lemma {:induction false} FlattenForestMembers(ns: seq<Node>, n: Node)
    ensures n in FlattenForest(ns) <==> exists i :: 0 <= i < |ns| && n in Flatten(ns[i])
  {
    if ns != [] {
      FlattenForestMembers(ns[1..], n);
      if n in FlattenForest(ns[1..]) {
        var i :| 0 <= i < |ns[1..]| && n in Flatten(ns[1..][i]);
        assert n in Flatten(ns[i + 1]);
      }
      if exists i :: 0 <= i < |ns| && n in Flatten(ns[i]) {
        var i :| 0 <= i < |ns| && n in Flatten(ns[i]);
        if i > 0 { assert ns[1..][i - 1] == ns[i]; }
      }
    }
  }

  lemma {:induction false} NoViolationInFlatten(t: Node)
    ensures NoViolationIn(t) <==> forall n :: n in Flatten(t) ==> NodeViolation(n).None?
  {
    forall i | 0 <= i < |t.children| {
      NoViolationInFlatten(t.children[i]);
    }
    forall n | n in Flatten(t) && n != t
      ensures exists i :: 0 <= i < |t.children| && n in Flatten(t.children[i])
    {
      FlattenForestMembers(t.children, n);
    }
    forall i, n | 0 <= i < |t.children| && n in Flatten(t.children[i])
      ensures n in Flatten(t)
    {
      FlattenForestMembers(t.children, n);
    }
  }

  /** The gate accepts a tree exactly when its root and, recursively, every child
      subtree pass: the breadth-first walk decides the same as a plain recursive
      descent. */
  lemma CheckTreeStructural(t: Node)
    ensures CheckTree(t).None? <==> NoViolationIn(t)
  {
    CheckTreeVerdict(t);
    NoViolationInFlatten(t);
  }
}
