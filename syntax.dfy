/**
 * The syntax-tree shapes the lint rules inspect, the violation record the
 * rules append, and a post-order walk over a parsed file.
 *
 * Source text (`text`, the rendering of a node) and positions (`pos`, the
 * byte offset of a node's first significant token after leading trivia)
 * are given fields: the parser that computes them is not part of the model.
 */
module Syntax {

  datatype Option<+T> = None | Some(value: T)

  /** Byte offset into the source file, after skipping leading trivia. */
  type Position = nat

  datatype Severity = Warning | Error

  /** The per-rule configuration: only the severity can be set. */
  datatype SeverityConfiguration = SeverityConfiguration(severity: Severity)

  /**
   * One finding. A `None` reason or severity means the visitor did not give
   * one, and the rule's description and configured severity apply.
   */
  datatype Violation = Violation(position: Position, reason: Option<string>, severity: Option<Severity>)

  /** The violation a visitor records when it appends a bare position. */
  function At(p: Position): (v: Violation)
    ensures v.position == p && v.reason == None && v.severity == None
  {
    Violation(p, None, None)
  }

  /** A type as written in an attribute name or an inheritance clause. */
  datatype TypeRef =
    | IdentifierType(name: string)   // an identifier type, generic arguments dropped: `Event`, `Event<T>`
    | OtherType(text: string)        // anything else: member, composition, optional, ...

  datatype Attribute = Attribute(attributeName: TypeRef, pos: Position)

  datatype Expr =
    | Identifier(name: string, pos: Position, text: string)
      /** `base.name`, or `.name` when there is no base; `namePos` is the position of the name token. */
    | MemberAccess(base: Option<Expr>, name: string, namePos: Position, pos: Position, text: string)
      /** `callee(args)`; trailing closures are counted, their bodies are not modelled. */
    | Call(callee: Expr, args: seq<Arg>, trailingClosure: bool, extraTrailingClosures: nat, pos: Position, text: string)
      /** Every other expression (literals, operators, optional chaining, ...) with its sub-expressions. */
    | OtherExpr(children: seq<Expr>, pos: Position, text: string)

  /** One call argument; `argLabel` is the label before the colon, if any. */
  datatype Arg = Arg(argLabel: Option<string>, value: Expr)

  datatype Pattern =
    | WildcardPattern
    | IdentifierPattern(name: string)
    | TuplePattern(elements: seq<TupleElement>)
    | OtherPattern

  datatype TupleElement = TupleElement(pattern: Pattern, pos: Position)

  datatype TypeKind = Struct | Class

  datatype Binding = Binding(pattern: Pattern, initializer: Option<Expr>)

  datatype Stmt =
    | ExprStmt(expr: Expr)
    | VariableDecl(attributes: seq<Attribute>, bindings: seq<Binding>)
      /** A struct or class; `inheritedTypes` is `None` when there is no inheritance clause. */
    | TypeDecl(attributes: seq<Attribute>, kind: TypeKind, name: string, namePos: Position,
               inheritedTypes: Option<seq<TypeRef>>, members: seq<Stmt>)
    | ForStmt(pattern: Pattern, sequence: Expr, body: seq<Stmt>)
      /** Every other statement or declaration (if, func, ...) with its expressions and nested statements. */
    | OtherStmt(exprs: seq<Expr>, body: seq<Stmt>)

  /** The node kinds a rule's visitor can be called back for. */
  datatype Node = ExprNode(expr: Expr) | AttributeNode(attribute: Attribute) | StmtNode(stmt: Stmt)

  /** `e` is an identifier expression whose name text is `name`. */
  predicate IsIdentifierNamed(e: Expr, name: string)
  {
    e.Identifier? && e.name == name
  }

  /** `base` is present and is an identifier expression whose name text is `name`. */
  predicate BaseIsIdentifierNamed(base: Option<Expr>, name: string)
  {
    base.Some? && IsIdentifierNamed(base.value, name)
  }

  // ---------------------------------------------------------------------
  // Post-order, left-to-right walk: every node after its children.
  // ---------------------------------------------------------------------

  function ExprNodes(e: Expr): seq<Node>
    decreases e, 1
  {
    match e
    case Identifier(_, _, _) => [ExprNode(e)]
    case MemberAccess(base, _, _, _, _) =>
      (if base.Some? then ExprNodes(base.value) else []) + [ExprNode(e)]
    case Call(callee, args, _, _, _, _) => ExprNodes(callee) + ArgNodes(e, args) + [ExprNode(e)]
    case OtherExpr(children, _, _) => SubexprNodes(e, children) + [ExprNode(e)]
  }

  function ArgNodes(ghost parent: Expr, args: seq<Arg>): seq<Node>
    requires forall k :: 0 <= k < |args| ==> args[k] < parent
    decreases parent, 0, |args|
  {
    if args == [] then []
    else
      assert args[0] < parent;
      ExprNodes(args[0].value) + ArgNodes(parent, args[1..])
  }

  function SubexprNodes(ghost parent: Expr, es: seq<Expr>): seq<Node>
    requires forall k :: 0 <= k < |es| ==> es[k] < parent
    decreases parent, 0, |es|
  {
    if es == [] then []
    else
      assert es[0] < parent;
      ExprNodes(es[0]) + SubexprNodes(parent, es[1..])
  }

  function AttributeNodes(attrs: seq<Attribute>): seq<Node>
  {
    if attrs == [] then [] else [AttributeNode(attrs[0])] + AttributeNodes(attrs[1..])
  }

  function StmtNodes(s: Stmt): seq<Node>
    decreases s, 1
  {
    match s
    case ExprStmt(e) => ExprNodes(e) + [StmtNode(s)]
    case VariableDecl(attrs, bindings) =>
      AttributeNodes(attrs) + BindingNodes(s, bindings) + [StmtNode(s)]
    case TypeDecl(attrs, _, _, _, _, members) =>
      AttributeNodes(attrs) + StmtListNodes(s, members) + [StmtNode(s)]
    case ForStmt(_, sequence, body) => ExprNodes(sequence) + StmtListNodes(s, body) + [StmtNode(s)]
    case OtherStmt(exprs, body) => StmtExprNodes(s, exprs) + StmtListNodes(s, body) + [StmtNode(s)]
  }

  function BindingNodes(ghost parent: Stmt, bs: seq<Binding>): seq<Node>
    requires forall k :: 0 <= k < |bs| ==> bs[k] < parent
    decreases parent, 0, |bs|
  {
    if bs == [] then []
    else
      assert bs[0] < parent;
      (if bs[0].initializer.Some? then ExprNodes(bs[0].initializer.value) else [])
      + BindingNodes(parent, bs[1..])
  }

  function StmtExprNodes(ghost parent: Stmt, es: seq<Expr>): seq<Node>
    requires forall k :: 0 <= k < |es| ==> es[k] < parent
    decreases parent, 0, |es|
  {
    if es == [] then []
    else
      assert es[0] < parent;
      ExprNodes(es[0]) + StmtExprNodes(parent, es[1..])
  }

  function StmtListNodes(ghost parent: Stmt, ss: seq<Stmt>): seq<Node>
    requires forall k :: 0 <= k < |ss| ==> ss[k] < parent
    decreases parent, 0, |ss|
  {
    if ss == [] then []
    else
      assert ss[0] < parent;
      StmtNodes(ss[0]) + StmtListNodes(parent, ss[1..])
  }

  /** The nodes of a whole file, in the order a post-order visitor sees them. */
  function FileNodes(file: seq<Stmt>): seq<Node>
  {
    StmtListNodes(OtherStmt([], file), file)
  }

  /** What a visitor has appended after being called back on each of `nodes` in turn. */
  function Collect(visit: Node -> seq<Violation>, nodes: seq<Node>): seq<Violation>
  {
    if nodes == [] then [] else visit(nodes[0]) + Collect(visit, nodes[1..])
  }

  /** Visiting two runs of nodes one after the other appends the two results in order. */
  lemma {:induction false} CollectAppend(visit: Node -> seq<Violation>, a: seq<Node>, b: seq<Node>)
    ensures Collect(visit, a + b) == Collect(visit, a) + Collect(visit, b)
  {
    if a != [] {
      assert (a + b)[1..] == a[1..] + b;
      CollectAppend(visit, a[1..], b);
    } else {
      assert a + b == b;
    }
  }

  /** When each callback appends at most one violation, a walk appends at most one per node. */
  lemma {:induction false} CollectBound(visit: Node -> seq<Violation>, nodes: seq<Node>)
    requires forall n :: |visit(n)| <= 1
    ensures |Collect(visit, nodes)| <= |nodes|
  {
    if nodes != [] {
      CollectBound(visit, nodes[1..]);
    }
  }

  // What a walk appends, one node shape at a time.

  lemma CollectIdentifier(visit: Node -> seq<Violation>, e: Expr)
    requires e.Identifier?
    ensures Collect(visit, ExprNodes(e)) == visit(ExprNode(e))
  {
  }

  lemma CollectMemberAccess(visit: Node -> seq<Violation>, e: Expr)
    requires e.MemberAccess?
    ensures Collect(visit, ExprNodes(e))
            == (if e.base.Some? then Collect(visit, ExprNodes(e.base.value)) else []) + visit(ExprNode(e))
  {
    CollectAppend(visit, if e.base.Some? then ExprNodes(e.base.value) else [], [ExprNode(e)]);
  }

  lemma CollectCall(visit: Node -> seq<Violation>, e: Expr)
    requires e.Call?
    ensures Collect(visit, ExprNodes(e))
            == Collect(visit, ExprNodes(e.callee)) + Collect(visit, ArgNodes(e, e.args)) + visit(ExprNode(e))
  {
    CollectAppend(visit, ExprNodes(e.callee) + ArgNodes(e, e.args), [ExprNode(e)]);
    CollectAppend(visit, ExprNodes(e.callee), ArgNodes(e, e.args));
  }

  lemma CollectOtherExpr(visit: Node -> seq<Violation>, e: Expr)
    requires e.OtherExpr?
    ensures Collect(visit, ExprNodes(e)) == Collect(visit, SubexprNodes(e, e.children)) + visit(ExprNode(e))
  {
    CollectAppend(visit, SubexprNodes(e, e.children), [ExprNode(e)]);
  }

  /** A single argument is walked as its value. */
  lemma ArgsOfOne(parent: Expr, a: Arg)
    requires a < parent
    ensures ArgNodes(parent, [a]) == ExprNodes(a.value)
  {
    assert ArgNodes(parent, [a][1..]) == [];
  }

  /** Two sub-expressions are walked one after the other. */
  lemma {:induction false} CollectSubexprsOfTwo(visit: Node -> seq<Violation>, parent: Expr, x: Expr, y: Expr)
    requires x < parent && y < parent
    ensures Collect(visit, SubexprNodes(parent, [x, y])) == Collect(visit, ExprNodes(x)) + Collect(visit, ExprNodes(y))
  {
    assert [x, y][1..] == [y];
    assert SubexprNodes(parent, [y]) == ExprNodes(y) by {
      SubexprsOfOne(parent, y);
    }
    assert SubexprNodes(parent, [x, y]) == ExprNodes(x) + SubexprNodes(parent, [y]);
    CollectAppend(visit, ExprNodes(x), ExprNodes(y));
  }

  /** A single sub-expression is walked as itself. */
  lemma SubexprsOfOne(parent: Expr, x: Expr)
    requires x < parent
    ensures SubexprNodes(parent, [x]) == ExprNodes(x)
  {
    assert SubexprNodes(parent, [x][1..]) == [];
  }

  /** A statement of one expression and no nested statements is walked as the expression, then itself. */
  lemma CollectOtherStmtOfOne(visit: Node -> seq<Violation>, s: Stmt)
    requires s.OtherStmt? && |s.exprs| == 1 && s.body == []
    ensures Collect(visit, StmtNodes(s)) == Collect(visit, ExprNodes(s.exprs[0])) + visit(StmtNode(s))
  {
    assert StmtExprNodes(s, s.exprs[1..]) == [];
    assert StmtNodes(s) == ExprNodes(s.exprs[0]) + [StmtNode(s)];
    CollectAppend(visit, ExprNodes(s.exprs[0]), [StmtNode(s)]);
  }

  lemma CollectStmt(visit: Node -> seq<Violation>, s: Stmt)
    requires s.ExprStmt?
    ensures Collect(visit, StmtNodes(s)) == Collect(visit, ExprNodes(s.expr)) + visit(StmtNode(s))
  {
    CollectAppend(visit, ExprNodes(s.expr), [StmtNode(s)]);
  }

  /** A file of one statement is walked as that statement. */
  lemma FileOfOne(s: Stmt)
    ensures FileNodes([s]) == StmtNodes(s)
  {
    assert StmtListNodes(OtherStmt([], [s]), [s][1..]) == [];
  }

  lemma CollectVariableDecl(visit: Node -> seq<Violation>, s: Stmt)
    requires s.VariableDecl?
    ensures Collect(visit, StmtNodes(s))
            == Collect(visit, AttributeNodes(s.attributes)) + Collect(visit, BindingNodes(s, s.bindings)) + visit(StmtNode(s))
  {
    CollectAppend(visit, AttributeNodes(s.attributes) + BindingNodes(s, s.bindings), [StmtNode(s)]);
    CollectAppend(visit, AttributeNodes(s.attributes), BindingNodes(s, s.bindings));
  }

  /** A single binding is walked as its initializer, if it has one. */
  lemma BindingsOfOne(parent: Stmt, b: Binding)
    requires b < parent
    ensures BindingNodes(parent, [b]) == if b.initializer.Some? then ExprNodes(b.initializer.value) else []
  {
    assert BindingNodes(parent, [b][1..]) == [];
  }

  /** A visitor that appends nothing for any expression appends nothing over a whole expression tree. */
  lemma {:induction false} CollectSilentExpr(visit: Node -> seq<Violation>, e: Expr)
    requires forall x :: visit(ExprNode(x)) == []
    ensures Collect(visit, ExprNodes(e)) == []
    decreases e, 1
  {
    match e
    case Identifier(_, _, _) =>
    case MemberAccess(base, _, _, _, _) =>
      CollectMemberAccess(visit, e);
      if base.Some? {
        CollectSilentExpr(visit, base.value);
      }
    case Call(callee, args, _, _, _, _) =>
      CollectCall(visit, e);
      CollectSilentExpr(visit, callee);
      CollectSilentArgs(visit, e, args);
    case OtherExpr(children, _, _) =>
      CollectAppend(visit, SubexprNodes(e, children), [ExprNode(e)]);
      CollectSilentSubexprs(visit, e, children);
  }

  lemma {:induction false} CollectSilentArgs(visit: Node -> seq<Violation>, parent: Expr, args: seq<Arg>)
    requires forall x :: visit(ExprNode(x)) == []
    requires forall k :: 0 <= k < |args| ==> args[k] < parent
    ensures Collect(visit, ArgNodes(parent, args)) == []
    decreases parent, 0, |args|
  {
    if args != [] {
      assert args[0] < parent;
      CollectAppend(visit, ExprNodes(args[0].value), ArgNodes(parent, args[1..]));
      CollectSilentExpr(visit, args[0].value);
      CollectSilentArgs(visit, parent, args[1..]);
    }
  }

  lemma {:induction false} CollectSilentSubexprs(visit: Node -> seq<Violation>, parent: Expr, es: seq<Expr>)
    requires forall x :: visit(ExprNode(x)) == []
    requires forall k :: 0 <= k < |es| ==> es[k] < parent
    ensures Collect(visit, SubexprNodes(parent, es)) == []
    decreases parent, 0, |es|
  {
    if es != [] {
      assert es[0] < parent;
      CollectAppend(visit, ExprNodes(es[0]), SubexprNodes(parent, es[1..]));
      CollectSilentExpr(visit, es[0]);
      CollectSilentSubexprs(visit, parent, es[1..]);
    }
  }

  lemma CollectForStmt(visit: Node -> seq<Violation>, s: Stmt)
    requires s.ForStmt?
    ensures Collect(visit, StmtNodes(s))
            == Collect(visit, ExprNodes(s.sequence)) + Collect(visit, StmtListNodes(s, s.body)) + visit(StmtNode(s))
  {
    CollectAppend(visit, ExprNodes(s.sequence) + StmtListNodes(s, s.body), [StmtNode(s)]);
    CollectAppend(visit, ExprNodes(s.sequence), StmtListNodes(s, s.body));
  }
}
