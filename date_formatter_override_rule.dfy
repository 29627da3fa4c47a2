/**
 * `date_formatter_override` as the built-in rule set defines it:
 * `DateFormatter` may only be reached through `DateFormatter.whatnotFormatter`.
 * A member access on `DateFormatter` and a bare `DateFormatter()` are flagged.
 * Names are matched by their text only, so anything spelled `DateFormatter`
 * is taken to be the type.
 */
module DateFormatterOverrideRule {
  import opened Syntax

  const RuleIdentifier: string := "date_formatter_override"
  const DefaultConfiguration := SeverityConfiguration(Error)

  const RestrictedType: string := "DateFormatter"
  const SanctionedAccessor: string := "whatnotFormatter"

  /** What `visitPost(MemberAccessExpr)` appends for `node`. */
  function MemberAccessViolations(node: Expr): (r: seq<Violation>)
    requires node.MemberAccess?
    ensures r == [] || r == [At(node.pos)]
    ensures r != [] <==> BaseIsIdentifierNamed(node.base, RestrictedType) && node.name != SanctionedAccessor
  {
    if BaseIsIdentifierNamed(node.base, RestrictedType) && node.name != SanctionedAccessor then [At(node.pos)] else []
  }

  /** What `visitPost(FunctionCallExpr)` appends for `node`. */
  function CallViolations(node: Expr): (r: seq<Violation>)
    requires node.Call?
    ensures r == [] || r == [At(node.pos)]
    ensures r != [] <==> IsIdentifierNamed(node.callee, RestrictedType) && node.args == []
  {
    if IsIdentifierNamed(node.callee, RestrictedType) && node.args == [] then [At(node.pos)] else []
  }

  /** The callbacks this rule's visitor overrides; every other node kind appends nothing. */
  function NodeViolations(n: Node): (r: seq<Violation>)
    ensures |r| <= 1
    ensures !(n.ExprNode? && (n.expr.MemberAccess? || n.expr.Call?)) ==> r == []
  {
    match n
    case ExprNode(e) =>
      if e.MemberAccess? then MemberAccessViolations(e)
      else if e.Call? then CallViolations(e)
      else []
    case _ => []
  }

  /**
   * The violations of one walk over a file: what the callbacks append, node
   * by node, in the walk's post-order. Each node adds at most one.
   */
  function Lint(file: seq<Stmt>): (r: seq<Violation>)
    ensures |r| <= |FileNodes(file)|
  {
    CollectBound(NodeViolations, FileNodes(file));
    Collect(NodeViolations, FileNodes(file))
  }

  class Visitor {
    var violations: seq<Violation>

    constructor ()
      ensures violations == []
    {
      violations := [];
    }

    method VisitPostMemberAccess(node: Expr)
      requires node.MemberAccess?
      modifies this
      ensures violations == old(violations) + MemberAccessViolations(node)
    {
      if node.base.Some? && node.base.value.Identifier? && node.base.value.name == RestrictedType
         && node.name != SanctionedAccessor
      {
        violations := violations + [At(node.pos)];
      }
    }

    method VisitPostFunctionCall(node: Expr)
      requires node.Call?
      modifies this
      ensures violations == old(violations) + CallViolations(node)
    {
      if node.callee.Identifier? && node.callee.name == RestrictedType && |node.args| == 0 {
        violations := violations + [At(node.pos)];
      }
    }
  }

  /**
   * `DateFormatter.m(args)` for any member other than the sanctioned accessor
   * (`DateFormatter.init()` among them) is reported once, at the member access,
   * and never by the call check, whose callee must be a plain identifier.
   */
  lemma MemberCallReportedOnce(id: Expr, m: string, namePos: Position, pos: Position, text: string,
                               trailing: bool, extra: nat, callPos: Position, callText: string)
    requires IsIdentifierNamed(id, RestrictedType) && m != SanctionedAccessor
    ensures Lint([ExprStmt(Call(MemberAccess(Some(id), m, namePos, pos, text), [], trailing, extra, callPos, callText))])
            == [At(pos)]
  {
    var ma := MemberAccess(Some(id), m, namePos, pos, text);
    var call := Call(ma, [], trailing, extra, callPos, callText);
    FileOfOne(ExprStmt(call));
    CollectStmt(NodeViolations, ExprStmt(call));
    CollectCall(NodeViolations, call);
    CollectMemberAccess(NodeViolations, ma);
  }

  /** `DateFormatter.whatnotFormatter` on its own is not reported. */
  lemma SanctionedAccessorSilent(id: Expr, namePos: Position, pos: Position, text: string)
    requires IsIdentifierNamed(id, RestrictedType)
    ensures Lint([ExprStmt(MemberAccess(Some(id), SanctionedAccessor, namePos, pos, text))]) == []
  {
    var ma := MemberAccess(Some(id), SanctionedAccessor, namePos, pos, text);
    FileOfOne(ExprStmt(ma));
    CollectStmt(NodeViolations, ExprStmt(ma));
    CollectMemberAccess(NodeViolations, ma);
  }

  /** A member access with no base, or whose base is not a plain identifier, is never flagged. */
  lemma OnlyIdentifierBasesFlagged(node: Expr)
    requires node.MemberAccess? && (node.base.None? || !node.base.value.Identifier?)
    ensures NodeViolations(ExprNode(node)) == []
  {
  }

  /** A declaration `let x = e` without attributes is reported as the statement `e`. */
  lemma {:induction false} LetWalk(p: Pattern, e: Expr)
    ensures Lint([VariableDecl([], [Binding(p, Some(e))])]) == Lint([ExprStmt(e)])
  {
    var decl := VariableDecl([], [Binding(p, Some(e))]);
    FileOfOne(decl);
    CollectVariableDecl(NodeViolations, decl);
    BindingsOfOne(decl, Binding(p, Some(e)));
    FileOfOne(ExprStmt(e));
    CollectStmt(NodeViolations, ExprStmt(e));
  }

  // The rule's own examples. A violation's position is the offset of the example's marker.

  /** `let df = DateFormatter.whatnotFormatter` raises nothing. */
  lemma ExampleLetWhatnotFormatter()
    ensures Lint([VariableDecl([], [Binding(IdentifierPattern("df"), Some(
              MemberAccess(Some(Identifier("DateFormatter", 9, "DateFormatter")), "whatnotFormatter", 23, 9,
                           "DateFormatter.whatnotFormatter")))])])
            == []
  {
    LetWalk(IdentifierPattern("df"), MemberAccess(Some(Identifier("DateFormatter", 9, "DateFormatter")), "whatnotFormatter",
                                                   23, 9, "DateFormatter.whatnotFormatter"));
    var ma := MemberAccess(Some(Identifier("DateFormatter", 9, "DateFormatter")), "whatnotFormatter", 23, 9, "DateFormatter.whatnotFormatter");
    FileOfOne(ExprStmt(ma));
    CollectStmt(NodeViolations, ExprStmt(ma));
    CollectMemberAccess(NodeViolations, ma);
    CollectIdentifier(NodeViolations, ma.base.value);
  }

  /** `DateFormatter.whatnotFormatter` raises nothing. */
  lemma ExampleWhatnotFormatter()
    ensures Lint([ExprStmt(MemberAccess(Some(Identifier("DateFormatter", 0, "DateFormatter")), "whatnotFormatter", 14, 0,
                                        "DateFormatter.whatnotFormatter"))])
            == []
  {
    var ma := MemberAccess(Some(Identifier("DateFormatter", 0, "DateFormatter")), "whatnotFormatter", 14, 0, "DateFormatter.whatnotFormatter");
    FileOfOne(ExprStmt(ma));
    CollectStmt(NodeViolations, ExprStmt(ma));
    CollectMemberAccess(NodeViolations, ma);
    CollectIdentifier(NodeViolations, ma.base.value);
  }

  /** `let df = DateFormatter.init()` is reported once, at the member access `DateFormatter.init`. */
  lemma ExampleLetInit()
    ensures Lint([VariableDecl([], [Binding(IdentifierPattern("df"), Some(
              Call(MemberAccess(Some(Identifier("DateFormatter", 9, "DateFormatter")), "init", 23, 9, "DateFormatter.init"),
                   [], false, 0, 9, "DateFormatter.init()")))])])
            == [At(9)]
  {
    var ma := MemberAccess(Some(Identifier("DateFormatter", 9, "DateFormatter")), "init", 23, 9, "DateFormatter.init");
    var call := Call(ma, [], false, 0, 9, "DateFormatter.init()");
    var decl := VariableDecl([], [Binding(IdentifierPattern("df"), Some(call))]);
    FileOfOne(decl);
    CollectVariableDecl(NodeViolations, decl);
    BindingsOfOne(decl, Binding(IdentifierPattern("df"), Some(call)));
    CollectCall(NodeViolations, call);
    CollectMemberAccess(NodeViolations, ma);
  }

  /** `let df = DateFormatter()` is reported once, at the construction. */
  lemma ExampleLetConstruct()
    ensures Lint([VariableDecl([], [Binding(IdentifierPattern("df"), Some(
              Call(Identifier("DateFormatter", 9, "DateFormatter"), [], false, 0, 9, "DateFormatter()")))])])
            == [At(9)]
  {
    LetWalk(IdentifierPattern("df"), Call(Identifier("DateFormatter", 9, "DateFormatter"), [], false, 0, 9, "DateFormatter()"));
    var call := Call(Identifier("DateFormatter", 9, "DateFormatter"), [], false, 0, 9, "DateFormatter()");
    FileOfOne(ExprStmt(call));
    CollectStmt(NodeViolations, ExprStmt(call));
    CollectCall(NodeViolations, call);
    CollectIdentifier(NodeViolations, call.callee);
    assert ArgNodes(call, []) == [];
  }

  /** `let df = DateFormatter.anotherStaticInit` is reported once, at the member access. */
  lemma ExampleLetStaticMember()
    ensures Lint([VariableDecl([], [Binding(IdentifierPattern("df"), Some(
              MemberAccess(Some(Identifier("DateFormatter", 9, "DateFormatter")), "anotherStaticInit", 23, 9,
                           "DateFormatter.anotherStaticInit")))])])
            == [At(9)]
  {
    LetWalk(IdentifierPattern("df"), MemberAccess(Some(Identifier("DateFormatter", 9, "DateFormatter")), "anotherStaticInit",
                                                   23, 9, "DateFormatter.anotherStaticInit"));
    var ma := MemberAccess(Some(Identifier("DateFormatter", 9, "DateFormatter")), "anotherStaticInit", 23, 9, "DateFormatter.anotherStaticInit");
    FileOfOne(ExprStmt(ma));
    CollectStmt(NodeViolations, ExprStmt(ma));
    CollectMemberAccess(NodeViolations, ma);
    CollectIdentifier(NodeViolations, ma.base.value);
  }

  /** `DateFormatter()` is reported once, at the construction. */
  lemma ExampleConstruct()
    ensures Lint([ExprStmt(Call(Identifier("DateFormatter", 0, "DateFormatter"), [], false, 0, 0, "DateFormatter()"))])
            == [At(0)]
  {
    var call := Call(Identifier("DateFormatter", 0, "DateFormatter"), [], false, 0, 0, "DateFormatter()");
    FileOfOne(ExprStmt(call));
    CollectStmt(NodeViolations, ExprStmt(call));
    CollectCall(NodeViolations, call);
    CollectIdentifier(NodeViolations, call.callee);
    assert ArgNodes(call, []) == [];
  }

  /** `DateFormatter.init()` is reported once, at the member access. */
  lemma ExampleInit()
    ensures Lint([ExprStmt(Call(MemberAccess(Some(Identifier("DateFormatter", 0, "DateFormatter")), "init", 14, 0,
                                             "DateFormatter.init"), [], false, 0, 0, "DateFormatter.init()"))])
            == [At(0)]
  {
    MemberCallReportedOnce(Identifier("DateFormatter", 0, "DateFormatter"), "init", 14, 0, "DateFormatter.init",
                           false, 0, 0, "DateFormatter.init()");
  }

  /** `DateFormatter.anotherStaticInit` is reported once, at the member access. */
  lemma ExampleStaticMember()
    ensures Lint([ExprStmt(MemberAccess(Some(Identifier("DateFormatter", 0, "DateFormatter")), "anotherStaticInit", 14, 0,
                                        "DateFormatter.anotherStaticInit"))])
            == [At(0)]
  {
    var ma := MemberAccess(Some(Identifier("DateFormatter", 0, "DateFormatter")), "anotherStaticInit", 14, 0, "DateFormatter.anotherStaticInit");
    FileOfOne(ExprStmt(ma));
    CollectStmt(NodeViolations, ExprStmt(ma));
    CollectMemberAccess(NodeViolations, ma);
    CollectIdentifier(NodeViolations, ma.base.value);
  }
}
