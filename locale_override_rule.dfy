/**
 * `locale_override`: `Locale` may only be reached through its sanctioned
 * accessor `Locale.overriddenOrCurrent`. A member access on `Locale`, a
 * bare `Locale()` construction and a `locale: .current` argument are
 * flagged. Names are matched by their text only.
 */
module LocaleOverrideRule {
  import opened Syntax

  const RuleIdentifier: string := "locale_override"
  const DefaultConfiguration := SeverityConfiguration(Error)

  const RestrictedType: string := "Locale"
  const SanctionedAccessor: string := "overriddenOrCurrent"

  /** What `visitPost(MemberAccessExpr)` appends for `node`. */
  function MemberAccessViolations(node: Expr): (r: seq<Violation>)
    requires node.MemberAccess?
    ensures r == [] || r == [At(node.pos)]
    ensures r != [] <==> BaseIsIdentifierNamed(node.base, RestrictedType) && node.name != SanctionedAccessor
  {
    if BaseIsIdentifierNamed(node.base, RestrictedType) && node.name != SanctionedAccessor then [At(node.pos)] else []
  }

  /** Some argument is labelled `locale` and its value is a member access named `current`, on any base. */
  predicate PassesCurrentLocale(args: seq<Arg>)
  {
    exists k :: 0 <= k < |args| && args[k].argLabel == Some("locale")
                && args[k].value.MemberAccess? && args[k].value.name == "current"
  }

  /** What `visitPost(FunctionCallExpr)` appends for `node`: one violation at the call at most. */
  function CallViolations(node: Expr): (r: seq<Violation>)
    requires node.Call?
    ensures r == [] || r == [At(node.pos)]
    ensures r != [] <==> (IsIdentifierNamed(node.callee, RestrictedType) && node.args == [])
                         || PassesCurrentLocale(node.args)
  {
    if IsIdentifierNamed(node.callee, RestrictedType) && node.args == [] then [At(node.pos)]
    else if PassesCurrentLocale(node.args) then [At(node.pos)]
    else []
  }

  /** The callbacks this rule's visitor overrides; every other node kind appends nothing. */
  function NodeViolations(n: Node): (r: seq<Violation>)
    ensures |r| <= 1
    ensures !(n.ExprNode? && (n.expr.MemberAccess? || n.expr.Call?)) ==> r == []
  {
    match n
    case ExprNode(e) =>
      if e.MemberAccess? then MemberAccessViolations(e)
      else if e.Call? then CallViolations(e)
      else []
    case _ => []
  }

  /**
   * The violations of one walk over a file: what the callbacks append, node
   * by node, in the walk's post-order. Each node adds at most one.
   */
  function Lint(file: seq<Stmt>): (r: seq<Violation>)
    ensures |r| <= |FileNodes(file)|
  {
    CollectBound(NodeViolations, FileNodes(file));
    Collect(NodeViolations, FileNodes(file))
  }

  class Visitor {
    var violations: seq<Violation>

    constructor ()
      ensures violations == []
    {
      violations := [];
    }

    method VisitPostMemberAccess(node: Expr)
      requires node.MemberAccess?
      modifies this
      ensures violations == old(violations) + MemberAccessViolations(node)
    {
      if node.base.Some? && node.base.value.Identifier? && node.base.value.name == RestrictedType
         && node.name != SanctionedAccessor
      {
        violations := violations + [At(node.pos)];
      }
    }

    method VisitPostFunctionCall(node: Expr)
      requires node.Call?
      modifies this
      ensures violations == old(violations) + CallViolations(node)
    {
      if node.callee.Identifier? && node.callee.name == RestrictedType && |node.args| == 0 {
        violations := violations + [At(node.pos)];
      } else if PassesCurrentLocale(node.args) {
        violations := violations + [At(node.pos)];
      }
    }
  }

  /**
   * `Locale.m()` with no arguments, for any member `m` other than the
   * sanctioned accessor (`Locale.init()` among them), is reported once, at the
   * member access: the call's callee is not a plain identifier.
   */
  lemma MemberCallReportedOnce(id: Expr, m: string, namePos: Position, pos: Position, text: string,
                               trailing: bool, extra: nat, callPos: Position, callText: string)
    requires IsIdentifierNamed(id, RestrictedType) && m != SanctionedAccessor
    ensures Lint([ExprStmt(Call(MemberAccess(Some(id), m, namePos, pos, text), [], trailing, extra, callPos, callText))])
            == [At(pos)]
  {
    var ma := MemberAccess(Some(id), m, namePos, pos, text);
    var call := Call(ma, [], trailing, extra, callPos, callText);
    FileOfOne(ExprStmt(call));
    CollectStmt(NodeViolations, ExprStmt(call));
    CollectCall(NodeViolations, call);
    CollectMemberAccess(NodeViolations, ma);
  }

  /** `Locale.m` for any `m` other than the sanctioned accessor (`Locale.current` among them) is reported once. */
  lemma MemberAccessReportedOnce(id: Expr, m: string, namePos: Position, pos: Position, text: string)
    requires IsIdentifierNamed(id, RestrictedType) && m != SanctionedAccessor
    ensures Lint([ExprStmt(MemberAccess(Some(id), m, namePos, pos, text))]) == [At(pos)]
  {
    var ma := MemberAccess(Some(id), m, namePos, pos, text);
    FileOfOne(ExprStmt(ma));
    CollectStmt(NodeViolations, ExprStmt(ma));
    CollectMemberAccess(NodeViolations, ma);
  }

  /** `Locale.overriddenOrCurrent`, the sanctioned accessor, is not reported. */
  lemma SanctionedAccessorSilent(id: Expr, namePos: Position, pos: Position, text: string)
    requires IsIdentifierNamed(id, RestrictedType)
    ensures Lint([ExprStmt(MemberAccess(Some(id), SanctionedAccessor, namePos, pos, text))]) == []
  {
    var ma := MemberAccess(Some(id), SanctionedAccessor, namePos, pos, text);
    FileOfOne(ExprStmt(ma));
    CollectStmt(NodeViolations, ExprStmt(ma));
    CollectMemberAccess(NodeViolations, ma);
  }

  /** A member access without a base, such as `.overriddenOrCurrent` or `.current`, is not checked. */
  lemma BaselessMemberAccessSilent(node: Expr)
    requires node.MemberAccess? && node.base.None?
    ensures NodeViolations(ExprNode(node)) == []
  {
  }

  /** A declaration `let x = e` without attributes is reported as the statement `e`. */
  lemma {:induction false} LetWalk(p: Pattern, e: Expr)
    ensures Lint([VariableDecl([], [Binding(p, Some(e))])]) == Lint([ExprStmt(e)])
  {
    var decl := VariableDecl([], [Binding(p, Some(e))]);
    FileOfOne(decl);
    CollectVariableDecl(NodeViolations, decl);
    BindingsOfOne(decl, Binding(p, Some(e)));
    FileOfOne(ExprStmt(e));
    CollectStmt(NodeViolations, ExprStmt(e));
  }

  // The rule's own examples. A violation's position is the offset of the example's marker.

  /** `let df = Locale.overriddenOrCurrent` raises nothing. */
  lemma ExampleLetSanctioned()
    ensures Lint([VariableDecl([], [Binding(IdentifierPattern("df"), Some(
              MemberAccess(Some(Identifier("Locale", 9, "Locale")), SanctionedAccessor, 16, 9,
                           "Locale.overriddenOrCurrent")))])])
            == []
  {
    var e := MemberAccess(Some(Identifier("Locale", 9, "Locale")), SanctionedAccessor, 16, 9, "Locale.overriddenOrCurrent");
    LetWalk(IdentifierPattern("df"), e);
    SanctionedAccessorSilent(Identifier("Locale", 9, "Locale"), 16, 9, "Locale.overriddenOrCurrent");
  }

  /** `Locale.overriddenOrCurrent` raises nothing. */
  lemma ExampleSanctioned()
    ensures Lint([ExprStmt(MemberAccess(Some(Identifier("Locale", 0, "Locale")), SanctionedAccessor, 7, 0,
                                        "Locale.overriddenOrCurrent"))])
            == []
  {
    SanctionedAccessorSilent(Identifier("Locale", 0, "Locale"), 7, 0, "Locale.overriddenOrCurrent");
  }

  /**
   * The tokens of `locale: .overriddenOrCurrent` hold no parenthesis, so
   * whatever tree they parse to holds no call. It is a statement holding one
   * member access without a base, and it raises nothing.
   */
  lemma ExampleLabelledSanctioned()
    ensures Lint([OtherStmt([MemberAccess(None, SanctionedAccessor, 9, 8, ".overriddenOrCurrent")], [])]) == []
  {
    var ma := MemberAccess(None, SanctionedAccessor, 9, 8, ".overriddenOrCurrent");
    FileOfOne(OtherStmt([ma], []));
    CollectOtherStmtOfOne(NodeViolations, OtherStmt([ma], []));
    CollectMemberAccess(NodeViolations, ma);
  }

  /**
   * `locale: .current`, the example listed as triggering with its marker on
   * `locale`, has the same shape: one member access without a base and no
   * call. Neither callback reports it, so the code raises nothing.
   */
  lemma ExampleLabelledCurrent()
    ensures Lint([OtherStmt([MemberAccess(None, "current", 9, 8, ".current")], [])]) == []
  {
    var ma := MemberAccess(None, "current", 9, 8, ".current");
    FileOfOne(OtherStmt([ma], []));
    CollectOtherStmtOfOne(NodeViolations, OtherStmt([ma], []));
    CollectMemberAccess(NodeViolations, ma);
  }

  /** `let locale = Locale.init()` is reported once, at `Locale`. */
  lemma ExampleLetInit()
    ensures Lint([VariableDecl([], [Binding(IdentifierPattern("locale"), Some(
              Call(MemberAccess(Some(Identifier("Locale", 13, "Locale")), "init", 20, 13, "Locale.init"),
                   [], false, 0, 13, "Locale.init()")))])])
            == [At(13)]
  {
    var call := Call(MemberAccess(Some(Identifier("Locale", 13, "Locale")), "init", 20, 13, "Locale.init"),
                     [], false, 0, 13, "Locale.init()");
    LetWalk(IdentifierPattern("locale"), call);
    MemberCallReportedOnce(Identifier("Locale", 13, "Locale"), "init", 20, 13, "Locale.init", false, 0, 13, "Locale.init()");
  }

  /** `let locale = Locale()` is reported once, at the construction. */
  lemma ExampleLetConstruct()
    ensures Lint([VariableDecl([], [Binding(IdentifierPattern("locale"), Some(
              Call(Identifier("Locale", 13, "Locale"), [], false, 0, 13, "Locale()")))])])
            == [At(13)]
  {
    var call := Call(Identifier("Locale", 13, "Locale"), [], false, 0, 13, "Locale()");
    LetWalk(IdentifierPattern("locale"), call);
    CollectCall(NodeViolations, call);
    CollectIdentifier(NodeViolations, call.callee);
    assert ArgNodes(call, []) == [];
    FileOfOne(ExprStmt(call));
    CollectStmt(NodeViolations, ExprStmt(call));
  }

  /** `let locale = Locale.current` is reported once, at the member access. */
  lemma ExampleLetCurrent()
    ensures Lint([VariableDecl([], [Binding(IdentifierPattern("locale"), Some(
              MemberAccess(Some(Identifier("Locale", 13, "Locale")), "current", 20, 13, "Locale.current")))])])
            == [At(13)]
  {
    var ma := MemberAccess(Some(Identifier("Locale", 13, "Locale")), "current", 20, 13, "Locale.current");
    LetWalk(IdentifierPattern("locale"), ma);
    MemberAccessReportedOnce(Identifier("Locale", 13, "Locale"), "current", 20, 13, "Locale.current");
  }

  /** `Locale()` is reported once, at the construction. */
  lemma ExampleConstruct()
    ensures Lint([ExprStmt(Call(Identifier("Locale", 0, "Locale"), [], false, 0, 0, "Locale()"))]) == [At(0)]
  {
    var call := Call(Identifier("Locale", 0, "Locale"), [], false, 0, 0, "Locale()");
    FileOfOne(ExprStmt(call));
    CollectStmt(NodeViolations, ExprStmt(call));
    CollectCall(NodeViolations, call);
    CollectIdentifier(NodeViolations, call.callee);
    assert ArgNodes(call, []) == [];
  }

  /** `Locale.init()` is reported once, at `Locale`. */
  lemma ExampleInit()
    ensures Lint([ExprStmt(Call(MemberAccess(Some(Identifier("Locale", 0, "Locale")), "init", 7, 0, "Locale.init"),
                                [], false, 0, 0, "Locale.init()"))])
            == [At(0)]
  {
    MemberCallReportedOnce(Identifier("Locale", 0, "Locale"), "init", 7, 0, "Locale.init", false, 0, 0, "Locale.init()");
  }

  /** `Locale.current` is reported once, at `Locale`. */
  lemma ExampleCurrent()
    ensures Lint([ExprStmt(MemberAccess(Some(Identifier("Locale", 0, "Locale")), "current", 7, 0, "Locale.current"))])
            == [At(0)]
  {
    MemberAccessReportedOnce(Identifier("Locale", 0, "Locale"), "current", 7, 0, "Locale.current");
  }

  /** A `locale: <base>.current` argument is reported at the call, whatever the callee. */
  lemma CurrentLocaleArgumentReported(call: Expr, k: nat)
    requires call.Call? && k < |call.args| && call.args[k].argLabel == Some("locale")
    requires call.args[k].value.MemberAccess? && call.args[k].value.name == "current"
    ensures CallViolations(call) == [At(call.pos)]
  {
  }
}
