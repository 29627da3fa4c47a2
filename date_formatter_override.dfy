/**
 * `date_formatter_override` as the framework's custom rule defines it (an
 * older variant of the built-in rule of the same identifier). It has no
 * member-access callback: it flags calls of `DateFormatter` and of members
 * of `DateFormatter`, and variable declarations whose initializer reaches
 * `DateFormatter` other than through `whatnotFormatter`.
 */
module DateFormatterOverride {
  import opened Syntax

  const RuleIdentifier: string := "date_formatter_override"
  const DefaultConfiguration := SeverityConfiguration(Error)

  const RestrictedType: string := "DateFormatter"
  const SanctionedAccessor: string := "whatnotFormatter"

  /** `e` is a member access whose base is the plain identifier `DateFormatter`. */
  predicate IsRestrictedMemberAccess(e: Expr)
  {
    e.MemberAccess? && BaseIsIdentifierNamed(e.base, RestrictedType)
  }

  /**
   * What `visitPost(FunctionCallExpr)` appends for `node`. Its two checks are
   * independent `if`s, but a callee is never both a plain identifier and a
   * member access, so at most one of them fires.
   */
  function CallViolations(node: Expr): (r: seq<Violation>)
    requires node.Call?
    ensures r == [] || r == [At(node.pos)]
    ensures r != [] <==> (IsIdentifierNamed(node.callee, RestrictedType) && node.args == [])
                         || IsRestrictedMemberAccess(node.callee)
  {
    (if IsIdentifierNamed(node.callee, RestrictedType) && node.args == [] then [At(node.pos)] else [])
    + (if IsRestrictedMemberAccess(node.callee) then [At(node.pos)] else [])
  }

  /** The initializer is `DateFormatter.m` with `m` other than the sanctioned accessor. */
  predicate InitializesFromMember(b: Binding)
  {
    b.initializer.Some? && IsRestrictedMemberAccess(b.initializer.value)
    && b.initializer.value.name != SanctionedAccessor
  }

  /**
   * The initializer is a call `DateFormatter.m(...)`, for any member `m`. A
   * call is not a member access, so this and `InitializesFromMember` never
   * hold together and the order of the loop body's two branches does not
   * matter.
   */
  predicate InitializesFromMemberCall(b: Binding): (r: bool)
    ensures r ==> !InitializesFromMember(b)
  {
    b.initializer.Some? && b.initializer.value.Call? && IsRestrictedMemberAccess(b.initializer.value.callee)
  }

  /** The violation one binding would raise, tried in the order of the loop body's two branches. */
  function BindingViolation(b: Binding): (r: Option<Violation>)
    ensures r.Some? <==> InitializesFromMember(b) || InitializesFromMemberCall(b)
    ensures InitializesFromMember(b) ==> r == Some(At(b.initializer.value.pos))
    ensures !InitializesFromMember(b) && InitializesFromMemberCall(b) ==> r == Some(At(b.initializer.value.callee.pos))
  {
    if InitializesFromMember(b) then Some(At(b.initializer.value.pos))
    else if InitializesFromMemberCall(b) then Some(At(b.initializer.value.callee.pos))
    else None
  }

  /**
   * What `visitPost(VariableDecl)` appends for a declaration with these
   * bindings: the violation of the first flagged binding, and nothing for
   * the bindings after it (the loop returns right after appending).
   */
  function VariableDeclViolations(bindings: seq<Binding>): (r: seq<Violation>)
    ensures |r| <= 1
    ensures r == [] <==> forall k :: 0 <= k < |bindings| ==> BindingViolation(bindings[k]).None?
  {
    if bindings == [] then []
    else
      match BindingViolation(bindings[0])
      case Some(v) => [v]
      case None =>
        var rest := VariableDeclViolations(bindings[1..]);
        assert forall k :: 1 <= k < |bindings| ==> bindings[k] == bindings[1..][k - 1];
        rest
  }

  /** The first flagged binding is the one reported, whatever comes after it. */
  lemma {:induction false} FirstFlaggedBindingReported(bindings: seq<Binding>, k: nat)
    requires k < |bindings| && BindingViolation(bindings[k]).Some?
    requires forall j :: 0 <= j < k ==> BindingViolation(bindings[j]).None?
    ensures VariableDeclViolations(bindings) == [BindingViolation(bindings[k]).value]
  {
    if k > 0 {
      assert BindingViolation(bindings[0]).None?;
      assert forall j :: 0 <= j < k - 1 ==> bindings[1..][j] == bindings[j + 1];
      FirstFlaggedBindingReported(bindings[1..], k - 1);
    }
  }

  /**
   * The early return: once a prefix of the bindings has raised its violation,
   * the bindings after it add nothing; a prefix that raises nothing leaves the
   * decision to the rest.
   */
  lemma {:induction false} EarlyReturn(a: seq<Binding>, b: seq<Binding>)
    ensures VariableDeclViolations(a) != [] ==> VariableDeclViolations(a + b) == VariableDeclViolations(a)
    ensures VariableDeclViolations(a) == [] ==> VariableDeclViolations(a + b) == VariableDeclViolations(b)
  {
    if a == [] {
      assert a + b == b;
    } else {
      assert (a + b)[0] == a[0];
      assert (a + b)[1..] == a[1..] + b;
      EarlyReturn(a[1..], b);
    }
  }

  /**
   * The callbacks this rule's visitor overrides, calls and variable
   * declarations; every other node kind, member accesses included, appends
   * nothing.
   */
  function NodeViolations(n: Node): (r: seq<Violation>)
    ensures |r| <= 1
    ensures n.ExprNode? && !n.expr.Call? ==> r == []
    ensures n.AttributeNode? || (n.StmtNode? && !n.stmt.VariableDecl?) ==> r == []
  {
    match n
    case ExprNode(e) => if e.Call? then CallViolations(e) else []
    case StmtNode(s) => if s.VariableDecl? then VariableDeclViolations(s.bindings) else []
    case AttributeNode(_) => []
  }

  /**
   * The violations of one walk over a file: what the callbacks append, node
   * by node, in the walk's post-order. Each node adds at most one.
   */
  function Lint(file: seq<Stmt>): (r: seq<Violation>)
    ensures |r| <= |FileNodes(file)|
  {
    CollectBound(NodeViolations, FileNodes(file));
    Collect(NodeViolations, FileNodes(file))
  }

  class Visitor {
    var violations: seq<Violation>

    constructor ()
      ensures violations == []
    {
      violations := [];
    }

    method VisitPostFunctionCall(node: Expr)
      requires node.Call?
      modifies this
      ensures violations == old(violations) + CallViolations(node)
    {
      if node.callee.Identifier? && node.callee.name == RestrictedType && |node.args| == 0 {
        violations := violations + [At(node.pos)];
      }
      if node.callee.MemberAccess? && node.callee.base.Some? && node.callee.base.value.Identifier?
         && node.callee.base.value.name == RestrictedType
      {
        violations := violations + [At(node.pos)];
      }
    }

    method VisitPostVariableDecl(node: Stmt)
      requires node.VariableDecl?
      modifies this
      ensures violations == old(violations) + VariableDeclViolations(node.bindings)
    {
      var bindings := node.bindings;
      var i := 0;
      while i < |bindings|
        invariant 0 <= i <= |bindings|
        invariant violations == old(violations)
        invariant VariableDeclViolations(bindings) == VariableDeclViolations(bindings[i..])
      {
        var binding := bindings[i];
        assert bindings[i..][0] == binding && bindings[i..][1..] == bindings[i + 1..];
        if binding.initializer.Some? && binding.initializer.value.MemberAccess?
           && binding.initializer.value.base.Some? && binding.initializer.value.base.value.Identifier?
           && binding.initializer.value.base.value.name == RestrictedType
           && binding.initializer.value.name != SanctionedAccessor
        {
          violations := violations + [At(binding.initializer.value.pos)];
          return;
        } else if binding.initializer.Some? && binding.initializer.value.Call?
                  && binding.initializer.value.callee.MemberAccess?
                  && binding.initializer.value.callee.base.Some?
                  && binding.initializer.value.callee.base.value.Identifier?
                  && binding.initializer.value.callee.base.value.name == RestrictedType
        {
          violations := violations + [At(binding.initializer.value.callee.pos)];
          return;
        }
        i := i + 1;
      }
    }
  }

  /**
   * `let x = DateFormatter.m(...)` is reported twice, for any member `m`: once
   * by the call check at the call and once by the declaration check at the
   * member access. Nothing removes the duplicate.
   */
  lemma MemberCallInDeclarationReportedTwice(p: Pattern, id: Expr, m: string, namePos: Position, pos: Position,
                                             text: string, trailing: bool, extra: nat, callPos: Position,
                                             callText: string)
    requires IsIdentifierNamed(id, RestrictedType)
    ensures Lint([VariableDecl([], [Binding(p, Some(Call(MemberAccess(Some(id), m, namePos, pos, text), [],
                                                          trailing, extra, callPos, callText)))])])
            == [At(callPos), At(pos)]
  {
    var ma := MemberAccess(Some(id), m, namePos, pos, text);
    var call := Call(ma, [], trailing, extra, callPos, callText);
    var decl := VariableDecl([], [Binding(p, Some(call))]);
    FileOfOne(decl);
    CollectVariableDecl(NodeViolations, decl);
    BindingsOfOne(decl, Binding(p, Some(call)));
    CollectCall(NodeViolations, call);
    CollectMemberAccess(NodeViolations, ma);
  }

  /** Without a declaration around it, `DateFormatter.m` is not reported: no callback sees member accesses. */
  lemma BareMemberAccessSilent(id: Expr, m: string, namePos: Position, pos: Position, text: string)
    requires IsIdentifierNamed(id, RestrictedType)
    ensures Lint([ExprStmt(MemberAccess(Some(id), m, namePos, pos, text))]) == []
  {
    var ma := MemberAccess(Some(id), m, namePos, pos, text);
    FileOfOne(ExprStmt(ma));
    CollectStmt(NodeViolations, ExprStmt(ma));
    CollectMemberAccess(NodeViolations, ma);
  }

  /** A declaration `let x = e` without attributes is walked as `e`, then the declaration. */
  lemma {:induction false} LetWalk(p: Pattern, e: Expr)
    ensures Lint([VariableDecl([], [Binding(p, Some(e))])])
            == Collect(NodeViolations, ExprNodes(e)) + VariableDeclViolations([Binding(p, Some(e))])
  {
    var decl := VariableDecl([], [Binding(p, Some(e))]);
    FileOfOne(decl);
    CollectVariableDecl(NodeViolations, decl);
    BindingsOfOne(decl, Binding(p, Some(e)));
  }

  // The rule's own examples. A violation's position is the offset of the example's marker.

  /** `let df = DateFormatter.whatnotFormatter` raises nothing. */
  lemma ExampleLetWhatnotFormatter()
    ensures Lint([VariableDecl([], [Binding(IdentifierPattern("df"), Some(
              MemberAccess(Some(Identifier("DateFormatter", 9, "DateFormatter")), "whatnotFormatter", 23, 9,
                           "DateFormatter.whatnotFormatter")))])])
            == []
  {
    var ma := MemberAccess(Some(Identifier("DateFormatter", 9, "DateFormatter")), "whatnotFormatter", 23, 9,
                           "DateFormatter.whatnotFormatter");
    LetWalk(IdentifierPattern("df"), ma);
    CollectMemberAccess(NodeViolations, ma);
    CollectIdentifier(NodeViolations, ma.base.value);
  }

  /** `DateFormatter.whatnotFormatter` raises nothing. */
  lemma ExampleWhatnotFormatter()
    ensures Lint([ExprStmt(MemberAccess(Some(Identifier("DateFormatter", 0, "DateFormatter")), "whatnotFormatter", 14, 0,
                                        "DateFormatter.whatnotFormatter"))])
            == []
  {
    BareMemberAccessSilent(Identifier("DateFormatter", 0, "DateFormatter"), "whatnotFormatter", 14, 0,
                           "DateFormatter.whatnotFormatter");
  }

  /** `let df = DateFormatter()` is reported once, at the construction. */
  lemma ExampleLetConstruct()
    ensures Lint([VariableDecl([], [Binding(IdentifierPattern("df"), Some(
              Call(Identifier("DateFormatter", 9, "DateFormatter"), [], false, 0, 9, "DateFormatter()")))])])
            == [At(9)]
  {
    var call := Call(Identifier("DateFormatter", 9, "DateFormatter"), [], false, 0, 9, "DateFormatter()");
    LetWalk(IdentifierPattern("df"), call);
    CollectCall(NodeViolations, call);
    CollectIdentifier(NodeViolations, call.callee);
    assert ArgNodes(call, []) == [];
  }

  /** `DateFormatter.init()` is reported once, at the call. */
  lemma ExampleInit()
    ensures Lint([ExprStmt(Call(MemberAccess(Some(Identifier("DateFormatter", 0, "DateFormatter")), "init", 14, 0,
                                             "DateFormatter.init"), [], false, 0, 0, "DateFormatter.init()"))])
            == [At(0)]
  {
    var ma := MemberAccess(Some(Identifier("DateFormatter", 0, "DateFormatter")), "init", 14, 0, "DateFormatter.init");
    var call := Call(ma, [], false, 0, 0, "DateFormatter.init()");
    FileOfOne(ExprStmt(call));
    CollectStmt(NodeViolations, ExprStmt(call));
    CollectCall(NodeViolations, call);
    CollectMemberAccess(NodeViolations, ma);
    CollectIdentifier(NodeViolations, ma.base.value);
    assert ArgNodes(call, []) == [];
  }

  /** `DateFormatter()` is reported once, at the call. */
  lemma ExampleConstruct()
    ensures Lint([ExprStmt(Call(Identifier("DateFormatter", 0, "DateFormatter"), [], false, 0, 0, "DateFormatter()"))])
            == [At(0)]
  {
    var call := Call(Identifier("DateFormatter", 0, "DateFormatter"), [], false, 0, 0, "DateFormatter()");
    FileOfOne(ExprStmt(call));
    CollectStmt(NodeViolations, ExprStmt(call));
    CollectCall(NodeViolations, call);
    CollectIdentifier(NodeViolations, call.callee);
    assert ArgNodes(call, []) == [];
  }

  /** `let df = DateFormatter.anotherStaticInit` is reported once, at the member access. */
  lemma ExampleLetStaticMember()
    ensures Lint([VariableDecl([], [Binding(IdentifierPattern("df"), Some(
              MemberAccess(Some(Identifier("DateFormatter", 9, "DateFormatter")), "anotherStaticInit", 23, 9,
                           "DateFormatter.anotherStaticInit")))])])
            == [At(9)]
  {
    var ma := MemberAccess(Some(Identifier("DateFormatter", 9, "DateFormatter")), "anotherStaticInit", 23, 9,
                           "DateFormatter.anotherStaticInit");
    LetWalk(IdentifierPattern("df"), ma);
    CollectMemberAccess(NodeViolations, ma);
    CollectIdentifier(NodeViolations, ma.base.value);
  }
}
