/**
 * `unused_enumerated`: in `for (a, b) in x.enumerated()`, a wildcard index
 * means `.enumerated()` can go, and a wildcard item means `.indices` should
 * be used instead. When both are wildcards, only the index is reported.
 */
module UnusedEnumeratedRule {
  import opened Syntax

  const RuleIdentifier: string := "unused_enumerated"
  const DefaultConfiguration := SeverityConfiguration(Warning)

  const IndexUnusedReason: string := "When the index is not used, `.enumerated()` can be removed"
  const ItemUnusedReason: string := "When the item is not used, `.indices` should be used instead of `.enumerated()`"

  /** No arguments, no trailing closure and no additional trailing closures. */
  predicate HasNoArguments(call: Expr)
    requires call.Call?
  {
    !call.trailingClosure && call.extraTrailingClosures == 0 && call.args == []
  }

  /** `base.enumerated()` for any base, called with nothing at all. */
  predicate IsEnumerated(call: Expr)
    requires call.Call?
  {
    call.callee.MemberAccess? && call.callee.base.Some? && call.callee.name == "enumerated" && HasNoArguments(call)
  }

  /** The element's own pattern is `_`; a nested tuple holding `_` is not. */
  predicate IsUnderscore(element: TupleElement)
  {
    element.pattern.WildcardPattern?
  }

  /** The loop destructures a pair out of an `enumerated()` call: the shape the rule inspects. */
  predicate DestructuresEnumerated(node: Stmt)
    requires node.ForStmt?
  {
    node.pattern.TuplePattern? && |node.pattern.elements| == 2 && node.sequence.Call? && IsEnumerated(node.sequence)
  }

  /** What `visitPost(ForStmt)` appends for `node`. */
  function ForStmtViolations(node: Stmt): (r: seq<Violation>)
    requires node.ForStmt?
    ensures |r| <= 1
    ensures r != [] <==> DestructuresEnumerated(node)
                         && (IsUnderscore(node.pattern.elements[0]) || IsUnderscore(node.pattern.elements[1]))
    ensures DestructuresEnumerated(node) && IsUnderscore(node.pattern.elements[0])
            ==> r == [Violation(node.pattern.elements[0].pos, Some(IndexUnusedReason), None)]
    ensures DestructuresEnumerated(node) && !IsUnderscore(node.pattern.elements[0]) && IsUnderscore(node.pattern.elements[1])
            ==> r == [Violation(node.pattern.elements[1].pos, Some(ItemUnusedReason), None)]
  {
    if !DestructuresEnumerated(node) then []
    else
      var first, second := node.pattern.elements[0], node.pattern.elements[1];
      if IsUnderscore(first) then [Violation(first.pos, Some(IndexUnusedReason), None)]
      else if IsUnderscore(second) then [Violation(second.pos, Some(ItemUnusedReason), None)]
      else []
  }

  /** The callbacks this rule's visitor overrides; every other node kind appends nothing. */
  function NodeViolations(n: Node): (r: seq<Violation>)
    ensures |r| <= 1
    ensures !(n.StmtNode? && n.stmt.ForStmt?) ==> r == []
  {
    match n
    case StmtNode(s) => if s.ForStmt? then ForStmtViolations(s) else []
    case _ => []
  }

  /**
   * The violations of one walk over a file: what the callbacks append, node
   * by node, in the walk's post-order. Each node adds at most one.
   */
  function Lint(file: seq<Stmt>): (r: seq<Violation>)
    ensures |r| <= |FileNodes(file)|
  {
    CollectBound(NodeViolations, FileNodes(file));
    Collect(NodeViolations, FileNodes(file))
  }

  class Visitor {
    var violations: seq<Violation>

    constructor ()
      ensures violations == []
    {
      violations := [];
    }

    method VisitPostForStmt(node: Stmt)
      requires node.ForStmt?
      modifies this
      ensures violations == old(violations) + ForStmtViolations(node)
    {
      if !node.pattern.TuplePattern? || |node.pattern.elements| != 2 || !node.sequence.Call?
         || !IsEnumerated(node.sequence)
      {
        return;
      }
      var firstElement, secondElement := node.pattern.elements[0], node.pattern.elements[|node.pattern.elements| - 1];
      var firstTokenIsUnderscore, lastTokenIsUnderscore := IsUnderscore(firstElement), IsUnderscore(secondElement);
      if !(firstTokenIsUnderscore || lastTokenIsUnderscore) {
        return;
      }
      var position: Position;
      var reason: string;
      if firstTokenIsUnderscore {
        position, reason := firstElement.pos, IndexUnusedReason;
      } else {
        position, reason := secondElement.pos, ItemUnusedReason;
      }
      violations := violations + [Violation(position, Some(reason), None)];
    }
  }

  /**
   * A file holding one loop with an empty body is reported exactly as that loop
   * is: no expression node raises anything under this rule, whatever the
   * receiver of `enumerated()` is.
   */
  lemma {:induction false} LoneLoopReported(loop: Stmt)
    requires loop.ForStmt? && loop.body == []
    ensures Lint([loop]) == ForStmtViolations(loop)
  {
    FileOfOne(loop);
    CollectForStmt(NodeViolations, loop);
    CollectSilentExpr(NodeViolations, loop.sequence);
  }

  /** Dropping the index of `b.enumerated()` is reported at the index for any receiver `b`. */
  lemma AnyReceiverReported(b: Expr, second: TupleElement, indexPos: Position, namePos: Position,
                            pos: Position, text: string, callPos: Position, callText: string, body: seq<Stmt>)
    ensures ForStmtViolations(ForStmt(TuplePattern([TupleElement(WildcardPattern, indexPos), second]),
                                      Call(MemberAccess(Some(b), "enumerated", namePos, pos, text), [], false, 0, callPos, callText),
                                      body))
            == [Violation(indexPos, Some(IndexUnusedReason), None)]
  {
  }

  /** With both elements `_`, only the index is reported: the second branch is never reached. */
  lemma BothUnusedReportsIndexOnly(p0: Position, p1: Position, sequence: Expr, body: seq<Stmt>)
    requires sequence.Call? && IsEnumerated(sequence)
    ensures ForStmtViolations(ForStmt(TuplePattern([TupleElement(WildcardPattern, p0), TupleElement(WildcardPattern, p1)]),
                                      sequence, body))
            == [Violation(p0, Some(IndexUnusedReason), None)]
  {
  }

  // The rule's own examples, each a file of one loop. A violation's position is the offset of the example's marker.

  const BothUsedLoop := ForStmt(TuplePattern([TupleElement(IdentifierPattern("idx"), 5), TupleElement(IdentifierPattern("foo"), 10)]),
            Call(MemberAccess(Some(Identifier("bar", 18, "bar")), "enumerated", 22, 18, "bar.enumerated"),
                 [], false, 0, 18, "bar.enumerated()"), [])

  /** `for (idx, foo) in bar.enumerated() { }` raises nothing. */
  lemma ExampleBothUsed()
    ensures Lint([BothUsedLoop]) == []
  {
    LoneLoopReported(BothUsedLoop);
  }

  const TrailingCallLoop := ForStmt(TuplePattern([TupleElement(WildcardPattern, 5), TupleElement(IdentifierPattern("foo"), 8)]),
            Call(MemberAccess(Some(Call(MemberAccess(Some(Identifier("bar", 16, "bar")), "enumerated", 20, 16, "bar.enumerated"),
                                        [], false, 0, 16, "bar.enumerated()")),
                              "something", 33, 16, "bar.enumerated().something"),
                 [], false, 0, 16, "bar.enumerated().something()"), [])

  /** `for (_, foo) in bar.enumerated().something() { }` raises nothing: the loop does not iterate `enumerated()` itself. */
  lemma ExampleTrailingCall()
    ensures Lint([TrailingCallLoop]) == []
  {
    LoneLoopReported(TrailingCallLoop);
  }

  const OtherCallLoop := ForStmt(TuplePattern([TupleElement(WildcardPattern, 5), TupleElement(IdentifierPattern("foo"), 8)]),
            Call(MemberAccess(Some(Identifier("bar", 16, "bar")), "something", 20, 16, "bar.something"),
                 [], false, 0, 16, "bar.something()"), [])

  /** `for (_, foo) in bar.something() { }` raises nothing. */
  lemma ExampleOtherCall()
    ensures Lint([OtherCallLoop]) == []
  {
    LoneLoopReported(OtherCallLoop);
  }

  const NoTupleLoop := ForStmt(IdentifierPattern("foo"),
            Call(MemberAccess(Some(Identifier("bar", 11, "bar")), "enumerated", 15, 11, "bar.enumerated"),
                 [], false, 0, 11, "bar.enumerated()"), [])

  /** `for foo in bar.enumerated() { }` raises nothing: the pattern is not a tuple. */
  lemma ExampleNoTuple()
    ensures Lint([NoTupleLoop]) == []
  {
    LoneLoopReported(NoTupleLoop);
  }

  const PlainLoopLoop := ForStmt(IdentifierPattern("foo"), Identifier("bar", 11, "bar"), [])

  /** `for foo in bar { }` raises nothing. */
  lemma ExamplePlainLoop()
    ensures Lint([PlainLoopLoop]) == []
  {
    LoneLoopReported(PlainLoopLoop);
  }

  const ItemUnusedTrailingCallLoop := ForStmt(TuplePattern([TupleElement(IdentifierPattern("idx"), 5), TupleElement(WildcardPattern, 10)]),
            Call(MemberAccess(Some(Call(MemberAccess(Some(Identifier("bar", 16, "bar")), "enumerated", 20, 16, "bar.enumerated"),
                                        [], false, 0, 16, "bar.enumerated()")),
                              "something", 33, 16, "bar.enumerated().something"),
                 [], false, 0, 16, "bar.enumerated().something()"), [])

  /** `for (idx, _) in bar.enumerated().something() { }` raises nothing. */
  lemma ExampleItemUnusedTrailingCall()
    ensures Lint([ItemUnusedTrailingCallLoop]) == []
  {
    LoneLoopReported(ItemUnusedTrailingCallLoop);
  }

  const ItemUnusedOtherCallLoop := ForStmt(TuplePattern([TupleElement(IdentifierPattern("idx"), 5), TupleElement(WildcardPattern, 10)]),
            Call(MemberAccess(Some(Identifier("bar", 16, "bar")), "something", 20, 16, "bar.something"),
                 [], false, 0, 16, "bar.something()"), [])

  /** `for (idx, _) in bar.something() { }` raises nothing. */
  lemma ExampleItemUnusedOtherCall()
    ensures Lint([ItemUnusedOtherCallLoop]) == []
  {
    LoneLoopReported(ItemUnusedOtherCallLoop);
  }

  const IndicesLoop := ForStmt(IdentifierPattern("idx"), MemberAccess(Some(Identifier("bar", 11, "bar")), "indices", 15, 11, "bar.indices"), [])

  /** `for idx in bar.indices { }` raises nothing. */
  lemma ExampleIndices()
    ensures Lint([IndicesLoop]) == []
  {
    LoneLoopReported(IndicesLoop);
  }

  const NestedTupleLoop := ForStmt(TuplePattern([TupleElement(IdentifierPattern("section"), 5),
                          TupleElement(TuplePattern([TupleElement(IdentifierPattern("event"), 15),
                                                     TupleElement(WildcardPattern, 22)]), 14)]),
            Call(MemberAccess(Some(Identifier("data", 29, "data")), "enumerated", 34, 29, "data.enumerated"),
                 [], false, 0, 29, "data.enumerated()"), [])

  /** `for (section, (event, _)) in data.enumerated() {}` raises nothing: the `_` sits in a nested tuple. */
  lemma ExampleNestedTuple()
    ensures Lint([NestedTupleLoop]) == []
  {
    LoneLoopReported(NestedTupleLoop);
  }

  const IndexUnusedLoop := ForStmt(TuplePattern([TupleElement(WildcardPattern, 5), TupleElement(IdentifierPattern("foo"), 8)]),
            Call(MemberAccess(Some(Identifier("bar", 16, "bar")), "enumerated", 20, 16, "bar.enumerated"),
                 [], false, 0, 16, "bar.enumerated()"), [])

  /** `for (_, foo) in bar.enumerated() { }` is reported once, at the `_`. */
  lemma ExampleIndexUnused()
    ensures Lint([IndexUnusedLoop]) == [Violation(5, Some(IndexUnusedReason), None)]
  {
    LoneLoopReported(IndexUnusedLoop);
  }

  const IndexUnusedMemberReceiverLoop := ForStmt(TuplePattern([TupleElement(WildcardPattern, 5), TupleElement(IdentifierPattern("foo"), 8)]),
            Call(MemberAccess(Some(MemberAccess(Some(Identifier("abc", 16, "abc")), "bar", 20, 16, "abc.bar")),
                              "enumerated", 24, 16, "abc.bar.enumerated"),
                 [], false, 0, 16, "abc.bar.enumerated()"), [])

  /** `for (_, foo) in abc.bar.enumerated() { }` is reported once, at the `_`. */
  lemma ExampleIndexUnusedMemberReceiver()
    ensures Lint([IndexUnusedMemberReceiverLoop]) == [Violation(5, Some(IndexUnusedReason), None)]
  {
    LoneLoopReported(IndexUnusedMemberReceiverLoop);
  }

  const IndexUnusedCallReceiverLoop := ForStmt(TuplePattern([TupleElement(WildcardPattern, 5), TupleElement(IdentifierPattern("foo"), 8)]),
            Call(MemberAccess(Some(Call(MemberAccess(Some(Identifier("abc", 16, "abc")), "something", 20, 16, "abc.something"),
                                        [], false, 0, 16, "abc.something()")),
                              "enumerated", 32, 16, "abc.something().enumerated"),
                 [], false, 0, 16, "abc.something().enumerated()"), [])

  /** `for (_, foo) in abc.something().enumerated() { }` is reported once, at the `_`. */
  lemma ExampleIndexUnusedCallReceiver()
    ensures Lint([IndexUnusedCallReceiverLoop]) == [Violation(5, Some(IndexUnusedReason), None)]
  {
    LoneLoopReported(IndexUnusedCallReceiverLoop);
  }

  const ItemUnusedLoop := ForStmt(TuplePattern([TupleElement(IdentifierPattern("idx"), 5), TupleElement(WildcardPattern, 10)]),
            Call(MemberAccess(Some(Identifier("bar", 16, "bar")), "enumerated", 20, 16, "bar.enumerated"),
                 [], false, 0, 16, "bar.enumerated()"), [])

  /** `for (idx, _) in bar.enumerated() { }` is reported once, at the `_`. */
  lemma ExampleItemUnused()
    ensures Lint([ItemUnusedLoop]) == [Violation(10, Some(ItemUnusedReason), None)]
  {
    LoneLoopReported(ItemUnusedLoop);
  }
}
