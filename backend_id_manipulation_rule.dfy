/**
 * `backend_id_manipulation`: backend IDs are opaque values. The rule flags
 * reads of the decoded forms of an ID, calls of the ID encoding and decoding
 * helpers, hand-written base64 encoding and colon splitting of IDs, and the
 * `@EncodedWhatnotID` property wrapper. Names are matched by their text;
 * the two heuristics look at the source text of an expression.
 */
module BackendIDManipulationRule {
  import opened Syntax

  const RuleIdentifier: string := "backend_id_manipulation"
  const DefaultConfiguration := SeverityConfiguration(Error)

  /** Members that read a decoded form of an ID; flagged wherever they are accessed. */
  const DecodedMembers: set<string> := {"canonicalId", "decodedNumericId", "unsignedIntID"}
  /** Methods that encode or decode an ID; flagged wherever they are called. */
  const ManipulationMethods: set<string> := {"decodedIdentifier", "encodedUserId", "encodedIdWithName"}
  const EncodingMethod: string := "base64EncodedString"
  const SplittingMethod: string := "split"
  const SeparatorLabel: string := "separator"
  const WrapperAttribute: string := "EncodedWhatnotID"

  /** `p` occurs in `s` starting at offset `i`. */
  predicate OccursAt(s: string, p: string, i: int)
  {
    0 <= i && i + |p| <= |s| && s[i..i + |p|] == p
  }

  /** `s` contains `p` as a contiguous run of characters. */
  predicate Contains(s: string, p: string)
  {
    exists i :: 0 <= i <= |s| && OccursAt(s, p, i)
  }

  /** Every character of a contained string occurs in the containing one. */
  lemma ContainedCharacters(s: string, p: string, j: nat)
    requires Contains(s, p) && j < |p|
    ensures p[j] in s
  {
    var i :| 0 <= i <= |s| && OccursAt(s, p, i);
    assert s[i + j] == s[i..i + |p|][j];
  }

  /** The text of `base` has the three marks of `Data("<Model>Node:" + id .utf8)`. */
  predicate IsManualIDEncoding(base: Option<Expr>): (r: bool)
    ensures r ==> base.Some? && 'N' in base.value.text && ':' in base.value.text
  {
    var r := base.Some? && Contains(base.value.text, "Data(") && Contains(base.value.text, "Node:")
             && Contains(base.value.text, ".utf8");
    if r then
      ContainedCharacters(base.value.text, "Node:", 0);
      ContainedCharacters(base.value.text, "Node:", 4);
      r
    else r
  }

  /**
   * `node` calls a member named `split` whose first argument is labelled
   * `separator` and whose text contains `":"|` or `":"`.
   */
  predicate IsManualIDDecoding(node: Expr): (r: bool)
    requires node.Call?
    ensures r <==> node.callee.MemberAccess? && node.callee.name == SplittingMethod
                   && |node.args| > 0 && node.args[0].argLabel == Some(SeparatorLabel)
                   && Contains(node.args[0].value.text, "\":\"")
    ensures r ==> ':' in node.args[0].value.text
  {
    ColonPipeSeparatorRedundant(if |node.args| > 0 then node.args[0].value.text else "");
    var r := node.callee.MemberAccess? && node.callee.name == SplittingMethod
             && |node.args| > 0 && node.args[0].argLabel == Some(SeparatorLabel)
             && (Contains(node.args[0].value.text, "\":\"|") || Contains(node.args[0].value.text, "\":\""));
    if r then
      ContainedCharacters(node.args[0].value.text, "\":\"", 1);
      r
    else r
  }

  /** The first of the two separator texts the decoding check looks for adds nothing: it contains the second. */
  lemma ColonPipeSeparatorRedundant(s: string)
    ensures Contains(s, "\":\"|") ==> Contains(s, "\":\"")
  {
    if Contains(s, "\":\"|") {
      var i :| 0 <= i <= |s| && OccursAt(s, "\":\"|", i);
      assert s[i..i + 3] == s[i..i + 4][..3];
      assert OccursAt(s, "\":\"", i);
    }
  }

  /** What `checkMemberAccess` appends for `node`: one violation at the member name, for a decoded-form member. */
  function MemberAccessViolations(node: Expr): (r: seq<Violation>)
    requires node.MemberAccess?
    ensures r == [] || r == [At(node.namePos)]
    ensures r != [] <==> node.name in DecodedMembers
  {
    if node.name in DecodedMembers then [At(node.namePos)] else []
  }

  /**
   * What `checkFunctionCall` appends for `node`: nothing unless the callee is
   * a member access, and then at most one violation, at the member name.
   */
  function CallViolations(node: Expr): (r: seq<Violation>)
    requires node.Call?
    ensures r == [] || (node.callee.MemberAccess? && r == [At(node.callee.namePos)])
    ensures r != [] <==> node.callee.MemberAccess?
                         && (node.callee.name in ManipulationMethods
                             || (node.callee.name == EncodingMethod && IsManualIDEncoding(node.callee.base))
                             || (node.callee.name == SplittingMethod && |node.args| > 0
                                 && node.args[0].argLabel == Some(SeparatorLabel)
                                 && Contains(node.args[0].value.text, "\":\"")))
  {
    if !node.callee.MemberAccess? then []
    else if node.callee.name in ManipulationMethods then [At(node.callee.namePos)]
    else if node.callee.name == EncodingMethod then
      (if IsManualIDEncoding(node.callee.base) then [At(node.callee.namePos)] else [])
    else if node.callee.name == SplittingMethod then
      (if IsManualIDDecoding(node) then [At(node.callee.namePos)] else [])
    else []
  }

  /** What `checkAttribute` appends for `node`: one violation at the attribute, for `@EncodedWhatnotID`. */
  function AttributeViolations(node: Attribute): (r: seq<Violation>)
    ensures r == [] || r == [At(node.pos)]
    ensures r != [] <==> node.attributeName == IdentifierType(WrapperAttribute)
  {
    if node.attributeName.IdentifierType? && node.attributeName.name == WrapperAttribute then [At(node.pos)] else []
  }

  /** The callbacks this rule's visitor overrides; every other node kind appends nothing. */
  function NodeViolations(n: Node): (r: seq<Violation>)
    ensures |r| <= 1
    ensures n.StmtNode? ==> r == []
    ensures n.ExprNode? && !n.expr.MemberAccess? && !n.expr.Call? ==> r == []
  {
    match n
    case ExprNode(e) =>
      if e.MemberAccess? then MemberAccessViolations(e)
      else if e.Call? then CallViolations(e)
      else []
    case AttributeNode(a) => AttributeViolations(a)
    case StmtNode(_) => []
  }

  /**
   * The violations of one walk over a file: what the callbacks append, node
   * by node, in the walk's post-order. Each node adds at most one.
   */
  function Lint(file: seq<Stmt>): (r: seq<Violation>)
    ensures |r| <= |FileNodes(file)|
  {
    CollectBound(NodeViolations, FileNodes(file));
    Collect(NodeViolations, FileNodes(file))
  }

  class Visitor {
    var violations: seq<Violation>

    constructor ()
      ensures violations == []
    {
      violations := [];
    }

    method VisitPostMemberAccess(node: Expr)
      requires node.MemberAccess?
      modifies this
      ensures violations == old(violations) + MemberAccessViolations(node)
    {
      var memberName := node.name;
      if memberName == "canonicalId" || memberName == "decodedNumericId" || memberName == "unsignedIntID" {
        violations := violations + [At(node.namePos)];
      }
    }

    method VisitPostFunctionCall(node: Expr)
      requires node.Call?
      modifies this
      ensures violations == old(violations) + CallViolations(node)
    {
      if !node.callee.MemberAccess? {
        return;
      }
      var memberAccess := node.callee;
      var methodName := memberAccess.name;
      if methodName == "decodedIdentifier" || methodName == "encodedUserId" || methodName == "encodedIdWithName" {
        violations := violations + [At(memberAccess.namePos)];
      } else if methodName == EncodingMethod {
        if IsManualIDEncoding(memberAccess.base) {
          violations := violations + [At(memberAccess.namePos)];
        }
      } else if methodName == SplittingMethod {
        if IsManualIDDecoding(node) {
          violations := violations + [At(memberAccess.namePos)];
        }
      }
    }

    method VisitPostAttribute(node: Attribute)
      modifies this
      ensures violations == old(violations) + AttributeViolations(node)
    {
      if !(node.attributeName.IdentifierType? && node.attributeName.name == WrapperAttribute) {
        return;
      }
      violations := violations + [At(node.pos)];
    }
  }

  // ---------------------------------------------------------------------
  // Whole walks
  // ---------------------------------------------------------------------

  /** `e` raises nothing when walked on its own. */
  predicate Silent(e: Expr)
  {
    Collect(NodeViolations, ExprNodes(e)) == []
  }

  /**
   * A statement calling a member `base.m(args)` is reported as the member
   * access check sees the callee and the call check sees the call, after
   * whatever the receiver and the arguments raise.
   */
  lemma {:induction false} MemberCallWalk(call: Expr)
    requires call.Call? && call.callee.MemberAccess?
    ensures Lint([ExprStmt(call)])
            == (if call.callee.base.Some? then Collect(NodeViolations, ExprNodes(call.callee.base.value)) else [])
               + MemberAccessViolations(call.callee)
               + Collect(NodeViolations, ArgNodes(call, call.args))
               + CallViolations(call)
  {
    FileOfOne(ExprStmt(call));
    CollectStmt(NodeViolations, ExprStmt(call));
    CollectCall(NodeViolations, call);
    CollectMemberAccess(NodeViolations, call.callee);
  }

  /**
   * A call `base.m(args)` whose receiver and arguments raise nothing is
   * reported at most once, at the member name: the names the member check
   * flags and the names the call check flags are disjoint.
   */
  lemma MemberCallReportedAtMostOnce(call: Expr)
    requires call.Call? && call.callee.MemberAccess?
    requires call.callee.base.Some? ==> Silent(call.callee.base.value)
    requires Collect(NodeViolations, ArgNodes(call, call.args)) == []
    ensures Lint([ExprStmt(call)]) == [] || Lint([ExprStmt(call)]) == [At(call.callee.namePos)]
    ensures Lint([ExprStmt(call)]) != [] <==> call.callee.name in DecodedMembers || CallViolations(call) != []
  {
    MemberCallWalk(call);
  }

  /** Calling an encoding or decoding helper is reported at the method name, whatever the receiver and arguments. */
  lemma ManipulationMethodCallReported(call: Expr)
    requires call.Call? && call.callee.MemberAccess? && call.callee.name in ManipulationMethods
    requires call.callee.base.Some? ==> Silent(call.callee.base.value)
    requires Collect(NodeViolations, ArgNodes(call, call.args)) == []
    ensures Lint([ExprStmt(call)]) == [At(call.callee.namePos)]
  {
    MemberCallWalk(call);
  }

  /** Reading a decoded-form member is reported at the member name, whatever the receiver. */
  lemma {:induction false} DecodedMemberReported(node: Expr)
    requires node.MemberAccess? && node.name in DecodedMembers
    requires node.base.Some? ==> Silent(node.base.value)
    ensures Lint([ExprStmt(node)]) == [At(node.namePos)]
  {
    FileOfOne(ExprStmt(node));
    CollectStmt(NodeViolations, ExprStmt(node));
    CollectMemberAccess(NodeViolations, node);
  }

  /** A call whose callee is not a member access (a bare `EncodedWhatnotID(...)` among them) adds nothing itself. */
  lemma NonMemberCalleeSilent(call: Expr)
    requires call.Call? && !call.callee.MemberAccess?
    ensures NodeViolations(ExprNode(call)) == []
  {
  }

  /** `split` with a first `separator` argument whose text has no colon is not reported. */
  lemma SplitWithoutColonSilent(call: Expr)
    requires call.Call? && call.callee.MemberAccess? && call.callee.name == SplittingMethod
    requires |call.args| > 0 && ':' !in call.args[0].value.text
    ensures CallViolations(call) == []
  {
  }

  /** `split` with a first `separator` argument whose text contains the quoted colon is reported at `split`. */
  lemma SplitWithColonReported(call: Expr)
    requires call.Call? && call.callee.MemberAccess? && call.callee.name == SplittingMethod
    requires |call.args| > 0 && call.args[0].argLabel == Some(SeparatorLabel)
    requires Contains(call.args[0].value.text, "\":\"")
    ensures CallViolations(call) == [At(call.callee.namePos)]
  {
  }

  /** `base64EncodedString` on a receiver whose text holds `Data(`, `Node:` and `.utf8` is reported at the method name. */
  lemma ManualEncodingReported(call: Expr)
    requires call.Call? && call.callee.MemberAccess? && call.callee.name == EncodingMethod
    requires IsManualIDEncoding(call.callee.base)
    ensures CallViolations(call) == [At(call.callee.namePos)]
  {
  }

  /** `base64EncodedString` on a receiver whose text has no `N` is not reported. */
  lemma EncodingWithoutNodeSilent(call: Expr)
    requires call.Call? && call.callee.MemberAccess? && call.callee.name == EncodingMethod
    requires call.callee.base.Some? ==> 'N' !in call.callee.base.value.text
    ensures CallViolations(call) == []
  {
  }

  // ---------------------------------------------------------------------
  // The rule's own examples. Positions are offsets into the example's text
  // with its marker removed; the reported position is the member name (or
  // the attribute), which is where the code reports.
  // ---------------------------------------------------------------------

  /** `let <name> = <e>` */
  function Let(name: string, e: Expr): Stmt
  {
    VariableDecl([], [Binding(IdentifierPattern(name), Some(e))])
  }

  /** A declaration `let x = e` without attributes is reported as `e` on its own. */
  lemma {:induction false} LetWalk(name: string, e: Expr)
    ensures Lint([Let(name, e)]) == Lint([ExprStmt(e)])
  {
    var decl := Let(name, e);
    FileOfOne(decl);
    CollectVariableDecl(NodeViolations, decl);
    BindingsOfOne(decl, Binding(IdentifierPattern(name), Some(e)));
    FileOfOne(ExprStmt(e));
    CollectStmt(NodeViolations, ExprStmt(e));
  }

  /** `let userID = user.id` raises nothing. */
  lemma ExampleDirectUsage()
    ensures Lint([Let("userID", MemberAccess(Some(Identifier("user", 13, "user")), "id", 18, 13, "user.id"))]) == []
  {
    LetWalk("userID", MemberAccess(Some(Identifier("user", 13, "user")), "id", 18, 13, "user.id"));
  }

  /** `let directUsage = listing.id` raises nothing. */
  lemma ExampleDirectIDUsage()
    ensures Lint([Let("directUsage", MemberAccess(Some(Identifier("listing", 18, "listing")), "id", 26, 18, "listing.id"))])
            == []
  {
    LetWalk("directUsage", MemberAccess(Some(Identifier("listing", 18, "listing")), "id", 26, 18, "listing.id"));
  }

  /** `if user.id == otherUser.id { }` raises nothing. */
  lemma ExampleDirectComparison()
    ensures Lint([OtherStmt([OtherExpr([MemberAccess(Some(Identifier("user", 3, "user")), "id", 8, 3, "user.id"),
                                        MemberAccess(Some(Identifier("otherUser", 14, "otherUser")), "id", 24, 14,
                                                     "otherUser.id")],
                                       3, "user.id == otherUser.id")], [])])
            == []
  {
    var left := MemberAccess(Some(Identifier("user", 3, "user")), "id", 8, 3, "user.id");
    var right := MemberAccess(Some(Identifier("otherUser", 14, "otherUser")), "id", 24, 14, "otherUser.id");
    var comparison := OtherExpr([left, right], 3, "user.id == otherUser.id");
    var statement := OtherStmt([comparison], []);
    FileOfOne(statement);
    CollectOtherStmtOfOne(NodeViolations, statement);
    CollectOtherExpr(NodeViolations, comparison);
    CollectSubexprsOfTwo(NodeViolations, comparison, left, right);
    CollectMemberAccess(NodeViolations, left);
    CollectMemberAccess(NodeViolations, right);
  }

  /** `identity.unsignedIntIDForLiveXP` raises nothing: member names are matched exactly. */
  lemma ExampleLongerMemberName()
    ensures Lint([ExprStmt(MemberAccess(Some(Identifier("identity", 0, "identity")), "unsignedIntIDForLiveXP", 9, 0,
                                        "identity.unsignedIntIDForLiveXP"))])
            == []
  {
  }

  /** `identity.canonicalIDForAnalytics` raises nothing. */
  lemma ExampleOtherLongerMemberName()
    ensures Lint([ExprStmt(MemberAccess(Some(Identifier("identity", 0, "identity")), "canonicalIDForAnalytics", 9, 0,
                                        "identity.canonicalIDForAnalytics"))])
            == []
  {
  }

  /** `let canonical = data.canonicalForm` raises nothing. */
  lemma ExampleCanonicalForm()
    ensures Lint([Let("canonical", MemberAccess(Some(Identifier("data", 16, "data")), "canonicalForm", 21, 16,
                                                "data.canonicalForm"))])
            == []
  {
    LetWalk("canonical", MemberAccess(Some(Identifier("data", 16, "data")), "canonicalForm", 21, 16, "data.canonicalForm"));
  }

  /** `image.jpegData()` */
  const JpegData := Call(MemberAccess(Some(Identifier("image", 5, "image")), "jpegData", 11, 5, "image.jpegData"),
                         [], false, 0, 5, "image.jpegData()")
  /** `Data(image.jpegData())` */
  const JpegBytes := Call(Identifier("Data", 0, "Data"), [Arg(None, JpegData)], false, 0, 0, "Data(image.jpegData())")

  /** A call of a plain identifier with one argument is walked as the argument, then the call. */
  lemma {:induction false} IdentifierCallWalk(call: Expr)
    requires call.Call? && call.callee.Identifier? && |call.args| == 1
    ensures Collect(NodeViolations, ExprNodes(call)) == Collect(NodeViolations, ExprNodes(call.args[0].value)) + CallViolations(call)
  {
    CollectCall(NodeViolations, call);
    CollectIdentifier(NodeViolations, call.callee);
    assert call.args == [call.args[0]];
    ArgsOfOne(call, call.args[0]);
  }

  /** The receiver `Data(image.jpegData())` raises nothing. */
  lemma JpegBytesSilent()
    ensures Silent(JpegBytes)
  {
    assert Silent(JpegData) by {
      CollectCall(NodeViolations, JpegData);
      CollectMemberAccess(NodeViolations, JpegData.callee);
      CollectIdentifier(NodeViolations, JpegData.callee.base.value);
      assert ArgNodes(JpegData, []) == [];
    }
    IdentifierCallWalk(JpegBytes);
  }

  /** The receiver's text has no `N`, so no `Node:` either. */
  lemma JpegBytesHasNoNode()
    ensures 'N' !in JpegBytes.text
  {
  }

  /** `Data(image.jpegData()).base64EncodedString()` raises nothing: the receiver's text has no `Node:`. */
  lemma ExampleNonIDBase64()
    ensures Lint([ExprStmt(Call(MemberAccess(Some(JpegBytes), EncodingMethod, 23, 0,
                                             "Data(image.jpegData()).base64EncodedString"),
                                [], false, 0, 0, "Data(image.jpegData()).base64EncodedString()"))])
            == []
  {
    var call := Call(MemberAccess(Some(JpegBytes), EncodingMethod, 23, 0, "Data(image.jpegData()).base64EncodedString"),
                     [], false, 0, 0, "Data(image.jpegData()).base64EncodedString()");
    JpegBytesSilent();
    JpegBytesHasNoNode();
    EncodingWithoutNodeSilent(call);
    assert MemberAccessViolations(call.callee) == [];
    assert ArgNodes(call, []) == [];
    MemberCallWalk(call);
  }

  /** `let split = text.split(separator: ";")` raises nothing: the separator has no colon. */
  lemma ExampleNonIDSplit()
    ensures Lint([Let("split", Call(MemberAccess(Some(Identifier("text", 12, "text")), SplittingMethod, 17, 12, "text.split"),
                                    [Arg(Some(SeparatorLabel), OtherExpr([], 34, "\";\""))], false, 0, 12,
                                    "text.split(separator: \";\")"))])
            == []
  {
    var call := Call(MemberAccess(Some(Identifier("text", 12, "text")), SplittingMethod, 17, 12, "text.split"),
                     [Arg(Some(SeparatorLabel), OtherExpr([], 34, "\";\""))], false, 0, 12, "text.split(separator: \";\")");
    LetWalk("split", call);
    SplitWithoutColonSilent(call);
    MemberCallWalk(call);
  }

  /** `let decoded = userID.canonicalId` is reported at `canonicalId`. */
  lemma ExampleCanonicalId()
    ensures Lint([Let("decoded", MemberAccess(Some(Identifier("userID", 14, "userID")), "canonicalId", 21, 14,
                                              "userID.canonicalId"))])
            == [At(21)]
  {
    var node := MemberAccess(Some(Identifier("userID", 14, "userID")), "canonicalId", 21, 14, "userID.canonicalId");
    LetWalk("decoded", node);
    DecodedMemberReported(node);
  }

  /** `let numeric = orderID.decodedNumericId` is reported at `decodedNumericId`. */
  lemma ExampleDecodedNumericId()
    ensures Lint([Let("numeric", MemberAccess(Some(Identifier("orderID", 14, "orderID")), "decodedNumericId", 22, 14,
                                              "orderID.decodedNumericId"))])
            == [At(22)]
  {
    var node := MemberAccess(Some(Identifier("orderID", 14, "orderID")), "decodedNumericId", 22, 14,
                             "orderID.decodedNumericId");
    LetWalk("numeric", node);
    DecodedMemberReported(node);
  }

  /** `let unsigned = categoryID.unsignedIntID` is reported at `unsignedIntID`. */
  lemma ExampleUnsignedIntID()
    ensures Lint([Let("unsigned", MemberAccess(Some(Identifier("categoryID", 15, "categoryID")), "unsignedIntID", 26, 15,
                                               "categoryID.unsignedIntID"))])
            == [At(26)]
  {
    var node := MemberAccess(Some(Identifier("categoryID", 15, "categoryID")), "unsignedIntID", 26, 15,
                             "categoryID.unsignedIntID");
    LetWalk("unsigned", node);
    DecodedMemberReported(node);
  }

  /** `let decoded = listingID.decodedIdentifier()` is reported at `decodedIdentifier`. */
  lemma ExampleDecodedIdentifier()
    ensures Lint([Let("decoded", Call(MemberAccess(Some(Identifier("listingID", 14, "listingID")), "decodedIdentifier", 24,
                                                   14, "listingID.decodedIdentifier"),
                                      [], false, 0, 14, "listingID.decodedIdentifier()"))])
            == [At(24)]
  {
    var call := Call(MemberAccess(Some(Identifier("listingID", 14, "listingID")), "decodedIdentifier", 24, 14,
                                  "listingID.decodedIdentifier"), [], false, 0, 14, "listingID.decodedIdentifier()");
    LetWalk("decoded", call);
    ManipulationMethodCallReported(call);
  }

  /** `let encoded = userID.encodedUserId()` is reported at `encodedUserId`. */
  lemma ExampleEncodedUserId()
    ensures Lint([Let("encoded", Call(MemberAccess(Some(Identifier("userID", 14, "userID")), "encodedUserId", 21, 14,
                                                   "userID.encodedUserId"),
                                      [], false, 0, 14, "userID.encodedUserId()"))])
            == [At(21)]
  {
    var call := Call(MemberAccess(Some(Identifier("userID", 14, "userID")), "encodedUserId", 21, 14, "userID.encodedUserId"),
                     [], false, 0, 14, "userID.encodedUserId()");
    LetWalk("encoded", call);
    ManipulationMethodCallReported(call);
  }

  /** `let encoded = id.encodedIdWithName("UserNode")` is reported at `encodedIdWithName`. */
  lemma ExampleEncodedIdWithName()
    ensures Lint([Let("encoded", Call(MemberAccess(Some(Identifier("id", 14, "id")), "encodedIdWithName", 17, 14,
                                                   "id.encodedIdWithName"),
                                      [Arg(None, OtherExpr([], 35, "\"UserNode\""))], false, 0, 14,
                                      "id.encodedIdWithName(\"UserNode\")"))])
            == [At(17)]
  {
    var call := Call(MemberAccess(Some(Identifier("id", 14, "id")), "encodedIdWithName", 17, 14, "id.encodedIdWithName"),
                     [Arg(None, OtherExpr([], 35, "\"UserNode\""))], false, 0, 14, "id.encodedIdWithName(\"UserNode\")");
    LetWalk("encoded", call);
    assert ArgNodes(call, call.args) == [ExprNode(OtherExpr([], 35, "\"UserNode\""))];
    ManipulationMethodCallReported(call);
  }

  /** `let encoded = 123.encodedUserId()` is reported once, at `encodedUserId`: the receiver need not be an ID. */
  lemma ExampleLiteralReceiver()
    ensures Lint([Let("encoded", Call(MemberAccess(Some(OtherExpr([], 14, "123")), "encodedUserId", 18, 14,
                                                   "123.encodedUserId"),
                                      [], false, 0, 14, "123.encodedUserId()"))])
            == [At(18)]
  {
    var call := Call(MemberAccess(Some(OtherExpr([], 14, "123")), "encodedUserId", 18, 14, "123.encodedUserId"),
                     [], false, 0, 14, "123.encodedUserId()");
    LetWalk("encoded", call);
    CollectOtherExpr(NodeViolations, OtherExpr([], 14, "123"));
    ManipulationMethodCallReported(call);
  }

  /** `@EncodedWhatnotID var userID: String` is reported at the attribute. */
  lemma ExampleWrapperAttribute()
    ensures Lint([VariableDecl([Attribute(IdentifierType(WrapperAttribute), 0)],
                               [Binding(IdentifierPattern("userID"), None)])])
            == [At(0)]
  {
    var decl := VariableDecl([Attribute(IdentifierType(WrapperAttribute), 0)], [Binding(IdentifierPattern("userID"), None)]);
    FileOfOne(decl);
    CollectVariableDecl(NodeViolations, decl);
    BindingsOfOne(decl, Binding(IdentifierPattern("userID"), None));
  }

  /** `EncodedWhatnotID(wrappedValue: "test")` raises nothing: no check looks at a bare call of the wrapper. */
  lemma ExampleWrapperConstruction()
    ensures Lint([ExprStmt(Call(Identifier(WrapperAttribute, 0, WrapperAttribute),
                                [Arg(Some("wrappedValue"), OtherExpr([], 31, "\"test\""))], false, 0, 0,
                                "EncodedWhatnotID(wrappedValue: \"test\")"))])
            == []
  {
    var call := Call(Identifier(WrapperAttribute, 0, WrapperAttribute),
                     [Arg(Some("wrappedValue"), OtherExpr([], 31, "\"test\""))], false, 0, 0,
                     "EncodedWhatnotID(wrappedValue: \"test\")");
    FileOfOne(ExprStmt(call));
    CollectStmt(NodeViolations, ExprStmt(call));
    IdentifierCallWalk(call);
  }

  /** `"UserNode:\(id)".utf8` */
  const Utf8View := MemberAccess(Some(OtherExpr([Identifier("id", 17, "id")], 5, "\"UserNode:\\(id)\"")), "utf8", 22, 5,
                                 "\"UserNode:\\(id)\".utf8")
  /** `Data("UserNode:\(id)".utf8)` */
  const IDBytes := Call(Identifier("Data", 0, "Data"), [Arg(None, Utf8View)], false, 0, 0, "Data(\"UserNode:\\(id)\".utf8)")

  /** The receiver `Data("UserNode:\(id)".utf8)` is a manual identifier encoding. */
  lemma IDBytesIsManualEncoding()
    ensures IsManualIDEncoding(Some(IDBytes))
  {
    var text := IDBytes.text;
    assert OccursAt(text, "Data(", 0);
    assert OccursAt(text, "Node:", 10);
    assert OccursAt(text, ".utf8", 21);
  }

  /** The receiver `Data("UserNode:\(id)".utf8)` raises nothing itself. */
  lemma IDBytesSilent()
    ensures Silent(IDBytes)
  {
    var interpolation := Utf8View.base.value;
    assert Silent(interpolation) by {
      CollectOtherExpr(NodeViolations, interpolation);
      SubexprsOfOne(interpolation, interpolation.children[0]);
      CollectIdentifier(NodeViolations, interpolation.children[0]);
    }
    assert Silent(Utf8View) by {
      CollectMemberAccess(NodeViolations, Utf8View);
    }
    IdentifierCallWalk(IDBytes);
  }

  /** `Data("UserNode:\(id)".utf8).base64EncodedString()` is reported at `base64EncodedString`. */
  lemma ExampleManualEncoding()
    ensures Lint([ExprStmt(Call(MemberAccess(Some(IDBytes), EncodingMethod, 28, 0,
                                             "Data(\"UserNode:\\(id)\".utf8).base64EncodedString"),
                                [], false, 0, 0, "Data(\"UserNode:\\(id)\".utf8).base64EncodedString()"))])
            == [At(28)]
  {
    var call := Call(MemberAccess(Some(IDBytes), EncodingMethod, 28, 0, "Data(\"UserNode:\\(id)\".utf8).base64EncodedString"),
                     [], false, 0, 0, "Data(\"UserNode:\\(id)\".utf8).base64EncodedString()");
    IDBytesIsManualEncoding();
    ManualEncodingReported(call);
    IDBytesSilent();
    assert MemberAccessViolations(call.callee) == [];
    assert ArgNodes(call, []) == [];
    MemberCallWalk(call);
  }

  /** `Data(base64Encoded: idString)?` */
  const DecodedBytes := OtherExpr([Call(Identifier("Data", 0, "Data"), [Arg(Some("base64Encoded"), Identifier("idString", 20, "idString"))],
                                        false, 0, 0, "Data(base64Encoded: idString)")],
                                  0, "Data(base64Encoded: idString)?")

  /** The receiver `Data(base64Encoded: idString)?` raises nothing itself. */
  lemma DecodedBytesSilent()
    ensures Silent(DecodedBytes)
  {
    var construction := DecodedBytes.children[0];
    CollectOtherExpr(NodeViolations, DecodedBytes);
    SubexprsOfOne(DecodedBytes, construction);
    IdentifierCallWalk(construction);
    CollectIdentifier(NodeViolations, construction.args[0].value);
  }

  /** `Data(base64Encoded: idString)?.split(separator: ":")` is reported at `split`. */
  lemma ExampleManualDecoding()
    ensures Lint([ExprStmt(Call(MemberAccess(Some(DecodedBytes), SplittingMethod, 31, 0, "Data(base64Encoded: idString)?.split"),
                                [Arg(Some(SeparatorLabel), OtherExpr([], 48, "\":\""))], false, 0, 0,
                                "Data(base64Encoded: idString)?.split(separator: \":\")"))])
            == [At(31)]
  {
    var separator := OtherExpr([], 48, "\":\"");
    var call := Call(MemberAccess(Some(DecodedBytes), SplittingMethod, 31, 0, "Data(base64Encoded: idString)?.split"),
                     [Arg(Some(SeparatorLabel), separator)], false, 0, 0,
                     "Data(base64Encoded: idString)?.split(separator: \":\")");
    assert OccursAt(separator.text, "\":\"", 0);
    SplitWithColonReported(call);
    DecodedBytesSilent();
    assert MemberAccessViolations(call.callee) == [];
    assert Collect(NodeViolations, ArgNodes(call, call.args)) == [] by {
      ArgsOfOne(call, call.args[0]);
      CollectOtherExpr(NodeViolations, separator);
    }
    MemberCallWalk(call);
  }
}
