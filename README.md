# Six SwiftLint rules, modelled in Dafny

This project models six lint rules from a fork of SwiftLint. Each rule is a
syntax visitor. It is called back after each node of a Swift file's syntax
tree (post-order), and for the node kinds it cares about it appends
violations to a list.

- `backend_id_manipulation`: backend IDs are opaque. The rule flags:
  - reads of `canonicalId`, `decodedNumericId` and `unsignedIntID`;
  - calls of `decodedIdentifier`, `encodedUserId` and `encodedIdWithName`;
  - `base64EncodedString()` on a receiver whose text looks like `Data("…Node:…".utf8)`;
  - `split(separator: ":")`;
  - the `@EncodedWhatnotID` attribute.
- `serializable_event`: a struct or class that adopts one of `Event` and
  `SerializableEvent` must adopt the other. The rule reports at the type's name.
- `unused_enumerated`: in `for (a, b) in x.enumerated()`, an `_` index or an
  `_` item is reported at the `_`. When both are `_`, only the index is reported.
- `locale_override`: `Locale` may only be reached through
  `Locale.overriddenOrCurrent`. The rule flags:
  - a member access on `Locale`;
  - a bare `Locale()`;
  - a call with a `locale: ….current` argument.
- `date_formatter_override`, built-in variant: `DateFormatter` may only be
  reached through `DateFormatter.whatnotFormatter`. The rule flags a member
  access on `DateFormatter` and a bare `DateFormatter()`.
- `date_formatter_override`, custom variant: an older rule with the same
  identifier. It flags:
  - a bare `DateFormatter()` and calls of members of `DateFormatter`;
  - the first binding of a variable declaration whose initializer is
    `DateFormatter.m` (for `m` other than `whatnotFormatter`) or
    `DateFormatter.m(…)`.

  Both variants use the identifier `date_formatter_override`.

## How the model is built

- `Syntax` (in `syntax.dfy`) defines:
  - the node shapes the rules inspect;
  - the `Violation` record: a position, an optional reason and an optional severity;
  - the post-order walk `FileNodes`, and the fold `Collect` that appends what
    a visitor appends for each node in turn.

  Positions are byte offsets after leading trivia. Source text (`text`) is
  the node's rendering. Both are given fields of the nodes.
- Each rule has its own module. In each one:
  - a function per callback says what that callback appends for one node,
    and its `ensures` state when it fires and where;
  - a `class Visitor` has a `violations: seq<Violation>` field;
  - each method of the class follows the Swift callback's control flow, and
    is proved to append exactly what the function says;
  - `Lint(file)` is the whole walk;
  - lemmas prove the rule's properties and its own examples over `Lint`.
- The examples are files of one statement. Their positions are offsets into
  the example text with the `↓` marker removed.
  - Where the code reports somewhere other than the marker, the model follows
    the code. The lemma's comment says where the code reports.
  - In `backend_id_manipulation`, the markers of the member and method
    examples sit on the `.` or `?.`, but the code reports at the member name
    that follows.
  - The marker of the `@EncodedWhatnotID var ↓userID` example sits on the
    variable, but the code reports at the attribute.
  - The `↓locale: .current` example of `locale_override` is listed as
    triggering. Its tokens hold no parenthesis, so the tree holds no call, and
    its one member access has no base. Neither callback reports it, so the
    code reports nothing for it (`ExampleLabelledCurrent`).
  - The `EncodedWhatnotID(↓wrappedValue: "test")` example is listed as
    triggering, but no check of the rule looks at a call of a plain
    identifier, so the code reports nothing for it
    (`ExampleWrapperConstruction`).

## Model

| member | source | states |
|---|---|---|
| BackendIDManipulationRule.MemberAccessViolations | Source/SwiftLintBuiltInRules/Rules/Idiomatic/BackendIDManipulationRule.swift:54-64 | a member access raises a violation exactly when its name is `canonicalId`, `decodedNumericId` or `unsignedIntID`; it raises at most one, at the name token |
| BackendIDManipulationRule.CallViolations | Source/SwiftLintBuiltInRules/Rules/Idiomatic/BackendIDManipulationRule.swift:66-85 | a call raises nothing unless its callee is a member access. It then raises at most one violation, at the member name, exactly when one of these holds: the method is an encoding/decoding helper; it is `base64EncodedString` on a receiver with the manual-encoding marks; or it is `split` whose first argument is labelled `separator` and whose text contains `":"` |
| BackendIDManipulationRule.ColonPipeSeparatorRedundant | Source/SwiftLintBuiltInRules/Rules/Idiomatic/BackendIDManipulationRule.swift:114 | any text containing a quoted colon followed by a pipe contains the quoted colon, so the first disjunct of the separator test never changes its outcome |
| BackendIDManipulationRule.AttributeViolations | Source/SwiftLintBuiltInRules/Rules/Idiomatic/BackendIDManipulationRule.swift:87-91 | an attribute raises one violation at the attribute exactly when its name is the simple identifier type `EncodedWhatnotID`, and none otherwise |
| BackendIDManipulationRule.IsManualIDEncoding | Source/SwiftLintBuiltInRules/Rules/Idiomatic/BackendIDManipulationRule.swift:95-103 | the receiver text contains `Data(`, `Node:` and `.utf8`; when it holds, a receiver is present and its text contains both `N` and `:` |
| BackendIDManipulationRule.IsManualIDDecoding | Source/SwiftLintBuiltInRules/Rules/Idiomatic/BackendIDManipulationRule.swift:105-115 | the decoding test holds exactly when the callee is a member `split` and the first argument, labelled `separator`, has a text containing `":"`. The first disjunct, the quoted colon followed by a pipe, is absorbed; a colon is then in the separator text |
| BackendIDManipulationRule.Visitor.constructor | Source/SwiftLintBuiltInRules/Rules/Idiomatic/BackendIDManipulationRule.swift:39 | a new visitor holds no violations |
| BackendIDManipulationRule.Visitor.VisitPostMemberAccess | Source/SwiftLintBuiltInRules/Rules/Idiomatic/BackendIDManipulationRule.swift:54-64 | the switch on the member name appends exactly what `MemberAccessViolations` says, and keeps what was there before |
| BackendIDManipulationRule.Visitor.VisitPostFunctionCall | Source/SwiftLintBuiltInRules/Rules/Idiomatic/BackendIDManipulationRule.swift:66-85 | the guard and the switch on the method name append exactly what `CallViolations` says |
| BackendIDManipulationRule.Visitor.VisitPostAttribute | Source/SwiftLintBuiltInRules/Rules/Idiomatic/BackendIDManipulationRule.swift:87-91 | the guard appends exactly what `AttributeViolations` says |
| BackendIDManipulationRule.NodeViolations | Source/SwiftLintBuiltInRules/Rules/Idiomatic/BackendIDManipulationRule.swift:40-50 | member accesses, calls and attributes are dispatched to their checks, each adding at most one violation; statements and other expressions add nothing |
| BackendIDManipulationRule.Lint | Source/SwiftLintBuiltInRules/Rules/Idiomatic/BackendIDManipulationRule.swift:3-4 | the post-order fold of `NodeViolations` over the file; it appends at most one violation per node of the walk |
| BackendIDManipulationRule.MemberCallWalk | Source/SwiftLintBuiltInRules/Rules/Idiomatic/BackendIDManipulationRule.swift:40-50 | on a statement `base.m(args)`, the walk appends, in order: what the receiver raises, what the member check raises on the callee, what the arguments raise, and what the call check raises |
| BackendIDManipulationRule.MemberCallReportedAtMostOnce | Source/SwiftLintBuiltInRules/Rules/Idiomatic/BackendIDManipulationRule.swift:54-85 | with a receiver and arguments that raise nothing, a member call is reported at most once, at the member name. It is reported exactly when the member check or the call check fires, because the two checks flag disjoint names |
| BackendIDManipulationRule.ManipulationMethodCallReported | Source/SwiftLintBuiltInRules/Rules/Idiomatic/BackendIDManipulationRule.swift:72-73 | a call of `decodedIdentifier`, `encodedUserId` or `encodedIdWithName` is reported once at the method name, whatever the (otherwise silent) receiver and arguments are |
| BackendIDManipulationRule.DecodedMemberReported | Source/SwiftLintBuiltInRules/Rules/Idiomatic/BackendIDManipulationRule.swift:59-60 | a statement reading a decoded-form member is reported once, at the member name, whatever the (silent) receiver is |
| BackendIDManipulationRule.NonMemberCalleeSilent | Source/SwiftLintBuiltInRules/Rules/Idiomatic/BackendIDManipulationRule.swift:67 | a call whose callee is not a member access adds nothing itself |
| BackendIDManipulationRule.SplitWithColonReported | Source/SwiftLintBuiltInRules/Rules/Idiomatic/BackendIDManipulationRule.swift:105-115 | `split` whose first argument is labelled `separator` and whose text contains the quoted colon is reported at `split` |
| BackendIDManipulationRule.SplitWithoutColonSilent | Source/SwiftLintBuiltInRules/Rules/Idiomatic/BackendIDManipulationRule.swift:105-115 | `split` whose first argument's text has no colon is never reported |
| BackendIDManipulationRule.ManualEncodingReported | Source/SwiftLintBuiltInRules/Rules/Idiomatic/BackendIDManipulationRule.swift:95-103 | `base64EncodedString` on a receiver whose text holds `Data(`, `Node:` and `.utf8` is reported at the method name |
| BackendIDManipulationRule.EncodingWithoutNodeSilent | Source/SwiftLintBuiltInRules/Rules/Idiomatic/BackendIDManipulationRule.swift:95-103 | `base64EncodedString` on a missing receiver, or on one whose text has no `N`, is never reported |
| BackendIDManipulationRule.ExampleDirectUsage | Source/SwiftLintBuiltInRules/Rules/Idiomatic/BackendIDManipulationRule.swift:13 | `let userID = user.id` raises nothing |
| BackendIDManipulationRule.ExampleDirectComparison | Source/SwiftLintBuiltInRules/Rules/Idiomatic/BackendIDManipulationRule.swift:14 | `if user.id == otherUser.id { }` raises nothing |
| BackendIDManipulationRule.ExampleDirectIDUsage | Source/SwiftLintBuiltInRules/Rules/Idiomatic/BackendIDManipulationRule.swift:15 | `let directUsage = listing.id` raises nothing |
| BackendIDManipulationRule.ExampleLongerMemberName | Source/SwiftLintBuiltInRules/Rules/Idiomatic/BackendIDManipulationRule.swift:16 | `identity.unsignedIntIDForLiveXP` raises nothing: names match exactly |
| BackendIDManipulationRule.ExampleOtherLongerMemberName | Source/SwiftLintBuiltInRules/Rules/Idiomatic/BackendIDManipulationRule.swift:17 | `identity.canonicalIDForAnalytics` raises nothing |
| BackendIDManipulationRule.ExampleNonIDBase64 | Source/SwiftLintBuiltInRules/Rules/Idiomatic/BackendIDManipulationRule.swift:19 | `Data(image.jpegData()).base64EncodedString()` raises nothing |
| BackendIDManipulationRule.ExampleNonIDSplit | Source/SwiftLintBuiltInRules/Rules/Idiomatic/BackendIDManipulationRule.swift:20 | `let split = text.split(separator: ";")` raises nothing |
| BackendIDManipulationRule.ExampleCanonicalForm | Source/SwiftLintBuiltInRules/Rules/Idiomatic/BackendIDManipulationRule.swift:21 | `let canonical = data.canonicalForm` raises nothing |
| BackendIDManipulationRule.ExampleCanonicalId | Source/SwiftLintBuiltInRules/Rules/Idiomatic/BackendIDManipulationRule.swift:24 | `let decoded = userID.canonicalId` is reported once, at offset 21 (the name; the marker is on the dot at 20) |
| BackendIDManipulationRule.ExampleDecodedNumericId | Source/SwiftLintBuiltInRules/Rules/Idiomatic/BackendIDManipulationRule.swift:25 | `let numeric = orderID.decodedNumericId` is reported once, at offset 22 |
| BackendIDManipulationRule.ExampleUnsignedIntID | Source/SwiftLintBuiltInRules/Rules/Idiomatic/BackendIDManipulationRule.swift:26 | `let unsigned = categoryID.unsignedIntID` is reported once, at offset 26 |
| BackendIDManipulationRule.ExampleDecodedIdentifier | Source/SwiftLintBuiltInRules/Rules/Idiomatic/BackendIDManipulationRule.swift:27 | `let decoded = listingID.decodedIdentifier()` is reported once, at offset 24 |
| BackendIDManipulationRule.ExampleEncodedUserId | Source/SwiftLintBuiltInRules/Rules/Idiomatic/BackendIDManipulationRule.swift:28 | `let encoded = userID.encodedUserId()` is reported once, at offset 21 |
| BackendIDManipulationRule.ExampleEncodedIdWithName | Source/SwiftLintBuiltInRules/Rules/Idiomatic/BackendIDManipulationRule.swift:29 | `let encoded = id.encodedIdWithName("UserNode")` is reported once, at offset 17 |
| BackendIDManipulationRule.ExampleLiteralReceiver | Tests/BuiltInRulesTests/BackendIDManipulationRuleTests.swift:42 | `let encoded = 123.encodedUserId()` is reported exactly once |
| BackendIDManipulationRule.ExampleWrapperAttribute | Source/SwiftLintBuiltInRules/Rules/Idiomatic/BackendIDManipulationRule.swift:30 | `@EncodedWhatnotID var userID: String` is reported exactly once, at the attribute (offset 0) |
| BackendIDManipulationRule.ExampleWrapperConstruction | Source/SwiftLintBuiltInRules/Rules/Idiomatic/BackendIDManipulationRule.swift:31 | `EncodedWhatnotID(wrappedValue: "test")` raises nothing under the code as written, although it is listed as triggering |
| BackendIDManipulationRule.ExampleManualEncoding | Source/SwiftLintBuiltInRules/Rules/Idiomatic/BackendIDManipulationRule.swift:32 | `Data("UserNode:\(id)".utf8).base64EncodedString()` is reported once, at offset 28 |
| BackendIDManipulationRule.ExampleManualDecoding | Source/SwiftLintBuiltInRules/Rules/Idiomatic/BackendIDManipulationRule.swift:33 | `Data(base64Encoded: idString)?.split(separator: ":")` is reported once, at offset 31 |
| SerializableEventRule.ErrorViolation | Source/SwiftLintBuiltInRules/Rules/Whatnot/SerializableEventRule.swift:90-96 | the violation is at the given position, carries the configured severity, and its reason is the quoted type name, a space, then the message |
| SerializableEventRule.VerifyViolations | Source/SwiftLintBuiltInRules/Rules/Whatnot/SerializableEventRule.swift:80-105 | at most one violation. There is none exactly when the clause adopts both `Event` and `SerializableEvent`, or neither. Otherwise the message names the protocol that is missing |
| SerializableEventRule.DeclViolations | Source/SwiftLintBuiltInRules/Rules/Whatnot/SerializableEventRule.swift:62-78 | a declaration without an inheritance clause raises nothing; otherwise it raises what `verify` raises for its name at the name's position |
| SerializableEventRule.Visitor.constructor | Source/SwiftLintBuiltInRules/Rules/Whatnot/SerializableEventRule.swift:61 | a new visitor holds its configuration and no violations |
| SerializableEventRule.Visitor.VisitPostStructDecl | Source/SwiftLintBuiltInRules/Rules/Whatnot/SerializableEventRule.swift:62-69 | appends exactly `DeclViolations` of the struct |
| SerializableEventRule.Visitor.VisitPostClassDecl | Source/SwiftLintBuiltInRules/Rules/Whatnot/SerializableEventRule.swift:71-78 | appends exactly `DeclViolations` of the class |
| SerializableEventRule.Visitor.Verify | Source/SwiftLintBuiltInRules/Rules/Whatnot/SerializableEventRule.swift:80-105 | the two independent `if`s append exactly `VerifyViolations` |
| SerializableEventRule.Visitor.Error | Source/SwiftLintBuiltInRules/Rules/Whatnot/SerializableEventRule.swift:90-96 | appends exactly one `ErrorViolation` for the captured name and position |
| SerializableEventRule.Adopts | Source/SwiftLintBuiltInRules/Rules/Whatnot/SerializableEventRule.swift:86-88 | a type is adopted exactly when the clause contains the identifier type of that exact name |
| SerializableEventRule.NodeViolations | Source/SwiftLintBuiltInRules/Rules/Whatnot/SerializableEventRule.swift:62-78 | struct and class declarations are dispatched to `DeclViolations`, adding at most one violation; every other node adds nothing |
| SerializableEventRule.Lint | Source/SwiftLintBuiltInRules/Rules/Whatnot/SerializableEventRule.swift:4-5 | the post-order fold of `NodeViolations` over the file; it appends at most one violation per node of the walk |
| SerializableEventRule.StructsAndClassesAlike | Source/SwiftLintBuiltInRules/Rules/Whatnot/SerializableEventRule.swift:62-78 | a struct and a class with the same name, position and clause raise the same violations |
| SerializableEventRule.LoneDeclReported | Source/SwiftLintBuiltInRules/Rules/Whatnot/SerializableEventRule.swift:61-78 | a file of one declaration without attributes or members raises exactly what the declaration's callback raises |
| SerializableEventRule.ExampleNoClause | Source/SwiftLintBuiltInRules/Rules/Whatnot/SerializableEventRule.swift:16 | `struct Thing {}` (and `class Thing {}`, line 29) raises nothing |
| SerializableEventRule.ExampleOtherProtocol | Source/SwiftLintBuiltInRules/Rules/Whatnot/SerializableEventRule.swift:19-22 | `Thing: SomeOtherProtocol` and `Thing: SomeOtherProtocolWithEventInTheName` raise nothing, for structs and classes |
| SerializableEventRule.ExampleBothAdopted | Source/SwiftLintBuiltInRules/Rules/Whatnot/SerializableEventRule.swift:25 | `MyEvent: Event, SerializableEvent` raises nothing, for structs and classes |
| SerializableEventRule.ExampleOnlyEvent | Source/SwiftLintBuiltInRules/Rules/Whatnot/SerializableEventRule.swift:43-52 | `struct MyEvent: Event {}` and `class MyEvent: Event {}` are each reported once at the name, with the "must also adopt 'SerializableEvent'" reason and warning severity |
| SerializableEventRule.ExampleOnlySerializableEvent | Source/SwiftLintBuiltInRules/Rules/Whatnot/SerializableEventRule.swift:46-55 | `MyEvent: SerializableEvent` is reported once at the name, with the "must also adopt 'Event'" reason, for structs and classes |
| UnusedEnumeratedRule.HasNoArguments | Source/SwiftLintBuiltInRules/Rules/Idiomatic/UnusedEnumeratedRule.swift:74-78 | defines a call with no arguments, no trailing closure and no additional trailing closures |
| UnusedEnumeratedRule.IsEnumerated | Source/SwiftLintBuiltInRules/Rules/Idiomatic/UnusedEnumeratedRule.swift:63-72 | defines a call of a member named `enumerated` on some base, with no arguments in the sense of `HasNoArguments` |
| UnusedEnumeratedRule.IsUnderscore | Source/SwiftLintBuiltInRules/Rules/Idiomatic/UnusedEnumeratedRule.swift:81-84 | defines a tuple element whose own pattern is the wildcard `_` |
| UnusedEnumeratedRule.DestructuresEnumerated | Source/SwiftLintBuiltInRules/Rules/Idiomatic/UnusedEnumeratedRule.swift:35-38 | defines a loop whose pattern is a pair and whose sequence is an `enumerated()` call |
| UnusedEnumeratedRule.ForStmtViolations | Source/SwiftLintBuiltInRules/Rules/Idiomatic/UnusedEnumeratedRule.swift:34-58 | at most one violation. There is one exactly when the loop destructures a pair from `base.enumerated()` (no arguments, no trailing closures) and one element is `_`. An `_` index is reported with the index reason; otherwise an `_` item is reported with the item reason |
| UnusedEnumeratedRule.Visitor.constructor | Source/SwiftLintBuiltInRules/Rules/Idiomatic/UnusedEnumeratedRule.swift:33 | a new visitor holds no violations |
| UnusedEnumeratedRule.Visitor.VisitPostForStmt | Source/SwiftLintBuiltInRules/Rules/Idiomatic/UnusedEnumeratedRule.swift:34-58 | the guard and the branch append exactly `ForStmtViolations` |
| UnusedEnumeratedRule.NodeViolations | Source/SwiftLintBuiltInRules/Rules/Idiomatic/UnusedEnumeratedRule.swift:34-58 | `for` statements are dispatched to `ForStmtViolations`, adding at most one violation; every other node adds nothing |
| UnusedEnumeratedRule.Lint | Source/SwiftLintBuiltInRules/Rules/Idiomatic/UnusedEnumeratedRule.swift:3-4 | the post-order fold of `NodeViolations` over the file; it appends at most one violation per node of the walk |
| UnusedEnumeratedRule.LoneLoopReported | Source/SwiftLintBuiltInRules/Rules/Idiomatic/UnusedEnumeratedRule.swift:33-58 | a file of one loop with an empty body raises exactly what the loop's callback raises, because no expression raises anything under this rule |
| UnusedEnumeratedRule.AnyReceiverReported | Source/SwiftLintBuiltInRules/Rules/Idiomatic/UnusedEnumeratedRule.swift:63-72 | `for (_, x) in b.enumerated()` is reported at the `_` for every receiver `b` |
| UnusedEnumeratedRule.BothUnusedReportsIndexOnly | Source/SwiftLintBuiltInRules/Rules/Idiomatic/UnusedEnumeratedRule.swift:49-55 | with both elements `_`, only the index is reported |
| UnusedEnumeratedRule.ExampleBothUsed | Source/SwiftLintBuiltInRules/Rules/Idiomatic/UnusedEnumeratedRule.swift:13 | `for (idx, foo) in bar.enumerated() { }` raises nothing |
| UnusedEnumeratedRule.ExampleTrailingCall | Source/SwiftLintBuiltInRules/Rules/Idiomatic/UnusedEnumeratedRule.swift:14 | `for (_, foo) in bar.enumerated().something() { }` raises nothing |
| UnusedEnumeratedRule.ExampleOtherCall | Source/SwiftLintBuiltInRules/Rules/Idiomatic/UnusedEnumeratedRule.swift:15 | `for (_, foo) in bar.something() { }` raises nothing |
| UnusedEnumeratedRule.ExampleNoTuple | Source/SwiftLintBuiltInRules/Rules/Idiomatic/UnusedEnumeratedRule.swift:16 | `for foo in bar.enumerated() { }` raises nothing |
| UnusedEnumeratedRule.ExamplePlainLoop | Source/SwiftLintBuiltInRules/Rules/Idiomatic/UnusedEnumeratedRule.swift:17 | `for foo in bar { }` raises nothing |
| UnusedEnumeratedRule.ExampleItemUnusedTrailingCall | Source/SwiftLintBuiltInRules/Rules/Idiomatic/UnusedEnumeratedRule.swift:18 | `for (idx, _) in bar.enumerated().something() { }` raises nothing |
| UnusedEnumeratedRule.ExampleItemUnusedOtherCall | Source/SwiftLintBuiltInRules/Rules/Idiomatic/UnusedEnumeratedRule.swift:19 | `for (idx, _) in bar.something() { }` raises nothing |
| UnusedEnumeratedRule.ExampleIndices | Source/SwiftLintBuiltInRules/Rules/Idiomatic/UnusedEnumeratedRule.swift:20 | `for idx in bar.indices { }` raises nothing |
| UnusedEnumeratedRule.ExampleNestedTuple | Source/SwiftLintBuiltInRules/Rules/Idiomatic/UnusedEnumeratedRule.swift:21 | `for (section, (event, _)) in data.enumerated() {}` raises nothing |
| UnusedEnumeratedRule.ExampleIndexUnused | Source/SwiftLintBuiltInRules/Rules/Idiomatic/UnusedEnumeratedRule.swift:24 | `for (_, foo) in bar.enumerated() { }` is reported once, at offset 5, with the index reason |
| UnusedEnumeratedRule.ExampleIndexUnusedMemberReceiver | Source/SwiftLintBuiltInRules/Rules/Idiomatic/UnusedEnumeratedRule.swift:25 | `for (_, foo) in abc.bar.enumerated() { }` is reported once, at offset 5 |
| UnusedEnumeratedRule.ExampleIndexUnusedCallReceiver | Source/SwiftLintBuiltInRules/Rules/Idiomatic/UnusedEnumeratedRule.swift:26 | `for (_, foo) in abc.something().enumerated() { }` is reported once, at offset 5 |
| UnusedEnumeratedRule.ExampleItemUnused | Source/SwiftLintBuiltInRules/Rules/Idiomatic/UnusedEnumeratedRule.swift:27 | `for (idx, _) in bar.enumerated() { }` is reported once, at offset 10, with the item reason |
| LocaleOverrideRule.MemberAccessViolations | Source/SwiftLintBuiltInRules/Rules/Whatnot/LocaleOverrideRule.swift:36-42 | a member access raises one violation at its start exactly when its base is the identifier `Locale` and the member is not `overriddenOrCurrent`, and none otherwise |
| LocaleOverrideRule.PassesCurrentLocale | Source/SwiftLintBuiltInRules/Rules/Whatnot/LocaleOverrideRule.swift:49-51 | defines an argument list with some argument labelled `locale` whose value is a member access named `current`, on any base or none |
| LocaleOverrideRule.CallViolations | Source/SwiftLintBuiltInRules/Rules/Whatnot/LocaleOverrideRule.swift:44-54 | a call raises at most one violation, at its start. It raises one exactly when it is `Locale` with no arguments, or some argument is labelled `locale` and is a member access named `current` |
| LocaleOverrideRule.Visitor.constructor | Source/SwiftLintBuiltInRules/Rules/Whatnot/LocaleOverrideRule.swift:35 | a new visitor holds no violations |
| LocaleOverrideRule.Visitor.VisitPostMemberAccess | Source/SwiftLintBuiltInRules/Rules/Whatnot/LocaleOverrideRule.swift:36-42 | appends exactly `MemberAccessViolations` |
| LocaleOverrideRule.Visitor.VisitPostFunctionCall | Source/SwiftLintBuiltInRules/Rules/Whatnot/LocaleOverrideRule.swift:44-54 | the `if`/`else if` appends exactly `CallViolations` |
| LocaleOverrideRule.NodeViolations | Source/SwiftLintBuiltInRules/Rules/Whatnot/LocaleOverrideRule.swift:36-54 | member accesses and calls are dispatched to their checks, each adding at most one violation; every other node adds nothing |
| LocaleOverrideRule.Lint | Source/SwiftLintBuiltInRules/Rules/Whatnot/LocaleOverrideRule.swift:29-31 | the post-order fold of `NodeViolations` over the file; it appends at most one violation per node of the walk |
| LocaleOverrideRule.MemberCallReportedOnce | Source/SwiftLintBuiltInRules/Rules/Whatnot/LocaleOverrideRule.swift:36-54 | `Locale.m()`, for any `m` other than the sanctioned accessor, is reported exactly once, at the member access; the call check does not fire as well |
| LocaleOverrideRule.MemberAccessReportedOnce | Source/SwiftLintBuiltInRules/Rules/Whatnot/LocaleOverrideRule.swift:36-42 | `Locale.m`, for any `m` other than the sanctioned accessor, is reported exactly once |
| LocaleOverrideRule.SanctionedAccessorSilent | Source/SwiftLintBuiltInRules/Rules/Whatnot/LocaleOverrideRule.swift:39 | `Locale.overriddenOrCurrent` raises nothing |
| LocaleOverrideRule.BaselessMemberAccessSilent | Source/SwiftLintBuiltInRules/Rules/Whatnot/LocaleOverrideRule.swift:37 | a member access without a base (`.overriddenOrCurrent`, `.current`) raises nothing |
| LocaleOverrideRule.CurrentLocaleArgumentReported | Source/SwiftLintBuiltInRules/Rules/Whatnot/LocaleOverrideRule.swift:49-52 | any call with a `locale:` argument that is a member access named `current` is reported once at the call, whatever the callee and the other arguments |
| LocaleOverrideRule.ExampleLetSanctioned | Source/SwiftLintBuiltInRules/Rules/Whatnot/LocaleOverrideRule.swift:14 | `let df = Locale.overriddenOrCurrent` raises nothing |
| LocaleOverrideRule.ExampleSanctioned | Source/SwiftLintBuiltInRules/Rules/Whatnot/LocaleOverrideRule.swift:15 | `Locale.overriddenOrCurrent` raises nothing |
| LocaleOverrideRule.ExampleLabelledSanctioned | Source/SwiftLintBuiltInRules/Rules/Whatnot/LocaleOverrideRule.swift:16 | `locale: .overriddenOrCurrent`, one member access without a base and no call, raises nothing |
| LocaleOverrideRule.ExampleLabelledCurrent | Source/SwiftLintBuiltInRules/Rules/Whatnot/LocaleOverrideRule.swift:25 | `locale: .current`, one member access without a base and no call, raises nothing; the example is listed as triggering |
| LocaleOverrideRule.ExampleLetInit | Source/SwiftLintBuiltInRules/Rules/Whatnot/LocaleOverrideRule.swift:19 | `let locale = Locale.init()` is reported once, at offset 13 |
| LocaleOverrideRule.ExampleLetConstruct | Source/SwiftLintBuiltInRules/Rules/Whatnot/LocaleOverrideRule.swift:20 | `let locale = Locale()` is reported once, at offset 13 |
| LocaleOverrideRule.ExampleLetCurrent | Source/SwiftLintBuiltInRules/Rules/Whatnot/LocaleOverrideRule.swift:21 | `let locale = Locale.current` is reported once, at offset 13 |
| LocaleOverrideRule.ExampleConstruct | Source/SwiftLintBuiltInRules/Rules/Whatnot/LocaleOverrideRule.swift:22 | `Locale()` is reported once, at offset 0 |
| LocaleOverrideRule.ExampleInit | Source/SwiftLintBuiltInRules/Rules/Whatnot/LocaleOverrideRule.swift:23 | `Locale.init()` is reported once, at offset 0 |
| LocaleOverrideRule.ExampleCurrent | Source/SwiftLintBuiltInRules/Rules/Whatnot/LocaleOverrideRule.swift:24 | `Locale.current` is reported once, at offset 0 |
| DateFormatterOverrideRule.MemberAccessViolations | Source/SwiftLintBuiltInRules/Rules/Whatnot/DateFormatterOverrideRule.swift:34-40 | a member access raises one violation at its start exactly when its base is the identifier `DateFormatter` and the member is not `whatnotFormatter`, and none otherwise |
| DateFormatterOverrideRule.CallViolations | Source/SwiftLintBuiltInRules/Rules/Whatnot/DateFormatterOverrideRule.swift:42-48 | a call raises one violation at its start exactly when it is `DateFormatter` with no arguments, and none otherwise |
| DateFormatterOverrideRule.Visitor.constructor | Source/SwiftLintBuiltInRules/Rules/Whatnot/DateFormatterOverrideRule.swift:33 | a new visitor holds no violations |
| DateFormatterOverrideRule.Visitor.VisitPostMemberAccess | Source/SwiftLintBuiltInRules/Rules/Whatnot/DateFormatterOverrideRule.swift:34-40 | appends exactly `MemberAccessViolations` |
| DateFormatterOverrideRule.Visitor.VisitPostFunctionCall | Source/SwiftLintBuiltInRules/Rules/Whatnot/DateFormatterOverrideRule.swift:42-48 | appends exactly `CallViolations` |
| DateFormatterOverrideRule.NodeViolations | Source/SwiftLintBuiltInRules/Rules/Whatnot/DateFormatterOverrideRule.swift:34-48 | member accesses and calls are dispatched to their checks, each adding at most one violation; every other node adds nothing |
| DateFormatterOverrideRule.Lint | Source/SwiftLintBuiltInRules/Rules/Whatnot/DateFormatterOverrideRule.swift:27-29 | the post-order fold of `NodeViolations` over the file; it appends at most one violation per node of the walk |
| DateFormatterOverrideRule.MemberCallReportedOnce | Source/SwiftLintBuiltInRules/Rules/Whatnot/DateFormatterOverrideRule.swift:34-48 | `DateFormatter.m()`, for any `m` other than the sanctioned accessor, is reported exactly once, at the member access, and never by the call check |
| DateFormatterOverrideRule.SanctionedAccessorSilent | Source/SwiftLintBuiltInRules/Rules/Whatnot/DateFormatterOverrideRule.swift:37 | `DateFormatter.whatnotFormatter` raises nothing |
| DateFormatterOverrideRule.OnlyIdentifierBasesFlagged | Source/SwiftLintBuiltInRules/Rules/Whatnot/DateFormatterOverrideRule.swift:35 | a member access with no base, or whose base is not a plain identifier, raises nothing |
| DateFormatterOverrideRule.ExampleLetWhatnotFormatter | Source/SwiftLintBuiltInRules/Rules/Whatnot/DateFormatterOverrideRule.swift:14 | `let df = DateFormatter.whatnotFormatter` raises nothing |
| DateFormatterOverrideRule.ExampleWhatnotFormatter | Source/SwiftLintBuiltInRules/Rules/Whatnot/DateFormatterOverrideRule.swift:15 | `DateFormatter.whatnotFormatter` raises nothing |
| DateFormatterOverrideRule.ExampleLetInit | Source/SwiftLintBuiltInRules/Rules/Whatnot/DateFormatterOverrideRule.swift:18 | `let df = DateFormatter.init()` is reported once, at offset 9 |
| DateFormatterOverrideRule.ExampleLetConstruct | Source/SwiftLintBuiltInRules/Rules/Whatnot/DateFormatterOverrideRule.swift:19 | `let df = DateFormatter()` is reported once, at offset 9 |
| DateFormatterOverrideRule.ExampleLetStaticMember | Source/SwiftLintBuiltInRules/Rules/Whatnot/DateFormatterOverrideRule.swift:20 | `let df = DateFormatter.anotherStaticInit` is reported once, at offset 9 |
| DateFormatterOverrideRule.ExampleConstruct | Source/SwiftLintBuiltInRules/Rules/Whatnot/DateFormatterOverrideRule.swift:21 | `DateFormatter()` is reported once, at offset 0 |
| DateFormatterOverrideRule.ExampleInit | Source/SwiftLintBuiltInRules/Rules/Whatnot/DateFormatterOverrideRule.swift:22 | `DateFormatter.init()` is reported once, at offset 0 |
| DateFormatterOverrideRule.ExampleStaticMember | Source/SwiftLintBuiltInRules/Rules/Whatnot/DateFormatterOverrideRule.swift:23 | `DateFormatter.anotherStaticInit` is reported once, at offset 0 |
| DateFormatterOverride.CallViolations | Source/SwiftLintFramework/Rules/Custom/DateFormatterOverride.swift:33-43 | a call raises at most one violation, at its start. It raises one exactly when it is `DateFormatter` with no arguments or its callee is a member of `DateFormatter`; the two `if`s never both fire |
| DateFormatterOverride.InitializesFromMember | Source/SwiftLintFramework/Rules/Custom/DateFormatterOverride.swift:47-51 | defines an initializer that is `DateFormatter.m` with `m` other than `whatnotFormatter` |
| DateFormatterOverride.InitializesFromMemberCall | Source/SwiftLintFramework/Rules/Custom/DateFormatterOverride.swift:57-61 | an initializer that is a call of a member of `DateFormatter`; it never holds together with `InitializesFromMember`, so the two branches of the loop body are exclusive |
| DateFormatterOverride.BindingViolation | Source/SwiftLintFramework/Rules/Custom/DateFormatterOverride.swift:47-65 | a binding is flagged exactly when its initializer is `DateFormatter.m` with `m` other than `whatnotFormatter`, or a call of a member of `DateFormatter`. The first branch wins, at the member access; the second reports at the callee |
| DateFormatterOverride.VariableDeclViolations | Source/SwiftLintFramework/Rules/Custom/DateFormatterOverride.swift:45-67 | a declaration raises at most one violation, and none exactly when no binding is flagged |
| DateFormatterOverride.FirstFlaggedBindingReported | Source/SwiftLintFramework/Rules/Custom/DateFormatterOverride.swift:46-66 | the violation raised is the one of the first flagged binding, whatever follows it |
| DateFormatterOverride.EarlyReturn | Source/SwiftLintFramework/Rules/Custom/DateFormatterOverride.swift:54 | once some bindings have raised their violation, bindings after them add nothing; bindings that raise nothing leave the outcome to the rest |
| DateFormatterOverride.Visitor.constructor | Source/SwiftLintFramework/Rules/Custom/DateFormatterOverride.swift:32 | a new visitor holds no violations |
| DateFormatterOverride.Visitor.VisitPostFunctionCall | Source/SwiftLintFramework/Rules/Custom/DateFormatterOverride.swift:33-43 | the two `if`s append exactly `CallViolations` |
| DateFormatterOverride.Visitor.VisitPostVariableDecl | Source/SwiftLintFramework/Rules/Custom/DateFormatterOverride.swift:45-67 | the loop over the bindings, with its early returns, appends exactly `VariableDeclViolations` |
| DateFormatterOverride.NodeViolations | Source/SwiftLintFramework/Rules/Custom/DateFormatterOverride.swift:33-66 | calls and variable declarations are dispatched to their checks, each adding at most one violation; a member access, like every other node, adds nothing, since this variant has no member-access callback |
| DateFormatterOverride.Lint | Source/SwiftLintFramework/Rules/Custom/DateFormatterOverride.swift:25-28 | the post-order fold of `NodeViolations` over the file; it appends at most one violation per node of the walk |
| DateFormatterOverride.MemberCallInDeclarationReportedTwice | Source/SwiftLintFramework/Rules/Custom/DateFormatterOverride.swift:33-67 | `let x = DateFormatter.m()` is reported twice for any `m`: first at the call by the call check, then at the member access by the declaration check |
| DateFormatterOverride.BareMemberAccessSilent | Source/SwiftLintFramework/Rules/Custom/DateFormatterOverride.swift:32-67 | a statement `DateFormatter.m` outside a declaration raises nothing: no callback of this variant sees member accesses |
| DateFormatterOverride.ExampleLetWhatnotFormatter | Source/SwiftLintFramework/Rules/Custom/DateFormatterOverride.swift:14 | `let df = DateFormatter.whatnotFormatter` raises nothing |
| DateFormatterOverride.ExampleWhatnotFormatter | Source/SwiftLintFramework/Rules/Custom/DateFormatterOverride.swift:15 | `DateFormatter.whatnotFormatter` raises nothing |
| DateFormatterOverride.ExampleLetConstruct | Source/SwiftLintFramework/Rules/Custom/DateFormatterOverride.swift:18 | `let df = DateFormatter()` is reported once, at offset 9 |
| DateFormatterOverride.ExampleInit | Source/SwiftLintFramework/Rules/Custom/DateFormatterOverride.swift:19 | `DateFormatter.init()` is reported once, at offset 0 |
| DateFormatterOverride.ExampleConstruct | Source/SwiftLintFramework/Rules/Custom/DateFormatterOverride.swift:20 | `DateFormatter()` is reported once, at offset 0 |
| DateFormatterOverride.ExampleLetStaticMember | Source/SwiftLintFramework/Rules/Custom/DateFormatterOverride.swift:21 | `let df = DateFormatter.anotherStaticInit` is reported once, at offset 9 |

## Left out

- Parsing Swift and SwiftSyntax's walker are not modelled. A file is given as a tree of the node shapes in `Syntax`. The walk is a fixed post-order traversal of that tree.
- Positions and source text are given fields of the nodes. The model does not check that they agree with one another or with any real file. Source text includes the trivia that `description` includes.
- Expressions the rules never look into are `OtherExpr` with their sub-expressions (literals, operators, optional chaining, string interpolation). Statements and declarations of other kinds are `OtherStmt`, so a function declaration named `canonicalId` (BackendIDManipulationRule.swift line 18) has no member access to inspect. This example is not modelled separately.
- Trailing closures are counted (`trailingClosure`, `extraTrailingClosures`) for `hasNoArguments`, but their bodies are not walked.
- `Syntax` has no place for several parts of a Swift tree. Statements inside closure expressions are missing, because `OtherExpr` children are expressions only. `for … where` clauses and accessor blocks are missing. Attributes on functions and parameters are missing, because `OtherStmt` has no attributes field; so `func f(@EncodedWhatnotID x: String)`, which the attribute check would report, cannot be written.
- An identifier type's generic arguments are not modelled. `Event<T>` and `EncodedWhatnotID<String>` are `IdentifierType` with the bare name, as the rules compare the name alone.
- `asFunctionCall` in `unused_enumerated` is read as "the sequence is a function call", so a parenthesised call is not looked through. `typeName` in `serializable_event` is read as the simple identifier's name. Neither helper is part of this model.
- `Contains` is contiguous matching on characters. Swift's `String.contains` works on grapheme clusters after Unicode canonical equivalence. Name comparisons are plain sequence equality.
- The framework's plumbing is not modelled: rule registration, configuration parsing, the conversion of positions into line and column, and the test harness that checks examples against markers. `SeverityConfiguration` is reduced to its severity.
- XCTSpecificMatcherRuleTests.swift is not part of this model. It tests a rule outside the six modelled here.
- The order in which violations are finally sorted and reported is not modelled; `Lint` keeps the order in which they are appended. `OtherStmt` walks its expressions before its body, so for a statement whose body comes first in the source (`repeat { … } while c`) that append order differs from SwiftSyntax's; the violations are the same.
- Several `states` cells in the table give the position where the code reports, not where the example's marker sits; the section "How the model is built" lists each disagreement.
