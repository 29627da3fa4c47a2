/**
 * `serializable_event`: a struct or class whose inheritance clause lists
 * exactly one of `Event` and `SerializableEvent` must list the other too.
 * Adoption is read off the clause alone, by exact name.
 */
module SerializableEventRule {
  import opened Syntax

  const RuleIdentifier: string := "serializable_event"
  const DefaultConfiguration := SeverityConfiguration(Warning)

  const EventProtocol: string := "Event"
  const SerializableEventProtocol: string := "SerializableEvent"

  const MissingSerializableEvent: string := "adopts 'Event', so it must also adopt 'SerializableEvent'"
  const MissingEvent: string := "adopts 'SerializableEvent', so it must also adopt 'Event'"

  /**
   * Some entry of the clause is an identifier type named `protocol`; that is,
   * adoption is membership of exactly that type in the clause.
   */
  predicate Adopts(inheritedTypes: seq<TypeRef>, protocol: string): (r: bool)
    ensures r <==> IdentifierType(protocol) in inheritedTypes
  {
    assert IdentifierType(protocol) in inheritedTypes
           ==> exists k :: 0 <= k < |inheritedTypes| && inheritedTypes[k].IdentifierType? && inheritedTypes[k].name == protocol
    by {
      if IdentifierType(protocol) in inheritedTypes {
        var k :| 0 <= k < |inheritedTypes| && inheritedTypes[k] == IdentifierType(protocol);
        assert inheritedTypes[k].IdentifierType? && inheritedTypes[k].name == protocol;
      }
    }
    exists k :: 0 <= k < |inheritedTypes| && inheritedTypes[k].IdentifierType? && inheritedTypes[k].name == protocol
  }

  /** The violation `verify`'s nested `error` appends: the type's name quoted before the message. */
  function ErrorViolation(configuration: SeverityConfiguration, name: string, position: Position, message: string): (v: Violation)
    ensures v.position == position && v.severity == Some(configuration.severity)
    ensures v.reason == Some("'" + name + "' " + message)
  {
    Violation(position, Some("'" + name + "' " + message), Some(configuration.severity))
  }

  /** What `verify` appends for a type called `name`, declared at `position`, with this clause. */
  function VerifyViolations(configuration: SeverityConfiguration, name: string, position: Position,
                            inheritedTypes: seq<TypeRef>): (r: seq<Violation>)
    ensures |r| <= 1
    ensures r == [] <==> (Adopts(inheritedTypes, EventProtocol) <==> Adopts(inheritedTypes, SerializableEventProtocol))
    ensures Adopts(inheritedTypes, EventProtocol) && !Adopts(inheritedTypes, SerializableEventProtocol)
            ==> r == [ErrorViolation(configuration, name, position, MissingSerializableEvent)]
    ensures Adopts(inheritedTypes, SerializableEventProtocol) && !Adopts(inheritedTypes, EventProtocol)
            ==> r == [ErrorViolation(configuration, name, position, MissingEvent)]
  {
    var adoptsEvent := Adopts(inheritedTypes, EventProtocol);
    var adoptsSerializable := Adopts(inheritedTypes, SerializableEventProtocol);
    (if adoptsEvent && !adoptsSerializable then [ErrorViolation(configuration, name, position, MissingSerializableEvent)] else [])
    + (if adoptsSerializable && !adoptsEvent then [ErrorViolation(configuration, name, position, MissingEvent)] else [])
  }

  /**
   * What `visitPost(StructDecl)` and `visitPost(ClassDecl)` append for `node`:
   * nothing without an inheritance clause, otherwise what `verify` appends for
   * the declared name at the name's position.
   */
  function DeclViolations(configuration: SeverityConfiguration, node: Stmt): (r: seq<Violation>)
    requires node.TypeDecl?
    ensures node.inheritedTypes.None? ==> r == []
    ensures node.inheritedTypes.Some? ==> r == VerifyViolations(configuration, node.name, node.namePos, node.inheritedTypes.value)
  {
    match node.inheritedTypes
    case None => []
    case Some(inheritedTypes) => VerifyViolations(configuration, node.name, node.namePos, inheritedTypes)
  }

  /** The callbacks this rule's visitor overrides; every other node kind appends nothing. */
  function NodeViolations(configuration: SeverityConfiguration, n: Node): (r: seq<Violation>)
    ensures |r| <= 1
    ensures !(n.StmtNode? && n.stmt.TypeDecl?) ==> r == []
  {
    match n
    case StmtNode(s) => if s.TypeDecl? then DeclViolations(configuration, s) else []
    case _ => []
  }

  /**
   * The violations of one walk over a file: what the callbacks append, node
   * by node, in the walk's post-order. Each node adds at most one.
   */
  function Lint(configuration: SeverityConfiguration, file: seq<Stmt>): (r: seq<Violation>)
    ensures |r| <= |FileNodes(file)|
  {
    var visit := n => NodeViolations(configuration, n);
    CollectBound(visit, FileNodes(file));
    Collect(visit, FileNodes(file))
  }

  class Visitor {
    const configuration: SeverityConfiguration
    var violations: seq<Violation>

    constructor (configuration: SeverityConfiguration)
      ensures this.configuration == configuration && violations == []
    {
      this.configuration := configuration;
      violations := [];
    }

    method VisitPostStructDecl(node: Stmt)
      requires node.TypeDecl? && node.kind == Struct
      modifies this
      ensures violations == old(violations) + DeclViolations(configuration, node)
    {
      if node.inheritedTypes.None? {
        return;
      }
      Verify(node.name, node.namePos, node.inheritedTypes.value);
    }

    method VisitPostClassDecl(node: Stmt)
      requires node.TypeDecl? && node.kind == Class
      modifies this
      ensures violations == old(violations) + DeclViolations(configuration, node)
    {
      if node.inheritedTypes.None? {
        return;
      }
      Verify(node.name, node.namePos, node.inheritedTypes.value);
    }

    method Verify(name: string, position: Position, inheritedTypes: seq<TypeRef>)
      modifies this
      ensures violations == old(violations) + VerifyViolations(configuration, name, position, inheritedTypes)
    {
      if Adopts(inheritedTypes, EventProtocol) && !Adopts(inheritedTypes, SerializableEventProtocol) {
        Error(name, position, MissingSerializableEvent);
      }
      if Adopts(inheritedTypes, SerializableEventProtocol) && !Adopts(inheritedTypes, EventProtocol) {
        Error(name, position, MissingEvent);
      }
    }

    /** `verify`'s nested `error`, with the name and position it captures passed in. */
    method Error(name: string, position: Position, message: string)
      modifies this
      ensures violations == old(violations) + [ErrorViolation(configuration, name, position, message)]
    {
      violations := violations + [Violation(position, Some("'" + name + "' " + message), Some(configuration.severity))];
    }
  }

  /** Structs and classes are checked alike. */
  lemma StructsAndClassesAlike(configuration: SeverityConfiguration, node: Stmt)
    requires node.TypeDecl?
    ensures DeclViolations(configuration, node.(kind := Struct)) == DeclViolations(configuration, node.(kind := Class))
  {
  }

  /** A file holding one declaration without attributes or members is reported exactly as that declaration is. */
  lemma {:induction false} LoneDeclReported(configuration: SeverityConfiguration, node: Stmt)
    requires node.TypeDecl? && node.attributes == [] && node.members == []
    ensures Lint(configuration, [node]) == DeclViolations(configuration, node)
  {
    var visit := n => NodeViolations(configuration, n);
    assert Lint(configuration, [node]) == Collect(visit, FileNodes([node]));
    FileOfOne(node);
    assert StmtNodes(node) == [StmtNode(node)] by {
      assert AttributeNodes(node.attributes) == [] && StmtListNodes(node, node.members) == [];
    }
    assert Collect(visit, [StmtNode(node)]) == visit(StmtNode(node)) + Collect(visit, []);
  }

  // The rule's own examples, each a file of one declaration. Each example is indented by four spaces, so the
  // name of a struct starts at offset 11 and the name of a class at offset 10, where the marker is.

  /** Where the example puts the declared name. */
  function NamePos(kind: TypeKind): Position
  {
    if kind == Struct then 11 else 10
  }

  /** A declaration without attributes or members, named `name`, with this inheritance clause. */
  function Decl(kind: TypeKind, name: string, inheritedTypes: Option<seq<TypeRef>>): Stmt
  {
    TypeDecl([], kind, name, NamePos(kind), inheritedTypes, [])
  }

  /** `struct Thing {}` and `class Thing {}` raise nothing: there is no inheritance clause. */
  lemma ExampleNoClause(kind: TypeKind)
    ensures Lint(DefaultConfiguration, [Decl(kind, "Thing", None)]) == []
  {
    LoneDeclReported(DefaultConfiguration, Decl(kind, "Thing", None));
  }

  /** `struct Thing: SomeOtherProtocol {}` raises nothing, nor does a protocol whose name merely contains `Event`. */
  lemma ExampleOtherProtocol(kind: TypeKind)
    ensures Lint(DefaultConfiguration, [Decl(kind, "Thing", Some([IdentifierType("SomeOtherProtocol")]))]) == []
    ensures Lint(DefaultConfiguration, [Decl(kind, "Thing", Some([IdentifierType("SomeOtherProtocolWithEventInTheName")]))])
            == []
  {
    LoneDeclReported(DefaultConfiguration, Decl(kind, "Thing", Some([IdentifierType("SomeOtherProtocol")])));
    LoneDeclReported(DefaultConfiguration, Decl(kind, "Thing", Some([IdentifierType("SomeOtherProtocolWithEventInTheName")])));
  }

  /** `struct MyEvent: Event, SerializableEvent {}` raises nothing. */
  lemma ExampleBothAdopted(kind: TypeKind)
    ensures Lint(DefaultConfiguration, [Decl(kind, "MyEvent", Some([IdentifierType("Event"), IdentifierType("SerializableEvent")]))])
            == []
  {
    var clause := [IdentifierType("Event"), IdentifierType("SerializableEvent")];
    LoneDeclReported(DefaultConfiguration, Decl(kind, "MyEvent", Some(clause)));
  }

  /** `struct MyEvent: Event {}` is reported once, at the name, with the configured (default) severity. */
  lemma ExampleOnlyEvent(kind: TypeKind)
    ensures Lint(DefaultConfiguration, [Decl(kind, "MyEvent", Some([IdentifierType("Event")]))])
            == [Violation(NamePos(kind), Some("'MyEvent' " + MissingSerializableEvent), Some(Warning))]
  {
    LoneDeclReported(DefaultConfiguration, Decl(kind, "MyEvent", Some([IdentifierType("Event")])));
    assert "'" + "MyEvent" + "' " == "'MyEvent' ";
  }

  /** `struct MyEvent: SerializableEvent {}` is reported once, at the name. */
  lemma ExampleOnlySerializableEvent(kind: TypeKind)
    ensures Lint(DefaultConfiguration, [Decl(kind, "MyEvent", Some([IdentifierType("SerializableEvent")]))])
            == [Violation(NamePos(kind), Some("'MyEvent' " + MissingEvent), Some(Warning))]
  {
    LoneDeclReported(DefaultConfiguration, Decl(kind, "MyEvent", Some([IdentifierType("SerializableEvent")])));
    assert "'" + "MyEvent" + "' " == "'MyEvent' ";
  }
}
