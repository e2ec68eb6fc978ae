/**
 The embedded schema of the deployment predicate, as far as the required-member walker reads it: types, required
 members, properties, items and references. Patterns, bounds and enumerations are not read by the walker.
 */
module EmbeddedSchema {
  import opened Wrappers
  import opened Json
  import opened Walker

  function Typed(name: string): Object {
    map["type" := Str(name)]
  }

  function Ref(name: string): Object {
    map["$ref" := Str(DEFINITIONS_PREFIX + name)]
  }

  /** The members of an object: which it must have, and the schemas of those it may have. */
  datatype Members = Members(required: seq<Json>, properties: Object)

  function Record(m: Members): Object {
    map["type" := Str("object"), "required" := Arr(m.required), "properties" := Obj(m.properties)]
  }

  function ListOf(items: Object): Object {
    map["type" := Str("array"), "items" := Obj(items)]
  }

  const TEXT: Object := Typed("string")

  /** Only keywords that the walker does not read. */
  const ARTIFACT_URI: Object := map["allOf" := Arr([])]

  const ARTIFACT_REFERENCE: Members :=
    Members([Str("uri"), Str("digest")], map["uri" := Obj(ARTIFACT_URI), "digest" := Obj(Ref("digest"))])

  const REDACTED_REFERENCE: Members :=
    Members([Str("id"), Str("digest")], map["id" := Obj(TEXT), "digest" := Obj(Ref("digest"))])

  const DECISION: Members :=
    Members([Str("state"), Str("verdict")],
           map["state" := Obj(TEXT), "verdict" := Obj(TEXT), "reference" := Obj(Ref("redactedReference")),
               "observedAt" := Obj(Ref("timestamp"))])

  const OUTCOME: Members :=
    Members([Str("state"), Str("result")],
           map["state" := Obj(TEXT), "result" := Obj(TEXT), "reference" := Obj(Ref("redactedReference")),
               "observedAt" := Obj(Ref("timestamp"))])

  const TEST_RESULT: Members :=
    Members([Str("predicateType"), Str("testId"), Str("statementDigest")],
           map["predicateType" := Obj(TEXT), "testId" := Obj(Ref("id")), "statementDigest" := Obj(Ref("digest"))])

  const CASE: Members :=
    Members([Str("id"), Str("kind"), Str("correlationId"), Str("startedAt"), Str("completedAt"), Str("decision"),
            Str("outcome"), Str("testResult")],
           map["id" := Obj(Ref("id")), "kind" := Obj(TEXT), "correlationId" := Obj(Ref("digest")),
               "startedAt" := Obj(Ref("timestamp")), "completedAt" := Obj(Ref("timestamp")),
               "decision" := Obj(Record(DECISION)), "outcome" := Obj(Record(OUTCOME)),
               "testResult" := Obj(Record(TEST_RESULT))])

  const DEFINITIONS: Object :=
    map["digest" := Obj(TEXT), "id" := Obj(TEXT), "timestamp" := Obj(TEXT), "absoluteURI" := Obj(TEXT),
        "artifactReference" := Obj(Record(ARTIFACT_REFERENCE)), "redactedReference" := Obj(Record(REDACTED_REFERENCE)),
        "conformanceCase" := Obj(Record(CASE))]

  const AGENT: Members :=
    Members([Str("name"), Str("uri"), Str("artifactDigest")],
           map["name" := Obj(TEXT), "uri" := Obj(Ref("absoluteURI")), "artifactDigest" := Obj(Ref("digest"))])

  const RUNTIME: Members :=
    Members([Str("name"), Str("version"), Str("artifact")],
           map["name" := Obj(TEXT), "version" := Obj(TEXT), "framework" := Obj(TEXT),
               "artifact" := Obj(Ref("artifactReference"))])

  const ADAPTER: Members :=
    Members([Str("name"), Str("artifact"), Str("contractVersion"), Str("runtimeDigest")],
           map["name" := Obj(TEXT), "artifact" := Obj(Ref("artifactReference")), "contractVersion" := Obj(TEXT),
               "runtimeDigest" := Obj(Ref("digest"))])

  const RUNTIME_POLICY: Members :=
    Members([Str("engine"), Str("artifact"), Str("count"), Str("loaded")],
           map["engine" := Obj(Ref("id")), "artifact" := Obj(Ref("artifactReference")),
               "count" := Obj(Typed("integer")), "loaded" := Obj(Typed("boolean"))])

  const ENFORCEMENT: Members :=
    Members([Str("mode"), Str("defaultBehavior"), Str("requiredInterventionPoints"), Str("observedInterventionPoints")],
           map["mode" := Obj(TEXT), "defaultBehavior" := Obj(TEXT),
               "requiredInterventionPoints" := Obj(ListOf(Ref("id"))),
               "observedInterventionPoints" := Obj(ListOf(Ref("id")))])

  const IDENTITY: Members :=
    Members([Str("providerUri"), Str("subjectKind"), Str("subject")],
           map["providerUri" := Obj(Ref("absoluteURI")), "subjectKind" := Obj(TEXT),
               "subject" := Obj(Ref("redactedReference"))])

  const AUDIT: Members :=
    Members([Str("sinkKind"), Str("sink"), Str("configurationDigest")],
           map["sinkKind" := Obj(Ref("id")), "sink" := Obj(Ref("redactedReference")),
               "configurationDigest" := Obj(Ref("digest"))])

  const FIXTURE: Members :=
    Members([Str("id"), Str("producer")], map["id" := Obj(Ref("id")), "producer" := Obj(TEXT)])

  const CONTROLLED_TOOL: Members :=
    Members([Str("name"), Str("actionClass"), Str("artifact")],
           map["name" := Obj(TEXT), "actionClass" := Obj(TEXT), "artifact" := Obj(Ref("artifactReference"))])

  const CONFORMANCE: Members :=
    Members([Str("fixture"), Str("controlledTool"), Str("cases")],
           map["fixture" := Obj(Record(FIXTURE)), "controlledTool" := Obj(Record(CONTROLLED_TOOL)),
               "cases" := Obj(ListOf(Ref("conformanceCase")))])

  const SECTIONS: map<string, Members> :=
    map["agent" := AGENT, "runtime" := RUNTIME, "adapter" := ADAPTER, "runtimePolicy" := RUNTIME_POLICY,
        "enforcement" := ENFORCEMENT, "identity" := IDENTITY, "audit" := AUDIT]

  const PREDICATE: Members :=
    Members([Str("schemaVersion"), Str("agent"), Str("runtime"), Str("adapter"), Str("runtimePolicy"),
            Str("enforcement"), Str("identity"), Str("audit"), Str("conformance")],
           map["schemaVersion" := Obj(TEXT), "agent" := Obj(Record(AGENT)), "runtime" := Obj(Record(RUNTIME)),
               "adapter" := Obj(Record(ADAPTER)), "runtimePolicy" := Obj(Record(RUNTIME_POLICY)),
               "enforcement" := Obj(Record(ENFORCEMENT)), "identity" := Obj(Record(IDENTITY)),
               "audit" := Obj(Record(AUDIT)),
               "conformance" := Obj(Record(CONFORMANCE)), "extensions" := Obj(Typed("object"))])

  // ----- how the walker reads the building blocks -----

  /** A schema in which the walker finds nothing to check or to descend into. */
  predicate Leaf(s: Object) {
    Reference(s).None? && RequiredOf(s) == [] && PropertiesOf(s) == map[] && ItemsOf(s).None?
  }

  lemma LeafRead(name: string)
    ensures Leaf(Typed(name)) && Leaf(ARTIFACT_URI)
  {
  }

  lemma RecordRead(m: Members)
    ensures var s := Record(m);
            && Reference(s).None? && RequiredOf(s) == m.required && PropertiesOf(s) == m.properties
            && ItemsOf(s).None? && HasType(s, "object") && !HasType(s, "array")
  {
  }

  lemma ListRead(items: Object)
    ensures var s := ListOf(items);
            && Reference(s).None? && RequiredOf(s) == [] && PropertiesOf(s) == map[] && ItemsOf(s) == Some(items)
            && HasType(s, "array") && !HasType(s, "object")
  {
  }

  // ----- the definitions -----

  lemma NoTarget(name: string)
    requires name in DEFINITIONS
    ensures DEFINITIONS[name].Obj? && Reference(DEFINITIONS[name].fields).None?
  {
    hide TEXT, Record, ARTIFACT_REFERENCE, REDACTED_REFERENCE, CASE, Reference;
    DefinedRead();
  }

  lemma DefinedRead()
    ensures Reference(TEXT).None? && Reference(Record(ARTIFACT_REFERENCE)).None?
    ensures Reference(Record(REDACTED_REFERENCE)).None? && Reference(Record(CASE)).None?
  {
    hide Record, Reference, Typed;
    LeafRead("string");
    RecordRead(ARTIFACT_REFERENCE);
    RecordRead(REDACTED_REFERENCE);
    RecordRead(CASE);
  }

  /** No definition is a bare reference, so there is no cycle of references. */
  lemma DefinitionsAcyclic()
    ensures Acyclic(DEFINITIONS)
  {
    hide DEFINITIONS;
    forall names: seq<string>
      ensures !Cycle(DEFINITIONS, names)
    {
      if |names| >= 2 && names[0] in DEFINITIONS {
        NoTarget(names[0]);
        assert TargetName(DEFINITIONS, DEFINITIONS[names[0]].fields) != Some(names[1]);
      }
    }
  }

  lemma RefResolves(name: string)
    requires Acyclic(DEFINITIONS) && name in DEFINITIONS
    ensures DEFINITIONS[name].Obj? && Resolve(DEFINITIONS, Ref(name)) == Some(DEFINITIONS[name].fields)
  {
    hide DEFINITIONS;
    NoTarget(name);
    var ref := DEFINITIONS_PREFIX + name;
    assert ref[|DEFINITIONS_PREFIX|..] == name;
    assert Target(DEFINITIONS, Ref(name)) == Some(DEFINITIONS[name].fields);
  }

  // ----- schemas that never require a statement digest -----

  /** Neither the schema nor anything within the given depth below it requires a statement digest. */
  ghost predicate Plain(schema: Object, depth: nat)
    requires Acyclic(DEFINITIONS)
    decreases depth
  {
    var s := Resolve(DEFINITIONS, schema);
    && s.Some?
    && Str("statementDigest") !in RequiredOf(s.value)
    && (forall k | k in PropertiesOf(s.value) && PropertiesOf(s.value)[k].Obj? ::
          depth > 0 && Plain(PropertiesOf(s.value)[k].fields, depth - 1))
    && (ItemsOf(s.value).Some? ==> depth > 0 && Plain(ItemsOf(s.value).value, depth - 1))
  }

  /** Whether the schema of a position requires a statement digest. */
  ghost predicate RequiresDigest(p: Position)
    requires Acyclic(DEFINITIONS)
  {
    var s := Resolve(DEFINITIONS, p.schema);
    s.Some? && Str("statementDigest") in RequiredOf(s.value)
  }

  lemma {:induction false} PlainBelow(p: Position, steps: seq<Step>, depth: nat)
    requires Acyclic(DEFINITIONS) && Plain(p.schema, depth) && At(p, DEFINITIONS, steps).Some?
    ensures !RequiresDigest(At(p, DEFINITIONS, steps).value)
    decreases |steps|
  {
    hide DEFINITIONS;
    if steps != [] {
      var q := Below(p, DEFINITIONS, steps[0]).value;
      assert depth > 0 && Plain(q.schema, depth - 1);
      PlainBelow(q, steps[1..], depth - 1);
    }
  }

  lemma PlainLeaf(schema: Object, depth: nat)
    requires Acyclic(DEFINITIONS) && Leaf(schema)
    ensures Plain(schema, depth)
  {
    hide DEFINITIONS;
  }

  lemma PlainRef(name: string, depth: nat)
    requires Acyclic(DEFINITIONS) && name in DEFINITIONS && DEFINITIONS[name].Obj?
    requires Plain(DEFINITIONS[name].fields, depth)
    ensures Plain(Ref(name), depth)
  {
    hide DEFINITIONS, Ref;
    RefResolves(name);
    NoTarget(name);
  }

  lemma PlainRecord(m: Members, depth: nat)
    requires Acyclic(DEFINITIONS) && depth > 0 && Str("statementDigest") !in m.required
    requires forall k | k in m.properties && m.properties[k].Obj? :: Plain(m.properties[k].fields, depth - 1)
    ensures Plain(Record(m), depth)
  {
    hide DEFINITIONS, Record;
    RecordRead(m);
  }

  lemma PlainList(items: Object, depth: nat)
    requires Acyclic(DEFINITIONS) && Plain(items, depth)
    ensures Plain(ListOf(items), depth + 1)
  {
    hide DEFINITIONS, ListOf;
    ListRead(items);
  }

  /** The four definitions of texts. */
  lemma PlainTexts(depth: nat)
    requires Acyclic(DEFINITIONS)
    ensures Plain(TEXT, depth)
    ensures forall name | name in {"digest", "id", "timestamp", "absoluteURI"} :: Plain(Ref(name), depth)
  {
    hide DEFINITIONS, Plain, Leaf, Typed;
    LeafRead("string");
    PlainLeaf(TEXT, depth);
    forall name | name in {"digest", "id", "timestamp", "absoluteURI"}
      ensures Plain(Ref(name), depth)
    {
      TextDefinition(name);
      PlainRef(name, depth);
    }
  }

  lemma TextDefinition(name: string)
    requires name in {"digest", "id", "timestamp", "absoluteURI"}
    ensures name in DEFINITIONS && DEFINITIONS[name] == Obj(TEXT)
  {
    hide TEXT, Record, ARTIFACT_REFERENCE, REDACTED_REFERENCE, CASE;
  }

  lemma RecordDefinitions()
    ensures DEFINITIONS["artifactReference"] == Obj(Record(ARTIFACT_REFERENCE))
    ensures DEFINITIONS["redactedReference"] == Obj(Record(REDACTED_REFERENCE))
    ensures DEFINITIONS["conformanceCase"] == Obj(Record(CASE))
    ensures {"artifactReference", "redactedReference", "conformanceCase"} <= DEFINITIONS.Keys
  {
    hide TEXT, Record, ARTIFACT_REFERENCE, REDACTED_REFERENCE, CASE;
  }

  lemma PlainReferences(depth: nat)
    requires Acyclic(DEFINITIONS) && depth >= 1
    ensures Plain(Ref("artifactReference"), depth) && Plain(Ref("redactedReference"), depth)
  {
    hide Plain, DEFINITIONS, Record, Ref, TEXT, CASE, Leaf, Typed, ARTIFACT_URI;
    RecordDefinitions();
    PlainTexts(depth - 1);
    LeafRead("string");
    PlainLeaf(ARTIFACT_URI, depth - 1);
    PlainRecord(ARTIFACT_REFERENCE, depth);
    PlainRecord(REDACTED_REFERENCE, depth);
    PlainRef("artifactReference", depth);
    PlainRef("redactedReference", depth);
  }

  /** The schemas that sections of the predicate are put together from. */
  ghost predicate PlainPart(schema: Object) {
    || schema == TEXT || schema == Typed("integer") || schema == Typed("boolean") || schema == Typed("object")
    || schema == Ref("digest") || schema == Ref("id") || schema == Ref("timestamp") || schema == Ref("absoluteURI")
    || schema == Ref("artifactReference") || schema == Ref("redactedReference")
    || schema == ListOf(Ref("id"))
  }

  lemma PlainParts(schema: Object, depth: nat)
    requires Acyclic(DEFINITIONS) && PlainPart(schema) && depth >= 1
    ensures Plain(schema, depth)
  {
    hide Plain, DEFINITIONS, Typed, Ref, ListOf, Leaf, ARTIFACT_URI;
    PlainTexts(depth);
    PlainTexts(depth - 1);
    PlainReferences(depth);
    PlainList(Ref("id"), depth - 1);
    LeafRead("integer");
    LeafRead("boolean");
    LeafRead("object");
    if schema in {Typed("integer"), Typed("boolean"), Typed("object")} {
      PlainLeaf(schema, depth);
    }
  }

  /** A section without a required statement digest, put together from plain parts. */
  ghost predicate PlainMembers(m: Members) {
    && Str("statementDigest") !in m.required
    && forall k | k in m.properties && m.properties[k].Obj? :: PlainPart(m.properties[k].fields)
  }

  lemma PlainSection(m: Members, depth: nat)
    requires Acyclic(DEFINITIONS) && PlainMembers(m) && depth >= 2
    ensures Plain(Record(m), depth)
  {
    hide Plain, PlainPart, DEFINITIONS, Record;
    forall k | k in m.properties && m.properties[k].Obj?
      ensures Plain(m.properties[k].fields, depth - 1)
    {
      PlainParts(m.properties[k].fields, depth - 1);
    }
    PlainRecord(m, depth);
  }

  lemma IdentitySections()
    ensures PlainMembers(AGENT) && PlainMembers(IDENTITY)
  {
    hide Typed, Ref, ListOf, TEXT;
  }

  lemma AuditSection()
    ensures PlainMembers(AUDIT)
  {
    hide Typed, Ref, ListOf, TEXT;
  }

  lemma RuntimeSections()
    ensures PlainMembers(RUNTIME) && PlainMembers(ADAPTER)
  {
    hide Typed, Ref, ListOf, TEXT;
  }

  lemma PolicySection()
    ensures PlainMembers(RUNTIME_POLICY)
  {
    hide Typed, Ref, ListOf, TEXT;
  }

  lemma EnforcementSection()
    ensures PlainMembers(ENFORCEMENT)
  {
    hide Typed, Ref, ListOf, TEXT;
  }

  lemma ConformanceSections()
    ensures PlainMembers(FIXTURE) && PlainMembers(CONTROLLED_TOOL)
  {
    hide Typed, Ref, ListOf, TEXT;
  }

  lemma ObservationSections()
    ensures PlainMembers(DECISION) && PlainMembers(OUTCOME)
  {
    hide Typed, Ref, ListOf, TEXT;
  }

  // ----- where a statement digest is required -----

  /** A step below an object leads to one of its properties. */
  lemma BelowRecord(p: Position, m: Members, step: Step)
    requires Acyclic(DEFINITIONS) && p.schema == Record(m)
    ensures var q := Below(p, DEFINITIONS, step);
            q.Some? ==> && step.Member? && step.name in m.properties && m.properties[step.name].Obj?
                        && q.value.schema == m.properties[step.name].fields
  {
    hide DEFINITIONS, Record;
    RecordRead(m);
  }

  lemma BelowList(p: Position, items: Object, step: Step)
    requires Acyclic(DEFINITIONS) && p.schema == ListOf(items)
    ensures var q := Below(p, DEFINITIONS, step);
            q.Some? ==> step.Item? && q.value.schema == items
  {
    hide DEFINITIONS, ListOf;
    ListRead(items);
  }

  lemma HereRecord(p: Position, m: Members)
    requires Acyclic(DEFINITIONS) && p.schema == Record(m)
    ensures RequiresDigest(p) <==> Str("statementDigest") in m.required
  {
    hide DEFINITIONS, Record;
    RecordRead(m);
  }

  lemma InTestResult(p: Position, steps: seq<Step>)
    requires Acyclic(DEFINITIONS) && p.schema == Record(TEST_RESULT) && At(p, DEFINITIONS, steps).Some?
    ensures RequiresDigest(At(p, DEFINITIONS, steps).value) <==> steps == []
  {
    hide DEFINITIONS, Record, Typed, Ref, ListOf, TEXT, Below, RequiresDigest, Plain;
    HereRecord(p, TEST_RESULT);
    if steps != [] {
      BelowRecord(p, TEST_RESULT, steps[0]);
      var q := Below(p, DEFINITIONS, steps[0]).value;
      PlainParts(q.schema, 1);
      PlainBelow(q, steps[1..], 1);
    }
  }

  lemma InCase(p: Position, steps: seq<Step>)
    requires Acyclic(DEFINITIONS) && p.schema == Record(CASE) && At(p, DEFINITIONS, steps).Some?
    ensures RequiresDigest(At(p, DEFINITIONS, steps).value) <==> steps == [Member("testResult")]
  {
    hide DEFINITIONS, Record, Typed, Ref, ListOf, TEXT, Below, RequiresDigest, Plain, DECISION, OUTCOME, TEST_RESULT;
    HereRecord(p, CASE);
    if steps != [] {
      BelowRecord(p, CASE, steps[0]);
      var q := Below(p, DEFINITIONS, steps[0]).value;
      if steps[0] == Member("testResult") {
        InTestResult(q, steps[1..]);
        assert steps == [steps[0]] + steps[1..];
      } else {
        PlainCaseMember(steps[0].name);
        PlainBelow(q, steps[1..], 2);
      }
    }
  }

  lemma PlainCaseMember(name: string)
    requires Acyclic(DEFINITIONS) && name in CASE.properties && name != "testResult"
    ensures CASE.properties[name].Obj? && Plain(CASE.properties[name].fields, 2)
  {
    hide DEFINITIONS, Record, Typed, Ref, ListOf, TEXT, Plain, DECISION, OUTCOME, TEST_RESULT, PlainMembers;
    ObservationSections();
    PlainSection(DECISION, 2);
    PlainSection(OUTCOME, 2);
    if name != "decision" && name != "outcome" {
      PlainParts(CASE.properties[name].fields, 2);
    }
  }

  lemma InCases(p: Position, steps: seq<Step>)
    requires Acyclic(DEFINITIONS) && p.schema == ListOf(Ref("conformanceCase")) && At(p, DEFINITIONS, steps).Some?
    ensures RequiresDigest(At(p, DEFINITIONS, steps).value) <==>
      |steps| == 2 && steps[0].Item? && steps[1] == Member("testResult")
  {
    hide DEFINITIONS, Record, Typed, Ref, ListOf, Below, Plain, CASE;
    ListRead(Ref("conformanceCase"));
    if steps != [] {
      BelowList(p, Ref("conformanceCase"), steps[0]);
      var q := Below(p, DEFINITIONS, steps[0]).value;
      RecordDefinitions();
      ThroughReference(q, "conformanceCase", CASE, steps[1..]);
      InCase(q.(schema := Record(CASE)), steps[1..]);
      assert steps == [steps[0]] + steps[1..];
    }
  }

  /** A position held against a reference leads where the definition leads. */
  lemma ThroughReference(p: Position, name: string, m: Members, steps: seq<Step>)
    requires Acyclic(DEFINITIONS) && name in DEFINITIONS && DEFINITIONS[name] == Obj(Record(m))
    requires p.schema == Ref(name)
    ensures var q := p.(schema := Record(m));
            && At(p, DEFINITIONS, steps).Some? == At(q, DEFINITIONS, steps).Some?
            && (At(p, DEFINITIONS, steps).Some? ==>
                  RequiresDigest(At(p, DEFINITIONS, steps).value) == RequiresDigest(At(q, DEFINITIONS, steps).value))
  {
    hide DEFINITIONS, Record, Ref;
    RefResolves(name);
    RecordRead(m);
    if steps != [] {
      assert Below(p, DEFINITIONS, steps[0]) == Below(p.(schema := Record(m)), DEFINITIONS, steps[0]);
    }
  }

  lemma InConformance(p: Position, steps: seq<Step>)
    requires Acyclic(DEFINITIONS) && p.schema == Record(CONFORMANCE) && At(p, DEFINITIONS, steps).Some?
    ensures RequiresDigest(At(p, DEFINITIONS, steps).value) <==>
      |steps| == 3 && steps[0] == Member("cases") && steps[1].Item? && steps[2] == Member("testResult")
  {
    hide DEFINITIONS, Record, Typed, Ref, ListOf, TEXT, Below, RequiresDigest, Plain, FIXTURE, CONTROLLED_TOOL;
    hide PlainMembers;
    HereRecord(p, CONFORMANCE);
    if steps != [] {
      BelowRecord(p, CONFORMANCE, steps[0]);
      var q := Below(p, DEFINITIONS, steps[0]).value;
      if steps[0] == Member("cases") {
        InCases(q, steps[1..]);
      } else {
        ConformanceSections();
        PlainSection(FIXTURE, 2);
        PlainSection(CONTROLLED_TOOL, 2);
        PlainBelow(q, steps[1..], 2);
      }
    }
  }

  lemma SectionsPlain(name: string)
    requires name in SECTIONS
    ensures PlainMembers(SECTIONS[name])
  {
    hide PlainMembers, AGENT, RUNTIME, ADAPTER, RUNTIME_POLICY, ENFORCEMENT, IDENTITY, AUDIT;
    IdentitySections();
    AuditSection();
    RuntimeSections();
    PolicySection();
    EnforcementSection();
  }

  lemma RootMembers(name: string)
    requires name in PREDICATE.properties && name != "conformance"
    ensures name in SECTIONS ==> PREDICATE.properties[name] == Obj(Record(SECTIONS[name]))
    ensures name !in SECTIONS ==> PREDICATE.properties[name] in {Obj(TEXT), Obj(Typed("object"))}
  {
    hide Record, Typed, TEXT, AGENT, RUNTIME, ADAPTER, RUNTIME_POLICY, ENFORCEMENT, IDENTITY, AUDIT, CONFORMANCE;
  }

  lemma PlainRootMember(name: string)
    requires Acyclic(DEFINITIONS) && name in PREDICATE.properties && name != "conformance"
    ensures PREDICATE.properties[name].Obj? && Plain(PREDICATE.properties[name].fields, 2)
  {
    hide DEFINITIONS, PREDICATE, SECTIONS, Record, Typed, Ref, ListOf, TEXT, Plain, PlainMembers;
    RootMembers(name);
    if name in SECTIONS {
      SectionsPlain(name);
      PlainSection(SECTIONS[name], 2);
    } else {
      PlainParts(PREDICATE.properties[name].fields, 2);
    }
  }

  predicate IsTestResult(steps: seq<Step>) {
    && |steps| == 4
    && steps[0] == Member("conformance") && steps[1] == Member("cases") && steps[2].Item?
    && steps[3] == Member("testResult")
  }

  /** Of all positions the schema addresses, only the test-result references of the cases require the member. */
  lemma DigestRequiredOnlyThere(p: Position, steps: seq<Step>)
    requires Acyclic(DEFINITIONS) && p.schema == Record(PREDICATE) && At(p, DEFINITIONS, steps).Some?
    ensures RequiresDigest(At(p, DEFINITIONS, steps).value) <==> IsTestResult(steps)
  {
    hide DEFINITIONS, Record, Typed, Ref, ListOf, TEXT, Below, RequiresDigest, Plain, PlainMembers, AGENT, RUNTIME;
    hide ADAPTER, RUNTIME_POLICY, ENFORCEMENT, IDENTITY, AUDIT, CONFORMANCE;
    HereRecord(p, PREDICATE);
    if steps != [] {
      BelowRecord(p, PREDICATE, steps[0]);
      var q := Below(p, DEFINITIONS, steps[0]).value;
      if steps[0] == Member("conformance") {
        InConformance(q, steps[1..]);
      } else {
        PlainRootMember(steps[0].name);
        PlainBelow(q, steps[1..], 2);
      }
    }
  }

  /**
   Held against the embedded schema, the walker defers one member only, in whatever value and at whatever index: the
   statement digest of a case's test-result reference.
   */
  lemma OnlyStatementDigestDeferred(value: Json, steps: seq<Step>, name: string)
    ensures Acyclic(DEFINITIONS)
    ensures var q := At(Position(value, Record(PREDICATE)), DEFINITIONS, steps);
            q.Some? ==>
              var s := Resolve(DEFINITIONS, q.value.schema);
              (s.Some? && Str(name) in RequiredOf(s.value) && Deferred("evidence" + PathText(steps), name))
              <==> (name == "statementDigest" && IsTestResult(steps))
  {
    hide DEFINITIONS, PREDICATE, PathText, HasSuffix, At, Resolve, Record, DotlessSteps, RequiredOf;
    DefinitionsAcyclic();
    var p := Position(value, Record(PREDICATE));
    if At(p, DEFINITIONS, steps).Some? {
      DigestRequiredOnlyThere(p, steps);
      if IsTestResult(steps) {
        NamesDotless(steps);
        SuffixIffLastStep("evidence", steps);
      }
    }
  }

  lemma NamesDotless(steps: seq<Step>)
    requires IsTestResult(steps)
    ensures DotlessSteps(steps)
  {
  }
}
