/**
 What evidence the required-member walker accepts, spelled out member by member, and held against the walker run on the
 embedded schema.
 */
module Completeness {
  import opened Wrappers
  import opened Json
  import opened Walker
  import opened EmbeddedSchema
  import Forms

  // ----- complete evidence -----

  /** An object with the required members, in which no declared member that is present is null. */
  predicate Whole(v: Json, required: set<string>, optional: set<string>) {
    && v.Obj?
    && required <= v.fields.Keys
    && forall k | k in required + optional && k in v.fields :: v.fields[k] != Null
  }

  predicate WholeList(v: Json) {
    v.Arr? && forall i | 0 <= i < |v.items| :: v.items[i] != Null
  }

  predicate WholeArtifact(v: Json) {
    Whole(v, {"uri", "digest"}, {})
  }

  predicate WholeRedacted(v: Json) {
    Whole(v, {"id", "digest"}, {})
  }

  /** Required and optional members, one of which holds an artifact or a redacted reference. */
  predicate WholeWith(v: Json, required: set<string>, optional: set<string>, key: string, part: Json -> bool) {
    Whole(v, required, optional) && (key in v.fields ==> part(v.fields[key]))
  }

  predicate WholeRuntime(v: Json) {
    WholeWith(v, {"name", "version", "artifact"}, {"framework"}, "artifact", WholeArtifact)
  }

  predicate WholeAdapter(v: Json) {
    WholeWith(v, {"name", "artifact", "contractVersion", "runtimeDigest"}, {}, "artifact", WholeArtifact)
  }

  predicate WholePolicy(v: Json) {
    WholeWith(v, {"engine", "artifact", "count", "loaded"}, {}, "artifact", WholeArtifact)
  }

  predicate WholeEnforcement(v: Json) {
    && Whole(v, {"mode", "defaultBehavior", "requiredInterventionPoints", "observedInterventionPoints"}, {})
    && WholeList(v.fields["requiredInterventionPoints"]) && WholeList(v.fields["observedInterventionPoints"])
  }

  predicate WholeIdentity(v: Json) {
    WholeWith(v, {"providerUri", "subjectKind", "subject"}, {}, "subject", WholeRedacted)
  }

  predicate WholeAudit(v: Json) {
    WholeWith(v, {"sinkKind", "sink", "configurationDigest"}, {}, "sink", WholeRedacted)
  }

  predicate WholeTool(v: Json) {
    WholeWith(v, {"name", "actionClass", "artifact"}, {}, "artifact", WholeArtifact)
  }

  predicate WholeDecision(v: Json) {
    WholeWith(v, {"state", "verdict"}, {"reference", "observedAt"}, "reference", WholeRedacted)
  }

  predicate WholeOutcome(v: Json) {
    WholeWith(v, {"state", "result"}, {"reference", "observedAt"}, "reference", WholeRedacted)
  }

  /** The one place where a member that the schema requires may be absent. */
  predicate WholeTestResult(v: Json) {
    Whole(v, {"predicateType", "testId"}, {"statementDigest"})
  }

  predicate WholeCase(v: Json) {
    && Whole(v, {"id", "kind", "correlationId", "startedAt", "completedAt", "decision", "outcome", "testResult"}, {})
    && WholeDecision(v.fields["decision"]) && WholeOutcome(v.fields["outcome"])
    && WholeTestResult(v.fields["testResult"])
  }

  predicate WholeConformance(v: Json) {
    && Whole(v, {"fixture", "controlledTool", "cases"}, {})
    && Whole(v.fields["fixture"], {"id", "producer"}, {})
    && WholeTool(v.fields["controlledTool"])
    && v.fields["cases"].Arr?
    && forall i | 0 <= i < |v.fields["cases"].items| :: WholeCase(v.fields["cases"].items[i])
  }

  /** Evidence that may be decoded. */
  predicate Complete(v: Json) {
    && Whole(v, {"schemaVersion", "agent", "runtime", "adapter", "runtimePolicy", "enforcement", "identity", "audit",
                 "conformance"}, {"extensions"})
    && Whole(v.fields["agent"], {"name", "uri", "artifactDigest"}, {})
    && WholeRuntime(v.fields["runtime"]) && WholeAdapter(v.fields["adapter"])
    && WholePolicy(v.fields["runtimePolicy"]) && WholeEnforcement(v.fields["enforcement"])
    && WholeIdentity(v.fields["identity"]) && WholeAudit(v.fields["audit"])
    && WholeConformance(v.fields["conformance"])
    && ("extensions" in v.fields ==> v.fields["extensions"].Obj?)
  }

  // ----- the walker on the building blocks -----

  lemma AcceptsLeaf(v: Json, s: Object, path: string)
    requires Acyclic(DEFINITIONS) && Reference(s).None? && !HasType(s, "object") && !HasType(s, "array")
    ensures Accepts(v, s, DEFINITIONS, path) <==> v != Null
  {
    hide DEFINITIONS;
  }

  lemma AcceptsTyped(v: Json, name: string, path: string)
    requires Acyclic(DEFINITIONS) && name != "object" && name != "array"
    ensures Accepts(v, Typed(name), DEFINITIONS, path) <==> v != Null
  {
    hide DEFINITIONS, Accepts;
    AcceptsLeaf(v, Typed(name), path);
  }

  lemma AcceptsUri(v: Json, path: string)
    requires Acyclic(DEFINITIONS)
    ensures Accepts(v, ARTIFACT_URI, DEFINITIONS, path) <==> v != Null
  {
    hide DEFINITIONS, Accepts;
    AcceptsLeaf(v, ARTIFACT_URI, path);
  }

  lemma RefTarget(name: string)
    requires name in DEFINITIONS
    ensures DEFINITIONS[name].Obj?
    ensures Reference(Ref(name)).Some? && Target(DEFINITIONS, Ref(name)) == Some(DEFINITIONS[name].fields)
  {
    hide DEFINITIONS;
    NoTarget(name);
    var ref := DEFINITIONS_PREFIX + name;
    assert ref[|DEFINITIONS_PREFIX|..] == name;
  }

  lemma AcceptsRef(v: Json, name: string, path: string)
    requires Acyclic(DEFINITIONS) && name in DEFINITIONS
    ensures DEFINITIONS[name].Obj?
    ensures Accepts(v, Ref(name), DEFINITIONS, path) <==>
      v != Null && Accepts(v, DEFINITIONS[name].fields, DEFINITIONS, path)
  {
    hide DEFINITIONS, Ref;
    RefTarget(name);
  }

  lemma AcceptsRecord(v: Json, m: Members, path: string)
    requires Acyclic(DEFINITIONS)
    ensures Accepts(v, Record(m), DEFINITIONS, path) <==>
      && v.Obj?
      && (forall r | r in m.required :: RequiredMet(r, v.fields, path))
      && forall k | k in m.properties && k in v.fields ::
           m.properties[k].Obj? && Accepts(v.fields[k], m.properties[k].fields, DEFINITIONS, path + "." + k)
  {
    hide DEFINITIONS, Record, RequiredMet;
    RecordRead(m);
  }

  lemma AcceptsList(v: Json, items: Object, path: string)
    requires Acyclic(DEFINITIONS)
    ensures Accepts(v, ListOf(items), DEFINITIONS, path) <==>
      && v.Arr?
      && forall i | 0 <= i < |v.items| :: Accepts(v.items[i], items, DEFINITIONS, path + "[" + Forms.Digits(i) + "]")
  {
    hide DEFINITIONS, ListOf;
    ListRead(items);
  }

  /** The text definitions accept what is not null. */
  lemma AcceptsText(v: Json, name: string, path: string)
    requires Acyclic(DEFINITIONS) && name in {"digest", "id", "timestamp", "absoluteURI"}
    ensures Accepts(v, Ref(name), DEFINITIONS, path) <==> v != Null
  {
    hide DEFINITIONS, Accepts, Ref, Typed;
    TextDefinition(name);
    AcceptsRef(v, name, path);
    AcceptsTyped(v, "string", path);
  }

  /** Schemas that only refuse null. */
  ghost predicate Scalar(s: Object) {
    || s == TEXT || s == Typed("integer") || s == Typed("boolean") || s == ARTIFACT_URI
    || s == Ref("digest") || s == Ref("id") || s == Ref("timestamp") || s == Ref("absoluteURI")
  }

  lemma AcceptsScalar(v: Json, s: Object, path: string)
    requires Acyclic(DEFINITIONS) && Scalar(s)
    ensures Accepts(v, s, DEFINITIONS, path) <==> v != Null
  {
    hide DEFINITIONS, Accepts, Ref, Typed, ARTIFACT_URI;
    AcceptsTyped(v, "string", path);
    AcceptsTyped(v, "integer", path);
    AcceptsTyped(v, "boolean", path);
    AcceptsUri(v, path);
    AcceptsText(v, "digest", path);
    AcceptsText(v, "id", path);
    AcceptsText(v, "timestamp", path);
    AcceptsText(v, "absoluteURI", path);
  }

  /** The members that a section requires and allows, and which of them are more than scalars. */
  ghost predicate Describes(m: Members, required: set<string>, optional: set<string>, parts: set<string>) {
    && (forall r | r in m.required :: r.Str? && r.s in required)
    && (forall n | n in required :: Str(n) in m.required)
    && m.properties.Keys == required + optional
    && (forall k | k in m.properties :: m.properties[k].Obj? && (k in parts || Scalar(m.properties[k].fields)))
  }

  /** A section is accepted when it is whole and each of its larger parts is accepted. */
  lemma AcceptsSection(
    v: Json, m: Members, required: set<string>, optional: set<string>, parts: set<string>, path: string)
    requires Acyclic(DEFINITIONS) && Describes(m, required, optional, parts) && "statementDigest" !in required
    ensures Accepts(v, Record(m), DEFINITIONS, path) <==>
      && Whole(v, required, optional)
      && forall k | k in m.properties && k in parts && k in v.fields ::
           Accepts(v.fields[k], m.properties[k].fields, DEFINITIONS, path + "." + k)
  {
    hide DEFINITIONS, Accepts, Record, Scalar, HasSuffix;
    AcceptsRecord(v, m, path);
    if v.Obj? {
      forall k | k in m.properties && k in v.fields && k !in parts
        ensures Accepts(v.fields[k], m.properties[k].fields, DEFINITIONS, path + "." + k) <==> v.fields[k] != Null
      {
        AcceptsScalar(v.fields[k], m.properties[k].fields, path + "." + k);
      }
      forall k | k in m.properties && k in v.fields
        ensures Accepts(v.fields[k], m.properties[k].fields, DEFINITIONS, path + "." + k) ==> v.fields[k] != Null
      {
        NeverNull(m.properties[k].fields, path + "." + k);
      }
      assert (forall r | r in m.required :: RequiredMet(r, v.fields, path)) <==> required <= v.fields.Keys;
    }
  }

  lemma NeverNull(s: Object, path: string)
    requires Acyclic(DEFINITIONS)
    ensures !Accepts(Null, s, DEFINITIONS, path)
  {
    hide DEFINITIONS;
  }

  const CASE_NAMES: set<string> :=
    {"id", "kind", "correlationId", "startedAt", "completedAt", "decision", "outcome", "testResult"}

  const ROOT_NAMES: set<string> :=
    {"schemaVersion", "agent", "runtime", "adapter", "runtimePolicy", "enforcement", "identity", "audit", "conformance"}

  const ROOT_PARTS: set<string> :=
    {"agent", "runtime", "adapter", "runtimePolicy", "enforcement", "identity", "audit", "conformance", "extensions"}

  lemma ArtifactDescribed()
    ensures Describes(ARTIFACT_REFERENCE, {"uri", "digest"}, {}, {})
  {
    hide Typed, Ref, ListOf, TEXT, ARTIFACT_URI, Record;
  }

  lemma RedactedDescribed()
    ensures Describes(REDACTED_REFERENCE, {"id", "digest"}, {}, {})
  {
    hide Typed, Ref, ListOf, TEXT, ARTIFACT_URI, Record;
  }

  lemma AgentDescribed()
    ensures Describes(AGENT, {"name", "uri", "artifactDigest"}, {}, {})
  {
    hide Typed, Ref, ListOf, TEXT, ARTIFACT_URI, Record;
  }

  lemma FixtureDescribed()
    ensures Describes(FIXTURE, {"id", "producer"}, {}, {})
  {
    hide Typed, Ref, ListOf, TEXT, ARTIFACT_URI, Record;
  }

  lemma RuntimeDescribed()
    ensures Describes(RUNTIME, {"name", "version", "artifact"}, {"framework"}, {"artifact"})
  {
    hide Typed, Ref, ListOf, TEXT, ARTIFACT_URI, Record;
  }

  lemma AdapterDescribed()
    ensures Describes(ADAPTER, {"name", "artifact", "contractVersion", "runtimeDigest"}, {}, {"artifact"})
  {
    hide Typed, Ref, ListOf, TEXT, ARTIFACT_URI, Record;
  }

  lemma PolicyDescribed()
    ensures Describes(RUNTIME_POLICY, {"engine", "artifact", "count", "loaded"}, {}, {"artifact"})
  {
    hide Typed, Ref, ListOf, TEXT, ARTIFACT_URI, Record;
  }

  lemma IdentityDescribed()
    ensures Describes(IDENTITY, {"providerUri", "subjectKind", "subject"}, {}, {"subject"})
  {
    hide Typed, Ref, ListOf, TEXT, ARTIFACT_URI, Record;
  }

  lemma AuditDescribed()
    ensures Describes(AUDIT, {"sinkKind", "sink", "configurationDigest"}, {}, {"sink"})
  {
    hide Typed, Ref, ListOf, TEXT, ARTIFACT_URI, Record;
  }

  lemma ToolDescribed()
    ensures Describes(CONTROLLED_TOOL, {"name", "actionClass", "artifact"}, {}, {"artifact"})
  {
    hide Typed, Ref, ListOf, TEXT, ARTIFACT_URI, Record;
  }

  lemma DecisionDescribed()
    ensures Describes(DECISION, {"state", "verdict"}, {"reference", "observedAt"}, {"reference"})
  {
    hide Typed, Ref, ListOf, TEXT, ARTIFACT_URI, Record;
  }

  lemma OutcomeDescribed()
    ensures Describes(OUTCOME, {"state", "result"}, {"reference", "observedAt"}, {"reference"})
  {
    hide Typed, Ref, ListOf, TEXT, ARTIFACT_URI, Record;
  }

  lemma EnforcementDescribed()
    ensures Describes(ENFORCEMENT,
                      {"mode", "defaultBehavior", "requiredInterventionPoints", "observedInterventionPoints"}, {},
                      {"requiredInterventionPoints", "observedInterventionPoints"})
  {
    hide Typed, Ref, ListOf, TEXT, ARTIFACT_URI, Record;
  }

  lemma CaseRequired()
    ensures forall r | r in CASE.required :: r.Str? && r.s in CASE_NAMES
    ensures forall n | n in CASE_NAMES :: Str(n) in CASE.required
  {
    hide Typed, Ref, ListOf, TEXT, Record, DECISION, OUTCOME, TEST_RESULT;
  }

  lemma CaseName(k: string)
    ensures k in CASE.properties <==> k in CASE_NAMES + {}
  {
    hide Typed, Ref, ListOf, TEXT, Record, DECISION, OUTCOME, TEST_RESULT;
  }

  lemma CaseNames()
    ensures CASE.properties.Keys == CASE_NAMES + {}
  {
    hide CASE, CASE_NAMES;
    forall k
      ensures k in CASE.properties.Keys <==> k in CASE_NAMES + {}
    {
      CaseName(k);
    }
  }

  lemma CasePart(k: string)
    requires k in CASE.properties
    ensures CASE.properties[k].Obj? && (k in {"decision", "outcome", "testResult"} || Scalar(CASE.properties[k].fields))
  {
    hide Typed, Ref, ListOf, TEXT, ARTIFACT_URI, Record, DECISION, OUTCOME, TEST_RESULT;
  }

  lemma CaseDescribed()
    ensures Describes(CASE, CASE_NAMES, {}, {"decision", "outcome", "testResult"})
  {
    hide CASE, CASE_NAMES, Scalar;
    CaseRequired();
    CaseNames();
    forall k | k in CASE.properties
      ensures CASE.properties[k].Obj?
      ensures k in {"decision", "outcome", "testResult"} || Scalar(CASE.properties[k].fields)
    {
      CasePart(k);
    }
  }

  lemma ConformanceDescribed()
    ensures Describes(CONFORMANCE, {"fixture", "controlledTool", "cases"}, {}, {"fixture", "controlledTool", "cases"})
  {
    hide Typed, Ref, ListOf, TEXT, ARTIFACT_URI, Record, FIXTURE, CONTROLLED_TOOL;
  }

  lemma PredicateListed(r: Json)
    requires r in PREDICATE.required
    ensures r.Str? && r.s in ROOT_NAMES
  {
    hide Typed, Ref, ListOf, TEXT, Record, AGENT, RUNTIME, ADAPTER, RUNTIME_POLICY,
         ENFORCEMENT, IDENTITY, AUDIT, CONFORMANCE;
  }

  lemma PredicateLists(n: string)
    requires n in ROOT_NAMES
    ensures Str(n) in PREDICATE.required
  {
    hide Typed, Ref, ListOf, TEXT, Record, AGENT, RUNTIME, ADAPTER, RUNTIME_POLICY,
         ENFORCEMENT, IDENTITY, AUDIT, CONFORMANCE;
  }

  lemma PredicateRequired()
    ensures forall r | r in PREDICATE.required :: r.Str? && r.s in ROOT_NAMES
    ensures forall n | n in ROOT_NAMES :: Str(n) in PREDICATE.required
  {
    hide PREDICATE, ROOT_NAMES;
    forall r | r in PREDICATE.required
      ensures r.Str? && r.s in ROOT_NAMES
    {
      PredicateListed(r);
    }
    forall n | n in ROOT_NAMES
      ensures Str(n) in PREDICATE.required
    {
      PredicateLists(n);
    }
  }

  lemma PredicateOnly(k: string)
    requires k in PREDICATE.properties
    ensures k in ROOT_NAMES || k == "extensions"
  {
    hide Typed, Ref, ListOf, TEXT, Record, AGENT, RUNTIME, ADAPTER, RUNTIME_POLICY,
         ENFORCEMENT, IDENTITY, AUDIT, CONFORMANCE;
  }

  lemma PredicateAll(k: string)
    requires k in ROOT_NAMES || k == "extensions"
    ensures k in PREDICATE.properties
  {
    hide Typed, Ref, ListOf, TEXT, Record, AGENT, RUNTIME, ADAPTER, RUNTIME_POLICY,
         ENFORCEMENT, IDENTITY, AUDIT, CONFORMANCE;
  }

  lemma PredicateName(k: string)
    ensures k in PREDICATE.properties <==> k in ROOT_NAMES + {"extensions"}
  {
    hide PREDICATE, ROOT_NAMES;
    if k in PREDICATE.properties {
      PredicateOnly(k);
    }
    if k in ROOT_NAMES || k == "extensions" {
      PredicateAll(k);
    }
  }

  lemma PredicateNames()
    ensures PREDICATE.properties.Keys == ROOT_NAMES + {"extensions"}
  {
    hide PREDICATE, ROOT_NAMES;
    forall k
      ensures k in PREDICATE.properties.Keys <==> k in ROOT_NAMES + {"extensions"}
    {
      PredicateName(k);
    }
  }

  lemma PredicatePart(k: string)
    requires k in PREDICATE.properties
    ensures PREDICATE.properties[k].Obj? && (k in ROOT_PARTS || Scalar(PREDICATE.properties[k].fields))
  {
    hide Typed, Ref, ListOf, TEXT, ARTIFACT_URI, Record, AGENT, RUNTIME, ADAPTER, RUNTIME_POLICY,
         ENFORCEMENT, IDENTITY, AUDIT, CONFORMANCE;
  }

  lemma PredicateDescribed()
    ensures Describes(PREDICATE, ROOT_NAMES, {"extensions"}, ROOT_PARTS)
  {
    hide PREDICATE, ROOT_NAMES, Scalar;
    PredicateRequired();
    PredicateNames();
    forall k | k in PREDICATE.properties
      ensures PREDICATE.properties[k].Obj? && (k in ROOT_PARTS || Scalar(PREDICATE.properties[k].fields))
    {
      PredicatePart(k);
    }
  }

  // ----- the sections -----

  /** The two definitions that hold references. */
  lemma AcceptsReferences(v: Json, path: string)
    requires Acyclic(DEFINITIONS)
    ensures Accepts(v, Ref("artifactReference"), DEFINITIONS, path) <==> WholeArtifact(v)
    ensures Accepts(v, Ref("redactedReference"), DEFINITIONS, path) <==> WholeRedacted(v)
  {
    hide DEFINITIONS, Accepts, Ref, Record, Describes, ARTIFACT_REFERENCE, REDACTED_REFERENCE, CASE;
    RecordDefinitions();
    AcceptsRef(v, "artifactReference", path);
    AcceptsRef(v, "redactedReference", path);
    ArtifactDescribed();
    RedactedDescribed();
    AcceptsSection(v, ARTIFACT_REFERENCE, {"uri", "digest"}, {}, {}, path);
    AcceptsSection(v, REDACTED_REFERENCE, {"id", "digest"}, {}, {}, path);
  }

  /** Where the larger part of each section is, and what it is. */
  lemma Parts()
    ensures forall m | m in {RUNTIME, ADAPTER, RUNTIME_POLICY, CONTROLLED_TOOL} ::
      "artifact" in m.properties && m.properties["artifact"] == Obj(Ref("artifactReference"))
    ensures "subject" in IDENTITY.properties && IDENTITY.properties["subject"] == Obj(Ref("redactedReference"))
    ensures "sink" in AUDIT.properties && AUDIT.properties["sink"] == Obj(Ref("redactedReference"))
    ensures forall m | m in {DECISION, OUTCOME} ::
      "reference" in m.properties && m.properties["reference"] == Obj(Ref("redactedReference"))
  {
    hide Typed, Ref, ListOf, TEXT, ARTIFACT_URI, Record;
  }

  /** A section with one part that is an artifact reference. */
  lemma AcceptsWithArtifact(v: Json, m: Members, required: set<string>, optional: set<string>, path: string)
    requires Acyclic(DEFINITIONS) && Describes(m, required, optional, {"artifact"}) && "statementDigest" !in required
    requires "artifact" in m.properties && m.properties["artifact"] == Obj(Ref("artifactReference"))
    ensures Accepts(v, Record(m), DEFINITIONS, path) <==> WholeWith(v, required, optional, "artifact", WholeArtifact)
  {
    hide DEFINITIONS, Accepts, Ref, Record, Describes, WholeArtifact, Whole;
    AcceptsSection(v, m, required, optional, {"artifact"}, path);
    if v.Obj? && "artifact" in v.fields {
      AcceptsReferences(v.fields["artifact"], path + "." + "artifact");
    }
    WholeIsObject(v, required, optional);
  }

  lemma WholeIsObject(v: Json, required: set<string>, optional: set<string>)
    ensures Whole(v, required, optional) ==> v.Obj? && required <= v.fields.Keys
  {
  }

  /** A section with one part that is a redacted reference. */
  lemma AcceptsWithRedacted(
    v: Json, m: Members, required: set<string>, optional: set<string>, key: string, path: string)
    requires Acyclic(DEFINITIONS) && Describes(m, required, optional, {key}) && "statementDigest" !in required
    requires key in m.properties && m.properties[key] == Obj(Ref("redactedReference"))
    ensures Accepts(v, Record(m), DEFINITIONS, path) <==> WholeWith(v, required, optional, key, WholeRedacted)
  {
    hide DEFINITIONS, Accepts, Ref, Record, Describes, WholeRedacted, Whole;
    AcceptsSection(v, m, required, optional, {key}, path);
    if v.Obj? && key in v.fields {
      AcceptsReferences(v.fields[key], path + "." + key);
    }
    WholeIsObject(v, required, optional);
  }

  lemma AcceptsPoints(v: Json, path: string)
    requires Acyclic(DEFINITIONS)
    ensures Accepts(v, ListOf(Ref("id")), DEFINITIONS, path) <==> WholeList(v)
  {
    hide DEFINITIONS, Accepts, Ref, ListOf;
    AcceptsList(v, Ref("id"), path);
    if v.Arr? {
      forall i | 0 <= i < |v.items|
        ensures Accepts(v.items[i], Ref("id"), DEFINITIONS, path + "[" + Forms.Digits(i) + "]") <==> v.items[i] != Null
      {
        AcceptsText(v.items[i], "id", path + "[" + Forms.Digits(i) + "]");
      }
    }
  }

  lemma PointParts()
    ensures var p := ENFORCEMENT.properties;
            && "requiredInterventionPoints" in p && p["requiredInterventionPoints"] == Obj(ListOf(Ref("id")))
            && "observedInterventionPoints" in p && p["observedInterventionPoints"] == Obj(ListOf(Ref("id")))
  {
    hide Typed, Ref, ListOf, TEXT, ARTIFACT_URI, Record;
  }

  lemma AcceptsEnforcement(v: Json, path: string)
    requires Acyclic(DEFINITIONS)
    ensures Accepts(v, Record(ENFORCEMENT), DEFINITIONS, path) <==> WholeEnforcement(v)
  {
    hide DEFINITIONS, Accepts, Ref, ListOf, Record, Describes, ENFORCEMENT, WholeList, Whole;
    var names := {"mode", "defaultBehavior", "requiredInterventionPoints", "observedInterventionPoints"};
    EnforcementDescribed();
    PointParts();
    AcceptsSection(v, ENFORCEMENT, names, {}, {"requiredInterventionPoints", "observedInterventionPoints"}, path);
    WholeIsObject(v, names, {});
    if v.Obj? && names <= v.fields.Keys {
      AcceptsPoints(v.fields["requiredInterventionPoints"], path + "." + "requiredInterventionPoints");
      AcceptsPoints(v.fields["observedInterventionPoints"], path + "." + "observedInterventionPoints");
    }
  }

  /** Where the path ends in testResult, a required statement digest may be absent and nothing else may. */
  lemma AcceptsDeferring(v: Json, m: Members, required: set<string>, path: string)
    requires Acyclic(DEFINITIONS) && Describes(m, required, {}, {}) && HasSuffix(path, ".testResult")
    ensures Accepts(v, Record(m), DEFINITIONS, path) <==>
      Whole(v, required - {"statementDigest"}, required * {"statementDigest"})
  {
    hide DEFINITIONS, Accepts, Record, Scalar, HasSuffix;
    AcceptsRecord(v, m, path);
    if v.Obj? {
      forall k | k in m.properties && k in v.fields
        ensures Accepts(v.fields[k], m.properties[k].fields, DEFINITIONS, path + "." + k) <==> v.fields[k] != Null
      {
        AcceptsScalar(v.fields[k], m.properties[k].fields, path + "." + k);
      }
      assert (forall r | r in m.required :: RequiredMet(r, v.fields, path)) <==>
        required - {"statementDigest"} <= v.fields.Keys;
    }
  }

  lemma TestResultDescribed()
    ensures Describes(TEST_RESULT, {"predicateType", "testId", "statementDigest"}, {}, {})
  {
    hide Typed, Ref, ListOf, TEXT, ARTIFACT_URI, Record;
  }

  lemma TestResultNames()
    ensures {"predicateType", "testId", "statementDigest"} - {"statementDigest"} == {"predicateType", "testId"}
    ensures {"predicateType", "testId", "statementDigest"} * {"statementDigest"} == {"statementDigest"}
  {
  }

  lemma AcceptsTestResult(v: Json, path: string)
    requires Acyclic(DEFINITIONS) && HasSuffix(path, ".testResult")
    ensures Accepts(v, Record(TEST_RESULT), DEFINITIONS, path) <==> WholeTestResult(v)
  {
    hide DEFINITIONS, Accepts, Record, HasSuffix, TEST_RESULT, Describes, Whole;
    TestResultDescribed();
    TestResultNames();
    AcceptsDeferring(v, TEST_RESULT, {"predicateType", "testId", "statementDigest"}, path);
  }

  lemma CaseParts()
    ensures var p := CASE.properties;
            && "decision" in p && p["decision"] == Obj(Record(DECISION))
            && "outcome" in p && p["outcome"] == Obj(Record(OUTCOME))
            && "testResult" in p && p["testResult"] == Obj(Record(TEST_RESULT))
  {
    hide Typed, Ref, ListOf, TEXT, ARTIFACT_URI, Record, DECISION, OUTCOME, TEST_RESULT;
  }

  lemma TestResultPath(path: string)
    ensures HasSuffix(path + "." + "testResult", ".testResult")
  {
    DotSuffix(path, "testResult", "testResult");
    assert "." + "testResult" == ".testResult";
  }

  lemma AcceptsObservations(v: Json, path: string)
    requires Acyclic(DEFINITIONS)
    ensures Accepts(v, Record(DECISION), DEFINITIONS, path) <==> WholeDecision(v)
    ensures Accepts(v, Record(OUTCOME), DEFINITIONS, path) <==> WholeOutcome(v)
  {
    hide DEFINITIONS, Accepts, Record, Describes, DECISION, OUTCOME, WholeWith, Ref;
    DecisionDescribed();
    OutcomeDescribed();
    Parts();
    AcceptsWithRedacted(v, DECISION, {"state", "verdict"}, {"reference", "observedAt"}, "reference", path);
    AcceptsWithRedacted(v, OUTCOME, {"state", "result"}, {"reference", "observedAt"}, "reference", path);
  }

  lemma AcceptsCase(v: Json, path: string)
    requires Acyclic(DEFINITIONS)
    ensures Accepts(v, Record(CASE), DEFINITIONS, path) <==> WholeCase(v)
  {
    hide DEFINITIONS, Accepts, Record, Describes, DECISION, OUTCOME, TEST_RESULT, CASE, Whole, WholeDecision;
    hide WholeOutcome, WholeTestResult, HasSuffix;
    CaseDescribed();
    CaseParts();
    AcceptsSection(v, CASE, CASE_NAMES, {}, {"decision", "outcome", "testResult"}, path);
    WholeIsObject(v, CASE_NAMES, {});
    if v.Obj? && CASE_NAMES <= v.fields.Keys {
      AcceptsObservations(v.fields["decision"], path + "." + "decision");
      AcceptsObservations(v.fields["outcome"], path + "." + "outcome");
      TestResultPath(path);
      AcceptsTestResult(v.fields["testResult"], path + "." + "testResult");
    }
  }

  lemma AcceptsCases(v: Json, path: string)
    requires Acyclic(DEFINITIONS)
    ensures Accepts(v, ListOf(Ref("conformanceCase")), DEFINITIONS, path) <==>
      v.Arr? && forall i | 0 <= i < |v.items| :: WholeCase(v.items[i])
  {
    hide DEFINITIONS, Accepts, Record, ListOf, Ref, CASE, WholeCase;
    AcceptsList(v, Ref("conformanceCase"), path);
    RecordDefinitions();
    if v.Arr? {
      forall i | 0 <= i < |v.items|
        ensures Accepts(v.items[i], Ref("conformanceCase"), DEFINITIONS, path + "[" + Forms.Digits(i) + "]") <==>
          WholeCase(v.items[i])
      {
        var at := path + "[" + Forms.Digits(i) + "]";
        AcceptsRef(v.items[i], "conformanceCase", at);
        AcceptsCase(v.items[i], at);
        NeverNull(Record(CASE), at);
      }
    }
  }

  lemma ConformanceParts()
    ensures var p := CONFORMANCE.properties;
            && "fixture" in p && p["fixture"] == Obj(Record(FIXTURE))
            && "controlledTool" in p && p["controlledTool"] == Obj(Record(CONTROLLED_TOOL))
            && "cases" in p && p["cases"] == Obj(ListOf(Ref("conformanceCase")))
  {
    hide Typed, Ref, ListOf, TEXT, ARTIFACT_URI, Record, FIXTURE, CONTROLLED_TOOL;
  }

  lemma AcceptsConformance(v: Json, path: string)
    requires Acyclic(DEFINITIONS)
    ensures Accepts(v, Record(CONFORMANCE), DEFINITIONS, path) <==> WholeConformance(v)
  {
    hide DEFINITIONS, Accepts, Record, ListOf, Ref, Describes, FIXTURE, CONTROLLED_TOOL, CONFORMANCE, Whole, WholeWith;
    hide WholeCase;
    var names := {"fixture", "controlledTool", "cases"};
    ConformanceDescribed();
    ConformanceParts();
    AcceptsSection(v, CONFORMANCE, names, {}, names, path);
    WholeIsObject(v, names, {});
    if v.Obj? && names <= v.fields.Keys {
      FixtureDescribed();
      AcceptsSection(v.fields["fixture"], FIXTURE, {"id", "producer"}, {}, {}, path + "." + "fixture");
      ToolDescribed();
      Parts();
      AcceptsWithArtifact(v.fields["controlledTool"], CONTROLLED_TOOL, {"name", "actionClass", "artifact"}, {},
                          path + "." + "controlledTool");
      AcceptsCases(v.fields["cases"], path + "." + "cases");
    }
  }

  lemma AcceptsAgent(v: Json, path: string)
    requires Acyclic(DEFINITIONS)
    ensures Accepts(v, Record(AGENT), DEFINITIONS, path) <==> Whole(v, {"name", "uri", "artifactDigest"}, {})
  {
    hide DEFINITIONS, Accepts, Record, AGENT, Describes, Whole;
    AgentDescribed();
    AcceptsSection(v, AGENT, {"name", "uri", "artifactDigest"}, {}, {}, path);
  }

  lemma AcceptsRuntimes(v: Json, path: string)
    requires Acyclic(DEFINITIONS)
    ensures Accepts(v, Record(RUNTIME), DEFINITIONS, path) <==> WholeRuntime(v)
    ensures Accepts(v, Record(ADAPTER), DEFINITIONS, path) <==> WholeAdapter(v)
    ensures Accepts(v, Record(RUNTIME_POLICY), DEFINITIONS, path) <==> WholePolicy(v)
  {
    hide DEFINITIONS, Accepts, Record, Describes, RUNTIME, ADAPTER, RUNTIME_POLICY, WholeWith, Ref;
    RuntimeDescribed();
    AdapterDescribed();
    PolicyDescribed();
    Parts();
    AcceptsWithArtifact(v, RUNTIME, {"name", "version", "artifact"}, {"framework"}, path);
    AcceptsWithArtifact(v, ADAPTER, {"name", "artifact", "contractVersion", "runtimeDigest"}, {}, path);
    AcceptsWithArtifact(v, RUNTIME_POLICY, {"engine", "artifact", "count", "loaded"}, {}, path);
  }

  lemma AcceptsIdentities(v: Json, path: string)
    requires Acyclic(DEFINITIONS)
    ensures Accepts(v, Record(IDENTITY), DEFINITIONS, path) <==> WholeIdentity(v)
    ensures Accepts(v, Record(AUDIT), DEFINITIONS, path) <==> WholeAudit(v)
  {
    hide DEFINITIONS, Accepts, Record, Describes, IDENTITY, AUDIT, WholeWith, Ref;
    IdentityDescribed();
    AuditDescribed();
    Parts();
    AcceptsWithRedacted(v, IDENTITY, {"providerUri", "subjectKind", "subject"}, {}, "subject", path);
    AcceptsWithRedacted(v, AUDIT, {"sinkKind", "sink", "configurationDigest"}, {}, "sink", path);
  }

  /** Nothing is asked of an extension but that extensions form an object. */
  lemma AcceptsExtensions(v: Json, path: string)
    requires Acyclic(DEFINITIONS)
    ensures Accepts(v, Typed("object"), DEFINITIONS, path) <==> v.Obj?
  {
    hide DEFINITIONS, Typed;
    ObjectRead();
  }

  lemma ObjectRead()
    ensures var s := Typed("object");
            && Reference(s).None? && HasType(s, "object") && RequiredOf(s) == [] && PropertiesOf(s) == map[]
  {
  }

  /** The schema of each part of the predicate. */
  function PartSchema(k: string): Json {
    match k
    case "agent" => Obj(Record(AGENT))
    case "runtime" => Obj(Record(RUNTIME))
    case "adapter" => Obj(Record(ADAPTER))
    case "runtimePolicy" => Obj(Record(RUNTIME_POLICY))
    case "enforcement" => Obj(Record(ENFORCEMENT))
    case "identity" => Obj(Record(IDENTITY))
    case "audit" => Obj(Record(AUDIT))
    case "conformance" => Obj(Record(CONFORMANCE))
    case _ => Obj(Typed("object"))
  }

  lemma RootPart(k: string)
    requires k in ROOT_PARTS
    ensures k in PREDICATE.properties && PREDICATE.properties[k] == PartSchema(k)
  {
    hide Typed, Ref, ListOf, TEXT, ARTIFACT_URI, Record, AGENT, RUNTIME, ADAPTER, RUNTIME_POLICY, ENFORCEMENT;
    hide IDENTITY, AUDIT, CONFORMANCE;
  }

  /** What each part of complete evidence must be. */
  predicate PartWhole(k: string, v: Json) {
    match k
    case "agent" => Whole(v, {"name", "uri", "artifactDigest"}, {})
    case "runtime" => WholeRuntime(v)
    case "adapter" => WholeAdapter(v)
    case "runtimePolicy" => WholePolicy(v)
    case "enforcement" => WholeEnforcement(v)
    case "identity" => WholeIdentity(v)
    case "audit" => WholeAudit(v)
    case "conformance" => WholeConformance(v)
    case _ => v.Obj?
  }

  lemma AcceptsPart(k: string, v: Json, path: string)
    requires Acyclic(DEFINITIONS) && k in ROOT_PARTS
    ensures k in PREDICATE.properties && PREDICATE.properties[k].Obj?
    ensures Accepts(v, PREDICATE.properties[k].fields, DEFINITIONS, path) <==> PartWhole(k, v)
  {
    hide DEFINITIONS, Accepts, Record, Typed, PREDICATE, AGENT, RUNTIME, ADAPTER, RUNTIME_POLICY;
    hide ENFORCEMENT, IDENTITY, AUDIT, CONFORMANCE, Whole, WholeRuntime, WholeAdapter, WholePolicy, WholeEnforcement;
    hide WholeIdentity, WholeAudit, WholeConformance;
    RootPart(k);
    if k in {"agent", "runtime", "adapter", "runtimePolicy"} {
      AcceptsAgent(v, path);
      AcceptsRuntimes(v, path);
    } else if k in {"enforcement", "identity", "audit"} {
      AcceptsEnforcement(v, path);
      AcceptsIdentities(v, path);
    } else {
      AcceptsConformance(v, path);
      AcceptsExtensions(v, path);
    }
  }

  lemma CompleteMeans(v: Json)
    ensures Complete(v) <==>
      Whole(v, ROOT_NAMES, {"extensions"}) && forall k | k in ROOT_PARTS && k in v.fields :: PartWhole(k, v.fields[k])
  {
    hide Whole, WholeRuntime, WholeAdapter, WholePolicy, WholeEnforcement, WholeIdentity, WholeAudit;
    hide WholeConformance;
    WholeIsObject(v, ROOT_NAMES, {"extensions"});
  }

  /** On the embedded schema the walker accepts complete evidence and nothing else, wherever the walk starts. */
  lemma AcceptsIffComplete(v: Json, path: string)
    requires Acyclic(DEFINITIONS)
    ensures Accepts(v, Record(PREDICATE), DEFINITIONS, path) <==> Complete(v)
  {
    hide DEFINITIONS, Accepts, Record, PREDICATE, Describes, ROOT_PARTS, ROOT_NAMES, PartWhole, Complete, Whole;
    PredicateDescribed();
    PredicateNames();
    NoDigestAtRoot();
    AcceptsSection(v, PREDICATE, ROOT_NAMES, {"extensions"}, ROOT_PARTS, path);
    CompleteMeans(v);
    if v.Obj? {
      forall k | k in ROOT_PARTS && k in v.fields
        ensures k in PREDICATE.properties && PREDICATE.properties[k].Obj?
        ensures Accepts(v.fields[k], PREDICATE.properties[k].fields, DEFINITIONS, path + "." + k) <==>
          PartWhole(k, v.fields[k])
      {
        AcceptsPart(k, v.fields[k], path + "." + k);
      }
    }
    WholeIsObject(v, ROOT_NAMES, {"extensions"});
  }

  lemma NoDigestAtRoot()
    ensures "statementDigest" !in ROOT_NAMES
  {
  }

  // ----- required members at addressed positions -----

  /**
   At every object position that the embedded schema addresses, accepted evidence has every required member, except that
   the statement digest of a case's test-result reference may be absent.
   */
  lemma AcceptedHasRequired(v: Json, steps: seq<Step>, name: string)
    requires Acyclic(DEFINITIONS) && Accepts(v, Record(PREDICATE), DEFINITIONS, "evidence")
    requires At(Position(v, Record(PREDICATE)), DEFINITIONS, steps).Some?
    ensures var q := At(Position(v, Record(PREDICATE)), DEFINITIONS, steps).value;
            var s := Resolve(DEFINITIONS, q.schema);
            && q.value != Null
            && s.Some?
            && (HasType(s.value, "object") ==> q.value.Obj?)
            && (HasType(s.value, "object") && Str(name) in RequiredOf(s.value) ==>
                  name in q.value.fields || (name == "statementDigest" && IsTestResult(steps)))
  {
    hide DEFINITIONS, Accepts, Record, PREDICATE, At, Resolve, HasSuffix, PathText, IsTestResult;
    AcceptsIffFaultless(v, Record(PREDICATE), DEFINITIONS, "evidence");
    assert !FaultAt(Position(v, Record(PREDICATE)), DEFINITIONS, "evidence", steps);
    OnlyStatementDigestDeferred(v, steps, name);
  }

  /** Evidence without any other required member, at any addressed position, is refused. */
  lemma MissingRefused(v: Json, steps: seq<Step>, name: string)
    requires Acyclic(DEFINITIONS) && At(Position(v, Record(PREDICATE)), DEFINITIONS, steps).Some?
    requires var q := At(Position(v, Record(PREDICATE)), DEFINITIONS, steps).value;
             var s := Resolve(DEFINITIONS, q.schema);
             s.Some? && HasType(s.value, "object") && Str(name) in RequiredOf(s.value)
             && !(q.value.Obj? && name in q.value.fields)
    requires !(name == "statementDigest" && IsTestResult(steps))
    ensures !Accepts(v, Record(PREDICATE), DEFINITIONS, "evidence")
  {
    hide DEFINITIONS, Accepts, Record, PREDICATE, At, Resolve, IsTestResult;
    if Accepts(v, Record(PREDICATE), DEFINITIONS, "evidence") {
      AcceptedHasRequired(v, steps, name);
    }
  }

  /** The empty object is not evidence. */
  lemma EmptyRefused(path: string)
    requires Acyclic(DEFINITIONS)
    ensures !Accepts(Obj(map[]), Record(PREDICATE), DEFINITIONS, path)
  {
    hide DEFINITIONS, Accepts, Record, PREDICATE;
    AcceptsIffComplete(Obj(map[]), path);
    assert !Whole(Obj(map[]), {"agent"}, {});
  }

  // ----- the deferred member -----

  function WithMember(v: Json, key: string, x: Json): Json
    requires v.Obj?
  {
    Obj(v.fields[key := x])
  }

  /** The evidence with the statement digest of one case taken away. */
  function WithoutDigest(v: Json, i: nat): Json
    requires Complete(v) && i < |v.fields["conformance"].fields["cases"].items|
  {
    var conformance := v.fields["conformance"];
    var cases := conformance.fields["cases"].items;
    var testResult := Obj(cases[i].fields["testResult"].fields - {"statementDigest"});
    var dropped := cases[i := WithMember(cases[i], "testResult", testResult)];
    WithMember(v, "conformance", WithMember(conformance, "cases", Arr(dropped)))
  }

  lemma WholeWithMember(v: Json, required: set<string>, optional: set<string>, key: string, x: Json)
    requires Whole(v, required, optional) && x != Null
    ensures Whole(WithMember(v, key, x), required, optional)
  {
  }

  lemma CaseWithoutDigest(c: Json)
    requires WholeCase(c)
    ensures WholeCase(WithMember(c, "testResult", Obj(c.fields["testResult"].fields - {"statementDigest"})))
  {
    hide WholeDecision, WholeOutcome;
  }

  lemma ConformanceWithCases(c: Json, cases: seq<Json>)
    requires WholeConformance(c) && forall i | 0 <= i < |cases| :: WholeCase(cases[i])
    ensures WholeConformance(WithMember(c, "cases", Arr(cases)))
  {
    hide WholeCase, WholeTool;
  }

  lemma CompleteWithConformance(v: Json, c: Json)
    requires Complete(v) && WholeConformance(c)
    ensures Complete(WithMember(v, "conformance", c))
  {
    hide WholeConformance, WholeRuntime, WholeAdapter, WholePolicy, WholeEnforcement, WholeIdentity, WholeAudit, Whole;
    var names := {"schemaVersion", "agent", "runtime", "adapter", "runtimePolicy", "enforcement", "identity", "audit",
                  "conformance"};
    assert c.Obj? by { ConformanceIsObject(c); }
    WholeWithMember(v, names, {"extensions"}, "conformance", c);
    WholeIsObject(v, names, {"extensions"});
  }

  lemma ConformanceIsObject(c: Json)
    requires WholeConformance(c)
    ensures c.Obj?
  {
  }

  /** A missing statement digest alone is never the reason for a refusal. */
  lemma DigestOptional(v: Json, i: nat, path: string)
    requires Acyclic(DEFINITIONS) && Accepts(v, Record(PREDICATE), DEFINITIONS, path)
    ensures Complete(v)
    ensures i < |v.fields["conformance"].fields["cases"].items| ==>
      Accepts(WithoutDigest(v, i), Record(PREDICATE), DEFINITIONS, path)
  {
    hide DEFINITIONS, Accepts, Record, PREDICATE;
    AcceptsIffComplete(v, path);
    if i < |v.fields["conformance"].fields["cases"].items| {
      DigestDropped(v, i);
      AcceptsIffComplete(WithoutDigest(v, i), path);
    }
  }

  lemma DigestDropped(v: Json, i: nat)
    requires Complete(v) && i < |v.fields["conformance"].fields["cases"].items|
    ensures Complete(WithoutDigest(v, i))
  {
    hide WholeCase, Complete, WholeConformance;
    CompleteParts(v);
    var conformance := v.fields["conformance"];
    var cases := conformance.fields["cases"].items;
    CaseWithoutDigest(cases[i]);
    var testResult := Obj(cases[i].fields["testResult"].fields - {"statementDigest"});
    var dropped := cases[i := WithMember(cases[i], "testResult", testResult)];
    ConformanceWithCases(conformance, dropped);
    CompleteWithConformance(v, WithMember(conformance, "cases", Arr(dropped)));
  }

  lemma CompleteParts(v: Json)
    requires Complete(v)
    ensures v.Obj? && "conformance" in v.fields && WholeConformance(v.fields["conformance"])
    ensures var c := v.fields["conformance"];
            && c.Obj? && "cases" in c.fields && c.fields["cases"].Arr?
            && forall i | 0 <= i < |c.fields["cases"].items| ::
                 && WholeCase(c.fields["cases"].items[i]) && c.fields["cases"].items[i].Obj?
                 && "testResult" in c.fields["cases"].items[i].fields
                 && c.fields["cases"].items[i].fields["testResult"].Obj?
  {
    hide WholeRuntime, WholeAdapter, WholePolicy, WholeEnforcement, WholeIdentity, WholeAudit, WholeTool, WholeDecision;
    hide WholeOutcome;
  }
}
