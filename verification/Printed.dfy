/**
 What the gate's rules make of the statements that the builder prints: section by section, each printed document is
 held against the shape, linkage and timestamp rules.
 */
module Printed {
  import opened Wrappers
  import opened RawBytes
  import opened Json
  import opened Rego
  import opened Lists
  import opened Sorting
  import opened EvidenceModel
  import opened Statements
  import Gate
  import FixedPoint
  import Forms
  import Rfc3339

  /**
   What the two sides are assumed to share: one SHA-256, and a gate whose URI patterns accept every URI that the
   generator and its schema accept.
   */
  ghost predicate Agrees(env: Gate.Env, lib: Library, codec: Codec) {
    && (forall b: Bytes :: env.sha256(b) == codec.sha256(b))
    && (forall u: string :: AbsoluteUri(lib, u) && lib.uriPattern(u) ==> env.absoluteUri(u))
    && (forall u: string, digest: string ::
          ArtifactValid(lib, ArtifactRef(u, digest)) && lib.uriPattern(u) ==> env.artifactUri(u))
  }

  /** The bundle carries the payload under the in-toto payload type. */
  predicate Carries(env: Gate.Env, bundle: Json, payload: Bytes) {
    Gate.PayloadOf(env, bundle) == Some(payload)
  }

  /** The gate decodes the two payloads to the statements that were printed. */
  predicate ReadsBack(env: Gate.Env, codec: Codec, b: Built) {
    && |b.body.cases| == 1
    && env.unmarshal(b.deployment) == Some(DeploymentJson(codec, b.body))
    && env.unmarshal(b.testResult) == Some(TestResultJson(b.body, b.body.cases[0]))
  }

  // ----- the sections of the predicate -----

  lemma TextShape(s: string, limit: nat)
    requires BoundedText(s, limit)
    ensures Gate.BoundedText(Text(s), limit)
  {
    Forms.Utf8LengthAtLeast(s);
  }

  lemma ArtifactShape(env: Gate.Env, lib: Library, codec: Codec, r: ArtifactRef)
    requires Agrees(env, lib, codec) && ArtifactValid(lib, r) && lib.uriPattern(r.uri)
    ensures Gate.ArtifactReferenceShape(env, Some(ArtifactJson(r)))
  {
    hide ArtifactValid, AbsoluteUri, Forms.CanonicalDigest;
    assert ArtifactValid(lib, ArtifactRef(r.uri, r.digest));
    ArtifactDigest(lib, r);
  }

  lemma ArtifactDigest(lib: Library, r: ArtifactRef)
    requires ArtifactValid(lib, r)
    ensures Forms.CanonicalDigest(r.digest)
  {
  }

  lemma RedactedShape(r: RedactedRef)
    requires RedactedValid(r)
    ensures Gate.RedactedReferenceShape(Some(RedactedJson(r)))
  {
    hide Forms.CanonicalDigest, Forms.RedactedId;
  }

  lemma AgentShape(env: Gate.Env, lib: Library, codec: Codec, e: Evidence)
    requires Agrees(env, lib, codec) && RootValid(lib, e) && SchemaAccepts(lib, e)
    ensures Gate.AgentShape(env, Some(AgentJson(e.agent)))
  {
    hide Forms.CanonicalDigest, AbsoluteUri, BoundedText, Gate.BoundedText, ArtifactValid;
    TextShape(e.agent.name, 256);
  }

  lemma RuntimeShape(env: Gate.Env, lib: Library, codec: Codec, e: Evidence)
    requires Agrees(env, lib, codec) && RuntimeAdapterValid(lib, e) && SchemaAccepts(lib, e)
    ensures Gate.RuntimeShape(env, Some(RuntimeJson(e.runtime)))
  {
    hide Forms.CanonicalDigest, AbsoluteUri, BoundedText, Gate.BoundedText, ArtifactValid, ArtifactJson;
    hide Gate.ArtifactReferenceShape;
    TextShape(e.runtime.name, 128);
    TextShape(e.runtime.version, 128);
    if e.runtime.framework != "" {
      TextShape(e.runtime.framework, 128);
    }
    ArtifactShape(env, lib, codec, e.runtime.artifact);
  }

  lemma AdapterShape(env: Gate.Env, lib: Library, codec: Codec, e: Evidence)
    requires Agrees(env, lib, codec) && RuntimeAdapterValid(lib, e) && SchemaAccepts(lib, e)
    ensures Gate.AdapterShape(env, Some(AdapterJson(e.adapter)))
  {
    hide Forms.CanonicalDigest, AbsoluteUri, BoundedText, Gate.BoundedText, ArtifactValid, ArtifactJson;
    hide Gate.ArtifactReferenceShape;
    TextShape(e.adapter.name, 128);
    ArtifactShape(env, lib, codec, e.adapter.artifact);
  }

  lemma PolicyShape(env: Gate.Env, lib: Library, codec: Codec, e: Evidence)
    requires Agrees(env, lib, codec) && RuntimePolicyValid(lib, e) && SchemaAccepts(lib, e)
    ensures Gate.RuntimePolicyShape(env, Some(RuntimePolicyJson(e.runtimePolicy)))
  {
    hide Forms.IdValue, AbsoluteUri, ArtifactValid, ArtifactJson, Gate.ArtifactReferenceShape;
    ArtifactShape(env, lib, codec, e.runtimePolicy.artifact);
  }

  lemma IdentityShape(env: Gate.Env, lib: Library, codec: Codec, e: Evidence)
    requires Agrees(env, lib, codec) && IdentityAuditValid(lib, e) && SchemaAccepts(lib, e)
    ensures Gate.IdentityShape(env, Some(IdentityJson(e.identity)))
    ensures Gate.AuditShape(Some(AuditJson(e.audit)))
  {
    hide Forms.IdValue, AbsoluteUri, ArtifactValid, RedactedValid, RedactedJson, Gate.RedactedReferenceShape;
    hide Forms.CanonicalDigest;
    RedactedShape(e.identity.subject);
    RedactedShape(e.audit.sink);
  }

  lemma ToolShape(env: Gate.Env, lib: Library, codec: Codec, e: Evidence)
    requires Agrees(env, lib, codec) && ConformanceHeadValid(lib, e) && SchemaAccepts(lib, e)
    ensures Gate.ControlledToolShape(env, Some(ToolJson(e.tool)))
    ensures Gate.FixtureShape(Some(FixtureJson(e.fixture)))
  {
    hide Forms.IdValue, AbsoluteUri, ArtifactValid, ArtifactJson, Gate.ArtifactReferenceShape;
    ArtifactShape(env, lib, codec, e.tool.artifact);
  }

  /** Printed texts are the elements of the printed array. */
  lemma TextElements(texts: seq<string>)
    ensures Elements(Some(TextsJson(texts))) == set s | s in texts :: Str(s)
    ensures NoDuplicates(texts) ==> Gate.Distinct(TextsJson(texts).items)
  {
    var items := TextsJson(texts).items;
    assert forall i | 0 <= i < |texts| :: items[i] == Str(texts[i]);
    CountDistinct(items);
    assert (set x | x in items) == ToSet(items);
  }

  lemma PointsShape(texts: seq<string>)
    requires NoDuplicates(texts) && |texts| <= 32 && forall p | p in texts :: Forms.IdValue(p)
    ensures Gate.PointsShape(Some(TextsJson(texts)))
  {
    hide Forms.IdValue, Gate.Distinct;
    TextElements(texts);
  }

  lemma EnforcementShape(f: Enforcement)
    requires EnforcementValid(f) && NoDuplicates(f.required) && NoDuplicates(f.observed)
    ensures Gate.EnforcementShape(Some(EnforcementJson(f)))
  {
    hide Forms.IdValue, Gate.PointsShape;
    PointsShape(f.required);
    PointsShape(f.observed);
  }

  // ----- cases -----

  /** The gate keeps time in 64-bit nanoseconds: from 1677-09-21 to 2262-04-11. */
  predicate InGateRange(t: string) {
    ParseNs(t).Some? && -9223372036000000000 <= ParseNs(t).value <= 9223372036000000000
  }

  /** On canonical text the gate's clock and the generator's agree, within the gate's range. */
  lemma GateTime(t: string)
    requires Rfc3339.SecondsShape(t) && ParseNs(t).Some?
    ensures Gate.TimestampNs(Text(t)) == if InGateRange(t) then ParseNs(t) else None
  {
    hide Rfc3339.SecondsShape, Rfc3339.StampInstant, Rfc3339.Parse;
    ReadAlike(t);
  }

  lemma ReadAlike(t: string)
    requires Rfc3339.SecondsShape(t) && Rfc3339.Parse(t, Rfc3339.LiteralZ).Some?
    ensures Rfc3339.Parse(t, Rfc3339.Zoned) == Rfc3339.Parse(t, Rfc3339.LiteralZ)
    ensures Rfc3339.Parse(t, Rfc3339.LiteralZ).value.nanos == 0
  {
    hide Rfc3339.Parse;
    Rfc3339.ShapeParses(t, Rfc3339.LiteralZ);
    Rfc3339.ShapeParses(t, Rfc3339.Zoned);
  }

  predicate CanonicalTime(t: string) {
    t != "" ==> Rfc3339.SecondsShape(t)
  }

  /** The timestamps of a case as Normalize leaves them. */
  predicate CanonicalTimes(c: Case) {
    && CanonicalTime(c.startedAt) && CanonicalTime(c.completedAt)
    && CanonicalTime(c.decision.observedAt) && CanonicalTime(c.outcome.observedAt)
  }

  predicate TimesInGateRange(c: Case) {
    InGateRange(c.startedAt) && InGateRange(c.completedAt)
  }

  lemma EmptyUnreadable()
    ensures ParseNs("").None?
  {
  }

  lemma ObservationShape(c: Case, o: Observation, finding: string, states: set<string>, findings: set<string>)
    requires IntervalValid(c) && (Recorded(c, o) || Unrecorded(o)) && CanonicalTime(o.observedAt)
    requires o.state in states && o.finding in findings
    requires finding == "verdict" || finding == "result"
    requires TimesInGateRange(c)
    ensures var t := Some(ObservationJson(o, finding));
            && ObjectShape(t, {"state", finding}, {"state", finding, "reference", "observedAt"})
            && OneOf(Dot(t, "state"), states) && OneOf(Dot(t, finding), findings)
            && Gate.OptionalReference(t) && Gate.OptionalObservedAt(t)
  {
    hide RedactedJson, RedactedValid, Gate.RedactedReferenceShape, ParseNs, Gate.TimestampNs, Rfc3339.SecondsShape;
    if o.reference.Some? {
      RedactedShape(o.reference.value);
    }
    if o.observedAt != "" {
      GateTime(o.observedAt);
    }
  }

  lemma ObservationShapes(e: Evidence, c: Case)
    requires CaseValid(e, c) && CanonicalTimes(c) && TimesInGateRange(c)
    ensures Gate.DecisionShape(Some(ObservationJson(c.decision, "verdict")))
    ensures Gate.OutcomeShape(Some(ObservationJson(c.outcome, "result")))
  {
    hide ObservationJson, Recorded, IntervalValid, Gate.OptionalReference, Gate.OptionalObservedAt, InGateRange;
    hide KindConsistent, Forms.IdValue, Forms.CanonicalDigest, CanonicalTime;
    ObservationShape(c, c.decision, "verdict", {"observed", "not-observed"}, {"allow", "deny", "unknown"});
    ObservationShape(c, c.outcome, "result", {"verified", "unknown"}, {"occurred", "blocked", "unknown"});
  }

  lemma TestResultRefShape(c: Case)
    requires TestResultValid(c) && Forms.IdValue(c.id)
    ensures Gate.TestResultRefShape(Some(TestResultRefJson(c.testResult)))
  {
    hide Forms.IdValue, Forms.CanonicalDigest;
  }

  lemma KnownKind(kind: string)
    requires KindOrder(kind).Some?
    ensures kind in Gate.CASE_KINDS
  {
  }

  /** The gate accepts the shape of an accepted case exactly when its times are within the gate's range. */
  lemma CaseShape(e: Evidence, c: Case)
    requires CaseValid(e, c) && CanonicalTimes(c)
    ensures Gate.CaseShape(CaseJson(c)) <==> TimesInGateRange(c)
  {
    hide ObservationJson, Gate.DecisionShape, Gate.OutcomeShape, Gate.TestResultRefShape, TestResultRefJson, ParseNs;
    hide Forms.IdValue, Forms.CanonicalDigest, KindConsistent, Gate.TimestampNs, Rfc3339.SecondsShape, KindOrder;
    hide TestResultValid, DecisionValid, OutcomeValid, Gate.CASE_KINDS;
    EmptyUnreadable();
    GateTime(c.startedAt);
    GateTime(c.completedAt);
    KnownKind(c.kind);
    TestResultRefShape(c);
    if TimesInGateRange(c) {
      ObservationShapes(e, c);
    }
  }

  /** With both observations on record, the gate's interval rules are the generator's. */
  lemma CaseTimestamps(e: Evidence, c: Case)
    requires CaseValid(e, c) && CanonicalTimes(c)
    requires Recorded(c, c.decision) && Recorded(c, c.outcome)
    ensures Gate.CaseTimestampsValid(CaseJson(c)) <==> TimesInGateRange(c)
  {
    hide RedactedJson, RedactedValid, ParseNs, Gate.TimestampNs, Rfc3339.SecondsShape, KindConsistent;
    hide Forms.IdValue, Forms.CanonicalDigest, DecisionValid, OutcomeValid, TestResultValid, ObservationJson;
    EmptyUnreadable();
    GateTime(c.startedAt);
    GateTime(c.completedAt);
    GateTime(c.decision.observedAt);
    GateTime(c.outcome.observedAt);
    RecordedAt(c.decision, "verdict");
    RecordedAt(c.outcome, "result");
  }

  lemma RecordedAt(o: Observation, finding: string)
    requires o.observedAt != ""
    ensures Dot(Some(ObservationJson(o, finding)), "observedAt") == Text(o.observedAt)
  {
  }

  // ----- the deployment statement -----

  /** A predicate body that Generate let through. */
  ghost predicate Accepted(lib: Library, v: Evidence) {
    && Valid(lib, v)
    && SchemaAccepts(lib, v)
    && NoDuplicates(v.enforcement.required) && NoDuplicates(v.enforcement.observed)
    && forall c | c in v.cases :: CanonicalTimes(c)
  }

  lemma CanonicalTimesOf(e: Evidence, c: Case, d: Case)
    requires CanonCase(c) == Some(d) && CaseValid(e, d)
    ensures CanonicalTimes(d)
  {
    hide NormalizeDigest, Rfc3339.NormalizeTimestamp, ParseNs, KindConsistent, Forms.IdValue, Rfc3339.SecondsShape;
    hide Forms.CanonicalDigest, RedactedValid, TestResultValid;
    FixedPoint.ReadTwice(c.startedAt, d.startedAt);
    FixedPoint.ReadTwice(c.completedAt, d.completedAt);
    if d.decision.observedAt != "" {
      FixedPoint.ReadTwice(c.decision.observedAt, d.decision.observedAt);
    }
    if d.outcome.observedAt != "" {
      FixedPoint.ReadTwice(c.outcome.observedAt, d.outcome.observedAt);
    }
  }

  lemma CaseOfValid(lib: Library, v: Evidence, c: Case)
    requires Valid(lib, v) && c in v.cases
    ensures CaseValid(v, c)
  {
    hide CaseValid, RootValid, RuntimeAdapterValid, RuntimePolicyValid, EnforcementValid, IdentityAuditValid;
    hide ExtensionsValid, ConformanceHeadValid, DistinctCases;
  }

  lemma GenerateAccepted(lib: Library, e: Evidence)
    requires Generate(lib, e).Some?
    ensures Accepted(lib, Generate(lib, e).value)
  {
    hide CanonHead, CanonCases, StableSort, CanonExtensions, Valid, SchemaAccepts, CanonicalTimes, DedupeSort;
    var v := Generate(lib, e).value;
    DedupeSortSpec(e.enforcement.required);
    DedupeSortSpec(e.enforcement.observed);
    forall d | d in v.cases
      ensures CanonicalTimes(d)
    {
      var c := FixedPoint.CanonCaseOf(e.cases, d);
      CaseOfValid(lib, v, d);
      CanonicalTimesOf(v, c, d);
    }
  }

  lemma PredicateMembers(codec: Codec, e: Evidence)
    ensures var p := Some(PredicateJson(codec, e));
            && Dot(p, "schemaVersion") == Text(e.schemaVersion)
            && Dot(p, "agent") == Some(AgentJson(e.agent))
            && Dot(p, "runtime") == Some(RuntimeJson(e.runtime))
            && Dot(p, "adapter") == Some(AdapterJson(e.adapter))
            && Dot(p, "runtimePolicy") == Some(RuntimePolicyJson(e.runtimePolicy))
            && Dot(p, "enforcement") == Some(EnforcementJson(e.enforcement))
            && Dot(p, "identity") == Some(IdentityJson(e.identity))
            && Dot(p, "audit") == Some(AuditJson(e.audit))
            && Dot(p, "conformance") == Some(ConformanceJson(e))
  {
    hide AgentJson, RuntimeJson, AdapterJson, RuntimePolicyJson, EnforcementJson, IdentityJson, AuditJson;
    hide ConformanceJson, ExtensionsJson;
  }

  lemma PredicateKeys(codec: Codec, e: Evidence)
    ensures Iterable(Some(PredicateJson(codec, e)))
    ensures forall k | k in Keys(Some(PredicateJson(codec, e))) :: Gate.AllowedRootKey(k)
    ensures Gate.REQUIRED_ROOT_KEYS <= PredicateJson(codec, e).fields.Keys
  {
    hide AgentJson, RuntimeJson, AdapterJson, RuntimePolicyJson, EnforcementJson, IdentityJson, AuditJson;
    hide ConformanceJson, ExtensionsJson;
  }

  lemma StatementMembers(a: Agent, predicateType: string, body: Json)
    ensures var t := Some(StatementJson(a, predicateType, body));
            && Dot(t, "_type") == Text(STATEMENT_TYPE)
            && Dot(t, "subject") == Some(Arr([SubjectJson(a)]))
            && Dot(t, "predicateType") == Text(predicateType)
            && Dot(t, "predicate") == Some(body)
  {
    hide SubjectJson;
  }

  lemma ConformanceMembers(e: Evidence)
    requires |e.cases| == 1
    ensures var t := Some(ConformanceJson(e));
            && ObjectShape(t, {"fixture", "controlledTool", "cases"}, {"fixture", "controlledTool", "cases"})
            && Dot(t, "fixture") == Some(FixtureJson(e.fixture))
            && Dot(t, "controlledTool") == Some(ToolJson(e.tool))
            && Dot(t, "cases") == Some(Arr([CaseJson(e.cases[0])]))
  {
    hide FixtureJson, ToolJson, CaseJson;
    assert ConformanceJson(e).fields["cases"].items == [CaseJson(e.cases[0])];
  }

  function DeploymentJson(codec: Codec, v: Evidence): Json {
    StatementJson(v.agent, DEPLOYMENT_TYPE, PredicateJson(codec, v))
  }

  /** What the gate's paths lead to in a built deployment statement with one case. */
  lemma DeploymentPaths(codec: Codec, v: Evidence)
    requires |v.cases| == 1
    ensures var s := DeploymentJson(codec, v);
            && Gate.PredicateOf(s) == Some(PredicateJson(codec, v))
            && Gate.AgentOf(s) == Some(AgentJson(v.agent))
            && Gate.SubjectOf(s) == Some(Arr([SubjectJson(v.agent)]))
            && Gate.CasesOf(s) == Some(Arr([CaseJson(v.cases[0])]))
            && Gate.ToolOf(s) == Some(ToolJson(v.tool))
            && Gate.PolicyFacts(s) == Some(RuntimePolicyJson(v.runtimePolicy))
            && Gate.EnforcementFacts(s) == Some(EnforcementJson(v.enforcement))
  {
    hide StatementJson, PredicateJson, ConformanceJson, CaseJson;
    StatementMembers(v.agent, DEPLOYMENT_TYPE, PredicateJson(codec, v));
    PredicateMembers(codec, v);
    ConformanceMembers(v);
  }

  lemma ConformanceShape(env: Gate.Env, lib: Library, codec: Codec, v: Evidence)
    requires Agrees(env, lib, codec) && ConformanceValid(lib, v) && SchemaAccepts(lib, v)
    requires |v.cases| == 1 && CanonicalTimes(v.cases[0])
    ensures Gate.ConformanceShape(env, Some(ConformanceJson(v))) <==> TimesInGateRange(v.cases[0])
  {
    hide ConformanceJson, FixtureJson, ToolJson, CaseJson, Gate.FixtureShape, Gate.ControlledToolShape, Gate.CaseShape;
    hide CaseValid, ConformanceHeadValid, CanonicalTimes, TimesInGateRange, SchemaAccepts, Agrees;
    ConformanceMembers(v);
    ToolShape(env, lib, codec, v);
    CaseShape(v, v.cases[0]);
    var items := [CaseJson(v.cases[0])];
    assert Elements(Some(Arr(items))) == {items[0]};
  }

  lemma NestedShape(env: Gate.Env, lib: Library, codec: Codec, v: Evidence)
    requires Agrees(env, lib, codec) && Accepted(lib, v) && |v.cases| == 1
    ensures Gate.NestedCoreShape(env, DeploymentJson(codec, v)) <==> TimesInGateRange(v.cases[0])
  {
    hide Agrees, SchemaAccepts, RootValid, RuntimeAdapterValid, RuntimePolicyValid, EnforcementValid;
    hide IdentityAuditValid, ConformanceValid, ExtensionsValid, CanonicalTimes, TimesInGateRange, PredicateJson;
    hide AgentJson, RuntimeJson, AdapterJson, RuntimePolicyJson, EnforcementJson, IdentityJson, AuditJson;
    hide ConformanceJson, StatementJson;
    hide Gate.AgentShape, Gate.RuntimeShape, Gate.AdapterShape, Gate.RuntimePolicyShape, Gate.EnforcementShape;
    hide Gate.IdentityShape, Gate.AuditShape, Gate.ConformanceShape;
    DeploymentPaths(codec, v);
    PredicateMembers(codec, v);
    AgentShape(env, lib, codec, v);
    RuntimeShape(env, lib, codec, v);
    AdapterShape(env, lib, codec, v);
    PolicyShape(env, lib, codec, v);
    EnforcementShape(v.enforcement);
    IdentityShape(env, lib, codec, v);
    assert v.cases[0] in v.cases;
    ConformanceShape(env, lib, codec, v);
  }

  /** Trimming the prefix of a digest and printing it again restores it. */
  lemma DigestRestored(env: Gate.Env, digest: string)
    requires Forms.CanonicalDigest(digest)
    ensures Gate.Sha256Text(env, Text(TrimDigestPrefix(digest))) == Text(digest)
  {
    assert digest == digest[..7] + digest[7..];
  }

  lemma SubjectAgrees(env: Gate.Env, codec: Codec, v: Evidence)
    requires |v.cases| == 1 && Forms.CanonicalDigest(v.agent.artifactDigest)
    ensures Gate.SubjectIsAgent(env, DeploymentJson(codec, v), SubjectJson(v.agent))
  {
    hide Forms.CanonicalDigest, TrimDigestPrefix, DeploymentJson, Gate.Sha256Text;
    DeploymentPaths(codec, v);
    DigestRestored(env, v.agent.artifactDigest);
    SubjectMembers(v.agent);
    AgentMembers(v.agent);
  }

  lemma SubjectMembers(a: Agent)
    ensures Dot(Some(SubjectJson(a)), "name") == Text(a.name)
    ensures Dot(Dot(Some(SubjectJson(a)), "digest"), "sha256") == Text(TrimDigestPrefix(a.artifactDigest))
  {
    hide TrimDigestPrefix;
  }

  lemma AgentMembers(a: Agent)
    ensures Dot(Some(AgentJson(a)), "name") == Text(a.name)
    ensures Dot(Some(AgentJson(a)), "artifactDigest") == Text(a.artifactDigest)
  {
  }

  lemma ToolPinned(codec: Codec, lib: Library, v: Evidence)
    requires |v.cases| == 1 && ConformanceHeadValid(lib, v)
    ensures Gate.ControlledToolValid(DeploymentJson(codec, v)) <==> v.tool.artifact.digest == Gate.TOOL_DIGEST
  {
    hide Forms.CanonicalDigest, DeploymentJson, AbsoluteUri, Gate.TOOL_DIGEST;
    DeploymentPaths(codec, v);
    ToolMembers(v.tool);
    ArtifactDigest(lib, v.tool.artifact);
  }

  lemma ToolMembers(t: Tool)
    ensures Dot(Some(ToolJson(t)), "name") == Text(t.name)
    ensures Dot(Some(ToolJson(t)), "actionClass") == Text(t.actionClass)
    ensures Dot(Dot(Some(ToolJson(t)), "artifact"), "digest") == Text(t.artifact.digest)
  {
  }

  lemma AdapterLinked(codec: Codec, lib: Library, v: Evidence)
    requires RuntimeAdapterValid(lib, v)
    ensures Gate.AdapterValid(DeploymentJson(codec, v))
  {
    hide Forms.CanonicalDigest, AbsoluteUri, BoundedText, ArtifactValid, StatementJson, PredicateJson;
    StatementMembers(v.agent, DEPLOYMENT_TYPE, PredicateJson(codec, v));
    PredicateMembers(codec, v);
    AdapterMembers(v.adapter);
    RuntimeMembers(v.runtime);
  }

  lemma AdapterMembers(a: Adapter)
    ensures Dot(Some(AdapterJson(a)), "contractVersion") == Text(a.contractVersion)
    ensures Dot(Some(AdapterJson(a)), "runtimeDigest") == Text(a.runtimeDigest)
  {
  }

  lemma RuntimeMembers(r: Runtime)
    ensures Dot(Dot(Some(RuntimeJson(r)), "artifact"), "digest") == Text(r.artifact.digest)
  {
  }

  /** The gate's subset test over printed arrays is the generator's over strings. */
  lemma ExercisedPoints(f: Enforcement)
    ensures Exercised(f) <==>
      forall p | p in Elements(Some(TextsJson(f.required))) :: p in Elements(Some(TextsJson(f.observed)))
  {
    hide TextsJson, Elements;
    TextElements(f.required);
    TextElements(f.observed);
    if forall p | p in Elements(Some(TextsJson(f.required))) :: p in Elements(Some(TextsJson(f.observed))) {
      forall p | p in f.required
        ensures p in f.observed
      {
        assert Str(p) in Elements(Some(TextsJson(f.required)));
      }
    }
  }

  lemma EnforcementMembers(f: Enforcement)
    ensures var t := Some(EnforcementJson(f));
            && Dot(t, "mode") == Text(f.mode)
            && Dot(t, "defaultBehavior") == Text(f.defaultBehavior)
            && Dot(t, "requiredInterventionPoints") == Some(TextsJson(f.required))
            && Dot(t, "observedInterventionPoints") == Some(TextsJson(f.observed))
  {
    hide TextsJson;
  }

  lemma PolicyMembers(p: RuntimePolicy)
    ensures Dot(Some(RuntimePolicyJson(p)), "count") == Some(Num(p.count as real))
    ensures Dot(Some(RuntimePolicyJson(p)), "loaded") == Some(Bool(p.loaded))
  {
    hide ArtifactJson;
  }

  lemma WholeNumber(n: int)
    ensures (n as real).Floor as real == n as real
    ensures 1.0 <= n as real <= 64.0 <==> 1 <= n <= 64
    ensures n as real >= 1.0 <==> n >= 1
    ensures n as real == 0.0 <==> n == 0
  {
  }

  lemma PolicyPath(codec: Codec, v: Evidence)
    ensures Gate.PolicyFacts(DeploymentJson(codec, v)) == Some(RuntimePolicyJson(v.runtimePolicy))
  {
    hide StatementJson, PredicateJson;
    StatementMembers(v.agent, DEPLOYMENT_TYPE, PredicateJson(codec, v));
    PredicateMembers(codec, v);
  }

  lemma PolicyConsistent(codec: Codec, lib: Library, v: Evidence)
    requires RuntimePolicyValid(lib, v)
    ensures Gate.RuntimePolicyConsistent(DeploymentJson(codec, v))
    ensures var t := Gate.PolicyFacts(DeploymentJson(codec, v));
            && Dot(t, "loaded") == Some(Bool(v.runtimePolicy.loaded))
            && (AtLeast(Dot(t, "count"), 1.0) <==> v.runtimePolicy.loaded)
  {
    hide DeploymentJson, RuntimePolicyJson, ArtifactValid, Forms.IdValue, Gate.PolicyFacts, Dot;
    PolicyPath(codec, v);
    PolicyMembers(v.runtimePolicy);
    WholeNumber(v.runtimePolicy.count);
  }

  lemma TextsIterable(texts: seq<string>)
    ensures Iterable(Some(TextsJson(texts)))
    ensures Count(Some(TextsJson(texts))) == Some(|texts|)
  {
  }

  /** The gate finds the deployment enforcing exactly when its facts are: loaded, enforce, every point exercised. */
  lemma Enforcing(codec: Codec, lib: Library, v: Evidence)
    requires |v.cases| == 1 && RuntimePolicyValid(lib, v) && EnforcementValid(v.enforcement)
    ensures Gate.DeploymentEnforcing(DeploymentJson(codec, v)) <==>
      v.runtimePolicy.loaded && v.enforcement.mode == "enforce" && Exercised(v.enforcement)
  {
    hide DeploymentJson, EnforcementJson, RuntimePolicyValid, Forms.IdValue, Exercised, Elements, TextsJson, Count;
    hide Gate.RuntimePolicyConsistent, AtLeast, Iterable;
    DeploymentPaths(codec, v);
    PolicyConsistent(codec, lib, v);
    EnforcementMembers(v.enforcement);
    ExercisedPoints(v.enforcement);
    TextsIterable(v.enforcement.required);
  }

  /** Everything in the gate's envelope check but the pinned tool and the range of its clock always holds. */
  lemma Envelope(env: Gate.Env, lib: Library, codec: Codec, v: Evidence)
    requires Agrees(env, lib, codec) && Accepted(lib, v) && |v.cases| == 1
    ensures Gate.EnvelopeValid(env, DeploymentJson(codec, v)) <==>
      v.tool.artifact.digest == Gate.TOOL_DIGEST && TimesInGateRange(v.cases[0])
  {
    hide Agrees, SchemaAccepts, RuntimePolicyValid, EnforcementValid, IdentityAuditValid, ExtensionsValid;
    hide CanonicalTimes, TimesInGateRange, PredicateJson, StatementJson, Gate.NestedCoreShape;
    hide Gate.ControlledToolValid, Gate.AdapterValid, Gate.SubjectIsAgent, CaseValid, DistinctCases;
    hide ConformanceHeadValid, RuntimeAdapterValid, Gate.TOOL_DIGEST, Gate.AllowedRootKey, Forms.CanonicalDigest;
    hide AbsoluteUri, BoundedText, SubjectJson, AgentJson;
    StatementMembers(v.agent, DEPLOYMENT_TYPE, PredicateJson(codec, v));
    PredicateMembers(codec, v);
    PredicateKeys(codec, v);
    NestedShape(env, lib, codec, v);
    SubjectAgrees(env, codec, v);
    ToolPinned(codec, lib, v);
    AdapterLinked(codec, lib, v);
    var items := [SubjectJson(v.agent)];
    assert Elements(Some(Arr(items))) == {items[0]};
  }

  // ----- the test-result statement -----

  function TestResultBody(e: Evidence, c: Case): Json {
    var verified := c.outcome.state == "verified";
    TestResultPredicate(if verified then "PASSED" else "WARNED", DescriptorJson(e, Annotations(e, c)),
                        if verified then [c.id] else [], if verified then [] else [c.id])
  }

  lemma DescriptorOf(a: Agent, e: Evidence, c: Case)
    ensures Gate.Descriptor(StatementJson(a, TEST_RESULT_TYPE, TestResultBody(e, c))) ==
      Some(DescriptorJson(e, Annotations(e, c)))
  {
    hide StatementJson, DescriptorJson, Annotations;
    StatementMembers(a, TEST_RESULT_TYPE, TestResultBody(e, c));
  }

  lemma DescriptorMembers(e: Evidence, annotations: map<string, Json>)
    ensures var d := Some(DescriptorJson(e, annotations));
            && Dot(d, "name") == Text(DESCRIPTOR_NAME)
            && Dot(d, "uri") == Text(AnnKey("conformance"))
            && Dot(Dot(d, "digest"), "sha256") == Text(TrimDigestPrefix(e.tool.artifact.digest))
            && Dot(d, "annotations") == Some(Obj(annotations))
  {
    hide TrimDigestPrefix, AnnKey;
  }

  lemma ResultMembers(e: Evidence, c: Case)
    ensures var p, verified := Some(TestResultBody(e, c)), c.outcome.state == "verified";
            && Dot(p, "result") == Text(if verified then "PASSED" else "WARNED")
            && Dot(p, "passedTests") == Some(Arr(if verified then [Str(c.id)] else []))
            && Dot(p, "warnedTests") == Some(Arr(if verified then [] else [Str(c.id)]))
            && Dot(p, "failedTests") == Some(Arr([]))
            && Gate.LacksKey(p, "url")
  {
    hide DescriptorJson, Annotations;
    assert TextsJson([c.id]).items == [Str(c.id)];
    assert TextsJson([]).items == [];
  }

  lemma CaseMembers(c: Case)
    ensures var t := Some(CaseJson(c));
            && Dot(t, "id") == Text(c.id) && Dot(t, "kind") == Text(c.kind)
            && Dot(t, "correlationId") == Text(c.correlationId)
            && Dot(t, "decision") == Some(ObservationJson(c.decision, "verdict"))
            && Dot(t, "outcome") == Some(ObservationJson(c.outcome, "result"))
            && Dot(t, "testResult") == Some(TestResultRefJson(c.testResult))
  {
    hide ObservationJson, TestResultRefJson;
  }

  lemma ObservationMembers(o: Observation, finding: string)
    requires finding == "verdict" || finding == "result"
    ensures var t := Some(ObservationJson(o, finding));
            && Dot(t, "state") == Text(o.state) && Dot(t, finding) == Text(o.finding)
            && (o.reference.Some? ==> Dot(Dot(t, "reference"), "digest") == Text(o.reference.value.digest))
  {
  }

  /** The bounded result profile of the builder is the one the gate expects. */
  lemma ResultProfile(env: Gate.Env, e: Evidence, c: Case)
    requires c.outcome.state == "verified" || c.outcome.state == "unknown"
    ensures Gate.ResultProfileValid(CaseJson(c), Some(TestResultBody(e, c)))
    ensures Gate.ResultUrlValid(env, Some(TestResultBody(e, c)))
  {
    hide TestResultBody, CaseJson, ObservationJson;
    ResultMembers(e, c);
    CaseMembers(c);
    ObservationMembers(c.outcome, "result");
  }

  lemma AnnKeyInjective(a: string, b: string)
    requires AnnKey(a) == AnnKey(b)
    ensures a == b
  {
    hide DEPLOYMENT_TYPE;
    var n := |DEPLOYMENT_TYPE| + 1;
    assert AnnKey(a)[n..] == a && AnnKey(b)[n..] == b;
  }

  lemma KeysApart(a: string, b: string)
    requires a != b
    ensures AnnKey(a) != AnnKey(b)
  {
    hide AnnKey;
    if AnnKey(a) == AnnKey(b) {
      AnnKeyInjective(a, b);
    }
  }

  lemma IdentityAnnotations(e: Evidence, c: Case)
    ensures var t := Some(Obj(Annotations(e, c)));
            && Dot(t, AnnKey("agentDigest")) == Text(e.agent.artifactDigest)
            && Dot(t, AnnKey("caseId")) == Text(c.id)
            && Dot(t, AnnKey("correlationId")) == Text(c.correlationId)
  {
    hide DEPLOYMENT_TYPE;
    KeysApart("correlationId", "decisionState");
    KeysApart("correlationId", "outcomeResult");
  }

  lemma FactAnnotations(e: Evidence, c: Case)
    ensures var t := Some(Obj(Annotations(e, c)));
            && Dot(t, AnnKey("decisionState")) == Text(c.decision.state)
            && Dot(t, AnnKey("decisionVerdict")) == Text(c.decision.finding)
            && Dot(t, AnnKey("outcomeState")) == Text(c.outcome.state)
            && Dot(t, AnnKey("outcomeResult")) == Text(c.outcome.finding)
  {
    hide DEPLOYMENT_TYPE;
    KeysApart("decisionState", "outcomeResult");
  }

  lemma DigestAnnotations(e: Evidence, c: Case)
    ensures c.decision.state == "observed" && c.decision.reference.Some? ==>
      Dot(Some(Obj(Annotations(e, c))), AnnKey("decisionDigest")) == Text(c.decision.reference.value.digest)
    ensures c.outcome.state == "verified" && c.outcome.reference.Some? ==>
      Dot(Some(Obj(Annotations(e, c))), AnnKey("resultArtifactDigest")) == Text(c.outcome.reference.value.digest)
  {
    hide DEPLOYMENT_TYPE;
  }

  /** The names of the annotations for the two states. */
  function AnnotationNames(observed: bool, verified: bool): set<string> {
    {AnnKey("agentDigest"), AnnKey("caseId"), AnnKey("correlationId"), AnnKey("decisionState"),
     AnnKey("decisionVerdict"), AnnKey("outcomeState"), AnnKey("outcomeResult")}
    + (if observed then {AnnKey("decisionDigest")} else {})
    + (if verified then {AnnKey("resultArtifactDigest")} else {})
  }

  lemma BuiltNames(e: Evidence, c: Case)
    requires c.decision.state == "observed" ==> c.decision.reference.Some?
    requires c.outcome.state == "verified" ==> c.outcome.reference.Some?
    ensures Annotations(e, c).Keys == AnnotationNames(c.decision.state == "observed", c.outcome.state == "verified")
  {
    hide AnnKey;
  }

  lemma ExpectedNames(c: Case)
    ensures Gate.ExpectedAnnotationKeys(CaseJson(c)) ==
      set k | k in AnnotationNames(c.decision.state == "observed", c.outcome.state == "verified") :: Str(k)
  {
    hide CaseJson, ObservationJson;
    CaseMembers(c);
    ObservationMembers(c.decision, "verdict");
    ObservationMembers(c.outcome, "result");
  }

  /** The builder writes exactly the annotations the gate expects. */
  lemma AnnotationKeys(e: Evidence, c: Case)
    requires c.decision.state == "observed" ==> c.decision.reference.Some?
    requires c.outcome.state == "verified" ==> c.outcome.reference.Some?
    ensures Keys(Some(Obj(Annotations(e, c)))) == Gate.ExpectedAnnotationKeys(CaseJson(c))
  {
    hide Annotations, AnnotationNames, Gate.ExpectedAnnotationKeys;
    BuiltNames(e, c);
    ExpectedNames(c);
  }

  /** The references that the states of an accepted case call for. */
  predicate Referenced(c: Case) {
    && (c.decision.state == "observed" || c.decision.state == "not-observed")
    && (c.outcome.state == "verified" || c.outcome.state == "unknown")
    && (c.decision.state == "observed" ==> c.decision.reference.Some?)
    && (c.outcome.state == "verified" ==> c.outcome.reference.Some?)
  }

  lemma AnnotationsAgree(codec: Codec, v: Evidence, annotations: map<string, Json>)
    requires |v.cases| == 1 && Referenced(v.cases[0]) && annotations == Annotations(v, v.cases[0])
    ensures Gate.AnnotationsValid(DeploymentJson(codec, v), CaseJson(v.cases[0]), Some(DescriptorJson(v, annotations)))
  {
    hide DeploymentJson, CaseJson, DescriptorJson, Annotations, ObservationJson, AgentJson, AnnKey, Gate.AnnKey;
    hide Gate.ExpectedAnnotationKeys, Keys, Dot, Gate.AgentOf, PredicateJson, ToolJson, RuntimePolicyJson;
    hide EnforcementJson, SubjectJson;
    var c := v.cases[0];
    SameAnnKeys();
    DeploymentPaths(codec, v);
    DescriptorMembers(v, annotations);
    AgentMembers(v.agent);
    CaseMembers(c);
    ObservationMembers(c.decision, "verdict");
    ObservationMembers(c.outcome, "result");
    IdentityAnnotations(v, c);
    FactAnnotations(v, c);
    DigestAnnotations(v, c);
    AnnotationKeys(v, c);
  }

  lemma SameAnnKeys()
    ensures forall suffix :: Gate.AnnKey(suffix) == AnnKey(suffix)
  {
  }

  function TestResultJson(v: Evidence, c: Case): Json {
    StatementJson(v.agent, TEST_RESULT_TYPE, TestResultBody(v, c))
  }

  /** The subject, the type and the descriptor of the built test result. */
  lemma TestResultPaths(v: Evidence, c: Case)
    ensures var t := TestResultJson(v, c);
            && Dot(Some(t), "_type") == Text(STATEMENT_TYPE)
            && Gate.SubjectOf(t) == Some(Arr([SubjectJson(v.agent)]))
            && Gate.PredicateOf(t) == Some(TestResultBody(v, c))
            && Gate.Descriptor(t) == Some(DescriptorJson(v, Annotations(v, c)))
  {
    hide StatementJson, TestResultBody, DescriptorJson, Annotations, SubjectJson;
    StatementMembers(v.agent, TEST_RESULT_TYPE, TestResultBody(v, c));
    DescriptorOf(v.agent, v, c);
  }

  lemma RefMembers(r: TestResultRef)
    ensures var t := Some(TestResultRefJson(r));
            && Dot(t, "predicateType") == Text(r.predicateType)
            && Dot(t, "testId") == Text(r.testId)
            && Dot(t, "statementDigest") == Text(r.statementDigest)
  {
  }

  lemma SubjectsMatch(codec: Codec, v: Evidence)
    requires |v.cases| == 1
    ensures var s, t := Gate.SubjectOf(DeploymentJson(codec, v)), Some(Arr([SubjectJson(v.agent)]));
            exists x, y | x in Elements(t) && y in Elements(s) :: Gate.SameSubject(x, y)
  {
    hide DeploymentJson, SubjectJson, Dot, Gate.SubjectOf, PredicateJson, AgentJson, CaseJson, ToolJson;
    hide RuntimePolicyJson, EnforcementJson;
    DeploymentPaths(codec, v);
    SubjectMembers(v.agent);
    var sub := SubjectJson(v.agent);
    assert sub in Elements(Some(Arr([sub])));
    assert Gate.SameSubject(sub, sub);
  }

  /** The built test result is the one the gate wants for the case. */
  lemma BuiltResultValid(env: Gate.Env, codec: Codec, v: Evidence, digest: Forms.Hex64)
    requires |v.cases| == 1 && Referenced(v.cases[0]) && TestResultValid(v.cases[0])
    requires Forms.CanonicalDigest(v.tool.artifact.digest)
    requires v.cases[0].testResult.statementDigest == Forms.DIGEST_PREFIX + digest
    ensures Gate.TestResultValid(env, DeploymentJson(codec, v), CaseJson(v.cases[0]),
                                 Gate.TestResult(TestResultJson(v, v.cases[0]), digest))
  {
    hide DeploymentJson, CaseJson, TestResultJson, DescriptorJson, Annotations, SubjectJson, ToolJson;
    hide TestResultRefJson, TestResultBody, Gate.AnnotationsValid, Gate.ResultProfileValid, Gate.ResultUrlValid;
    hide Gate.SameSubject;
    hide Forms.CanonicalDigest, Gate.Sha256Text, TrimDigestPrefix, Dot, Gate.ToolOf, Gate.SubjectOf, Gate.PredicateOf;
    hide Gate.Descriptor, Elements, PredicateJson, AgentJson, RuntimePolicyJson, EnforcementJson, ObservationJson;
    var c := v.cases[0];
    SameAnnKeys();
    TestResultPaths(v, c);
    DeploymentPaths(codec, v);
    CaseMembers(c);
    RefMembers(c.testResult);
    ToolMembers(v.tool);
    DescriptorMembers(v, Annotations(v, c));
    DigestRestored(env, v.tool.artifact.digest);
    SubjectsMatch(codec, v);
    AnnotationsAgree(codec, v, Annotations(v, c));
    ResultProfile(env, v, c);
  }

  lemma ClaimsItsCase(v: Evidence, c: Case, digest: Forms.Hex64)
    ensures Gate.CaseIdClaimed(Gate.TestResult(TestResultJson(v, c), digest)) == Gate.IdOf(CaseJson(c)) == Text(c.id)
  {
    hide TestResultJson, DescriptorJson, Annotations, CaseJson, AnnKey, Gate.AnnKey;
    SameAnnKeys();
    TestResultPaths(v, c);
    DescriptorMembers(v, Annotations(v, c));
    IdentityAnnotations(v, c);
    CaseMembers(c);
  }
}
