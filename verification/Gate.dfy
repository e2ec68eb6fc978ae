/**
 The admission gate: the rules of policy/agent_governance.rego over untyped JSON. A rule is a predicate on the
 terms it is called with, an undefined term makes it fail, and the library functions the policy calls but does
 not define are the functions of `Env`.
 */
module Gate {
  import opened Wrappers
  import opened RawBytes
  import opened Json
  import opened Rego
  import opened Lists
  import Forms
  import Rfc3339

  /**
   What the policy takes from its host: base64.decode, json.unmarshal, crypto.sha256, the two URI patterns, and
   how sprintf shows a value that is not a string.
   */
  datatype Env = Env(
    decodeBase64: string -> Option<Bytes>,
    unmarshal: Bytes -> Option<Json>,
    sha256: Bytes -> Forms.Hex64,
    absoluteUri: string -> bool,
    artifactUri: string -> bool,
    render: Json -> string)

  const DEPLOYMENT_TYPE: string := "https://autogov.dev/attestation/agent-governance-deployment/v0.1"
  const TEST_RESULT_TYPE: string := "https://in-toto.io/attestation/test-result/v0.1"
  const STATEMENT_TYPE: string := "https://in-toto.io/Statement/v1"
  const DESCRIPTOR_NAME: string := "agent-governance-conformance-v0.1"
  const INTOTO_PAYLOAD_TYPE: string := "application/vnd.in-toto+json"
  const TOOL_NAME: string := "write-marker"
  const TOOL_ACTION_CLASS: string := "filesystem.write.marker"
  const TOOL_DIGEST: string :=
    Forms.DIGEST_PREFIX + ("9df776a3bb10bd24bb1693b274a49a1a" + "0e3e74b391d24171f35fc88d77e0b8da")

  const REQUIRED_ROOT_KEYS: set<string> := {
    "schemaVersion", "agent", "runtime", "adapter", "runtimePolicy",
    "enforcement", "identity", "audit", "conformance"
  }
  const ALLOWED_ROOT_KEYS: set<string> := REQUIRED_ROOT_KEYS + {"extensions"}

  function AnnKey(suffix: string): string {
    DEPLOYMENT_TYPE + "#" + suffix
  }

  // ----- decoded statements -----

  /** A test-result statement with the SHA-256 of its exact payload bytes. */
  datatype TestResult = TestResult(stmt: Json, digest: Forms.Hex64)

  function PayloadOf(env: Env, bundle: Json): Option<Bytes> {
    var envelope := Dot(Some(bundle), "dsseEnvelope");
    var payload := Dot(envelope, "payload");
    if EqText(Dot(envelope, "payloadType"), INTOTO_PAYLOAD_TYPE) && payload.Some? && payload.value.Str?
    then env.decodeBase64(payload.value.s)
    else None
  }

  function StatementOf(env: Env, payload: Bytes, predicateType: string): Term {
    var s := env.unmarshal(payload);
    if EqText(Dot(s, "predicateType"), predicateType) then s else None
  }

  function PayloadReader(env: Env): Json -> Option<Bytes> {
    bundle => PayloadOf(env, bundle)
  }

  function DeploymentReader(env: Env): Bytes -> Option<Json> {
    payload => StatementOf(env, payload, DEPLOYMENT_TYPE)
  }

  function TestResultReader(env: Env): Bytes -> Option<TestResult> {
    payload =>
      match StatementOf(env, payload, TEST_RESULT_TYPE)
      case Some(s) => Some(TestResult(s, env.sha256(payload)))
      case None => None
  }

  /** payloads */
  function Payloads(env: Env, input: seq<Json>): seq<Bytes> {
    Collect(PayloadReader(env), input)
  }

  /** deployment_statements */
  function Deployments(env: Env, input: seq<Json>): seq<Json> {
    Collect(DeploymentReader(env), Payloads(env, input))
  }

  /** test_result_statements */
  function TestResults(env: Env, input: seq<Json>): seq<TestResult> {
    Collect(TestResultReader(env), Payloads(env, input))
  }

  // ----- value forms -----

  predicate CanonicalDigest(t: Term) {
    t.Some? && t.value.Str? && Forms.CanonicalDigest(t.value.s)
  }

  predicate BoundedText(t: Term, limit: nat) {
    t.Some? && t.value.Str? && 1 <= |t.value.s| <= limit && Forms.NoControl(t.value.s)
  }

  predicate AbsoluteUri(env: Env, t: Term) {
    t.Some? && t.value.Str? && env.absoluteUri(t.value.s)
  }

  predicate ArtifactUri(env: Env, t: Term) {
    t.Some? && t.value.Str? && env.artifactUri(t.value.s)
  }

  predicate IdValue(t: Term) {
    t.Some? && t.value.Str? && Forms.IdValue(t.value.s)
  }

  predicate RedactedId(t: Term) {
    t.Some? && t.value.Str? && Forms.RedactedId(t.value.s)
  }

  predicate IsText(t: Term) {
    t.Some? && t.value.Str?
  }

  predicate IsArray(t: Term) {
    t.Some? && t.value.Arr?
  }

  /** not key in object.keys(t): object.keys fails on anything but an object. */
  predicate LacksKey(t: Term, key: string) {
    t.Some? && t.value.Obj? && key !in t.value.fields
  }

  /** sprintf("sha256:%s", [t]) */
  function Sha256Text(env: Env, t: Term): Term {
    if t.None? then None
    else Text(Forms.DIGEST_PREFIX + (if t.value.Str? then t.value.s else env.render(t.value)))
  }

  const NANOSECONDS := 1000000000

  /** The instants time.parse_rfc3339_ns accepts: those whose nanoseconds fit 64 bits. */
  predicate NanosecondRange(seconds: int) {
    -9223372036 <= seconds <= 9223372036
  }

  /** timestamp_seconds_ns */
  function TimestampNs(t: Term): Option<int> {
    if t.Some? && t.value.Str? && Rfc3339.SecondsShape(t.value.s) then
      var stamp :- Rfc3339.Parse(t.value.s, Rfc3339.Zoned);
      var seconds := Rfc3339.StampInstant(stamp);
      if NanosecondRange(seconds) then Some(seconds * NANOSECONDS) else None
    else None
  }

  // ----- nested core shape -----

  predicate ArtifactReferenceShape(env: Env, t: Term) {
    && ObjectShape(t, {"uri", "digest"}, {"uri", "digest"})
    && ArtifactUri(env, Dot(t, "uri"))
    && CanonicalDigest(Dot(t, "digest"))
  }

  predicate RedactedReferenceShape(t: Term) {
    && ObjectShape(t, {"id", "digest"}, {"id", "digest"})
    && RedactedId(Dot(t, "id"))
    && CanonicalDigest(Dot(t, "digest"))
  }

  predicate OptionalReference(t: Term) {
    LacksKey(t, "reference") || RedactedReferenceShape(Dot(t, "reference"))
  }

  predicate OptionalObservedAt(t: Term) {
    LacksKey(t, "observedAt") || TimestampNs(Dot(t, "observedAt")).Some?
  }

  predicate DecisionShape(t: Term) {
    && ObjectShape(t, {"state", "verdict"}, {"state", "verdict", "reference", "observedAt"})
    && OneOf(Dot(t, "state"), {"observed", "not-observed"})
    && OneOf(Dot(t, "verdict"), {"allow", "deny", "unknown"})
    && OptionalReference(t)
    && OptionalObservedAt(t)
  }

  predicate OutcomeShape(t: Term) {
    && ObjectShape(t, {"state", "result"}, {"state", "result", "reference", "observedAt"})
    && OneOf(Dot(t, "state"), {"verified", "unknown"})
    && OneOf(Dot(t, "result"), {"occurred", "blocked", "unknown"})
    && OptionalReference(t)
    && OptionalObservedAt(t)
  }

  predicate TestResultRefShape(t: Term) {
    && ObjectShape(t, {"predicateType", "testId", "statementDigest"}, {"predicateType", "testId", "statementDigest"})
    && EqText(Dot(t, "predicateType"), TEST_RESULT_TYPE)
    && IdValue(Dot(t, "testId"))
    && CanonicalDigest(Dot(t, "statementDigest"))
  }

  const CASE_KEYS: set<string> :=
    {"id", "kind", "correlationId", "startedAt", "completedAt", "decision", "outcome", "testResult"}

  const CASE_KINDS: set<string> := {"allowed-action", "denied-action", "adapter-bypass", "no-policy-loaded"}

  predicate CaseShape(c: Json) {
    var t := Some(c);
    && ObjectShape(t, CASE_KEYS, CASE_KEYS)
    && IdValue(Dot(t, "id"))
    && OneOf(Dot(t, "kind"), CASE_KINDS)
    && CanonicalDigest(Dot(t, "correlationId"))
    && TimestampNs(Dot(t, "startedAt")).Some?
    && TimestampNs(Dot(t, "completedAt")).Some?
    && DecisionShape(Dot(t, "decision"))
    && OutcomeShape(Dot(t, "outcome"))
    && TestResultRefShape(Dot(t, "testResult"))
  }

  predicate AgentShape(env: Env, t: Term) {
    && ObjectShape(t, {"name", "uri", "artifactDigest"}, {"name", "uri", "artifactDigest"})
    && BoundedText(Dot(t, "name"), 256)
    && AbsoluteUri(env, Dot(t, "uri"))
    && CanonicalDigest(Dot(t, "artifactDigest"))
  }

  predicate RuntimeShape(env: Env, t: Term) {
    && ObjectShape(t, {"name", "version", "artifact"}, {"name", "version", "framework", "artifact"})
    && BoundedText(Dot(t, "name"), 128)
    && BoundedText(Dot(t, "version"), 128)
    && (LacksKey(t, "framework") || BoundedText(Dot(t, "framework"), 128))
    && ArtifactReferenceShape(env, Dot(t, "artifact"))
  }

  predicate AdapterShape(env: Env, t: Term) {
    && ObjectShape(t, {"name", "artifact", "contractVersion", "runtimeDigest"},
                   {"name", "artifact", "contractVersion", "runtimeDigest"})
    && BoundedText(Dot(t, "name"), 128)
    && ArtifactReferenceShape(env, Dot(t, "artifact"))
    && IsText(Dot(t, "contractVersion"))
    && CanonicalDigest(Dot(t, "runtimeDigest"))
  }

  predicate RuntimePolicyShape(env: Env, t: Term) {
    && ObjectShape(t, {"engine", "artifact", "count", "loaded"}, {"engine", "artifact", "count", "loaded"})
    && IdValue(Dot(t, "engine"))
    && ArtifactReferenceShape(env, Dot(t, "artifact"))
    && Dot(t, "count").Some? && Dot(t, "count").value.Num?
    && Dot(t, "loaded").Some? && Dot(t, "loaded").value.Bool?
  }

  /** count({x | some x in xs}) == count(xs) */
  predicate Distinct(xs: seq<Json>) {
    |set x | x in xs| == |xs|
  }

  /** An array of distinct ids no longer than 32. */
  predicate PointsShape(t: Term) {
    && IsArray(t)
    && |t.value.items| <= 32
    && Distinct(t.value.items)
    && forall x | x in Elements(t) :: IdValue(Some(x))
  }

  const ENFORCEMENT_KEYS: set<string> :=
    {"mode", "defaultBehavior", "requiredInterventionPoints", "observedInterventionPoints"}

  predicate EnforcementShape(t: Term) {
    && ObjectShape(t, ENFORCEMENT_KEYS, ENFORCEMENT_KEYS)
    && OneOf(Dot(t, "mode"), {"enforce", "monitor"})
    && OneOf(Dot(t, "defaultBehavior"), {"allow", "deny"})
    && PointsShape(Dot(t, "requiredInterventionPoints"))
    && |Dot(t, "requiredInterventionPoints").value.items| >= 1
    && PointsShape(Dot(t, "observedInterventionPoints"))
  }

  predicate IdentityShape(env: Env, t: Term) {
    && ObjectShape(t, {"providerUri", "subjectKind", "subject"}, {"providerUri", "subjectKind", "subject"})
    && AbsoluteUri(env, Dot(t, "providerUri"))
    && OneOf(Dot(t, "subjectKind"), {"agent", "workload"})
    && RedactedReferenceShape(Dot(t, "subject"))
  }

  predicate AuditShape(t: Term) {
    && ObjectShape(t, {"sinkKind", "sink", "configurationDigest"}, {"sinkKind", "sink", "configurationDigest"})
    && IdValue(Dot(t, "sinkKind"))
    && RedactedReferenceShape(Dot(t, "sink"))
    && CanonicalDigest(Dot(t, "configurationDigest"))
  }

  predicate FixtureShape(t: Term) {
    && ObjectShape(t, {"id", "producer"}, {"id", "producer"})
    && IdValue(Dot(t, "id"))
    && OneOf(Dot(t, "producer"), {"agt", "non-agt"})
  }

  predicate ControlledToolShape(env: Env, t: Term) {
    && ObjectShape(t, {"name", "actionClass", "artifact"}, {"name", "actionClass", "artifact"})
    && IsText(Dot(t, "name"))
    && IsText(Dot(t, "actionClass"))
    && ArtifactReferenceShape(env, Dot(t, "artifact"))
  }

  predicate ConformanceShape(env: Env, t: Term) {
    && ObjectShape(t, {"fixture", "controlledTool", "cases"}, {"fixture", "controlledTool", "cases"})
    && FixtureShape(Dot(t, "fixture"))
    && ControlledToolShape(env, Dot(t, "controlledTool"))
    && IsArray(Dot(t, "cases"))
    && forall c | c in Elements(Dot(t, "cases")) :: CaseShape(c)
  }

  function PredicateOf(s: Json): Term {
    Dot(Some(s), "predicate")
  }

  /** nested_core_shape_valid */
  predicate NestedCoreShape(env: Env, s: Json) {
    var p := PredicateOf(s);
    && AgentShape(env, Dot(p, "agent"))
    && RuntimeShape(env, Dot(p, "runtime"))
    && AdapterShape(env, Dot(p, "adapter"))
    && RuntimePolicyShape(env, Dot(p, "runtimePolicy"))
    && EnforcementShape(Dot(p, "enforcement"))
    && IdentityShape(env, Dot(p, "identity"))
    && AuditShape(Dot(p, "audit"))
    && ConformanceShape(env, Dot(p, "conformance"))
  }

  // ----- the positive derivation -----

  function AgentOf(s: Json): Term {
    Dot(PredicateOf(s), "agent")
  }

  function SubjectOf(s: Json): Term {
    Dot(Some(s), "subject")
  }

  function CasesOf(s: Json): Term {
    Dot(Dot(PredicateOf(s), "conformance"), "cases")
  }

  function ToolOf(s: Json): Term {
    Dot(Dot(PredicateOf(s), "conformance"), "controlledTool")
  }

  predicate RequiredRootKeysPresent(s: Json) {
    var p := PredicateOf(s);
    p.Some? && p.value.Obj? && REQUIRED_ROOT_KEYS <= p.value.fields.Keys
  }

  predicate CaseCardinality(s: Json) {
    IsArray(CasesOf(s)) && 1 <= |CasesOf(s).value.items| <= 4
  }

  predicate ControlledToolValid(s: Json) {
    var digest := Dot(Dot(ToolOf(s), "artifact"), "digest");
    && EqText(Dot(ToolOf(s), "name"), TOOL_NAME)
    && EqText(Dot(ToolOf(s), "actionClass"), TOOL_ACTION_CLASS)
    && EqText(digest, TOOL_DIGEST)
    && CanonicalDigest(digest)
  }

  predicate AdapterValid(s: Json) {
    var adapter := Dot(PredicateOf(s), "adapter");
    && EqText(Dot(adapter, "contractVersion"), "0.1")
    && Eq(Dot(adapter, "runtimeDigest"), Dot(Dot(Dot(PredicateOf(s), "runtime"), "artifact"), "digest"))
    && CanonicalDigest(Dot(adapter, "runtimeDigest"))
  }

  /** The subject's name and digest are the predicate's agent identity. */
  predicate SubjectIsAgent(env: Env, s: Json, sub: Json) {
    && Eq(Dot(Some(sub), "name"), Dot(AgentOf(s), "name"))
    && Eq(Sha256Text(env, Dot(Dot(Some(sub), "digest"), "sha256")), Dot(AgentOf(s), "artifactDigest"))
  }

  predicate AllowedRootKey(k: Json) {
    k.Str? && k.s in ALLOWED_ROOT_KEYS
  }

  /** deployment_envelope_valid */
  predicate EnvelopeValid(env: Env, s: Json) {
    && EqText(Dot(Some(s), "_type"), STATEMENT_TYPE)
    && Count(SubjectOf(s)) == Some(1)
    && (exists sub | sub in Elements(SubjectOf(s)) :: SubjectIsAgent(env, s, sub))
    && Iterable(PredicateOf(s))
    && (forall k | k in Keys(PredicateOf(s)) :: AllowedRootKey(k))
    && RequiredRootKeysPresent(s)
    && NestedCoreShape(env, s)
    && EqText(Dot(PredicateOf(s), "schemaVersion"), "0.1")
    && ControlledToolValid(s)
    && AdapterValid(s)
  }

  function PolicyFacts(s: Json): Term {
    Dot(PredicateOf(s), "runtimePolicy")
  }

  function EnforcementFacts(s: Json): Term {
    Dot(PredicateOf(s), "enforcement")
  }

  /** runtime_policy_consistent */
  predicate RuntimePolicyConsistent(s: Json) {
    var count, loaded := Dot(PolicyFacts(s), "count"), Dot(PolicyFacts(s), "loaded");
    || (&& count.Some? && count.value.Num?
        && count.value.n == count.value.n.Floor as real
        && 1.0 <= count.value.n <= 64.0
        && loaded == Some(Bool(true)))
    || (count == Some(Num(0.0)) && loaded == Some(Bool(false)))
  }

  predicate DefaultBehaviorValid(s: Json) {
    OneOf(Dot(EnforcementFacts(s), "defaultBehavior"), {"allow", "deny"})
  }

  /** deployment_enforcing: configured and exercised, with at least one required point. */
  predicate DeploymentEnforcing(s: Json) {
    var required := Dot(EnforcementFacts(s), "requiredInterventionPoints");
    var observed := Dot(EnforcementFacts(s), "observedInterventionPoints");
    && RuntimePolicyConsistent(s)
    && Dot(PolicyFacts(s), "loaded") == Some(Bool(true))
    && AtLeast(Dot(PolicyFacts(s), "count"), 1.0)
    && EqText(Dot(EnforcementFacts(s), "mode"), "enforce")
    && DefaultBehaviorValid(s)
    && Count(required).Some? && Count(required).value >= 1
    && Iterable(required)
    && forall p | p in Elements(required) :: observed.Some? && p in Elements(observed)
  }

  /** case_timestamps_valid */
  predicate CaseTimestampsValid(c: Json) {
    var started, completed := TimestampNs(Dot(Some(c), "startedAt")), TimestampNs(Dot(Some(c), "completedAt"));
    var decided := TimestampNs(Dot(Dot(Some(c), "decision"), "observedAt"));
    var seen := TimestampNs(Dot(Dot(Some(c), "outcome"), "observedAt"));
    && started.Some? && completed.Some? && decided.Some? && seen.Some?
    && started.value <= completed.value
    && completed.value - started.value <= 300000000000
    && started.value <= decided.value <= completed.value
    && started.value <= seen.value <= completed.value
  }

  // ----- signed test-result linkage -----

  /** tr_descriptor */
  function Descriptor(stmt: Json): Term {
    var configuration := Dot(PredicateOf(stmt), "configuration");
    if Count(configuration) == Some(1) then First(configuration) else None
  }

  function CaseIdClaimed(t: TestResult): Term {
    Dot(Dot(Descriptor(t.stmt), "annotations"), AnnKey("caseId"))
  }

  function ClaimReader(id: Term): TestResult -> Option<TestResult> {
    t => if Eq(CaseIdClaimed(t), id) then Some(t) else None
  }

  /** case_test_results: the test results whose descriptor claims the id. */
  function CaseTestResults(trs: seq<TestResult>, id: Term): seq<TestResult> {
    Collect(ClaimReader(id), trs)
  }

  function IdOf(c: Json): Term {
    Dot(Some(c), "id")
  }

  function DecisionOf(c: Json): Term {
    Dot(Some(c), "decision")
  }

  function OutcomeOf(c: Json): Term {
    Dot(Some(c), "outcome")
  }

  /** expected_annotation_keys */
  function ExpectedAnnotationKeys(c: Json): set<Json> {
    {Str(AnnKey("agentDigest")), Str(AnnKey("caseId")), Str(AnnKey("correlationId")),
     Str(AnnKey("decisionState")), Str(AnnKey("decisionVerdict")),
     Str(AnnKey("outcomeState")), Str(AnnKey("outcomeResult"))}
    + (if EqText(Dot(DecisionOf(c), "state"), "observed") then {Str(AnnKey("decisionDigest"))} else {})
    + (if EqText(Dot(OutcomeOf(c), "state"), "verified") then {Str(AnnKey("resultArtifactDigest"))} else {})
  }

  /** tr_annotations_valid */
  predicate AnnotationsValid(s: Json, c: Json, d: Term) {
    var annotations := Dot(d, "annotations");
    var decision, outcome := DecisionOf(c), OutcomeOf(c);
    && Keys(annotations) == ExpectedAnnotationKeys(c)
    && Eq(Dot(annotations, AnnKey("agentDigest")), Dot(AgentOf(s), "artifactDigest"))
    && Eq(Dot(annotations, AnnKey("correlationId")), Dot(Some(c), "correlationId"))
    && Eq(Dot(annotations, AnnKey("decisionState")), Dot(decision, "state"))
    && Eq(Dot(annotations, AnnKey("decisionVerdict")), Dot(decision, "verdict"))
    && Eq(Dot(annotations, AnnKey("outcomeState")), Dot(outcome, "state"))
    && Eq(Dot(annotations, AnnKey("outcomeResult")), Dot(outcome, "result"))
    && (|| (&& EqText(Dot(decision, "state"), "observed")
            && Eq(Dot(annotations, AnnKey("decisionDigest")), Dot(Dot(decision, "reference"), "digest")))
        || EqText(Dot(decision, "state"), "not-observed"))
    && (|| (&& EqText(Dot(outcome, "state"), "verified")
            && Eq(Dot(annotations, AnnKey("resultArtifactDigest")), Dot(Dot(outcome, "reference"), "digest")))
        || EqText(Dot(outcome, "state"), "unknown"))
  }

  /** tr_result_profile_valid */
  predicate ResultProfileValid(c: Json, p: Term) {
    var id, state := IdOf(c), Dot(OutcomeOf(c), "state");
    && id.Some?
    && Dot(p, "failedTests") == Some(Arr([]))
    && (|| (&& EqText(state, "verified") && EqText(Dot(p, "result"), "PASSED")
            && Dot(p, "passedTests") == Some(Arr([id.value])) && Dot(p, "warnedTests") == Some(Arr([])))
        || (&& EqText(state, "unknown") && EqText(Dot(p, "result"), "WARNED")
            && Dot(p, "warnedTests") == Some(Arr([id.value])) && Dot(p, "passedTests") == Some(Arr([]))))
  }

  predicate ResultUrlValid(env: Env, p: Term) {
    LacksKey(p, "url") || ArtifactUri(env, Dot(p, "url"))
  }

  /** The two subjects agree on name and digest. */
  predicate SameSubject(a: Json, b: Json) {
    && Eq(Dot(Some(a), "name"), Dot(Some(b), "name"))
    && Eq(Dot(Dot(Some(a), "digest"), "sha256"), Dot(Dot(Some(b), "digest"), "sha256"))
  }

  /** tr_statement_valid */
  predicate TestResultValid(env: Env, s: Json, c: Json, t: TestResult) {
    var ref := Dot(Some(c), "testResult");
    var d := Descriptor(t.stmt);
    && EqText(Dot(ref, "statementDigest"), Forms.DIGEST_PREFIX + t.digest)
    && EqText(Dot(ref, "predicateType"), TEST_RESULT_TYPE)
    && Eq(Dot(ref, "testId"), IdOf(c))
    && EqText(Dot(Some(t.stmt), "_type"), STATEMENT_TYPE)
    && Count(SubjectOf(t.stmt)) == Some(1)
    && (exists tsub, dsub | tsub in Elements(SubjectOf(t.stmt)) && dsub in Elements(SubjectOf(s)) ::
          SameSubject(tsub, dsub))
    && EqText(Dot(d, "name"), DESCRIPTOR_NAME)
    && EqText(Dot(d, "uri"), AnnKey("conformance"))
    && Eq(Sha256Text(env, Dot(Dot(d, "digest"), "sha256")), Dot(Dot(ToolOf(s), "artifact"), "digest"))
    && AnnotationsValid(s, c, d)
    && ResultProfileValid(c, PredicateOf(t.stmt))
    && ResultUrlValid(env, PredicateOf(t.stmt))
  }

  /** linkage_valid */
  predicate LinkageValid(env: Env, trs: seq<TestResult>, s: Json, c: Json) {
    var paired := CaseTestResults(trs, IdOf(c));
    |paired| == 1 && TestResultValid(env, s, c, paired[0])
  }

  /** The facts one positive kind of case must show. */
  predicate Proves(c: Json, kind: string, verdict: string, result: string) {
    && EqText(Dot(Some(c), "kind"), kind)
    && EqText(Dot(DecisionOf(c), "state"), "observed")
    && EqText(Dot(DecisionOf(c), "verdict"), verdict)
    && EqText(Dot(OutcomeOf(c), "state"), "verified")
    && EqText(Dot(OutcomeOf(c), "result"), result)
  }

  /** case_admissible */
  predicate CaseAdmissible(env: Env, trs: seq<TestResult>, s: Json, c: Json) {
    && (Proves(c, "allowed-action", "allow", "occurred") || Proves(c, "denied-action", "deny", "blocked"))
    && DeploymentEnforcing(s)
    && CaseTimestampsValid(c)
    && LinkageValid(env, trs, s, c)
  }

  /** The body of allow without its last line, the absence of violations. */
  predicate PositiveDerivation(env: Env, input: seq<Json>) {
    var ds, trs := Deployments(env, input), TestResults(env, input);
    && |ds| == 1
    && EnvelopeValid(env, ds[0])
    && CaseCardinality(ds[0])
    && forall c | c in Elements(CasesOf(ds[0])) :: CaseAdmissible(env, trs, ds[0], c)
  }

  // ----- violations -----

  datatype AgentRule =
    | WrongStatementType | WrongSchemaVersion | MissingRootKeys | BadNestedShape | BadCardinality
    | BadControlledTool | BadAdapter | BadDefaultBehavior | InconsistentPolicy | SubjectCount
    | SubjectName | SubjectDigest | UnexpectedRootKey | DuplicateIds | DuplicateKinds

  datatype CaseRule =
    | AdapterBypass | NoPolicyLoaded | BadTimestamps | NotEnforcing | DecisionNotObserved
    | AllowedVerdict | DeniedVerdict | OutcomeNotVerified | AllowedResult | DeniedResult
    | NoPairedResult | AmbiguousResults | BadCrossBinding

  datatype AgentRef = AgentRef(name: string, digest: string)
  datatype CaseRef = CaseRef(id: string, kind: string)

  /** A violation message, up to its wording: the rule that speaks and whom it names. */
  datatype Violation =
    | DeploymentCount(found: nat)
    | OfAgent(rule: AgentRule, agent: AgentRef)
    | OfCase(caseRule: CaseRule, agent: AgentRef, case_: CaseRef)

  /** The distinct defined values of a member over the elements of a collection. */
  function MemberValues(t: Term, key: string): set<Json> {
    set x | x in Elements(t) && Dot(Some(x), key).Some? :: Dot(Some(x), key).value
  }

  predicate AgentRuleFires(env: Env, rule: AgentRule, s: Json) {
    match rule
    case WrongStatementType => !EqText(Dot(Some(s), "_type"), STATEMENT_TYPE)
    case WrongSchemaVersion => !EqText(Dot(PredicateOf(s), "schemaVersion"), "0.1")
    case MissingRootKeys => !RequiredRootKeysPresent(s)
    case BadNestedShape => !NestedCoreShape(env, s)
    case BadCardinality => !CaseCardinality(s)
    case BadControlledTool => !ControlledToolValid(s)
    case BadAdapter => !AdapterValid(s)
    case BadDefaultBehavior => !DefaultBehaviorValid(s)
    case InconsistentPolicy => !RuntimePolicyConsistent(s)
    case SubjectCount => Count(SubjectOf(s)).Some? && Count(SubjectOf(s)).value != 1
    case SubjectName =>
      exists sub | sub in Elements(SubjectOf(s)) :: Neq(Dot(Some(sub), "name"), Dot(AgentOf(s), "name"))
    case SubjectDigest =>
      exists sub | sub in Elements(SubjectOf(s)) ::
        Neq(Sha256Text(env, Dot(Dot(Some(sub), "digest"), "sha256")), Dot(AgentOf(s), "artifactDigest"))
    case UnexpectedRootKey => exists k | k in Keys(PredicateOf(s)) :: !AllowedRootKey(k)
    case DuplicateIds =>
      Count(CasesOf(s)).Some? && |MemberValues(CasesOf(s), "id")| != Count(CasesOf(s)).value
    case DuplicateKinds =>
      Count(CasesOf(s)).Some? && |MemberValues(CasesOf(s), "kind")| != Count(CasesOf(s)).value
  }

  predicate KindIs(c: Json, kind: string) {
    EqText(Dot(Some(c), "kind"), kind)
  }

  /** positive_kind */
  predicate PositiveKind(c: Json) {
    OneOf(Dot(Some(c), "kind"), {"allowed-action", "denied-action"})
  }

  predicate CaseRuleFires(env: Env, trs: seq<TestResult>, rule: CaseRule, s: Json, c: Json) {
    var state, verdict := Dot(DecisionOf(c), "state"), Dot(DecisionOf(c), "verdict");
    var outcome, result := Dot(OutcomeOf(c), "state"), Dot(OutcomeOf(c), "result");
    var paired := CaseTestResults(trs, IdOf(c));
    match rule
    case AdapterBypass => KindIs(c, "adapter-bypass")
    case NoPolicyLoaded => KindIs(c, "no-policy-loaded")
    case BadTimestamps => PositiveKind(c) && !CaseTimestampsValid(c)
    case NotEnforcing => PositiveKind(c) && !DeploymentEnforcing(s)
    case DecisionNotObserved => PositiveKind(c) && Neq(state, Text("observed"))
    case AllowedVerdict => KindIs(c, "allowed-action") && EqText(state, "observed") && Neq(verdict, Text("allow"))
    case DeniedVerdict => KindIs(c, "denied-action") && EqText(state, "observed") && Neq(verdict, Text("deny"))
    case OutcomeNotVerified => PositiveKind(c) && Neq(outcome, Text("verified"))
    case AllowedResult => KindIs(c, "allowed-action") && EqText(outcome, "verified") && Neq(result, Text("occurred"))
    case DeniedResult => KindIs(c, "denied-action") && EqText(outcome, "verified") && Neq(result, Text("blocked"))
    case NoPairedResult => |paired| == 0
    case AmbiguousResults => |paired| > 1
    case BadCrossBinding => |paired| == 1 && !TestResultValid(env, s, c, paired[0])
  }

  /** safe_agent_name, safe_agent_digest, safe_case_id, safe_case_kind: total, so no message is ever lost. */
  function AgentRefOf(s: Json): AgentRef {
    var name, digest := Dot(AgentOf(s), "name"), Dot(AgentOf(s), "artifactDigest");
    AgentRef(if BoundedText(name, 256) then name.value.s else "unknown-agent",
             if CanonicalDigest(digest) then digest.value.s else "unknown-digest")
  }

  function CaseRefOf(c: Json): CaseRef {
    var id, kind := IdOf(c), Dot(Some(c), "kind");
    CaseRef(if IdValue(id) then id.value.s else "unknown-case",
            if OneOf(kind, CASE_KINDS) then kind.value.s else "unknown-kind")
  }

  /** agent_governance_violations */
  function Violations(env: Env, input: seq<Json>): set<Violation> {
    var ds, trs := Deployments(env, input), TestResults(env, input);
    (if |ds| != 1 then {DeploymentCount(|ds|)} else {})
    + (set s, r: AgentRule | s in ds && AgentRuleFires(env, r, s) :: OfAgent(r, AgentRefOf(s)))
    + (set s, c, r: CaseRule | s in ds && c in Elements(CasesOf(s)) && CaseRuleFires(env, trs, r, s, c) ::
         OfCase(r, AgentRefOf(s), CaseRefOf(c)))
  }

  /** allow */
  predicate Allow(env: Env, input: seq<Json>) {
    PositiveDerivation(env, input) && Violations(env, input) == {}
  }
}
