/**
 The deployment evidence of internal/evidence/deployment.go as values: its canonical form, the validators, and
 Generate. The class that normalises it in place is in Normalizer.dfy.
 */
module EvidenceModel {
  import opened Wrappers
  import opened Lists
  import opened Sorting
  import Forms
  import Rfc3339
  import Extensions

  datatype ArtifactRef = ArtifactRef(uri: string, digest: string)
  datatype RedactedRef = RedactedRef(id: string, digest: string)
  datatype Agent = Agent(name: string, uri: string, artifactDigest: string)
  datatype Runtime = Runtime(name: string, version: string, framework: string, artifact: ArtifactRef)
  datatype Adapter = Adapter(name: string, artifact: ArtifactRef, contractVersion: string, runtimeDigest: string)
  datatype RuntimePolicy = RuntimePolicy(engine: string, artifact: ArtifactRef, count: int, loaded: bool)
  datatype Enforcement = Enforcement(
    mode: string, defaultBehavior: string, required: seq<string>, observed: seq<string>)
  datatype Identity = Identity(providerUri: string, subjectKind: string, subject: RedactedRef)
  datatype Audit = Audit(sinkKind: string, sink: RedactedRef, configurationDigest: string)
  datatype Fixture = Fixture(id: string, producer: string)
  datatype Tool = Tool(name: string, actionClass: string, artifact: ArtifactRef)

  /** A decision or an outcome: what was seen, and the record of it. An empty observedAt is an absent one. */
  datatype Observation = Observation(
    state: string, finding: string, reference: Option<RedactedRef>, observedAt: string)

  datatype TestResultRef = TestResultRef(predicateType: string, testId: string, statementDigest: string)

  datatype Case = Case(
    id: string, kind: string, correlationId: string, startedAt: string, completedAt: string,
    decision: Observation, outcome: Observation, testResult: TestResultRef)

  datatype Evidence = Evidence(
    schemaVersion: string, agent: Agent, runtime: Runtime, adapter: Adapter, runtimePolicy: RuntimePolicy,
    enforcement: Enforcement, identity: Identity, audit: Audit, fixture: Fixture, tool: Tool,
    cases: seq<Case>, extensions: map<string, Extensions.Ext>)

  const SCHEMA_VERSION: string := "0.1"
  const TOOL_NAME: string := "write-marker"
  const TOOL_ACTION_CLASS: string := "filesystem.write.marker"
  const TEST_RESULT_TYPE: string := "https://in-toto.io/attestation/test-result/v0.1"

  // ----- normal forms of the parts -----

  function LowerChar(c: char): char {
    if 'A' <= c <= 'Z' then (c as int + 32) as char else c
  }

  /** strings.ToLower on ASCII text. */
  function Lower(s: string): string {
    seq(|s|, i requires 0 <= i < |s| => LowerChar(s[i]))
  }

  /** normalizeAgentGovernanceDigest */
  function NormalizeDigest(s: string): Option<string> {
    if Forms.LooseDigest(s) then Some(Lower(s)) else None
  }

  function CanonArtifact(r: ArtifactRef): Option<ArtifactRef> {
    var d :- NormalizeDigest(r.digest);
    Some(r.(digest := d))
  }

  function CanonRedacted(r: RedactedRef): Option<RedactedRef> {
    var d :- NormalizeDigest(r.digest);
    Some(r.(digest := d))
  }

  function CanonReference(r: Option<RedactedRef>): Option<Option<RedactedRef>> {
    match r
    case None => Some(None)
    case Some(ref) =>
      var canonical :- CanonRedacted(ref);
      Some(Some(canonical))
  }

  /** A timestamp that may be absent. */
  function CanonObservedAt(s: string): Option<string> {
    if s == "" then Some("") else Rfc3339.NormalizeTimestamp(s)
  }

  function CanonObservation(o: Observation): Option<Observation> {
    var reference :- CanonReference(o.reference);
    var observedAt :- CanonObservedAt(o.observedAt);
    Some(o.(reference := reference, observedAt := observedAt))
  }

  function CanonCase(c: Case): Option<Case> {
    var correlationId :- NormalizeDigest(c.correlationId);
    var statementDigest :- NormalizeDigest(c.testResult.statementDigest);
    var startedAt :- Rfc3339.NormalizeTimestamp(c.startedAt);
    var completedAt :- Rfc3339.NormalizeTimestamp(c.completedAt);
    var decision :- CanonObservation(c.decision);
    var outcome :- CanonObservation(c.outcome);
    Some(c.(correlationId := correlationId, startedAt := startedAt, completedAt := completedAt,
            decision := decision, outcome := outcome,
            testResult := c.testResult.(statementDigest := statementDigest)))
  }

  function CanonCases(cases: seq<Case>): Option<seq<Case>> {
    if forall c | c in cases :: CanonCase(c).Some? then Some(Collect(CanonCase, cases)) else None
  }

  /** The fixed sort order of the known kinds. */
  function KindOrder(kind: string): Option<nat> {
    if kind == "allowed-action" then Some(0)
    else if kind == "denied-action" then Some(1)
    else if kind == "adapter-bypass" then Some(2)
    else if kind == "no-policy-loaded" then Some(3)
    else None
  }

  /** The comparator of Normalize: known kinds before unknown ones, then by kind order, then by id. */
  predicate CaseLess(a: Case, b: Case) {
    var x, y := KindOrder(a.kind), KindOrder(b.kind);
    if x.Some? != y.Some? then x.Some?
    else if x.Some? && x.value != y.value then x.value < y.value
    else LexLess(a.id, b.id)
  }

  /** The members of the evidence outside enforcement, cases and extensions. */
  function CanonHead(e: Evidence): Option<Evidence> {
    var agentDigest :- NormalizeDigest(e.agent.artifactDigest);
    var runtimeArtifact :- CanonArtifact(e.runtime.artifact);
    var adapterArtifact :- CanonArtifact(e.adapter.artifact);
    var runtimeDigest :- NormalizeDigest(e.adapter.runtimeDigest);
    var policyArtifact :- CanonArtifact(e.runtimePolicy.artifact);
    var subject :- CanonRedacted(e.identity.subject);
    var sink :- CanonRedacted(e.audit.sink);
    var configurationDigest :- NormalizeDigest(e.audit.configurationDigest);
    var toolArtifact :- CanonArtifact(e.tool.artifact);
    Some(e.(agent := e.agent.(artifactDigest := agentDigest),
            runtime := e.runtime.(artifact := runtimeArtifact),
            adapter := e.adapter.(artifact := adapterArtifact, runtimeDigest := runtimeDigest),
            runtimePolicy := e.runtimePolicy.(artifact := policyArtifact),
            identity := e.identity.(subject := subject),
            audit := e.audit.(sink := sink, configurationDigest := configurationDigest),
            tool := e.tool.(artifact := toolArtifact)))
  }

  function CanonEnforcement(f: Enforcement): Enforcement {
    f.(required := DedupeSort(f.required), observed := DedupeSort(f.observed))
  }

  function CanonExtensions(x: map<string, Extensions.Ext>): map<string, Extensions.Ext> {
    map k | k in x :: Extensions.Canon(x[k])
  }

  /** What Normalize makes of the evidence; None where it returns an error. */
  function Canon(e: Evidence): Option<Evidence> {
    var head :- CanonHead(e);
    var cases :- CanonCases(e.cases);
    Some(head.(enforcement := CanonEnforcement(e.enforcement),
               cases := StableSort(CaseLess, cases),
               extensions := CanonExtensions(e.extensions)))
  }

  /** Normalisation keeps the number of cases; a single case stays where it is. */
  lemma CanonCount(e: Evidence)
    requires Canon(e).Some?
    ensures |Canon(e).value.cases| == |e.cases|
    ensures |e.cases| == 1 ==> CanonCase(e.cases[0]) == Some(Canon(e).value.cases[0])
  {
    hide CanonHead, CanonCase, CanonEnforcement, CanonExtensions, CaseLess;
    var y := CanonCases(e.cases).value;
    CollectMaps(CanonCase, e.cases);
    SortPermutes(CaseLess, y);
    PermutedSize(StableSort(CaseLess, y), y);
  }

  // ----- validation -----

  datatype Url = Url(scheme: string, host: string)

  /**
   What the evidence package takes from libraries: url.Parse, the URI pattern of the embedded schema, and the
   rest of the schema check together with the byte bounds of the output.
   */
  datatype Library = Library(
    parseUrl: string -> Option<Url>,
    uriPattern: string -> bool,
    emits: Evidence -> bool)

  /** validateBoundedText, whose bound counts bytes. */
  predicate BoundedText(s: string, limit: nat) {
    s != "" && Forms.Utf8Length(s) <= limit && Forms.NoControl(s)
  }

  /** Every percent sign is followed by two hexadecimal digits. */
  predicate PercentValid(s: string, i: nat)
    requires i <= |s|
    decreases |s| - i
  {
    if i == |s| then true
    else if s[i] != '%' then PercentValid(s, i + 1)
    else i + 2 < |s| && Forms.IsHex(s[i + 1]) && Forms.IsHex(s[i + 2]) && PercentValid(s, i + 3)
  }

  /** validateAbsoluteURI without an allowlist. */
  predicate AbsoluteUri(lib: Library, s: string) {
    var url := lib.parseUrl(s);
    && BoundedText(s, 2048)
    && PercentValid(s, 0)
    && url.Some?
    && url.value.scheme != ""
    && ((url.value.scheme == "https" || url.value.scheme == "oci") ==> url.value.host != "")
  }

  /** The text before the first colon has no upper-case letter. */
  predicate LowerScheme(s: string) {
    exists i | 0 <= i < |s| :: s[i] == ':' && forall j | 0 <= j < i :: s[j] != ':' && !('A' <= s[j] <= 'Z')
  }

  /** validateArtifactReference */
  predicate ArtifactValid(lib: Library, r: ArtifactRef) {
    && AbsoluteUri(lib, r.uri)
    && lib.parseUrl(r.uri).value.scheme in {"https", "oci", "urn"}
    && LowerScheme(r.uri)
    && Forms.CanonicalDigest(r.digest)
  }

  /** validateRedactedReference */
  predicate RedactedValid(r: RedactedRef) {
    Forms.RedactedId(r.id) && Forms.CanonicalDigest(r.digest)
  }

  predicate RootValid(lib: Library, e: Evidence) {
    && e.schemaVersion == SCHEMA_VERSION
    && BoundedText(e.agent.name, 256)
    && AbsoluteUri(lib, e.agent.uri)
    && Forms.CanonicalDigest(e.agent.artifactDigest)
  }

  predicate RuntimeAdapterValid(lib: Library, e: Evidence) {
    && BoundedText(e.runtime.name, 128)
    && BoundedText(e.runtime.version, 128)
    && (e.runtime.framework != "" ==> BoundedText(e.runtime.framework, 128))
    && ArtifactValid(lib, e.runtime.artifact)
    && BoundedText(e.adapter.name, 128)
    && ArtifactValid(lib, e.adapter.artifact)
    && e.adapter.contractVersion == SCHEMA_VERSION
    && Forms.CanonicalDigest(e.adapter.runtimeDigest)
    && e.adapter.runtimeDigest == e.runtime.artifact.digest
  }

  predicate RuntimePolicyValid(lib: Library, e: Evidence) {
    && Forms.IdValue(e.runtimePolicy.engine)
    && ArtifactValid(lib, e.runtimePolicy.artifact)
    && 0 <= e.runtimePolicy.count <= 64
    && e.runtimePolicy.loaded == (e.runtimePolicy.count >= 1)
  }

  predicate EnforcementValid(f: Enforcement) {
    && f.mode in {"enforce", "monitor"}
    && f.defaultBehavior in {"allow", "deny"}
    && 1 <= |f.required| <= 32
    && |f.observed| <= 32
    && (forall p | p in f.required :: Forms.IdValue(p))
    && (forall p | p in f.observed :: Forms.IdValue(p))
  }

  predicate IdentityAuditValid(lib: Library, e: Evidence) {
    && AbsoluteUri(lib, e.identity.providerUri)
    && e.identity.subjectKind in {"agent", "workload"}
    && RedactedValid(e.identity.subject)
    && Forms.IdValue(e.audit.sinkKind)
    && RedactedValid(e.audit.sink)
    && Forms.CanonicalDigest(e.audit.configurationDigest)
  }

  const MAX_CASE_NANOSECONDS := 300 * 1000000000

  /** A parse under the canonical layout, in nanoseconds since the Unix epoch. */
  function ParseNs(s: string): Option<int> {
    var t :- Rfc3339.Parse(s, Rfc3339.LiteralZ);
    Some(Rfc3339.StampInstant(t) * 1000000000 + t.nanos)
  }

  /** validateCaseInterval */
  predicate IntervalValid(c: Case) {
    var started, completed := ParseNs(c.startedAt), ParseNs(c.completedAt);
    && started.Some? && completed.Some?
    && started.value <= completed.value
    && completed.value - started.value <= MAX_CASE_NANOSECONDS
  }

  /** validateObservedAt */
  predicate ObservedAtValid(c: Case, s: string)
    requires IntervalValid(c)
  {
    var observed := ParseNs(s);
    && s != ""
    && observed.Some?
    && ParseNs(c.startedAt).value <= observed.value <= ParseNs(c.completedAt).value
  }

  /** The record of something seen: a reference and a time in the interval. */
  predicate Recorded(c: Case, o: Observation)
    requires IntervalValid(c)
  {
    o.reference.Some? && RedactedValid(o.reference.value) && ObservedAtValid(c, o.observedAt)
  }

  predicate Unrecorded(o: Observation) {
    o.finding == "unknown" && o.reference.None? && o.observedAt == ""
  }

  /** validateCaseDecision */
  predicate DecisionValid(c: Case)
    requires IntervalValid(c)
  {
    || (c.decision.state == "observed" && c.decision.finding in {"allow", "deny"} && Recorded(c, c.decision))
    || (c.decision.state == "not-observed" && Unrecorded(c.decision))
  }

  /** validateCaseOutcome */
  predicate OutcomeValid(c: Case)
    requires IntervalValid(c)
  {
    || (c.outcome.state == "verified" && c.outcome.finding in {"occurred", "blocked"} && Recorded(c, c.outcome))
    || (c.outcome.state == "unknown" && Unrecorded(c.outcome))
  }

  /** validateCaseTestResult */
  predicate TestResultValid(c: Case) {
    && c.testResult.predicateType == TEST_RESULT_TYPE
    && c.testResult.testId == c.id
    && Forms.CanonicalDigest(c.testResult.statementDigest)
  }

  /** stringSubset */
  predicate Exercised(f: Enforcement) {
    forall p | p in f.required :: p in f.observed
  }

  /** validateCaseKindConsistency */
  predicate KindConsistent(e: Evidence, c: Case) {
    && (c.kind == "allowed-action" ==> c.decision.state == "observed" && c.decision.finding == "allow")
    && (c.kind == "denied-action" ==> c.decision.state == "observed" && c.decision.finding == "deny")
    && (c.kind == "adapter-bypass" ==> !(c.decision.state == "observed" && Exercised(e.enforcement)))
    && (c.kind == "no-policy-loaded" ==> !e.runtimePolicy.loaded)
  }

  /** validateCase */
  predicate CaseValid(e: Evidence, c: Case) {
    && Forms.IdValue(c.id)
    && KindOrder(c.kind).Some?
    && Forms.CanonicalDigest(c.correlationId)
    && IntervalValid(c)
    && DecisionValid(c)
    && OutcomeValid(c)
    && TestResultValid(c)
    && KindConsistent(e, c)
  }

  predicate DistinctCases(cases: seq<Case>) {
    forall i, j | 0 <= i < j < |cases| :: cases[i].id != cases[j].id && cases[i].kind != cases[j].kind
  }

  predicate ConformanceHeadValid(lib: Library, e: Evidence) {
    && Forms.IdValue(e.fixture.id)
    && e.fixture.producer in {"agt", "non-agt"}
    && e.tool.name == TOOL_NAME
    && e.tool.actionClass == TOOL_ACTION_CLASS
    && ArtifactValid(lib, e.tool.artifact)
    && 1 <= |e.cases| <= 4
  }

  /** validateConformance */
  predicate ConformanceValid(lib: Library, e: Evidence) {
    && ConformanceHeadValid(lib, e)
    && DistinctCases(e.cases)
    && forall c | c in e.cases :: CaseValid(e, c)
  }

  /** validateExtensions without the byte bounds. */
  predicate ExtensionsValid(lib: Library, e: Evidence) {
    && |e.extensions| <= 8
    && forall k | k in e.extensions ::
         Forms.Utf8Length(k) <= 256 && AbsoluteUri(lib, k) && Extensions.DepthOk(e.extensions[k], 1)
  }

  /** Validate */
  predicate Valid(lib: Library, e: Evidence) {
    && RootValid(lib, e)
    && RuntimeAdapterValid(lib, e)
    && RuntimePolicyValid(lib, e)
    && EnforcementValid(e.enforcement)
    && IdentityAuditValid(lib, e)
    && ConformanceValid(lib, e)
    && ExtensionsValid(lib, e)
  }

  /** The embedded schema: its URI pattern where it is used, and the opaque rest. */
  predicate SchemaAccepts(lib: Library, e: Evidence) {
    && lib.uriPattern(e.agent.uri)
    && lib.uriPattern(e.identity.providerUri)
    && lib.uriPattern(e.runtime.artifact.uri)
    && lib.uriPattern(e.adapter.artifact.uri)
    && lib.uriPattern(e.runtimePolicy.artifact.uri)
    && lib.uriPattern(e.tool.artifact.uri)
    && lib.emits(e)
  }

  /** Generate: the value that is printed, or None where an error is returned. */
  function Generate(lib: Library, e: Evidence): Option<Evidence> {
    var v :- Canon(e);
    if Valid(lib, v) && SchemaAccepts(lib, v) then Some(v) else None
  }
}
