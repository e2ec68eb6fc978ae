/**
 The statement builder of internal/demokit/statements.go: the JSON it prints, the paired test-result statement,
 and BuildCase, which binds one to the other.
 */
module Statements {
  import opened Wrappers
  import opened RawBytes
  import opened Json
  import opened EvidenceModel
  import Extensions
  import Forms
  import Normalizer

  /** What the builder takes from libraries: json.Marshal, sha256.Sum256, the test-result schema, JSON scalars. */
  datatype Codec = Codec(
    marshal: Json -> Bytes,
    sha256: Bytes -> Forms.Hex64,
    testResultAccepts: Json -> bool,
    scalar: string -> Json)

  const DEPLOYMENT_TYPE: string := "https://autogov.dev/attestation/agent-governance-deployment/v0.1"
  const STATEMENT_TYPE: string := "https://in-toto.io/Statement/v1"
  const DESCRIPTOR_NAME: string := "agent-governance-conformance-v0.1"

  /** "sha256:" + strings.Repeat("0", 64) */
  const PLACEHOLDER: string := Forms.DIGEST_PREFIX + seq(64, _ => '0')

  function AnnKey(suffix: string): string {
    DEPLOYMENT_TYPE + "#" + suffix
  }

  // ----- the predicate as JSON -----

  function ArtifactJson(r: ArtifactRef): Json {
    Obj(map["uri" := Str(r.uri), "digest" := Str(r.digest)])
  }

  function RedactedJson(r: RedactedRef): Json {
    Obj(map["id" := Str(r.id), "digest" := Str(r.digest)])
  }

  function AgentJson(a: Agent): Json {
    Obj(map["name" := Str(a.name), "uri" := Str(a.uri), "artifactDigest" := Str(a.artifactDigest)])
  }

  function RuntimeJson(r: Runtime): Json {
    var fields := map["name" := Str(r.name), "version" := Str(r.version), "artifact" := ArtifactJson(r.artifact)];
    Obj(if r.framework == "" then fields else fields["framework" := Str(r.framework)])
  }

  function AdapterJson(a: Adapter): Json {
    Obj(map["name" := Str(a.name), "artifact" := ArtifactJson(a.artifact),
            "contractVersion" := Str(a.contractVersion), "runtimeDigest" := Str(a.runtimeDigest)])
  }

  function RuntimePolicyJson(p: RuntimePolicy): Json {
    Obj(map["engine" := Str(p.engine), "artifact" := ArtifactJson(p.artifact),
            "count" := Num(p.count as real), "loaded" := Bool(p.loaded)])
  }

  function TextsJson(texts: seq<string>): Json {
    Arr(seq(|texts|, i requires 0 <= i < |texts| => Str(texts[i])))
  }

  function EnforcementJson(f: Enforcement): Json {
    Obj(map["mode" := Str(f.mode), "defaultBehavior" := Str(f.defaultBehavior),
            "requiredInterventionPoints" := TextsJson(f.required),
            "observedInterventionPoints" := TextsJson(f.observed)])
  }

  function IdentityJson(i: Identity): Json {
    Obj(map["providerUri" := Str(i.providerUri), "subjectKind" := Str(i.subjectKind),
            "subject" := RedactedJson(i.subject)])
  }

  function AuditJson(a: Audit): Json {
    Obj(map["sinkKind" := Str(a.sinkKind), "sink" := RedactedJson(a.sink),
            "configurationDigest" := Str(a.configurationDigest)])
  }

  /** A decision or an outcome: absent members are omitted, never printed empty. */
  function ObservationJson(o: Observation, finding: string): Json {
    var fields := map["state" := Str(o.state), finding := Str(o.finding)];
    var withReference := if o.reference.None? then fields
                         else fields["reference" := RedactedJson(o.reference.value)];
    Obj(if o.observedAt == "" then withReference else withReference["observedAt" := Str(o.observedAt)])
  }

  function TestResultRefJson(t: TestResultRef): Json {
    Obj(map["predicateType" := Str(t.predicateType), "testId" := Str(t.testId),
            "statementDigest" := Str(t.statementDigest)])
  }

  function CaseJson(c: Case): Json {
    Obj(map["id" := Str(c.id), "kind" := Str(c.kind), "correlationId" := Str(c.correlationId),
            "startedAt" := Str(c.startedAt), "completedAt" := Str(c.completedAt),
            "decision" := ObservationJson(c.decision, "verdict"),
            "outcome" := ObservationJson(c.outcome, "result"),
            "testResult" := TestResultRefJson(c.testResult)])
  }

  function FixtureJson(f: Fixture): Json {
    Obj(map["id" := Str(f.id), "producer" := Str(f.producer)])
  }

  function ToolJson(t: Tool): Json {
    Obj(map["name" := Str(t.name), "actionClass" := Str(t.actionClass), "artifact" := ArtifactJson(t.artifact)])
  }

  function ConformanceJson(e: Evidence): Json {
    Obj(map["fixture" := FixtureJson(e.fixture), "controlledTool" := ToolJson(e.tool),
            "cases" := Arr(seq(|e.cases|, i requires 0 <= i < |e.cases| => CaseJson(e.cases[i])))])
  }

  function ValueJson(codec: Codec, v: Extensions.Value): Json {
    match v
    case Atom(text) => codec.scalar(text)
    case Sequence(items) => Arr(seq(|items|, i requires 0 <= i < |items| => ValueJson(codec, items[i])))
    case Table(fields) => Obj(map k | k in fields :: ValueJson(codec, fields[k]))
  }

  function ExtensionsJson(codec: Codec, x: map<string, Extensions.Ext>): Json {
    Obj(map k | k in x :: ValueJson(codec, Extensions.Denote(x[k])))
  }

  /** json.MarshalIndent of the evidence. */
  function PredicateJson(codec: Codec, e: Evidence): Json {
    var fields := map[
      "schemaVersion" := Str(e.schemaVersion), "agent" := AgentJson(e.agent), "runtime" := RuntimeJson(e.runtime),
      "adapter" := AdapterJson(e.adapter), "runtimePolicy" := RuntimePolicyJson(e.runtimePolicy),
      "enforcement" := EnforcementJson(e.enforcement), "identity" := IdentityJson(e.identity),
      "audit" := AuditJson(e.audit), "conformance" := ConformanceJson(e)
    ];
    Obj(if |e.extensions| == 0 then fields else fields["extensions" := ExtensionsJson(codec, e.extensions)])
  }

  // ----- statements -----

  function TrimDigestPrefix(s: string): string {
    if |s| >= 7 && s[..7] == Forms.DIGEST_PREFIX then s[7..] else s
  }

  /** agentSubject */
  function SubjectJson(a: Agent): Json {
    Obj(map["name" := Str(a.name),
            "digest" := Obj(map["sha256" := Str(TrimDigestPrefix(a.artifactDigest))])])
  }

  function StatementJson(a: Agent, predicateType: string, body: Json): Json {
    Obj(map["_type" := Str(STATEMENT_TYPE), "subject" := Arr([SubjectJson(a)]),
            "predicateType" := Str(predicateType), "predicate" := body])
  }

  /** The nine annotations at most, as one map: which are present depends on the two states. */
  function Annotations(e: Evidence, c: Case): map<string, Json> {
    map[AnnKey("agentDigest") := Str(e.agent.artifactDigest),
        AnnKey("caseId") := Str(c.id),
        AnnKey("correlationId") := Str(c.correlationId),
        AnnKey("decisionState") := Str(c.decision.state),
        AnnKey("decisionVerdict") := Str(c.decision.finding),
        AnnKey("outcomeState") := Str(c.outcome.state),
        AnnKey("outcomeResult") := Str(c.outcome.finding)]
    + (if c.decision.state == "observed" && c.decision.reference.Some?
       then map[AnnKey("decisionDigest") := Str(c.decision.reference.value.digest)] else map[])
    + (if c.outcome.state == "verified" && c.outcome.reference.Some?
       then map[AnnKey("resultArtifactDigest") := Str(c.outcome.reference.value.digest)] else map[])
  }

  function DescriptorJson(e: Evidence, annotations: map<string, Json>): Json {
    Obj(map["name" := Str(DESCRIPTOR_NAME), "uri" := Str(AnnKey("conformance")),
            "digest" := Obj(map["sha256" := Str(TrimDigestPrefix(e.tool.artifact.digest))]),
            "annotations" := Obj(annotations)])
  }

  function TestResultPredicate(result: string, descriptor: Json, passed: seq<string>, warned: seq<string>): Json {
    Obj(map["result" := Str(result), "configuration" := Arr([descriptor]),
            "passedTests" := TextsJson(passed), "warnedTests" := TextsJson(warned), "failedTests" := Arr([])])
  }

  /** The test-result statement for a case, or None where BuildTestResultStatement returns an error. */
  function TestResultStatement(codec: Codec, e: Evidence, c: Case): Option<Json> {
    if c.decision.state == "observed" && c.decision.reference.None? then None
    else if c.outcome.state == "verified" && c.outcome.reference.None? then None
    else if c.outcome.state != "verified" && c.outcome.state != "unknown" then None
    else
      var verified := c.outcome.state == "verified";
      var p := TestResultPredicate(if verified then "PASSED" else "WARNED", DescriptorJson(e, Annotations(e, c)),
                                   if verified then [c.id] else [], if verified then [] else [c.id]);
      if codec.testResultAccepts(p) then Some(StatementJson(e.agent, TEST_RESULT_TYPE, p)) else None
  }

  /** BuildTestResultStatement, which fills the annotations and the predicate step by step. */
  method BuildTestResultStatement(codec: Codec, e: Evidence, c: Case) returns (r: Option<Json>)
    ensures r == TestResultStatement(codec, e, c)
  {
    var annotations := map[
      AnnKey("agentDigest") := Str(e.agent.artifactDigest),
      AnnKey("caseId") := Str(c.id),
      AnnKey("correlationId") := Str(c.correlationId),
      AnnKey("decisionState") := Str(c.decision.state),
      AnnKey("decisionVerdict") := Str(c.decision.finding),
      AnnKey("outcomeState") := Str(c.outcome.state),
      AnnKey("outcomeResult") := Str(c.outcome.finding)
    ];
    if c.decision.state == "observed" {
      if c.decision.reference.None? { return None; }
      annotations := annotations[AnnKey("decisionDigest") := Str(c.decision.reference.value.digest)];
    }
    var result, passed, warned := "", [], [];
    if c.outcome.state == "verified" {
      if c.outcome.reference.None? { return None; }
      annotations := annotations[AnnKey("resultArtifactDigest") := Str(c.outcome.reference.value.digest)];
      result, passed := "PASSED", [c.id];
    } else if c.outcome.state == "unknown" {
      result, warned := "WARNED", [c.id];
    } else {
      return None;
    }
    assert annotations == Annotations(e, c);
    var p := TestResultPredicate(result, DescriptorJson(e, annotations), passed, warned);
    return if codec.testResultAccepts(p) then Some(StatementJson(e.agent, TEST_RESULT_TYPE, p)) else None;
  }

  /** BuildDeploymentStatement, with its check of the agent identity. */
  function DeploymentStatement(codec: Codec, e: Evidence, body: Evidence): Option<Json> {
    if body.agent.name != e.agent.name || body.agent.artifactDigest != e.agent.artifactDigest then None
    else Some(StatementJson(e.agent, DEPLOYMENT_TYPE, PredicateJson(codec, body)))
  }

  // ----- BuildCase -----

  /** What BuildCase hands to the signer. */
  datatype Built = Built(body: Evidence, deployment: Bytes, testResult: Bytes)

  /** The evidence with the statement digest of its first case replaced. */
  function WithDigest(e: Evidence, digest: string): Evidence
    requires e.cases != []
  {
    var c := e.cases[0];
    e.(cases := e.cases[0 := c.(testResult := c.testResult.(statementDigest := digest))])
  }

  function Finish(codec: Codec, lib: Library, bound: Evidence, testResult: Bytes): Option<Built> {
    var body :- Generate(lib, bound);
    var deployment :- DeploymentStatement(codec, body, body);
    Some(Built(body, codec.marshal(deployment), testResult))
  }

  /** The evidence that BuildCase normalises first, before any digest exists. */
  predicate Buildable(e: Evidence) {
    |e.cases| == 1 && e.cases[0].testResult.statementDigest == ""
  }

  /** BuildCase: the specification that the method below meets. */
  function Build(codec: Codec, lib: Library, e: Evidence): Option<Built> {
    if !Buildable(e) then None
    else
      var v :- Canon(WithDigest(e, PLACEHOLDER));
      CanonCount(WithDigest(e, PLACEHOLDER));
      var unbound := WithDigest(v, "");
      var stmt :- TestResultStatement(codec, unbound, unbound.cases[0]);
      var testResult := codec.marshal(stmt);
      Finish(codec, lib, WithDigest(v, Forms.DIGEST_PREFIX + codec.sha256(testResult)), testResult)
  }

  /** BuildCase on the evidence object: three assignments of the digest around two normalisations. */
  method BuildCase(codec: Codec, lib: Library, d: Normalizer.Deployment) returns (r: Option<Built>)
    modifies d
    ensures r == Build(codec, lib, old(d.Value()))
    ensures r.Some? ==> d.Value() == r.value.body
  {
    hide Canon, Generate, TestResultStatement, PredicateJson;
    if |d.cases| != 1 || d.cases[0].testResult.statementDigest != "" {
      return None;
    }
    ghost var e := d.Value();
    SetDigest(d, PLACEHOLDER);
    assert d.Value() == WithDigest(e, PLACEHOLDER);
    var ok := d.Normalize();
    if !ok { return None; }
    CanonCount(WithDigest(e, PLACEHOLDER));
    ghost var v := d.Value();
    SetDigest(d, "");
    var stmt := BuildTestResultStatement(codec, d.Value(), d.cases[0]);
    if stmt.None? { return None; }
    var testResult := codec.marshal(stmt.value);
    SetDigest(d, Forms.DIGEST_PREFIX + codec.sha256(testResult));
    assert d.Value() == WithDigest(v, Forms.DIGEST_PREFIX + codec.sha256(testResult));
    var body := d.GenerateBody(lib);
    if body.None? { return None; }
    var deployment := DeploymentStatement(codec, d.Value(), body.value);
    if deployment.None? { return None; }
    return Some(Built(body.value, codec.marshal(deployment.value), testResult));
  }

  /** evidence.Conformance.Cases[0].TestResult.StatementDigest = digest */
  method SetDigest(d: Normalizer.Deployment, digest: string)
    requires d.cases != []
    modifies d`cases
    ensures d.Value() == WithDigest(old(d.Value()), digest)
  {
    var c := d.cases[0];
    d.cases := d.cases[0 := c.(testResult := c.testResult.(statementDigest := digest))];
  }
}
