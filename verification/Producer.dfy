/**
 The non-AGT producer of adapters/non-agt/producer.py: how a decision, an execution and an observation become the
 evidence of one conformance case.
 */
module Producer {
  import opened Wrappers
  import opened Json
  import opened EvidenceModel
  import ToyRuntime
  import Forms

  const INTERVENTION_POINT: string := "tool.pre"
  const PRODUCER: string := "non-agt"
  const ENGINE: string := "toy-json-rules"
  const CORRELATION_SALT: string := "autogov-agent-governance-demo-v0.1"
  const URN_BASE: string := "urn:autogov:example:agent-governance"
  const TOOL_URI: string := "urn:autogov:fixture:write-marker"

  datatype Spec = Spec(
    caseId: string, kind: string, purpose: Option<string>, policyLoaded: bool, bypass: bool, outcomeVerified: bool,
    start: nat)

  datatype Shared = Shared(
    agent: Agent, runtimeDigest: string, adapterDigest: string, policyDigest: string, noPolicyDigest: string,
    toolDigest: string, identity: Identity, audit: Audit)

  /** What the producer takes from its host: SHA-256 of a printed record and of a text, and of the marker file. */
  datatype Host = Host(
    recordDigest: Json -> Forms.Hex64, textDigest: string -> Forms.Hex64, markerDigest: Forms.Hex64)

  /** ts: a time on a fixed day, the second printed with at least two digits. */
  function Ts(second: nat): string {
    "2026-08-26T20:00:" + (if second < 10 then "0" + Forms.Digits(second) else Forms.Digits(second)) + "Z"
  }

  function CorrelationId(host: Host, caseId: string): string {
    Forms.DIGEST_PREFIX + host.textDigest(CORRELATION_SALT + ":" + PRODUCER + ":" + caseId)
  }

  function TextOrNull(t: Option<string>): Json {
    if t.Some? then Str(t.value) else Null
  }

  function CaseContext(spec: Spec): ToyRuntime.Context {
    map["tool_name" := Str("write-marker"), "purpose" := TextOrNull(spec.purpose)]
  }

  /** The documents of the runtime: the policy file, or none. */
  function Docs(spec: Spec, policy: ToyRuntime.PolicyDoc): seq<ToyRuntime.PolicyDoc> {
    if spec.policyLoaded then [policy] else []
  }

  /** The decision at tool.pre; a bypass asks for none. The outer None is a raised KeyError. */
  function Decided(spec: Spec, policy: ToyRuntime.PolicyDoc): Option<Option<ToyRuntime.Decision>> {
    if spec.bypass then Some(None)
    else
      var d :- ToyRuntime.Decide(Docs(spec, policy), CaseContext(spec));
      Some(Some(d))
  }

  /** Whether the tool runs: on a bypass, and on an allow verdict. */
  predicate ToolRuns(decision: Option<ToyRuntime.Decision>) {
    decision.None? || decision.value.verdict == "allow"
  }

  function DecisionRecord(spec: Spec, shared: Shared, d: ToyRuntime.Decision): Json {
    Obj(map["caseId" := Str(spec.caseId), "engine" := Str(ENGINE), "matchedRule" := TextOrNull(d.matchedRule),
            "policyArtifactDigest" := Str(if spec.policyLoaded then shared.policyDigest else shared.noPolicyDigest),
            "verdict" := Str(d.verdict), "viaDefault" := Bool(d.viaDefault)])
  }

  function OutcomeRecord(host: Host, spec: Spec, marker: bool): Json {
    var fields := map["caseId" := Str(spec.caseId), "markerPresent" := Bool(marker)];
    Obj(if marker then fields["markerContentDigest" := Str(Forms.DIGEST_PREFIX + host.markerDigest)] else fields)
  }

  function RecordRef(host: Host, id: string, record: Json): RedactedRef {
    RedactedRef(id, Forms.DIGEST_PREFIX + host.recordDigest(record))
  }

  function DecisionObservation(
    host: Host, spec: Spec, shared: Shared, decision: Option<ToyRuntime.Decision>): Observation
  {
    if decision.None? then Observation("not-observed", "unknown", None, "")
    else Observation("observed", decision.value.verdict,
                     Some(RecordRef(host, Forms.REDACTED_PREFIX + spec.caseId + "-decision",
                                    DecisionRecord(spec, shared, decision.value))),
                     Ts(spec.start))
  }

  function OutcomeObservation(host: Host, spec: Spec, marker: bool): Observation {
    if spec.outcomeVerified
    then Observation("verified", if marker then "occurred" else "blocked",
                     Some(RecordRef(host, Forms.REDACTED_PREFIX + spec.caseId + "-outcome",
                                    OutcomeRecord(host, spec, marker))),
                     Ts(spec.start + 1))
    else Observation("unknown", "unknown", None, "")
  }

  function PolicySection(spec: Spec, shared: Shared): RuntimePolicy {
    var urn := URN_BASE + ":" + PRODUCER + ":runtime-policy:";
    if spec.policyLoaded
    then RuntimePolicy(ENGINE, ArtifactRef(urn + "write-marker", shared.policyDigest), 1, true)
    else RuntimePolicy(ENGINE, ArtifactRef(urn + "none", shared.noPolicyDigest), 0, false)
  }

  function CaseSection(host: Host, spec: Spec, decision: Observation, outcome: Observation): Case {
    Case(spec.caseId, spec.kind, CorrelationId(host, spec.caseId), Ts(spec.start), Ts(spec.start + 1),
         decision, outcome, TestResultRef(TEST_RESULT_TYPE, spec.caseId, ""))
  }

  /** The document that is printed, without a statement digest. */
  function EvidenceOf(
    host: Host, spec: Spec, shared: Shared, policy: RuntimePolicy, defaultBehavior: string, decision: Observation,
    outcome: Observation): Evidence
  {
    Evidence(
      SCHEMA_VERSION, shared.agent,
      Runtime("toy-runtime", "1.0.0", "",
              ArtifactRef(URN_BASE + ":" + PRODUCER + ":runtime:1.0.0", shared.runtimeDigest)),
      Adapter("non-agt-fixture-adapter", ArtifactRef(URN_BASE + ":" + PRODUCER + ":adapter:0.1", shared.adapterDigest),
              "0.1", shared.runtimeDigest),
      policy,
      Enforcement("enforce", defaultBehavior, [INTERVENTION_POINT], if spec.bypass then [] else [INTERVENTION_POINT]),
      shared.identity, shared.audit,
      Fixture(PRODUCER + "-fixture-001", PRODUCER),
      Tool("write-marker", "filesystem.write.marker", ArtifactRef(TOOL_URI, shared.toolDigest)),
      [CaseSection(host, spec, decision, outcome)],
      map[])
  }

  /** run_case as a value: the evidence, or None where the runtime raises. */
  function Produce(host: Host, spec: Spec, shared: Shared, policy: ToyRuntime.PolicyDoc): Option<Evidence> {
    var decision :- Decided(spec, policy);
    Some(EvidenceOf(host, spec, shared, PolicySection(spec, shared), if spec.policyLoaded then "deny" else "allow",
                    DecisionObservation(host, spec, shared, decision),
                    OutcomeObservation(host, spec, ToolRuns(decision))))
  }

  /** run_case: the tool runs in a workspace of its own, and what is found there afterwards is what is reported. */
  method RunCase(host: Host, spec: Spec, shared: Shared, policy: ToyRuntime.PolicyDoc) returns (r: Option<Evidence>)
    ensures r == Produce(host, spec, shared, policy)
  {
    var runtime := new ToyRuntime.Runtime(if spec.policyLoaded then [policy] else []);
    var workdir := new ToyRuntime.Workspace();
    var decision: Option<ToyRuntime.Decision> := None;
    if spec.bypass {
      workdir.WriteMarker();
    } else {
      var executed;
      decision, executed := runtime.InvokeTool(workdir, CaseContext(spec));
      if decision.None? { return None; }
    }
    var markerPresent := workdir.marker;
    assert markerPresent <==> ToolRuns(decision);

    var decisionObj := Observation("not-observed", "unknown", None, "");
    if decision.Some? {
      var record := DecisionRecord(spec, shared, decision.value);
      decisionObj := Observation(
        "observed", decision.value.verdict,
        Some(RecordRef(host, Forms.REDACTED_PREFIX + spec.caseId + "-decision", record)), Ts(spec.start));
    }
    var outcomeObj;
    if spec.outcomeVerified {
      var record := OutcomeRecord(host, spec, markerPresent);
      outcomeObj := Observation(
        "verified", if markerPresent then "occurred" else "blocked",
        Some(RecordRef(host, Forms.REDACTED_PREFIX + spec.caseId + "-outcome", record)), Ts(spec.start + 1));
    } else {
      outcomeObj := Observation("unknown", "unknown", None, "");
    }
    var defaultBehavior := "deny";
    if !spec.policyLoaded {
      defaultBehavior := ToyRuntime.DefaultBehavior(runtime.policyDocs);
    }
    return Some(EvidenceOf(host, spec, shared, PolicySection(spec, shared), defaultBehavior, decisionObj, outcomeObj));
  }

  // ----- what a report says -----

  /** The fixed and the shared facts of a report, and the policy it was made under. */
  lemma ReportSections(host: Host, spec: Spec, shared: Shared, policy: ToyRuntime.PolicyDoc, e: Evidence)
    requires Produce(host, spec, shared, policy) == Some(e)
    ensures e.schemaVersion == "0.1" && e.agent == shared.agent
    ensures e.runtime == Runtime("toy-runtime", "1.0.0", "", ArtifactRef(
      "urn:autogov:example:agent-governance" + ":" + "non-agt" + ":runtime:1.0.0", shared.runtimeDigest))
    ensures e.adapter == Adapter("non-agt-fixture-adapter", ArtifactRef(
      "urn:autogov:example:agent-governance" + ":" + "non-agt" + ":adapter:0.1", shared.adapterDigest),
      "0.1", shared.runtimeDigest)
    ensures e.runtimePolicy.engine == "toy-json-rules"
    ensures spec.policyLoaded ==>
      && e.runtimePolicy.count == 1 && e.runtimePolicy.loaded && e.runtimePolicy.artifact.digest == shared.policyDigest
      && e.runtimePolicy.artifact.uri ==
         "urn:autogov:example:agent-governance" + ":" + "non-agt" + ":runtime-policy:" + "write-marker"
      && e.enforcement.defaultBehavior == "deny"
    ensures !spec.policyLoaded ==>
      && e.runtimePolicy.count == 0 && !e.runtimePolicy.loaded
      && e.runtimePolicy.artifact.digest == shared.noPolicyDigest
      && e.runtimePolicy.artifact.uri ==
         "urn:autogov:example:agent-governance" + ":" + "non-agt" + ":runtime-policy:" + "none"
      && e.enforcement.defaultBehavior == "allow"
    ensures e.enforcement.mode == "enforce" && e.enforcement.required == ["tool.pre"]
    ensures e.enforcement.observed == if spec.bypass then [] else ["tool.pre"]
    ensures e.identity == shared.identity && e.audit == shared.audit
    ensures e.fixture == Fixture("non-agt" + "-fixture-001", "non-agt")
    ensures e.tool == Tool("write-marker", "filesystem.write.marker",
                           ArtifactRef("urn:autogov:fixture:write-marker", shared.toolDigest))
    ensures e.extensions == map[]
  {
    hide DecisionObservation, OutcomeObservation, CaseSection, ToyRuntime.Decide;
  }

  /** The decision of the runtime, unless it was bypassed. */
  lemma ReportCase(host: Host, spec: Spec, shared: Shared, policy: ToyRuntime.PolicyDoc, e: Evidence)
    requires Produce(host, spec, shared, policy) == Some(e)
    ensures |e.cases| == 1
    ensures var c := e.cases[0];
            && c.id == spec.caseId && c.kind == spec.kind
            && c.correlationId ==
               "sha256:" + host.textDigest("autogov-agent-governance-demo-v0.1" + ":" + "non-agt" + ":" + spec.caseId)
            && c.startedAt == Ts(spec.start) && c.completedAt == Ts(spec.start + 1)
            && c.testResult == TestResultRef("https://in-toto.io/attestation/test-result/v0.1", spec.caseId, "")
    ensures spec.bypass ==> e.cases[0].decision == Observation("not-observed", "unknown", None, "")
    ensures !spec.bypass ==>
      var docs := if spec.policyLoaded then [policy] else [];
      var d := ToyRuntime.Decide(docs, map["tool_name" := Str("write-marker"),
                                           "purpose" := if spec.purpose.Some? then Str(spec.purpose.value) else Null]);
      && d.Some?
      && e.cases[0].decision.state == "observed" && e.cases[0].decision.finding == d.value.verdict
      && e.cases[0].decision.observedAt == Ts(spec.start)
      && e.cases[0].decision.reference == Some(RedactedRef(
           "redacted:" + spec.caseId + "-decision",
           "sha256:" + host.recordDigest(Obj(map[
             "caseId" := Str(spec.caseId), "engine" := Str("toy-json-rules"),
             "matchedRule" := if d.value.matchedRule.Some? then Str(d.value.matchedRule.value) else Null,
             "policyArtifactDigest" := Str(if spec.policyLoaded then shared.policyDigest else shared.noPolicyDigest),
             "verdict" := Str(d.value.verdict), "viaDefault" := Bool(d.value.viaDefault)]))))
  {
    hide OutcomeObservation, ToyRuntime.Decide, Ts, PolicySection;
  }

  /** The outcome that was found in the workspace: the tool ran on a bypass and on an allow verdict, and only then. */
  lemma ReportOutcome(host: Host, spec: Spec, shared: Shared, policy: ToyRuntime.PolicyDoc, e: Evidence)
    requires Produce(host, spec, shared, policy) == Some(e) && |e.cases| == 1
    ensures !spec.outcomeVerified ==> e.cases[0].outcome == Observation("unknown", "unknown", None, "")
    ensures spec.outcomeVerified ==>
      var ran := spec.bypass || e.cases[0].decision.finding == "allow";
      var o := e.cases[0].outcome;
      && o.state == "verified" && o.finding == (if ran then "occurred" else "blocked")
      && o.observedAt == Ts(spec.start + 1)
      && o.reference == Some(RedactedRef(
           "redacted:" + spec.caseId + "-outcome",
           "sha256:" + host.recordDigest(Obj(
             if ran then map["caseId" := Str(spec.caseId), "markerPresent" := Bool(true),
                             "markerContentDigest" := Str("sha256:" + host.markerDigest)]
             else map["caseId" := Str(spec.caseId), "markerPresent" := Bool(false)]))))
  {
    hide ToyRuntime.Decide, Ts, PolicySection, DecisionRecord;
  }
}
