/**
 The five runs that adapters/non-agt/producer.py performs with adapters/non-agt/runtime_policy.json: which labels are
 honest, which runs are positive, and one world in which every assumption of the pipeline's theorems holds.
 */
module Demonstration {
  import opened Wrappers
  import opened RawBytes
  import opened Json
  import opened EvidenceModel
  import opened Statements
  import opened Printed
  import opened Producer
  import opened Pipeline
  import opened Buildability
  import Admission
  import Canonical
  import ToyRuntime
  import Gate
  import GateMeaning
  import Forms

  const ALLOW_RULE: ToyRuntime.Rule :=
    ToyRuntime.Rule(Some("allow-sanctioned-write-marker"), Some("allow"), Some(10.0), Some(Str("write-marker")),
                    Some("purpose"), Some(Str("sanctioned-write")))

  const DENY_RULE: ToyRuntime.Rule :=
    ToyRuntime.Rule(Some("deny-blocked-write-marker"), Some("deny"), Some(10.0), Some(Str("write-marker")),
                    Some("purpose"), Some(Str("blocked-write")))

  const POLICY: ToyRuntime.PolicyDoc := ToyRuntime.PolicyDoc(Some("deny"), [ALLOW_RULE, DENY_RULE])

  const ALLOWED: Spec :=
    Spec("non-agt-allowed-action-001", "allowed-action", Some("sanctioned-write"), true, false, true, 0)

  const DENIED: Spec :=
    Spec("non-agt-denied-action-001", "denied-action", Some("blocked-write"), true, false, true, 2)

  const BYPASS: Spec :=
    Spec("non-agt-adapter-bypass-001", "adapter-bypass", None, true, true, true, 4)

  const NO_POLICY: Spec :=
    Spec("non-agt-no-policy-loaded-001", "no-policy-loaded", Some("sanctioned-write"), false, false, true, 6)

  const UNKNOWN_OUTCOME: Spec :=
    Spec("non-agt-unknown-outcome-001", "allowed-action", Some("sanctioned-write"), true, false, false, 8)

  lemma OneDocument(doc: ToyRuntime.PolicyDoc)
    ensures ToyRuntime.AllRules([doc]) == doc.rules
  {
    assert [doc][..0] == [];
  }

  /** A rule on the purpose matches the runs with that purpose. */
  lemma PurposeMatches(spec: Spec, r: ToyRuntime.Rule, purpose: string)
    requires r.toolName == Some(Str("write-marker")) && r.field == Some("purpose") && r.equals == Some(Str(purpose))
    ensures ToyRuntime.Matches(r, CaseContext(spec)) <==> spec.purpose == Some(purpose)
  {
  }

  /** The rule whose purpose is the run's decides, whatever the sort does with the equal priorities. */
  lemma PolicyDecides(spec: Spec)
    requires spec.policyLoaded && !spec.bypass
    ensures spec.purpose == Some("sanctioned-write") ==>
      Decided(spec, POLICY) == Some(Some(ToyRuntime.Decision("allow", ALLOW_RULE.name, false)))
    ensures spec.purpose == Some("blocked-write") ==>
      Decided(spec, POLICY) == Some(Some(ToyRuntime.Decision("deny", DENY_RULE.name, false)))
  {
    hide ToyRuntime.Decide, ToyRuntime.Matches, CaseContext;
    PurposeMatches(spec, ALLOW_RULE, "sanctioned-write");
    PurposeMatches(spec, DENY_RULE, "blocked-write");
    var docs, context := Docs(spec, POLICY), CaseContext(spec);
    var rules := ToyRuntime.AllRules(docs);
    OneDocument(docs[0]);
    assert rules == [ALLOW_RULE, DENY_RULE];
    ToyRuntime.DecideIsBest(docs, context);
    if spec.purpose == Some("sanctioned-write") {
      assert ToyRuntime.Best(rules, context, 0);
    }
    if spec.purpose == Some("blocked-write") {
      assert ToyRuntime.Best(rules, context, 1);
    }
  }

  lemma NoPolicyAllows()
    ensures Decided(NO_POLICY, POLICY) == Some(Some(ToyRuntime.Decision("allow", None, true)))
  {
    hide ToyRuntime.Decide;
    assert ToyRuntime.AllRules([]) == [];
    ToyRuntime.DecideIsBest([], CaseContext(NO_POLICY));
  }

  /** All five labels are honest; the first two runs are positive and the last three are not. */
  lemma FixtureRuns()
    ensures Honest(ALLOWED, POLICY) && Honest(DENIED, POLICY) && Honest(BYPASS, POLICY)
    ensures Honest(NO_POLICY, POLICY) && Honest(UNKNOWN_OUTCOME, POLICY)
    ensures PositiveRun(ALLOWED, POLICY) && PositiveRun(DENIED, POLICY)
    ensures !PositiveRun(BYPASS, POLICY) && !PositiveRun(NO_POLICY, POLICY) && !PositiveRun(UNKNOWN_OUTCOME, POLICY)
  {
    hide ToyRuntime.Decide, POLICY;
    PolicyDecides(ALLOWED);
    PolicyDecides(DENIED);
    PolicyDecides(UNKNOWN_OUTCOME);
    NoPolicyAllows();
  }

  // ----- a world in which the assumptions hold -----

  const ZEROS: Forms.Hex64 := seq(64, _ => '0')

  const SHARED: Shared := Shared(
    Agent("agent-image", URN_BASE + ":agent-image", PLACEHOLDER),
    PLACEHOLDER, PLACEHOLDER, PLACEHOLDER, PLACEHOLDER, Gate.TOOL_DIGEST,
    Identity(URN_BASE + ":identity:local-demo", "workload",
             RedactedRef(Forms.REDACTED_PREFIX + "non-agt-fixture-workload", PLACEHOLDER)),
    Audit("file", RedactedRef(Forms.REDACTED_PREFIX + "non-agt-audit-sink", PLACEHOLDER), PLACEHOLDER))

  const HOST: Host := Host(_ => ZEROS, _ => ZEROS, ZEROS)

  const LIBRARY: Library := Library(_ => Some(Url("urn", "")), _ => true, _ => true)

  lemma PlainAppend(a: string, b: string)
    requires PlainText(a) && PlainText(b)
    ensures PlainText(a + b)
  {
  }

  lemma SharedTexts()
    ensures PlainText("agent-image") && PlainText(URN_BASE + ":agent-image")
    ensures PlainText(URN_BASE + ":identity:local-demo")
  {
    UrnBasePlain();
    PlainAppend(URN_BASE, ":agent-image");
    PlainAppend(URN_BASE, ":identity:local-demo");
  }

  lemma SharedIds()
    ensures Forms.RedactedId(SHARED.identity.subject.id) && Forms.RedactedId(SHARED.audit.sink.id)
    ensures Forms.IdValue(SHARED.audit.sinkKind)
  {
    hide Forms.RedactedId, Forms.REDACTED_PREFIX, PLACEHOLDER, Gate.TOOL_DIGEST, URN_BASE;
    RedactedText("non-agt-fixture-workload");
    RedactedText("non-agt-audit-sink");
  }

  lemma RedactedText(name: string)
    requires 1 <= |name| <= 112 && forall i | 0 <= i < |name| :: Forms.IsRedactedChar(name[i])
    ensures Forms.RedactedId(Forms.REDACTED_PREFIX + name)
  {
    var id := Forms.REDACTED_PREFIX + name;
    assert id[..9] == Forms.REDACTED_PREFIX && id[9..] == name;
    forall i | 9 <= i < |id|
      ensures Forms.IsRedactedChar(id[i])
    {
      assert id[i] == name[i - 9];
    }
  }

  predicate Dashed(id: string) {
    forall i | 0 <= i < |id| :: Forms.IsIdStart(id[i]) || id[i] == '-'
  }

  lemma DashedId(id: string)
    requires 1 <= |id| <= 103 && Forms.IsIdStart(id[0]) && Dashed(id)
    ensures WellFormedId(id)
  {
  }

  lemma AllowedId()
    ensures WellFormedId(ALLOWED.caseId)
  {
    hide WellFormedId;
    DashedId(ALLOWED.caseId);
  }

  lemma SharedWellFormed()
    ensures WellFormed(LIBRARY, ALLOWED, SHARED) && UrisKnown(LIBRARY, SHARED)
  {
    hide PLACEHOLDER, Gate.TOOL_DIGEST, Forms.CanonicalDigest, PlainText, BoundedText, Forms.RedactedId, Forms.IdValue;
    hide WellFormedId, PercentValid, URN_BASE, PRODUCER, TOOL_URI;
    GateMeaning.PinnedCanonical();
    Admission.PlaceholderCanonical();
    UrnBasePlain();
    SharedTexts();
    SharedIds();
    AllowedId();
    PlainBounded(SHARED.agent.name, 256);
    PlainBounded(SHARED.agent.uri, 2048);
    PlainPercent(SHARED.agent.uri, 0);
    PlainBounded(SHARED.identity.providerUri, 2048);
    PlainPercent(SHARED.identity.providerUri, 0);
  }

  /** A codec that tells one document from all others, which is all that two statements need. */
  function CodecFor(testResult: Json): Codec {
    Codec(j => if j == testResult then [2] else [1], _ => ZEROS, _ => true, _ => Null)
  }

  function EnvFor(deployment: Json, testResult: Json): Gate.Env {
    Gate.Env(text => if text == "deployment" then Some([1]) else Some([2]),
             payload => if payload == [1] then Some(deployment) else Some(testResult),
             _ => ZEROS, _ => true, _ => true, _ => "")
  }

  function BundleOf(text: string): Json {
    Obj(map["dsseEnvelope" := Obj(map["payloadType" := Str(Gate.INTOTO_PAYLOAD_TYPE), "payload" := Str(text)])])
  }

  lemma BundleCarries(env: Gate.Env, text: string)
    ensures Gate.PayloadOf(env, BundleOf(text)) == env.decodeBase64(text)
  {
  }

  lemma DifferentDocuments(codec: Codec, v: Evidence)
    requires |v.cases| == 1
    ensures DeploymentJson(codec, v) != TestResultJson(v, v.cases[0])
  {
    hide StatementJson, PredicateJson, TestResultBody, DEPLOYMENT_TYPE, TEST_RESULT_TYPE;
    Admission.TypesDiffer();
    StatementMembers(v.agent, DEPLOYMENT_TYPE, PredicateJson(codec, v));
    StatementMembers(v.agent, TEST_RESULT_TYPE, TestResultBody(v, v.cases[0]));
  }

  /** What BuildCase makes of the allowed run, whatever the codec prints. */
  lemma AllowedBuilt(codec: Codec, e: Evidence) returns (b: Built)
    requires Produce(HOST, ALLOWED, SHARED, POLICY) == Some(e)
    requires forall j :: codec.testResultAccepts(j)
    ensures |e.cases| == 1 && SchemasAccept(codec, LIBRARY, e) && Build(codec, LIBRARY, e) == Some(b)
    ensures b.body == WithDigest(e, Forms.DIGEST_PREFIX + codec.sha256(b.testResult))
    ensures |b.body.cases| == 1
    ensures b.deployment == codec.marshal(DeploymentJson(codec, b.body))
    ensures b.testResult == codec.marshal(TestResultJson(b.body, b.body.cases[0]))
  {
    hide Build, Produce, WellFormed, UrisKnown, Honest, PositiveRun, POLICY, SHARED, HOST, ALLOWED, Canon, PLACEHOLDER;
    hide DeploymentJson, TestResultJson, TestResultBody, WithDigest, Forms.CanonicalDigest, Accepted;
    ProducedMembers(HOST, ALLOWED, SHARED, POLICY, e);
    SharedWellFormed();
    FixtureRuns();
    ReportBuiltIffHonest(codec, LIBRARY, HOST, ALLOWED, SHARED, POLICY, e);
    b := Build(codec, LIBRARY, e).value;
    Admission.BuildParts(codec, LIBRARY, e);
    Admission.PlaceholderCanonical();
    ReportCanonical(LIBRARY, HOST, ALLOWED, SHARED, POLICY, e, PLACEHOLDER);
    Overwritten(e, PLACEHOLDER, Forms.DIGEST_PREFIX + codec.sha256(b.testResult));
  }

  lemma LibraryAgrees(deployment: Json, testResult: Json)
    ensures Agrees(EnvFor(deployment, testResult), LIBRARY, CodecFor(testResult))
  {
    hide AbsoluteUri, ArtifactValid;
  }

  lemma AllowedProduced() returns (e: Evidence)
    ensures Produce(HOST, ALLOWED, SHARED, POLICY) == Some(e)
  {
    hide DecisionObservation, OutcomeObservation, EvidenceOf, POLICY, HOST, SHARED, ToyRuntime.Decide, PolicySection;
    PolicyDecides(ALLOWED);
    e := Produce(HOST, ALLOWED, SHARED, POLICY).value;
  }

  /** Two documents, a codec that prints them apart, and a gate that reads back what was printed. */
  lemma World(e: Evidence) returns (env: Gate.Env, codec: Codec, b: Built, x: Json, y: Json)
    requires Produce(HOST, ALLOWED, SHARED, POLICY) == Some(e)
    ensures Agrees(env, LIBRARY, codec) && SchemasAccept(codec, LIBRARY, e)
    ensures Build(codec, LIBRARY, e) == Some(b) && ReadsBack(env, codec, b)
    ensures Carries(env, x, b.deployment) && Carries(env, y, b.testResult)
  {
    hide Build, Agrees, POLICY, SHARED, HOST, ALLOWED, SchemasAccept, Produce, LIBRARY;
    hide DeploymentJson, TestResultJson, WithDigest, Gate.PayloadOf;
    ProducedMembers(HOST, ALLOWED, SHARED, POLICY, e);
    var v := WithDigest(e, Forms.DIGEST_PREFIX + ZEROS);
    CasesKept(e, Forms.DIGEST_PREFIX + ZEROS);
    var testResult := TestResultJson(v, v.cases[0]);
    codec := CodecFor(testResult);
    var deployment := DeploymentJson(codec, v);
    env := EnvFor(deployment, testResult);
    x, y := BundleOf("deployment"), BundleOf("test-result");
    b := AllowedBuilt(codec, e);
    assert b.body == v;
    DifferentDocuments(codec, v);
    BundleCarries(env, "deployment");
    BundleCarries(env, "test-result");
    LibraryAgrees(deployment, testResult);
  }

  /**
   The assumptions of the pipeline's theorems hold together: in this world the repository's allowed run is reported,
   built, read back and admitted.
   */
  lemma AllowedRunAdmitted() returns (env: Gate.Env, codec: Codec, e: Evidence, b: Built, x: Json, y: Json)
    ensures Agrees(env, LIBRARY, codec)
    ensures WellFormed(LIBRARY, ALLOWED, SHARED) && UrisKnown(LIBRARY, SHARED)
    ensures Produce(HOST, ALLOWED, SHARED, POLICY) == Some(e) && SchemasAccept(codec, LIBRARY, e)
    ensures Build(codec, LIBRARY, e) == Some(b) && ReadsBack(env, codec, b)
    ensures Carries(env, x, b.deployment) && Carries(env, y, b.testResult)
    ensures Gate.Allow(env, [x, y])
  {
    hide Build, WellFormed, UrisKnown, Agrees, PositiveRun, POLICY, SHARED, HOST, ALLOWED, SchemasAccept, Produce;
    hide Gate.Allow, Carries, ReadsBack, Gate.TOOL_DIGEST, NormalizeDigest, LIBRARY, Honest;
    FixtureRuns();
    SharedWellFormed();
    e := AllowedProduced();
    env, codec, b, x, y := World(e);
    PinnedTool();
    PositiveRunAdmitted(env, LIBRARY, codec, HOST, ALLOWED, SHARED, POLICY, e, b, x, y);
  }

  lemma CasesKept(e: Evidence, digest: string)
    requires |e.cases| == 1
    ensures |WithDigest(e, digest).cases| == 1
  {
  }

  lemma PinnedTool()
    ensures NormalizeDigest(SHARED.toolDigest) == Some(Gate.TOOL_DIGEST)
  {
    hide Gate.TOOL_DIGEST, PLACEHOLDER, NormalizeDigest;
    GateMeaning.PinnedCanonical();
    Canonical.CanonicalDigestFixed(Gate.TOOL_DIGEST);
  }
}
