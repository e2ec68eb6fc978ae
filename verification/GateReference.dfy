/**
 The gate against a reference of its own: which inputs it admits and what it reports, said of the evidence and the test
 results that the input reads as.
 */
module GateReference {
  import opened Wrappers
  import opened RawBytes
  import opened Json
  import opened EvidenceModel
  import opened EvidenceReader
  import opened GateMeaning
  import Lists
  import Rego
  import Gate
  import GateInput
  import GatePairing
  import GateTheorems
  import Forms

  // ----- test results -----

  /** The one configuration descriptor of a test result. */
  function DescriptorAt(stmt: Json): Doc {
    ReadOnly(Field(Field(Some(stmt), "predicate"), "configuration"))
  }

  /** The case id that a test result claims. */
  function ClaimAt(stmt: Json): Doc {
    Field(Field(DescriptorAt(stmt), "annotations"), Annotation("caseId"))
  }

  lemma DescriptorMeans(stmt: Json)
    ensures Gate.Descriptor(stmt) == DescriptorAt(stmt)
  {
  }

  lemma AnnKeyMeans(name: string)
    ensures Gate.AnnKey(name) == Annotation(name)
  {
  }

  lemma ClaimMeans(t: Gate.TestResult)
    ensures Gate.CaseIdClaimed(t) == ClaimAt(t.stmt)
  {
    hide DescriptorAt, Gate.Descriptor, Annotation, Gate.AnnKey;
    DescriptorMeans(t.stmt);
    AnnKeyMeans("caseId");
  }

  /** The names of the annotations that the states of a case call for. */
  function AnnotationNames(observed: bool, verified: bool): set<string> {
    {Annotation("agentDigest"), Annotation("caseId"), Annotation("correlationId"), Annotation("decisionState"),
     Annotation("decisionVerdict"), Annotation("outcomeState"), Annotation("outcomeResult")}
    + (if observed then {Annotation("decisionDigest")} else {})
    + (if verified then {Annotation("resultArtifactDigest")} else {})
  }

  /** Exactly the annotations of the case's states, each with the fact of the case it is named after. */
  predicate AnnotationsForm(a: Doc, agent: Agent, c: Case) {
    var observed, verified := c.decision.state == "observed", c.outcome.state == "verified";
    && MemberNames(a) == AnnotationNames(observed, verified)
    && Field(a, Annotation("agentDigest")) == Some(Str(agent.artifactDigest))
    && Field(a, Annotation("correlationId")) == Some(Str(c.correlationId))
    && Field(a, Annotation("decisionState")) == Some(Str(c.decision.state))
    && Field(a, Annotation("decisionVerdict")) == Some(Str(c.decision.finding))
    && Field(a, Annotation("outcomeState")) == Some(Str(c.outcome.state))
    && Field(a, Annotation("outcomeResult")) == Some(Str(c.outcome.finding))
    && (observed ==> c.decision.reference.Some?
                     && Field(a, Annotation("decisionDigest")) == Some(Str(c.decision.reference.value.digest)))
    && (verified ==> c.outcome.reference.Some?
                     && Field(a, Annotation("resultArtifactDigest")) == Some(Str(c.outcome.reference.value.digest)))
  }

  /** The one subject of the test result is that of the deployment. */
  ghost predicate SubjectsMatch(stmt: Json, s: Json) {
    exists x: Json, y: Json ::
      && OnlyElementIs(Field(Some(stmt), "subject"), x) && y in Rego.Elements(Field(Some(s), "subject"))
      && Field(Some(x), "name").Some? && Field(Some(x), "name") == Field(Some(y), "name")
      && Field(Field(Some(x), "digest"), "sha256").Some?
      && Field(Field(Some(x), "digest"), "sha256") == Field(Field(Some(y), "digest"), "sha256")
  }

  /** PASSED for a verified outcome, WARNED for an unknown one, over the one case and nothing else. */
  predicate ProfileForm(p: Doc, c: Case) {
    var id := Some(Arr([Str(c.id)]));
    && Field(p, "failedTests") == Some(Arr([]))
    && (if c.outcome.state == "verified"
        then Field(p, "result") == Some(Str("PASSED")) && Field(p, "passedTests") == id
             && Field(p, "warnedTests") == Some(Arr([]))
        else Field(p, "result") == Some(Str("WARNED")) && Field(p, "warnedTests") == id
             && Field(p, "passedTests") == Some(Arr([])))
  }

  predicate UrlForm(env: Gate.Env, p: Doc) {
    && p.Some? && p.value.Obj?
    && ("url" in p.value.fields ==> p.value.fields["url"].Str? && env.artifactUri(p.value.fields["url"].s))
  }

  /** What a test result must be to be the one of a case: hashed, of the subject, on the tool, repeating the facts. */
  ghost predicate ReportForm(env: Gate.Env, s: Json, v: Evidence, c: Case, t: Gate.TestResult) {
    var p, d := Field(Some(t.stmt), "predicate"), DescriptorAt(t.stmt);
    && c.testResult.statementDigest == "sha256:" + t.digest
    && c.testResult.predicateType == "https://in-toto.io/attestation/test-result/v0.1"
    && c.testResult.testId == c.id
    && Field(Some(t.stmt), "_type") == Some(Str("https://in-toto.io/Statement/v1"))
    && SubjectsMatch(t.stmt, s)
    && Field(d, "name") == Some(Str("agent-governance-conformance-v0.1"))
    && Field(d, "uri") == Some(Str(Annotation("conformance")))
    && ShownAs(env, Field(Field(d, "digest"), "sha256"), v.tool.artifact.digest)
    && AnnotationsForm(Field(d, "annotations"), v.agent, c)
    && ProfileForm(p, c)
    && UrlForm(env, p)
  }

  /** The same names, spelled by the gate. */
  function GateNames(observed: bool, verified: bool): set<string> {
    {Gate.AnnKey("agentDigest"), Gate.AnnKey("caseId"), Gate.AnnKey("correlationId"), Gate.AnnKey("decisionState"),
     Gate.AnnKey("decisionVerdict"), Gate.AnnKey("outcomeState"), Gate.AnnKey("outcomeResult")}
    + (if observed then {Gate.AnnKey("decisionDigest")} else {})
    + (if verified then {Gate.AnnKey("resultArtifactDigest")} else {})
  }

  lemma SameNames(observed: bool, verified: bool)
    ensures GateNames(observed, verified) == AnnotationNames(observed, verified)
  {
    hide Gate.AnnKey, Annotation;
    forall name
      ensures Gate.AnnKey(name) == Annotation(name)
    {
      AnnKeyMeans(name);
    }
  }

  lemma ExpectedKeys(c: Json, observed: bool, verified: bool)
    requires observed <==> Rego.EqText(Rego.Dot(Gate.DecisionOf(c), "state"), "observed")
    requires verified <==> Rego.EqText(Rego.Dot(Gate.OutcomeOf(c), "state"), "verified")
    ensures Gate.ExpectedAnnotationKeys(c) == TextsOf(GateNames(observed, verified))
  {
    hide Gate.AnnKey, Rego.Dot, Gate.DecisionOf, Gate.OutcomeOf;
  }

  function TextsOf(names: set<string>): set<Json> {
    set n | n in names :: Str(n)
  }

  /** The states that the case is held against, wherever the gate looks them up. */
  lemma StatesMean(c: Json)
    requires ReadCase(Some(c)).Some?
    ensures var k := ReadCase(Some(c)).value;
            && Rego.Dot(Gate.DecisionOf(c), "state") == Some(Str(k.decision.state))
            && Rego.Dot(Gate.DecisionOf(c), "verdict") == Some(Str(k.decision.finding))
            && Rego.Dot(Gate.OutcomeOf(c), "state") == Some(Str(k.outcome.state))
            && Rego.Dot(Gate.OutcomeOf(c), "result") == Some(Str(k.outcome.finding))
            && Rego.Dot(Some(c), "correlationId") == Some(Str(k.correlationId))
            && Gate.IdOf(c) == Some(Str(k.id))
  {
    hide ReadCase, ReadObservation;
    CaseFields(Some(c));
    ObservationFields(Field(Some(c), "decision"), "verdict");
    ObservationFields(Field(Some(c), "outcome"), "result");
  }

  lemma ReferencesMean(c: Json)
    requires ReadCase(Some(c)).Some?
    ensures var k := ReadCase(Some(c)).value;
            && Rego.Dot(Rego.Dot(Gate.DecisionOf(c), "reference"), "digest") ==
               (if k.decision.reference.Some? then Some(Str(k.decision.reference.value.digest)) else None)
            && Rego.Dot(Rego.Dot(Gate.OutcomeOf(c), "reference"), "digest") ==
               (if k.outcome.reference.Some? then Some(Str(k.outcome.reference.value.digest)) else None)
  {
    hide ReadCase, ReadObservation;
    CaseFields(Some(c));
    ObservationFields(Field(Some(c), "decision"), "verdict");
    ObservationFields(Field(Some(c), "outcome"), "result");
  }

  lemma NamesMean(c: Json)
    requires ReadCase(Some(c)).Some?
    ensures var k := ReadCase(Some(c)).value;
            Gate.ExpectedAnnotationKeys(c) ==
            TextsOf(AnnotationNames(k.decision.state == "observed", k.outcome.state == "verified"))
  {
    hide ReadCase, GateNames, AnnotationNames, Gate.ExpectedAnnotationKeys, TextsOf, Rego.Dot;
    var k := ReadCase(Some(c)).value;
    StatesMean(c);
    ExpectedKeys(c, k.decision.state == "observed", k.outcome.state == "verified");
    SameNames(k.decision.state == "observed", k.outcome.state == "verified");
  }

  lemma KeysMean(a: Doc, names: set<string>)
    requires names != {}
    ensures Rego.Keys(a) == TextsOf(names) <==> MemberNames(a) == names
  {
    if Rego.Keys(a) == TextsOf(names) {
      GatePairing.KeysDecide(a, names);
    }
  }

  lemma ProfileMeans(c: Json, p: Doc)
    requires ReadCase(Some(c)).Some? && ReadCase(Some(c)).value.outcome.state in {"verified", "unknown"}
    ensures Gate.ResultProfileValid(c, p) <==> ProfileForm(p, ReadCase(Some(c)).value)
  {
    hide ReadCase, ReadObservation;
    CaseFields(Some(c));
    ObservationFields(Field(Some(c), "outcome"), "result");
  }

  lemma UrlMeans(env: Gate.Env, p: Doc)
    ensures Gate.ResultUrlValid(env, p) <==> UrlForm(env, p)
  {
  }

  lemma AgentDigestMeans(s: Json, a: Agent)
    requires ReadAgent(Field(Field(Some(s), "predicate"), "agent")) == Some(a)
    ensures Rego.Dot(Gate.AgentOf(s), "artifactDigest") == Some(Str(a.artifactDigest))
  {
    hide ReadAgent;
    AgentFields(Field(Field(Some(s), "predicate"), "agent"));
  }

  lemma SomeName(observed: bool, verified: bool)
    ensures AnnotationNames(observed, verified) != {}
  {
  }

  lemma AnnotationsMean(s: Json, c: Json, d: Doc, a: Agent)
    requires ReadAgent(Field(Field(Some(s), "predicate"), "agent")) == Some(a)
    requires ReadCase(Some(c)).Some? && ReadCase(Some(c)).value.decision.state in {"observed", "not-observed"}
    requires ReadCase(Some(c)).value.outcome.state in {"verified", "unknown"}
    ensures Gate.AnnotationsValid(s, c, d) <==> AnnotationsForm(Field(d, "annotations"), a, ReadCase(Some(c)).value)
  {
    hide ReadCase, ReadAgent, AnnotationNames, Gate.ExpectedAnnotationKeys, Rego.Dot, Rego.Keys, MemberNames, Field;
    hide Gate.AnnKey, Annotation, Gate.DecisionOf, Gate.OutcomeOf, Gate.AgentOf, TextsOf;
    var k := ReadCase(Some(c)).value;
    var observed, verified := k.decision.state == "observed", k.outcome.state == "verified";
    SameField(d, "annotations");
    NamesMean(c);
    SomeName(observed, verified);
    KeysMean(Field(d, "annotations"), AnnotationNames(observed, verified));
    AgentDigestMeans(s, a);
    StatesMean(c);
    ReferencesMean(c);
    forall name
      ensures Rego.Dot(Field(d, "annotations"), Gate.AnnKey(name)) == Field(Field(d, "annotations"), Annotation(name))
    {
      AnnKeyMeans(name);
      SameField(Field(d, "annotations"), Annotation(name));
    }
  }

  lemma SubjectsMean(stmt: Json, s: Json)
    ensures (Rego.Count(Gate.SubjectOf(stmt)) == Some(1)
             && exists x, y | x in Rego.Elements(Gate.SubjectOf(stmt)) && y in Rego.Elements(Gate.SubjectOf(s)) ::
                  Gate.SameSubject(x, y))
       <==> SubjectsMatch(stmt, s)
  {
    hide OnlyElementIs, Rego.Count, Rego.Elements;
    SameField(Some(stmt), "subject");
    SameField(Some(s), "subject");
    forall x
      ensures Rego.Count(Gate.SubjectOf(stmt)) == Some(1) && x in Rego.Elements(Gate.SubjectOf(stmt)) <==>
        OnlyElementIs(Field(Some(stmt), "subject"), x)
    {
      OnlyElement(Field(Some(stmt), "subject"), x);
    }
    if SubjectsMatch(stmt, s) {
      var x: Json, y: Json :|
        && OnlyElementIs(Field(Some(stmt), "subject"), x) && y in Rego.Elements(Field(Some(s), "subject"))
        && Field(Some(x), "name").Some? && Field(Some(x), "name") == Field(Some(y), "name")
        && Field(Field(Some(x), "digest"), "sha256").Some?
        && Field(Field(Some(x), "digest"), "sha256") == Field(Field(Some(y), "digest"), "sha256");
      assert Gate.SameSubject(x, y);
    }
  }

  lemma SumMeans(env: Gate.Env, d: Doc, digest: string)
    ensures Rego.Eq(Gate.Sha256Text(env, d), Some(Str(digest))) <==> ShownAs(env, d, digest)
  {
  }

  lemma ToolDigestMeans(s: Json, t: Tool)
    requires ReadTool(Field(Field(Field(Some(s), "predicate"), "conformance"), "controlledTool")) == Some(t)
    ensures Rego.Dot(Rego.Dot(Gate.ToolOf(s), "artifact"), "digest") == Some(Str(t.artifact.digest))
  {
    hide ReadTool;
    ToolFields(Field(Field(Field(Some(s), "predicate"), "conformance"), "controlledTool"));
  }

  lemma RefFields(d: Doc)
    requires ReadTestResultRef(d).Some?
    ensures var r := ReadTestResultRef(d).value;
            && Rego.Dot(d, "predicateType") == Some(Str(r.predicateType))
            && Rego.Dot(d, "testId") == Some(Str(r.testId))
            && Rego.Dot(d, "statementDigest") == Some(Str(r.statementDigest))
  {
    hide HasMembers;
  }

  lemma RefMeans(c: Json)
    requires ReadCase(Some(c)).Some?
    ensures var r := ReadCase(Some(c)).value.testResult;
            && Rego.Dot(Rego.Dot(Some(c), "testResult"), "predicateType") == Some(Str(r.predicateType))
            && Rego.Dot(Rego.Dot(Some(c), "testResult"), "testId") == Some(Str(r.testId))
            && Rego.Dot(Rego.Dot(Some(c), "testResult"), "statementDigest") == Some(Str(r.statementDigest))
  {
    hide ReadCase, ReadTestResultRef, Rego.Dot, Field;
    CaseFields(Some(c));
    SameField(Some(c), "testResult");
    RefFields(Field(Some(c), "testResult"));
  }

  /** The cross-binding of a test result to a case is the form of the report. */
  lemma TestResultMeans(env: Gate.Env, s: Json, v: Evidence, c: Json, t: Gate.TestResult)
    requires ReadPredicate(Field(Some(s), "predicate")) == Some(v)
    requires ReadCase(Some(c)).Some? && ReadCase(Some(c)).value.decision.state in {"observed", "not-observed"}
    requires ReadCase(Some(c)).value.outcome.state in {"verified", "unknown"}
    ensures Gate.TestResultValid(env, s, c, t) <==> ReportForm(env, s, v, ReadCase(Some(c)).value, t)
  {
    hide ReadCase, ReadPredicate, ReadAgent, ReadTool, ReadConformance, Gate.AnnotationsValid, AnnotationsForm;
    hide Gate.ResultProfileValid, ProfileForm, Gate.ResultUrlValid, UrlForm, Rego.Dot, Field, SubjectsMatch;
    hide Gate.Descriptor, DescriptorAt, Gate.Sha256Text, ShownAs, Rego.Count, Rego.Elements, Gate.SameSubject;
    hide Annotation, Gate.AnnKey, Gate.ToolOf, Gate.IdOf, ReadRuntime, ReadAdapter, ReadRuntimePolicy;
    hide ReadEnforcement, ReadIdentity, ReadAudit, Gate.SubjectOf;
    var p, d := Field(Some(t.stmt), "predicate"), DescriptorAt(t.stmt);
    Sections(Field(Some(s), "predicate"));
    ConformanceFields(Field(Field(Some(s), "predicate"), "conformance"));
    DescriptorMeans(t.stmt);
    SameField(Some(t.stmt), "predicate");
    SameField(Some(t.stmt), "_type");
    SameField(d, "name");
    SameField(d, "uri");
    SameField(d, "digest");
    SameField(Field(d, "digest"), "sha256");
    RefMeans(c);
    StatesMean(c);
    SubjectsMean(t.stmt, s);
    ToolDigestMeans(s, v.tool);
    SumMeans(env, Field(Field(d, "digest"), "sha256"), v.tool.artifact.digest);
    AnnKeyMeans("conformance");
    AnnotationsMean(s, c, d, v.agent);
    ProfileMeans(c, p);
    UrlMeans(env, p);
  }

  // ----- what the input reads as -----

  /** The payload of a bundle of the in-toto payload type. */
  function PayloadAt(env: Gate.Env, bundle: Json): Option<Bytes> {
    var envelope := Field(Some(bundle), "dsseEnvelope");
    match ReadText(Field(envelope, "payload"))
    case Some(text) =>
      if Field(envelope, "payloadType") == Some(Str("application/vnd.in-toto+json")) then env.decodeBase64(text)
      else None
    case None => None
  }

  /** The statement in a bundle, if its predicate is of the type. */
  function StatementAt(env: Gate.Env, bundle: Json, predicateType: string): Doc {
    var payload :- PayloadAt(env, bundle);
    var stmt :- env.unmarshal(payload);
    if Field(Some(stmt), "predicateType") == Some(Str(predicateType)) then Some(stmt) else None
  }

  /** The deployment statements of the input, bundle by bundle. */
  function DeploymentsAt(env: Gate.Env, input: seq<Json>): seq<Json> {
    if input == [] then []
    else
      DeploymentsAt(env, input[..|input| - 1])
      + match StatementAt(env, input[|input| - 1],
                          "https://autogov.dev/attestation/agent-governance-deployment/v0.1")
        case Some(s) => [s]
        case None => []
  }

  /** The test results of the input, bundle by bundle, with the hash of their payloads. */
  function TestResultsAt(env: Gate.Env, input: seq<Json>): seq<Gate.TestResult> {
    if input == [] then []
    else
      var last := input[|input| - 1];
      TestResultsAt(env, input[..|input| - 1])
      + match StatementAt(env, last, "https://in-toto.io/attestation/test-result/v0.1")
        case Some(s) => [Gate.TestResult(s, env.sha256(PayloadAt(env, last).value))]
        case None => []
  }

  lemma PayloadMeans(env: Gate.Env, bundle: Json)
    ensures Gate.PayloadOf(env, bundle) == PayloadAt(env, bundle)
  {
  }

  lemma LastBundle(env: Gate.Env, bundle: Json)
    ensures Gate.Deployments(env, [bundle]) ==
      match StatementAt(env, bundle, "https://autogov.dev/attestation/agent-governance-deployment/v0.1")
      case Some(s) => [s]
      case None => []
    ensures Gate.TestResults(env, [bundle]) ==
      match StatementAt(env, bundle, "https://in-toto.io/attestation/test-result/v0.1")
      case Some(s) => [Gate.TestResult(s, env.sha256(PayloadAt(env, bundle).value))]
      case None => []
  {
    hide Gate.PayloadOf, PayloadAt;
    PayloadMeans(env, bundle);
    GateInput.OneBundle(env, bundle);
    if PayloadAt(env, bundle).Some? {
      GateInput.OnePayload(env, PayloadAt(env, bundle).value);
    }
  }

  /** The gate finds in the input the statements that its bundles carry, each as often as it is carried. */
  lemma {:induction false} InputMeans(env: Gate.Env, input: seq<Json>)
    ensures Gate.Deployments(env, input) == DeploymentsAt(env, input)
    ensures Gate.TestResults(env, input) == TestResultsAt(env, input)
  {
    hide StatementAt, PayloadAt, Gate.PayloadReader, Gate.DeploymentReader, Gate.TestResultReader;
    if input != [] {
      var front, last := input[..|input| - 1], input[|input| - 1];
      assert input == front + [last];
      GateInput.Appended(env, front, last);
      LastBundle(env, last);
      InputMeans(env, front);
    }
  }

  // ----- admission -----

  /** The test results that claim the id. */
  function Claimants(trs: seq<Gate.TestResult>, id: string): seq<Gate.TestResult> {
    if trs == [] then []
    else (if ClaimAt(trs[0].stmt) == Some(Str(id)) then [trs[0]] else []) + Claimants(trs[1..], id)
  }

  lemma {:induction false} ClaimantsMean(trs: seq<Gate.TestResult>, id: string)
    ensures Gate.CaseTestResults(trs, Some(Str(id))) == Claimants(trs, id)
  {
    hide ClaimAt, Gate.CaseIdClaimed;
    if trs != [] {
      ClaimMeans(trs[0]);
      ClaimantsMean(trs[1..], id);
    }
  }

  /** A case is evidence for admission: proven, in time, and claimed by exactly one test result, which is its own. */
  ghost predicate CaseAdmitted(env: Gate.Env, trs: seq<Gate.TestResult>, s: Json, v: Evidence, c: Case) {
    && Proven(c)
    && Timely(c)
    && exists t: Gate.TestResult :: Claimants(trs, c.id) == [t] && ReportForm(env, s, v, c, t)
  }

  predicate DistinctKinds(cases: seq<Case>) {
    forall i, j | 0 <= i < j < |cases| :: cases[i].kind != cases[j].kind
  }

  /** What an admissible input reads as. */
  ghost predicate Admissible(env: Gate.Env, input: seq<Json>) {
    var ds := DeploymentsAt(env, input);
    && |ds| == 1
    && StatementForm(env, ds[0])
    && var v := ReadPredicate(Field(Some(ds[0]), "predicate")).value;
    && v.cases != []
    && DistinctKinds(v.cases)
    && Enforced(v)
    && forall c | c in v.cases :: CaseAdmitted(env, TestResultsAt(env, input), ds[0], v, c)
  }

  lemma LinkageMeans(env: Gate.Env, trs: seq<Gate.TestResult>, s: Json, v: Evidence, c: Json)
    requires ReadPredicate(Field(Some(s), "predicate")) == Some(v)
    requires ReadCase(Some(c)).Some? && CaseForm(ReadCase(Some(c)).value)
    ensures var k := ReadCase(Some(c)).value;
            Gate.LinkageValid(env, trs, s, c) <==>
            exists t: Gate.TestResult :: Claimants(trs, k.id) == [t] && ReportForm(env, s, v, k, t)
  {
    hide ReadCase, ReadPredicate, ReportForm, Gate.TestResultValid, Gate.CaseTestResults, Claimants, Clock, Gate.IdOf;
    hide ObservationForm, TestResultRefForm, Forms.IdValue, Forms.CanonicalDigest;
    var k := ReadCase(Some(c)).value;
    StatesMean(c);
    ClaimantsMean(trs, k.id);
    var paired := Claimants(trs, k.id);
    if |paired| == 1 {
      assert paired == [paired[0]];
      TestResultMeans(env, s, v, c, paired[0]);
    }
  }

  lemma CaseAdmissibleMeans(env: Gate.Env, trs: seq<Gate.TestResult>, s: Json, v: Evidence, c: Json)
    requires ReadPredicate(Field(Some(s), "predicate")) == Some(v)
    requires ReadCase(Some(c)).Some? && CaseForm(ReadCase(Some(c)).value)
    ensures Gate.CaseAdmissible(env, trs, s, c) <==>
      Gate.DeploymentEnforcing(s) && CaseAdmitted(env, trs, s, v, ReadCase(Some(c)).value)
  {
    hide ReadCase, ReadPredicate, ReportForm, Gate.LinkageValid, Gate.CaseTimestampsValid, Timely, Gate.Proves, Proven;
    hide Gate.DeploymentEnforcing, CaseForm, Claimants, TimesInOrder;
    LinkageMeans(env, trs, s, v, c);
    TimesMean(c);
    TimelyMeans(c);
    ProvenMeans(c);
  }

  /** The cases of the document, item by item. */
  lemma CaseItems(s: Json, v: Evidence) returns (items: seq<Json>)
    requires ReadPredicate(Field(Some(s), "predicate")) == Some(v)
    ensures Gate.CasesOf(s) == Some(Arr(items)) && |items| == |v.cases|
    ensures forall i | 0 <= i < |items| :: ReadCase(Some(items[i])) == Some(v.cases[i])
  {
    hide ReadPredicate, ReadConformance, ReadCase;
    var p := Field(Some(s), "predicate");
    Sections(p);
    ConformanceFields(Field(p, "conformance"));
    items := Field(Field(p, "conformance"), "cases").value.items;
  }

  lemma KindsMean(s: Json, v: Evidence, items: seq<Json>)
    requires Gate.CasesOf(s) == Some(Arr(items)) && |items| == |v.cases| && 1 <= |items| <= 4
    requires forall i | 0 <= i < |items| :: ReadCase(Some(items[i])) == Some(v.cases[i])
    ensures GateTheorems.DistinctMembers(s, "kind") <==> DistinctKinds(v.cases)
  {
    hide ReadCase, Gate.CasesOf;
    forall i | 0 <= i < |items|
      ensures Rego.Dot(Some(items[i]), "kind") == Some(Str(v.cases[i].kind))
    {
      CaseFields(Some(items[i]));
    }
  }

  lemma AllCasesMean(env: Gate.Env, trs: seq<Gate.TestResult>, s: Json, v: Evidence, items: seq<Json>)
    requires ReadPredicate(Field(Some(s), "predicate")) == Some(v)
    requires Gate.CasesOf(s) == Some(Arr(items)) && |items| == |v.cases| && items != []
    requires forall i | 0 <= i < |items| :: ReadCase(Some(items[i])) == Some(v.cases[i]) && CaseForm(v.cases[i])
    ensures (forall c | c in Rego.Elements(Gate.CasesOf(s)) :: Gate.CaseAdmissible(env, trs, s, c)) <==>
      Gate.DeploymentEnforcing(s) && forall k | k in v.cases :: CaseAdmitted(env, trs, s, v, k)
  {
    hide ReadCase, ReadPredicate, Gate.CaseAdmissible, CaseAdmitted, CaseForm, Gate.DeploymentEnforcing, Gate.CasesOf;
    forall i | 0 <= i < |items|
      ensures items[i] in Rego.Elements(Some(Arr(items))) && v.cases[i] in v.cases
      ensures Gate.CaseAdmissible(env, trs, s, items[i]) <==>
        Gate.DeploymentEnforcing(s) && CaseAdmitted(env, trs, s, v, v.cases[i])
    {
      CaseAdmissibleMeans(env, trs, s, v, items[i]);
    }
    assert items[0] in Rego.Elements(Some(Arr(items)));
  }

  /** Proven cases have two kinds between them. */
  lemma TwoKinds(cases: seq<Case>)
    requires forall c | c in cases :: Proven(c)
    ensures |cases| <= 2 || !DistinctKinds(cases)
  {
    if |cases| > 2 {
      assert cases[0] in cases && cases[1] in cases && cases[2] in cases;
      assert cases[0].kind == cases[1].kind || cases[0].kind == cases[2].kind || cases[1].kind == cases[2].kind;
    }
  }

  lemma EnforcedHere(env: Gate.Env, s: Json, v: Evidence)
    requires ReadPredicate(Field(Some(s), "predicate")) == Some(v) && CoreForm(env, v)
    requires Gate.RuntimePolicyConsistent(s)
    ensures Gate.DeploymentEnforcing(s) <==> Enforced(v)
  {
    hide ReadPredicate, ReadRuntimePolicy, ReadEnforcement, Gate.DeploymentEnforcing, Gate.RuntimePolicyConsistent;
    hide ReadAgent, ReadRuntime, ReadAdapter, ReadIdentity, ReadAudit, ReadConformance, AgentForm, RuntimeForm;
    hide AdapterForm, RuntimePolicyForm, EnforcementForm, IdentityForm, AuditForm, ConformanceForm;
    Sections(Field(Some(s), "predicate"));
    EnforcedMeans(env, s, v.runtimePolicy, v.enforcement);
  }

  lemma CasesInForm(env: Gate.Env, v: Evidence)
    requires CoreForm(env, v)
    ensures forall c | c in v.cases :: CaseForm(c)
  {
    hide AgentForm, RuntimeForm, AdapterForm, RuntimePolicyForm, EnforcementForm, IdentityForm, AuditForm, CaseForm;
    hide FixtureForm, ArtifactForm;
  }

  /** The rules on one deployment statement, taken together. */
  ghost predicate Accepts(env: Gate.Env, trs: seq<Gate.TestResult>, s: Json) {
    && Gate.EnvelopeValid(env, s)
    && Gate.CaseCardinality(s)
    && (forall c | c in Rego.Elements(Gate.CasesOf(s)) :: Gate.CaseAdmissible(env, trs, s, c))
    && GateTheorems.DistinctMembers(s, "kind")
  }

  /** Their reading. */
  ghost predicate AcceptedAs(env: Gate.Env, trs: seq<Gate.TestResult>, s: Json, v: Evidence) {
    && v.cases != []
    && DistinctKinds(v.cases)
    && Enforced(v)
    && forall c | c in v.cases :: CaseAdmitted(env, trs, s, v, c)
  }

  lemma ReadMeans(env: Gate.Env, trs: seq<Gate.TestResult>, s: Json, v: Evidence)
    requires Gate.EnvelopeValid(env, s) && Gate.RuntimePolicyConsistent(s)
    requires ReadPredicate(Field(Some(s), "predicate")) == Some(v) && CoreForm(env, v)
    ensures Accepts(env, trs, s) <==> AcceptedAs(env, trs, s, v)
  {
    hide ReadPredicate, CoreForm, Gate.EnvelopeValid, Gate.RuntimePolicyConsistent, Gate.CaseAdmissible, CaseAdmitted;
    hide Gate.CasesOf, Enforced, CaseForm, GateTheorems.DistinctMembers, DistinctKinds, Gate.DeploymentEnforcing;
    hide ReadCase;
    var items := CaseItems(s, v);
    CasesInForm(env, v);
    EnforcedHere(env, s, v);
    if items != [] {
      assert forall i | 0 <= i < |items| :: v.cases[i] in v.cases;
      AllCasesMean(env, trs, s, v, items);
    }
    if 1 <= |items| <= 4 {
      KindsMean(s, v, items);
    }
    if AcceptedAs(env, trs, s, v) {
      AllProven(env, trs, s, v);
      TwoKinds(v.cases);
    }
  }

  lemma AllProven(env: Gate.Env, trs: seq<Gate.TestResult>, s: Json, v: Evidence)
    requires forall c | c in v.cases :: CaseAdmitted(env, trs, s, v, c)
    ensures forall c | c in v.cases :: Proven(c)
  {
    hide Proven, Timely, ReportForm, Claimants;
  }

  lemma AcceptsConsistent(env: Gate.Env, trs: seq<Gate.TestResult>, s: Json)
    requires Accepts(env, trs, s)
    ensures Gate.RuntimePolicyConsistent(s)
  {
    hide Gate.EnvelopeValid, Gate.RuntimePolicyConsistent, Gate.LinkageValid, Gate.CaseTimestampsValid, Gate.Proves;
    hide GateTheorems.DistinctMembers;
    var items := Gate.CasesOf(s).value.items;
    assert items[0] in Rego.Elements(Gate.CasesOf(s));
    assert Gate.CaseAdmissible(env, trs, s, items[0]);
  }

  lemma AcceptsMeans(env: Gate.Env, trs: seq<Gate.TestResult>, s: Json)
    ensures Accepts(env, trs, s) <==>
      StatementForm(env, s) && AcceptedAs(env, trs, s, ReadPredicate(Field(Some(s), "predicate")).value)
  {
    hide ReadPredicate, CoreForm, Gate.EnvelopeValid, Gate.RuntimePolicyConsistent, Gate.CaseAdmissible, CaseAdmitted;
    hide Gate.CasesOf, Enforced, GateTheorems.DistinctMembers, DistinctKinds, AcceptedAs, NamesAgent, OnlyElementIs;
    hide PinnedFacts, Gate.CaseCardinality;
    EnvelopeMeans(env, s);
    if Accepts(env, trs, s) {
      AcceptsConsistent(env, trs, s);
    }
    if StatementForm(env, s) {
      ReadMeans(env, trs, s, ReadPredicate(Field(Some(s), "predicate")).value);
    }
  }

  /**
   The gate admits exactly the inputs that read as one well-formed deployment of distinct, proven and timely cases, each
   with the one test result that is its own. No rule of the gate asks for more, and none for less.
   */
  lemma AllowMeans(env: Gate.Env, input: seq<Json>)
    ensures Gate.Allow(env, input) <==> Admissible(env, input)
  {
    hide Gate.Allow, Gate.Deployments, Gate.TestResults, DeploymentsAt, TestResultsAt, StatementForm, ReadPredicate;
    hide Gate.EnvelopeValid, Gate.CaseCardinality, Gate.CaseAdmissible, GateTheorems.DistinctMembers, Enforced;
    hide DistinctKinds, CaseAdmitted, Gate.CasesOf;
    GateTheorems.AllowIffDistinctKinds(env, input);
    InputMeans(env, input);
    var ds, trs := DeploymentsAt(env, input), TestResultsAt(env, input);
    if |ds| == 1 {
      AcceptsMeans(env, trs, ds[0]);
    }
  }
}
