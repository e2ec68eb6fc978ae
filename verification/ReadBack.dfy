/** What is printed reads back: the predicate and both statements, member by member. */
module ReadBack {
  import opened Wrappers
  import opened Json
  import opened EvidenceModel
  import opened EvidenceReader
  import opened Statements
  import Admission
  import Extensions
  import Forms
  import Printed

  lemma ArtifactReads(r: ArtifactRef)
    ensures ReadArtifact(Some(ArtifactJson(r))) == Some(r)
  {
  }

  lemma RedactedReads(r: RedactedRef)
    ensures ReadRedacted(Some(RedactedJson(r))) == Some(r)
  {
  }

  lemma TextsRead(texts: seq<string>)
    ensures ReadTexts(Some(TextsJson(texts))) == Some(texts)
  {
    var items := TextsJson(texts).items;
    assert forall i | 0 <= i < |texts| :: items[i] == Str(texts[i]);
    assert seq(|items|, i requires 0 <= i < |items| => items[i].s) == texts;
  }

  lemma AgentReads(a: Agent)
    ensures ReadAgent(Some(AgentJson(a))) == Some(a)
  {
  }

  lemma RuntimeReads(r: Runtime)
    ensures ReadRuntime(Some(RuntimeJson(r))) == Some(r)
  {
    hide ArtifactJson, ReadArtifact;
    ArtifactReads(r.artifact);
  }

  lemma AdapterReads(a: Adapter)
    ensures ReadAdapter(Some(AdapterJson(a))) == Some(a)
  {
    hide ArtifactJson, ReadArtifact;
    ArtifactReads(a.artifact);
  }

  lemma RuntimePolicyReads(p: RuntimePolicy)
    ensures ReadRuntimePolicy(Some(RuntimePolicyJson(p))) == Some(p)
  {
    hide ArtifactJson, ReadArtifact;
    ArtifactReads(p.artifact);
  }

  lemma EnforcementReads(f: Enforcement)
    ensures ReadEnforcement(Some(EnforcementJson(f))) == Some(f)
  {
    hide TextsJson, ReadTexts;
    TextsRead(f.required);
    TextsRead(f.observed);
  }

  lemma IdentityReads(i: Identity)
    ensures ReadIdentity(Some(IdentityJson(i))) == Some(i)
  {
    hide RedactedJson, ReadRedacted;
    RedactedReads(i.subject);
  }

  lemma AuditReads(a: Audit)
    ensures ReadAudit(Some(AuditJson(a))) == Some(a)
  {
    hide RedactedJson, ReadRedacted;
    RedactedReads(a.sink);
  }

  lemma FixtureReads(f: Fixture)
    ensures ReadFixture(Some(FixtureJson(f))) == Some(f)
  {
  }

  lemma ToolReads(t: Tool)
    ensures ReadTool(Some(ToolJson(t))) == Some(t)
  {
    hide ArtifactJson, ReadArtifact;
    ArtifactReads(t.artifact);
  }

  lemma ObservationReads(o: Observation, finding: string)
    requires finding == "verdict" || finding == "result"
    ensures ReadObservation(Some(ObservationJson(o, finding)), finding) == Some(o)
  {
    hide RedactedJson, ReadRedacted;
    if o.reference.Some? {
      RedactedReads(o.reference.value);
    }
  }

  lemma TestResultRefReads(r: TestResultRef)
    ensures ReadTestResultRef(Some(TestResultRefJson(r))) == Some(r)
  {
  }

  lemma CaseReads(c: Case)
    ensures ReadCase(Some(CaseJson(c))) == Some(c)
  {
    hide ObservationJson, ReadObservation, TestResultRefJson, ReadTestResultRef;
    ObservationReads(c.decision, "verdict");
    ObservationReads(c.outcome, "result");
    TestResultRefReads(c.testResult);
  }

  lemma CasesRead(cases: seq<Case>, items: seq<Json>)
    requires |items| == |cases| && forall i | 0 <= i < |cases| :: items[i] == CaseJson(cases[i])
    ensures ReadCases(Some(Arr(items))) == Some(cases)
  {
    hide CaseJson, ReadCase;
    forall i | 0 <= i < |cases|
      ensures ReadCase(Some(items[i])) == Some(cases[i])
    {
      CaseReads(cases[i]);
    }
    assert ReadCases(Some(Arr(items))).value == cases;
  }

  lemma ConformanceReads(e: Evidence)
    ensures ReadConformance(Some(ConformanceJson(e))) == Some(Conformance(e.fixture, e.tool, e.cases))
  {
    hide FixtureJson, ReadFixture, ToolJson, ReadTool, CaseJson, ReadCases;
    FixtureReads(e.fixture);
    ToolReads(e.tool);
    CasesRead(e.cases, ConformanceJson(e).fields["cases"].items);
  }

  lemma SectionsPrinted(codec: Codec, e: Evidence)
    ensures var p := Some(PredicateJson(codec, e));
            && Field(p, "schemaVersion") == Some(Str(e.schemaVersion))
            && Field(p, "agent") == Some(AgentJson(e.agent))
            && Field(p, "runtime") == Some(RuntimeJson(e.runtime))
            && Field(p, "adapter") == Some(AdapterJson(e.adapter))
            && Field(p, "runtimePolicy") == Some(RuntimePolicyJson(e.runtimePolicy))
            && Field(p, "enforcement") == Some(EnforcementJson(e.enforcement))
  {
    hide AgentJson, RuntimeJson, AdapterJson, RuntimePolicyJson, EnforcementJson, IdentityJson, AuditJson;
    hide ConformanceJson, ExtensionsJson;
  }

  lemma MoreSectionsPrinted(codec: Codec, e: Evidence)
    ensures var p := Some(PredicateJson(codec, e));
            && Field(p, "identity") == Some(IdentityJson(e.identity))
            && Field(p, "audit") == Some(AuditJson(e.audit))
            && Field(p, "conformance") == Some(ConformanceJson(e))
            && Field(p, "extensions") == if |e.extensions| == 0 then None else Some(ExtensionsJson(codec, e.extensions))
  {
    hide AgentJson, RuntimeJson, AdapterJson, RuntimePolicyJson, EnforcementJson, IdentityJson, AuditJson;
    hide ConformanceJson, ExtensionsJson;
  }

  lemma NothingElsePrinted(codec: Codec, e: Evidence)
    ensures HasMembers(Some(PredicateJson(codec, e)),
                       {"schemaVersion", "agent", "runtime", "adapter", "runtimePolicy", "enforcement", "identity",
                        "audit", "conformance"}, {"extensions"})
  {
    hide AgentJson, RuntimeJson, AdapterJson, RuntimePolicyJson, EnforcementJson, IdentityJson, AuditJson;
    hide ConformanceJson, ExtensionsJson;
  }

  /** Every core member of the evidence is printed under its own name, and nothing else is. */
  lemma PredicateReads(codec: Codec, e: Evidence)
    ensures ReadPredicate(Some(PredicateJson(codec, e))) == Some(e.(extensions := map[]))
  {
    hide AgentJson, RuntimeJson, AdapterJson, RuntimePolicyJson, EnforcementJson, IdentityJson, AuditJson;
    hide ConformanceJson, ExtensionsJson, PredicateJson, Field, HasMembers;
    hide ReadAgent, ReadRuntime, ReadAdapter, ReadRuntimePolicy, ReadEnforcement, ReadIdentity, ReadAudit;
    hide ReadConformance;
    SectionsPrinted(codec, e);
    MoreSectionsPrinted(codec, e);
    NothingElsePrinted(codec, e);
    AgentReads(e.agent);
    RuntimeReads(e.runtime);
    AdapterReads(e.adapter);
    RuntimePolicyReads(e.runtimePolicy);
    EnforcementReads(e.enforcement);
    IdentityReads(e.identity);
    AuditReads(e.audit);
    ConformanceReads(e);
  }

  // ----- extensions -----

  /** The document shows the value: scalars as the codec prints them, containers position by position. */
  predicate Shows(codec: Codec, j: Json, v: Extensions.Value) {
    match v
    case Atom(text) => j == codec.scalar(text)
    case Sequence(items) =>
      j.Arr? && |j.items| == |items| && forall i | 0 <= i < |items| :: Shows(codec, j.items[i], items[i])
    case Table(fields) =>
      j.Obj? && j.fields.Keys == fields.Keys && forall k | k in fields :: Shows(codec, j.fields[k], fields[k])
  }

  lemma {:induction false} ValueShown(codec: Codec, v: Extensions.Value)
    ensures Shows(codec, ValueJson(codec, v), v)
  {
    match v
    case Atom(_) =>
    case Sequence(items) =>
      forall i | 0 <= i < |items|
        ensures Shows(codec, ValueJson(codec, items[i]), items[i])
      {
        ValueShown(codec, items[i]);
      }
    case Table(fields) =>
      forall k | k in fields
        ensures Shows(codec, ValueJson(codec, fields[k]), fields[k])
      {
        ValueShown(codec, fields[k]);
      }
  }

  /** Extensions are printed under their own keys, each showing the value that was meant, or omitted if none. */
  lemma ExtensionsShown(codec: Codec, e: Evidence)
    ensures var x := Field(Some(PredicateJson(codec, e)), "extensions");
            if e.extensions == map[] then x.None?
            else
              && x.Some? && x.value.Obj? && x.value.fields.Keys == e.extensions.Keys
              && forall k | k in e.extensions :: Shows(codec, x.value.fields[k], Extensions.Denote(e.extensions[k]))
  {
    hide PredicateJson, Field, Shows, Extensions.Denote;
    MoreSectionsPrinted(codec, e);
    assert |e.extensions| == 0 <==> e.extensions == map[];
    forall k | k in e.extensions
      ensures Shows(codec, ExtensionsJson(codec, e.extensions).fields[k], Extensions.Denote(e.extensions[k]))
    {
      ValueShown(codec, Extensions.Denote(e.extensions[k]));
    }
  }

  // ----- statements -----

  /** A statement names its one subject by the agent's name and the hexadecimal digits of the agent's digest. */
  lemma StatementReads(a: Agent, predicateType: string, body: Json, sum: string)
    requires a.artifactDigest == "sha256:" + sum
    ensures ReadStatement(Some(StatementJson(a, predicateType, body))) ==
      Some(Statement("https://in-toto.io/Statement/v1", a.name, sum, predicateType, body))
  {
    hide SubjectJson;
    SubjectReads(a, sum);
  }

  lemma SubjectReads(a: Agent, sum: string)
    requires a.artifactDigest == "sha256:" + sum
    ensures var s := Some(SubjectJson(a));
            && HasMembers(s, {"name", "digest"}, {}) && Field(s, "name") == Some(Str(a.name))
            && HasMembers(Field(s, "digest"), {"sha256"}, {})
            && Field(Field(s, "digest"), "sha256") == Some(Str(sum))
  {
    TrimmedPrefix(a.artifactDigest, sum);
  }

  lemma TrimmedPrefix(digest: string, sum: string)
    requires digest == "sha256:" + sum
    ensures TrimDigestPrefix(digest) == sum
  {
    assert digest[..7] == "sha256:";
  }

  lemma AnnotationNames()
    ensures forall name :: AnnKey(name) == Annotation(name)
  {
  }

  lemma DescriptorReads(e: Evidence, annotations: map<string, Json>, sum: string)
    requires e.tool.artifact.digest == "sha256:" + sum
    ensures var d := Some(DescriptorJson(e, annotations));
            && HasMembers(d, {"name", "uri", "digest", "annotations"}, {})
            && Field(d, "name") == Some(Str("agent-governance-conformance-v0.1"))
            && Field(d, "uri") == Some(Str(Annotation("conformance")))
            && Field(Field(d, "digest"), "sha256") == Some(Str(sum))
            && Field(d, "annotations") == Some(Obj(annotations))
  {
    hide AnnKey, Annotation;
    AnnotationNames();
    TrimmedPrefix(e.tool.artifact.digest, sum);
  }

  lemma ReportReads(result: string, d: Json, passed: seq<string>, warned: seq<string>)
    ensures var p := Some(TestResultPredicate(result, d, passed, warned));
            && HasMembers(p, {"result", "passedTests", "warnedTests", "failedTests", "configuration"}, {})
            && Field(p, "result") == Some(Str(result))
            && ReadTexts(Field(p, "passedTests")) == Some(passed)
            && ReadTexts(Field(p, "warnedTests")) == Some(warned)
            && ReadTexts(Field(p, "failedTests")) == Some([])
            && ReadOnly(Field(p, "configuration")) == Some(d)
  {
    hide TextsJson;
    TextsRead(passed);
    TextsRead(warned);
    NoTextsRead();
  }

  lemma NoTextsRead()
    ensures ReadTexts(Some(Arr([]))) == Some([])
  {
    assert TextsJson([]).items == [];
    TextsRead([]);
  }

  /** No statement comes of a missing reference, another outcome state, or a report that the schema refuses. */
  lemma TestResultBuilt(codec: Codec, e: Evidence, c: Case)
    ensures TestResultStatement(codec, e, c).Some? <==>
      && (c.decision.state == "observed" ==> c.decision.reference.Some?)
      && (c.outcome.state == "verified" ==> c.outcome.reference.Some?)
      && c.outcome.state in {"verified", "unknown"}
      && codec.testResultAccepts(Printed.TestResultBody(e, c))
  {
    hide DescriptorJson, Annotations, TextsJson;
  }

  /** A printed test result reads back as the report on its one case, bound to the agent and to the controlled tool. */
  lemma TestResultReads(codec: Codec, e: Evidence, c: Case, stmt: Json, agentSum: string, toolSum: string)
    requires TestResultStatement(codec, e, c) == Some(stmt)
    requires e.agent.artifactDigest == "sha256:" + agentSum && e.tool.artifact.digest == "sha256:" + toolSum
    ensures var s := ReadStatement(Some(stmt));
            && s.Some?
            && s.value.kind == "https://in-toto.io/Statement/v1"
            && s.value.name == e.agent.name && s.value.sum == agentSum
            && s.value.predicateType == "https://in-toto.io/attestation/test-result/v0.1"
            && ReadTestReport(Some(s.value.body)) ==
               Some(if c.outcome.state == "verified"
                    then TestReport("PASSED", [c.id], [], [], "agent-governance-conformance-v0.1",
                                    Annotation("conformance"), toolSum, Annotations(e, c))
                    else TestReport("WARNED", [], [c.id], [], "agent-governance-conformance-v0.1",
                                    Annotation("conformance"), toolSum, Annotations(e, c)))
  {
    hide DescriptorJson, Annotations, TestResultPredicate, StatementJson, Annotation, ReadTexts, ReadStatement;
    var verified := c.outcome.state == "verified";
    var d := DescriptorJson(e, Annotations(e, c));
    var passed, warned := if verified then [c.id] else [], if verified then [] else [c.id];
    var p := TestResultPredicate(if verified then "PASSED" else "WARNED", d, passed, warned);
    ReportReads(if verified then "PASSED" else "WARNED", d, passed, warned);
    DescriptorReads(e, Annotations(e, c), toolSum);
    StatementReads(e.agent, TEST_RESULT_TYPE, p, agentSum);
  }

  /** The annotations are the agent's digest and the facts of the case under their own names. */
  lemma AnnotationsRead(e: Evidence, c: Case)
    requires c.decision.state == "observed" ==> c.decision.reference.Some?
    requires c.outcome.state == "verified" ==> c.outcome.reference.Some?
    ensures var a := Some(Obj(Annotations(e, c)));
            && Field(a, Annotation("agentDigest")) == Some(Str(e.agent.artifactDigest))
            && Field(a, Annotation("caseId")) == Some(Str(c.id))
            && Field(a, Annotation("correlationId")) == Some(Str(c.correlationId))
            && Field(a, Annotation("decisionState")) == Some(Str(c.decision.state))
            && Field(a, Annotation("decisionVerdict")) == Some(Str(c.decision.finding))
            && Field(a, Annotation("outcomeState")) == Some(Str(c.outcome.state))
            && Field(a, Annotation("outcomeResult")) == Some(Str(c.outcome.finding))
            && (c.decision.state == "observed" ==>
                  Field(a, Annotation("decisionDigest")) == Some(Str(c.decision.reference.value.digest)))
            && (c.outcome.state == "verified" ==>
                  Field(a, Annotation("resultArtifactDigest")) == Some(Str(c.outcome.reference.value.digest)))
  {
    hide AnnKey, Annotation, Annotations;
    AnnotationNames();
    Printed.IdentityAnnotations(e, c);
    Printed.FactAnnotations(e, c);
    Printed.DigestAnnotations(e, c);
  }

  /** There are no other annotations. */
  lemma AnnotationsExact(e: Evidence, c: Case)
    requires c.decision.state == "observed" ==> c.decision.reference.Some?
    requires c.outcome.state == "verified" ==> c.outcome.reference.Some?
    ensures Annotations(e, c).Keys ==
      {Annotation("agentDigest"), Annotation("caseId"), Annotation("correlationId"), Annotation("decisionState"),
       Annotation("decisionVerdict"), Annotation("outcomeState"), Annotation("outcomeResult")}
      + (if c.decision.state == "observed" then {Annotation("decisionDigest")} else {})
      + (if c.outcome.state == "verified" then {Annotation("resultArtifactDigest")} else {})
  {
    hide AnnKey, Annotation, Annotations, Printed.AnnotationNames;
    Printed.BuiltNames(e, c);
    SameNames(c.decision.state == "observed", c.outcome.state == "verified");
  }

  lemma SameNames(observed: bool, verified: bool)
    ensures Printed.AnnotationNames(observed, verified) ==
      {Annotation("agentDigest"), Annotation("caseId"), Annotation("correlationId"), Annotation("decisionState"),
       Annotation("decisionVerdict"), Annotation("outcomeState"), Annotation("outcomeResult")}
      + (if observed then {Annotation("decisionDigest")} else {})
      + (if verified then {Annotation("resultArtifactDigest")} else {})
  {
    hide AnnKey, Annotation;
    AnnotationNames();
  }

  // ----- BuildCase -----

  lemma DigestDigits(digest: string)
    requires Forms.CanonicalDigest(digest)
    ensures digest == "sha256:" + digest[7..]
  {
    assert digest == digest[..7] + digest[7..];
  }

  /**
   What BuildCase returns is the printed pair: the deployment statement reads back as the body it returns, the test
   result as the report on the body's one case, and the body states the hash of the printed test result.
   */
  lemma BuiltReads(codec: Codec, lib: Library, e: Evidence, b: Built) returns (deployment: Json, testResult: Json)
    requires Build(codec, lib, e) == Some(b)
    ensures b.deployment == codec.marshal(deployment) && b.testResult == codec.marshal(testResult)
    ensures |e.cases| == 1 && e.cases[0].testResult.statementDigest == ""
    ensures |b.body.cases| == 1
    ensures b.body.cases[0].testResult.statementDigest == "sha256:" + codec.sha256(b.testResult)
    ensures var s := ReadStatement(Some(deployment));
            && s.Some? && s.value.kind == "https://in-toto.io/Statement/v1" && s.value.name == b.body.agent.name
            && "sha256:" + s.value.sum == b.body.agent.artifactDigest
            && s.value.predicateType == "https://autogov.dev/attestation/agent-governance-deployment/v0.1"
            && ReadPredicate(Some(s.value.body)) == Some(b.body.(extensions := map[]))
    ensures var s, c := ReadStatement(Some(testResult)), b.body.cases[0];
            && s.Some? && s.value.kind == "https://in-toto.io/Statement/v1" && s.value.name == b.body.agent.name
            && "sha256:" + s.value.sum == b.body.agent.artifactDigest
            && s.value.predicateType == "https://in-toto.io/attestation/test-result/v0.1"
            && var r := ReadTestReport(Some(s.value.body));
               && r.Some? && "sha256:" + r.value.sum == b.body.tool.artifact.digest
               && r.value.annotations == Annotations(b.body, c)
               && r.value.result == (if c.outcome.state == "verified" then "PASSED" else "WARNED")
               && r.value.failed == []
               && (r.value.passed, r.value.warned) ==
                  if c.outcome.state == "verified" then ([c.id], []) else ([], [c.id])
  {
    hide Canon, Generate, Printed.DeploymentJson, Printed.TestResultJson, Printed.Accepted, Forms.CanonicalDigest;
    hide ReadStatement, ReadPredicate, ReadTestReport, PredicateJson, Annotations, WithDigest, PLACEHOLDER, Finish;
    hide TestResultStatement;
    Admission.BuildParts(codec, lib, e);
    BuiltDigests(lib, b.body);
    var v := b.body;
    deployment, testResult := Printed.DeploymentJson(codec, v), Printed.TestResultJson(v, v.cases[0]);
    DigestDigits(v.agent.artifactDigest);
    DigestDigits(v.tool.artifact.digest);
    DeploymentReads(codec, v, v.agent.artifactDigest[7..]);
    Admission.BuildReproducible(codec, lib, e);
    Admission.StatementReferenced(codec, v, v.cases[0]);
    TestResultReads(codec, v, v.cases[0], testResult, v.agent.artifactDigest[7..], v.tool.artifact.digest[7..]);
  }

  lemma BuiltDigests(lib: Library, v: Evidence)
    requires Printed.Accepted(lib, v)
    ensures Forms.CanonicalDigest(v.agent.artifactDigest) && Forms.CanonicalDigest(v.tool.artifact.digest)
  {
    hide Forms.CanonicalDigest, AbsoluteUri, BoundedText, CaseValid, RuntimeAdapterValid, ExtensionsValid;
  }

  lemma DeploymentReads(codec: Codec, v: Evidence, sum: string)
    requires v.agent.artifactDigest == "sha256:" + sum
    ensures ReadStatement(Some(Printed.DeploymentJson(codec, v))) ==
      Some(Statement("https://in-toto.io/Statement/v1", v.agent.name, sum,
                     "https://autogov.dev/attestation/agent-governance-deployment/v0.1", PredicateJson(codec, v)))
    ensures ReadPredicate(Some(PredicateJson(codec, v))) == Some(v.(extensions := map[]))
  {
    hide ReadStatement, ReadPredicate, PredicateJson, StatementJson;
    StatementReads(v.agent, DEPLOYMENT_TYPE, PredicateJson(codec, v), sum);
    PredicateReads(codec, v);
  }
}
