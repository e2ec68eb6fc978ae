/**
 The builder and the gate together: for evidence on which BuildCase succeeds, the gate admits the two statements
 exactly when the canonical facts say the control was loaded, enforcing, exercised and observed.
 */
module Admission {
  import opened Wrappers
  import opened Json
  import opened Rego
  import opened Lists
  import opened Sorting
  import opened EvidenceModel
  import opened Statements
  import opened Printed
  import Gate
  import GateTheorems
  import GateInput
  import FixedPoint
  import Canonical
  import Forms
  import Rfc3339

  // ----- BuildCase -----

  lemma PlaceholderCanonical()
    ensures Forms.CanonicalDigest(PLACEHOLDER)
  {
    assert PLACEHOLDER[..7] == Forms.DIGEST_PREFIX;
    assert forall i | 7 <= i < 71 :: PLACEHOLDER[i] == '0';
  }

  lemma SumCanonical(h: Forms.Hex64)
    ensures Forms.CanonicalDigest(Forms.DIGEST_PREFIX + h)
  {
    var d := Forms.DIGEST_PREFIX + h;
    assert d[..7] == Forms.DIGEST_PREFIX;
    assert forall i | 7 <= i < 71 :: d[i] == h[i - 7];
  }

  lemma CaseWithDigest(c: Case, digest: string)
    requires Forms.CanonicalDigest(digest)
    requires NormalizeDigest(c.testResult.statementDigest).Some? && CanonCase(c).Some?
    ensures var d, x := c.(testResult := c.testResult.(statementDigest := digest)), CanonCase(c).value;
            CanonCase(d) == Some(x.(testResult := x.testResult.(statementDigest := digest)))
  {
    hide NormalizeDigest, CanonObservation, Rfc3339.NormalizeTimestamp, Forms.CanonicalDigest;
    Canonical.CanonicalDigestFixed(digest);
  }

  lemma OneCanonCase(c: Case)
    requires CanonCase(c).Some?
    ensures CanonCases([c]) == Some([CanonCase(c).value])
    ensures StableSort(CaseLess, [CanonCase(c).value]) == [CanonCase(c).value]
  {
    hide CanonCase;
    CollectOne(CanonCase, c);
    var s := [CanonCase(c).value];
    assert s[..0] == [];
  }

  /** A digest written into the only case before or after Normalize comes to the same. */
  lemma CanonWithDigest(e: Evidence, digest: string)
    requires |e.cases| == 1 && Canon(e).Some? && Forms.CanonicalDigest(digest)
    ensures |Canon(e).value.cases| == 1
    ensures Canon(WithDigest(e, digest)) == Some(WithDigest(Canon(e).value, digest))
  {
    hide CanonHead, CanonCases, CanonEnforcement, CanonExtensions, StableSort, Forms.CanonicalDigest, CanonCase;
    CanonCount(e);
    var c := e.cases[0];
    var d := c.(testResult := c.testResult.(statementDigest := digest));
    assert e.cases == [c] && WithDigest(e, digest).cases == [d];
    DigestPart(c);
    CaseWithDigest(c, digest);
    OneCanonCase(c);
    OneCanonCase(d);
    FixedPoint.HeadIgnores(e, WithDigest(e, digest));
    var v := Canon(e).value;
    assert v.cases == [CanonCase(c).value];
    assert WithDigest(v, digest).cases == [CanonCase(d).value];
  }

  lemma DigestPart(c: Case)
    requires CanonCase(c).Some?
    ensures NormalizeDigest(c.testResult.statementDigest).Some?
  {
    hide NormalizeDigest, CanonObservation, Rfc3339.NormalizeTimestamp;
  }

  /**
   The second normalisation of BuildCase changes nothing: the body is the first normal form with the digest
   filled in.
   */
  lemma SecondNormalization(lib: Library, e: Evidence, digest: string)
    requires |e.cases| == 1 && Canon(e).Some? && Forms.CanonicalDigest(digest)
    requires |Canon(e).value.cases| == 1
    requires Generate(lib, WithDigest(Canon(e).value, digest)).Some?
    ensures Generate(lib, WithDigest(Canon(e).value, digest)) == Some(WithDigest(Canon(e).value, digest))
  {
    hide CanonHead, CanonCases, CanonEnforcement, CanonExtensions, StableSort, Forms.CanonicalDigest, Valid;
    hide SchemaAccepts;
    CanonWithDigest(e, digest);
    FixedPoint.NormalizeTwice(WithDigest(e, digest));
  }

  lemma TestResultIgnoresDigest(codec: Codec, v: Evidence, digest: string)
    requires v.cases != []
    ensures var w := WithDigest(v, digest);
            TestResultStatement(codec, w, w.cases[0]) == TestResultStatement(codec, v, v.cases[0])
  {
    hide AnnKey, TextsJson, StatementJson;
  }

  lemma StatementReferenced(codec: Codec, v: Evidence, c: Case)
    requires TestResultStatement(codec, v, c).Some?
    ensures TestResultStatement(codec, v, c) == Some(TestResultJson(v, c))
    ensures c.decision.state == "observed" ==> c.decision.reference.Some?
    ensures c.outcome.state == "verified" ==> c.outcome.reference.Some?
    ensures c.outcome.state == "verified" || c.outcome.state == "unknown"
  {
    hide AnnKey, TextsJson, StatementJson, DescriptorJson, Annotations;
  }

  /** What a successful BuildCase returns, in terms of the body alone. */
  lemma BuildParts(codec: Codec, lib: Library, e: Evidence)
    requires Build(codec, lib, e).Some?
    ensures var b := Build(codec, lib, e).value;
            && |b.body.cases| == 1
            && Accepted(lib, b.body)
            && Generate(lib, b.body) == Some(b.body)
            && b.deployment == codec.marshal(DeploymentJson(codec, b.body))
            && b.testResult == codec.marshal(TestResultJson(b.body, b.body.cases[0]))
            && b.body.cases[0].testResult.statementDigest == Forms.DIGEST_PREFIX + codec.sha256(b.testResult)
            && Canon(WithDigest(e, PLACEHOLDER)).Some?
            && |Canon(WithDigest(e, PLACEHOLDER)).value.cases| == 1
            && b.body == WithDigest(Canon(WithDigest(e, PLACEHOLDER)).value,
                                    Forms.DIGEST_PREFIX + codec.sha256(b.testResult))
  {
    hide Canon, Generate, TestResultStatement, DeploymentJson, TestResultJson, Accepted, Forms.CanonicalDigest;
    hide StatementJson, PredicateJson, PLACEHOLDER;
    var f := WithDigest(e, PLACEHOLDER);
    CanonCount(f);
    var v := Canon(f).value;
    var unbound := WithDigest(v, "");
    var stmt := TestResultStatement(codec, unbound, unbound.cases[0]).value;
    var digest := Forms.DIGEST_PREFIX + codec.sha256(codec.marshal(stmt));
    SumCanonical(codec.sha256(codec.marshal(stmt)));
    SecondNormalization(lib, f, digest);
    var body := WithDigest(v, digest);
    GenerateAccepted(lib, body);
    assert body == WithDigest(unbound, digest);
    TestResultIgnoresDigest(codec, unbound, digest);
    StatementReferenced(codec, body, body.cases[0]);
    BuiltDeployment(codec, body);
  }

  lemma BuiltDeployment(codec: Codec, body: Evidence)
    ensures DeploymentStatement(codec, body, body) == Some(DeploymentJson(codec, body))
  {
  }

  lemma BuiltReferenced(codec: Codec, lib: Library, e: Evidence)
    requires Build(codec, lib, e).Some?
    ensures |Build(codec, lib, e).value.body.cases| == 1
    ensures var c := Build(codec, lib, e).value.body.cases[0];
            Referenced(c) && TestResultValid(c) && CaseValid(Build(codec, lib, e).value.body, c)
            && CanonicalTimes(c)
    ensures ConformanceHeadValid(lib, Build(codec, lib, e).value.body)
  {
    hide Build, CanonicalTimes, SchemaAccepts, RootValid, RuntimeAdapterValid, RuntimePolicyValid, EnforcementValid;
    hide IdentityAuditValid, ExtensionsValid, ConformanceHeadValid, IntervalValid, RedactedValid, TestResultValid;
    hide DeploymentJson, TestResultJson, WithDigest, Canon, Generate, ObservedAtValid;
    BuildParts(codec, lib, e);
    var body := Build(codec, lib, e).value.body;
    assert body.cases[0] in body.cases;
  }

  // ----- the gate on what was built -----

  lemma TypesDiffer()
    ensures DEPLOYMENT_TYPE != TEST_RESULT_TYPE
    ensures DEPLOYMENT_TYPE == Gate.DEPLOYMENT_TYPE && TEST_RESULT_TYPE == Gate.TEST_RESULT_TYPE
  {
    assert |DEPLOYMENT_TYPE| == 64 && |TEST_RESULT_TYPE| == 47;
  }

  /** The two built payloads, decoded, are one deployment statement and one test result. */
  lemma BuiltInput(env: Gate.Env, codec: Codec, b: Built, x: Json, y: Json)
    requires ReadsBack(env, codec, b) && Carries(env, x, b.deployment) && Carries(env, y, b.testResult)
    ensures Gate.Deployments(env, [x, y]) == [DeploymentJson(codec, b.body)]
    ensures Gate.TestResults(env, [x, y]) ==
      [Gate.TestResult(TestResultJson(b.body, b.body.cases[0]), env.sha256(b.testResult))]
  {
    hide StatementJson, PredicateJson, TestResultBody, Gate.PayloadOf, Gate.DEPLOYMENT_TYPE, Gate.TEST_RESULT_TYPE;
    hide DEPLOYMENT_TYPE, TEST_RESULT_TYPE;
    var v := b.body;
    TypesDiffer();
    StatementMembers(v.agent, DEPLOYMENT_TYPE, PredicateJson(codec, v));
    StatementMembers(v.agent, TEST_RESULT_TYPE, TestResultBody(v, v.cases[0]));
    assert [x] + [y] == [x, y];
    GateInput.Appended(env, [x], y);
    GateInput.OneBundle(env, x);
    GateInput.OneBundle(env, y);
    GateInput.OnePayload(env, b.deployment);
    GateInput.OnePayload(env, b.testResult);
  }

  /** The facts the gate asks of a built case. */
  predicate AdmissionFacts(v: Evidence) {
    && |v.cases| == 1
    && var c := v.cases[0];
    && (|| (c.kind == "allowed-action" && c.outcome.state == "verified" && c.outcome.finding == "occurred")
        || (c.kind == "denied-action" && c.outcome.state == "verified" && c.outcome.finding == "blocked"))
    && v.runtimePolicy.loaded
    && v.enforcement.mode == "enforce"
    && Exercised(v.enforcement)
    && v.tool.artifact.digest == Gate.TOOL_DIGEST
    && TimesInGateRange(c)
  }

  lemma ProvesAgrees(c: Case, kind: string, verdict: string, result: string)
    ensures Gate.Proves(CaseJson(c), kind, verdict, result) <==>
      && c.kind == kind && c.decision.state == "observed" && c.decision.finding == verdict
      && c.outcome.state == "verified" && c.outcome.finding == result
  {
    hide CaseJson, ObservationJson;
    CaseMembers(c);
    ObservationMembers(c.decision, "verdict");
    ObservationMembers(c.outcome, "result");
  }

  lemma LinkageHolds(env: Gate.Env, codec: Codec, lib: Library, v: Evidence, digest: Forms.Hex64)
    requires |v.cases| == 1 && Referenced(v.cases[0]) && TestResultValid(v.cases[0])
    requires ConformanceHeadValid(lib, v)
    requires v.cases[0].testResult.statementDigest == Forms.DIGEST_PREFIX + digest
    ensures Gate.LinkageValid(env, [Gate.TestResult(TestResultJson(v, v.cases[0]), digest)],
                              DeploymentJson(codec, v), CaseJson(v.cases[0]))
  {
    hide DeploymentJson, CaseJson, TestResultJson, Gate.TestResultValid, Gate.CaseIdClaimed, AbsoluteUri, Gate.IdOf;
    hide Forms.CanonicalDigest, Referenced;
    var c := v.cases[0];
    var t := Gate.TestResult(TestResultJson(v, c), digest);
    ArtifactDigest(lib, v.tool.artifact);
    BuiltResultValid(env, codec, v, digest);
    ClaimsItsCase(v, c, digest);
    GateInput.OneResult(t, Gate.IdOf(CaseJson(c)));
  }

  lemma AdmissibleAgrees(env: Gate.Env, codec: Codec, lib: Library, v: Evidence, digest: Forms.Hex64)
    requires |v.cases| == 1 && Accepted(lib, v) && Referenced(v.cases[0])
    requires v.cases[0].testResult.statementDigest == Forms.DIGEST_PREFIX + digest
    requires TimesInGateRange(v.cases[0]) && v.tool.artifact.digest == Gate.TOOL_DIGEST
    ensures var trs := [Gate.TestResult(TestResultJson(v, v.cases[0]), digest)];
            Gate.CaseAdmissible(env, trs, DeploymentJson(codec, v), CaseJson(v.cases[0])) <==> AdmissionFacts(v)
  {
    hide DeploymentJson, CaseJson, TestResultJson, Gate.LinkageValid, Gate.DeploymentEnforcing;
    hide Gate.CaseTimestampsValid, Gate.Proves, Referenced, CanonicalTimes, TimesInGateRange, SchemaAccepts;
    hide RootValid, RuntimeAdapterValid;
    hide RuntimePolicyValid, EnforcementValid, IdentityAuditValid, ConformanceHeadValid, ExtensionsValid, IntervalValid;
    hide Exercised, TestResultValid, Recorded, Gate.TOOL_DIGEST, Forms.IdValue, Forms.CanonicalDigest, DistinctCases;
    var c := v.cases[0];
    assert c in v.cases;
    assert CaseValid(v, c);
    ProvesAgrees(c, "allowed-action", "allow", "occurred");
    ProvesAgrees(c, "denied-action", "deny", "blocked");
    Enforcing(codec, lib, v);
    LinkageHolds(env, codec, lib, v, digest);
    if c.decision.state == "observed" && c.outcome.state == "verified" {
      CaseTimestamps(v, c);
    }
  }

  lemma OneCaseDistinct(codec: Codec, v: Evidence)
    requires |v.cases| == 1
    ensures Gate.CaseCardinality(DeploymentJson(codec, v))
    ensures GateTheorems.DistinctMembers(DeploymentJson(codec, v), "kind")
    ensures Elements(Gate.CasesOf(DeploymentJson(codec, v))) == {CaseJson(v.cases[0])}
  {
    hide DeploymentJson, CaseJson, PredicateJson, AgentJson, ToolJson, RuntimePolicyJson, EnforcementJson, Dot;
    hide Gate.CasesOf, SubjectJson;
    DeploymentPaths(codec, v);
    var items := [CaseJson(v.cases[0])];
    assert (set x | x in items) == {items[0]};
  }

  /**
   The builder and the gate agree: whatever evidence BuildCase accepts, the gate admits the pair of statements it
   built exactly when the canonical facts are those of a positive, enforced and verified case with the pinned tool
   and times within the gate's clock. Nothing else the gate checks can fail.
   */
  lemma BuiltCaseAdmitted(env: Gate.Env, lib: Library, codec: Codec, e: Evidence, b: Built, x: Json, y: Json)
    requires Agrees(env, lib, codec)
    requires Build(codec, lib, e) == Some(b) && ReadsBack(env, codec, b)
    requires Carries(env, x, b.deployment) && Carries(env, y, b.testResult)
    ensures Gate.Allow(env, [x, y]) <==> AdmissionFacts(b.body)
    ensures Gate.Allow(env, [y, x]) <==> AdmissionFacts(b.body)
  {
    hide Build, Accepted, DeploymentJson, TestResultJson, CaseJson, Gate.EnvelopeValid, Gate.CaseAdmissible;
    hide Gate.Allow, WithDigest, Canon, Generate, Carries, Referenced, CanonicalTimes, TimesInGateRange, CaseValid;
    hide ConformanceHeadValid, Gate.CaseCardinality, GateTheorems.DistinctMembers, Gate.Deployments, Gate.TestResults;
    hide Gate.CasesOf, Exercised, Gate.TOOL_DIGEST, TestResultValid, Elements;
    BuildParts(codec, lib, e);
    BuiltReferenced(codec, lib, e);
    var v := b.body;
    assert env.sha256(b.testResult) == codec.sha256(b.testResult);
    var digest := env.sha256(b.testResult);
    BuiltInput(env, codec, b, x, y);
    Envelope(env, lib, codec, v);
    OneCaseDistinct(codec, v);
    if TimesInGateRange(v.cases[0]) && v.tool.artifact.digest == Gate.TOOL_DIGEST {
      AdmissibleAgrees(env, codec, lib, v, digest);
    }
    GateTheorems.AllowIffDistinctKinds(env, [x, y]);
    assert multiset([x, y]) == multiset([y, x]);
    GateInput.OrderIrrelevant(env, [x, y], [y, x]);
  }

  /**
   Generating again from the completed evidence gives the same body, and building the test result again from the
   completed evidence gives the bytes whose digest the body states.
   */
  lemma BuildReproducible(codec: Codec, lib: Library, e: Evidence)
    requires Build(codec, lib, e).Some?
    ensures var b := Build(codec, lib, e).value;
            && Generate(lib, b.body) == Some(b.body)
            && |b.body.cases| == 1
            && TestResultStatement(codec, b.body, b.body.cases[0]).Some?
            && b.testResult == codec.marshal(TestResultStatement(codec, b.body, b.body.cases[0]).value)
            && b.body.cases[0].testResult.statementDigest == Forms.DIGEST_PREFIX + codec.sha256(b.testResult)
  {
    hide Canon, Generate, TestResultStatement, DeploymentJson, TestResultJson, Accepted, PLACEHOLDER;
    BuildParts(codec, lib, e);
    var v := Canon(WithDigest(e, PLACEHOLDER)).value;
    var unbound := WithDigest(v, "");
    CanonCount(WithDigest(e, PLACEHOLDER));
    var b := Build(codec, lib, e).value;
    assert b.body == WithDigest(unbound, b.body.cases[0].testResult.statementDigest);
    TestResultIgnoresDigest(codec, unbound, b.body.cases[0].testResult.statementDigest);
  }
}
