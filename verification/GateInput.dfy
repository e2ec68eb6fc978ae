/** How the verdict depends on the list of bundles, and what an admitted list is known to contain. */
module GateInput {
  import opened RawBytes
  import opened Json
  import opened Rego
  import opened Lists
  import opened Gate
  import opened GateTheorems

  // ----- the verdict reads little of the input -----

  /** Two inputs show the rules the same: the same deployments, and for each case the same pairing. */
  predicate LookAlike(env: Env, a: seq<Json>, b: seq<Json>) {
    && |Deployments(env, a)| == |Deployments(env, b)|
    && ToSet(Deployments(env, a)) == ToSet(Deployments(env, b))
    && forall s, c | s in Deployments(env, a) && c in Elements(CasesOf(s)) ::
         SamePairing(TestResults(env, a), TestResults(env, b), IdOf(c))
  }

  predicate SamePairing(x: seq<TestResult>, y: seq<TestResult>, id: Term) {
    var p, q := CaseTestResults(x, id), CaseTestResults(y, id);
    |p| == |q| && (|p| == 1 ==> p == q)
  }

  lemma SamePairingSameRules(env: Env, x: seq<TestResult>, y: seq<TestResult>, s: Json, c: Json, r: CaseRule)
    requires SamePairing(x, y, IdOf(c))
    ensures CaseRuleFires(env, x, r, s, c) == CaseRuleFires(env, y, r, s, c)
  {
    hide TestResultValid, CaseTimestampsValid, DeploymentEnforcing, CaseTestResults;
  }

  lemma LookAlikeIncluded(env: Env, a: seq<Json>, b: seq<Json>)
    requires LookAlike(env, a, b)
    ensures Violations(env, a) <= Violations(env, b)
  {
    hide CaseRuleFires, AgentRuleFires, SamePairing, CaseTestResults, AgentRefOf, CaseRefOf;
    var x, y := TestResults(env, a), TestResults(env, b);
    assert forall s :: s in Deployments(env, a) <==> s in ToSet(Deployments(env, a));
    assert forall s :: s in Deployments(env, b) <==> s in ToSet(Deployments(env, b));
    forall s, c, r: CaseRule | s in Deployments(env, a) && c in Elements(CasesOf(s))
      ensures CaseRuleFires(env, x, r, s, c) == CaseRuleFires(env, y, r, s, c)
    {
      SamePairingSameRules(env, x, y, s, c, r);
    }
  }

  lemma LookAlikeSymmetric(env: Env, a: seq<Json>, b: seq<Json>)
    requires LookAlike(env, a, b)
    ensures LookAlike(env, b, a)
  {
    hide CaseTestResults;
    assert forall s | s in Deployments(env, b) :: s in ToSet(Deployments(env, b));
  }

  lemma LookAlikeSameVerdict(env: Env, a: seq<Json>, b: seq<Json>)
    requires LookAlike(env, a, b)
    ensures Violations(env, a) == Violations(env, b)
    ensures Allow(env, a) == Allow(env, b)
  {
    hide Violations, PositiveDerivation, LookAlike;
    LookAlikeIncluded(env, a, b);
    LookAlikeSymmetric(env, a, b);
    LookAlikeIncluded(env, b, a);
    AllowIffNoViolations(env, a);
    AllowIffNoViolations(env, b);
  }

  // ----- order -----

  lemma PermutedPairing(x: seq<TestResult>, y: seq<TestResult>, id: Term)
    requires multiset(x) == multiset(y)
    ensures SamePairing(x, y, id)
  {
    CollectPermuted(ClaimReader(id), x, y);
    PermutedSize(CaseTestResults(x, id), CaseTestResults(y, id));
  }

  /** The verdict and everything reported are the same however the bundles are ordered. */
  lemma OrderIrrelevant(env: Env, a: seq<Json>, b: seq<Json>)
    requires multiset(a) == multiset(b)
    ensures Allow(env, a) == Allow(env, b)
    ensures Violations(env, a) == Violations(env, b)
  {
    hide Allow, Violations, SamePairing;
    CollectPermuted(PayloadReader(env), a, b);
    CollectPermuted(DeploymentReader(env), Payloads(env, a), Payloads(env, b));
    CollectPermuted(TestResultReader(env), Payloads(env, a), Payloads(env, b));
    PermutedSize(Deployments(env, a), Deployments(env, b));
    forall id: Term
      ensures SamePairing(TestResults(env, a), TestResults(env, b), id)
    {
      PermutedPairing(TestResults(env, a), TestResults(env, b), id);
    }
    LookAlikeSameVerdict(env, a, b);
  }

  // ----- one more bundle -----

  lemma Appended(env: Env, input: seq<Json>, bundle: Json)
    ensures Payloads(env, input + [bundle]) == Payloads(env, input) + Payloads(env, [bundle])
    ensures Deployments(env, input + [bundle]) == Deployments(env, input) + Deployments(env, [bundle])
    ensures TestResults(env, input + [bundle]) == TestResults(env, input) + TestResults(env, [bundle])
  {
    CollectAppend(PayloadReader(env), input, [bundle]);
    CollectAppend(DeploymentReader(env), Payloads(env, input), Payloads(env, [bundle]));
    CollectAppend(TestResultReader(env), Payloads(env, input), Payloads(env, [bundle]));
  }

  lemma PairedAppended(x: seq<TestResult>, y: seq<TestResult>, id: Term)
    ensures CaseTestResults(x + y, id) == CaseTestResults(x, id) + CaseTestResults(y, id)
  {
    CollectAppend(ClaimReader(id), x, y);
  }

  /** A bundle of another payload or predicate type, one that cannot be decoded, or one that claims no case. */
  predicate Irrelevant(env: Env, input: seq<Json>, bundle: Json) {
    var payload := PayloadOf(env, bundle);
    payload.Some? ==>
      && StatementOf(env, payload.value, DEPLOYMENT_TYPE).None?
      && var stmt := StatementOf(env, payload.value, TEST_RESULT_TYPE);
         stmt.Some? ==>
           forall s, c | s in Deployments(env, input) && c in Elements(CasesOf(s)) ::
             !Eq(CaseIdClaimed(TestResult(stmt.value, env.sha256(payload.value))), IdOf(c))
  }

  lemma OneBundle(env: Env, bundle: Json)
    ensures Payloads(env, [bundle]) ==
      match PayloadOf(env, bundle) case None => [] case Some(payload) => [payload]
  {
    CollectOne(PayloadReader(env), bundle);
  }

  lemma OnePayload(env: Env, payload: Bytes)
    ensures Collect(DeploymentReader(env), [payload]) ==
      match StatementOf(env, payload, DEPLOYMENT_TYPE) case None => [] case Some(s) => [s]
    ensures Collect(TestResultReader(env), [payload]) ==
      match StatementOf(env, payload, TEST_RESULT_TYPE)
      case None => []
      case Some(s) => [TestResult(s, env.sha256(payload))]
  {
    CollectOne(DeploymentReader(env), payload);
    CollectOne(TestResultReader(env), payload);
  }

  lemma OneResult(t: TestResult, id: Term)
    ensures CaseTestResults([t], id) == if Eq(CaseIdClaimed(t), id) then [t] else []
  {
    CollectOne(ClaimReader(id), t);
  }

  lemma IrrelevantShows(env: Env, input: seq<Json>, bundle: Json)
    requires Irrelevant(env, input, bundle)
    ensures LookAlike(env, input, input + [bundle])
  {
    var x, y := TestResults(env, input), TestResults(env, [bundle]);
    Appended(env, input, bundle);
    OneBundle(env, bundle);
    if PayloadOf(env, bundle).Some? {
      OnePayload(env, PayloadOf(env, bundle).value);
    }
    assert Deployments(env, [bundle]) == [];
    forall s, c | s in Deployments(env, input) && c in Elements(CasesOf(s))
      ensures SamePairing(x, x + y, IdOf(c))
    {
      PairedAppended(x, y, IdOf(c));
      if y != [] {
        OneResult(y[0], IdOf(c));
        assert y == [y[0]];
      }
    }
  }

  lemma Inserted(l: seq<Json>, bundle: Json, r: seq<Json>)
    ensures multiset(l + [bundle] + r) == multiset(l + r + [bundle])
  {
    assert multiset(l + [bundle] + r) == multiset(l) + multiset{bundle} + multiset(r);
    assert multiset(l + r + [bundle]) == multiset(l) + multiset(r) + multiset{bundle};
  }

  /** Wherever an irrelevant bundle is put, nothing about the verdict or the report changes. */
  lemma IrrelevantBundle(env: Env, l: seq<Json>, bundle: Json, r: seq<Json>)
    requires Irrelevant(env, l + r, bundle)
    ensures Allow(env, l + [bundle] + r) == Allow(env, l + r)
    ensures Violations(env, l + [bundle] + r) == Violations(env, l + r)
  {
    hide Allow, Violations, LookAlike, Irrelevant;
    Inserted(l, bundle, r);
    OrderIrrelevant(env, l + [bundle] + r, l + r + [bundle]);
    IrrelevantShows(env, l + r, bundle);
    LookAlikeSameVerdict(env, l + r, l + r + [bundle]);
  }

  /** Wherever a second deployment statement is put, an admitted input is denied. */
  lemma SecondDeploymentDenies(env: Env, l: seq<Json>, bundle: Json, r: seq<Json>)
    requires Allow(env, l + r)
    requires PayloadOf(env, bundle).Some?
    requires StatementOf(env, PayloadOf(env, bundle).value, DEPLOYMENT_TYPE).Some?
    ensures !Allow(env, l + [bundle] + r)
  {
    hide EnvelopeValid, CaseAdmissible, CaseCardinality;
    Inserted(l, bundle, r);
    OrderIrrelevant(env, l + [bundle] + r, l + r + [bundle]);
    Appended(env, l + r, bundle);
    OneBundle(env, bundle);
    OnePayload(env, PayloadOf(env, bundle).value);
  }

  lemma SecondClaimBreaks(env: Env, trs: seq<TestResult>, t: TestResult, s: Json, c: Json)
    requires LinkageValid(env, trs, s, c) && Eq(CaseIdClaimed(t), IdOf(c))
    ensures !LinkageValid(env, trs + [t], s, c)
  {
    hide TestResultValid;
    PairedAppended(trs, [t], IdOf(c));
    OneResult(t, IdOf(c));
  }

  /** Any further test result that claims an admitted case, a byte-identical copy included, denies. */
  lemma SecondClaimDenies(env: Env, l: seq<Json>, bundle: Json, r: seq<Json>, c: Json)
    requires Allow(env, l + r)
    requires c in Elements(CasesOf(Deployments(env, l + r)[0]))
    requires PayloadOf(env, bundle).Some?
    requires StatementOf(env, PayloadOf(env, bundle).value, TEST_RESULT_TYPE).Some?
    requires var payload := PayloadOf(env, bundle).value;
             var t := TestResult(StatementOf(env, payload, TEST_RESULT_TYPE).value, env.sha256(payload));
             Eq(CaseIdClaimed(t), IdOf(c))
    ensures !Allow(env, l + [bundle] + r)
  {
    hide EnvelopeValid, CaseCardinality, LinkageValid, Violations;
    Inserted(l, bundle, r);
    OrderIrrelevant(env, l + [bundle] + r, l + r + [bundle]);
    Appended(env, l + r, bundle);
    OneBundle(env, bundle);
    var payload := PayloadOf(env, bundle).value;
    OnePayload(env, payload);
    var s, trs := Deployments(env, l + r)[0], TestResults(env, l + r);
    var t := TestResult(StatementOf(env, payload, TEST_RESULT_TYPE).value, env.sha256(payload));
    assert CaseAdmissible(env, trs, s, c);
    SecondClaimBreaks(env, trs, t, s, c);
  }
}
