/** What an admitted input is known to hold: for every case one signed test result that repeats its facts. */
module GatePairing {
  import opened Wrappers
  import opened RawBytes
  import opened Json
  import opened Rego
  import opened Lists
  import opened Gate
  import opened GateTheorems
  import Forms

  /** The annotations an admitted test result carries, member by member: the facts of its case and nothing else. */
  function CaseFacts(s: Json, c: Json): map<string, Term> {
    map[
      AnnKey("agentDigest") := Dot(AgentOf(s), "artifactDigest"),
      AnnKey("caseId") := IdOf(c),
      AnnKey("correlationId") := Dot(Some(c), "correlationId"),
      AnnKey("decisionState") := Text("observed"),
      AnnKey("decisionVerdict") := Dot(DecisionOf(c), "verdict"),
      AnnKey("outcomeState") := Text("verified"),
      AnnKey("outcomeResult") := Dot(OutcomeOf(c), "result"),
      AnnKey("decisionDigest") := Dot(Dot(DecisionOf(c), "reference"), "digest"),
      AnnKey("resultArtifactDigest") := Dot(Dot(OutcomeOf(c), "reference"), "digest")
    ]
  }

  /** Annotations and case facts have the same members with the same values. */
  predicate Repeats(annotations: Term, facts: map<string, Term>) {
    && annotations.Some?
    && annotations.value.Obj?
    && annotations.value.fields.Keys == facts.Keys
    && forall k | k in facts :: Dot(annotations, k) == facts[k]
  }

  /** The payload behind the test result is bound to the case, the agent and the pinned tool. */
  predicate Binds(env: Env, s: Json, c: Json, payload: Bytes) {
    var stmt := env.unmarshal(payload);
    && stmt.Some?
    && EqText(Dot(Dot(Some(c), "testResult"), "statementDigest"), Forms.DIGEST_PREFIX + env.sha256(payload))
    && Count(SubjectOf(stmt.value)) == Some(1)
    && (exists sub, dsub | sub in Elements(SubjectOf(stmt.value)) && dsub in Elements(SubjectOf(s)) ::
          SameSubject(sub, dsub) && SubjectIsAgent(env, s, dsub))
    && Sha256Text(env, Dot(Dot(Descriptor(stmt.value), "digest"), "sha256")) == Text(TOOL_DIGEST)
    && Repeats(Dot(Descriptor(stmt.value), "annotations"), CaseFacts(s, c))
  }

  function AllKeys(): set<string> {
    {AnnKey("agentDigest"), AnnKey("caseId"), AnnKey("correlationId"), AnnKey("decisionState"),
     AnnKey("decisionVerdict"), AnnKey("outcomeState"), AnnKey("outcomeResult"),
     AnnKey("decisionDigest"), AnnKey("resultArtifactDigest")}
  }

  /** Only an object has named members, so its key set decides its members. */
  lemma KeysDecide(t: Term, keys: set<string>)
    requires Keys(t) == set k | k in keys :: Str(k)
    requires keys != {}
    ensures t.Some? && t.value.Obj? && t.value.fields.Keys == keys
  {
    var k :| k in keys;
    assert Str(k) in Keys(t);
    forall k
      ensures k in t.value.fields <==> k in keys
    {
      assert Str(k) in Keys(t) <==> k in keys;
    }
  }

  lemma ExpectedInFull(c: Json)
    requires EqText(Dot(DecisionOf(c), "state"), "observed") && EqText(Dot(OutcomeOf(c), "state"), "verified")
    ensures ExpectedAnnotationKeys(c) == set k | k in AllKeys() :: Str(k)
  {
  }

  lemma AnnotationValues(s: Json, c: Json, t: TestResult)
    requires AnnotationsValid(s, c, Descriptor(t.stmt)) && Eq(CaseIdClaimed(t), IdOf(c))
    requires EqText(Dot(DecisionOf(c), "state"), "observed") && EqText(Dot(OutcomeOf(c), "state"), "verified")
    ensures forall k | k in CaseFacts(s, c) :: Dot(Dot(Descriptor(t.stmt), "annotations"), k) == CaseFacts(s, c)[k]
  {
    hide ExpectedAnnotationKeys, Keys, Dot, Descriptor, AgentOf, DecisionOf, OutcomeOf, IdOf;
  }

  lemma AnnotationsRepeat(s: Json, c: Json, t: TestResult)
    requires AnnotationsValid(s, c, Descriptor(t.stmt)) && Eq(CaseIdClaimed(t), IdOf(c))
    requires EqText(Dot(DecisionOf(c), "state"), "observed") && EqText(Dot(OutcomeOf(c), "state"), "verified")
    ensures Repeats(Dot(Descriptor(t.stmt), "annotations"), CaseFacts(s, c))
  {
    hide ExpectedAnnotationKeys, Keys, AnnKey;
    ExpectedInFull(c);
    KeysDecide(Dot(Descriptor(t.stmt), "annotations"), AllKeys());
    AnnotationValues(s, c, t);
  }

  lemma Paired(trs: seq<TestResult>, id: Term, t: TestResult)
    requires t in CaseTestResults(trs, id)
    ensures t in trs && Eq(CaseIdClaimed(t), id)
  {
    CollectMember(ClaimReader(id), trs, t);
  }

  /** The one subject of an admitted deployment, which every paired test result shares, is the agent. */
  lemma SharedSubject(env: Env, s: Json, sub: Json)
    requires Count(SubjectOf(s)) == Some(1) && sub in Elements(SubjectOf(s))
    requires exists x | x in Elements(SubjectOf(s)) :: SubjectIsAgent(env, s, x)
    ensures SubjectIsAgent(env, s, sub)
  {
    var x :| x in Elements(SubjectOf(s)) && SubjectIsAgent(env, s, x);
    OneElement(SubjectOf(s), x, sub);
  }

  lemma ValidBinds(env: Env, s: Json, c: Json, t: TestResult, payload: Bytes)
    requires TestResultValid(env, s, c, t) && Eq(CaseIdClaimed(t), IdOf(c)) && ControlledToolValid(s)
    requires EqText(Dot(DecisionOf(c), "state"), "observed") && EqText(Dot(OutcomeOf(c), "state"), "verified")
    requires Count(SubjectOf(s)) == Some(1)
    requires exists x | x in Elements(SubjectOf(s)) :: SubjectIsAgent(env, s, x)
    requires env.unmarshal(payload) == Some(t.stmt) && env.sha256(payload) == t.digest
    ensures Binds(env, s, c, payload)
  {
    hide AnnotationsValid, Repeats, SubjectIsAgent, ResultProfileValid, ResultUrlValid, CaseFacts;
    AnnotationsRepeat(s, c, t);
    var tsub, dsub :| tsub in Elements(SubjectOf(t.stmt)) && dsub in Elements(SubjectOf(s)) && SameSubject(tsub, dsub);
    SharedSubject(env, s, dsub);
  }

  /** The payloads that carry the test result paired with each case, case by case. */
  predicate PairsOff(env: Env, input: seq<Json>, s: Json, partners: seq<Bytes>)
    requires CaseCardinality(s)
  {
    var cases := CasesOf(s).value.items;
    && |partners| == |cases|
    && NoDuplicates(partners)
    && forall i | 0 <= i < |cases| ::
         && partners[i] in Payloads(env, input)
         && StatementOf(env, partners[i], TEST_RESULT_TYPE).Some?
         && Binds(env, s, cases[i], partners[i])
         && (|| Proves(cases[i], "allowed-action", "allow", "occurred")
             || Proves(cases[i], "denied-action", "deny", "blocked"))
  }

  lemma PartnerOf(env: Env, input: seq<Json>, s: Json, c: Json) returns (payload: Bytes)
    requires EnvelopeValid(env, s) && CaseAdmissible(env, TestResults(env, input), s, c)
    ensures payload in Payloads(env, input)
    ensures StatementOf(env, payload, TEST_RESULT_TYPE).Some?
    ensures Binds(env, s, c, payload)
    ensures var t := TestResult(StatementOf(env, payload, TEST_RESULT_TYPE).value, env.sha256(payload));
            Eq(CaseIdClaimed(t), IdOf(c))
  {
    hide NestedCoreShape, AdapterValid, DeploymentEnforcing, CaseTimestampsValid, TestResultValid, Binds;
    hide SubjectIsAgent, ControlledToolValid, CaseTestResults, AllowedRootKey;
    var trs := TestResults(env, input);
    var t := CaseTestResults(trs, IdOf(c))[0];
    Paired(trs, IdOf(c), t);
    CollectMember(TestResultReader(env), Payloads(env, input), t);
    payload :| payload in Payloads(env, input) && TestResultReader(env)(payload) == Some(t);
    ValidBinds(env, s, c, t, payload);
  }

  /** The id that the test result in a payload claims. */
  function ClaimOf(env: Env, payload: Bytes): Term {
    var stmt := StatementOf(env, payload, TEST_RESULT_TYPE);
    if stmt.None? then None else CaseIdClaimed(TestResult(stmt.value, env.sha256(payload)))
  }

  lemma {:induction false} PartnersOf(env: Env, input: seq<Json>, s: Json, cases: seq<Json>)
    returns (partners: seq<Bytes>)
    requires EnvelopeValid(env, s)
    requires forall c | c in cases :: CaseAdmissible(env, TestResults(env, input), s, c)
    ensures |partners| == |cases|
    ensures forall i | 0 <= i < |cases| ::
      && partners[i] in Payloads(env, input)
      && StatementOf(env, partners[i], TEST_RESULT_TYPE).Some?
      && Binds(env, s, cases[i], partners[i])
      && Eq(ClaimOf(env, partners[i]), IdOf(cases[i]))
  {
    hide EnvelopeValid, CaseAdmissible, Binds;
    if cases == [] {
      partners := [];
    } else {
      var first := PartnerOf(env, input, s, cases[0]);
      var rest := PartnersOf(env, input, s, cases[1..]);
      partners := [first] + rest;
    }
  }

  lemma AdmittedParts(env: Env, input: seq<Json>) returns (s: Json)
    requires Allow(env, input)
    ensures Deployments(env, input) == [s]
    ensures EnvelopeValid(env, s) && CaseCardinality(s) && DistinctMembers(s, "id")
    ensures forall c | c in CasesOf(s).value.items :: CaseAdmissible(env, TestResults(env, input), s, c)
  {
    hide EnvelopeValid, Violations, CaseAdmissible, DistinctMembers;
    s := Deployments(env, input)[0];
    AdmittedCases(env, input);
    assert forall c | c in CasesOf(s).value.items :: c in Elements(CasesOf(s));
  }

  lemma DistinctPartners(env: Env, cases: seq<Json>, partners: seq<Bytes>)
    requires |partners| == |cases|
    requires forall i, j | 0 <= i < j < |cases| :: IdOf(cases[i]) != IdOf(cases[j])
    requires forall i | 0 <= i < |cases| :: Eq(ClaimOf(env, partners[i]), IdOf(cases[i]))
    ensures NoDuplicates(partners)
  {
    hide ClaimOf;
  }

  /**
   If the gate allows, the cases are paired off, one to one, with signed test results in the input. Each payload
   hashes to the digest its case states, shares the agent as its one subject, is bound to the pinned tool and
   repeats the facts of its case in its annotations. No case with an unobserved decision or an unknown outcome
   is among them.
   */
  lemma AdmittedPairsOff(env: Env, input: seq<Json>) returns (s: Json, partners: seq<Bytes>)
    requires Allow(env, input)
    ensures Deployments(env, input) == [s]
    ensures CaseCardinality(s)
    ensures PairsOff(env, input, s, partners)
  {
    hide EnvelopeValid, Binds, Allow, Proves, LinkageValid, DeploymentEnforcing, CaseTimestampsValid, ClaimOf;
    hide Payloads, StatementOf, Deployments, TestResults;
    s := AdmittedParts(env, input);
    var cases := CasesOf(s).value.items;
    partners := PartnersOf(env, input, s, cases);
    DistinctPartners(env, cases, partners);
    assert forall i | 0 <= i < |cases| :: CaseAdmissible(env, TestResults(env, input), s, cases[i]);
  }
}
