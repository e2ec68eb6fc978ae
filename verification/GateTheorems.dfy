/** What the gate promises over every list of bundles. */
module GateTheorems {
  import opened Wrappers
  import opened Json
  import opened Rego
  import opened Lists
  import opened Gate

  /** No rule about the deployment statement speaks of s. */
  predicate AgentQuiet(env: Env, s: Json) {
    forall r: AgentRule :: !AgentRuleFires(env, r, s)
  }

  /** No rule about a case speaks of any case of s. */
  predicate CasesQuiet(env: Env, trs: seq<TestResult>, s: Json) {
    forall c, r: CaseRule | c in Elements(CasesOf(s)) :: !CaseRuleFires(env, trs, r, s, c)
  }

  /** The violation set is empty exactly when no rule fires: every message is formed. */
  lemma NoViolations(env: Env, input: seq<Json>)
    ensures Violations(env, input) == {} <==>
      && |Deployments(env, input)| == 1
      && (forall s | s in Deployments(env, input) ::
            AgentQuiet(env, s) && CasesQuiet(env, TestResults(env, input), s))
  {
    var ds, trs := Deployments(env, input), TestResults(env, input);
    var v := Violations(env, input);
    if |ds| != 1 {
      assert DeploymentCount(|ds|) in v;
    } else if s, r: AgentRule :| s in ds && AgentRuleFires(env, r, s) {
      assert OfAgent(r, AgentRefOf(s)) in v;
    } else if s, c, r: CaseRule :| s in ds && c in Elements(CasesOf(s)) && CaseRuleFires(env, trs, r, s, c) {
      assert OfCase(r, AgentRefOf(s), CaseRefOf(c)) in v;
    }
  }

  lemma QuietShape(env: Env, s: Json)
    requires AgentQuiet(env, s)
    ensures NestedCoreShape(env, s)
  {
    assert !AgentRuleFires(env, BadNestedShape, s);
  }

  lemma QuietRoot(env: Env, s: Json)
    requires AgentQuiet(env, s)
    ensures EqText(Dot(Some(s), "_type"), STATEMENT_TYPE) && EqText(Dot(PredicateOf(s), "schemaVersion"), "0.1")
    ensures RequiredRootKeysPresent(s)
    ensures forall k | k in Keys(PredicateOf(s)) :: AllowedRootKey(k)
  {
    assert !AgentRuleFires(env, WrongStatementType, s);
    assert !AgentRuleFires(env, WrongSchemaVersion, s);
    assert !AgentRuleFires(env, MissingRootKeys, s);
    assert !AgentRuleFires(env, UnexpectedRootKey, s);
  }

  lemma QuietFacts(env: Env, s: Json)
    requires AgentQuiet(env, s)
    ensures CaseCardinality(s) && ControlledToolValid(s) && AdapterValid(s)
  {
    assert !AgentRuleFires(env, BadCardinality, s);
    assert !AgentRuleFires(env, BadControlledTool, s);
    assert !AgentRuleFires(env, BadAdapter, s);
  }

  /** What the subject rules say when they are silent, which is nothing about a subject they cannot read. */
  predicate SubjectsQuiet(env: Env, s: Json) {
    && (Count(SubjectOf(s)).Some? ==> Count(SubjectOf(s)).value == 1)
    && (forall sub | sub in Elements(SubjectOf(s)) ::
          && !Neq(Dot(Some(sub), "name"), Dot(AgentOf(s), "name"))
          && !Neq(Sha256Text(env, Dot(Dot(Some(sub), "digest"), "sha256")), Dot(AgentOf(s), "artifactDigest")))
  }

  lemma QuietSubjects(env: Env, s: Json)
    requires AgentQuiet(env, s)
    ensures SubjectsQuiet(env, s)
  {
    assert !AgentRuleFires(env, SubjectCount, s);
    assert !AgentRuleFires(env, SubjectName, s);
    assert !AgentRuleFires(env, SubjectDigest, s);
  }

  lemma QuietCaseFacts(env: Env, trs: seq<TestResult>, s: Json, c: Json)
    requires OneOf(Dot(Some(c), "kind"), CASE_KINDS) && DecisionShape(DecisionOf(c)) && OutcomeShape(OutcomeOf(c))
    requires forall r: CaseRule :: !CaseRuleFires(env, trs, r, s, c)
    ensures PositiveKind(c)
    ensures Proves(c, "allowed-action", "allow", "occurred") || Proves(c, "denied-action", "deny", "blocked")
  {
    assert !CaseRuleFires(env, trs, AdapterBypass, s, c);
    assert !CaseRuleFires(env, trs, NoPolicyLoaded, s, c);
    assert !CaseRuleFires(env, trs, DecisionNotObserved, s, c);
    assert !CaseRuleFires(env, trs, OutcomeNotVerified, s, c);
    assert !CaseRuleFires(env, trs, AllowedVerdict, s, c);
    assert !CaseRuleFires(env, trs, DeniedVerdict, s, c);
    assert !CaseRuleFires(env, trs, AllowedResult, s, c);
    assert !CaseRuleFires(env, trs, DeniedResult, s, c);
  }

  lemma QuietCaseTimes(env: Env, trs: seq<TestResult>, s: Json, c: Json)
    requires PositiveKind(c) && !CaseRuleFires(env, trs, BadTimestamps, s, c)
    ensures CaseTimestampsValid(c)
  {
  }

  lemma QuietCaseEnforcing(env: Env, trs: seq<TestResult>, s: Json, c: Json)
    requires PositiveKind(c) && !CaseRuleFires(env, trs, NotEnforcing, s, c)
    ensures DeploymentEnforcing(s)
  {
  }

  lemma QuietCaseLink(env: Env, trs: seq<TestResult>, s: Json, c: Json)
    requires !CaseRuleFires(env, trs, NoPairedResult, s, c) && !CaseRuleFires(env, trs, AmbiguousResults, s, c)
    requires !CaseRuleFires(env, trs, BadCrossBinding, s, c)
    ensures LinkageValid(env, trs, s, c)
  {
  }

  /** A well-formed case that no rule speaks of is admissible. */
  lemma QuietCase(env: Env, trs: seq<TestResult>, s: Json, c: Json)
    requires CaseShape(c)
    requires forall r: CaseRule :: !CaseRuleFires(env, trs, r, s, c)
    ensures CaseAdmissible(env, trs, s, c)
  {
    QuietCaseFacts(env, trs, s, c);
    QuietCaseTimes(env, trs, s, c);
    QuietCaseEnforcing(env, trs, s, c);
    QuietCaseLink(env, trs, s, c);
  }

  /**
   The subject rules skip a subject that is missing or has the wrong type. The cross-binding of any one case
   catches it, because it compares the two signed subjects.
   */
  lemma SubjectCaught(env: Env, s: Json, c: Json, t: TestResult)
    requires AgentShape(env, AgentOf(s)) && TestResultValid(env, s, c, t)
    requires SubjectsQuiet(env, s)
    ensures Count(SubjectOf(s)) == Some(1)
    ensures exists sub | sub in Elements(SubjectOf(s)) :: SubjectIsAgent(env, s, sub)
  {
    hide AnnotationsValid, ResultProfileValid, ResultUrlValid, Descriptor, ToolOf, PredicateOf;
    var tsub, dsub :| tsub in Elements(SubjectOf(t.stmt)) && dsub in Elements(SubjectOf(s)) && SameSubject(tsub, dsub);
    assert SubjectIsAgent(env, s, dsub);
  }

  lemma ShapeParts(env: Env, s: Json)
    requires NestedCoreShape(env, s)
    ensures AgentShape(env, AgentOf(s))
    ensures forall c | c in Elements(CasesOf(s)) :: CaseShape(c)
  {
  }

  lemma QuietDerives(env: Env, trs: seq<TestResult>, s: Json)
    requires AgentQuiet(env, s) && CasesQuiet(env, trs, s)
    ensures EnvelopeValid(env, s) && CaseCardinality(s)
    ensures forall c | c in Elements(CasesOf(s)) :: CaseAdmissible(env, trs, s, c)
  {
    hide AgentQuiet, AgentRuleFires, CaseRuleFires, ControlledToolValid, AdapterValid, TestResultValid;
    hide CaseTimestampsValid, DeploymentEnforcing, Proves, SubjectIsAgent, SubjectsQuiet, NestedCoreShape;
    hide AgentShape, CaseShape, RequiredRootKeysPresent;
    QuietShape(env, s);
    ShapeParts(env, s);
    QuietRoot(env, s);
    QuietFacts(env, s);
    QuietSubjects(env, s);
    forall c | c in Elements(CasesOf(s))
      ensures CaseAdmissible(env, trs, s, c)
    {
      QuietCase(env, trs, s, c);
    }
    var c := CasesOf(s).value.items[0];
    assert CaseAdmissible(env, trs, s, c);
    SubjectCaught(env, s, c, CaseTestResults(trs, IdOf(c))[0]);
    RootIterable(s);
  }

  lemma RootIterable(s: Json)
    requires RequiredRootKeysPresent(s)
    ensures Iterable(PredicateOf(s))
  {
  }

  /**
   The two derivations of the verdict agree on every input: allow holds exactly when nothing is reported. So
   every denial is attributed, and everything reported denies.
   */
  lemma AllowIffNoViolations(env: Env, input: seq<Json>)
    ensures Allow(env, input) <==> Violations(env, input) == {}
  {
    NoViolations(env, input);
    if Violations(env, input) == {} {
      QuietDerives(env, TestResults(env, input), Deployments(env, input)[0]);
    }
  }

  // ----- what the positive derivation already implies -----

  /** No two cases, by position, agree on a member. */
  predicate DistinctMembers(s: Json, key: string)
    requires CaseCardinality(s)
  {
    var items := CasesOf(s).value.items;
    forall i, j | 0 <= i < j < |items| :: Dot(Some(items[i]), key) != Dot(Some(items[j]), key)
  }

  /** The violation rules count distinct values; that is distinctness by position. */
  lemma DistinctByCount(s: Json, key: string)
    requires CaseCardinality(s)
    requires forall c | c in Elements(CasesOf(s)) :: Dot(Some(c), key).Some?
    ensures |MemberValues(CasesOf(s), key)| == |CasesOf(s).value.items| <==> DistinctMembers(s, key)
  {
    var items := CasesOf(s).value.items;
    assert forall i | 0 <= i < |items| :: items[i] in Elements(CasesOf(s));
    var values := seq(|items|, i requires 0 <= i < |items| => Dot(Some(items[i]), key).value);
    assert MemberValues(CasesOf(s), key) == ToSet(values) by {
      assert forall i | 0 <= i < |items| :: values[i] == Dot(Some(items[i]), key).value;
    }
    CountDistinct(values);
    assert NoDuplicates(values) <==> DistinctMembers(s, key) by {
      assert forall i | 0 <= i < |items| :: Dot(Some(items[i]), key) == Some(values[i]);
    }
  }

  /** Two admissible cases with one id bind one test result, whose annotations give both the same verdict. */
  lemma SameIdSameKind(env: Env, trs: seq<TestResult>, s: Json, c1: Json, c2: Json)
    requires CaseAdmissible(env, trs, s, c1) && CaseAdmissible(env, trs, s, c2)
    requires IdOf(c1) == IdOf(c2)
    ensures Dot(Some(c1), "kind") == Dot(Some(c2), "kind")
  {
    var t := CaseTestResults(trs, IdOf(c1))[0];
    SameVerdict(s, c1, c2, Descriptor(t.stmt));
  }

  lemma SameVerdict(s: Json, c1: Json, c2: Json, d: Term)
    requires AnnotationsValid(s, c1, d) && AnnotationsValid(s, c2, d)
    ensures Dot(DecisionOf(c1), "verdict") == Dot(DecisionOf(c2), "verdict")
  {
  }

  lemma DistinctIds(env: Env, trs: seq<TestResult>, s: Json)
    requires CaseCardinality(s) && DistinctMembers(s, "kind")
    requires forall c | c in Elements(CasesOf(s)) :: CaseAdmissible(env, trs, s, c)
    ensures DistinctMembers(s, "id")
  {
    var items := CasesOf(s).value.items;
    forall i, j | 0 <= i < j < |items|
      ensures IdOf(items[i]) != IdOf(items[j])
    {
      assert items[i] in Elements(CasesOf(s)) && items[j] in Elements(CasesOf(s));
      if IdOf(items[i]) == IdOf(items[j]) {
        SameIdSameKind(env, trs, s, items[i], items[j]);
      }
    }
  }

  lemma TwoKinds(items: seq<Json>)
    requires forall i | 0 <= i < |items| :: KindIs(items[i], "allowed-action") || KindIs(items[i], "denied-action")
    ensures |items| <= 2 || exists i, j | 0 <= i < j < |items| ::
      Dot(Some(items[i]), "kind") == Dot(Some(items[j]), "kind")
  {
    if |items| > 2 {
      var a, b, c := Dot(Some(items[0]), "kind"), Dot(Some(items[1]), "kind"), Dot(Some(items[2]), "kind");
      assert a == b || a == c || b == c;
    }
  }

  /** The cardinality rule permits four cases, but only two kinds are ever admissible. */
  lemma AtMostTwo(env: Env, trs: seq<TestResult>, s: Json)
    requires CaseCardinality(s) && DistinctMembers(s, "kind")
    requires forall c | c in Elements(CasesOf(s)) :: CaseAdmissible(env, trs, s, c)
    ensures |CasesOf(s).value.items| <= 2
  {
    var items := CasesOf(s).value.items;
    forall i | 0 <= i < |items|
      ensures KindIs(items[i], "allowed-action") || KindIs(items[i], "denied-action")
    {
      assert items[i] in Elements(CasesOf(s));
    }
    TwoKinds(items);
  }

  lemma EnvelopeQuiet(env: Env, s: Json, r: AgentRule)
    requires EnvelopeValid(env, s) && CaseCardinality(s) && DeploymentEnforcing(s)
    requires r != DuplicateIds && r != DuplicateKinds && r != SubjectName && r != SubjectDigest
    ensures !AgentRuleFires(env, r, s)
  {
  }

  /** A collection of one element has no second. */
  lemma OneElement(t: Term, x: Json, y: Json)
    requires Count(t) == Some(1) && x in Elements(t) && y in Elements(t)
    ensures x == y
  {
    match t.value
    case Arr(items) =>
      assert x == items[0] && y == items[0];
    case Obj(fields) =>
      var j, k :| j in fields && k in fields && fields[j] == x && fields[k] == y;
      OneKey(fields.Keys, j, k);
    case _ =>
  }

  lemma OneKey(keys: set<string>, j: string, k: string)
    requires |keys| == 1 && j in keys && k in keys
    ensures j == k
  {
    assert |keys - {j}| == 0;
  }

  /** The subject that was compared is the only one, so the subject rules have nothing to say. */
  lemma OneSubject(env: Env, s: Json)
    requires Count(SubjectOf(s)) == Some(1)
    requires exists sub | sub in Elements(SubjectOf(s)) :: SubjectIsAgent(env, s, sub)
    ensures SubjectsQuiet(env, s)
  {
    var sub :| sub in Elements(SubjectOf(s)) && SubjectIsAgent(env, s, sub);
    forall x | x in Elements(SubjectOf(s))
      ensures x == sub
    {
      OneElement(SubjectOf(s), x, sub);
    }
  }

  lemma DistinctQuiet(env: Env, s: Json, r: AgentRule)
    requires CaseCardinality(s) && SubjectsQuiet(env, s)
    requires |MemberValues(CasesOf(s), "id")| == |MemberValues(CasesOf(s), "kind")| == |CasesOf(s).value.items|
    requires r == DuplicateIds || r == DuplicateKinds || r == SubjectName || r == SubjectDigest
    ensures !AgentRuleFires(env, r, s)
  {
  }

  lemma CasesShaped(env: Env, s: Json)
    requires EnvelopeValid(env, s)
    ensures forall c | c in Elements(CasesOf(s)) :: IdOf(c).Some? && Dot(Some(c), "kind").Some?
  {
    assert forall c | c in Elements(CasesOf(s)) :: CaseShape(c);
  }

  lemma DerivedAgentQuiet(env: Env, trs: seq<TestResult>, s: Json)
    requires EnvelopeValid(env, s) && CaseCardinality(s) && DistinctMembers(s, "kind")
    requires forall c | c in Elements(CasesOf(s)) :: CaseAdmissible(env, trs, s, c)
    ensures AgentQuiet(env, s)
  {
    hide NestedCoreShape, ControlledToolValid, AdapterValid, LinkageValid, CaseTimestampsValid, AgentRuleFires;
    hide DeploymentEnforcing, Proves, MemberValues;
    assert CasesOf(s).value.items[0] in Elements(CasesOf(s));
    CasesShaped(env, s);
    DistinctIds(env, trs, s);
    DistinctByCount(s, "id");
    DistinctByCount(s, "kind");
    OneSubject(env, s);
    forall r: AgentRule
      ensures !AgentRuleFires(env, r, s)
    {
      if r == DuplicateIds || r == DuplicateKinds || r == SubjectName || r == SubjectDigest {
        DistinctQuiet(env, s, r);
      } else {
        EnvelopeQuiet(env, s, r);
      }
    }
  }

  lemma AdmissibleQuiet(env: Env, trs: seq<TestResult>, s: Json, c: Json, r: CaseRule)
    requires CaseAdmissible(env, trs, s, c)
    ensures !CaseRuleFires(env, trs, r, s, c)
  {
  }

  lemma KindsCount(env: Env, s: Json)
    requires CaseCardinality(s) && !AgentRuleFires(env, DuplicateKinds, s)
    ensures |MemberValues(CasesOf(s), "kind")| == |CasesOf(s).value.items|
  {
  }

  lemma KindsCounted(env: Env, s: Json)
    requires EnvelopeValid(env, s) && CaseCardinality(s) && !AgentRuleFires(env, DuplicateKinds, s)
    ensures DistinctMembers(s, "kind")
  {
    hide EnvelopeValid, AgentRuleFires, MemberValues;
    KindsCount(env, s);
    CasesShaped(env, s);
    DistinctByCount(s, "kind");
  }

  /** The last line of allow, no violations, adds one thing to the positive derivation: distinct case kinds. */
  lemma AllowIffDistinctKinds(env: Env, input: seq<Json>)
    ensures Allow(env, input) <==>
      PositiveDerivation(env, input) && DistinctMembers(Deployments(env, input)[0], "kind")
  {
    hide EnvelopeValid, CaseAdmissible, AgentRuleFires, CaseRuleFires, DistinctMembers, Violations;
    if PositiveDerivation(env, input) {
      var s, trs := Deployments(env, input)[0], TestResults(env, input);
      NoViolations(env, input);
      if AgentQuiet(env, s) {
        KindsCounted(env, s);
      }
      if DistinctMembers(s, "kind") {
        DerivedAgentQuiet(env, trs, s);
        forall c, r: CaseRule | c in Elements(CasesOf(s))
          ensures !CaseRuleFires(env, trs, r, s, c)
        {
          AdmissibleQuiet(env, trs, s, c, r);
        }
      }
    }
  }

  /** Whatever is admitted has distinct ids and at most two cases. */
  lemma AdmittedCases(env: Env, input: seq<Json>)
    requires Allow(env, input)
    ensures |Deployments(env, input)| == 1 && CaseCardinality(Deployments(env, input)[0])
    ensures DistinctMembers(Deployments(env, input)[0], "id")
    ensures |CasesOf(Deployments(env, input)[0]).value.items| <= 2
  {
    AllowIffDistinctKinds(env, input);
    DistinctIds(env, TestResults(env, input), Deployments(env, input)[0]);
    AtMostTwo(env, TestResults(env, input), Deployments(env, input)[0]);
  }
}
