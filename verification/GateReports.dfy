/** What the gate reports, and of whom: each rule by the members it looks at, over every input. */
module GateReports {
  import opened Wrappers
  import opened Json
  import opened EvidenceModel
  import opened EvidenceReader
  import opened GateMeaning
  import opened GateReference
  import Rego
  import Gate
  import GateTheorems
  import Forms

  function CasesAt(s: Json): Doc {
    Field(Field(Field(Some(s), "predicate"), "conformance"), "cases")
  }

  function AgentAt(s: Json): Doc {
    Field(Field(Some(s), "predicate"), "agent")
  }

  /** A case of one of the two kinds that can be admitted. */
  predicate Positive(c: Json) {
    Field(Some(c), "kind") == Some(Str("allowed-action")) || Field(Some(c), "kind") == Some(Str("denied-action"))
  }

  predicate Says(d: Doc, text: string) {
    d == Some(Str(text))
  }

  /** Present, and not the text. */
  predicate SaysOther(d: Doc, text: string) {
    d.Some? && d != Some(Str(text))
  }

  /** The rules about a case that look at its own members and at how many test results claim it. */
  predicate CaseFault(trs: seq<Gate.TestResult>, rule: Gate.CaseRule, c: Json)
    requires rule != Gate.NotEnforcing && rule != Gate.BadCrossBinding
  {
    var kind, id := Field(Some(c), "kind"), Field(Some(c), "id");
    var decision, outcome := Field(Some(c), "decision"), Field(Some(c), "outcome");
    match rule
    case AdapterBypass => Says(kind, "adapter-bypass")
    case NoPolicyLoaded => Says(kind, "no-policy-loaded")
    case BadTimestamps => Positive(c) && !TimesInOrder(c)
    case DecisionNotObserved => Positive(c) && SaysOther(Field(decision, "state"), "observed")
    case AllowedVerdict =>
      Says(kind, "allowed-action") && Says(Field(decision, "state"), "observed")
      && SaysOther(Field(decision, "verdict"), "allow")
    case DeniedVerdict =>
      Says(kind, "denied-action") && Says(Field(decision, "state"), "observed")
      && SaysOther(Field(decision, "verdict"), "deny")
    case OutcomeNotVerified => Positive(c) && SaysOther(Field(outcome, "state"), "verified")
    case AllowedResult =>
      Says(kind, "allowed-action") && Says(Field(outcome, "state"), "verified")
      && SaysOther(Field(outcome, "result"), "occurred")
    case DeniedResult =>
      Says(kind, "denied-action") && Says(Field(outcome, "state"), "verified")
      && SaysOther(Field(outcome, "result"), "blocked")
    case NoPairedResult => Claims(trs, id) == 0
    case AmbiguousResults => Claims(trs, id) > 1
  }

  /** How many test results claim the id; a missing id is claimed by none. */
  function Claims(trs: seq<Gate.TestResult>, id: Doc): nat {
    if trs == [] then 0
    else (if id.Some? && ClaimAt(trs[0].stmt) == id then 1 else 0) + Claims(trs[1..], id)
  }

  lemma {:induction false} ClaimsMean(trs: seq<Gate.TestResult>, id: Doc)
    ensures |Gate.CaseTestResults(trs, id)| == Claims(trs, id)
  {
    hide ClaimAt, Gate.CaseIdClaimed;
    if trs != [] {
      ClaimMeans(trs[0]);
      ClaimsMean(trs[1..], id);
    }
  }

  lemma CaseFaultMeans(env: Gate.Env, trs: seq<Gate.TestResult>, rule: Gate.CaseRule, s: Json, c: Json)
    requires rule != Gate.NotEnforcing && rule != Gate.BadCrossBinding
    ensures Gate.CaseRuleFires(env, trs, rule, s, c) <==> CaseFault(trs, rule, c)
  {
    hide Gate.CaseTestResults, Claims, TimesInOrder, Gate.CaseTimestampsValid, Rego.Dot, Field;
    ClaimsMean(trs, Field(Some(c), "id"));
    TimesMean(c);
    SamePaths(c);
  }

  /** The agent, as a report names it. */
  function AgentNamed(s: Json): Gate.AgentRef {
    var name, digest := ReadText(Field(AgentAt(s), "name")), ReadText(Field(AgentAt(s), "artifactDigest"));
    Gate.AgentRef(
      if name.Some? && 1 <= |name.value| <= 256 && Forms.NoControl(name.value) then name.value else "unknown-agent",
      if digest.Some? && Forms.CanonicalDigest(digest.value) then digest.value else "unknown-digest")
  }

  function CaseNamed(c: Json): Gate.CaseRef {
    var id, kind := ReadText(Field(Some(c), "id")), ReadText(Field(Some(c), "kind"));
    Gate.CaseRef(
      if id.Some? && Forms.IdValue(id.value) then id.value else "unknown-case",
      if kind.Some? && kind.value in {"allowed-action", "denied-action", "adapter-bypass", "no-policy-loaded"}
      then kind.value else "unknown-kind")
  }

  lemma NamesMean(s: Json, c: Json)
    ensures Gate.AgentRefOf(s) == AgentNamed(s) && Gate.CaseRefOf(c) == CaseNamed(c)
  {
    hide Forms.IdValue, Forms.CanonicalDigest, Forms.NoControl;
  }

  /** A case rule is reported, naming agent and case, for exactly the cases at fault. */
  lemma CaseReported(env: Gate.Env, input: seq<Json>, rule: Gate.CaseRule, agent: Gate.AgentRef, case_: Gate.CaseRef)
    requires rule != Gate.NotEnforcing && rule != Gate.BadCrossBinding
    ensures Gate.OfCase(rule, agent, case_) in Gate.Violations(env, input) <==>
      exists s, c | s in DeploymentsAt(env, input) && c in Rego.Elements(CasesAt(s)) ::
        CaseFault(TestResultsAt(env, input), rule, c) && AgentNamed(s) == agent && CaseNamed(c) == case_
  {
    hide Gate.CaseRuleFires, Gate.AgentRuleFires, CaseFault, Gate.AgentRefOf, AgentNamed, Gate.CaseRefOf, CaseNamed;
    hide Gate.CasesOf, CasesAt, Rego.Elements, Gate.Deployments, Gate.TestResults, DeploymentsAt, TestResultsAt;
    InputMeans(env, input);
    forall s, c
      ensures Gate.CasesOf(s) == CasesAt(s)
      ensures Gate.CaseRuleFires(env, TestResultsAt(env, input), rule, s, c) <==>
        CaseFault(TestResultsAt(env, input), rule, c)
      ensures Gate.AgentRefOf(s) == AgentNamed(s) && Gate.CaseRefOf(c) == CaseNamed(c)
    {
      SameCases(s);
      CaseFaultMeans(env, TestResultsAt(env, input), rule, s, c);
      NamesMean(s, c);
    }
  }

  lemma SameCases(s: Json)
    ensures Gate.CasesOf(s) == CasesAt(s)
  {
  }

  /** Anything reported denies. */
  lemma ReportedDenies(env: Gate.Env, input: seq<Json>, v: Gate.Violation)
    requires v in Gate.Violations(env, input)
    ensures !Gate.Allow(env, input)
  {
    hide Gate.PositiveDerivation, Gate.Violations;
  }

  /**
   A case of a positive kind is reported, by name, unless its four times are readable, in order, within five minutes and
   both observations lie inside the interval; and then the input is denied.
   */
  lemma BadTimesReported(env: Gate.Env, input: seq<Json>, s: Json, c: Json)
    requires s in DeploymentsAt(env, input) && c in Rego.Elements(CasesAt(s)) && Positive(c)
    requires var started, completed := Gate.TimestampNs(Field(Some(c), "startedAt")),
                                       Gate.TimestampNs(Field(Some(c), "completedAt"));
             var decided := Gate.TimestampNs(Field(Field(Some(c), "decision"), "observedAt"));
             var seen := Gate.TimestampNs(Field(Field(Some(c), "outcome"), "observedAt"));
             !(&& started.Some? && completed.Some? && decided.Some? && seen.Some?
               && started.value <= decided.value <= completed.value && started.value <= seen.value <= completed.value
               && completed.value - started.value <= 300 * 1000000000)
    ensures Gate.OfCase(Gate.BadTimestamps, AgentNamed(s), CaseNamed(c)) in Gate.Violations(env, input)
    ensures !Gate.Allow(env, input)
  {
    hide Gate.Violations, AgentNamed, CaseNamed, Gate.Allow, Gate.TimestampNs, DeploymentsAt, TestResultsAt, CasesAt;
    hide Rego.Elements;
    CaseReported(env, input, Gate.BadTimestamps, AgentNamed(s), CaseNamed(c));
    ReportedDenies(env, input, Gate.OfCase(Gate.BadTimestamps, AgentNamed(s), CaseNamed(c)));
  }

  /** Every case of an admitted input has readable times in order, within five minutes, both observations inside. */
  lemma AdmittedTimes(env: Gate.Env, input: seq<Json>, s: Json, c: Json)
    requires Gate.Allow(env, input)
    requires s in DeploymentsAt(env, input) && c in Rego.Elements(CasesAt(s))
    ensures var started, completed := Gate.TimestampNs(Field(Some(c), "startedAt")),
                                      Gate.TimestampNs(Field(Some(c), "completedAt"));
            var decided := Gate.TimestampNs(Field(Field(Some(c), "decision"), "observedAt"));
            var seen := Gate.TimestampNs(Field(Field(Some(c), "outcome"), "observedAt"));
            && started.Some? && completed.Some? && decided.Some? && seen.Some?
            && started.value <= decided.value <= completed.value && started.value <= seen.value <= completed.value
            && completed.value - started.value <= 300 * 1000000000
  {
    hide Gate.Violations, Gate.TimestampNs, Gate.EnvelopeValid, Gate.LinkageValid, Gate.DeploymentEnforcing;
    hide Gate.Proves, Gate.CaseTimestampsValid, Gate.CasesOf, CasesAt, Rego.Elements, Gate.Deployments;
    hide Gate.TestResults;
    hide DeploymentsAt, TestResultsAt, Gate.CaseCardinality;
    InputMeans(env, input);
    SameCases(s);
    TimesMean(c);
    assert Gate.CaseAdmissible(env, Gate.TestResults(env, input), s, c);
  }

  // ----- rules about the deployment statement -----

  /** The number of things in a list, an object or a text. */
  function Size(d: Doc): Option<nat> {
    match d
    case Some(Arr(items)) => Some(|items|)
    case Some(Obj(fields)) => Some(|fields|)
    case Some(Str(s)) => Some(|s|)
    case _ => None
  }

  /** What a list or an object holds. */
  function Contents(d: Doc): set<Json> {
    match d
    case Some(Arr(items)) => set x | x in items
    case Some(Obj(fields)) => fields.Values
    case _ => {}
  }

  /** Some member value is missing or repeated, in a collection whose size is known. */
  predicate Repeated(d: Doc, key: string) {
    var values := set x | x in Contents(d) && Field(Some(x), key).Some? :: Field(Some(x), key).value;
    Size(d).Some? && |values| != Size(d).value
  }

  const CORE_MEMBERS: set<string> :=
    {"schemaVersion", "agent", "runtime", "adapter", "runtimePolicy", "enforcement", "identity", "audit", "conformance"}

  predicate CanonicalText(d: Doc) {
    match ReadText(d)
    case Some(s) => Forms.CanonicalDigest(s)
    case None => false
  }

  /** Each rule about a statement but the one on its nested shape. */
  predicate AgentFault(env: Gate.Env, rule: Gate.AgentRule, s: Json)
    requires rule != Gate.BadNestedShape
  {
    var p := Field(Some(s), "predicate");
    match rule
    case WrongStatementType => !Says(Field(Some(s), "_type"), "https://in-toto.io/Statement/v1")
    case WrongSchemaVersion => !Says(Field(p, "schemaVersion"), "0.1")
    case MissingRootKeys => !(CORE_MEMBERS <= MemberNames(p))
    case BadCardinality => (match CasesAt(s) case Some(Arr(items)) => |items| == 0 || |items| > 4 case _ => true)
    case BadControlledTool =>
      var tool := Field(Field(p, "conformance"), "controlledTool");
      !(&& Says(Field(tool, "name"), "write-marker") && Says(Field(tool, "actionClass"), "filesystem.write.marker")
        && Says(Field(Field(tool, "artifact"), "digest"),
                "sha256:" + ("9df776a3bb10bd24bb1693b274a49a1a" + "0e3e74b391d24171f35fc88d77e0b8da")))
    case BadAdapter =>
      var digest := Field(Field(p, "adapter"), "runtimeDigest");
      !(&& Says(Field(Field(p, "adapter"), "contractVersion"), "0.1") && CanonicalText(digest)
        && digest == Field(Field(Field(p, "runtime"), "artifact"), "digest"))
    case BadDefaultBehavior =>
      var behavior := Field(Field(p, "enforcement"), "defaultBehavior");
      !(Says(behavior, "allow") || Says(behavior, "deny"))
    case InconsistentPolicy =>
      var count, loaded := Field(Field(p, "runtimePolicy"), "count"), Field(Field(p, "runtimePolicy"), "loaded");
      !(|| (loaded == Some(Bool(true)) && ReadCount(count).Some? && 1 <= ReadCount(count).value <= 64)
        || (loaded == Some(Bool(false)) && ReadCount(count) == Some(0)))
    case SubjectCount => Size(Field(Some(s), "subject")).Some? && Size(Field(Some(s), "subject")).value != 1
    case SubjectName =>
      exists x | x in Contents(Field(Some(s), "subject")) ::
        && Field(Some(x), "name").Some? && Field(AgentAt(s), "name").Some?
        && Field(Some(x), "name") != Field(AgentAt(s), "name")
    case SubjectDigest =>
      exists x | x in Contents(Field(Some(s), "subject")) ::
        var sum, digest := Field(Field(Some(x), "digest"), "sha256"), Field(AgentAt(s), "artifactDigest");
        && sum.Some? && digest.Some?
        && digest != Some(Str("sha256:" + (if sum.value.Str? then sum.value.s else env.render(sum.value))))
    case UnexpectedRootKey =>
      || !(MemberNames(p) <= CORE_MEMBERS + {"extensions"})
      || (match p case Some(Arr(items)) => items != [] case _ => false)
    case DuplicateIds => Repeated(CasesAt(s), "id")
    case DuplicateKinds => Repeated(CasesAt(s), "kind")
  }

  lemma SameCollections(d: Doc)
    ensures Rego.Count(d) == Size(d) && Rego.Elements(d) == Contents(d)
  {
  }

  lemma SubjectFaultsMean(env: Gate.Env, s: Json)
    ensures forall rule | rule in {Gate.SubjectCount, Gate.SubjectName, Gate.SubjectDigest} ::
      Gate.AgentRuleFires(env, rule, s) <==> AgentFault(env, rule, s)
  {
    hide Rego.Dot, Field, Rego.Count, Rego.Elements, Size, Contents;
    SamePaths(s);
    SameCollections(Field(Some(s), "subject"));
  }

  lemma RepeatedMeans(env: Gate.Env, s: Json)
    ensures forall rule | rule in {Gate.DuplicateIds, Gate.DuplicateKinds} ::
      Gate.AgentRuleFires(env, rule, s) <==> AgentFault(env, rule, s)
  {
    hide Rego.Dot, Field, Rego.Count, Rego.Elements, Size, Contents, Gate.CasesOf, CasesAt;
    SamePaths(s);
    SameCases(s);
    SameCollections(CasesAt(s));
    assert Gate.MemberValues(CasesAt(s), "id") ==
      set x | x in Contents(CasesAt(s)) && Field(Some(x), "id").Some? :: Field(Some(x), "id").value;
    assert Gate.MemberValues(CasesAt(s), "kind") ==
      set x | x in Contents(CasesAt(s)) && Field(Some(x), "kind").Some? :: Field(Some(x), "kind").value;
  }

  lemma PolicyFaultMeans(env: Gate.Env, s: Json)
    ensures Gate.AgentRuleFires(env, Gate.InconsistentPolicy, s) <==> AgentFault(env, Gate.InconsistentPolicy, s)
  {
    hide Rego.Dot, Field;
    SamePaths(s);
  }

  lemma RootFaultsMean(env: Gate.Env, s: Json)
    ensures forall rule | rule in {Gate.WrongStatementType, Gate.WrongSchemaVersion, Gate.MissingRootKeys,
                                   Gate.UnexpectedRootKey} ::
      Gate.AgentRuleFires(env, rule, s) <==> AgentFault(env, rule, s)
  {
    hide Rego.Dot, Field, Gate.DEPLOYMENT_TYPE;
    SamePaths(s);
    UnexpectedMeans(Field(Some(s), "predicate"));
  }

  lemma UnexpectedMeans(p: Doc)
    ensures (exists k | k in Rego.Keys(p) :: !Gate.AllowedRootKey(k)) <==>
      || !(MemberNames(p) <= CORE_MEMBERS + {"extensions"})
      || (match p case Some(Arr(items)) => items != [] case _ => false)
  {
    match p
    case Some(Obj(fields)) =>
      forall k
        ensures k in fields <==> Str(k) in Rego.Keys(p)
      {
      }
      if k: string :| k in fields && k !in CORE_MEMBERS + {"extensions"} {
        assert !Gate.AllowedRootKey(Str(k));
      }
    case Some(Arr(items)) =>
      if items != [] {
        assert Num((|items| - 1) as real) in Rego.Positions(|items|);
        assert !Gate.AllowedRootKey(Num((|items| - 1) as real));
      } else {
        assert Rego.Keys(p) == {};
      }
    case _ =>
  }

  lemma FactFaultsMean(env: Gate.Env, s: Json)
    ensures forall rule | rule in {Gate.BadCardinality, Gate.BadAdapter, Gate.BadDefaultBehavior} ::
      Gate.AgentRuleFires(env, rule, s) <==> AgentFault(env, rule, s)
  {
    hide Rego.Dot, Field, Forms.CanonicalDigest, CasesAt, Gate.CasesOf, Gate.TOOL_DIGEST;
    SamePaths(s);
    SameCases(s);
  }

  lemma ToolFaultMeans(env: Gate.Env, s: Json)
    ensures Gate.AgentRuleFires(env, Gate.BadControlledTool, s) <==> AgentFault(env, Gate.BadControlledTool, s)
  {
    hide Rego.Dot, Field, Gate.TOOL_DIGEST, Forms.CanonicalDigest;
    SamePaths(s);
    PinnedCanonical();
    PinnedText();
  }

  lemma PinnedText()
    ensures Gate.TOOL_DIGEST == "sha256:" + ("9df776a3bb10bd24bb1693b274a49a1a" + "0e3e74b391d24171f35fc88d77e0b8da")
  {
  }

  lemma AgentFaultMeans(env: Gate.Env, rule: Gate.AgentRule, s: Json)
    requires rule != Gate.BadNestedShape
    ensures Gate.AgentRuleFires(env, rule, s) <==> AgentFault(env, rule, s)
  {
    hide Gate.AgentRuleFires, AgentFault;
    SubjectFaultsMean(env, s);
    RepeatedMeans(env, s);
    PolicyFaultMeans(env, s);
    RootFaultsMean(env, s);
    FactFaultsMean(env, s);
    ToolFaultMeans(env, s);
  }

  /** A rule about the statement is reported, naming the agent, for exactly the statements at fault. */
  lemma AgentReported(env: Gate.Env, input: seq<Json>, rule: Gate.AgentRule, agent: Gate.AgentRef)
    requires rule != Gate.BadNestedShape
    ensures Gate.OfAgent(rule, agent) in Gate.Violations(env, input) <==>
      exists s | s in DeploymentsAt(env, input) :: AgentFault(env, rule, s) && AgentNamed(s) == agent
  {
    hide Gate.CaseRuleFires, Gate.AgentRuleFires, AgentFault, Gate.AgentRefOf, AgentNamed;
    hide Gate.CasesOf, Rego.Elements, Gate.Deployments, Gate.TestResults, DeploymentsAt;
    InputMeans(env, input);
    forall s
      ensures Gate.AgentRuleFires(env, rule, s) <==> AgentFault(env, rule, s)
      ensures Gate.AgentRefOf(s) == AgentNamed(s)
    {
      AgentFaultMeans(env, rule, s);
      NamesMean(s, s);
    }
  }

  /** The number of deployment statements is reported exactly when it is not one. */
  lemma CountReported(env: Gate.Env, input: seq<Json>, n: nat)
    ensures Gate.DeploymentCount(n) in Gate.Violations(env, input) <==> n == |DeploymentsAt(env, input)| && n != 1
  {
    hide Gate.CaseRuleFires, Gate.AgentRuleFires, Gate.Deployments, Gate.TestResults, DeploymentsAt, Gate.CasesOf;
    hide Rego.Elements;
    InputMeans(env, input);
  }

  // ----- the rules that read the statement as a whole -----

  /** None of the four rules on shape is reported exactly where the predicate reads as evidence in form. */
  lemma ShapeReported(env: Gate.Env, s: Json)
    requires ReadText(Field(Field(Some(s), "predicate"), "schemaVersion")).Some?
    ensures var p := Field(Some(s), "predicate");
            !Gate.AgentRuleFires(env, Gate.BadNestedShape, s) && !Gate.AgentRuleFires(env, Gate.InconsistentPolicy, s)
            && !Gate.AgentRuleFires(env, Gate.MissingRootKeys, s)
            && !Gate.AgentRuleFires(env, Gate.UnexpectedRootKey, s)
            <==> ReadPredicate(p).Some? && CoreForm(env, ReadPredicate(p).value)
  {
    hide ReadPredicate, CoreForm, Gate.NestedCoreShape, Gate.RuntimePolicyConsistent, Gate.AllowedRootKey, ReadText;
    hide Rego.Keys;
    ShapeMeans(env, s);
    if Gate.RequiredRootKeysPresent(s) {
      GateTheorems.RootIterable(s);
    }
  }

  /** On a statement that reads in form, a positive case is reported as unenforced exactly where the facts say so. */
  lemma EnforcementReported(env: Gate.Env, trs: seq<Gate.TestResult>, s: Json, v: Evidence, c: Json)
    requires ReadPredicate(Field(Some(s), "predicate")) == Some(v) && CoreForm(env, v)
    ensures Gate.CaseRuleFires(env, trs, Gate.NotEnforcing, s, c) <==> Positive(c) && !Enforced(v)
  {
    hide ReadPredicate, CoreForm, Enforced, Gate.DeploymentEnforcing, Gate.NestedCoreShape;
    hide Gate.RuntimePolicyConsistent, Rego.Keys, Gate.AllowedRootKey;
    ShapeMeans(env, s);
    EnforcedHere(env, s, v);
  }

  /** A case in form is reported for its test result exactly where one alone claims it and is not its own. */
  lemma BindingReported(env: Gate.Env, trs: seq<Gate.TestResult>, s: Json, v: Evidence, c: Json)
    requires ReadPredicate(Field(Some(s), "predicate")) == Some(v)
    requires ReadCase(Some(c)).Some? && CaseForm(ReadCase(Some(c)).value)
    ensures var k := ReadCase(Some(c)).value;
            Gate.CaseRuleFires(env, trs, Gate.BadCrossBinding, s, c) <==>
            exists t: Gate.TestResult :: Claimants(trs, k.id) == [t] && !ReportForm(env, s, v, k, t)
  {
    hide ReadCase, ReadPredicate, ReportForm, Gate.TestResultValid, Gate.CaseTestResults, Claimants, Gate.IdOf;
    hide ObservationForm, TestResultRefForm, Forms.IdValue, Forms.CanonicalDigest, Clock;
    var k := ReadCase(Some(c)).value;
    StatesMean(c);
    ClaimantsMean(trs, k.id);
    var paired := Claimants(trs, k.id);
    if |paired| == 1 {
      assert paired == [paired[0]];
      TestResultMeans(env, s, v, c, paired[0]);
    }
  }
}
