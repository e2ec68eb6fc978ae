/**
 The whole pipeline on one conformance case: the runtime decides, the producer records, BuildCase binds and the gate
 admits.
 */
module Pipeline {
  import opened Wrappers
  import opened Json
  import opened EvidenceModel
  import opened Statements
  import opened Admission
  import opened Printed
  import opened Producer
  import opened Sorting
  import ToyRuntime
  import Gate
  import Calendar
  import Rfc3339

  // ----- what BuildCase keeps -----

  lemma HeadKept(e: Evidence)
    requires CanonHead(e).Some?
    ensures var v := CanonHead(e).value;
            && v.runtimePolicy.loaded == e.runtimePolicy.loaded
            && v.enforcement == e.enforcement
            && Some(v.tool.artifact.digest) == NormalizeDigest(e.tool.artifact.digest)
  {
    hide NormalizeDigest;
  }

  lemma CaseKept(c: Case)
    requires CanonCase(c).Some?
    ensures var d := CanonCase(c).value;
            && d.kind == c.kind
            && d.decision.state == c.decision.state && d.decision.finding == c.decision.finding
            && d.outcome.state == c.outcome.state && d.outcome.finding == c.outcome.finding
            && Rfc3339.NormalizeTimestamp(c.startedAt) == Some(d.startedAt)
            && Rfc3339.NormalizeTimestamp(c.completedAt) == Some(d.completedAt)
  {
    hide NormalizeDigest, Rfc3339.NormalizeTimestamp;
  }

  /** The facts of the built body are the facts of the evidence it was built from. */
  lemma FactsKept(codec: Codec, lib: Library, e: Evidence)
    requires Build(codec, lib, e).Some?
    ensures |e.cases| == 1 && |Build(codec, lib, e).value.body.cases| == 1
    ensures var v, c := Build(codec, lib, e).value.body, e.cases[0];
            var d := v.cases[0];
            && v.runtimePolicy.loaded == e.runtimePolicy.loaded
            && v.enforcement == CanonEnforcement(e.enforcement)
            && Some(v.tool.artifact.digest) == NormalizeDigest(e.tool.artifact.digest)
            && d.kind == c.kind
            && d.decision.state == c.decision.state && d.decision.finding == c.decision.finding
            && d.outcome.state == c.outcome.state && d.outcome.finding == c.outcome.finding
            && Rfc3339.NormalizeTimestamp(c.startedAt) == Some(d.startedAt)
            && Rfc3339.NormalizeTimestamp(c.completedAt) == Some(d.completedAt)
  {
    hide CanonHead, CanonCase, CanonCases, CanonEnforcement, CanonExtensions, StableSort, NormalizeDigest, Accepted;
    hide Rfc3339.NormalizeTimestamp, DeploymentJson, TestResultJson, PLACEHOLDER, Generate, Finish, TestResultStatement;
    BuildParts(codec, lib, e);
    var f := WithDigest(e, PLACEHOLDER);
    CanonCount(f);
    HeadKept(f);
    CaseKept(f.cases[0]);
  }

  // ----- the clock of the producer -----

  /** Every time the producer prints is on one day of 2026. */
  lemma TsYear(second: nat)
    requires Rfc3339.Parse(Ts(second), Rfc3339.Zoned).Some?
    ensures Rfc3339.Parse(Ts(second), Rfc3339.Zoned).value.local.date == Calendar.Date(2026, 8, 26)
  {
    var t := Ts(second);
    assert t[..17] == "2026-08-26T20:00:";
    assert forall i | 0 <= i < 17 :: t[i] == t[..17][i];
  }

  /** Instants of stamps in the gate's years are within the gate's clock. */
  lemma GateYears(t: Rfc3339.Stamp)
    requires Calendar.ValidCivil(t.local) && -90000 <= t.offset <= 90000 && t.local.date.year == 2026
    ensures -9223372036 <= Rfc3339.StampInstant(t) <= 9223372036
  {
    Calendar.DayNumberInYear(t.local.date);
    assert Calendar.DaysBeforeYear(2026) == 739982 && Calendar.DaysBeforeYear(2027) == 740347;
  }

  lemma TsInGateRange(second: nat, t: string)
    requires Rfc3339.NormalizeTimestamp(Ts(second)) == Some(t) && ParseNs(t).Some?
    ensures InGateRange(t)
  {
    hide Rfc3339.Parse, Ts;
    Rfc3339.NormalTextReads(Ts(second), Rfc3339.LiteralZ);
    TsYear(second);
    GateYears(Rfc3339.Parse(Ts(second), Rfc3339.Zoned).value);
  }

  // ----- admission of what the producer reports -----

  /** The kind that a verdict is evidence for. */
  predicate NamedByVerdict(kind: string, verdict: string) {
    || (kind == "allowed-action" && verdict == "allow")
    || (kind == "denied-action" && verdict == "deny")
  }

  /** A policy was loaded, the runtime was not bypassed, the outcome was observed, and the kind is the verdict's. */
  predicate PositiveRun(spec: Spec, policy: ToyRuntime.PolicyDoc) {
    var decided := Decided(spec, policy);
    && spec.policyLoaded
    && !spec.bypass
    && spec.outcomeVerified
    && decided.Some? && decided.value.Some? && NamedByVerdict(spec.kind, decided.value.value.verdict)
  }

  /** The one required point counts as exercised unless the runtime was bypassed. */
  lemma PointExercised(f: Enforcement, bypass: bool)
    requires f.required == [INTERVENTION_POINT]
    requires f.observed == if bypass then [] else [INTERVENTION_POINT]
    ensures Exercised(CanonEnforcement(f)) <==> !bypass
  {
    hide DedupeSort, INTERVENTION_POINT;
    SamePoints(f.required);
    SamePoints(f.observed);
    assert INTERVENTION_POINT in f.required;
  }

  lemma SamePoints(points: seq<string>)
    ensures forall p :: p in DedupeSort(points) <==> p in points
  {
    hide DedupeSort;
    DedupeSortSpec(points);
    forall p
      ensures p in DedupeSort(points) <==> p in points
    {
      assert p in Lists.ToSet(DedupeSort(points)) <==> p in Lists.ToSet(points);
    }
  }

  lemma ProducedTimes(codec: Codec, lib: Library, spec: Spec, e: Evidence, b: Built)
    requires Build(codec, lib, e) == Some(b) && |e.cases| == 1
    requires e.cases[0].startedAt == Ts(spec.start) && e.cases[0].completedAt == Ts(spec.start + 1)
    ensures |b.body.cases| == 1
    ensures TimesInGateRange(b.body.cases[0])
  {
    hide Build, InGateRange, Rfc3339.NormalizeTimestamp, Ts, KindConsistent, DecisionValid, OutcomeValid;
    FactsKept(codec, lib, e);
    BuiltReferenced(codec, lib, e);
    TsInGateRange(spec.start, b.body.cases[0].startedAt);
    TsInGateRange(spec.start + 1, b.body.cases[0].completedAt);
  }

  /** What the evidence of a run says, where admission looks. */
  lemma ProducedMembers(host: Host, spec: Spec, shared: Shared, policy: ToyRuntime.PolicyDoc, e: Evidence)
    requires Produce(host, spec, shared, policy) == Some(e)
    ensures |e.cases| == 1 && Decided(spec, policy).Some?
    ensures var c, d := e.cases[0], Decided(spec, policy).value;
            && c.id == spec.caseId && c.kind == spec.kind
            && c.startedAt == Ts(spec.start) && c.completedAt == Ts(spec.start + 1)
            && c.decision == DecisionObservation(host, spec, shared, d)
            && c.outcome == OutcomeObservation(host, spec, ToolRuns(d))
            && c.testResult == TestResultRef(TEST_RESULT_TYPE, spec.caseId, "")
            && (d.None? <==> spec.bypass)
    ensures e.runtimePolicy.loaded == spec.policyLoaded && e.tool.artifact.digest == shared.toolDigest
    ensures e.enforcement.mode == "enforce" && e.enforcement.required == [INTERVENTION_POINT]
    ensures e.enforcement.observed == if spec.bypass then [] else [INTERVENTION_POINT]
  {
    hide DecisionObservation, OutcomeObservation, Ts, CorrelationId, ToolRuns, ToyRuntime.Decide;
  }

  lemma KindOfBuilt(codec: Codec, lib: Library, e: Evidence, b: Built)
    requires Build(codec, lib, e) == Some(b)
    ensures |b.body.cases| == 1
    ensures KindConsistent(b.body, b.body.cases[0])
  {
    hide Build, KindConsistent, DecisionValid, OutcomeValid, TestResultValid, IntervalValid;
    BuiltReferenced(codec, lib, e);
  }

  /** For a built case of the producer, the facts of admission come down to a positive run and the pinned tool. */
  lemma ProducedFacts(
    lib: Library, codec: Codec, host: Host, spec: Spec, shared: Shared, policy: ToyRuntime.PolicyDoc, e: Evidence,
    b: Built)
    requires Produce(host, spec, shared, policy) == Some(e) && Build(codec, lib, e) == Some(b)
    ensures AdmissionFacts(b.body) <==>
      PositiveRun(spec, policy) && NormalizeDigest(shared.toolDigest) == Some(Gate.TOOL_DIGEST)
  {
    hide Produce, Build, NormalizeDigest, Gate.TOOL_DIGEST, Decided, CanonEnforcement, Exercised, TimesInGateRange, Ts;
    hide DecisionRecord, OutcomeRecord, RecordRef, Rfc3339.NormalizeTimestamp;
    ProducedMembers(host, spec, shared, policy, e);
    FactsKept(codec, lib, e);
    KindOfBuilt(codec, lib, e, b);
    ProducedTimes(codec, lib, spec, e, b);
    PointExercised(e.enforcement, spec.bypass);
    ModeKept(e.enforcement);
  }

  lemma ModeKept(f: Enforcement)
    ensures CanonEnforcement(f).mode == f.mode
  {
  }

  /**
   Whatever the policy document, the context and the kind label: when BuildCase accepts what the producer reports, the
   gate admits it exactly if the run was a positive one and the tool was the pinned one. So a bypass, an empty policy
   set or a dropped outcome is never admitted, under any label.
   */
  lemma ProducedAdmittedIff(
    env: Gate.Env, lib: Library, codec: Codec, host: Host, spec: Spec, shared: Shared, policy: ToyRuntime.PolicyDoc,
    e: Evidence, b: Built, x: Json, y: Json)
    requires Agrees(env, lib, codec)
    requires Produce(host, spec, shared, policy) == Some(e) && Build(codec, lib, e) == Some(b)
    requires ReadsBack(env, codec, b) && Carries(env, x, b.deployment) && Carries(env, y, b.testResult)
    ensures Gate.Allow(env, [x, y]) <==>
      PositiveRun(spec, policy) && NormalizeDigest(shared.toolDigest) == Some(Gate.TOOL_DIGEST)
  {
    hide Agrees, ReadsBack, Produce, Build, Carries, Gate.Allow, NormalizeDigest, Gate.TOOL_DIGEST, PositiveRun;
    hide AdmissionFacts;
    ProducedFacts(lib, codec, host, spec, shared, policy, e, b);
    BuiltCaseAdmitted(env, lib, codec, e, b, x, y);
  }
}
