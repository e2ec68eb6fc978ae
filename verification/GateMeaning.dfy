/**
 What the gate's rules ask for, said of the document as it reads: of the member values of the evidence, not of the
 rules. The reader knows the member names; the conditions are on what it read.
 */
module GateMeaning {
  import opened Wrappers
  import opened Json
  import opened EvidenceModel
  import opened EvidenceReader
  import Lists
  import Rego
  import Gate
  import Forms
  import Calendar
  import Rfc3339

  // ----- values -----

  lemma SameField(d: Doc, key: string)
    ensures Rego.Dot(d, key) == Field(d, key)
  {
  }

  /** The gate's clock: what a text says in nanoseconds, within 64 bits. */
  function Clock(s: string): Option<int> {
    Gate.TimestampNs(Some(Str(s)))
  }

  /** The clock reads exactly canonical text of a four-digit year within its range, as the instant it denotes. */
  lemma ClockReads(s: string, n: int)
    ensures Clock(s) == Some(n) <==>
      exists c: Calendar.Civil | Calendar.ValidCivil(c) && Rfc3339.FourDigitYear(c) ::
        && s == Rfc3339.Format(c)
        && n == Calendar.Instant(c) * 1000000000
        && -9223372036 <= Calendar.Instant(c) <= 9223372036
  {
    hide Calendar.Instant, Rfc3339.Format, Rfc3339.Parse, Rfc3339.SecondsShape;
    if Clock(s) == Some(n) {
      var c := Rfc3339.Parse(s, Rfc3339.Zoned).value.local;
      ShapePrinted(s);
      assert s == Rfc3339.Format(c);
    }
    forall c: Calendar.Civil | Calendar.ValidCivil(c) && Rfc3339.FourDigitYear(c) && s == Rfc3339.Format(c)
      ensures Rfc3339.SecondsShape(s) && Rfc3339.Parse(s, Rfc3339.Zoned) == Some(Rfc3339.Stamp(c, 0, 0))
    {
      Rfc3339.Format20(c);
      Rfc3339.FormatParses(c, Rfc3339.Zoned);
    }
  }

  lemma ShapePrinted(s: string)
    requires Rfc3339.SecondsShape(s) && Rfc3339.Parse(s, Rfc3339.Zoned).Some?
    ensures var t := Rfc3339.Parse(s, Rfc3339.Zoned).value;
            t.offset == 0 && t.nanos == 0 && s == Rfc3339.Format(t.local)
  {
    hide Rfc3339.Parse;
    Rfc3339.ShapeParses(s, Rfc3339.Zoned);
    var c := Rfc3339.Parse(s, Rfc3339.Zoned).value.local;
    Rfc3339.Format20(c);
    Rfc3339.ShapeDetermined(s, Rfc3339.Format(c));
  }

  /** Nothing but text is a time. */
  lemma ClockReadsText(d: Doc)
    ensures Gate.TimestampNs(d) == match ReadText(d) case Some(s) => Clock(s) case None => None
  {
    hide Rfc3339.SecondsShape, Rfc3339.Parse;
  }

  // ----- sections -----

  /** Text of one to limit characters without control characters. */
  predicate TextForm(s: string, limit: nat) {
    1 <= |s| <= limit && Forms.NoControl(s)
  }

  predicate ArtifactForm(env: Gate.Env, r: ArtifactRef) {
    env.artifactUri(r.uri) && Forms.CanonicalDigest(r.digest)
  }

  predicate RedactedForm(r: RedactedRef) {
    Forms.RedactedId(r.id) && Forms.CanonicalDigest(r.digest)
  }

  lemma ArtifactMeans(env: Gate.Env, d: Doc)
    ensures Gate.ArtifactReferenceShape(env, d) <==> ReadArtifact(d).Some? && ArtifactForm(env, ReadArtifact(d).value)
  {
    hide Forms.CanonicalDigest;
  }

  lemma RedactedMeans(d: Doc)
    ensures Gate.RedactedReferenceShape(d) <==> ReadRedacted(d).Some? && RedactedForm(ReadRedacted(d).value)
  {
    hide Forms.CanonicalDigest, Forms.RedactedId;
  }

  predicate AgentForm(env: Gate.Env, a: Agent) {
    TextForm(a.name, 256) && env.absoluteUri(a.uri) && Forms.CanonicalDigest(a.artifactDigest)
  }

  lemma AgentMeans(env: Gate.Env, d: Doc)
    ensures Gate.AgentShape(env, d) <==> ReadAgent(d).Some? && AgentForm(env, ReadAgent(d).value)
  {
    hide Forms.CanonicalDigest, Forms.NoControl;
  }

  predicate RuntimeForm(env: Gate.Env, r: Runtime) {
    && TextForm(r.name, 128) && TextForm(r.version, 128)
    && (r.framework == "" || TextForm(r.framework, 128))
    && ArtifactForm(env, r.artifact)
  }

  lemma RuntimeMeans(env: Gate.Env, d: Doc)
    ensures Gate.RuntimeShape(env, d) <==> ReadRuntime(d).Some? && RuntimeForm(env, ReadRuntime(d).value)
  {
    hide Forms.NoControl, Gate.ArtifactReferenceShape, ReadArtifact, ArtifactForm;
    ArtifactMeans(env, Field(d, "artifact"));
  }

  predicate AdapterForm(env: Gate.Env, a: Adapter) {
    TextForm(a.name, 128) && ArtifactForm(env, a.artifact) && Forms.CanonicalDigest(a.runtimeDigest)
  }

  lemma AdapterMeans(env: Gate.Env, d: Doc)
    ensures Gate.AdapterShape(env, d) <==> ReadAdapter(d).Some? && AdapterForm(env, ReadAdapter(d).value)
  {
    hide Forms.NoControl, Forms.CanonicalDigest, Gate.ArtifactReferenceShape, ReadArtifact, ArtifactForm;
    ArtifactMeans(env, Field(d, "artifact"));
  }

  predicate RuntimePolicyForm(env: Gate.Env, p: RuntimePolicy) {
    && Forms.IdValue(p.engine) && ArtifactForm(env, p.artifact)
    && (if p.loaded then 1 <= p.count <= 64 else p.count == 0)
  }

  lemma RuntimePolicyMeans(env: Gate.Env, s: Json)
    ensures var d := Field(Field(Some(s), "predicate"), "runtimePolicy");
            Gate.RuntimePolicyShape(env, d) && Gate.RuntimePolicyConsistent(s) <==>
            ReadRuntimePolicy(d).Some? && RuntimePolicyForm(env, ReadRuntimePolicy(d).value)
  {
    hide Forms.IdValue, Gate.ArtifactReferenceShape, ReadArtifact, ArtifactForm;
    var d := Field(Field(Some(s), "predicate"), "runtimePolicy");
    assert Gate.PolicyFacts(s) == d;
    ArtifactMeans(env, Field(d, "artifact"));
  }

  /** At most 32 distinct ids. */
  predicate PointsForm(points: seq<string>) {
    |points| <= 32 && Lists.NoDuplicates(points) && forall p | p in points :: Forms.IdValue(p)
  }

  lemma PointsMeans(d: Doc)
    ensures Gate.PointsShape(d) <==> ReadTexts(d).Some? && PointsForm(ReadTexts(d).value)
  {
    hide Forms.IdValue;
    if d.Some? && d.value.Arr? {
      var items := d.value.items;
      Lists.CountDistinct(items);
      assert (set x | x in items) == Lists.ToSet(items);
      if Gate.PointsShape(d) {
        assert forall i | 0 <= i < |items| :: items[i] in Rego.Elements(d);
      }
      if ReadTexts(d).Some? {
        var texts := ReadTexts(d).value;
        assert forall i | 0 <= i < |items| :: items[i] == Str(texts[i]) && texts[i] in texts;
      }
    }
  }

  predicate EnforcementForm(f: Enforcement) {
    && f.mode in {"enforce", "monitor"} && f.defaultBehavior in {"allow", "deny"}
    && PointsForm(f.required) && f.required != [] && PointsForm(f.observed)
  }

  lemma EnforcementMeans(d: Doc)
    ensures Gate.EnforcementShape(d) <==> ReadEnforcement(d).Some? && EnforcementForm(ReadEnforcement(d).value)
  {
    hide PointsForm, Gate.PointsShape;
    PointsMeans(Field(d, "requiredInterventionPoints"));
    PointsMeans(Field(d, "observedInterventionPoints"));
    TextsArray(Field(d, "requiredInterventionPoints"));
  }

  lemma TextsArray(d: Doc)
    ensures ReadTexts(d).Some? ==> d.Some? && d.value.Arr? && |d.value.items| == |ReadTexts(d).value|
  {
  }

  predicate IdentityForm(env: Gate.Env, i: Identity) {
    env.absoluteUri(i.providerUri) && i.subjectKind in {"agent", "workload"} && RedactedForm(i.subject)
  }

  lemma IdentityMeans(env: Gate.Env, d: Doc)
    ensures Gate.IdentityShape(env, d) <==> ReadIdentity(d).Some? && IdentityForm(env, ReadIdentity(d).value)
  {
    hide Gate.RedactedReferenceShape, ReadRedacted, RedactedForm;
    RedactedMeans(Field(d, "subject"));
  }

  predicate AuditForm(a: Audit) {
    Forms.IdValue(a.sinkKind) && RedactedForm(a.sink) && Forms.CanonicalDigest(a.configurationDigest)
  }

  lemma AuditMeans(d: Doc)
    ensures Gate.AuditShape(d) <==> ReadAudit(d).Some? && AuditForm(ReadAudit(d).value)
  {
    hide Gate.RedactedReferenceShape, ReadRedacted, RedactedForm, Forms.IdValue, Forms.CanonicalDigest;
    RedactedMeans(Field(d, "sink"));
  }

  predicate FixtureForm(f: Fixture) {
    Forms.IdValue(f.id) && f.producer in {"agt", "non-agt"}
  }

  lemma FixtureMeans(d: Doc)
    ensures Gate.FixtureShape(d) <==> ReadFixture(d).Some? && FixtureForm(ReadFixture(d).value)
  {
    hide Forms.IdValue;
  }

  lemma ToolMeans(env: Gate.Env, d: Doc)
    ensures Gate.ControlledToolShape(env, d) <==> ReadTool(d).Some? && ArtifactForm(env, ReadTool(d).value.artifact)
  {
    hide Gate.ArtifactReferenceShape, ReadArtifact, ArtifactForm;
    ArtifactMeans(env, Field(d, "artifact"));
  }

  /** The references and times of an observation, where it has them. */
  predicate ObservationForm(o: Observation) {
    && (o.reference.Some? ==> RedactedForm(o.reference.value))
    && (o.observedAt != "" ==> Clock(o.observedAt).Some?)
  }

  lemma EmptyIsNoTime()
    ensures Clock("").None?
  {
  }

  lemma DecisionMeans(d: Doc)
    ensures Gate.DecisionShape(d) <==>
      var o := ReadObservation(d, "verdict");
      && o.Some? && o.value.state in {"observed", "not-observed"} && o.value.finding in {"allow", "deny", "unknown"}
      && ObservationForm(o.value)
  {
    hide Gate.RedactedReferenceShape, ReadRedacted, RedactedForm, Gate.TimestampNs;
    RedactedMeans(Field(d, "reference"));
    ClockReadsText(Field(d, "observedAt"));
    EmptyIsNoTime();
  }

  lemma OutcomeMeans(d: Doc)
    ensures Gate.OutcomeShape(d) <==>
      var o := ReadObservation(d, "result");
      && o.Some? && o.value.state in {"verified", "unknown"} && o.value.finding in {"occurred", "blocked", "unknown"}
      && ObservationForm(o.value)
  {
    hide Gate.RedactedReferenceShape, ReadRedacted, RedactedForm, Gate.TimestampNs;
    RedactedMeans(Field(d, "reference"));
    ClockReadsText(Field(d, "observedAt"));
    EmptyIsNoTime();
  }

  predicate TestResultRefForm(r: TestResultRef) {
    && r.predicateType == "https://in-toto.io/attestation/test-result/v0.1"
    && Forms.IdValue(r.testId) && Forms.CanonicalDigest(r.statementDigest)
  }

  lemma TestResultRefMeans(d: Doc)
    ensures Gate.TestResultRefShape(d) <==> ReadTestResultRef(d).Some? && TestResultRefForm(ReadTestResultRef(d).value)
  {
    hide Forms.IdValue, Forms.CanonicalDigest;
  }

  predicate CaseForm(c: Case) {
    && Forms.IdValue(c.id)
    && c.kind in {"allowed-action", "denied-action", "adapter-bypass", "no-policy-loaded"}
    && Forms.CanonicalDigest(c.correlationId)
    && Clock(c.startedAt).Some? && Clock(c.completedAt).Some?
    && c.decision.state in {"observed", "not-observed"} && c.decision.finding in {"allow", "deny", "unknown"}
    && ObservationForm(c.decision)
    && c.outcome.state in {"verified", "unknown"} && c.outcome.finding in {"occurred", "blocked", "unknown"}
    && ObservationForm(c.outcome)
    && TestResultRefForm(c.testResult)
  }

  lemma CaseMeans(c: Json)
    ensures Gate.CaseShape(c) <==> ReadCase(Some(c)).Some? && CaseForm(ReadCase(Some(c)).value)
  {
    hide Gate.DecisionShape, Gate.OutcomeShape, Gate.TestResultRefShape, ReadObservation, ReadTestResultRef, Clock;
    hide ObservationForm, TestResultRefForm, Gate.TimestampNs, Forms.IdValue, Forms.CanonicalDigest;
    var d := Some(c);
    DecisionMeans(Field(d, "decision"));
    OutcomeMeans(Field(d, "outcome"));
    TestResultRefMeans(Field(d, "testResult"));
    ClockReadsText(Field(d, "startedAt"));
    ClockReadsText(Field(d, "completedAt"));
  }

  predicate ConformanceForm(env: Gate.Env, c: Conformance) {
    FixtureForm(c.fixture) && ArtifactForm(env, c.tool.artifact) && forall x | x in c.cases :: CaseForm(x)
  }

  lemma CasesMeans(d: Doc)
    ensures Gate.IsArray(d) && (forall c | c in Rego.Elements(d) :: Gate.CaseShape(c)) <==>
      ReadCases(d).Some? && forall c | c in ReadCases(d).value :: CaseForm(c)
  {
    hide Gate.CaseShape, ReadCase, CaseForm;
    if d.Some? && d.value.Arr? {
      var items := d.value.items;
      forall c
        ensures Gate.CaseShape(c) <==> ReadCase(Some(c)).Some? && CaseForm(ReadCase(Some(c)).value)
      {
        CaseMeans(c);
      }
      if forall c | c in Rego.Elements(d) :: Gate.CaseShape(c) {
        assert forall i | 0 <= i < |items| :: items[i] in Rego.Elements(d);
      }
      if ReadCases(d).Some? {
        assert forall i | 0 <= i < |items| ::
          ReadCases(d).value[i] == ReadCase(Some(items[i])).value && ReadCases(d).value[i] in ReadCases(d).value;
      }
    }
  }

  lemma ConformanceMeans(env: Gate.Env, d: Doc)
    ensures Gate.ConformanceShape(env, d) <==>
      ReadConformance(d).Some? && ConformanceForm(env, ReadConformance(d).value)
  {
    hide Gate.FixtureShape, ReadFixture, FixtureForm, Gate.ControlledToolShape, ReadTool, ArtifactForm;
    hide Gate.CaseShape, ReadCases, CaseForm;
    FixtureMeans(Field(d, "fixture"));
    ToolMeans(env, Field(d, "controlledTool"));
    CasesMeans(Field(d, "cases"));
  }

  /** The forms of all sections. */
  predicate CoreForm(env: Gate.Env, v: Evidence) {
    && AgentForm(env, v.agent) && RuntimeForm(env, v.runtime) && AdapterForm(env, v.adapter)
    && RuntimePolicyForm(env, v.runtimePolicy) && EnforcementForm(v.enforcement)
    && IdentityForm(env, v.identity) && AuditForm(v.audit)
    && ConformanceForm(env, Conformance(v.fixture, v.tool, v.cases))
  }

  // ----- the deployment statement -----

  /** A list of one item, or an object of one member. */
  predicate OnlyElementIs(d: Doc, x: Json) {
    d == Some(Arr([x])) || exists k: string :: k in MemberNames(d) && d == Some(Obj(map[k := x]))
  }

  function MemberNames(d: Doc): set<string> {
    match d
    case Some(Obj(fields)) => fields.Keys
    case _ => {}
  }

  lemma OnlyElement(d: Doc, x: Json)
    ensures Rego.Count(d) == Some(1) && x in Rego.Elements(d) <==> OnlyElementIs(d, x)
  {
    match d
    case Some(Arr(items)) => OnlyItem(items, x);
    case Some(Obj(fields)) => OnlyMember(fields, x);
    case _ =>
  }

  lemma OnlyItem(items: seq<Json>, x: Json)
    ensures |items| == 1 && x in items <==> items == [x]
  {
  }

  lemma OnlyMember(fields: map<string, Json>, x: Json)
    ensures |fields| == 1 && x in fields.Values <==> exists k: string :: k in fields.Keys && fields == map[k := x]
  {
    if |fields| == 1 && x in fields.Values {
      var k :| k in fields && fields[k] == x;
      OneKey(fields, k);
      assert fields == map[k := x];
    }
    if k: string :| k in fields.Keys && fields == map[k := x] {
      assert fields.Keys == {k} && fields[k] == x;
      assert |fields| == |fields.Keys|;
    }
  }

  lemma OneKey(fields: map<string, Json>, k: string)
    requires |fields| == 1 && k in fields
    ensures fields.Keys == {k}
  {
    assert |fields.Keys - {k}| == |fields.Keys| - 1 == 0;
    assert fields.Keys - {k} == {};
  }

  /** The value as a format prints it, which is what the gate compares with a digest. */
  predicate ShownAs(env: Gate.Env, d: Doc, digest: string) {
    d.Some? && "sha256:" + (if d.value.Str? then d.value.s else env.render(d.value)) == digest
  }

  /** The subject x carries the agent's name and digest. */
  predicate NamesAgent(env: Gate.Env, x: Json, a: Agent) {
    && Field(Some(x), "name") == Some(Str(a.name))
    && ShownAs(env, Field(Field(Some(x), "digest"), "sha256"), a.artifactDigest)
  }

  /** The controlled tool is the pinned one, and the adapter names the runtime it adapts. */
  predicate PinnedFacts(v: Evidence) {
    && v.tool.name == "write-marker" && v.tool.actionClass == "filesystem.write.marker"
    && v.tool.artifact.digest ==
       "sha256:" + ("9df776a3bb10bd24bb1693b274a49a1a" + "0e3e74b391d24171f35fc88d77e0b8da")
    && v.adapter.contractVersion == "0.1" && v.adapter.runtimeDigest == v.runtime.artifact.digest
  }

  /** What the statement must be for the gate to go on to its cases. */
  ghost predicate StatementForm(env: Gate.Env, s: Json) {
    var v := ReadPredicate(Field(Some(s), "predicate"));
    && Field(Some(s), "_type") == Some(Str("https://in-toto.io/Statement/v1"))
    && v.Some?
    && CoreForm(env, v.value)
    && v.value.schemaVersion == "0.1"
    && PinnedFacts(v.value)
    && exists x: Json :: OnlyElementIs(Field(Some(s), "subject"), x) && NamesAgent(env, x, v.value.agent)
  }

  predicate LowerHexText(s: string) {
    forall i | 0 <= i < |s| :: Forms.IsLowerHex(s[i])
  }

  lemma HexAppend(a: string, b: string)
    requires LowerHexText(a) && LowerHexText(b)
    ensures LowerHexText(a + b)
  {
  }

  /** The digest the gate pins is one it can accept. */
  lemma PinnedCanonical()
    ensures Forms.CanonicalDigest(Gate.TOOL_DIGEST)
  {
    var high, low := "9df776a3bb10bd24bb1693b274a49a1a", "0e3e74b391d24171f35fc88d77e0b8da";
    HexAppend(high, low);
    var d := Forms.DIGEST_PREFIX + (high + low);
    assert d[..7] == Forms.DIGEST_PREFIX;
    assert forall i | 7 <= i < 71 :: d[i] == (high + low)[i - 7];
  }

  lemma RootMeans(s: Json)
    ensures var p := Field(Some(s), "predicate");
            Rego.Iterable(p) && (forall k | k in Rego.Keys(p) :: Gate.AllowedRootKey(k))
            && Gate.RequiredRootKeysPresent(s)
            <==> HasMembers(p, {"schemaVersion", "agent", "runtime", "adapter", "runtimePolicy", "enforcement",
                                "identity", "audit", "conformance"}, {"extensions"})
  {
    var p := Field(Some(s), "predicate");
    if p.Some? && p.value.Obj? {
      forall k
        ensures k in p.value.fields <==> Str(k) in Rego.Keys(p)
      {
      }
    }
  }

  lemma NestedMeans(env: Gate.Env, s: Json)
    ensures var p := Field(Some(s), "predicate");
            Gate.NestedCoreShape(env, s) && Gate.RuntimePolicyConsistent(s) <==>
            && ReadAgent(Field(p, "agent")).Some? && AgentForm(env, ReadAgent(Field(p, "agent")).value)
            && ReadRuntime(Field(p, "runtime")).Some? && RuntimeForm(env, ReadRuntime(Field(p, "runtime")).value)
            && ReadAdapter(Field(p, "adapter")).Some? && AdapterForm(env, ReadAdapter(Field(p, "adapter")).value)
            && ReadRuntimePolicy(Field(p, "runtimePolicy")).Some?
            && RuntimePolicyForm(env, ReadRuntimePolicy(Field(p, "runtimePolicy")).value)
            && ReadEnforcement(Field(p, "enforcement")).Some?
            && EnforcementForm(ReadEnforcement(Field(p, "enforcement")).value)
            && ReadIdentity(Field(p, "identity")).Some? && IdentityForm(env, ReadIdentity(Field(p, "identity")).value)
            && ReadAudit(Field(p, "audit")).Some? && AuditForm(ReadAudit(Field(p, "audit")).value)
            && ReadConformance(Field(p, "conformance")).Some?
            && ConformanceForm(env, ReadConformance(Field(p, "conformance")).value)
  {
    hide ReadAgent, ReadRuntime, ReadAdapter, ReadRuntimePolicy, ReadEnforcement, ReadIdentity, ReadAudit;
    hide ReadConformance, AgentForm, RuntimeForm, AdapterForm, RuntimePolicyForm, EnforcementForm, IdentityForm;
    hide AuditForm, ConformanceForm, Gate.AgentShape, Gate.RuntimeShape, Gate.AdapterShape, Gate.RuntimePolicyShape;
    hide Gate.EnforcementShape, Gate.IdentityShape, Gate.AuditShape, Gate.ConformanceShape;
    hide Gate.RuntimePolicyConsistent, Field, Rego.Dot;
    var p := Field(Some(s), "predicate");
    SamePaths(s);
    AgentMeans(env, Field(p, "agent"));
    RuntimeMeans(env, Field(p, "runtime"));
    AdapterMeans(env, Field(p, "adapter"));
    RuntimePolicyMeans(env, s);
    EnforcementMeans(Field(p, "enforcement"));
    IdentityMeans(env, Field(p, "identity"));
    AuditMeans(Field(p, "audit"));
    ConformanceMeans(env, Field(p, "conformance"));
  }

  lemma SamePaths(s: Json)
    ensures forall d: Doc, key: string :: Rego.Dot(d, key) == Field(d, key)
  {
  }

  /** The sections that make up what the predicate reads as. */
  lemma Sections(p: Doc)
    requires ReadPredicate(p).Some?
    ensures var v := ReadPredicate(p).value;
            && Field(p, "schemaVersion") == Some(Str(v.schemaVersion))
            && ReadAgent(Field(p, "agent")) == Some(v.agent)
            && ReadRuntime(Field(p, "runtime")) == Some(v.runtime)
            && ReadAdapter(Field(p, "adapter")) == Some(v.adapter)
            && ReadRuntimePolicy(Field(p, "runtimePolicy")) == Some(v.runtimePolicy)
            && ReadEnforcement(Field(p, "enforcement")) == Some(v.enforcement)
            && ReadIdentity(Field(p, "identity")) == Some(v.identity)
            && ReadAudit(Field(p, "audit")) == Some(v.audit)
            && ReadConformance(Field(p, "conformance")) == Some(Conformance(v.fixture, v.tool, v.cases))
  {
    hide ReadAgent, ReadRuntime, ReadAdapter, ReadRuntimePolicy, ReadEnforcement, ReadIdentity, ReadAudit;
    hide ReadConformance, HasMembers, Field;
  }

  lemma AgentFields(d: Doc)
    requires ReadAgent(d).Some?
    ensures Field(d, "name") == Some(Str(ReadAgent(d).value.name))
    ensures Field(d, "artifactDigest") == Some(Str(ReadAgent(d).value.artifactDigest))
  {
    hide Field, HasMembers;
  }

  lemma ToolFields(d: Doc)
    requires ReadTool(d).Some?
    ensures var t := ReadTool(d).value;
            && Field(d, "name") == Some(Str(t.name)) && Field(d, "actionClass") == Some(Str(t.actionClass))
            && Field(Field(d, "artifact"), "digest") == Some(Str(t.artifact.digest))
  {
    hide Field, HasMembers;
  }

  lemma ConformanceFields(d: Doc)
    requires ReadConformance(d).Some?
    ensures ReadTool(Field(d, "controlledTool")) == Some(ReadConformance(d).value.tool)
    ensures ReadCases(Field(d, "cases")) == Some(ReadConformance(d).value.cases)
  {
    hide ReadTool, ReadCases, ReadFixture, Field, HasMembers;
  }

  lemma ToolPinned(s: Json, t: Tool)
    requires ReadTool(Field(Field(Field(Some(s), "predicate"), "conformance"), "controlledTool")) == Some(t)
    requires Forms.CanonicalDigest(t.artifact.digest)
    ensures Gate.ControlledToolValid(s) <==>
      && t.name == "write-marker" && t.actionClass == "filesystem.write.marker"
      && t.artifact.digest == "sha256:" + ("9df776a3bb10bd24bb1693b274a49a1a" + "0e3e74b391d24171f35fc88d77e0b8da")
  {
    hide ReadTool, Field, Rego.Dot, Forms.CanonicalDigest;
    SamePaths(s);
    ToolFields(Field(Field(Field(Some(s), "predicate"), "conformance"), "controlledTool"));
  }

  lemma AdapterLinked(s: Json, a: Adapter, r: Runtime)
    requires ReadAdapter(Field(Field(Some(s), "predicate"), "adapter")) == Some(a)
    requires ReadRuntime(Field(Field(Some(s), "predicate"), "runtime")) == Some(r)
    requires Forms.CanonicalDigest(a.runtimeDigest)
    ensures Gate.AdapterValid(s) <==> a.contractVersion == "0.1" && a.runtimeDigest == r.artifact.digest
  {
    hide ReadAdapter, ReadRuntime, Field, Rego.Dot, Forms.CanonicalDigest;
    SamePaths(s);
    AdapterFields(Field(Field(Some(s), "predicate"), "adapter"));
    RuntimeFields(Field(Field(Some(s), "predicate"), "runtime"));
  }

  lemma AdapterFields(d: Doc)
    requires ReadAdapter(d).Some?
    ensures Field(d, "contractVersion") == Some(Str(ReadAdapter(d).value.contractVersion))
    ensures Field(d, "runtimeDigest") == Some(Str(ReadAdapter(d).value.runtimeDigest))
  {
    hide Field, HasMembers, ReadArtifact;
  }

  lemma RuntimeFields(d: Doc)
    requires ReadRuntime(d).Some?
    ensures Field(Field(d, "artifact"), "digest") == Some(Str(ReadRuntime(d).value.artifact.digest))
  {
    hide Field, HasMembers;
  }

  lemma SubjectMeans(env: Gate.Env, s: Json, x: Json)
    requires ReadAgent(Field(Field(Some(s), "predicate"), "agent")).Some?
    ensures Gate.SubjectIsAgent(env, s, x) <==>
      NamesAgent(env, x, ReadAgent(Field(Field(Some(s), "predicate"), "agent")).value)
  {
    hide ReadAgent, Field, Rego.Dot;
    SamePaths(s);
    AgentFields(Field(Field(Some(s), "predicate"), "agent"));
  }

  lemma SubjectsMean(env: Gate.Env, s: Json, a: Agent)
    requires ReadAgent(Field(Field(Some(s), "predicate"), "agent")) == Some(a)
    ensures (Rego.Count(Gate.SubjectOf(s)) == Some(1)
             && exists x | x in Rego.Elements(Gate.SubjectOf(s)) :: Gate.SubjectIsAgent(env, s, x))
       <==> exists x: Json :: OnlyElementIs(Field(Some(s), "subject"), x) && NamesAgent(env, x, a)
  {
    hide ReadAgent, Gate.SubjectIsAgent, NamesAgent, OnlyElementIs, Rego.Count, Rego.Elements;
    forall x
      ensures Rego.Count(Gate.SubjectOf(s)) == Some(1) && x in Rego.Elements(Gate.SubjectOf(s)) <==>
        OnlyElementIs(Field(Some(s), "subject"), x)
      ensures Gate.SubjectIsAgent(env, s, x) <==> NamesAgent(env, x, a)
    {
      OnlyElement(Field(Some(s), "subject"), x);
      SubjectMeans(env, s, x);
    }
  }

  /** What a predicate that reads must be for the rest of the envelope check. */
  lemma FactsMean(env: Gate.Env, s: Json, v: Evidence)
    requires ReadPredicate(Field(Some(s), "predicate")) == Some(v) && CoreForm(env, v)
    ensures Gate.ControlledToolValid(s) && Gate.AdapterValid(s) <==> PinnedFacts(v)
  {
    hide ReadPredicate, ReadTool, ReadAdapter, ReadRuntime, ReadConformance, Field, Gate.ControlledToolValid;
    hide Gate.AdapterValid, Forms.CanonicalDigest, AgentForm, RuntimeForm, RuntimePolicyForm, EnforcementForm;
    hide IdentityForm, AuditForm, FixtureForm, CaseForm, ReadAgent, ReadRuntimePolicy, ReadEnforcement, ReadIdentity;
    hide ReadAudit;
    var p := Field(Some(s), "predicate");
    Sections(p);
    ConformanceFields(Field(p, "conformance"));
    ToolPinned(s, v.tool);
    AdapterLinked(s, v.adapter, v.runtime);
  }

  /** The predicate reads as evidence in form exactly where the shape rules hold. */
  lemma ShapeMeans(env: Gate.Env, s: Json)
    ensures var p := Field(Some(s), "predicate");
            && Rego.Iterable(p) && (forall k | k in Rego.Keys(p) :: Gate.AllowedRootKey(k))
            && Gate.RequiredRootKeysPresent(s) && Gate.NestedCoreShape(env, s) && Gate.RuntimePolicyConsistent(s)
            && ReadText(Field(p, "schemaVersion")).Some?
            <==> ReadPredicate(p).Some? && CoreForm(env, ReadPredicate(p).value)
  {
    hide ReadAgent, ReadRuntime, ReadAdapter, ReadRuntimePolicy, ReadEnforcement, ReadIdentity, ReadAudit, ReadText;
    hide ReadConformance, AgentForm, RuntimeForm, AdapterForm, RuntimePolicyForm, EnforcementForm, IdentityForm;
    hide AuditForm, ConformanceForm, Gate.NestedCoreShape, Gate.RuntimePolicyConsistent, Field, HasMembers;
    hide Gate.AllowedRootKey, Gate.RequiredRootKeysPresent, Rego.Iterable, Rego.Keys;
    RootMeans(s);
    NestedMeans(env, s);
  }

  /** The envelope check, together with the consistency of the policy facts, is the form of the statement. */
  lemma EnvelopeMeans(env: Gate.Env, s: Json)
    ensures Gate.EnvelopeValid(env, s) && Gate.RuntimePolicyConsistent(s) <==> StatementForm(env, s)
  {
    hide ReadPredicate, CoreForm, Gate.NestedCoreShape, Gate.ControlledToolValid, Gate.AdapterValid, PinnedFacts;
    hide Gate.SubjectIsAgent, Gate.RuntimePolicyConsistent, Field, Rego.Dot, NamesAgent, OnlyElementIs, Rego.Count;
    hide Rego.Elements, Gate.AllowedRootKey, Gate.RequiredRootKeysPresent, Rego.Iterable, Rego.Keys;
    hide ReadAgent, ReadRuntime, ReadAdapter, ReadRuntimePolicy, ReadEnforcement, ReadIdentity, ReadAudit;
    hide ReadConformance, Gate.SubjectOf;
    var p := Field(Some(s), "predicate");
    SameField(Some(s), "_type");
    SameField(Some(s), "predicate");
    SameField(p, "schemaVersion");
    ShapeMeans(env, s);
    if ReadPredicate(p).Some? && CoreForm(env, ReadPredicate(p).value) {
      Sections(p);
      FactsMean(env, s, ReadPredicate(p).value);
      SubjectsMean(env, s, ReadPredicate(p).value.agent);
    }
  }

  // ----- cases -----

  /** The four times of a case, in nanoseconds: readable, in order, within five minutes, both observations inside. */
  predicate TimesInOrder(c: Json) {
    var started := Gate.TimestampNs(Field(Some(c), "startedAt"));
    var completed := Gate.TimestampNs(Field(Some(c), "completedAt"));
    var decided := Gate.TimestampNs(Field(Field(Some(c), "decision"), "observedAt"));
    var seen := Gate.TimestampNs(Field(Field(Some(c), "outcome"), "observedAt"));
    && started.Some? && completed.Some? && decided.Some? && seen.Some?
    && started.value <= decided.value && decided.value <= completed.value
    && started.value <= seen.value && seen.value <= completed.value
    && completed.value - started.value <= 300 * 1000000000
  }

  lemma TimesMean(c: Json)
    ensures Gate.CaseTimestampsValid(c) <==> TimesInOrder(c)
  {
    hide Gate.TimestampNs;
  }

  predicate Timely(c: Case) {
    var started, completed := Clock(c.startedAt), Clock(c.completedAt);
    var decided, seen := Clock(c.decision.observedAt), Clock(c.outcome.observedAt);
    && started.Some? && completed.Some? && decided.Some? && seen.Some?
    && started.value <= decided.value <= completed.value
    && started.value <= seen.value <= completed.value
    && completed.value <= started.value + 300 * 1000000000
  }

  lemma CaseFields(d: Doc)
    requires ReadCase(d).Some?
    ensures var c := ReadCase(d).value;
            && Field(d, "id") == Some(Str(c.id)) && Field(d, "kind") == Some(Str(c.kind))
            && Field(d, "correlationId") == Some(Str(c.correlationId))
            && Field(d, "startedAt") == Some(Str(c.startedAt)) && Field(d, "completedAt") == Some(Str(c.completedAt))
            && ReadObservation(Field(d, "decision"), "verdict") == Some(c.decision)
            && ReadObservation(Field(d, "outcome"), "result") == Some(c.outcome)
            && ReadTestResultRef(Field(d, "testResult")) == Some(c.testResult)
  {
    hide Field, HasMembers, ReadObservation, ReadTestResultRef;
  }

  lemma ObservationFields(d: Doc, finding: string)
    requires ReadObservation(d, finding).Some?
    ensures var o := ReadObservation(d, finding).value;
            && Field(d, "state") == Some(Str(o.state)) && Field(d, finding) == Some(Str(o.finding))
            && Field(d, "observedAt") == (if o.observedAt == "" then None else Some(Str(o.observedAt)))
            && (o.reference.None? <==> Field(d, "reference").None?)
            && (o.reference.Some? ==>
                  Field(Field(d, "reference"), "digest") == Some(Str(o.reference.value.digest)))
  {
    hide Field, HasMembers;
  }

  lemma TimelyMeans(c: Json)
    requires ReadCase(Some(c)).Some?
    ensures TimesInOrder(c) <==> Timely(ReadCase(Some(c)).value)
  {
    hide Gate.TimestampNs, ReadCase, ReadObservation, Field;
    var d, k := Some(c), ReadCase(Some(c)).value;
    CaseFields(d);
    ObservationFields(Field(d, "decision"), "verdict");
    ObservationFields(Field(d, "outcome"), "result");
    EmptyIsNoTime();
    NothingIsNoTime();
  }

  lemma NothingIsNoTime()
    ensures Gate.TimestampNs(None).None?
  {
  }

  /** Only these two cases are evidence for admission. */
  predicate Proven(c: Case) {
    || (&& c.kind == "allowed-action" && c.decision.state == "observed" && c.decision.finding == "allow"
        && c.outcome.state == "verified" && c.outcome.finding == "occurred")
    || (&& c.kind == "denied-action" && c.decision.state == "observed" && c.decision.finding == "deny"
        && c.outcome.state == "verified" && c.outcome.finding == "blocked")
  }

  lemma ProvenMeans(c: Json)
    requires ReadCase(Some(c)).Some?
    ensures Gate.Proves(c, "allowed-action", "allow", "occurred") || Gate.Proves(c, "denied-action", "deny", "blocked")
       <==> Proven(ReadCase(Some(c)).value)
  {
    hide ReadCase, ReadObservation;
    var d := Some(c);
    CaseFields(d);
    ObservationFields(Field(d, "decision"), "verdict");
    ObservationFields(Field(d, "outcome"), "result");
  }

  /** A policy was loaded, the mode is enforce, and every required point was observed. */
  predicate Enforced(v: Evidence) {
    v.runtimePolicy.loaded && v.enforcement.mode == "enforce"
    && forall p | p in v.enforcement.required :: p in v.enforcement.observed
  }

  lemma FactPaths(s: Json)
    ensures Gate.PolicyFacts(s) == Field(Field(Some(s), "predicate"), "runtimePolicy")
    ensures Gate.EnforcementFacts(s) == Field(Field(Some(s), "predicate"), "enforcement")
  {
  }

  lemma EnforcedMeans(env: Gate.Env, s: Json, p: RuntimePolicy, f: Enforcement)
    requires ReadRuntimePolicy(Field(Field(Some(s), "predicate"), "runtimePolicy")) == Some(p)
    requires ReadEnforcement(Field(Field(Some(s), "predicate"), "enforcement")) == Some(f)
    requires RuntimePolicyForm(env, p) && EnforcementForm(f) && Gate.RuntimePolicyConsistent(s)
    ensures Gate.DeploymentEnforcing(s) <==>
      p.loaded && f.mode == "enforce" && forall q | q in f.required :: q in f.observed
  {
    hide ReadRuntimePolicy, ReadEnforcement, PointsForm, Gate.RuntimePolicyConsistent, ArtifactForm, Rego.Elements;
    hide Rego.Count, Rego.Iterable, Rego.AtLeast, ReadTexts, Forms.IdValue, TextSet, Field, Rego.Dot, Gate.PolicyFacts;
    hide Gate.EnforcementFacts;
    var e, r := Gate.EnforcementFacts(s), Gate.PolicyFacts(s);
    FactPaths(s);
    EnforcementFields(e);
    PolicyFields(r);
    SameField(r, "loaded");
    SameField(r, "count");
    SameField(e, "mode");
    SameField(e, "defaultBehavior");
    SameField(e, "requiredInterventionPoints");
    SameField(e, "observedInterventionPoints");
    TextsRead(Field(e, "requiredInterventionPoints"));
    TextsRead(Field(e, "observedInterventionPoints"));
    assert Field(e, "observedInterventionPoints").Some? by { TextsArray(Field(e, "observedInterventionPoints")); }
    Subset(f.required, f.observed);
  }

  lemma EnforcementFields(d: Doc)
    requires ReadEnforcement(d).Some?
    ensures var f := ReadEnforcement(d).value;
            && Field(d, "mode") == Some(Str(f.mode)) && Field(d, "defaultBehavior") == Some(Str(f.defaultBehavior))
            && ReadTexts(Field(d, "requiredInterventionPoints")) == Some(f.required)
            && ReadTexts(Field(d, "observedInterventionPoints")) == Some(f.observed)
  {
    hide Field, HasMembers, ReadTexts;
  }

  lemma PolicyFields(d: Doc)
    requires ReadRuntimePolicy(d).Some?
    ensures var p := ReadRuntimePolicy(d).value;
            && Field(d, "loaded") == Some(Bool(p.loaded))
            && (Rego.AtLeast(Field(d, "count"), 1.0) <==> p.count >= 1)
  {
    hide Field, HasMembers, ReadArtifact;
  }

  function TextSet(texts: seq<string>): set<Json> {
    set t | t in texts :: Str(t)
  }

  lemma TextsRead(d: Doc)
    requires ReadTexts(d).Some?
    ensures Rego.Iterable(d) && Rego.Count(d) == Some(|ReadTexts(d).value|)
    ensures Rego.Elements(d) == TextSet(ReadTexts(d).value)
  {
    var texts := ReadTexts(d).value;
    assert forall i | 0 <= i < |texts| :: d.value.items[i] == Str(texts[i]) && texts[i] in texts;
  }

  lemma Subset(a: seq<string>, b: seq<string>)
    ensures (forall x | x in TextSet(a) :: x in TextSet(b)) <==> forall q | q in a :: q in b
  {
    if forall x | x in TextSet(a) :: x in TextSet(b) {
      forall q | q in a
        ensures q in b
      {
        assert Str(q) in TextSet(a);
      }
    }
  }
}
