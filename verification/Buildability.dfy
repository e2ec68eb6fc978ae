/**
 Which reports of the producer BuildCase accepts: with well-formed identifiers, exactly those whose kind label is
 honest about the run.
 */
module Buildability {
  import opened Wrappers
  import opened Json
  import opened EvidenceModel
  import opened Statements
  import opened Admission
  import opened Printed
  import opened Producer
  import opened Pipeline
  import opened Sorting
  import Lists
  import ToyRuntime
  import Gate
  import Forms
  import Calendar
  import Rfc3339
  import Canonical

  /** The label says no more than the run shows. */
  predicate Honest(spec: Spec, policy: ToyRuntime.PolicyDoc) {
    && Decided(spec, policy).Some?
    && var d := Decided(spec, policy).value;
    && KindOrder(spec.kind).Some?
    && (d.Some? ==> d.value.verdict in {"allow", "deny"})
    && (spec.kind == "allowed-action" ==> d.Some? && d.value.verdict == "allow")
    && (spec.kind == "denied-action" ==> d.Some? && d.value.verdict == "deny")
    && (spec.kind == "adapter-bypass" ==> spec.bypass)
    && (spec.kind == "no-policy-loaded" ==> !spec.policyLoaded)
  }

  // ----- fixed texts -----

  lemma {:induction false} Utf8LengthAtMost(s: string)
    ensures Forms.Utf8Length(s) <= 4 * |s|
  {
    if s != [] {
      Utf8LengthAtMost(s[1..]);
    }
  }

  /** Printable ASCII without a percent sign. */
  predicate PlainText(s: string) {
    forall i | 0 <= i < |s| :: ' ' <= s[i] < '\U{7F}' && s[i] != '%'
  }

  lemma PlainBounded(s: string, limit: nat)
    requires PlainText(s) && s != "" && 4 * |s| <= limit
    ensures BoundedText(s, limit)
  {
    Utf8LengthAtMost(s);
  }

  lemma {:induction false} PlainPercent(s: string, i: nat)
    requires PlainText(s) && i <= |s|
    ensures PercentValid(s, i)
    decreases |s| - i
  {
    if i < |s| {
      PlainPercent(s, i + 1);
    }
  }

  /** What url.Parse and the URI pattern of the schema say of a URN. */
  predicate KnownUrn(lib: Library, uri: string) {
    lib.uriPattern(uri) && lib.parseUrl(uri) == Some(Url("urn", ""))
  }

  lemma UrnArtifact(lib: Library, r: ArtifactRef)
    requires KnownUrn(lib, r.uri) && "urn:" <= r.uri && PlainText(r.uri) && |r.uri| <= 512
    requires Forms.CanonicalDigest(r.digest)
    ensures ArtifactValid(lib, r)
  {
    hide Forms.CanonicalDigest, PlainText, BoundedText;
    PlainBounded(r.uri, 2048);
    PlainPercent(r.uri, 0);
    UrnScheme(r.uri);
  }

  lemma UrnScheme(uri: string)
    requires "urn:" <= uri
    ensures LowerScheme(uri)
  {
    assert uri[0] == 'u' && uri[1] == 'r' && uri[2] == 'n' && uri[3] == ':';
  }

  lemma FixedTexts()
    ensures BoundedText("toy-runtime", 128) && BoundedText("1.0.0", 128) && BoundedText("non-agt-fixture-adapter", 128)
    ensures Forms.IdValue(ENGINE) && Forms.IdValue(INTERVENTION_POINT)
    ensures Forms.IdValue(PRODUCER + "-fixture-001") && PRODUCER in {"agt", "non-agt"}
  {
    hide BoundedText;
    PlainBounded("toy-runtime", 128);
    PlainBounded("1.0.0", 128);
    PlainBounded("non-agt-fixture-adapter", 128);
  }

  lemma UrnBasePlain()
    ensures PlainText(URN_BASE) && "urn:" <= URN_BASE && |URN_BASE| == 36
  {
  }

  lemma OwnUrn(suffix: string)
    requires PlainText(suffix) && |suffix| <= 100
    ensures var u := URN_BASE + ":" + PRODUCER + suffix;
            PlainText(u) && "urn:" <= u && |u| <= 512
  {
    UrnBasePlain();
    hide URN_BASE;
  }

  lemma ToolUrn()
    ensures PlainText(TOOL_URI) && "urn:" <= TOOL_URI && |TOOL_URI| <= 512
  {
  }

  lemma SuffixesPlain()
    ensures PlainText(":runtime:1.0.0") && PlainText(":adapter:0.1")
    ensures PlainText(":runtime-policy:write-marker") && PlainText(":runtime-policy:none")
  {
  }

  // ----- the producer's clock within its minute -----

  lemma TsShape(second: nat)
    requires second <= 59
    ensures var t := Ts(second);
            && Rfc3339.SecondsShape(t)
            && 100 * Rfc3339.Value2(t, 0) + Rfc3339.Value2(t, 2) == 2026
            && Rfc3339.Value2(t, 5) == 8 && Rfc3339.Value2(t, 8) == 26
            && Rfc3339.Value2(t, 11) == 20 && Rfc3339.Value2(t, 14) == 0 && Rfc3339.Value2(t, 17) == second
  {
    var t := Ts(second);
    var digits := if second < 10 then "0" + Forms.Digits(second) else Forms.Digits(second);
    assert Forms.Digits(second / 10) == ['0' + (second / 10) as char];
    assert |digits| == 2 && digits[0] == '0' + (second / 10) as char && digits[1] == '0' + (second % 10) as char;
    assert t[..17] == "2026-08-26T20:00:";
    assert forall i | 0 <= i < 17 :: t[i] == t[..17][i];
    assert t[17] == digits[0] && t[18] == digits[1];
  }

  /** 2026-08-26T20:00:00Z */
  const MINUTE: int := Calendar.Instant(Calendar.Civil(Calendar.Date(2026, 8, 26), 20, 0, 0))

  lemma TsReads(second: nat)
    requires second <= 59
    ensures Rfc3339.NormalizeTimestamp(Ts(second)) == Some(Ts(second))
    ensures ParseNs(Ts(second)) == Some((MINUTE + second) * 1000000000)
    ensures Ts(second) != ""
  {
    hide Ts, Rfc3339.Parse, Rfc3339.SecondsShape, Rfc3339.NormalizeTimestamp, Rfc3339.Value2;
    TsShape(second);
    Rfc3339.ShapeParses(Ts(second), Rfc3339.LiteralZ);
    Rfc3339.ShapeParses(Ts(second), Rfc3339.Zoned);
    Rfc3339.CanonicalTextFixed(Ts(second));
  }

  // ----- canonical evidence is left alone -----

  /** Every digest of the sections is canonical. */
  predicate CanonicalHead(e: Evidence) {
    && Forms.CanonicalDigest(e.agent.artifactDigest)
    && Forms.CanonicalDigest(e.runtime.artifact.digest)
    && Forms.CanonicalDigest(e.adapter.artifact.digest) && Forms.CanonicalDigest(e.adapter.runtimeDigest)
    && Forms.CanonicalDigest(e.runtimePolicy.artifact.digest)
    && Forms.CanonicalDigest(e.identity.subject.digest)
    && Forms.CanonicalDigest(e.audit.sink.digest) && Forms.CanonicalDigest(e.audit.configurationDigest)
    && Forms.CanonicalDigest(e.tool.artifact.digest)
  }

  lemma HeadFixed(e: Evidence)
    requires CanonicalHead(e)
    ensures CanonHead(e) == Some(e)
  {
    hide Forms.CanonicalDigest, NormalizeDigest;
    Canonical.CanonicalDigestFixed(e.agent.artifactDigest);
    Canonical.CanonicalDigestFixed(e.runtime.artifact.digest);
    Canonical.CanonicalDigestFixed(e.adapter.artifact.digest);
    Canonical.CanonicalDigestFixed(e.adapter.runtimeDigest);
    Canonical.CanonicalDigestFixed(e.runtimePolicy.artifact.digest);
    Canonical.CanonicalDigestFixed(e.identity.subject.digest);
    Canonical.CanonicalDigestFixed(e.audit.sink.digest);
    Canonical.CanonicalDigestFixed(e.audit.configurationDigest);
    Canonical.CanonicalDigestFixed(e.tool.artifact.digest);
  }

  /** A printed time of the minute, or none. */
  predicate MinuteTime(t: string) {
    t == "" || exists second: nat | second <= 59 :: t == Ts(second)
  }

  predicate CanonicalObservation(o: Observation) {
    && (o.reference.Some? ==> Forms.CanonicalDigest(o.reference.value.digest))
    && MinuteTime(o.observedAt)
  }

  lemma ObservationFixed(o: Observation)
    requires CanonicalObservation(o)
    ensures CanonObservation(o) == Some(o)
  {
    hide Forms.CanonicalDigest, NormalizeDigest, Ts, Rfc3339.NormalizeTimestamp;
    if o.reference.Some? {
      Canonical.CanonicalDigestFixed(o.reference.value.digest);
    }
    if o.observedAt != "" {
      var second: nat :| second <= 59 && o.observedAt == Ts(second);
      TsReads(second);
    }
  }

  lemma CaseFixed(c: Case, start: nat)
    requires start <= 58 && c.startedAt == Ts(start) && c.completedAt == Ts(start + 1)
    requires Forms.CanonicalDigest(c.correlationId) && Forms.CanonicalDigest(c.testResult.statementDigest)
    requires CanonicalObservation(c.decision) && CanonicalObservation(c.outcome)
    ensures CanonCase(c) == Some(c)
  {
    hide Forms.CanonicalDigest, NormalizeDigest, Ts, Rfc3339.NormalizeTimestamp, CanonObservation, CanonicalObservation;
    Canonical.CanonicalDigestFixed(c.correlationId);
    Canonical.CanonicalDigestFixed(c.testResult.statementDigest);
    TsReads(start);
    TsReads(start + 1);
    ObservationFixed(c.decision);
    ObservationFixed(c.outcome);
  }

  lemma PointsFixed(points: seq<string>)
    requires |points| <= 1
    ensures DedupeSort(points) == points
  {
    hide DedupeSort;
    DedupeSortSpec(points);
    Lists.CountDistinct(DedupeSort(points));
    Lists.CountDistinct(points);
    if points != [] {
      assert DedupeSort(points)[0] in Lists.ToSet(points);
    }
  }

  /** Evidence of one canonical case, with no extensions and at most one point each way, is its own normal form. */
  lemma OneCaseFixed(e: Evidence)
    requires CanonicalHead(e) && e.extensions == map[] && |e.cases| == 1
    requires |e.enforcement.required| <= 1 && |e.enforcement.observed| <= 1
    requires CanonCase(e.cases[0]) == Some(e.cases[0])
    ensures Canon(e) == Some(e)
  {
    hide CanonHead, CanonCase, CanonCases, StableSort, DedupeSort, CanonicalHead;
    HeadFixed(e);
    PointsFixed(e.enforcement.required);
    PointsFixed(e.enforcement.observed);
    OneCanonCase(e.cases[0]);
    assert e.cases == [e.cases[0]];
    assert CanonExtensions(e.extensions) == map[];
  }

  // ----- well-formed reports -----

  /** An id that may stand in a redacted reference with a suffix. */
  predicate WellFormedId(id: string) {
    Forms.IdValue(id) && |id| <= 103 && forall i | 0 <= i < |id| :: Forms.IsRedactedChar(id[i])
  }

  /** The identifiers, digests and times that the harness hands the producer. */
  predicate WellFormed(lib: Library, spec: Spec, shared: Shared) {
    && WellFormedId(spec.caseId)
    && spec.start <= 58
    && BoundedText(shared.agent.name, 256)
    && AbsoluteUri(lib, shared.agent.uri)
    && Forms.CanonicalDigest(shared.agent.artifactDigest)
    && Forms.CanonicalDigest(shared.runtimeDigest) && Forms.CanonicalDigest(shared.adapterDigest)
    && Forms.CanonicalDigest(shared.policyDigest) && Forms.CanonicalDigest(shared.noPolicyDigest)
    && Forms.CanonicalDigest(shared.toolDigest)
    && AbsoluteUri(lib, shared.identity.providerUri)
    && shared.identity.subjectKind in {"agent", "workload"}
    && RedactedValid(shared.identity.subject)
    && Forms.IdValue(shared.audit.sinkKind)
    && RedactedValid(shared.audit.sink)
    && Forms.CanonicalDigest(shared.audit.configurationDigest)
  }

  function OwnUri(suffix: string): string {
    URN_BASE + ":" + PRODUCER + suffix
  }

  /** The libraries know the URIs of the report for what they are. */
  predicate UrisKnown(lib: Library, shared: Shared) {
    && lib.uriPattern(shared.agent.uri) && lib.uriPattern(shared.identity.providerUri)
    && KnownUrn(lib, OwnUri(":runtime:1.0.0")) && KnownUrn(lib, OwnUri(":adapter:0.1"))
    && KnownUrn(lib, OwnUri(":runtime-policy:write-marker")) && KnownUrn(lib, OwnUri(":runtime-policy:none"))
    && KnownUrn(lib, TOOL_URI)
  }

  lemma RecordRefValid(host: Host, id: string, suffix: string, record: Json)
    requires WellFormedId(id) && 1 <= |suffix| <= 9 && forall i | 0 <= i < |suffix| :: Forms.IsRedactedChar(suffix[i])
    ensures RedactedValid(RecordRef(host, Forms.REDACTED_PREFIX + id + suffix, record))
  {
    hide Forms.IsRedactedChar, Forms.IsIdChar;
    var t := Forms.REDACTED_PREFIX + id + suffix;
    assert t[..9] == Forms.REDACTED_PREFIX;
    assert forall i | 9 <= i < 9 + |id| :: t[i] == id[i - 9];
    assert forall i | 9 + |id| <= i < |t| :: t[i] == suffix[i - 9 - |id|];
    SumCanonical(host.recordDigest(record));
  }

  lemma SuffixChars()
    ensures forall i | 0 <= i < 9 :: Forms.IsRedactedChar("-decision"[i])
    ensures forall i | 0 <= i < 8 :: Forms.IsRedactedChar("-outcome"[i])
  {
  }

  lemma ObservationsCanonical(
    host: Host, spec: Spec, shared: Shared, decision: Option<ToyRuntime.Decision>, marker: bool)
    requires WellFormedId(spec.caseId) && spec.start <= 58
    ensures var d, o := DecisionObservation(host, spec, shared, decision), OutcomeObservation(host, spec, marker);
            && CanonicalObservation(d) && (d.reference.Some? ==> RedactedValid(d.reference.value))
            && CanonicalObservation(o) && (o.reference.Some? ==> RedactedValid(o.reference.value))
  {
    hide WellFormedId, Ts, DecisionRecord, OutcomeRecord, RecordRef, Forms.CanonicalDigest, Forms.RedactedId;
    hide Forms.IsRedactedChar;
    SuffixChars();
    if decision.Some? {
      RecordRefValid(host, spec.caseId, "-decision", DecisionRecord(spec, shared, decision.value));
    }
    RecordRefValid(host, spec.caseId, "-outcome", OutcomeRecord(host, spec, marker));
  }

  /** The report, with any canonical digest written into it, is in normal form. */
  lemma ReportCanonical(
    lib: Library, host: Host, spec: Spec, shared: Shared, policy: ToyRuntime.PolicyDoc, e: Evidence, digest: string)
    requires WellFormed(lib, spec, shared) && Produce(host, spec, shared, policy) == Some(e)
    requires Forms.CanonicalDigest(digest)
    ensures |e.cases| == 1 && Canon(WithDigest(e, digest)) == Some(WithDigest(e, digest))
  {
    hide WellFormedId, Forms.CanonicalDigest, Ts, DecisionObservation, OutcomeObservation, AbsoluteUri, BoundedText;
    hide Canon, CanonCase, CanonicalObservation, Decided, URN_BASE, Forms.RedactedId, Forms.IdValue;
    var d := Decided(spec, policy).value;
    ObservationsCanonical(host, spec, shared, d, ToolRuns(d));
    SumCanonical(host.textDigest(CORRELATION_SALT + ":" + PRODUCER + ":" + spec.caseId));
    var f := WithDigest(e, digest);
    CaseFixed(f.cases[0], spec.start);
    OneCaseFixed(f);
  }

  // ----- the validators on a well-formed report -----

  lemma ReportSections(
    lib: Library, host: Host, spec: Spec, shared: Shared, policy: ToyRuntime.PolicyDoc, e: Evidence)
    requires WellFormed(lib, spec, shared) && UrisKnown(lib, shared) && Produce(host, spec, shared, policy) == Some(e)
    ensures RootValid(lib, e) && RuntimeAdapterValid(lib, e) && RuntimePolicyValid(lib, e)
    ensures EnforcementValid(e.enforcement) && IdentityAuditValid(lib, e) && ConformanceHeadValid(lib, e)
    ensures e.extensions == map[]
  {
    hide WellFormedId, Forms.CanonicalDigest, Ts, DecisionObservation, OutcomeObservation, AbsoluteUri, BoundedText;
    hide ArtifactValid, Decided, KnownUrn, URN_BASE, PRODUCER, INTERVENTION_POINT, ENGINE, TOOL_URI, CaseSection;
    hide Forms.IdValue, RedactedValid, ToyRuntime.Decide;
    FixedTexts();
    Artifacts(lib, spec, shared);
  }

  lemma Artifacts(lib: Library, spec: Spec, shared: Shared)
    requires WellFormed(lib, spec, shared) && UrisKnown(lib, shared)
    ensures ArtifactValid(lib, ArtifactRef(URN_BASE + ":" + PRODUCER + ":runtime:1.0.0", shared.runtimeDigest))
    ensures ArtifactValid(lib, ArtifactRef(URN_BASE + ":" + PRODUCER + ":adapter:0.1", shared.adapterDigest))
    ensures ArtifactValid(lib, PolicySection(spec, shared).artifact)
    ensures ArtifactValid(lib, ArtifactRef(TOOL_URI, shared.toolDigest))
  {
    hide WellFormedId, Forms.CanonicalDigest, AbsoluteUri, BoundedText, ArtifactValid, KnownUrn, URN_BASE, PRODUCER;
    hide TOOL_URI, PlainText, ENGINE;
    SuffixesPlain();
    OwnUrn(":runtime:1.0.0");
    OwnUrn(":adapter:0.1");
    OwnUrn(":runtime-policy:write-marker");
    OwnUrn(":runtime-policy:none");
    ToolUrn();
    UrnArtifact(lib, ArtifactRef(OwnUri(":runtime:1.0.0"), shared.runtimeDigest));
    UrnArtifact(lib, ArtifactRef(OwnUri(":adapter:0.1"), shared.adapterDigest));
    assert URN_BASE + ":" + PRODUCER + ":runtime-policy:" + "write-marker" == OwnUri(":runtime-policy:write-marker");
    assert URN_BASE + ":" + PRODUCER + ":runtime-policy:" + "none" == OwnUri(":runtime-policy:none");
    UrnArtifact(lib, PolicySection(spec, shared).artifact);
    UrnArtifact(lib, ArtifactRef(TOOL_URI, shared.toolDigest));
  }

  lemma MinuteInterval(c: Case, start: nat)
    requires start <= 58 && c.startedAt == Ts(start) && c.completedAt == Ts(start + 1)
    ensures IntervalValid(c)
    ensures ObservedAtValid(c, Ts(start)) && ObservedAtValid(c, Ts(start + 1))
  {
    hide Ts, ParseNs;
    TsReads(start);
    TsReads(start + 1);
  }

  /** Everything in the validation of the case but the kind label and the verdict's vocabulary holds. */
  lemma ReportCase(
    lib: Library, host: Host, spec: Spec, shared: Shared, policy: ToyRuntime.PolicyDoc, e: Evidence, digest: string)
    requires WellFormed(lib, spec, shared) && Produce(host, spec, shared, policy) == Some(e)
    requires Forms.CanonicalDigest(digest)
    ensures |e.cases| == 1 && Decided(spec, policy).Some?
    ensures var f := WithDigest(e, digest);
            CaseValid(f, f.cases[0]) <==> Honest(spec, policy)
  {
    hide Produce, WellFormedId, Forms.CanonicalDigest, Ts, AbsoluteUri, BoundedText, Forms.IdValue, RedactedValid;
    hide RecordRef, DecisionRecord, OutcomeRecord, Decided, IntervalValid, ObservedAtValid, CanonicalObservation;
    hide Exercised, CorrelationId, ToyRuntime.Decide;
    ProducedMembers(host, spec, shared, policy, e);
    var d := Decided(spec, policy).value;
    ObservationsCanonical(host, spec, shared, d, ToolRuns(d));
    Correlated(host, spec, shared, policy, e);
    var f := WithDigest(e, digest);
    MinuteInterval(f.cases[0], spec.start);
    IdOfWellFormed(spec.caseId);
    PointReported(e.enforcement, spec.bypass);
  }

  lemma IdOfWellFormed(id: string)
    requires WellFormedId(id)
    ensures Forms.IdValue(id)
  {
  }

  lemma PointReported(f: Enforcement, bypass: bool)
    requires f.required == [INTERVENTION_POINT]
    requires f.observed == if bypass then [] else [INTERVENTION_POINT]
    ensures Exercised(f) <==> !bypass
  {
    assert f.required[0] in f.required;
  }

  lemma Correlated(host: Host, spec: Spec, shared: Shared, policy: ToyRuntime.PolicyDoc, e: Evidence)
    requires Produce(host, spec, shared, policy) == Some(e)
    ensures |e.cases| == 1 && Forms.CanonicalDigest(e.cases[0].correlationId)
  {
    hide Forms.CanonicalDigest, DecisionObservation, OutcomeObservation, Decided;
    SumCanonical(host.textDigest(CORRELATION_SALT + ":" + PRODUCER + ":" + spec.caseId));
  }

  // ----- BuildCase on a well-formed report -----

  /** The statement digest that BuildCase is going to bind. */
  function BoundDigest(codec: Codec, e: Evidence): string
    requires |e.cases| == 1
  {
    Forms.DIGEST_PREFIX + codec.sha256(codec.marshal(TestResultJson(e, e.cases[0])))
  }

  /** The schemas accept the two documents that BuildCase is going to print. */
  predicate SchemasAccept(codec: Codec, lib: Library, e: Evidence) {
    && |e.cases| == 1
    && codec.testResultAccepts(TestResultBody(e, e.cases[0]))
    && lib.emits(WithDigest(e, BoundDigest(codec, e)))
  }

  lemma Overwritten(e: Evidence, a: string, b: string)
    requires |e.cases| == 1
    ensures WithDigest(WithDigest(e, a), b) == WithDigest(e, b)
    ensures e.cases[0].testResult.statementDigest == b ==> WithDigest(e, b) == e
  {
    assert WithDigest(WithDigest(e, a), b).cases == WithDigest(e, b).cases;
  }

  lemma ReportStatement(
    codec: Codec, host: Host, spec: Spec, shared: Shared, policy: ToyRuntime.PolicyDoc, e: Evidence)
    requires Produce(host, spec, shared, policy) == Some(e)
    ensures |e.cases| == 1
    ensures codec.testResultAccepts(TestResultBody(e, e.cases[0])) ==>
      TestResultStatement(codec, e, e.cases[0]) == Some(TestResultJson(e, e.cases[0]))
  {
    hide Produce, DescriptorJson, Annotations, Decided, RecordRef, DecisionRecord, OutcomeRecord, Ts, StatementJson;
    ProducedMembers(host, spec, shared, policy, e);
  }

  lemma ReportValid(
    lib: Library, host: Host, spec: Spec, shared: Shared, policy: ToyRuntime.PolicyDoc, e: Evidence, digest: string)
    requires WellFormed(lib, spec, shared) && UrisKnown(lib, shared) && Produce(host, spec, shared, policy) == Some(e)
    requires Forms.CanonicalDigest(digest)
    ensures |e.cases| == 1
    ensures Valid(lib, WithDigest(e, digest)) <==> Honest(spec, policy)
  {
    hide WellFormed, UrisKnown, Produce, Forms.CanonicalDigest, RootValid, RuntimeAdapterValid, RuntimePolicyValid;
    hide EnforcementValid, IdentityAuditValid, CaseValid, Honest, Decided;
    ReportSections(lib, host, spec, shared, policy, e);
    ReportCase(lib, host, spec, shared, policy, e, digest);
    SectionsKept(lib, e, digest);
    var f := WithDigest(e, digest);
    assert f.cases == [f.cases[0]];
  }

  lemma SectionsKept(lib: Library, e: Evidence, digest: string)
    requires |e.cases| == 1
    ensures var f := WithDigest(e, digest);
            && RootValid(lib, f) == RootValid(lib, e) && RuntimeAdapterValid(lib, f) == RuntimeAdapterValid(lib, e)
            && RuntimePolicyValid(lib, f) == RuntimePolicyValid(lib, e) && f.enforcement == e.enforcement
            && IdentityAuditValid(lib, f) == IdentityAuditValid(lib, e)
            && ConformanceHeadValid(lib, f) == ConformanceHeadValid(lib, e) && f.extensions == e.extensions
  {
    hide AbsoluteUri, ArtifactValid, BoundedText, RedactedValid, Forms.CanonicalDigest, Forms.IdValue;
  }

  lemma ReportSchema(
    lib: Library, host: Host, spec: Spec, shared: Shared, policy: ToyRuntime.PolicyDoc, e: Evidence, digest: string)
    requires UrisKnown(lib, shared) && Produce(host, spec, shared, policy) == Some(e)
    ensures |e.cases| == 1
    ensures SchemaAccepts(lib, WithDigest(e, digest)) <==> lib.emits(WithDigest(e, digest))
  {
    hide DecisionObservation, OutcomeObservation, Decided, URN_BASE, PRODUCER, TOOL_URI, ENGINE, CaseSection;
    assert URN_BASE + ":" + PRODUCER + ":runtime-policy:" + "write-marker" == OwnUri(":runtime-policy:write-marker");
    assert URN_BASE + ":" + PRODUCER + ":runtime-policy:" + "none" == OwnUri(":runtime-policy:none");
  }

  /** BuildCase accepts a well-formed report exactly when its label is honest. */
  lemma ReportBuiltIffHonest(
    codec: Codec, lib: Library, host: Host, spec: Spec, shared: Shared, policy: ToyRuntime.PolicyDoc, e: Evidence)
    requires WellFormed(lib, spec, shared) && UrisKnown(lib, shared) && Produce(host, spec, shared, policy) == Some(e)
    requires SchemasAccept(codec, lib, e)
    ensures Build(codec, lib, e).Some? <==> Honest(spec, policy)
  {
    hide WellFormed, UrisKnown, Produce, Forms.CanonicalDigest, Valid, SchemaAccepts, Canon, TestResultStatement;
    hide TestResultJson, TestResultBody, Honest, WithDigest, PLACEHOLDER, PredicateJson, StatementJson, Decided;
    ProducedMembers(host, spec, shared, policy, e);
    var digest := BoundDigest(codec, e);
    PlaceholderCanonical();
    SumCanonical(codec.sha256(codec.marshal(TestResultJson(e, e.cases[0]))));
    ReportCanonical(lib, host, spec, shared, policy, e, PLACEHOLDER);
    ReportCanonical(lib, host, spec, shared, policy, e, digest);
    CanonCount(WithDigest(e, PLACEHOLDER));
    Overwritten(e, PLACEHOLDER, "");
    Overwritten(e, PLACEHOLDER, digest);
    ReportStatement(codec, host, spec, shared, policy, e);
    ReportValid(lib, host, spec, shared, policy, e, digest);
    ReportSchema(lib, host, spec, shared, policy, e, digest);
  }

  /**
   End to end, for every policy document and context: a well-formed report on the pinned tool with a policy loaded, no
   bypass, an observed outcome and the kind that the verdict names is built, and what is built is admitted.
   */
  lemma PositiveRunAdmitted(
    env: Gate.Env, lib: Library, codec: Codec, host: Host, spec: Spec, shared: Shared, policy: ToyRuntime.PolicyDoc,
    e: Evidence, b: Built, x: Json, y: Json)
    requires Agrees(env, lib, codec)
    requires WellFormed(lib, spec, shared) && UrisKnown(lib, shared) && Produce(host, spec, shared, policy) == Some(e)
    requires SchemasAccept(codec, lib, e)
    requires PositiveRun(spec, policy) && NormalizeDigest(shared.toolDigest) == Some(Gate.TOOL_DIGEST)
    ensures Build(codec, lib, e).Some?
    ensures Build(codec, lib, e) == Some(b) && ReadsBack(env, codec, b)
            && Carries(env, x, b.deployment) && Carries(env, y, b.testResult)
            ==> Gate.Allow(env, [x, y])
  {
    hide Agrees, ReadsBack, WellFormed, UrisKnown, Produce, SchemasAccept, Build, Carries, NormalizeDigest, Gate.Allow;
    hide Gate.TOOL_DIGEST, Decided;
    ReportBuiltIffHonest(codec, lib, host, spec, shared, policy, e);
    if && Build(codec, lib, e) == Some(b) && ReadsBack(env, codec, b)
       && Carries(env, x, b.deployment) && Carries(env, y, b.testResult)
    {
      ProducedAdmittedIff(env, lib, codec, host, spec, shared, policy, e, b, x, y);
    }
  }
}
