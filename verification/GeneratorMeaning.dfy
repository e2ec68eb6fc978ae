/**
 What the generator accepts, said once as conditions on the evidence and held against the validators that decide it.
 */
module GeneratorMeaning {
  import opened Wrappers
  import opened Lists
  import opened Sorting
  import opened EvidenceModel
  import Extensions
  import Forms
  import FormsMeaning
  import Rfc3339

  // ----- distinct cases -----

  function Ids(cases: seq<Case>): set<string> {
    set c | c in cases :: c.id
  }

  function Kinds(cases: seq<Case>): set<string> {
    set c | c in cases :: c.kind
  }

  function IdList(cases: seq<Case>): seq<string> {
    seq(|cases|, i requires 0 <= i < |cases| => cases[i].id)
  }

  function KindList(cases: seq<Case>): seq<string> {
    seq(|cases|, i requires 0 <= i < |cases| => cases[i].kind)
  }

  lemma IdsListed(cases: seq<Case>)
    ensures ToSet(IdList(cases)) == Ids(cases)
  {
    var list := IdList(cases);
    assert forall i | 0 <= i < |cases| :: list[i] == cases[i].id && cases[i] in cases;
  }

  lemma KindsListed(cases: seq<Case>)
    ensures ToSet(KindList(cases)) == Kinds(cases)
  {
    var list := KindList(cases);
    assert forall i | 0 <= i < |cases| :: list[i] == cases[i].kind && cases[i] in cases;
  }

  /** As many ids as cases, and as many kinds. */
  lemma DistinctMeans(cases: seq<Case>)
    ensures DistinctCases(cases) <==> |Ids(cases)| == |cases| && |Kinds(cases)| == |cases|
  {
    IdsListed(cases);
    KindsListed(cases);
    CountDistinct(IdList(cases));
    CountDistinct(KindList(cases));
    assert NoDuplicates(IdList(cases)) <==> forall i, j | 0 <= i < j < |cases| :: cases[i].id != cases[j].id by {
      assert forall i | 0 <= i < |cases| :: IdList(cases)[i] == cases[i].id;
    }
    assert NoDuplicates(KindList(cases)) <==> forall i, j | 0 <= i < j < |cases| :: cases[i].kind != cases[j].kind by {
      assert forall i | 0 <= i < |cases| :: KindList(cases)[i] == cases[i].kind;
    }
  }

  /** Accepted evidence has as many distinct ids, and as many distinct kinds, as it has cases. */
  lemma AcceptedDistinct(lib: Library, e: Evidence)
    requires Generate(lib, e).Some?
    ensures var v := Generate(lib, e).value;
            && |v.cases| == |e.cases| && 1 <= |e.cases| <= 4
            && |Ids(v.cases)| == |v.cases| && |Kinds(v.cases)| == |v.cases|
            && Ids(e.cases) == Ids(v.cases) && Kinds(e.cases) == Kinds(v.cases)
  {
    hide Canon, SchemaAccepts, RootValid, RuntimeAdapterValid, RuntimePolicyValid, EnforcementValid, IdentityAuditValid;
    hide ExtensionsValid, CaseValid, DistinctCases, Ids, Kinds;
    CanonCount(e);
    DistinctMeans(Canon(e).value.cases);
    NamesKept(e);
  }

  lemma CaseNameKept(c: Case)
    requires CanonCase(c).Some?
    ensures CanonCase(c).value.id == c.id && CanonCase(c).value.kind == c.kind
  {
    hide NormalizeDigest, Rfc3339.NormalizeTimestamp, CanonObservation;
  }

  /** Normalisation renames no case. */
  lemma NamesKept(e: Evidence)
    requires Canon(e).Some?
    ensures Ids(Canon(e).value.cases) == Ids(e.cases) && Kinds(Canon(e).value.cases) == Kinds(e.cases)
  {
    hide CanonHead, CanonCase, CanonEnforcement, CanonExtensions, CaseLess, StableSort;
    var y, z := CanonCases(e.cases).value, Canon(e).value.cases;
    CollectMaps(CanonCase, e.cases);
    SortPermutes(CaseLess, y);
    PermutedSize(z, y);
    assert forall x :: x in z <==> x in y by {
      assert forall x :: x in z <==> x in ToSet(z);
      assert forall x :: x in y <==> x in ToSet(y);
    }
    forall i | 0 <= i < |e.cases|
      ensures y[i].id == e.cases[i].id && y[i].kind == e.cases[i].kind && y[i] in y && e.cases[i] in e.cases
    {
      CaseNameKept(e.cases[i]);
    }
    SameNames(e.cases, y, z);
  }

  lemma SameNames(x: seq<Case>, y: seq<Case>, z: seq<Case>)
    requires |x| == |y| && forall i | 0 <= i < |x| :: x[i].id == y[i].id && x[i].kind == y[i].kind
    requires forall c :: c in y <==> c in z
    ensures Ids(x) == Ids(z) && Kinds(x) == Kinds(z)
  {
    assert IdList(x) == IdList(y) && KindList(x) == KindList(y);
    IdsListed(x);
    IdsListed(y);
    KindsListed(x);
    KindsListed(y);
    assert Ids(y) == Ids(z) && Kinds(y) == Kinds(z);
  }

  /** Two cases that share an id or a kind are refused, whatever else holds. */
  lemma SharedNameRefused(lib: Library, e: Evidence, i: nat, j: nat)
    requires i < j < |e.cases|
    requires e.cases[i].id == e.cases[j].id || e.cases[i].kind == e.cases[j].kind
    ensures Generate(lib, e).None?
  {
    hide Generate, Canon, Ids, Kinds;
    if Generate(lib, e).Some? {
      AcceptedDistinct(lib, e);
      DistinctByNames(e.cases);
    }
  }

  lemma DistinctByNames(cases: seq<Case>)
    requires |Ids(cases)| == |cases| && |Kinds(cases)| == |cases|
    ensures forall i, j | 0 <= i < j < |cases| :: cases[i].id != cases[j].id && cases[i].kind != cases[j].kind
  {
    hide Ids, Kinds;
    DistinctMeans(cases);
  }

  // ----- texts -----

  /** One to limit bytes of UTF-8 without control characters. */
  predicate Text(s: string, limit: nat) {
    1 <= Forms.Utf8Length(s) <= limit && forall i | 0 <= i < |s| :: !(s[i] < ' ' || '\U{7F}' <= s[i] <= '\U{9F}')
  }

  lemma TextMeans(s: string, limit: nat)
    ensures BoundedText(s, limit) <==> Text(s, limit)
  {
    Forms.Utf8LengthAtLeast(s);
  }

  predicate Hex(c: char) {
    c in FormsMeaning.DIGITS + "abcdef" + "ABCDEF"
  }

  /** Every percent sign from i on is followed by two hexadecimal digits. */
  predicate Escaped(s: string, i: nat) {
    forall k | i <= k < |s| && s[k] == '%' :: k + 2 < |s| && Hex(s[k + 1]) && Hex(s[k + 2])
  }

  /** The scan, which skips what it has matched, misses no percent sign. */
  lemma {:induction false} EscapedMeans(s: string, i: nat)
    requires i <= |s|
    ensures PercentValid(s, i) <==> Escaped(s, i)
    decreases |s| - i
  {
    hide Hex, Forms.IsHex;
    if i < |s| {
      if s[i] != '%' {
        EscapedMeans(s, i + 1);
      } else if i + 2 < |s| {
        HexMeans(s[i + 1]);
        HexMeans(s[i + 2]);
        EscapedMeans(s, i + 3);
        NoPercent(s[i + 1]);
        NoPercent(s[i + 2]);
      }
    }
  }

  lemma HexMeans(c: char)
    ensures Forms.IsHex(c) <==> Hex(c)
  {
    FormsMeaning.HexMeans(c);
  }

  lemma NoPercent(c: char)
    ensures Hex(c) ==> c != '%'
  {
    HexMeans(c);
  }

  // ----- validity -----

  /** An absolute URI: bounded, escaped, with a scheme, and with a host where the scheme is https or oci. */
  predicate Uri(lib: Library, s: string) {
    && Text(s, 2048)
    && Escaped(s, 0)
    && match lib.parseUrl(s)
       case Some(url) => url.scheme != "" && (url.scheme in {"https", "oci"} ==> url.host != "")
       case None => false
  }

  lemma UriMeans(lib: Library, s: string)
    ensures AbsoluteUri(lib, s) <==> Uri(lib, s)
  {
    hide BoundedText, Text, PercentValid, Escaped;
    TextMeans(s, 2048);
    EscapedMeans(s, 0);
  }

  /** An immutable artifact: an https, oci or urn URI whose scheme is written in lower case, and a digest. */
  predicate Artifact(lib: Library, r: ArtifactRef) {
    && Uri(lib, r.uri)
    && lib.parseUrl(r.uri).value.scheme in {"https", "oci", "urn"}
    && (exists k | 0 <= k < |r.uri| && r.uri[k] == ':' ::
          forall j | 0 <= j < k :: r.uri[j] != ':' && r.uri[j] !in FormsMeaning.UPPER)
    && Forms.CanonicalDigest(r.digest)
  }

  lemma ArtifactMeans(lib: Library, r: ArtifactRef)
    ensures ArtifactValid(lib, r) <==> Artifact(lib, r)
  {
    hide AbsoluteUri, Uri, Forms.CanonicalDigest;
    UriMeans(lib, r.uri);
    forall c: char
      ensures 'A' <= c <= 'Z' <==> c in FormsMeaning.UPPER
    {
      FormsMeaning.UpperMeans(c);
    }
  }

  predicate Redacted(r: RedactedRef) {
    Forms.RedactedId(r.id) && Forms.CanonicalDigest(r.digest)
  }

  /** Everything outside the cases. */
  predicate AcceptableHead(lib: Library, e: Evidence) {
    && e.schemaVersion == "0.1"
    && Text(e.agent.name, 256) && Uri(lib, e.agent.uri) && Forms.CanonicalDigest(e.agent.artifactDigest)
    && Text(e.runtime.name, 128) && Text(e.runtime.version, 128)
    && (e.runtime.framework == "" || Text(e.runtime.framework, 128)) && Artifact(lib, e.runtime.artifact)
    && Text(e.adapter.name, 128) && Artifact(lib, e.adapter.artifact) && e.adapter.contractVersion == "0.1"
    && e.adapter.runtimeDigest == e.runtime.artifact.digest
    && Forms.IdValue(e.runtimePolicy.engine) && Artifact(lib, e.runtimePolicy.artifact)
    && (if e.runtimePolicy.loaded then 1 <= e.runtimePolicy.count <= 64 else e.runtimePolicy.count == 0)
  }

  predicate AcceptablePoints(points: seq<string>) {
    |points| <= 32 && forall p | p in points :: Forms.IdValue(p)
  }

  predicate AcceptableRest(lib: Library, e: Evidence) {
    && e.enforcement.mode in {"enforce", "monitor"} && e.enforcement.defaultBehavior in {"allow", "deny"}
    && e.enforcement.required != []
    && AcceptablePoints(e.enforcement.required) && AcceptablePoints(e.enforcement.observed)
    && Uri(lib, e.identity.providerUri) && e.identity.subjectKind in {"agent", "workload"}
    && Redacted(e.identity.subject)
    && Forms.IdValue(e.audit.sinkKind) && Redacted(e.audit.sink) && Forms.CanonicalDigest(e.audit.configurationDigest)
    && Forms.IdValue(e.fixture.id) && e.fixture.producer in {"agt", "non-agt"}
    && e.tool.name == "write-marker" && e.tool.actionClass == "filesystem.write.marker"
    && Artifact(lib, e.tool.artifact)
  }

  lemma HeadMeans(lib: Library, e: Evidence)
    ensures RootValid(lib, e) && RuntimeAdapterValid(lib, e) && RuntimePolicyValid(lib, e) <==> AcceptableHead(lib, e)
  {
    hide BoundedText, Text, AbsoluteUri, Uri, ArtifactValid, Artifact, Forms.IdValue, Forms.CanonicalDigest;
    TextMeans(e.agent.name, 256);
    UriMeans(lib, e.agent.uri);
    TextMeans(e.runtime.name, 128);
    TextMeans(e.runtime.version, 128);
    TextMeans(e.runtime.framework, 128);
    TextMeans(e.adapter.name, 128);
    ArtifactMeans(lib, e.runtime.artifact);
    ArtifactMeans(lib, e.adapter.artifact);
    ArtifactMeans(lib, e.runtimePolicy.artifact);
    DigestOfArtifact(lib, e.runtime.artifact);
  }

  lemma DigestOfArtifact(lib: Library, r: ArtifactRef)
    ensures ArtifactValid(lib, r) ==> Forms.CanonicalDigest(r.digest)
  {
  }

  lemma RestMeans(lib: Library, e: Evidence)
    ensures EnforcementValid(e.enforcement) && IdentityAuditValid(lib, e) && ConformanceHeadValid(lib, e)
       <==> AcceptableRest(lib, e) && 1 <= |e.cases| <= 4
  {
    hide AbsoluteUri, Uri, ArtifactValid, Artifact, Forms.IdValue, Forms.CanonicalDigest, Forms.RedactedId;
    UriMeans(lib, e.identity.providerUri);
    ArtifactMeans(lib, e.tool.artifact);
  }

  /** A record of something seen within the interval of the case. */
  predicate Evidenced(c: Case, o: Observation) {
    && o.reference.Some? && Redacted(o.reference.value)
    && match (ParseNs(c.startedAt), ParseNs(o.observedAt), ParseNs(c.completedAt))
       case (Some(started), Some(observed), Some(completed)) => started <= observed <= completed
       case _ => false
  }

  /** Nothing seen, and nothing on record. */
  predicate Silent(o: Observation) {
    o.finding == "unknown" && o.reference == None && o.observedAt == ""
  }

  predicate AcceptableCase(e: Evidence, c: Case) {
    var exercised := forall p | p in e.enforcement.required :: p in e.enforcement.observed;
    var observed, verified := c.decision.state == "observed", c.outcome.state == "verified";
    && Forms.IdValue(c.id) && Forms.CanonicalDigest(c.correlationId)
    && c.testResult.predicateType == "https://in-toto.io/attestation/test-result/v0.1"
    && c.testResult.testId == c.id && Forms.CanonicalDigest(c.testResult.statementDigest)
    && (match (ParseNs(c.startedAt), ParseNs(c.completedAt))
        case (Some(started), Some(completed)) => started <= completed <= started + 300 * 1000000000
        case _ => false)
    && (if observed then c.decision.finding in {"allow", "deny"} && Evidenced(c, c.decision)
        else c.decision.state == "not-observed" && Silent(c.decision))
    && (if verified then c.outcome.finding in {"occurred", "blocked"} && Evidenced(c, c.outcome)
        else c.outcome.state == "unknown" && Silent(c.outcome))
    && (|| (c.kind == "allowed-action" && observed && c.decision.finding == "allow")
        || (c.kind == "denied-action" && observed && c.decision.finding == "deny")
        || (c.kind == "adapter-bypass" && !(observed && exercised))
        || (c.kind == "no-policy-loaded" && !e.runtimePolicy.loaded))
  }

  lemma EmptyUnread()
    ensures ParseNs("").None?
  {
  }

  lemma CaseMeans(e: Evidence, c: Case)
    ensures CaseValid(e, c) <==> AcceptableCase(e, c)
  {
    hide ParseNs, Forms.IdValue, Forms.CanonicalDigest, Forms.RedactedId;
    EmptyUnread();
  }

  predicate AcceptableExtensions(lib: Library, e: Evidence) {
    && |e.extensions| <= 8
    && forall k | k in e.extensions ::
         && Forms.Utf8Length(k) <= 256 && Uri(lib, k)
         && Extensions.HeightAtMost(e.extensions[k], 4) && Extensions.WidthAtMost(e.extensions[k], 16)
  }

  lemma ExtensionsMean(lib: Library, e: Evidence)
    ensures ExtensionsValid(lib, e) <==> AcceptableExtensions(lib, e)
  {
    hide AbsoluteUri, Uri, Extensions.HeightAtMost, Extensions.WidthAtMost, Extensions.DepthOk;
    forall k | k in e.extensions
      ensures AbsoluteUri(lib, k) <==> Uri(lib, k)
      ensures Extensions.DepthOk(e.extensions[k], 1) <==>
        Extensions.HeightAtMost(e.extensions[k], 4) && Extensions.WidthAtMost(e.extensions[k], 16)
    {
      UriMeans(lib, k);
      Extensions.DepthIsHeightAndWidth(e.extensions[k], 1);
    }
  }

  /** Evidence that the generator accepts. */
  predicate Acceptable(lib: Library, e: Evidence) {
    && AcceptableHead(lib, e) && AcceptableRest(lib, e) && AcceptableExtensions(lib, e)
    && 1 <= |e.cases| <= 4 && |Ids(e.cases)| == |e.cases| && |Kinds(e.cases)| == |e.cases|
    && forall c | c in e.cases :: AcceptableCase(e, c)
  }

  /** The validators decide exactly that. */
  lemma ValidMeans(lib: Library, e: Evidence)
    ensures Valid(lib, e) <==> Acceptable(lib, e)
  {
    hide RootValid, RuntimeAdapterValid, RuntimePolicyValid, EnforcementValid, IdentityAuditValid, ExtensionsValid;
    hide ConformanceHeadValid, CaseValid, DistinctCases, AcceptableHead, AcceptableRest, AcceptableCase, Ids, Kinds;
    hide AcceptableExtensions;
    HeadMeans(lib, e);
    RestMeans(lib, e);
    DistinctMeans(e.cases);
    ExtensionsMean(lib, e);
    forall c
      ensures CaseValid(e, c) <==> AcceptableCase(e, c)
    {
      CaseMeans(e, c);
    }
  }
}
