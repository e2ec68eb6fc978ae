/**
 Generate prints a canonical form. Equivalence is defined here on its own, without the normal forms: what two
 producers may write differently about the same facts.
 */
module Canonical {
  import opened Wrappers
  import opened Lists
  import opened Sorting
  import opened EvidenceModel
  import Forms
  import Rfc3339
  import Extensions

  // ----- equivalent evidence -----

  function HexValue(c: char): int
    requires Forms.IsHex(c)
  {
    if c <= '9' then c as int - '0' as int
    else if c <= 'F' then 10 + c as int - 'A' as int
    else 10 + c as int - 'a' as int
  }

  /** The same digest, up to the case of its hexadecimal digits. */
  predicate SameDigest(a: string, b: string) {
    || a == b
    || (&& Forms.LooseDigest(a) && Forms.LooseDigest(b)
        && forall i | 7 <= i < 71 :: HexValue(a[i]) == HexValue(b[i]))
  }

  /** The same instant, whatever the zone it is written in. */
  predicate SameTime(a: string, b: string) {
    var s, t := Rfc3339.Parse(a, Rfc3339.Zoned), Rfc3339.Parse(b, Rfc3339.Zoned);
    || a == b
    || (&& s.Some? && t.Some?
        && Rfc3339.StampInstant(s.value) == Rfc3339.StampInstant(t.value)
        && s.value.nanos == t.value.nanos)
  }

  predicate SameArtifact(a: ArtifactRef, b: ArtifactRef) {
    a.uri == b.uri && SameDigest(a.digest, b.digest)
  }

  predicate SameRedacted(a: RedactedRef, b: RedactedRef) {
    a.id == b.id && SameDigest(a.digest, b.digest)
  }

  predicate SameObservation(a: Observation, b: Observation) {
    && a.state == b.state && a.finding == b.finding
    && a.reference.Some? == b.reference.Some?
    && (a.reference.Some? ==> SameRedacted(a.reference.value, b.reference.value))
    && SameTime(a.observedAt, b.observedAt)
  }

  predicate SameCase(a: Case, b: Case) {
    && a.id == b.id && a.kind == b.kind
    && SameDigest(a.correlationId, b.correlationId)
    && SameTime(a.startedAt, b.startedAt) && SameTime(a.completedAt, b.completedAt)
    && SameObservation(a.decision, b.decision) && SameObservation(a.outcome, b.outcome)
    && a.testResult.predicateType == b.testResult.predicateType
    && a.testResult.testId == b.testResult.testId
    && SameDigest(a.testResult.statementDigest, b.testResult.statementDigest)
  }

  /** The same cases in some order. */
  ghost predicate SameCases(a: seq<Case>, b: seq<Case>) {
    exists c :: multiset(c) == multiset(b) && AlignedCases(a, c)
  }

  predicate AlignedCases(a: seq<Case>, c: seq<Case>) {
    |a| == |c| && forall i | 0 <= i < |a| :: SameCase(a[i], c[i])
  }

  predicate SameHead(a: Evidence, b: Evidence) {
    && a.schemaVersion == b.schemaVersion
    && a.agent.name == b.agent.name && a.agent.uri == b.agent.uri
    && SameDigest(a.agent.artifactDigest, b.agent.artifactDigest)
    && a.runtime.name == b.runtime.name && a.runtime.version == b.runtime.version
    && a.runtime.framework == b.runtime.framework && SameArtifact(a.runtime.artifact, b.runtime.artifact)
    && a.adapter.name == b.adapter.name && SameArtifact(a.adapter.artifact, b.adapter.artifact)
    && a.adapter.contractVersion == b.adapter.contractVersion
    && SameDigest(a.adapter.runtimeDigest, b.adapter.runtimeDigest)
    && a.runtimePolicy.engine == b.runtimePolicy.engine
    && SameArtifact(a.runtimePolicy.artifact, b.runtimePolicy.artifact)
    && a.runtimePolicy.count == b.runtimePolicy.count && a.runtimePolicy.loaded == b.runtimePolicy.loaded
    && a.identity.providerUri == b.identity.providerUri && a.identity.subjectKind == b.identity.subjectKind
    && SameRedacted(a.identity.subject, b.identity.subject)
    && a.audit.sinkKind == b.audit.sinkKind && SameRedacted(a.audit.sink, b.audit.sink)
    && SameDigest(a.audit.configurationDigest, b.audit.configurationDigest)
    && a.fixture == b.fixture
    && a.tool.name == b.tool.name && a.tool.actionClass == b.tool.actionClass
    && SameArtifact(a.tool.artifact, b.tool.artifact)
  }

  /** The same intervention points, in any order and with any repetition. */
  predicate SameEnforcement(a: Enforcement, b: Enforcement) {
    && a.mode == b.mode && a.defaultBehavior == b.defaultBehavior
    && ToSet(a.required) == ToSet(b.required)
    && ToSet(a.observed) == ToSet(b.observed)
  }

  /** Extension values that denote the same values under the same keys. */
  predicate SameExtensions(a: map<string, Extensions.Ext>, b: map<string, Extensions.Ext>) {
    && a.Keys == b.Keys
    && forall k | k in a :: Extensions.Denote(a[k]) == Extensions.Denote(b[k])
  }

  /** The same facts, however a producer wrote them down. */
  ghost predicate Equivalent(a: Evidence, b: Evidence) {
    && SameHead(a, b)
    && SameEnforcement(a.enforcement, b.enforcement)
    && SameCases(a.cases, b.cases)
    && SameExtensions(a.extensions, b.extensions)
  }

  // ----- the parts -----

  lemma LowerHex(x: char, y: char)
    requires Forms.IsHex(x) && Forms.IsHex(y)
    ensures HexValue(x) == HexValue(y) <==> LowerChar(x) == LowerChar(y)
    ensures Forms.IsLowerHex(LowerChar(x))
  {
  }

  lemma LowerDigest(a: string)
    requires Forms.LooseDigest(a)
    ensures Forms.CanonicalDigest(Lower(a))
  {
    forall i | 7 <= i < 71
      ensures Forms.IsLowerHex(Lower(a)[i])
    {
      LowerHex(a[i], a[i]);
    }
    assert Lower(a)[..7] == Forms.DIGEST_PREFIX by {
      assert forall i | 0 <= i < 7 :: a[i] == a[..7][i];
    }
  }

  lemma CanonicalDigestFixed(d: string)
    requires Forms.CanonicalDigest(d)
    ensures NormalizeDigest(d) == Some(d)
  {
    assert forall i | 0 <= i < 7 :: d[i] == d[..7][i];
    assert Lower(d) == d;
  }

  lemma DigestForms(a: string, b: string)
    ensures SameDigest(a, b) ==> NormalizeDigest(a) == NormalizeDigest(b)
    ensures NormalizeDigest(a).Some? && NormalizeDigest(a) == NormalizeDigest(b) ==> SameDigest(a, b)
  {
    if Forms.LooseDigest(a) && Forms.LooseDigest(b) {
      forall i | 7 <= i < 71
        ensures HexValue(a[i]) == HexValue(b[i]) <==> Lower(a)[i] == Lower(b)[i]
      {
        LowerHex(a[i], b[i]);
      }
      assert forall i | 0 <= i < 7 :: a[i] == a[..7][i] == b[..7][i] == b[i];
      if SameDigest(a, b) {
        assert Lower(a) == Lower(b);
      }
    }
  }

  lemma TimeForms(a: string, b: string)
    ensures SameTime(a, b) ==> Rfc3339.NormalizeTimestamp(a) == Rfc3339.NormalizeTimestamp(b)
    ensures Rfc3339.NormalizeTimestamp(a).Some? && Rfc3339.NormalizeTimestamp(a) == Rfc3339.NormalizeTimestamp(b)
      ==> SameTime(a, b)
  {
    if Rfc3339.NormalizeTimestamp(a).Some? && Rfc3339.NormalizeTimestamp(b).Some? {
      Rfc3339.SameInstantSameText(a, b);
    }
  }

  /** Absence is the empty text, which is no timestamp. */
  lemma ObservedAtForms(a: string, b: string)
    ensures SameTime(a, b) ==> CanonObservedAt(a) == CanonObservedAt(b)
    ensures CanonObservedAt(a).Some? && CanonObservedAt(a) == CanonObservedAt(b) ==> SameTime(a, b)
  {
    hide Rfc3339.NormalizeTimestamp, SameTime;
    TimeForms(a, b);
    NormalTextNotEmpty(a);
    NormalTextNotEmpty(b);
    EmptyOnlySame(a, b);
  }

  lemma EmptyOnlySame(a: string, b: string)
    ensures a == "" || b == "" ==> (SameTime(a, b) <==> a == b)
  {
  }

  lemma NormalTextNotEmpty(s: string)
    ensures Rfc3339.NormalizeTimestamp(s) != Some("")
  {
  }

  lemma ObservationForms(a: Observation, b: Observation)
    ensures SameObservation(a, b) ==> CanonObservation(a) == CanonObservation(b)
    ensures CanonObservation(a).Some? && CanonObservation(a) == CanonObservation(b) ==> SameObservation(a, b)
  {
    hide SameDigest, SameTime, NormalizeDigest, CanonObservedAt;
    ObservedAtForms(a.observedAt, b.observedAt);
    if a.reference.Some? && b.reference.Some? {
      DigestForms(a.reference.value.digest, b.reference.value.digest);
    }
  }

  lemma CaseForms(a: Case, b: Case)
    ensures SameCase(a, b) ==> CanonCase(a) == CanonCase(b)
    ensures CanonCase(a).Some? && CanonCase(a) == CanonCase(b) ==> SameCase(a, b)
  {
    hide SameDigest, SameTime, NormalizeDigest, SameObservation, CanonObservation, Rfc3339.NormalizeTimestamp;
    DigestForms(a.correlationId, b.correlationId);
    DigestForms(a.testResult.statementDigest, b.testResult.statementDigest);
    TimeForms(a.startedAt, b.startedAt);
    TimeForms(a.completedAt, b.completedAt);
    ObservationForms(a.decision, b.decision);
    ObservationForms(a.outcome, b.outcome);
  }

  /** Equal outside enforcement, cases and extensions. */
  predicate HeadEqual(x: Evidence, y: Evidence) {
    x == y.(enforcement := x.enforcement, cases := x.cases, extensions := x.extensions)
  }

  lemma HeadForms(a: Evidence, b: Evidence)
    ensures SameHead(a, b) ==> CanonHead(a).Some? == CanonHead(b).Some?
    ensures CanonHead(a).Some? && CanonHead(b).Some? ==>
      (SameHead(a, b) <==> HeadEqual(CanonHead(a).value, CanonHead(b).value))
  {
    hide SameDigest, NormalizeDigest;
    DigestForms(a.agent.artifactDigest, b.agent.artifactDigest);
    DigestForms(a.runtime.artifact.digest, b.runtime.artifact.digest);
    DigestForms(a.adapter.artifact.digest, b.adapter.artifact.digest);
    DigestForms(a.adapter.runtimeDigest, b.adapter.runtimeDigest);
    DigestForms(a.runtimePolicy.artifact.digest, b.runtimePolicy.artifact.digest);
    DigestForms(a.identity.subject.digest, b.identity.subject.digest);
    DigestForms(a.audit.sink.digest, b.audit.sink.digest);
    DigestForms(a.audit.configurationDigest, b.audit.configurationDigest);
    DigestForms(a.tool.artifact.digest, b.tool.artifact.digest);
  }

  lemma EnforcementForms(a: Enforcement, b: Enforcement)
    ensures SameEnforcement(a, b) <==> CanonEnforcement(a) == CanonEnforcement(b)
  {
    hide DedupeSort;
    DedupeSortOnSets(a.required, b.required);
    DedupeSortOnSets(a.observed, b.observed);
  }

  lemma ExtensionForms(a: map<string, Extensions.Ext>, b: map<string, Extensions.Ext>)
    ensures SameExtensions(a, b) <==> CanonExtensions(a) == CanonExtensions(b)
  {
    hide Extensions.Canon, Extensions.Denote;
    var x, y := CanonExtensions(a), CanonExtensions(b);
    assert x.Keys == a.Keys && y.Keys == b.Keys;
    forall k | k in a && k in b
      ensures Extensions.Denote(a[k]) == Extensions.Denote(b[k]) <==> x[k] == y[k]
    {
      Extensions.CanonIffDenote(a[k], b[k]);
    }
  }

  // ----- the cases -----

  /** The comparator of Normalize is a strict weak order. */
  lemma CaseOrder()
    ensures StrictWeakOrder(CaseLess)
  {
    LexOrder();
  }

  /** Two cases that tie have one id, and the validators refuse a repeated id. */
  lemma DistinctNoTies(cases: seq<Case>)
    requires DistinctCases(cases)
    ensures TiesEqual(CaseLess, cases)
  {
    forall x, y | x in cases && y in cases
      ensures x == y || CaseLess(x, y) || CaseLess(y, x)
    {
      LexTotal(x.id, y.id);
    }
  }

  lemma AlignedForms(a: seq<Case>, c: seq<Case>)
    ensures AlignedCases(a, c) ==> Aligned(CanonCase, a, c)
    ensures (forall x | x in a :: CanonCase(x).Some?) && Aligned(CanonCase, a, c) ==> AlignedCases(a, c)
  {
    hide SameCase, CanonCase;
    if |a| == |c| {
      forall i | 0 <= i < |a|
        ensures SameCase(a[i], c[i]) ==> CanonCase(a[i]) == CanonCase(c[i])
        ensures CanonCase(a[i]).Some? && CanonCase(a[i]) == CanonCase(c[i]) ==> SameCase(a[i], c[i])
      {
        CaseForms(a[i], c[i]);
      }
    }
  }

  lemma AllPermuted(b: seq<Case>, c: seq<Case>)
    requires multiset(b) == multiset(c)
    ensures (forall x | x in b :: CanonCase(x).Some?) <==> (forall x | x in c :: CanonCase(x).Some?)
  {
    hide CanonCase;
    PermutedSize(b, c);
    assert forall x :: x in b <==> x in ToSet(b);
    assert forall x :: x in c <==> x in ToSet(c);
  }

  lemma AlignedCanon(a: seq<Case>, c: seq<Case>)
    requires Aligned(CanonCase, a, c)
    ensures CanonCases(a) == CanonCases(c)
  {
    hide CanonCase;
    if forall x | x in a :: CanonCase(x).Some? {
      AlignedDefined(CanonCase, a, c);
    }
    if forall x | x in c :: CanonCase(x).Some? {
      AlignedDefined(CanonCase, c, a);
    }
    AlignedCollect(CanonCase, a, c);
  }

  lemma PermutedCanon(b: seq<Case>, c: seq<Case>)
    requires multiset(b) == multiset(c)
    ensures CanonCases(b).Some? == CanonCases(c).Some?
    ensures CanonCases(b).Some? ==> multiset(CanonCases(b).value) == multiset(CanonCases(c).value)
  {
    hide CanonCase;
    AllPermuted(b, c);
    CollectPermuted(CanonCase, b, c);
  }

  /** Equivalent cases normalise to the same collection of cases, or fail together. */
  lemma SameCasesForms(a: seq<Case>, b: seq<Case>)
    requires SameCases(a, b)
    ensures CanonCases(a).Some? == CanonCases(b).Some?
    ensures CanonCases(a).Some? ==> multiset(CanonCases(a).value) == multiset(CanonCases(b).value)
  {
    hide CanonCase, CanonCases, AlignedCases, Aligned;
    var c :| multiset(c) == multiset(b) && AlignedCases(a, c);
    AlignedForms(a, c);
    AlignedCanon(a, c);
    PermutedCanon(b, c);
  }

  /** Cases that normalise to the same collection are equivalent. */
  lemma CasesFromForms(a: seq<Case>, b: seq<Case>)
    requires CanonCases(a).Some? && CanonCases(b).Some?
    requires multiset(CanonCases(a).value) == multiset(CanonCases(b).value)
    ensures SameCases(a, b)
  {
    hide CanonCase, SameCase;
    var c := Realign(CanonCase, a, b);
    AlignedForms(a, c);
  }

  // ----- the canonical form -----

  /** Equivalent evidence normalises equally, unless two cases tie in the order. */
  lemma EquivalentCanon(a: Evidence, b: Evidence)
    requires Equivalent(a, b)
    ensures Canon(a).Some? == Canon(b).Some?
    ensures Canon(a).Some? ==> multiset(Canon(a).value.cases) == multiset(Canon(b).value.cases)
    ensures Canon(a).Some? && TiesEqual(CaseLess, Canon(a).value.cases) ==> Canon(a) == Canon(b)
  {
    hide SameHead, CanonHead, SameEnforcement, SameCases, CanonCases, SameExtensions, CanonExtensions, CanonEnforcement;
    hide TiesEqual, StableSort;
    HeadForms(a, b);
    EnforcementForms(a.enforcement, b.enforcement);
    ExtensionForms(a.extensions, b.extensions);
    SameCasesForms(a.cases, b.cases);
    if Canon(a).Some? {
      var x, y := CanonCases(a.cases).value, CanonCases(b.cases).value;
      SortPermutes(CaseLess, x);
      SortPermutes(CaseLess, y);
      if TiesEqual(CaseLess, StableSort(CaseLess, x)) {
        TiesPermuted(StableSort(CaseLess, x), x);
        CaseOrder();
        SortForgetsOrder(CaseLess, x, y);
      }
    }
  }

  lemma TiesPermuted(a: seq<Case>, b: seq<Case>)
    requires multiset(a) == multiset(b) && TiesEqual(CaseLess, a)
    ensures TiesEqual(CaseLess, b)
  {
    hide CaseLess;
    PermutedSize(a, b);
    assert forall x :: x in a <==> x in ToSet(a);
    assert forall x :: x in b <==> x in ToSet(b);
  }

  lemma ValidNoTies(lib: Library, v: Evidence)
    requires Valid(lib, v)
    ensures TiesEqual(CaseLess, v.cases)
  {
    hide RootValid, RuntimeAdapterValid, RuntimePolicyValid, EnforcementValid, IdentityAuditValid, ExtensionsValid;
    hide CaseValid, TiesEqual, ConformanceHeadValid;
    DistinctNoTies(v.cases);
  }

  /** Evidence with equal normal forms is equivalent. */
  lemma CanonEquivalent(a: Evidence, b: Evidence)
    requires Canon(a).Some? && Canon(a) == Canon(b)
    ensures Equivalent(a, b)
  {
    hide SameHead, CanonHead, SameEnforcement, SameCases, CanonCases, SameExtensions, CanonExtensions, CanonEnforcement;
    hide StableSort;
    HeadForms(a, b);
    EnforcementForms(a.enforcement, b.enforcement);
    ExtensionForms(a.extensions, b.extensions);
    SortPermutes(CaseLess, CanonCases(a.cases).value);
    SortPermutes(CaseLess, CanonCases(b.cases).value);
    CasesFromForms(a.cases, b.cases);
  }

  lemma GenerateHalf(lib: Library, a: Evidence, b: Evidence)
    requires Canon(a).Some? && Generate(lib, a).Some?
    requires TiesEqual(CaseLess, Canon(a).value.cases) ==> Canon(a) == Canon(b)
    ensures Generate(lib, b) == Generate(lib, a)
  {
    hide Canon, Valid, SchemaAccepts, TiesEqual;
    ValidNoTies(lib, Canon(a).value);
  }

  /**
   Equivalent inputs produce identical output, or both are refused; and inputs that are accepted with identical
   output are equivalent. The printed predicate is a canonical form of the evidence.
   */
  lemma GenerateCanonical(lib: Library, a: Evidence, b: Evidence)
    ensures Equivalent(a, b) ==> Generate(lib, a) == Generate(lib, b)
    ensures Generate(lib, a).Some? && Generate(lib, a) == Generate(lib, b) ==> Equivalent(a, b)
  {
    hide Canon, Valid, SchemaAccepts, TiesEqual;
    if Equivalent(a, b) {
      EquivalentCanon(a, b);
      if Generate(lib, a).Some? {
        GenerateHalf(lib, a, b);
      } else if Generate(lib, b).Some? {
        if TiesEqual(CaseLess, Canon(b).value.cases) {
          TiesPermuted(Canon(b).value.cases, Canon(a).value.cases);
        }
        GenerateHalf(lib, b, a);
      }
    }
    if Generate(lib, a).Some? && Generate(lib, a) == Generate(lib, b) {
      CanonEquivalent(a, b);
    }
  }

  // ----- the printed order -----

  /** The order in which kinds are printed: the four known ones, then any other. */
  function Place(kind: string): nat {
    if kind == "allowed-action" then 0
    else if kind == "denied-action" then 1
    else if kind == "adapter-bypass" then 2
    else if kind == "no-policy-loaded" then 3
    else 4
  }

  lemma LessMeans(a: Case, b: Case)
    ensures CaseLess(a, b) <==>
      Place(a.kind) < Place(b.kind) || (Place(a.kind) == Place(b.kind) && LexLess(a.id, b.id))
  {
    hide LexLess;
  }

  /** Normalised cases stand in the order of their kinds, and of their ids where the kinds have one place. */
  lemma PrintedOrder(e: Evidence, i: nat, j: nat)
    requires Canon(e).Some? && i < j < |Canon(e).value.cases|
    ensures var a, b := Canon(e).value.cases[i], Canon(e).value.cases[j];
            Place(a.kind) < Place(b.kind) || (Place(a.kind) == Place(b.kind) && !LexLess(b.id, a.id))
  {
    hide CanonHead, CanonCases, CanonEnforcement, CanonExtensions, CaseLess, LexLess, Place;
    CaseOrder();
    SortSorted(CaseLess, CanonCases(e.cases).value);
    LessMeans(Canon(e).value.cases[j], Canon(e).value.cases[i]);
    PlacesCompare(Canon(e).value.cases[i].id, Canon(e).value.cases[j].id);
  }

  lemma PlacesCompare(a: string, b: string)
    ensures !(LexLess(a, b) && LexLess(b, a))
  {
    LexTotal(a, b);
  }

  /** Four accepted cases are printed as allowed, denied, bypass and no policy, in whatever order they came. */
  lemma FourKinds(lib: Library, e: Evidence)
    requires Generate(lib, e).Some? && |e.cases| == 4
    ensures var c := Generate(lib, e).value.cases;
            |c| == 4 && c[0].kind == "allowed-action" && c[1].kind == "denied-action" && c[2].kind == "adapter-bypass"
            && c[3].kind == "no-policy-loaded"
  {
    hide Canon, SchemaAccepts, RootValid, RuntimeAdapterValid, RuntimePolicyValid, EnforcementValid, IdentityAuditValid;
    hide ExtensionsValid, LexLess, IntervalValid, DecisionValid, OutcomeValid, TestResultValid, KindConsistent;
    hide ConformanceHeadValid, Forms.IdValue, Forms.CanonicalDigest;
    CanonCount(e);
    var c := Generate(lib, e).value.cases;
    assert c[0] in c && c[1] in c && c[2] in c && c[3] in c;
    PrintedOrder(e, 0, 1);
    PrintedOrder(e, 1, 2);
    PrintedOrder(e, 2, 3);
    assert Place(c[0].kind) < Place(c[1].kind) < Place(c[2].kind) < Place(c[3].kind) < 4;
  }
}
