/**
 What normalisation leaves alone: its own results, and every question the validators ask about time.
 */
module FixedPoint {
  import opened Wrappers
  import opened Lists
  import opened Sorting
  import opened EvidenceModel
  import opened Canonical
  import Forms
  import Rfc3339
  import Extensions

  // ----- a second normalisation -----

  lemma DigestTwice(s: string)
    requires NormalizeDigest(s).Some?
    ensures Forms.CanonicalDigest(NormalizeDigest(s).value)
    ensures NormalizeDigest(NormalizeDigest(s).value) == NormalizeDigest(s)
  {
    LowerDigest(s);
    CanonicalDigestFixed(Lower(s));
  }

  lemma TimeTwice(s: string)
    requires CanonObservedAt(s).Some? && CanonObservedAt(CanonObservedAt(s).value).Some?
    ensures CanonObservedAt(CanonObservedAt(s).value) == CanonObservedAt(s)
  {
    NormalTextNotEmpty(s);
    if s != "" {
      Rfc3339.NormalTextReads(s, Rfc3339.Zoned);
    }
  }

  lemma StampTwice(s: string)
    requires Rfc3339.NormalizeTimestamp(s).Some?
    requires Rfc3339.NormalizeTimestamp(Rfc3339.NormalizeTimestamp(s).value).Some?
    ensures Rfc3339.NormalizeTimestamp(Rfc3339.NormalizeTimestamp(s).value) == Rfc3339.NormalizeTimestamp(s)
  {
    Rfc3339.NormalTextReads(s, Rfc3339.Zoned);
  }

  lemma ObservationTwice(o: Observation)
    requires CanonObservation(o).Some? && CanonObservation(CanonObservation(o).value).Some?
    ensures CanonObservation(CanonObservation(o).value) == CanonObservation(o)
  {
    hide NormalizeDigest, CanonObservedAt;
    TimeTwice(o.observedAt);
    if o.reference.Some? {
      DigestTwice(o.reference.value.digest);
    }
  }

  lemma CaseTwice(c: Case)
    requires CanonCase(c).Some? && CanonCase(CanonCase(c).value).Some?
    ensures CanonCase(CanonCase(c).value) == CanonCase(c)
  {
    hide NormalizeDigest, CanonObservation, Rfc3339.NormalizeTimestamp;
    DigestTwice(c.correlationId);
    DigestTwice(c.testResult.statementDigest);
    StampTwice(c.startedAt);
    StampTwice(c.completedAt);
    ObservationTwice(c.decision);
    ObservationTwice(c.outcome);
  }

  lemma HeadTwice(e: Evidence)
    requires CanonHead(e).Some?
    ensures CanonHead(CanonHead(e).value) == CanonHead(e)
  {
    hide NormalizeDigest;
    DigestTwice(e.agent.artifactDigest);
    DigestTwice(e.runtime.artifact.digest);
    DigestTwice(e.adapter.artifact.digest);
    DigestTwice(e.adapter.runtimeDigest);
    DigestTwice(e.runtimePolicy.artifact.digest);
    DigestTwice(e.identity.subject.digest);
    DigestTwice(e.audit.sink.digest);
    DigestTwice(e.audit.configurationDigest);
    DigestTwice(e.tool.artifact.digest);
  }

  /** CanonHead reads and writes nothing of enforcement, cases and extensions. */
  lemma HeadIgnores(e: Evidence, f: Evidence)
    requires HeadEqual(e, f) && CanonHead(e).Some?
    ensures CanonHead(f) ==
      Some(CanonHead(e).value.(enforcement := f.enforcement, cases := f.cases, extensions := f.extensions))
  {
    hide NormalizeDigest;
  }

  lemma EnforcementTwice(f: Enforcement)
    ensures CanonEnforcement(CanonEnforcement(f)) == CanonEnforcement(f)
  {
    hide DedupeSort;
    DedupeSortTwice(f.required);
    DedupeSortTwice(f.observed);
  }

  lemma ExtensionsTwice(x: map<string, Extensions.Ext>)
    ensures CanonExtensions(CanonExtensions(x)) == CanonExtensions(x)
  {
    hide Extensions.Canon;
    forall k | k in x
      ensures Extensions.Canon(Extensions.Canon(x[k])) == Extensions.Canon(x[k])
    {
      Extensions.CanonTwice(x[k]);
    }
  }

  lemma CanonCaseOf(cases: seq<Case>, x: Case) returns (c: Case)
    requires CanonCases(cases).Some? && x in StableSort(CaseLess, CanonCases(cases).value)
    ensures CanonCase(c) == Some(x)
  {
    hide CanonCase;
    var y := CanonCases(cases).value;
    SortPermutes(CaseLess, y);
    assert x in multiset(StableSort(CaseLess, y));
    assert x in y;
    CollectMember(CanonCase, cases, x);
    c :| c in cases && CanonCase(c) == Some(x);
  }

  lemma {:induction false} FixedCollect(s: seq<Case>)
    requires forall x | x in s :: CanonCase(x) == Some(x)
    ensures Collect(CanonCase, s) == s
  {
    hide CanonCase;
    if s != [] {
      assert s[0] in s;
      assert forall x | x in s[1..] :: x in s;
      FixedCollect(s[1..]);
    }
  }

  lemma CasesTwice(cases: seq<Case>)
    requires CanonCases(cases).Some?
    requires CanonCases(StableSort(CaseLess, CanonCases(cases).value)).Some?
    ensures CanonCases(StableSort(CaseLess, CanonCases(cases).value)) ==
      Some(StableSort(CaseLess, CanonCases(cases).value))
    ensures StableSort(CaseLess, StableSort(CaseLess, CanonCases(cases).value)) ==
      StableSort(CaseLess, CanonCases(cases).value)
  {
    hide CanonCase, StableSort;
    var y := CanonCases(cases).value;
    var s := StableSort(CaseLess, y);
    forall x | x in s
      ensures CanonCase(x) == Some(x)
    {
      var c := CanonCaseOf(cases, x);
      CaseTwice(c);
    }
    FixedCollect(s);
    CaseOrder();
    SortSorted(CaseLess, y);
    SortFixed(CaseLess, s);
  }

  /**
   Normalize changes nothing the second time it succeeds. It can only fail the second time over a timestamp
   whose UTC year no longer has four digits.
   */
  lemma NormalizeTwice(e: Evidence)
    requires Canon(e).Some?
    requires CanonCases(Canon(e).value.cases).Some?
    ensures Canon(Canon(e).value) == Canon(e)
  {
    hide CanonHead, CanonCases, CanonEnforcement, CanonExtensions, StableSort;
    var v := Canon(e).value;
    HeadTwice(e);
    HeadIgnores(CanonHead(e).value, v);
    CasesTwice(e.cases);
    EnforcementTwice(e.enforcement);
    ExtensionsTwice(e.extensions);
  }

  // ----- accepted evidence is normal -----

  /** A timestamp that Normalize wrote and a validator read is canonical. */
  lemma ReadTwice(s: string, t: string)
    requires Rfc3339.NormalizeTimestamp(s) == Some(t) && ParseNs(t).Some?
    ensures Rfc3339.NormalizeTimestamp(t) == Some(t)
    ensures Rfc3339.SecondsShape(t)
    ensures t != ""
  {
    Rfc3339.NormalTextReads(s, Rfc3339.LiteralZ);
  }

  lemma ReadObservation(c: Case, o: Observation, p: Observation)
    requires IntervalValid(c)
    requires CanonObservation(o) == Some(p) && (Recorded(c, p) || Unrecorded(p))
    ensures CanonObservation(p).Some?
  {
    hide NormalizeDigest, Rfc3339.NormalizeTimestamp, IntervalValid, ParseNs;
    if p.reference.Some? {
      DigestTwice(o.reference.value.digest);
    }
    if p.observedAt != "" {
      ReadTwice(o.observedAt, p.observedAt);
    }
  }

  lemma ReadCase(e: Evidence, c: Case, d: Case)
    requires CanonCase(c) == Some(d) && CaseValid(e, d)
    ensures CanonCase(d) == Some(d)
  {
    hide NormalizeDigest, Rfc3339.NormalizeTimestamp, CanonObservation, ParseNs, KindConsistent, Forms.IdValue;
    hide Forms.CanonicalDigest, Recorded;
    DigestTwice(c.correlationId);
    DigestTwice(c.testResult.statementDigest);
    ReadTwice(c.startedAt, d.startedAt);
    ReadTwice(c.completedAt, d.completedAt);
    ReadObservation(d, c.decision, d.decision);
    ReadObservation(d, c.outcome, d.outcome);
    CaseTwice(c);
  }

  lemma ReadCases(lib: Library, e: Evidence)
    requires Canon(e).Some? && ConformanceValid(lib, Canon(e).value)
    ensures CanonCases(Canon(e).value.cases).Some?
  {
    hide CanonHead, CanonCase, CanonEnforcement, CanonExtensions, StableSort, CaseValid, CaseLess;
    var v := Canon(e).value;
    forall d | d in v.cases
      ensures CanonCase(d).Some?
    {
      var c := CanonCaseOf(e.cases, d);
      ReadCase(v, c, d);
    }
  }

  /** What Generate accepted is a fixed point: normalising it again, or generating from it, gives it back. */
  lemma GenerateFixed(lib: Library, e: Evidence)
    requires Generate(lib, e).Some?
    ensures Canon(Generate(lib, e).value) == Generate(lib, e)
    ensures Generate(lib, Generate(lib, e).value) == Generate(lib, e)
  {
    hide Canon, SchemaAccepts, RootValid, RuntimeAdapterValid, RuntimePolicyValid, EnforcementValid;
    hide IdentityAuditValid, ConformanceValid, ExtensionsValid;
    ReadCases(lib, e);
    NormalizeTwice(e);
  }

  // ----- time -----

  /** The instant a zoned whole-second text denotes, in seconds. */
  function InstantOf(s: string): int
    requires Rfc3339.Parse(s, Rfc3339.Zoned).Some?
  {
    Rfc3339.StampInstant(Rfc3339.Parse(s, Rfc3339.Zoned).value)
  }

  lemma ParsedNormal(s: string)
    requires Rfc3339.NormalizeTimestamp(s).Some?
    ensures ParseNs(Rfc3339.NormalizeTimestamp(s).value) ==
      if Rfc3339.FourDigitInstant(InstantOf(s)) then Some(InstantOf(s) * 1000000000) else None
  {
    hide Rfc3339.NormalizeTimestamp, Rfc3339.Parse, Rfc3339.FourDigitInstant, Rfc3339.SecondsShape;
    hide Rfc3339.StampInstant;
    Rfc3339.NormalTextReadable(s, Rfc3339.LiteralZ);
    if Rfc3339.Parse(Rfc3339.NormalizeTimestamp(s).value, Rfc3339.LiteralZ).Some? {
      Rfc3339.NormalTextReads(s, Rfc3339.LiteralZ);
    }
  }

  lemma CaseTimes(c: Case)
    requires CanonCase(c).Some?
    ensures Rfc3339.NormalizeTimestamp(c.startedAt) == Some(CanonCase(c).value.startedAt)
    ensures Rfc3339.NormalizeTimestamp(c.completedAt) == Some(CanonCase(c).value.completedAt)
  {
    hide NormalizeDigest, CanonObservation, Rfc3339.NormalizeTimestamp;
  }

  /**
   The interval check on normalised text asks about the instants the producer wrote: both in the years 0 to
   9999, in order, and at most five minutes apart.
   */
  lemma IntervalOnInstants(c: Case)
    requires CanonCase(c).Some?
    ensures IntervalValid(CanonCase(c).value) <==>
      && Rfc3339.FourDigitInstant(InstantOf(c.startedAt))
      && Rfc3339.FourDigitInstant(InstantOf(c.completedAt))
      && 0 <= InstantOf(c.completedAt) - InstantOf(c.startedAt) <= 300
  {
    hide CanonCase, ParseNs, InstantOf, Rfc3339.NormalizeTimestamp, Rfc3339.FourDigitInstant;
    CaseTimes(c);
    ParsedNormal(c.startedAt);
    ParsedNormal(c.completedAt);
  }

  /** So does the check of an observation's time. */
  lemma ObservedOnInstants(c: Case, s: string)
    requires CanonCase(c).Some? && IntervalValid(CanonCase(c).value)
    requires s != "" && CanonObservedAt(s).Some?
    ensures ObservedAtValid(CanonCase(c).value, CanonObservedAt(s).value) <==>
      InstantOf(c.startedAt) <= InstantOf(s) <= InstantOf(c.completedAt)
  {
    hide CanonCase, ParseNs, InstantOf, Rfc3339.NormalizeTimestamp;
    IntervalOnInstants(c);
    NormalTextNotEmpty(s);
    CaseTimes(c);
    ParsedNormal(c.startedAt);
    ParsedNormal(c.completedAt);
    ParsedNormal(s);
  }
}
