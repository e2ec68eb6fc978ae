/**
 AgentGovernanceDeployment, normalised and validated in place. Every method is tied to the values of EvidenceModel.dfy:
 Normalize to Canon, the validators to Valid, Generate to Generate.
 */
module Normalizer {
  import opened Wrappers
  import opened Lists
  import opened Sorting
  import opened EvidenceModel
  import Forms
  import Rfc3339
  import Extensions
  import GeneratorMeaning

  // ----- the two passes over a case -----

  /** The digests of a case, normalised first. */
  function DigestPass(c: Case): Option<Case> {
    var correlationId :- NormalizeDigest(c.correlationId);
    var statementDigest :- NormalizeDigest(c.testResult.statementDigest);
    var decision :- CanonReference(c.decision.reference);
    var outcome :- CanonReference(c.outcome.reference);
    Some(c.(correlationId := correlationId, testResult := c.testResult.(statementDigest := statementDigest),
            decision := c.decision.(reference := decision), outcome := c.outcome.(reference := outcome)))
  }

  /** The timestamps of a case, normalised second. */
  function TimePass(c: Case): Option<Case> {
    var startedAt :- Rfc3339.NormalizeTimestamp(c.startedAt);
    var completedAt :- Rfc3339.NormalizeTimestamp(c.completedAt);
    var decision :- CanonObservedAt(c.decision.observedAt);
    var outcome :- CanonObservedAt(c.outcome.observedAt);
    Some(c.(startedAt := startedAt, completedAt := completedAt,
            decision := c.decision.(observedAt := decision), outcome := c.outcome.(observedAt := outcome)))
  }

  lemma TwoPasses(c: Case)
    ensures DigestPass(c).None? ==> CanonCase(c).None?
    ensures DigestPass(c).Some? ==> CanonCase(c) == TimePass(DigestPass(c).value)
  {
    hide NormalizeDigest, Rfc3339.NormalizeTimestamp, CanonObservedAt;
  }

  /** The passes, run over all cases one after the other, give what CanonCases gives. */
  lemma PassesGiveCanon(old_: seq<Case>, digests: seq<Case>, times: seq<Case>)
    requires |old_| == |digests| == |times|
    requires forall i | 0 <= i < |old_| :: DigestPass(old_[i]) == Some(digests[i])
    requires forall i | 0 <= i < |old_| :: TimePass(digests[i]) == Some(times[i])
    ensures CanonCases(old_) == Some(times)
  {
    hide DigestPass, TimePass, CanonCase;
    forall i | 0 <= i < |old_|
      ensures CanonCase(old_[i]) == Some(times[i])
    {
      TwoPasses(old_[i]);
    }
    CollectMaps(CanonCase, old_);
    assert Collect(CanonCase, old_) == times;
  }

  lemma PassFails(old_: seq<Case>, i: nat)
    requires i < |old_| && CanonCase(old_[i]).None?
    ensures CanonCases(old_).None?
  {
    hide CanonCase;
    assert old_[i] in old_;
  }

  // ----- free-standing helpers -----

  /** dedupeSortStrings */
  method DedupeSortStrings(input: seq<string>) returns (out: seq<string>)
    ensures out == DedupeSort(input)
  {
    out := [];
    var seen: set<string> := {};
    for i := 0 to |input|
      invariant out == Dedupe(input[..i])
      invariant seen == ToSet(input[..i])
    {
      var s := input[i];
      assert input[..i + 1][..i] == input[..i];
      ToSetAppend(input[..i], s);
      assert input[..i + 1] == input[..i] + [s];
      assert s in seen <==> s in ToSet(out);
      if s !in seen {
        seen := seen + {s};
        out := out + [s];
      }
    }
    assert input[..|input|] == input;
    out := StableSort(LexLess, out);
  }

  /** The scan for percent signs in validateAbsoluteURI. */
  method PercentEncodingValid(value: string) returns (ok: bool)
    ensures ok == PercentValid(value, 0)
    ensures ok <==> GeneratorMeaning.Escaped(value, 0)
  {
    GeneratorMeaning.EscapedMeans(value, 0);
    var i := 0;
    while i < |value|
      invariant 0 <= i <= |value|
      invariant PercentValid(value, i) == PercentValid(value, 0)
    {
      if value[i] != '%' {
        i := i + 1;
      } else if i + 2 >= |value| || !Forms.IsHex(value[i + 1]) || !Forms.IsHex(value[i + 2]) {
        return false;
      } else {
        i := i + 3;
      }
    }
    return true;
  }

  class Deployment {
    var schemaVersion: string
    var agent: Agent
    var runtime: Runtime
    var adapter: Adapter
    var runtimePolicy: RuntimePolicy
    var enforcement: Enforcement
    var identity: Identity
    var audit: Audit
    var fixture: Fixture
    var tool: Tool
    var cases: seq<Case>
    var extensions: map<string, Extensions.Ext>

    /** The evidence the object holds. */
    function Value(): Evidence
      reads this
    {
      Evidence(schemaVersion, agent, runtime, adapter, runtimePolicy, enforcement, identity, audit,
               fixture, tool, cases, extensions)
    }

    constructor (e: Evidence)
      ensures Value() == e
    {
      schemaVersion, agent, runtime, adapter := e.schemaVersion, e.agent, e.runtime, e.adapter;
      runtimePolicy, enforcement, identity, audit := e.runtimePolicy, e.enforcement, e.identity, e.audit;
      fixture, tool, cases, extensions := e.fixture, e.tool, e.cases, e.extensions;
    }

    /** The digests of the agent, the runtime and the adapter. */
    method NormalizeActors() returns (ok: bool)
      modifies this`agent, this`runtime, this`adapter
      ensures ok <==>
        && NormalizeDigest(old(agent).artifactDigest).Some? && CanonArtifact(old(runtime).artifact).Some?
        && CanonArtifact(old(adapter).artifact).Some? && NormalizeDigest(old(adapter).runtimeDigest).Some?
      ensures ok ==>
        && agent == old(agent).(artifactDigest := NormalizeDigest(old(agent).artifactDigest).value)
        && runtime == old(runtime).(artifact := CanonArtifact(old(runtime).artifact).value)
        && adapter == old(adapter).(artifact := CanonArtifact(old(adapter).artifact).value,
                                    runtimeDigest := NormalizeDigest(old(adapter).runtimeDigest).value)
    {
      hide NormalizeDigest;
      var d := NormalizeDigest(agent.artifactDigest);
      if d.None? { return false; }
      agent := agent.(artifactDigest := d.value);
      d := NormalizeDigest(runtime.artifact.digest);
      if d.None? { return false; }
      runtime := runtime.(artifact := runtime.artifact.(digest := d.value));
      d := NormalizeDigest(adapter.artifact.digest);
      if d.None? { return false; }
      adapter := adapter.(artifact := adapter.artifact.(digest := d.value));
      d := NormalizeDigest(adapter.runtimeDigest);
      if d.None? { return false; }
      adapter := adapter.(runtimeDigest := d.value);
      return true;
    }

    /** The digests of the runtime policy, the identity, the audit sink and the controlled tool. */
    method NormalizeRecords() returns (ok: bool)
      modifies this`runtimePolicy, this`identity, this`audit, this`tool
      ensures ok <==>
        && CanonArtifact(old(runtimePolicy).artifact).Some? && CanonRedacted(old(identity).subject).Some?
        && CanonRedacted(old(audit).sink).Some? && NormalizeDigest(old(audit).configurationDigest).Some?
        && CanonArtifact(old(tool).artifact).Some?
      ensures ok ==>
        && runtimePolicy == old(runtimePolicy).(artifact := CanonArtifact(old(runtimePolicy).artifact).value)
        && identity == old(identity).(subject := CanonRedacted(old(identity).subject).value)
        && audit == old(audit).(sink := CanonRedacted(old(audit).sink).value,
                                configurationDigest := NormalizeDigest(old(audit).configurationDigest).value)
        && tool == old(tool).(artifact := CanonArtifact(old(tool).artifact).value)
    {
      hide NormalizeDigest;
      var d := NormalizeDigest(runtimePolicy.artifact.digest);
      if d.None? { return false; }
      runtimePolicy := runtimePolicy.(artifact := runtimePolicy.artifact.(digest := d.value));
      d := NormalizeDigest(identity.subject.digest);
      if d.None? { return false; }
      identity := identity.(subject := identity.subject.(digest := d.value));
      d := NormalizeDigest(audit.sink.digest);
      if d.None? { return false; }
      audit := audit.(sink := audit.sink.(digest := d.value));
      d := NormalizeDigest(audit.configurationDigest);
      if d.None? { return false; }
      audit := audit.(configurationDigest := d.value);
      d := NormalizeDigest(tool.artifact.digest);
      if d.None? { return false; }
      tool := tool.(artifact := tool.artifact.(digest := d.value));
      return true;
    }

    /** The nine digests outside the cases. */
    method NormalizeHeadDigests() returns (ok: bool)
      modifies this
      ensures ok == CanonHead(old(Value())).Some?
      ensures ok ==> Value() == CanonHead(old(Value())).value
      ensures cases == old(cases) && enforcement == old(enforcement) && extensions == old(extensions)
    {
      hide NormalizeDigest, CanonArtifact, CanonRedacted;
      ok := NormalizeActors();
      if ok {
        ok := NormalizeRecords();
      }
    }

    /** The loop over the digests of the cases. */
    method NormalizeCaseDigests() returns (ok: bool)
      modifies this`cases
      ensures ok <==> forall c | c in old(cases) :: DigestPass(c).Some?
      ensures ok ==> |cases| == |old(cases)|
      ensures ok ==> forall i | 0 <= i < |cases| :: DigestPass(old(cases)[i]) == Some(cases[i])
    {
      ghost var before := cases;
      for i := 0 to |cases|
        invariant |cases| == |before|
        invariant forall k | 0 <= k < i :: DigestPass(before[k]) == Some(cases[k])
        invariant forall k | i <= k < |before| :: cases[k] == before[k]
      {
        var c := DigestPass(cases[i]);
        if c.None? {
          assert before[i] in before;
          return false;
        }
        cases := cases[i := c.value];
      }
      return true;
    }

    /** The loop over the timestamps of the cases. */
    method NormalizeCaseTimes() returns (ok: bool)
      modifies this`cases
      ensures ok <==> forall c | c in old(cases) :: TimePass(c).Some?
      ensures ok ==> |cases| == |old(cases)|
      ensures ok ==> forall i | 0 <= i < |cases| :: TimePass(old(cases)[i]) == Some(cases[i])
    {
      ghost var before := cases;
      for i := 0 to |cases|
        invariant |cases| == |before|
        invariant forall k | 0 <= k < i :: TimePass(before[k]) == Some(cases[k])
        invariant forall k | i <= k < |before| :: cases[k] == before[k]
      {
        var c := TimePass(cases[i]);
        if c.None? {
          assert before[i] in before;
          return false;
        }
        cases := cases[i := c.value];
      }
      return true;
    }

    /** normalizeExtensions: Go visits the keys of a map in no particular order. */
    method NormalizeExtensions()
      modifies this`extensions
      ensures extensions == CanonExtensions(old(extensions))
    {
      ghost var before := extensions;
      var todo := extensions.Keys;
      while todo != {}
        invariant todo <= before.Keys == extensions.Keys
        invariant forall k | k in before ::
          extensions[k] == if k in todo then before[k] else Extensions.Canon(before[k])
        decreases |todo|
      {
        var key :| key in todo;
        extensions := extensions[key := Extensions.Canon(extensions[key])];
        todo := todo - {key};
      }
    }

    /** Normalize */
    method Normalize() returns (ok: bool)
      modifies this
      ensures ok == Canon(old(Value())).Some?
      ensures ok ==> Value() == Canon(old(Value())).value
    {
      hide CanonCase, DigestPass, TimePass, StableSort, CaseLess, DedupeSort, CanonExtensions;
      ghost var e := Value();
      ok := NormalizeHeadDigests();
      if !ok { return; }
      ok := NormalizeCaseDigests();
      if !ok {
        ghost var i :| 0 <= i < |e.cases| && DigestPass(e.cases[i]).None?;
        TwoPasses(e.cases[i]);
        PassFails(e.cases, i);
        return;
      }
      ghost var digests := cases;
      var required := DedupeSortStrings(enforcement.required);
      var observed := DedupeSortStrings(enforcement.observed);
      enforcement := enforcement.(required := required, observed := observed);
      ok := NormalizeCaseTimes();
      if !ok {
        ghost var i :| 0 <= i < |digests| && TimePass(digests[i]).None?;
        TwoPasses(e.cases[i]);
        PassFails(e.cases, i);
        return;
      }
      PassesGiveCanon(e.cases, digests, cases);
      cases := StableSort(CaseLess, cases);
      NormalizeExtensions();
    }

    /** The loop of validateConformance, which remembers the ids and kinds it has seen. */
    method ValidateCases() returns (ok: bool)
      ensures ok <==>
        && |GeneratorMeaning.Ids(cases)| == |cases| && |GeneratorMeaning.Kinds(cases)| == |cases|
        && forall c | c in cases :: GeneratorMeaning.AcceptableCase(Value(), c)
    {
      hide CaseValid, GeneratorMeaning.AcceptableCase, GeneratorMeaning.Ids, GeneratorMeaning.Kinds;
      GeneratorMeaning.DistinctMeans(cases);
      forall c
        ensures CaseValid(Value(), c) <==> GeneratorMeaning.AcceptableCase(Value(), c)
      {
        GeneratorMeaning.CaseMeans(Value(), c);
      }
      var ids: set<string>, kinds: set<string> := {}, {};
      for i := 0 to |cases|
        invariant forall s :: s in ids <==> exists k | 0 <= k < i :: cases[k].id == s
        invariant forall s :: s in kinds <==> exists k | 0 <= k < i :: cases[k].kind == s
        invariant forall j, k | 0 <= j < k < i :: cases[j].id != cases[k].id && cases[j].kind != cases[k].kind
        invariant forall k | 0 <= k < i :: CaseValid(Value(), cases[k])
      {
        var c := cases[i];
        if c.id in ids || c.kind in kinds {
          return false;
        }
        ids, kinds := ids + {c.id}, kinds + {c.kind};
        if !CaseValid(Value(), c) {
          assert c in cases;
          return false;
        }
      }
      return true;
    }

    /** validateExtensions, over the sorted keys. */
    method ValidateExtensions(lib: Library) returns (ok: bool)
      ensures ok == ExtensionsValid(lib, Value())
      ensures ok <==> GeneratorMeaning.AcceptableExtensions(lib, Value())
    {
      hide AbsoluteUri, Extensions.DepthOk, GeneratorMeaning.AcceptableExtensions;
      GeneratorMeaning.ExtensionsMean(lib, Value());
      if |extensions| > 8 {
        return false;
      }
      var todo := extensions.Keys;
      while todo != {}
        invariant todo <= extensions.Keys
        invariant forall k | k in extensions && k !in todo ::
          Forms.Utf8Length(k) <= 256 && AbsoluteUri(lib, k) && Extensions.DepthOk(extensions[k], 1)
        decreases |todo|
      {
        var key :| key in todo;
        if Forms.Utf8Length(key) > 256 || !AbsoluteUri(lib, key) || !Extensions.DepthOk(extensions[key], 1) {
          return false;
        }
        todo := todo - {key};
      }
      return true;
    }

    /** Validate */
    method Validate(lib: Library) returns (ok: bool)
      ensures ok == Valid(lib, Value())
      ensures ok <==> GeneratorMeaning.Acceptable(lib, Value())
    {
      hide RootValid, RuntimeAdapterValid, RuntimePolicyValid, EnforcementValid, IdentityAuditValid, CaseValid;
      hide ConformanceHeadValid, ExtensionsValid, DistinctCases, GeneratorMeaning.AcceptableCase, GeneratorMeaning.Ids;
      hide GeneratorMeaning.Kinds, GeneratorMeaning.AcceptableExtensions, GeneratorMeaning.Acceptable;
      var v := Value();
      GeneratorMeaning.ValidMeans(lib, v);
      GeneratorMeaning.DistinctMeans(cases);
      forall c
        ensures CaseValid(v, c) <==> GeneratorMeaning.AcceptableCase(v, c)
      {
        GeneratorMeaning.CaseMeans(v, c);
      }
      if !(RootValid(lib, v) && RuntimeAdapterValid(lib, v) && RuntimePolicyValid(lib, v)) { return false; }
      if !(EnforcementValid(enforcement) && IdentityAuditValid(lib, v) && ConformanceHeadValid(lib, v)) {
        return false;
      }
      ok := ValidateCases();
      if ok {
        ok := ValidateExtensions(lib);
      }
    }

    /** Generate */
    method GenerateBody(lib: Library) returns (body: Option<Evidence>)
      modifies this
      ensures body == Generate(lib, old(Value()))
      ensures body.Some? ==> Value() == body.value
    {
      var ok := Normalize();
      if !ok { return None; }
      ok := Validate(lib);
      if !ok || !SchemaAccepts(lib, Value()) { return None; }
      return Some(Value());
    }
  }
}
