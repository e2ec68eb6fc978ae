/**
 Extension values. Go decodes each into a map, where the last of several equal keys wins, and prints it again
 with sorted keys; the depth and width of the result are bounded.
 */
module Extensions {
  import opened Lists
  import opened Sorting

  /** A JSON value as written: scalars keep their literal, objects the order and repetition of their members. */
  datatype Ext =
    | Scalar(text: string)
    | List(items: seq<Ext>)
    | Record(members: seq<(string, Ext)>)

  function MemberKeys(members: seq<(string, Ext)>): seq<string> {
    seq(|members|, i requires 0 <= i < |members| => members[i].0)
  }

  /** The position of the last member with the key. */
  function LastIndex(members: seq<(string, Ext)>, key: string): (i: nat)
    requires key in MemberKeys(members)
    ensures i < |members| && members[i].0 == key
    ensures forall j | i < j < |members| :: members[j].0 != key
  {
    var n := |members| - 1;
    if members[n].0 == key then n
    else
      assert key in MemberKeys(members[..n]) by {
        var k :| 0 <= k < |members| && MemberKeys(members)[k] == key;
        assert MemberKeys(members[..n])[k] == key;
      }
      LastIndex(members[..n], key)
  }

  /** json.Marshal of the decoded value: normalizeExtensions for one value. */
  function Canon(e: Ext): Ext
    decreases e, 1
  {
    match e
    case Scalar(_) => e
    case List(items) => List(CanonItems(e, |items|))
    case Record(members) =>
      DedupeSortSpec(MemberKeys(members));
      assert forall k | k in DedupeSort(MemberKeys(members)) :: k in ToSet(MemberKeys(members));
      Record(CanonMembers(e, DedupeSort(MemberKeys(members))))
  }

  function CanonItems(e: Ext, n: nat): (r: seq<Ext>)
    requires e.List? && n <= |e.items|
    ensures |r| == n && forall i | 0 <= i < n :: r[i] == Canon(e.items[i])
    decreases e, 0, n
  {
    if n == 0 then [] else CanonItems(e, n - 1) + [Canon(e.items[n - 1])]
  }

  function CanonMembers(e: Ext, keys: seq<string>): (r: seq<(string, Ext)>)
    requires e.Record? && forall k | k in keys :: k in MemberKeys(e.members)
    ensures |r| == |keys|
    ensures forall i | 0 <= i < |keys| :: r[i] == (keys[i], Canon(e.members[LastIndex(e.members, keys[i])].1))
    decreases e, 0, |keys|
  {
    if keys == [] then []
    else
      var n := |keys| - 1;
      CanonMembers(e, keys[..n]) + [(keys[n], Canon(e.members[LastIndex(e.members, keys[n])].1))]
  }

  // ----- the value a text denotes -----

  /** A decoded value: Go's interface{} with its maps. */
  datatype Value =
    | Atom(text: string)
    | Sequence(items: seq<Value>)
    | Table(fields: map<string, Value>)

  function Denote(e: Ext): Value
    decreases e, 1
  {
    match e
    case Scalar(text) => Atom(text)
    case List(items) => Sequence(DenoteItems(e, |items|))
    case Record(members) => Table(DenoteMembers(e, |members|))
  }

  function DenoteItems(e: Ext, n: nat): (r: seq<Value>)
    requires e.List? && n <= |e.items|
    ensures |r| == n && forall i | 0 <= i < n :: r[i] == Denote(e.items[i])
    decreases e, 0, n
  {
    if n == 0 then [] else DenoteItems(e, n - 1) + [Denote(e.items[n - 1])]
  }

  /** Members are assigned in order, so a later one replaces an earlier one of the same key. */
  function DenoteMembers(e: Ext, n: nat): map<string, Value>
    requires e.Record? && n <= |e.members|
    decreases e, 0, n
  {
    if n == 0 then map[] else DenoteMembers(e, n - 1)[e.members[n - 1].0 := Denote(e.members[n - 1].1)]
  }

  /** Assignment in order leaves, for each key, the value of its last member. */
  lemma {:induction false} LastWins(e: Ext, n: nat)
    requires e.Record? && n <= |e.members|
    ensures forall k :: k in DenoteMembers(e, n) <==> k in MemberKeys(e.members[..n])
    ensures forall k | k in MemberKeys(e.members[..n]) ::
      DenoteMembers(e, n)[k] == Denote(e.members[LastIndex(e.members[..n], k)].1)
  {
    if n > 0 {
      LastWins(e, n - 1);
      var p, q := e.members[..n], e.members[..n - 1];
      assert p == q + [e.members[n - 1]] && p[..n - 1] == q;
      assert MemberKeys(p) == MemberKeys(q) + [e.members[n - 1].0];
    }
  }

  lemma FieldKeys(e: Ext)
    requires e.Record?
    ensures forall k :: k in Denote(e).fields <==> k in MemberKeys(e.members)
    ensures forall k | k in MemberKeys(e.members) ::
      Denote(e).fields[k] == Denote(e.members[LastIndex(e.members, k)].1)
  {
    assert e.members[..|e.members|] == e.members;
    LastWins(e, |e.members|);
  }

  /** The canonical members are keyed by the sorted keys, each with the canonical text of its last value. */
  lemma CanonFields(e: Ext)
    requires e.Record?
    ensures Canon(e).Record?
    ensures forall k :: k in MemberKeys(Canon(e).members) <==> k in MemberKeys(e.members)
    ensures forall k | k in MemberKeys(e.members) ::
      Canon(e).members[LastIndex(Canon(e).members, k)].1 == Canon(e.members[LastIndex(e.members, k)].1)
  {
    hide DedupeSort;
    var keys := DedupeSort(MemberKeys(e.members));
    DedupeSortSpec(MemberKeys(e.members));
    assert MemberKeys(Canon(e).members) == keys;
    assert forall k :: k in keys <==> k in ToSet(keys);
    assert forall k :: k in MemberKeys(e.members) <==> k in ToSet(MemberKeys(e.members));
  }

  /** Canonical members stand in bytewise order of their keys, and no key stands twice. */
  lemma CanonKeysInOrder(e: Ext, i: nat, j: nat)
    requires e.Record? && i < j < |Canon(e).members|
    ensures Before(Canon(e).members[i].0, Canon(e).members[j].0)
  {
    hide DedupeSort, Before;
    var keys := DedupeSort(MemberKeys(e.members));
    DedupeSortSpec(MemberKeys(e.members));
    assert MemberKeys(Canon(e).members) == keys;
    assert Canon(e).members[i].0 == keys[i] && Canon(e).members[j].0 == keys[j];
    LexTotal(keys[i], keys[j]);
    LexMeans(keys[i], keys[j]);
  }

  /** Canonical text denotes what the original text denoted. */
  lemma {:induction false} CanonDenotes(e: Ext)
    ensures Denote(Canon(e)) == Denote(e)
    decreases e
  {
    match e
    case Scalar(_) =>
    case List(items) =>
      forall i | 0 <= i < |items|
        ensures Denote(Canon(items[i])) == Denote(items[i])
      {
        CanonDenotes(items[i]);
      }
      assert Denote(Canon(e)).items == Denote(e).items;
    case Record(members) =>
      forall m | m in members
        ensures Denote(Canon(m.1)) == Denote(m.1)
      {
        CanonDenotes(m.1);
      }
      CanonRecordDenotes(e);
  }

  lemma CanonRecordDenotes(e: Ext)
    requires e.Record?
    requires forall m | m in e.members :: Denote(Canon(m.1)) == Denote(m.1)
    ensures Denote(Canon(e)) == Denote(e)
  {
    CanonFields(e);
    FieldKeys(e);
    FieldKeys(Canon(e));
    forall k | k in MemberKeys(e.members)
      ensures Denote(Canon(e)).fields[k] == Denote(e).fields[k]
    {
      assert e.members[LastIndex(e.members, k)] in e.members;
    }
    assert Denote(Canon(e)).fields == Denote(e).fields;
  }

  /** Texts that denote the same value have the same canonical text. */
  lemma {:induction false} DenoteDecides(a: Ext, b: Ext)
    requires Denote(a) == Denote(b)
    ensures Canon(a) == Canon(b)
    decreases a
  {
    match a
    case Scalar(_) =>
    case List(items) =>
      assert |items| == |Denote(a).items| == |b.items|;
      forall i | 0 <= i < |items|
        ensures Canon(items[i]) == Canon(b.items[i])
      {
        assert Denote(a).items[i] == Denote(b).items[i];
        DenoteDecides(items[i], b.items[i]);
      }
      assert Canon(a).items == Canon(b).items;
    case Record(members) =>
      FieldKeys(a);
      FieldKeys(b);
      var x, y := MemberKeys(members), MemberKeys(b.members);
      assert ToSet(x) == ToSet(y);
      DedupeSortOnSets(x, y);
      DedupeSortSpec(x);
      var keys := DedupeSort(x);
      forall i | 0 <= i < |keys|
        ensures Canon(a).members[i] == Canon(b).members[i]
      {
        assert keys[i] in ToSet(x) && keys[i] in ToSet(y);
        DenoteDecides(members[LastIndex(members, keys[i])].1, b.members[LastIndex(b.members, keys[i])].1);
      }
      assert Canon(a).members == Canon(b).members;
  }

  /** The canonical text is a name for the denoted value: equal exactly when the values are. */
  lemma CanonIffDenote(a: Ext, b: Ext)
    ensures Canon(a) == Canon(b) <==> Denote(a) == Denote(b)
  {
    CanonDenotes(a);
    CanonDenotes(b);
    if Denote(a) == Denote(b) {
      DenoteDecides(a, b);
    }
  }

  lemma CanonTwice(e: Ext)
    ensures Canon(Canon(e)) == Canon(e)
  {
    CanonDenotes(e);
    CanonIffDenote(Canon(e), e);
  }

  // ----- depth and width -----

  /** validateExtensionDepth: at most four nested containers of at most sixteen children each. */
  predicate DepthOk(e: Ext, depth: nat)
    decreases e
  {
    match e
    case Scalar(_) => true
    case List(items) => depth <= 4 && |items| <= 16 && forall x | x in items :: DepthOk(x, depth + 1)
    case Record(members) => depth <= 4 && |members| <= 16 && forall m | m in members :: DepthOk(m.1, depth + 1)
  }

  /** How deep containers nest: a scalar is 0, a container one more than its deepest child. */
  predicate HeightAtMost(e: Ext, height: int)
    decreases e
  {
    match e
    case Scalar(_) => 0 <= height
    case List(items) => 1 <= height && forall x | x in items :: HeightAtMost(x, height - 1)
    case Record(members) => 1 <= height && forall m | m in members :: HeightAtMost(m.1, height - 1)
  }

  predicate WidthAtMost(e: Ext, width: nat)
    decreases e
  {
    match e
    case Scalar(_) => true
    case List(items) => |items| <= width && forall x | x in items :: WidthAtMost(x, width)
    case Record(members) => |members| <= width && forall m | m in members :: WidthAtMost(m.1, width)
  }

  /** The walk from the root decides two bounds at once, counted from the leaves up. */
  lemma {:induction false} DepthIsHeightAndWidth(e: Ext, depth: nat)
    requires depth <= 5
    ensures DepthOk(e, depth) <==> HeightAtMost(e, 5 - depth) && WidthAtMost(e, 16)
    decreases e
  {
    match e
    case Scalar(_) =>
    case List(items) =>
      if depth <= 4 {
        forall x | x in items
          ensures DepthOk(x, depth + 1) <==> HeightAtMost(x, 4 - depth) && WidthAtMost(x, 16)
        {
          DepthIsHeightAndWidth(x, depth + 1);
        }
      }
    case Record(members) =>
      if depth <= 4 {
        forall m | m in members
          ensures DepthOk(m.1, depth + 1) <==> HeightAtMost(m.1, 4 - depth) && WidthAtMost(m.1, 16)
        {
          DepthIsHeightAndWidth(m.1, depth + 1);
        }
      }
  }

  function Leaves(e: Ext): nat
    decreases e, 1
  {
    match e
    case Scalar(_) => 1
    case List(items) => LeavesOf(e, |items|)
    case Record(members) => LeavesOf(e, |members|)
  }

  /** The leaves below the first n children of a container. */
  function LeavesOf(e: Ext, n: nat): nat
    requires (e.List? && n <= |e.items|) || (e.Record? && n <= |e.members|)
    decreases e, 0, n
  {
    if n == 0 then 0
    else LeavesOf(e, n - 1) + Leaves(if e.List? then e.items[n - 1] else e.members[n - 1].1)
  }

  function Power16(n: nat): nat {
    if n == 0 then 1 else 16 * Power16(n - 1)
  }

  /** What the depth check accepts has at most 16^4 leaves, with one level fewer at each depth. */
  lemma {:induction false} LeavesBounded(e: Ext, depth: nat)
    requires depth <= 5 && DepthOk(e, depth)
    ensures Leaves(e) <= Power16(5 - depth)
    decreases e, 1
  {
    match e
    case Scalar(_) => PowerPositive(5 - depth);
    case List(items) => LeavesOfBounded(e, depth, |items|);
    case Record(members) => LeavesOfBounded(e, depth, |members|);
  }

  lemma PowerPositive(n: nat)
    ensures 1 <= Power16(n)
  {
  }

  lemma {:induction false} LeavesOfBounded(e: Ext, depth: nat, n: nat)
    requires depth <= 4 && !e.Scalar? && DepthOk(e, depth)
    requires (e.List? && n <= |e.items|) || (e.Record? && n <= |e.members|)
    ensures LeavesOf(e, n) <= n * Power16(4 - depth)
    ensures n <= 16 ==> LeavesOf(e, n) <= Power16(5 - depth)
    decreases e, 0, n
  {
    if n > 0 {
      var child := if e.List? then e.items[n - 1] else e.members[n - 1].1;
      if e.List? {
        assert e.items[n - 1] in e.items;
      } else {
        assert e.members[n - 1] in e.members;
      }
      LeavesOfBounded(e, depth, n - 1);
      LeavesBounded(child, depth + 1);
      Distribute(n, Power16(4 - depth));
    }
  }

  lemma Distribute(n: nat, p: nat)
    requires n > 0
    ensures (n - 1) * p + p == n * p
    ensures n <= 16 ==> n * p <= 16 * p
  {
  }

  /** An accepted extension value has at most 65536 leaves. */
  lemma AcceptedLeaves(e: Ext)
    requires DepthOk(e, 1)
    ensures Leaves(e) <= 65536
  {
    LeavesBounded(e, 1);
    assert Power16(4) == 65536;
  }
}
