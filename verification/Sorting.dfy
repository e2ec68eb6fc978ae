/** Stable sorting by a strict weak order: Go's sort.SliceStable and sort.Strings, Python's list.sort. */
module Sorting {
  import opened Wrappers
  import opened Lists

  /** less is a strict weak order. */
  ghost predicate StrictWeakOrder<T(!new)>(less: (T, T) -> bool) {
    && (forall x :: !less(x, x))
    && (forall x, y, z :: less(x, y) && less(y, z) ==> less(x, z))
    && (forall x, y, z :: less(x, z) ==> less(x, y) || less(y, z))
  }

  predicate Sorted<T>(less: (T, T) -> bool, s: seq<T>) {
    forall i, j | 0 <= i < j < |s| :: !less(s[j], s[i])
  }

  /** x goes after every element that does not belong behind it. */
  function Insert<T>(less: (T, T) -> bool, x: T, t: seq<T>): seq<T> {
    if t == [] then [x]
    else if less(x, t[0]) then [x] + t
    else [t[0]] + Insert(less, x, t[1..])
  }

  function StableSort<T>(less: (T, T) -> bool, s: seq<T>): seq<T> {
    if s == [] then [] else Insert(less, s[|s| - 1], StableSort(less, s[..|s| - 1]))
  }

  lemma {:induction false} InsertPermutes<T>(less: (T, T) -> bool, x: T, t: seq<T>)
    ensures multiset(Insert(less, x, t)) == multiset(t) + multiset{x}
  {
    if t != [] {
      assert t == [t[0]] + t[1..];
      if !less(x, t[0]) {
        InsertPermutes(less, x, t[1..]);
      }
    }
  }

  lemma {:induction false} SortPermutes<T>(less: (T, T) -> bool, s: seq<T>)
    ensures multiset(StableSort(less, s)) == multiset(s)
  {
    if s != [] {
      var n := |s| - 1;
      assert s == s[..n] + [s[n]];
      SortPermutes(less, s[..n]);
      InsertPermutes(less, s[n], StableSort(less, s[..n]));
    }
  }

  lemma {:induction false} InsertSorted<T(!new)>(less: (T, T) -> bool, x: T, t: seq<T>)
    requires StrictWeakOrder(less) && Sorted(less, t)
    ensures Sorted(less, Insert(less, x, t))
  {
    if t == [] {
    } else if less(x, t[0]) {
      SortedCons(less, x, t);
    } else {
      var rest := Insert(less, x, t[1..]);
      InsertSorted(less, x, t[1..]);
      InsertPermutes(less, x, t[1..]);
      forall y | y in rest
        ensures !less(y, t[0])
      {
        assert y in multiset(rest);
        if y != x {
          assert y in t[1..];
        }
      }
      assert Sorted(less, [t[0]] + rest);
    }
  }

  lemma SortedCons<T(!new)>(less: (T, T) -> bool, x: T, t: seq<T>)
    requires StrictWeakOrder(less) && Sorted(less, t) && t != [] && less(x, t[0])
    ensures Sorted(less, [x] + t)
  {
  }

  lemma {:induction false} SortSorted<T(!new)>(less: (T, T) -> bool, s: seq<T>)
    requires StrictWeakOrder(less)
    ensures Sorted(less, StableSort(less, s))
  {
    if s != [] {
      var n := |s| - 1;
      SortSorted(less, s[..n]);
      InsertSorted(less, s[n], StableSort(less, s[..n]));
    }
  }

  /** Ties occur only between equal elements. */
  ghost predicate TiesEqual<T>(less: (T, T) -> bool, s: seq<T>) {
    forall x, y | x in s && y in s :: x == y || less(x, y) || less(y, x)
  }

  lemma SameRest<T>(a: seq<T>, b: seq<T>)
    requires a != [] && b != [] && a[0] == b[0] && multiset(a) == multiset(b)
    ensures multiset(a[1..]) == multiset(b[1..])
  {
    assert a == [a[0]] + a[1..] && b == [] + [a[0]] + b[1..];
    Struck(a[0], a[1..], [], b[1..]);
    assert [] + b[1..] == b[1..];
  }

  lemma SortedTail<T>(less: (T, T) -> bool, s: seq<T>)
    requires s != [] && Sorted(less, s)
    ensures Sorted(less, s[1..])
  {
  }

  /** Without ties there is one sorted arrangement. */
  lemma {:induction false} SortedUnique<T(!new)>(less: (T, T) -> bool, a: seq<T>, b: seq<T>)
    requires Sorted(less, a) && Sorted(less, b) && multiset(a) == multiset(b)
    requires TiesEqual(less, a)
    ensures a == b
  {
    PermutedSize(a, b);
    if a != [] {
      FirstSame(less, a, b);
      SameRest(a, b);
      assert forall x :: x in a[1..] ==> x in a;
      SortedTail(less, a);
      SortedTail(less, b);
      SortedUnique(less, a[1..], b[1..]);
    }
  }

  lemma FirstSame<T>(less: (T, T) -> bool, a: seq<T>, b: seq<T>)
    requires Sorted(less, a) && Sorted(less, b) && multiset(a) == multiset(b)
    requires TiesEqual(less, a) && a != [] && |a| == |b|
    ensures a[0] == b[0]
  {
    assert a[0] in multiset(b) && b[0] in multiset(a);
    var j :| 0 <= j < |b| && b[j] == a[0];
    var k :| 0 <= k < |a| && a[k] == b[0];
    assert a[0] in a && a[k] in a;
  }

  /** Sorting forgets the order of its input. */
  lemma SortForgetsOrder<T(!new)>(less: (T, T) -> bool, a: seq<T>, b: seq<T>)
    requires StrictWeakOrder(less) && multiset(a) == multiset(b) && TiesEqual(less, a)
    ensures StableSort(less, a) == StableSort(less, b)
  {
    SortPermutes(less, a);
    SortPermutes(less, b);
    SortSorted(less, a);
    SortSorted(less, b);
    var x := StableSort(less, a);
    assert forall y :: y in x ==> y in multiset(x);
    SortedUnique(less, x, StableSort(less, b));
  }

  /** A sorted list without distinct ties is already its own sorted form. */
  lemma SortFixed<T(!new)>(less: (T, T) -> bool, a: seq<T>)
    requires StrictWeakOrder(less) && Sorted(less, a)
    ensures StableSort(less, a) == a
  {
    if a != [] {
      var n := |a| - 1;
      SortFixed(less, a[..n]);
      InsertLast(less, a[n], a[..n]);
      assert a == a[..n] + [a[n]];
    }
  }

  lemma {:induction false} InsertLast<T>(less: (T, T) -> bool, x: T, t: seq<T>)
    requires forall y | y in t :: !less(x, y)
    ensures Insert(less, x, t) == t + [x]
  {
    if t != [] {
      InsertLast(less, x, t[1..]);
      assert t + [x] == [t[0]] + (t[1..] + [x]);
    }
  }

  // ----- bytewise order of strings -----

  /** Go compares the UTF-8 bytes of strings, which orders them as their code points do. */
  predicate LexLess(a: string, b: string) {
    b != [] && (a == [] || a[0] < b[0] || (a[0] == b[0] && LexLess(a[1..], b[1..])))
  }

  lemma {:induction false} LexTotal(a: string, b: string)
    ensures a == b || LexLess(a, b) || LexLess(b, a)
    ensures !(LexLess(a, b) && LexLess(b, a))
  {
    if a != [] && b != [] {
      LexTotal(a[1..], b[1..]);
      assert a == [a[0]] + a[1..] && b == [b[0]] + b[1..];
    }
  }

  lemma {:induction false} LexTransitive(a: string, b: string, c: string)
    requires LexLess(a, b) && LexLess(b, c)
    ensures LexLess(a, c)
  {
    if a != [] && a[0] == b[0] == c[0] {
      LexTransitive(a[1..], b[1..], c[1..]);
    }
  }

  /** `k` is where `a` first falls short of `b`: it ends there, or has a smaller character. */
  predicate DiffersAt(a: string, b: string, k: nat) {
    k <= |a| && k < |b| && a[..k] == b[..k] && (k == |a| || a[k] < b[k])
  }

  /** A proper prefix is smaller; otherwise the first difference decides. */
  predicate Before(a: string, b: string) {
    exists k | 0 <= k <= |a| :: DiffersAt(a, b, k)
  }

  lemma {:induction false} LexMeans(a: string, b: string)
    ensures LexLess(a, b) <==> Before(a, b)
  {
    if a != [] && b != [] {
      LexMeans(a[1..], b[1..]);
      BeforeTail(a, b);
    } else if b != [] {
      assert DiffersAt(a, b, 0);
    }
  }

  lemma DiffersTail(a: string, b: string, k: nat)
    requires a != [] && b != []
    ensures DiffersAt(a, b, k + 1) <==> a[0] == b[0] && DiffersAt(a[1..], b[1..], k)
  {
    if k < |a| && k + 1 < |b| {
      assert a[..k + 1] == [a[0]] + a[1..][..k];
      assert b[..k + 1] == [b[0]] + b[1..][..k];
      assert a[..k + 1][0] == a[0] && a[..k + 1][1..] == a[1..][..k];
      assert b[..k + 1][0] == b[0] && b[..k + 1][1..] == b[1..][..k];
    }
  }

  lemma BeforeTail(a: string, b: string)
    requires a != [] && b != []
    ensures Before(a, b) <==> a[0] < b[0] || (a[0] == b[0] && Before(a[1..], b[1..]))
  {
    assert DiffersAt(a, b, 0) <==> a[0] < b[0];
    if k: nat :| DiffersAt(a, b, k) && k > 0 {
      DiffersTail(a, b, k - 1);
    }
    if k: nat :| DiffersAt(a[1..], b[1..], k) && a[0] == b[0] {
      DiffersTail(a, b, k);
    }
  }

  lemma LexOrder()
    ensures StrictWeakOrder(LexLess)
  {
    forall a: string, b: string
      ensures a == b || LexLess(a, b) || LexLess(b, a)
      ensures !(LexLess(a, b) && LexLess(b, a))
    {
      LexTotal(a, b);
    }
    forall a: string, b: string, c: string | LexLess(a, b) && LexLess(b, c)
      ensures LexLess(a, c)
    {
      LexTransitive(a, b, c);
    }
  }

  lemma LexTies(s: seq<string>)
    ensures TiesEqual(LexLess, s)
  {
    forall a, b | a in s && b in s
      ensures a == b || LexLess(a, b) || LexLess(b, a)
    {
      LexTotal(a, b);
    }
  }

  // ----- stability -----

  /** Keeps the elements that tie with x. */
  function TiesWith<T>(less: (T, T) -> bool, x: T): T -> Option<T> {
    y => if !less(x, y) && !less(y, x) then Some(y) else None
  }

  lemma {:induction false} NoneCollected<T>(f: T -> Option<T>, t: seq<T>)
    requires forall y | y in t :: f(y) == None
    ensures Collect(f, t) == []
  {
    if t != [] {
      NoneCollected(f, t[1..]);
    }
  }

  lemma {:induction false} InsertStable<T(!new)>(less: (T, T) -> bool, k: T, x: T, t: seq<T>)
    requires StrictWeakOrder(less) && Sorted(less, t)
    ensures Collect(TiesWith(less, k), Insert(less, x, t)) ==
      Collect(TiesWith(less, k), t) + Collect(TiesWith(less, k), [x])
  {
    var f := TiesWith(less, k);
    CollectOne(f, x);
    if t == [] {
    } else if less(x, t[0]) {
      CollectAppend(f, [x], t);
      if f(x) == Some(x) {
        forall y | y in t
          ensures f(y) == None
        {
          assert !less(y, t[0]);
          assert less(x, y) && less(k, y);
        }
        NoneCollected(f, t);
      } else {
        assert [] + Collect(f, t) == Collect(f, t);
      }
    } else {
      hide Collect;
      InsertStable(less, k, x, t[1..]);
      CollectAppend(f, [t[0]], Insert(less, x, t[1..]));
      CollectAppend(f, [t[0]], t[1..]);
      assert t == [t[0]] + t[1..];
    }
  }

  /** Elements that tie keep the order they had. */
  lemma {:induction false} SortStable<T(!new)>(less: (T, T) -> bool, k: T, s: seq<T>)
    requires StrictWeakOrder(less)
    ensures Collect(TiesWith(less, k), StableSort(less, s)) == Collect(TiesWith(less, k), s)
  {
    if s != [] {
      var n := |s| - 1;
      SortSorted(less, s[..n]);
      SortStable(less, k, s[..n]);
      InsertStable(less, k, s[n], StableSort(less, s[..n]));
      CollectAppend(TiesWith(less, k), s[..n], [s[n]]);
      assert s == s[..n] + [s[n]];
    }
  }

  // ----- distinct sorted strings -----

  /** The elements of s without their later repetitions. */
  function Dedupe(s: seq<string>): (d: seq<string>)
    ensures ToSet(d) == ToSet(s) && NoDuplicates(d)
  {
    if s == [] then []
    else
      var n := |s| - 1;
      var d := Dedupe(s[..n]);
      assert s == s[..n] + [s[n]];
      ToSetAppend(s[..n], s[n]);
      if s[n] in d then
        assert s[n] in ToSet(d);
        d
      else
        ToSetAppend(d, s[n]);
        d + [s[n]]
  }

  /** dedupeSortStrings */
  function DedupeSort(s: seq<string>): seq<string> {
    StableSort(LexLess, Dedupe(s))
  }

  lemma {:induction false} NoDuplicatesPermuted<A>(a: seq<A>, b: seq<A>)
    requires NoDuplicates(a) && NoDuplicates(b) && ToSet(a) == ToSet(b)
    ensures multiset(a) == multiset(b)
  {
    forall x
      ensures multiset(a)[x] == multiset(b)[x]
    {
      OccursOnce(a, x);
      OccursOnce(b, x);
      assert x in ToSet(a) <==> x in ToSet(b);
    }
  }

  lemma {:induction false} OccursOnce<A>(a: seq<A>, x: A)
    requires NoDuplicates(a)
    ensures multiset(a)[x] == if x in a then 1 else 0
  {
    if a != [] {
      assert a == [a[0]] + a[1..];
      OccursOnce(a[1..], x);
      if x == a[0] {
        assert x !in a[1..];
      }
    }
  }

  lemma {:induction false} NoDuplicatesOf<A>(a: seq<A>, b: seq<A>)
    requires multiset(a) == multiset(b) && NoDuplicates(a)
    ensures NoDuplicates(b)
  {
    PermutedSize(a, b);
    CountDistinct(a);
    CountDistinct(b);
  }

  /** What is left is the set of the elements, each once, in bytewise order. */
  lemma DedupeSortSpec(s: seq<string>)
    ensures ToSet(DedupeSort(s)) == ToSet(s)
    ensures NoDuplicates(DedupeSort(s))
    ensures Sorted(LexLess, DedupeSort(s))
  {
    LexOrder();
    var d := Dedupe(s);
    SortPermutes(LexLess, d);
    SortSorted(LexLess, d);
    PermutedSize(d, DedupeSort(s));
    NoDuplicatesOf(d, DedupeSort(s));
  }

  /** Order and repetition are all that is lost: equal results mean equal sets. */
  lemma DedupeSortOnSets(a: seq<string>, b: seq<string>)
    ensures DedupeSort(a) == DedupeSort(b) <==> ToSet(a) == ToSet(b)
  {
    DedupeSortSpec(a);
    DedupeSortSpec(b);
    if ToSet(a) == ToSet(b) {
      LexOrder();
      LexTies(Dedupe(a));
      NoDuplicatesPermuted(Dedupe(a), Dedupe(b));
      SortForgetsOrder(LexLess, Dedupe(a), Dedupe(b));
    }
  }

  lemma {:induction false} DedupeFixed(s: seq<string>)
    requires NoDuplicates(s)
    ensures Dedupe(s) == s
  {
    if s != [] {
      var n := |s| - 1;
      DedupeFixed(s[..n]);
      assert s == s[..n] + [s[n]];
    }
  }

  /** A second pass changes nothing. */
  lemma DedupeSortTwice(s: seq<string>)
    ensures DedupeSort(DedupeSort(s)) == DedupeSort(s)
  {
    DedupeSortSpec(s);
    DedupeSortOnSets(DedupeSort(s), s);
  }
}
