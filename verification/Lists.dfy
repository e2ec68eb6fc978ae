/** Lists built by keeping what a partial function yields, as the gate's comprehensions do. */
module Lists {
  import opened Wrappers

  /** [y | some x in xs; y := f(x)] */
  function Collect<A, B>(f: A -> Option<B>, xs: seq<A>): seq<B> {
    if xs == [] then []
    else (match f(xs[0]) case Some(y) => [y] case None => []) + Collect(f, xs[1..])
  }

  lemma {:induction false} CollectAppend<A, B>(f: A -> Option<B>, a: seq<A>, b: seq<A>)
    ensures Collect(f, a + b) == Collect(f, a) + Collect(f, b)
  {
    if a == [] {
      assert a + b == b;
    } else {
      assert (a + b)[0] == a[0] && (a + b)[1..] == a[1..] + b;
      CollectAppend(f, a[1..], b);
    }
  }

  lemma CollectOne<A, B>(f: A -> Option<B>, x: A)
    ensures Collect(f, [x]) == match f(x) case Some(y) => [y] case None => []
  {
    assert Collect(f, [x][1..]) == [];
  }

  lemma PermutedSize<A>(a: seq<A>, b: seq<A>)
    requires multiset(a) == multiset(b)
    ensures |a| == |b| && ToSet(a) == ToSet(b)
    ensures |a| == 1 ==> a == b
  {
    assert |a| == |multiset(a)| == |multiset(b)| == |b|;
    assert forall x :: x in a <==> x in multiset(a);
    assert forall x :: x in b <==> x in multiset(b);
    if |a| == 1 {
      assert a[0] in multiset(b);
    }
  }

  lemma {:induction false} CollectMember<A, B>(f: A -> Option<B>, xs: seq<A>, y: B)
    ensures y in Collect(f, xs) <==> exists x | x in xs :: f(x) == Some(y)
  {
    if xs != [] {
      CollectMember(f, xs[1..], y);
      assert xs == [xs[0]] + xs[1..];
    }
  }

  /** Striking the same element from two permutations leaves permutations. */
  lemma Struck<A>(x: A, t: seq<A>, l: seq<A>, r: seq<A>)
    requires multiset([x] + t) == multiset(l + [x] + r)
    ensures multiset(t) == multiset(l + r)
  {
    assert multiset(t) == multiset([x] + t) - multiset{x};
    assert multiset(l + [x] + r) == multiset(l) + multiset{x} + multiset(r);
    assert multiset(l + r) == multiset(l + [x] + r) - multiset{x};
  }

  /** Where the first element of a list occurs in a permutation of the list. */
  lemma FirstOccursIn<A>(a: seq<A>, b: seq<A>) returns (l: seq<A>, r: seq<A>)
    requires a != [] && multiset(a) == multiset(b)
    ensures b == l + [a[0]] + r
    ensures multiset(a[1..]) == multiset(l + r)
  {
    assert a[0] in multiset(b);
    var k :| 0 <= k < |b| && b[k] == a[0];
    l, r := b[..k], b[k + 1..];
    assert b == l + [a[0]] + r;
    assert a == [a[0]] + a[1..];
    Struck(a[0], a[1..], l, r);
  }

  lemma CollectMoved<A, B>(f: A -> Option<B>, x: seq<A>, t: seq<A>, l: seq<A>, r: seq<A>)
    requires multiset(Collect(f, t)) == multiset(Collect(f, l + r))
    ensures multiset(Collect(f, x + t)) == multiset(Collect(f, l + x + r))
  {
    CollectAppend(f, x, t);
    CollectAppend(f, l + x, r);
    CollectAppend(f, l, x);
    CollectAppend(f, l, r);
  }

  /** The order of the input does not change what is collected, only its order. */
  lemma {:induction false} CollectPermuted<A, B>(f: A -> Option<B>, a: seq<A>, b: seq<A>)
    requires multiset(a) == multiset(b)
    ensures multiset(Collect(f, a)) == multiset(Collect(f, b))
  {
    if a == [] {
      assert |b| == |multiset(b)| == 0;
    } else {
      var l, r := FirstOccursIn(a, b);
      CollectPermuted(f, a[1..], l + r);
      CollectMoved(f, [a[0]], a[1..], l, r);
      assert a == [a[0]] + a[1..];
    }
  }

  function ToSet<A>(xs: seq<A>): set<A> {
    set x | x in xs
  }

  lemma ToSetAppend<A>(xs: seq<A>, x: A)
    ensures ToSet(xs + [x]) == ToSet(xs) + {x}
  {
  }

  predicate NoDuplicates<A(==)>(xs: seq<A>) {
    forall i, j | 0 <= i < j < |xs| :: xs[i] != xs[j]
  }

  /** Counting the set against the list is a test for repetition. */
  lemma {:induction false} CountDistinct<A>(xs: seq<A>)
    ensures |ToSet(xs)| <= |xs|
    ensures |ToSet(xs)| == |xs| <==> NoDuplicates(xs)
  {
    if xs != [] {
      var x, rest := xs[0], xs[1..];
      CountDistinct(rest);
      assert ToSet(xs) == {x} + ToSet(rest);
      if x in ToSet(rest) {
        assert {x} + ToSet(rest) == ToSet(rest);
        var k :| 0 <= k < |rest| && rest[k] == x;
        assert xs[0] == xs[k + 1];
      } else {
        assert NoDuplicates(rest) <==> NoDuplicates(xs) by {
          assert forall i | 0 <= i < |rest| :: rest[i] == xs[i + 1];
        }
      }
    } else {
      assert ToSet(xs) == {};
    }
  }

  // ----- total maps over lists -----

  /** Where f is defined throughout, collecting is mapping. */
  lemma {:induction false} CollectMaps<A, B>(f: A -> Option<B>, xs: seq<A>)
    requires forall x | x in xs :: f(x).Some?
    ensures |Collect(f, xs)| == |xs|
    ensures forall i | 0 <= i < |xs| :: f(xs[i]) == Some(Collect(f, xs)[i])
  {
    if xs != [] {
      assert xs[0] in xs;
      assert forall x | x in xs[1..] :: x in xs;
      CollectMaps(f, xs[1..]);
    }
  }

  /** Two lists agree under f, position by position. */
  predicate Aligned<A, B(==)>(f: A -> Option<B>, a: seq<A>, b: seq<A>) {
    |a| == |b| && forall i | 0 <= i < |a| :: f(a[i]) == f(b[i])
  }

  lemma {:induction false} AlignedCollect<A, B>(f: A -> Option<B>, a: seq<A>, b: seq<A>)
    requires Aligned(f, a, b)
    ensures Collect(f, a) == Collect(f, b)
  {
    if a != [] {
      assert f(a[0]) == f(b[0]);
      assert forall i | 0 <= i < |a[1..]| :: a[1..][i] == a[i + 1] && b[1..][i] == b[i + 1];
      AlignedCollect(f, a[1..], b[1..]);
    }
  }

  lemma AlignedDefined<A, B>(f: A -> Option<B>, a: seq<A>, b: seq<A>)
    requires Aligned(f, a, b) && forall x | x in a :: f(x).Some?
    ensures forall x | x in b :: f(x).Some?
  {
    forall x | x in b
      ensures f(x).Some?
    {
      var k :| 0 <= k < |b| && b[k] == x;
      assert a[k] in a;
    }
  }

  lemma CollectedFrom<A, B>(f: A -> Option<B>, b: seq<A>, y: B) returns (l: seq<A>, x: A, r: seq<A>)
    requires y in Collect(f, b)
    ensures b == l + [x] + r && f(x) == Some(y)
  {
    CollectMember(f, b, y);
    x :| x in b && f(x) == Some(y);
    var k :| 0 <= k < |b| && b[k] == x;
    l, r := b[..k], b[k + 1..];
  }

  /** If mapping makes two lists permutations of each other, one can be reordered to agree with the other. */
  lemma {:induction false} Realign<A, B>(f: A -> Option<B>, a: seq<A>, b: seq<A>) returns (c: seq<A>)
    requires forall x | x in a :: f(x).Some?
    requires forall x | x in b :: f(x).Some?
    requires multiset(Collect(f, a)) == multiset(Collect(f, b))
    ensures multiset(c) == multiset(b) && Aligned(f, a, c)
  {
    CollectMaps(f, a);
    CollectMaps(f, b);
    PermutedSize(Collect(f, a), Collect(f, b));
    if a == [] {
      c := [];
    } else {
      assert a[0] in a;
      var y := f(a[0]).value;
      assert a == [a[0]] + a[1..];
      CollectAppend(f, [a[0]], a[1..]);
      CollectOne(f, a[0]);
      assert y in multiset(Collect(f, a));
      var l, x, r := CollectedFrom(f, b, y);
      CollectAppend(f, l + [x], r);
      CollectAppend(f, l, [x]);
      CollectAppend(f, l, r);
      CollectOne(f, x);
      Struck(y, Collect(f, a[1..]), Collect(f, l), Collect(f, r));
      assert forall z | z in a[1..] :: z in a;
      assert forall z | z in l + r :: z in b;
      var rest := Realign(f, a[1..], l + r);
      c := [x] + rest;
      Restored(x, rest, l, r);
      AlignedCons(f, a, x, rest);
    }
  }

  lemma Restored<A>(x: A, t: seq<A>, l: seq<A>, r: seq<A>)
    requires multiset(t) == multiset(l + r)
    ensures multiset([x] + t) == multiset(l + [x] + r)
  {
    assert multiset(l + [x] + r) == multiset(l) + multiset{x} + multiset(r);
    assert multiset(l + r) == multiset(l) + multiset(r);
  }

  lemma AlignedCons<A, B>(f: A -> Option<B>, a: seq<A>, x: A, t: seq<A>)
    requires a != [] && f(a[0]) == f(x) && Aligned(f, a[1..], t)
    ensures Aligned(f, a, [x] + t)
  {
    forall i | 0 <= i < |a|
      ensures f(a[i]) == f(([x] + t)[i])
    {
      if i > 0 {
        assert a[i] == a[1..][i - 1];
      }
    }
  }
}
