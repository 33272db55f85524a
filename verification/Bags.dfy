/**
 Sequences seen as bags: filtering, counting, and summing a multiset-valued
 function over a sequence. The protocols use these to say what is conserved
 while queues are reordered by a sort that is not stable.
 */
module Bags {
  /** The multiset sum of f over s. */
  function Gather<T, X>(s: seq<T>, f: T -> multiset<X>): multiset<X> {
    if s == [] then multiset{} else f(s[0]) + Gather(s[1..], f)
  }

  /** The elements of s that satisfy p, in order. */
  function Filter<T(!new)>(s: seq<T>, p: T -> bool): (r: seq<T>)
    ensures |r| <= |s|
    ensures forall x :: x in r <==> x in s && p(x)
  {
    if s == [] then [] else (if p(s[0]) then [s[0]] else []) + Filter(s[1..], p)
  }

  /** How many elements of s satisfy p. */
  function Count<T>(s: seq<T>, p: T -> bool): (n: nat)
    ensures n <= |s|
  {
    if s == [] then 0 else (if p(s[0]) then 1 else 0) + Count(s[1..], p)
  }

  lemma GatherUnfold<T, X>(s: seq<T>, f: T -> multiset<X>)
    ensures Gather(s, f) == if s == [] then multiset{} else f(s[0]) + Gather(s[1..], f)
  {
  }

  lemma GatherOne<T, X>(x: T, f: T -> multiset<X>)
    ensures Gather([x], f) == f(x)
  {
  }

  lemma {:induction false} GatherConcat<T, X>(s: seq<T>, t: seq<T>, f: T -> multiset<X>)
    ensures Gather(s + t, f) == Gather(s, f) + Gather(t, f)
  {
    if s == [] {
      assert s + t == t;
    } else {
      assert (s + t)[1..] == s[1..] + t;
      GatherConcat(s[1..], t, f);
    }
  }

  lemma GatherSplitAt<T, X>(s: seq<T>, i: nat, f: T -> multiset<X>)
    requires i < |s|
    ensures Gather(s, f) == f(s[i]) + Gather(s[..i] + s[i + 1..], f)
  {
    assert s == s[..i] + ([s[i]] + s[i + 1..]);
    GatherConcat(s[..i], [s[i]] + s[i + 1..], f);
    GatherConcat([s[i]], s[i + 1..], f);
    GatherConcat(s[..i], s[i + 1..], f);
    assert Gather([s[i]], f) == f(s[i]);
  }

  /** What the elements of s other than the one at i gather. */
  function Others<T, X>(s: seq<T>, i: nat, f: T -> multiset<X>): multiset<X>
    requires i < |s|
  {
    Gather(s[..i] + s[i + 1..], f)
  }

  lemma GatherUpdate<T, X>(s: seq<T>, i: nat, x: T, f: T -> multiset<X>)
    requires i < |s|
    ensures Gather(s, f) == f(s[i]) + Others(s, i, f)
    ensures Gather(s[i := x], f) == f(x) + Others(s, i, f)
  {
    var u := s[i := x];
    GatherSplitAt(s, i, f);
    GatherSplitAt(u, i, f);
    assert u[..i] + u[i + 1..] == s[..i] + s[i + 1..];
  }

  /** Trading new for old on one side and out' for out on the other leaves the total. */
  lemma Rebalance<X>(total: multiset<X>, out: multiset<X>, out': multiset<X>,
                     old': multiset<X>, new': multiset<X>, rest: multiset<X>)
    requires total == out + (old' + rest)
    requires out + old' == out' + new'
    ensures total == out' + (new' + rest)
  {
    forall x: X
      ensures total[x] == (out' + (new' + rest))[x]
    {
      assert (out + old')[x] == (out' + new')[x];
    }
  }

  /** Taking the same piece from both sides of an equation. */
  lemma Cancel<X>(total: multiset<X>, total': multiset<X>, out: multiset<X>, kept: multiset<X>, piece: multiset<X>)
    requires total == total' + piece
    requires total == out + (piece + kept)
    ensures total' == out + kept
  {
    forall x: X
      ensures total'[x] == (out + kept)[x]
    {
      assert total[x] == (out + (piece + kept))[x];
    }
  }

  lemma GatherContains<T, X>(s: seq<T>, x: T, f: T -> multiset<X>)
    requires x in s
    ensures f(x) <= Gather(s, f)
  {
    var i :| 0 <= i < |s| && s[i] == x;
    GatherSplitAt(s, i, f);
  }

  lemma RemoveAt<T>(s: seq<T>, i: nat)
    requires i < |s|
    ensures multiset(s[..i] + s[i + 1..]) == multiset(s) - multiset{s[i]}
  {
    assert s == s[..i] + [s[i]] + s[i + 1..];
  }

  /** The head of s found in a permutation of s. */
  lemma FindHead<T>(s: seq<T>, t: seq<T>) returns (i: nat)
    requires s != [] && multiset(s) == multiset(t)
    ensures i < |t| && t[i] == s[0]
    ensures multiset(s[1..]) == multiset(t[..i] + t[i + 1..])
  {
    assert s[0] in multiset(t);
    i :| 0 <= i < |t| && t[i] == s[0];
    RemoveAt(s, 0);
    RemoveAt(t, i);
    assert s[..0] + s[1..] == s[1..];
  }

  lemma {:induction false} GatherPermutation<T, X>(s: seq<T>, t: seq<T>, f: T -> multiset<X>)
    requires multiset(s) == multiset(t)
    ensures Gather(s, f) == Gather(t, f)
    decreases |s|
  {
    hide Gather;
    if s == [] {
      assert |multiset(t)| == 0;
    } else {
      var i := FindHead(s, t);
      GatherPermutation(s[1..], t[..i] + t[i + 1..], f);
      GatherUnfold(s, f);
      GatherSplitAt(t, i, f);
    }
  }

  /** Functions that agree on the elements of s gather the same bag. */
  lemma {:induction false} GatherSame<T(!new), X>(s: seq<T>, f: T -> multiset<X>, g: T -> multiset<X>)
    requires forall x :: x in s ==> f(x) == g(x)
    ensures Gather(s, f) == Gather(s, g)
  {
    if s != [] {
      GatherSame(s[1..], f, g);
    }
  }

  /** A filter and its complement share out the whole bag. */
  lemma {:induction false} GatherFilter<T(!new), X>(s: seq<T>, p: T -> bool, q: T -> bool, f: T -> multiset<X>)
    requires forall x :: x in s ==> p(x) == !q(x)
    ensures Gather(Filter(s, p), f) + Gather(Filter(s, q), f) == Gather(s, f)
  {
    if s != [] {
      GatherFilter(s[1..], p, q, f);
      var hp, hq := if p(s[0]) then [s[0]] else [], if q(s[0]) then [s[0]] else [];
      assert Filter(s, p) == hp + Filter(s[1..], p) && Filter(s, q) == hq + Filter(s[1..], q);
      assert Gather([s[0]], f) == f(s[0]);
      assert Gather([], f) == multiset{};
      assert Gather(s, f) == f(s[0]) + Gather(s[1..], f);
      hide Gather, Filter;
      GatherConcat(hp, Filter(s[1..], p), f);
      GatherConcat(hq, Filter(s[1..], q), f);
    }
  }

  lemma {:induction false} FilterConcat<T(!new)>(s: seq<T>, t: seq<T>, p: T -> bool)
    ensures Filter(s + t, p) == Filter(s, p) + Filter(t, p)
  {
    if s == [] {
      assert s + t == t;
    } else {
      assert (s + t)[1..] == s[1..] + t;
      FilterConcat(s[1..], t, p);
    }
  }

  lemma {:induction false} FilterNone<T(!new)>(s: seq<T>, p: T -> bool)
    requires forall x :: x in s ==> !p(x)
    ensures Filter(s, p) == []
  {
    if s != [] {
      FilterNone(s[1..], p);
    }
  }

  lemma {:induction false} FilterAll<T(!new)>(s: seq<T>, p: T -> bool)
    requires forall x :: x in s ==> p(x)
    ensures Filter(s, p) == s
  {
    if s != [] {
      FilterAll(s[1..], p);
    }
  }

  lemma {:induction false} FilterMultiplicity<T(!new)>(s: seq<T>, p: T -> bool, x: T)
    ensures multiset(Filter(s, p))[x] == if p(x) then multiset(s)[x] else 0
  {
    if s != [] {
      FilterMultiplicity(s[1..], p, x);
      assert s == [s[0]] + s[1..];
    }
  }

  /** Rearranging changes neither the elements nor the length. */
  lemma SameBag<T(!new)>(s: seq<T>, t: seq<T>)
    requires multiset(s) == multiset(t)
    ensures forall x :: x in s <==> x in t
    ensures |s| == |t|
  {
    assert |s| == |multiset(s)| == |multiset(t)|;
    forall x
      ensures x in s <==> x in t
    {
      assert x in s <==> x in multiset(s);
      assert x in t <==> x in multiset(t);
    }
  }

  lemma FilterPermutation<T(!new)>(s: seq<T>, t: seq<T>, p: T -> bool)
    requires multiset(s) == multiset(t)
    ensures multiset(Filter(s, p)) == multiset(Filter(t, p))
  {
    forall x: T
      ensures multiset(Filter(s, p))[x] == multiset(Filter(t, p))[x]
    {
      FilterMultiplicity(s, p, x);
      FilterMultiplicity(t, p, x);
    }
  }

  lemma {:induction false} CountConcat<T>(s: seq<T>, t: seq<T>, p: T -> bool)
    ensures Count(s + t, p) == Count(s, p) + Count(t, p)
  {
    if s == [] {
      assert s + t == t;
    } else {
      assert (s + t)[1..] == s[1..] + t;
      CountConcat(s[1..], t, p);
    }
  }

  lemma CountUpdate<T>(s: seq<T>, i: nat, x: T, p: T -> bool)
    requires i < |s|
    ensures Count(s[i := x], p) == Count(s, p) - (if p(s[i]) then 1 else 0) + (if p(x) then 1 else 0)
    ensures p(s[i]) ==> Count(s, p) > 0
  {
    var u := s[i := x];
    assert s == s[..i] + ([s[i]] + s[i + 1..]);
    assert u == s[..i] + ([x] + s[i + 1..]);
    CountConcat(s[..i], [s[i]] + s[i + 1..], p);
    CountConcat(s[..i], [x] + s[i + 1..], p);
  }

  /** A positive count has a witness, and a count short of the length a counterexample. */
  lemma {:induction false} CountWitness<T>(s: seq<T>, p: T -> bool)
    ensures Count(s, p) > 0 <==> exists i :: 0 <= i < |s| && p(s[i])
    ensures Count(s, p) == |s| <==> forall i :: 0 <= i < |s| ==> p(s[i])
  {
    if s != [] {
      CountWitness(s[1..], p);
      assert s == [s[0]] + s[1..];
      if exists i :: 0 <= i < |s| && p(s[i]) {
        var i :| 0 <= i < |s| && p(s[i]);
        if i > 0 {
          assert p(s[1..][i - 1]);
        }
      }
      if exists i :: 0 <= i < |s| && !p(s[i]) {
        var i :| 0 <= i < |s| && !p(s[i]);
        if i > 0 {
          assert !p(s[1..][i - 1]);
        }
      }
      if Count(s[1..], p) > 0 {
        var i :| 0 <= i < |s[1..]| && p(s[1..][i]);
        assert p(s[i + 1]);
      }
      if Count(s[1..], p) < |s[1..]| {
        var i :| 0 <= i < |s[1..]| && !p(s[1..][i]);
        assert !p(s[i + 1]);
      }
    }
  }

  /** Two different places that satisfy p count for two. */
  lemma CountTwo<T>(s: seq<T>, i: nat, j: nat, p: T -> bool)
    requires i < j < |s| && p(s[i]) && p(s[j])
    ensures Count(s, p) >= 2
  {
    assert s == s[..j] + s[j..];
    CountConcat(s[..j], s[j..], p);
    CountWitness(s[..j], p);
    CountWitness(s[j..], p);
    assert p(s[..j][i]) && p(s[j..][0]);
  }
}
