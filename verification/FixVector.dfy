/**
 The fixed-capacity vector: a buffer owned by the caller, of which the first
 `count` cells are in use. Every operation works in place on the buffer and is
 proved against the sequence of cells in use.
 */
module FixVectors {
  import opened Options

  /** What a sort comparator has to satisfy. */
  ghost predicate StrictWeakOrder<T(!new)>(before: (T, T) -> bool) {
    && (forall a, b :: before(a, b) ==> !before(b, a))
    && (forall a, b, c :: !before(a, b) && !before(b, c) ==> !before(a, c))
  }

  ghost predicate SortedBy<T>(s: seq<T>, before: (T, T) -> bool) {
    forall i, j :: 0 <= i < j < |s| ==> !before(s[j], s[i])
  }

  /** The result of removing at most n elements of s from index start on. */
  function Spliced<T>(s: seq<T>, start: nat, n: nat): seq<T> {
    if start >= |s| then s
    else if start + n > |s| then s[..start]
    else s[..start] + s[start + n..]
  }

  lemma SplicedAt<T>(s: seq<T>, start: nat, n: nat, m: nat, r: seq<T>)
    requires start < |s| && m == if start + n > |s| then |s| - start else n
    requires |r| == |s| - m && forall k :: 0 <= k < |r| ==> r[k] == s[if k < start then k else k + m]
    ensures r == Spliced(s, start, n)
  {
    assert r == s[..start] + s[start + m..];
  }

  function Inserted<T>(s: seq<T>, x: T, before: (T, T) -> bool): seq<T> {
    if s == [] || before(x, s[0]) then [x] + s else [s[0]] + Inserted(s[1..], x, before)
  }

  function SortedCopy<T>(s: seq<T>, before: (T, T) -> bool): seq<T> {
    if s == [] then [] else Inserted(SortedCopy(s[1..], before), s[0], before)
  }

  lemma SortedCons<T(!new)>(x: T, t: seq<T>, before: (T, T) -> bool)
    requires SortedBy(t, before) && forall y :: y in t ==> !before(y, x)
    ensures SortedBy([x] + t, before)
  {
    var r := [x] + t;
    forall i, j | 0 <= i < j < |r|
      ensures !before(r[j], r[i])
    {
      assert r[j] == t[j - 1];
    }
  }

  lemma HeadIsFirst<T(!new)>(s: seq<T>, before: (T, T) -> bool)
    requires s != [] && StrictWeakOrder(before) && SortedBy(s, before)
    ensures forall y :: y in s ==> !before(y, s[0])
    ensures SortedBy(s[1..], before)
  {
  }

  lemma {:induction false} InsertedSorts<T(!new)>(s: seq<T>, x: T, before: (T, T) -> bool)
    requires StrictWeakOrder(before) && SortedBy(s, before)
    ensures SortedBy(Inserted(s, x, before), before)
    ensures multiset(Inserted(s, x, before)) == multiset(s) + multiset{x}
  {
    if s != [] {
      HeadIsFirst(s, before);
      assert s == [s[0]] + s[1..];
      hide SortedBy;
      if before(x, s[0]) {
        SortedCons(x, s, before);
      } else {
        InsertedSorts(s[1..], x, before);
        var t := Inserted(s[1..], x, before);
        forall y | y in t
          ensures !before(y, s[0])
        {
          assert y in multiset(t);
        }
        SortedCons(s[0], t, before);
      }
    }
  }

  /** Sorting gives a sorted permutation; nothing is promised about equal elements. */
  lemma {:induction false} SortedCopySorts<T(!new)>(s: seq<T>, before: (T, T) -> bool)
    requires StrictWeakOrder(before)
    ensures SortedBy(SortedCopy(s, before), before)
    ensures multiset(SortedCopy(s, before)) == multiset(s)
    ensures |SortedCopy(s, before)| == |s|
  {
    if s != [] {
      SortedCopySorts(s[1..], before);
      InsertedSorts(SortedCopy(s[1..], before), s[0], before);
      assert s == [s[0]] + s[1..];
      assert |SortedCopy(s, before)| == |multiset(SortedCopy(s, before))| == |multiset(s)| == |s|;
    }
  }

  class FixVector<T(!new)> {
    const buffer: array<T>
    var count: nat

    ghost predicate Valid()
      reads this
    {
      count <= buffer.Length
    }

    /** The cells in use. */
    ghost function Contents(): seq<T>
      reads this, buffer
      requires Valid()
    {
      buffer[..count]
    }

    /** A view of an existing buffer; a count beyond the capacity is cut down to it. */
    constructor (buffer: array<T>, count: nat)
      ensures Valid() && this.buffer == buffer
      ensures this.count == (if count > buffer.Length then buffer.Length else count)
      ensures Contents() == buffer[..this.count]
    {
      this.buffer := buffer;
      this.count := if count > buffer.Length then buffer.Length else count;
    }

    method PushBack(item: T) returns (ok: bool)
      requires Valid()
      modifies `count, buffer
      ensures Valid()
      ensures ok <==> |old(Contents())| < buffer.Length
      ensures Contents() == if ok then old(Contents()) + [item] else old(Contents())
    {
      if count >= buffer.Length {
        return false;
      }
      buffer[count] := item;
      count := count + 1;
      ok := true;
    }

    method PushFront(item: T) returns (ok: bool)
      requires Valid()
      modifies `count, buffer
      ensures Valid()
      ensures ok <==> |old(Contents())| < buffer.Length
      ensures Contents() == if ok then [item] + old(Contents()) else old(Contents())
    {
      if count >= buffer.Length {
        return false;
      }
      var i := count;
      while i > 0
        modifies buffer
        invariant 0 <= i <= count
        invariant forall k :: 0 <= k <= i && k < count ==> buffer[k] == old(buffer[k])
        invariant forall k :: i < k <= count ==> buffer[k] == old(buffer[k - 1])
      {
        buffer[i] := buffer[i - 1];
        i := i - 1;
      }
      buffer[0] := item;
      count := count + 1;
      ok := true;
    }

    /** A reference to the cell at an index in use, and nothing beyond. */
    method At(index: nat) returns (r: Option<T>)
      requires Valid()
      ensures r == if index < |Contents()| then Some(Contents()[index]) else None
    {
      if index >= count {
        return None;
      }
      r := Some(buffer[index]);
    }

    /** Writing through the reference that At gives. */
    method Store(index: nat, item: T)
      requires Valid() && index < |Contents()|
      modifies buffer
      ensures Contents() == old(Contents())[index := item]
    {
      buffer[index] := item;
    }

    /** Remove n cells from start on; start + n must not overflow a size_t. */
    method Splice(start: nat, n: nat)
      requires Valid()
      requires start + n < 0x1_0000_0000_0000_0000
      modifies `count, buffer
      ensures Valid()
      ensures Contents() == Spliced(old(Contents()), start, n)
    {
      if start >= count {
        return;
      }
      ghost var was := Contents();
      var m := if start + n > count then count - start else n;
      var moved := count - (start + m);
      var i := 0;
      while i < moved
        modifies buffer
        invariant 0 <= i <= moved
        invariant forall k :: 0 <= k < start + i ==> buffer[k] == was[if k < start then k else k + m]
        invariant forall k :: start + i <= k < count ==> buffer[k] == was[k]
      {
        buffer[start + i] := buffer[start + m + i];
        i := i + 1;
      }
      count := count - m;
      SplicedAt(was, start, n, m, buffer[..count]);
    }

    /** Sort the cells in use. */
    method Sort(before: (T, T) -> bool)
      requires Valid() && StrictWeakOrder(before)
      modifies buffer
      ensures SortedBy(Contents(), before)
      ensures multiset(Contents()) == multiset(old(Contents()))
      ensures buffer[count..] == old(buffer[count..])
    {
      var sorted := SortedCopy(buffer[..count], before);
      SortedCopySorts(buffer[..count], before);
      for i := 0 to count
        invariant buffer[..i] == sorted[..i]
        invariant buffer[count..] == old(buffer[count..])
      {
        buffer[i] := sorted[i];
      }
      assert Contents() == sorted;
    }
  }
}
