/**
 The fixed-capacity map: entries kept in a caller's buffer in increasing key
 order, searched by bisection and shifted on insertion and removal.
 */
module FixMaps {
  import opened Options

  datatype Entry<+V> = Entry(key: nat, value: V)

  ghost predicate Increasing<V>(es: seq<Entry<V>>) {
    forall i, j :: 0 <= i < j < |es| ==> es[i].key < es[j].key
  }

  /** p is where the keys turn from smaller than key to not smaller. */
  ghost predicate IsRank<V>(es: seq<Entry<V>>, key: nat, p: nat) {
    && p <= |es|
    && (p > 0 ==> es[p - 1].key < key)
    && (p < |es| ==> es[p].key >= key)
  }

  lemma {:induction false} RankExists<V>(es: seq<Entry<V>>, key: nat)
    ensures exists p: nat :: IsRank(es, key, p)
  {
    if es == [] || es[|es| - 1].key < key {
      assert IsRank(es, key, |es|);
    } else {
      var shorter := es[..|es| - 1];
      RankExists(shorter, key);
      var p: nat :| IsRank(shorter, key, p);
      assert IsRank(es, key, p);
    }
  }

  /** How many entries have a smaller key. */
  ghost function Rank<V>(es: seq<Entry<V>>, key: nat): (p: nat)
    ensures IsRank(es, key, p)
  {
    RankExists(es, key);
    var p: nat :| IsRank(es, key, p);
    p
  }

  ghost predicate Has<V>(es: seq<Entry<V>>, key: nat) {
    Rank(es, key) < |es| && es[Rank(es, key)].key == key
  }

  /** The finite map that a table of entries stands for. */
  ghost function AsMap<V>(es: seq<Entry<V>>): map<nat, V> {
    map k | k in (set e | e in es :: e.key) && Has(es, k) :: es[Rank(es, k)].value
  }

  lemma Lookup<V>(es: seq<Entry<V>>, k: nat)
    ensures k in AsMap(es) <==> Has(es, k)
    ensures Has(es, k) ==> AsMap(es)[k] == es[Rank(es, k)].value
  {
  }

  ghost function WithKey<V>(es: seq<Entry<V>>, key: nat, value: V): seq<Entry<V>> {
    es[..Rank(es, key)] + [Entry(key, value)] + es[Rank(es, key)..]
  }

  ghost function WithoutKey<V>(es: seq<Entry<V>>, key: nat): seq<Entry<V>>
    requires Has(es, key)
  {
    es[..Rank(es, key)] + es[Rank(es, key) + 1..]
  }

  /** The rank is the one place where the keys turn from smaller to not smaller. */
  lemma RankIs<V>(es: seq<Entry<V>>, key: nat, p: nat)
    requires Increasing(es) && IsRank(es, key, p)
    ensures Rank(es, key) == p
  {
  }

  lemma RankAfterInsert<V>(es: seq<Entry<V>>, key: nat, value: V, k: nat)
    requires Increasing(es) && !Has(es, key)
    requires Increasing(WithKey(es, key, value))
    ensures Rank(WithKey(es, key, value), k) == if k <= key then Rank(es, k) else Rank(es, k) + 1
  {
    var r, p, q := WithKey(es, key, value), Rank(es, key), Rank(es, k);
    if k <= key {
      assert q <= p;
      assert q > 0 ==> r[q - 1] == es[q - 1];
      assert r[q] == if q < p then es[q] else Entry(key, value);
      RankIs(r, k, q);
    } else {
      assert p <= q;
      assert r[q] == if q == p then Entry(key, value) else es[q - 1];
      assert q + 1 < |r| ==> r[q + 1] == es[q];
      RankIs(r, k, q + 1);
    }
  }

  /** Adding an absent key at its rank keeps the order. */
  lemma WithKeyIncreasing<V>(es: seq<Entry<V>>, key: nat, value: V)
    requires Increasing(es) && !Has(es, key)
    ensures Increasing(WithKey(es, key, value))
  {
    var r, p := WithKey(es, key, value), Rank(es, key);
    forall i, j | 0 <= i < j < |r|
      ensures r[i].key < r[j].key
    {
      assert r[i] == if i < p then es[i] else if i == p then Entry(key, value) else es[i - 1];
      assert r[j] == if j < p then es[j] else if j == p then Entry(key, value) else es[j - 1];
    }
  }

  /** A table stands for m when each key is found in the one just as in the other. */
  lemma SameBindings<V>(es: seq<Entry<V>>, m: map<nat, V>)
    requires forall k: nat :: Has(es, k) <==> k in m
    requires forall k: nat :: k in m ==> Has(es, k) && es[Rank(es, k)].value == m[k]
    ensures AsMap(es) == m
  {
  }

  /** Adding an absent key at its rank adds exactly that binding. */
  lemma WithKeyExtendsMap<V>(es: seq<Entry<V>>, key: nat, value: V)
    requires Increasing(es) && !Has(es, key)
    ensures Increasing(WithKey(es, key, value))
    ensures AsMap(WithKey(es, key, value)) == AsMap(es)[key := value]
  {
    WithKeyIncreasing(es, key, value);
    var r := WithKey(es, key, value);
    forall k: nat
      ensures Has(r, k) <==> k == key || Has(es, k)
      ensures Has(r, k) ==> r[Rank(r, k)].value == if k == key then value else es[Rank(es, k)].value
    {
      RankAfterInsert(es, key, value, k);
      Lookup(es, k);
    }
    SameBindings(r, AsMap(es)[key := value]);
  }

  lemma WithoutKeyIncreasing<V>(es: seq<Entry<V>>, key: nat)
    requires Increasing(es) && Has(es, key)
    ensures Increasing(WithoutKey(es, key))
  {
    var r, p := WithoutKey(es, key), Rank(es, key);
    forall i, j | 0 <= i < j < |r|
      ensures r[i].key < r[j].key
    {
      assert r[i] == es[if i < p then i else i + 1];
      assert r[j] == es[if j < p then j else j + 1];
    }
  }

  lemma RankAfterRemoval<V>(es: seq<Entry<V>>, key: nat, k: nat)
    requires Increasing(es) && Has(es, key)
    requires Increasing(WithoutKey(es, key))
    ensures Rank(WithoutKey(es, key), k) == if k <= key then Rank(es, k) else Rank(es, k) - 1
  {
    var r, p, q := WithoutKey(es, key), Rank(es, key), Rank(es, k);
    if k <= key {
      assert q <= p;
      assert q > 0 ==> r[q - 1] == es[q - 1];
      assert q < |r| ==> r[q] == if q < p then es[q] else es[q + 1];
      RankIs(r, k, q);
    } else {
      assert p < q;
      assert q - 1 > 0 ==> r[q - 2] == if q - 2 < p then es[q - 2] else es[q - 1];
      assert q - 1 < |r| ==> r[q - 1] == es[q];
      RankIs(r, k, q - 1);
    }
  }

  /** Removing a key removes exactly that binding. */
  lemma WithoutKeyShrinksMap<V>(es: seq<Entry<V>>, key: nat)
    requires Increasing(es) && Has(es, key)
    ensures Increasing(WithoutKey(es, key))
    ensures AsMap(WithoutKey(es, key)) == AsMap(es) - {key}
  {
    WithoutKeyIncreasing(es, key);
    hide AsMap, Increasing, Has;
    forall k: nat
      ensures k in AsMap(es) <==> Has(es, k)
      ensures Has(WithoutKey(es, key), k) <==> k != key && Has(es, k)
      ensures k != key && Has(es, k) ==> WithoutKey(es, key)[Rank(WithoutKey(es, key), k)].value == AsMap(es)[k]
    {
      FoundAfterRemoval(es, key, k);
      Lookup(es, k);
    }
    hide WithoutKey;
    SameBindings(WithoutKey(es, key), AsMap(es) - {key});
  }

  lemma FoundAfterRemoval<V>(es: seq<Entry<V>>, key: nat, k: nat)
    requires Increasing(es) && Has(es, key)
    ensures var r := WithoutKey(es, key);
            && (Has(r, k) <==> k != key && Has(es, k))
            && (Has(r, k) ==> r[Rank(r, k)].value == es[Rank(es, k)].value)
  {
    WithoutKeyIncreasing(es, key);
    RankAfterRemoval(es, key, k);
  }

  /** Overwriting the value of an entry rebinds its key and nothing else. */
  lemma NewValueUpdatesMap<V>(es: seq<Entry<V>>, i: nat, value: V)
    requires Increasing(es) && i < |es|
    ensures Increasing(es[i := Entry(es[i].key, value)])
    ensures Rank(es, es[i].key) == i && Has(es, es[i].key)
    ensures AsMap(es[i := Entry(es[i].key, value)]) == AsMap(es)[es[i].key := value]
  {
    var r := es[i := Entry(es[i].key, value)];
    RankIs(es, es[i].key, i);
    forall k: nat
      ensures Has(r, k) <==> Has(es, k)
      ensures Has(r, k) ==> r[Rank(r, k)].value == if k == es[i].key then value else es[Rank(es, k)].value
    {
      RankIs(r, k, Rank(es, k));
      Lookup(es, k);
    }
    SameBindings(r, AsMap(es)[es[i].key := value]);
  }

  /**
   A reference to the entry of a key held across an insertion still shows that
   key exactly when the inserted key is larger: a smaller one shifts the entry.
   */
  lemma InsertKeepsReference<V>(es: seq<Entry<V>>, held: nat, key: nat, value: V)
    requires Increasing(es) && Has(es, held) && !Has(es, key)
    ensures WithKey(es, key, value)[Rank(es, held)].key == held <==> held < key
  {
    var r, p, h := WithKey(es, key, value), Rank(es, key), Rank(es, held);
    if held < key {
      assert h < p;
      assert r[h] == es[h];
    } else {
      assert p <= h;
      assert r[h] == if h == p then Entry(key, value) else es[h - 1];
    }
  }

  /** The same for a removal. */
  lemma UnsetKeepsReference<V>(es: seq<Entry<V>>, held: nat, key: nat)
    requires Increasing(es) && Has(es, held) && Has(es, key)
    ensures (Rank(es, held) < |WithoutKey(es, key)| && WithoutKey(es, key)[Rank(es, held)].key == held) <==> held < key
  {
    var r, p, h := WithoutKey(es, key), Rank(es, key), Rank(es, held);
    if held < key {
      assert h < p;
      assert r[h] == es[h];
    } else {
      assert p <= h;
      assert h < |r| ==> r[h] == es[h + 1];
    }
  }

  lemma DivisionBound(x: nat, d: nat)
    requires d > 0
    ensures x / d * d <= x
  {
  }

  lemma ProductBound(n: nat, q: nat, small: nat, large: nat)
    requires n > 0 && small < large && q * large <= n * small
    ensures q < n
  {
    assert q * large == n * large + (q - n) * large;
    assert n * large == n * small + n * (large - small);
  }

  /**
   The table is allotted the space of n values but stores entries of a value, a
   32-bit key and padding: it always holds fewer than n of them.
   */
  lemma FewerEntriesThanValues(n: nat, valueSize: nat, entrySize: nat)
    requires n > 0 && valueSize + 4 <= entrySize
    ensures n * valueSize / entrySize < n
  {
    DivisionBound(n * valueSize, entrySize);
    ProductBound(n, n * valueSize / entrySize, valueSize, entrySize);
  }

  class FixMap<V> {
    const entries: array<Entry<V>>
    var count: nat

    /** An index into the table is handed out as a 32-bit signed int. */
    ghost predicate Valid()
      reads this, entries
    {
      && count <= entries.Length <= 0x7FFF_FFFF
      && Increasing(entries[..count])
    }

    ghost function Contents(): seq<Entry<V>>
      reads this, entries
      requires Valid()
    {
      entries[..count]
    }

    ghost function View(): map<nat, V>
      reads this, entries
      requires Valid()
    {
      AsMap(Contents())
    }

    constructor (entries: array<Entry<V>>, count: nat)
      requires count <= entries.Length <= 0x7FFF_FFFF
      requires Increasing(entries[..count])
      ensures Valid() && this.entries == entries && this.count == count
      ensures Contents() == entries[..count]
    {
      this.entries := entries;
      this.count := count;
    }

    /** Bisection: the index of the key, or -1 exactly when it is absent. */
    method FindIndex(key: nat) returns (index: int)
      requires Valid()
      ensures index == if Has(Contents(), key) then Rank(Contents(), key) else -1
      ensures index == -1 <==> key !in View()
    {
      Lookup(Contents(), key);
      var left, right := 0, count;
      while left < right
        invariant 0 <= left <= right <= count
        invariant forall i :: 0 <= i < left ==> entries[i].key < key
        invariant forall i :: right <= i < count ==> entries[i].key > key
      {
        var mid := (left + right) / 2;
        if entries[mid].key == key {
          RankIs(Contents(), key, mid);
          return mid;
        }
        if entries[mid].key < key {
          left := mid + 1;
        } else {
          right := mid;
        }
      }
      index := -1;
    }

    method Find(key: nat) returns (r: Option<V>)
      requires Valid()
      ensures r == if key in View() then Some(View()[key]) else None
    {
      var index := FindIndex(key);
      Lookup(Contents(), key);
      if index >= 0 {
        r := Some(entries[index].value);
      } else {
        r := None;
      }
    }

    /** Writing through the reference that Find or Insert gives. */
    method Store(index: nat, value: V)
      requires Valid() && index < count
      modifies entries
      ensures Valid()
      ensures Contents() == old(Contents())[index := Entry(old(Contents())[index].key, value)]
      ensures View() == old(View())[old(Contents())[index].key := value]
    {
      ghost var was := Contents();
      entries[index] := Entry(entries[index].key, value);
      assert entries[..count] == was[index := Entry(was[index].key, value)];
      NewValueUpdatesMap(was, index, value);
    }

    /** Make room at p: the entries from p on move one cell up. */
    method ShiftUp(p: nat)
      requires p <= count < entries.Length
      modifies entries
      ensures entries[p] == old(entries[p])
      ensures entries[..count + 1] == old(entries[..count])[..p] + [entries[p]] + old(entries[..count])[p..]
    {
      var i := count;
      while i > p
        invariant p <= i <= count
        invariant forall k :: 0 <= k <= i ==> entries[k] == old(entries[k])
        invariant forall k :: i < k <= count ==> entries[k] == old(entries[k - 1])
      {
        entries[i] := entries[i - 1];
        i := i - 1;
      }
    }

    /** Close the gap at p: the entries after p move one cell down. */
    method ShiftDown(p: nat)
      requires p < count <= entries.Length
      modifies entries
      ensures entries[..count - 1] == old(entries[..count])[..p] + old(entries[..count])[p + 1..]
    {
      var i := p;
      while i + 1 < count
        invariant p <= i < count
        invariant forall k :: 0 <= k < p ==> entries[k] == old(entries[k])
        invariant forall k :: p <= k < i ==> entries[k] == old(entries[k + 1])
        invariant forall k :: i <= k < count ==> entries[k] == old(entries[k])
      {
        entries[i] := entries[i + 1];
        i := i + 1;
      }
    }

    /** Give an absent key a cell at its rank; the cell keeps the value it held. */
    method InsertNew(key: nat) returns (p: nat)
      requires Valid() && !Has(Contents(), key) && count < entries.Length
      modifies `count, entries
      ensures Valid()
      ensures p == Rank(old(Contents()), key) < count
      ensures Contents()[p].key == key
      ensures Contents() == WithKey(old(Contents()), key, Contents()[p].value)
      ensures View() == old(View())[key := Contents()[p].value]
    {
      hide AsMap;
      ghost var was := Contents();
      p := 0;
      while p < count && entries[p].key < key
        invariant 0 <= p <= count
        invariant forall i :: 0 <= i < p ==> entries[i].key < key
      {
        p := p + 1;
      }
      RankIs(was, key, p);
      ShiftUp(p);
      ghost var value := entries[p].value;
      entries[p] := Entry(key, entries[p].value);
      count := count + 1;
      assert entries[..count] == WithKey(was, key, value);
      WithKeyExtendsMap(was, key, value);
    }

    /**
     The index of the key's entry, made if need be. Every other binding is kept;
     the value of a new entry is whatever the cell held.
     */
    method Insert(key: nat) returns (index: nat)
      requires Valid()
      requires key in View() || count < entries.Length
      modifies `count, entries
      ensures Valid()
      ensures index == Rank(old(Contents()), key) < count && Contents()[index].key == key
      ensures key in old(View()) ==> Contents() == old(Contents())
      ensures key !in old(View()) ==> Contents() == WithKey(old(Contents()), key, Contents()[index].value)
      ensures View() == old(View())[key := Contents()[index].value]
    {
      var found := FindIndex(key);
      if found >= 0 {
        ghost var was := Contents();
        NewValueUpdatesMap(was, found, was[found].value);
        assert was == was[found := Entry(was[found].key, was[found].value)];
        index := found;
      } else {
        index := InsertNew(key);
      }
    }

    /** Remove a key; true exactly when it was present. */
    method Unset(key: nat) returns (ok: bool)
      requires Valid()
      modifies `count, entries
      ensures Valid()
      ensures ok <==> key in old(View())
      ensures Contents() == if ok then WithoutKey(old(Contents()), key) else old(Contents())
      ensures View() == old(View()) - {key}
    {
      hide AsMap;
      ghost var was := Contents();
      var found := FindIndex(key);
      if found < 0 {
        return false;
      }
      ShiftDown(found);
      count := count - 1;
      assert entries[..count] == WithoutKey(was, key);
      WithoutKeyShrinksMap(was, key);
      ok := true;
    }
  }
}
