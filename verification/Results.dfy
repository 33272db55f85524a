/**
 Handles and the bounded table of results.
 */
module Results {
  import opened Options
  import opened Bags

  const INT64_MAX: nat := 0x7FFF_FFFF_FFFF_FFFF

  /** Handles repeat with this period; it is one short of INT64_MAX because the counter restarts at 1, not at 0. */
  const HANDLE_PERIOD: nat := 0x7FFF_FFFF_FFFF_FFFE

  const MAX_RESULTS: nat := 100

  // ----- Handles

  /** The counter after a draw. */
  function Advanced(counter: nat): nat {
    if counter + 1 >= INT64_MAX then 1 else counter + 1
  }

  /** The counter before the n-th draw, counting from 0. */
  function CounterAt(n: nat): nat {
    if n == 0 then 0 else Advanced(CounterAt(n - 1))
  }

  function HandleOf(n: nat): nat {
    CounterAt(n) + 1
  }

  /** After the first, the handles cycle through 2 to INT64_MAX. */
  lemma {:induction false} HandleClosedForm(n: nat)
    ensures HandleOf(n) == if n == 0 then 1 else 2 + (n - 1) % HANDLE_PERIOD
  {
    if n > 0 {
      HandleClosedForm(n - 1);
    }
  }

  /** Handles are never 0 and never above INT64_MAX; the handle 1 is given out once. */
  lemma HandleRange(n: nat)
    ensures 1 <= HandleOf(n) <= INT64_MAX
    ensures HandleOf(n) == 1 <==> n == 0
  {
    HandleClosedForm(n);
  }

  /** Two draws give the same handle exactly when, the first draw apart, they are a multiple of the period apart. */
  lemma HandleCollision(i: nat, j: nat)
    requires i < j
    ensures HandleOf(i) == HandleOf(j) <==> i > 0 && (j - i) % HANDLE_PERIOD == 0
  {
    HandleClosedForm(i);
    HandleClosedForm(j);
  }

  /** Any draws less than a period apart give different handles. */
  lemma HandlesFresh(i: nat, j: nat)
    requires i != j && i < j + HANDLE_PERIOD && j < i + HANDLE_PERIOD
    ensures HandleOf(i) != HandleOf(j)
  {
    if i < j {
      HandleCollision(i, j);
    } else {
      HandleCollision(j, i);
    }
  }

  // ----- The table

  datatype Item = Item(value: int, ready: bool)

  datatype Table = Table(results: map<nat, Item>, order: seq<nat>)

  /** A new item enters at the back; beyond the maximum the oldest leaves. */
  function Registered(t: Table, handle: nat): Table {
    var results, order := t.results[handle := Item(0, false)], t.order + [handle];
    if |order| > MAX_RESULTS then Table(results - {order[0]}, order[1..]) else Table(results, order)
  }

  function Reported(t: Table, handle: nat, value: int): Table {
    if handle in t.results then t.(results := t.results[handle := Item(value, true)]) else t
  }

  /** What a waiting caller finds. */
  function Found(t: Table, handle: nat): Option<int> {
    if handle in t.results && t.results[handle].ready then Some(t.results[handle].value) else None
  }

  // ----- The table with its full history

  /** Draws are known by number: registered in this order, with the values their tasks produced. */
  datatype World = World(t: Table, drawn: nat, registered: seq<nat>, produced: map<nat, int>)

  datatype Event = Draw | Register(i: nat) | Produce(i: nat, value: int)

  function LastOf(s: seq<nat>): (r: seq<nat>)
    ensures |r| == if |s| <= MAX_RESULTS then |s| else MAX_RESULTS
  {
    if |s| <= MAX_RESULTS then s else s[|s| - MAX_RESULTS..]
  }

  function HandlesOf(s: seq<nat>): (r: seq<nat>)
    ensures |r| == |s|
    ensures forall i :: 0 <= i < |s| ==> r[i] == HandleOf(s[i])
  {
    seq(|s|, i requires 0 <= i < |s| => HandleOf(s[i]))
  }

  /**
   A handle does not wait for its registration or its result so long, nor does
   another stay in the table so long, that the same handle comes round again.
   */
  predicate NotStale(w: World, i: nat) {
    forall j :: j in LastOf(w.registered) ==> i < j + HANDLE_PERIOD && j < i + HANDLE_PERIOD
  }

  predicate Enabled(w: World, e: Event) {
    match e
    case Draw => true
    case Register(i) => i < w.drawn && i !in w.registered && NotStale(w, i)
    case Produce(i, _) => i in w.registered && i !in w.produced && NotStale(w, i)
  }

  function Step(w: World, e: Event): World {
    match e
    case Draw => w.(drawn := w.drawn + 1)
    case Register(i) => w.(t := Registered(w.t, HandleOf(i)), registered := w.registered + [i])
    case Produce(i, value) => w.(t := Reported(w.t, HandleOf(i), value), produced := w.produced[i := value])
  }

  predicate Initial(w: World) {
    w == World(Table(map[], []), 0, [], map[])
  }

  ghost predicate Next(w: World, e: Event, w': World) {
    Enabled(w, e) && w' == Step(w, e)
  }

  ghost predicate IsRun(ws: seq<World>, es: seq<Event>) {
    && |ws| == |es| + 1
    && forall i :: 0 <= i < |es| ==> Next(ws[i], es[i], ws[i + 1])
  }

  ghost predicate Distinct(s: seq<nat>) {
    forall i, j :: 0 <= i < j < |s| ==> s[i] != s[j]
  }

  function ItemFor(produced: map<nat, int>, i: nat): Item {
    if i in produced then Item(produced[i], true) else Item(0, false)
  }

  /** The table is exactly the last registrations: their handles, all different, each with its own task's result. */
  ghost predicate Agrees(w: World) {
    && Distinct(w.registered)
    && (forall i :: i in w.produced ==> i in w.registered)
    && w.t.order == HandlesOf(LastOf(w.registered))
    && Distinct(w.t.order)
    && (forall h :: h in w.t.results <==> h in w.t.order)
    && (forall i :: i in LastOf(w.registered) ==>
          HandleOf(i) in w.t.results && w.t.results[HandleOf(i)] == ItemFor(w.produced, i))
  }

  lemma LastSnoc(s: seq<nat>, x: nat)
    ensures LastOf(s + [x]) == if |s| < MAX_RESULTS then s + [x] else LastOf(s)[1..] + [x]
    ensures |s| < MAX_RESULTS ==> LastOf(s) == s
  {
  }

  lemma HandlesSnoc(s: seq<nat>, x: nat)
    ensures HandlesOf(s + [x]) == HandlesOf(s) + [HandleOf(x)]
    ensures s != [] ==> HandlesOf(s[1..]) == HandlesOf(s)[1..]
  {
  }

  /** The handle of a draw that is not stale belongs to no other draw in the table. */
  lemma OwnHandle(w: World, i: nat)
    requires Agrees(w) && NotStale(w, i)
    ensures forall k :: k in LastOf(w.registered) && k != i ==> HandleOf(k) != HandleOf(i)
    ensures i !in LastOf(w.registered) ==> HandleOf(i) !in w.t.order
  {
    hide HandleOf;
    var last := LastOf(w.registered);
    forall k | k in last && k != i
      ensures HandleOf(k) != HandleOf(i)
    {
      HandlesFresh(i, k);
    }
    assert forall p :: 0 <= p < |last| ==> last[p] in last;
  }

  /** A draw is among the last ones until a hundred others have been registered after it. */
  lemma LastHundred(s: seq<nat>, p: nat)
    requires p < |s|
    ensures |s| - p <= 100 ==> s[p] in LastOf(s)
    ensures Distinct(s) && |s| - p > 100 ==> s[p] !in LastOf(s)
  {
    if |s| - p <= 100 {
      var skipped := |s| - |LastOf(s)|;
      assert LastOf(s)[p - skipped] == s[p];
    }
  }

  lemma LastIsSome(s: seq<nat>, x: nat)
    requires x in LastOf(s)
    ensures x in s
  {
  }

  lemma DistinctSnoc(s: seq<nat>, x: nat)
    requires Distinct(s) && x !in s
    ensures Distinct(s + [x])
  {
  }

  lemma DistinctTail(s: seq<nat>)
    requires s != [] && Distinct(s)
    ensures Distinct(s[1..]) && s[0] !in s[1..]
    ensures forall x :: x in s <==> x == s[0] || x in s[1..]
  {
    assert s == [s[0]] + s[1..];
  }

  /** A fresh handle keeps the keys of the table those of its order. */
  lemma RegisteredKeys(t: Table, h: nat)
    requires Distinct(t.order) && h !in t.order
    requires forall x :: x in t.results <==> x in t.order
    ensures var t' := Registered(t, h);
            && Distinct(t'.order)
            && (forall x :: x in t'.results <==> x in t'.order)
  {
    DistinctSnoc(t.order, h);
    DistinctTail(t.order + [h]);
    hide Distinct;
  }

  lemma RegisterOrder(w: World, i: nat)
    requires Agrees(w) && Enabled(w, Register(i))
    ensures var w' := Step(w, Register(i));
            && w'.t.order == HandlesOf(LastOf(w'.registered))
            && Distinct(w'.t.order)
            && (forall h :: h in w'.t.results <==> h in w'.t.order)
  {
    hide HandleOf, Distinct, HandlesOf, LastOf;
    OwnHandle(w, i);
    if i in LastOf(w.registered) {
      LastIsSome(w.registered, i);
    }
    RegisteredKeys(w.t, HandleOf(i));
    RegisterLast(w.registered, i);
    hide Agrees, NotStale;
  }

  /** Appending a handle and dropping the oldest keeps the handles of the last draws. */
  lemma RegisterLast(registered: seq<nat>, i: nat)
    ensures var order := HandlesOf(LastOf(registered)) + [HandleOf(i)];
            HandlesOf(LastOf(registered + [i])) == if |order| > MAX_RESULTS then order[1..] else order
  {
    hide HandleOf, HandlesOf;
    var last := LastOf(registered);
    LastSnoc(registered, i);
    HandlesSnoc(last, i);
    if |registered| >= MAX_RESULTS {
      HandlesSnoc(last[1..], i);
      assert (HandlesOf(last) + [HandleOf(i)])[1..] == HandlesOf(last)[1..] + [HandleOf(i)];
    }
  }

  lemma RegisterItem(w: World, i: nat, k: nat)
    requires Agrees(w) && Enabled(w, Register(i)) && k in LastOf(w.registered + [i])
    ensures var w' := Step(w, Register(i));
            HandleOf(k) in w'.t.results && w'.t.results[HandleOf(k)] == ItemFor(w.produced, k)
  {
    hide HandleOf;
    var w' := Step(w, Register(i));
    var last, last' := LastOf(w.registered), LastOf(w'.registered);
    RegisterOrder(w, i);
    LastSnoc(w.registered, i);
    var p :| 0 <= p < |last'| && last'[p] == k;
    assert w'.t.order[p] == HandleOf(k);
    if k != i {
      assert k in last;
      if i in last {
        LastIsSome(w.registered, i);
      }
      OwnHandle(w, i);
    }
  }

  lemma RegisterAgrees(w: World, i: nat)
    requires Agrees(w) && Enabled(w, Register(i))
    ensures Agrees(Step(w, Register(i)))
  {
    hide HandleOf, LastOf, HandlesOf, Registered, ItemFor;
    RegisterOrder(w, i);
    DistinctSnoc(w.registered, i);
    forall k | k in LastOf(w.registered + [i])
      ensures var w' := Step(w, Register(i));
              HandleOf(k) in w'.t.results && w'.t.results[HandleOf(k)] == ItemFor(w.produced, k)
    {
      RegisterItem(w, i, k);
    }
  }

  lemma ProduceAgrees(w: World, i: nat, value: int)
    requires Agrees(w) && Enabled(w, Produce(i, value))
    ensures Agrees(Step(w, Produce(i, value)))
  {
    hide HandleOf, LastOf, HandlesOf;
    OwnHandle(w, i);
  }

  lemma StepAgrees(w: World, e: Event, w': World)
    requires Agrees(w) && Next(w, e, w')
    ensures Agrees(w')
  {
    match e
    case Draw =>
    case Register(i) => RegisterAgrees(w, i);
    case Produce(i, value) => ProduceAgrees(w, i, value);
  }

  lemma InitialAgrees(w: World)
    requires Initial(w)
    ensures Agrees(w)
  {
  }

  /** The bounded table agrees with the full history in every state of every run. */
  lemma {:induction false} AlwaysAgrees(ws: seq<World>, es: seq<Event>, i: nat)
    requires IsRun(ws, es) && Initial(ws[0]) && i < |ws|
    ensures Agrees(ws[i])
  {
    hide Agrees, Next;
    if i == 0 {
      InitialAgrees(ws[0]);
    } else {
      AlwaysAgrees(ws, es, i - 1);
      StepAgrees(ws[i - 1], es[i - 1], ws[i]);
    }
  }

  /** A caller that waits for a handle in the table finds a value exactly when the handle's own task has produced it. */
  lemma WaitResult(ws: seq<World>, es: seq<Event>, n: nat, handle: nat)
    requires IsRun(ws, es) && Initial(ws[0]) && n < |ws|
    ensures forall value :: Found(ws[n].t, handle) == Some(value) <==>
              exists i :: i in LastOf(ws[n].registered) && HandleOf(i) == handle
                          && i in ws[n].produced && ws[n].produced[i] == value
  {
    AlwaysAgrees(ws, es, n);
    hide HandleOf;
    var w := ws[n];
    var last := LastOf(w.registered);
    if handle in w.t.results {
      var p :| 0 <= p < |last| && w.t.order[p] == handle;
      assert last[p] in last && HandleOf(last[p]) == handle;
    }
  }

  lemma {:induction false} ProducedStays(ws: seq<World>, es: seq<Event>, a: nat, b: nat, i: nat)
    requires IsRun(ws, es) && a <= b < |ws| && i in ws[a].produced
    ensures i in ws[b].produced && ws[b].produced[i] == ws[a].produced[i]
    decreases b
  {
    if a < b {
      ProducedStays(ws, es, a, b - 1, i);
      assert Next(ws[b - 1], es[b - 1], ws[b]);
    }
  }

  /** A result, once produced, is found unchanged until a hundred later registrations have pushed it out. */
  lemma ResultStaysFixed(ws: seq<World>, es: seq<Event>, a: nat, b: nat, i: nat)
    requires IsRun(ws, es) && Initial(ws[0]) && a <= b < |ws|
    requires i in ws[a].produced && i in LastOf(ws[b].registered)
    ensures Found(ws[b].t, HandleOf(i)) == Some(ws[a].produced[i])
  {
    ProducedStays(ws, es, a, b, i);
    AlwaysAgrees(ws, es, b);
    hide HandleOf;
  }
}
