/**
 Theorems about whole runs of the mailbox.
 */
module MailRuns {
  import opened Options
  import opened Bags
  import opened Mailboxes
  import opened MailOwnership
  import opened MailFanOut

  lemma InitialSound(w: World)
    requires Initial(w)
    ensures Sound(w)
  {
    assert Live(w.region.slots) == {};
  }

  /** Ownership and conservation hold in every state of every run. */
  lemma {:induction false} AlwaysSound(ws: seq<World>, es: seq<Event>, i: nat)
    requires IsRun(ws, es) && Initial(ws[0]) && i < |ws|
    ensures Sound(ws[i])
  {
    if i == 0 {
      InitialSound(ws[0]);
    } else {
      AlwaysSound(ws, es, i - 1);
      StepSound(ws[i - 1], es[i - 1], ws[i]);
    }
  }

  /** Once nothing is queued or with a worker, every accepted letter was delivered once or purged. */
  lemma QuiescentDelivered(ws: seq<World>, es: seq<Event>, i: nat)
    requires IsRun(ws, es) && Initial(ws[0]) && i < |ws|
    ensures ws[i].delivered + ws[i].purged <= ws[i].accepted
    ensures ws[i].region.queue == [] && (forall k :: 0 <= k < |ws[i].workers| ==> ws[i].workers[k].batch == []) ==>
              ws[i].delivered + ws[i].purged == ws[i].accepted
  {
    AlwaysSound(ws, es, i);
    if forall k :: 0 <= k < |ws[i].workers| ==> ws[i].workers[k].batch == [] {
      NothingHeld(ws[i].workers, ws[i].region.slots);
    }
  }

  lemma {:induction false} NothingHeld(workers: seq<Worker>, slots: seq<Slot>)
    requires forall k :: 0 <= k < |workers| ==> workers[k].batch == []
    ensures Gather(workers, WorkerLetters(slots)) == multiset{}
  {
    if workers != [] {
      NothingHeld(workers[1..], slots);
    }
  }

  // ----- Distinct owners, spelt out

  lemma GatherTwice<T>(s: seq<T>, i: nat, j: nat, x: int, f: T -> multiset<int>)
    requires i < j < |s| && x in f(s[i]) && x in f(s[j])
    ensures Gather(s, f)[x] >= 2
  {
    hide Gather;
    GatherSplitAt(s, i, f);
    var rest := s[..i] + s[i + 1..];
    assert rest[j - 1] == s[j];
    GatherContains(rest, s[j], f);
  }

  lemma AtMostOnce(w: World, x: int)
    requires Sound(w)
    ensures Gather(w.region.queue, SlotBag())[x] + Gather(w.workers, WorkerSlots())[x] + w.leaked[x] <= 1
  {
    hide Gather;
    assert Outstanding(w.region.queue, w.workers, w.leaked)[x] <= 1;
  }

  lemma HeldSlot(w: World, k: nat, m: Mail)
    requires k < |w.workers| && m in w.workers[k].batch && m.idx >= 0
    ensures Gather(w.workers, WorkerSlots())[m.idx] >= 1
    ensures m.idx in WorkerSlots()(w.workers[k])
  {
    hide Gather;
    GatherContains(w.workers[k].batch, m, SlotBag());
    GatherContains(w.workers, w.workers[k], WorkerSlots());
  }

  lemma NoSharingInQueue(w: World, i: nat, j: nat)
    requires Sound(w) && i < j < |w.region.queue| && w.region.queue[i].idx >= 0
    ensures w.region.queue[i].idx != w.region.queue[j].idx
  {
    hide Gather, Sound;
    var x := w.region.queue[i].idx;
    AtMostOnce(w, x);
    if w.region.queue[j].idx == x {
      GatherTwice(w.region.queue, i, j, x, SlotBag());
    }
  }

  lemma NoSharingQueueAndBatch(w: World, k: nat, m: Mail, n: Mail)
    requires Sound(w) && k < |w.workers| && m in w.workers[k].batch && n in w.region.queue && m.idx >= 0
    ensures m.idx != n.idx
  {
    hide Gather, Sound;
    AtMostOnce(w, m.idx);
    HeldSlot(w, k, m);
    GatherContains(w.region.queue, n, SlotBag());
  }

  lemma NoSharingInBatch(w: World, k: nat, i: nat, j: nat)
    requires Sound(w) && k < |w.workers| && i < j < |w.workers[k].batch| && w.workers[k].batch[i].idx >= 0
    ensures w.workers[k].batch[i].idx != w.workers[k].batch[j].idx
  {
    hide Gather, Sound;
    var b := w.workers[k].batch;
    AtMostOnce(w, b[i].idx);
    GatherContains(w.workers, w.workers[k], WorkerSlots());
    if b[i].idx == b[j].idx {
      GatherTwice(b, i, j, b[i].idx, SlotBag());
    }
  }

  lemma NoSharingAcrossBatches(w: World, k: nat, l: nat, m: Mail, n: Mail)
    requires Sound(w) && k < l < |w.workers| && m in w.workers[k].batch && n in w.workers[l].batch && m.idx >= 0
    ensures m.idx != n.idx
  {
    hide Gather, Sound;
    AtMostOnce(w, m.idx);
    HeldSlot(w, k, m);
    if m.idx == n.idx {
      HeldSlot(w, l, n);
      GatherTwice(w.workers, k, l, m.idx, WorkerSlots());
    }
  }

  /** A place where a mail can be: queued, or in a worker's batch. */
  datatype Place = Queued(i: nat) | Held(k: nat, i: nat)

  ghost predicate IsAt(w: World, p: Place, m: Mail) {
    match p
    case Queued(i) => i < |w.region.queue| && w.region.queue[i] == m
    case Held(k, i) => k < |w.workers| && i < |w.workers[k].batch| && w.workers[k].batch[i] == m
  }

  /** In every state of every run, mails at different places never refer to the same slot. */
  lemma NoSharedSlot(ws: seq<World>, es: seq<Event>, s: nat, p: Place, q: Place, m: Mail, n: Mail)
    requires IsRun(ws, es) && Initial(ws[0]) && s < |ws|
    requires IsAt(ws[s], p, m) && IsAt(ws[s], q, n) && p != q && m.idx >= 0
    ensures m.idx != n.idx
  {
    AlwaysSound(ws, es, s);
    hide Sound, Next;
    if m.idx == n.idx {
      match (p, q)
      case (Queued(i), Queued(j)) => NoSharingInQueue(ws[s], if i < j then i else j, if i < j then j else i);
      case (Queued(_), Held(k, _)) => NoSharingQueueAndBatch(ws[s], k, n, m);
      case (Held(k, _), Queued(_)) => NoSharingQueueAndBatch(ws[s], k, m, n);
      case (Held(k, i), Held(l, j)) =>
        if k == l {
          NoSharingInBatch(ws[s], k, if i < j then i else j, if i < j then j else i);
        } else if k < l {
          NoSharingAcrossBatches(ws[s], k, l, m, n);
        } else {
          NoSharingAcrossBatches(ws[s], l, k, n, m);
        }
    }
  }

  // ----- Slot accounting

  function HasSlot(): Mail -> bool {
    (m: Mail) => m.idx >= 0
  }

  /** The payload mails that workers have drained and not finished. */
  function InFlight(workers: seq<Worker>): nat {
    if workers == [] then 0 else Count(workers[0].batch, HasSlot()) + InFlight(workers[1..])
  }

  lemma {:induction false} SlotBagSize(ms: seq<Mail>)
    ensures |Gather(ms, SlotBag())| == Count(ms, HasSlot())
  {
    if ms != [] {
      SlotBagSize(ms[1..]);
    }
  }

  lemma {:induction false} HeldSize(workers: seq<Worker>)
    ensures |Gather(workers, WorkerSlots())| == InFlight(workers)
  {
    if workers != [] {
      HeldSize(workers[1..]);
      SlotBagSize(workers[0].batch);
    }
  }

  /**
   In every state of every run, the in-use unprocessed slots are as many as the
   payload mails queued, plus those in flight, plus those purged so far.
   */
  lemma SlotAccounting(ws: seq<World>, es: seq<Event>, i: nat)
    requires IsRun(ws, es) && Initial(ws[0]) && i < |ws|
    ensures |Live(ws[i].region.slots)|
            == Count(ws[i].region.queue, HasSlot()) + InFlight(ws[i].workers) + |ws[i].leaked|
  {
    AlwaysSound(ws, es, i);
    SlotBagSize(ws[i].region.queue);
    HeldSize(ws[i].workers);
    assert |multiset(Live(ws[i].region.slots))| == |Live(ws[i].region.slots)|;
  }

  // ----- What a step leaves alone

  lemma {:induction false} FanOutCalm(r: Region, tos: seq<Mail>, n: nat, fromPid: nat, buf: seq<Byte>, clock: nat -> int)
    requires WellFormed(r) && |buf| <= PAYLOAD_MAX && n <= |tos|
    ensures CalmExcept(r.slots, FanOut(r, tos, n, fromPid, buf, clock).slots, -1)
  {
    hide Sent;
    if n > 0 {
      FanOutCalm(r, tos, n - 1, fromPid, buf, clock);
      var b := FanOut(r, tos, n - 1, fromPid, buf, clock);
      SentShape(b, tos[n - 1], fromPid, buf, clock(2 * n - 2), clock(2 * n - 1));
    }
  }

  /** Only the end of a callback touches a live slot, and only its own. */
  lemma StepCalm(w: World, e: Event, w': World)
    requires Sound(w) && Next(w, e, w')
    ensures CalmExcept(w.region.slots, w'.region.slots, if e.End? then w.workers[e.k].batch[0].idx else -1)
  {
    hide Gather, Filter, Owned, Conserved;
    match e
    case Notify(pid, obj, msg, buf, clock) =>
      var tos := Recipients(w.region.listen, msg, obj);
      FanOutCalm(w.region, tos, |tos|, pid, buf, clock);
    case _ =>
  }

  lemma ReadingSlot(w: World, k: nat)
    requires Sound(w) && k < |w.workers| && w.workers[k].reading.Some?
    ensures var j := w.workers[k].batch; j != [] && 0 <= j[0].idx < |w.region.slots| == PAYLOAD_SLOTS
    ensures var j := w.workers[k].batch[0].idx;
            IsLive(w.region.slots[j]) && w.workers[k].reading.value == Bytes(w.region.slots[j])
  {
    assert WorkerSound(w.region.slots, w.workers[k]) && w.workers[k].batch[0] in w.workers[k].batch;
  }

  /** No step but End(k) touches worker k while its callback runs. */
  lemma StepKeepsWorker(w: World, e: Event, w': World, k: nat)
    requires Next(w, e, w') && k < |w.workers|
    requires w.workers[k].reading.Some? && w.workers[k].batch != [] && !(e.End? && e.k == k)
    ensures k < |w'.workers| && w'.workers[k] == w.workers[k]
  {
    hide Gather, Filter, Notified, AttachedRegion, Registered;
  }

  /** While worker k is in a callback, no step but the end of that callback touches k or its slot. */
  lemma StepKeepsReading(w: World, e: Event, w': World, k: nat)
    requires Sound(w) && Next(w, e, w')
    requires k < |w.workers| && w.workers[k].reading.Some? && !(e.End? && e.k == k)
    ensures k < |w'.workers| && w'.workers[k] == w.workers[k]
    ensures var j := w.workers[k].batch; j != [] && 0 <= j[0].idx < |w.region.slots| == |w'.region.slots|
    ensures var j := w.workers[k].batch[0].idx; w'.region.slots[j] == w.region.slots[j]
  {
    ReadingSlot(w, k);
    StepCalm(w, e, w');
    StepKeepsWorker(w, e, w', k);
    if e.End? {
      ReadingSlot(w, e.k);
      SoleOwner(w, e.k);
    }
    hide Sound, Step;
  }

  /**
   The bytes a callback reads without the lock cannot change under it: from
   the check of the slot to the end of the callback the slot stays as it is,
   whatever every other process does meanwhile.
   */
  lemma {:induction false} ReadWindowStable(ws: seq<World>, es: seq<Event>, a: nat, b: nat, k: nat)
    requires IsRun(ws, es) && Initial(ws[0]) && a <= b < |ws|
    requires k < |ws[a].workers| && ws[a].workers[k].reading.Some?
    requires forall i :: a <= i < b ==> !(es[i].End? && es[i].k == k)
    ensures k < |ws[b].workers| && ws[b].workers[k] == ws[a].workers[k]
    ensures ws[a].workers[k].batch != [] && 0 <= ws[a].workers[k].batch[0].idx < PAYLOAD_SLOTS
    ensures |ws[a].region.slots| == |ws[b].region.slots| == PAYLOAD_SLOTS
    ensures ws[b].region.slots[ws[a].workers[k].batch[0].idx] == ws[a].region.slots[ws[a].workers[k].batch[0].idx]
    ensures ws[a].workers[k].reading == Some(Bytes(ws[b].region.slots[ws[a].workers[k].batch[0].idx]))
    decreases b
  {
    hide Sound, Next, Initial, Bytes;
    AlwaysSound(ws, es, a);
    ReadingSlot(ws[a], k);
    if a < b {
      ReadWindowStable(ws, es, a, b - 1, k);
      AlwaysSound(ws, es, b - 1);
      StepKeepsReading(ws[b - 1], es[b - 1], ws[b], k);
    }
  }

  // ----- Leaked slots

  lemma LeakedLive(w: World)
    requires Sound(w)
    ensures forall j :: j in w.leaked ==> 0 <= j < |w.region.slots| && IsLive(w.region.slots[j])
  {
    hide Gather;
    forall j | j in w.leaked
      ensures j in Live(w.region.slots)
    {
      assert Outstanding(w.region.queue, w.workers, w.leaked)[j] > 0;
    }
  }

  lemma StepLeaksMore(w: World, e: Event, w': World)
    requires Next(w, e, w')
    ensures w.leaked <= w'.leaked
  {
    hide Gather, Filter, Notified, AttachedRegion, Registered;
  }

  ghost predicate KeepsSlots(w: World, w': World, kept: multiset<int>) {
    forall j :: j in kept ==>
      0 <= j < |w.region.slots| == |w'.region.slots| && w'.region.slots[j] == w.region.slots[j]
  }

  lemma EndOf(w: World, e: Event, w': World)
    requires Next(w, e, w') && e.End?
    ensures e.k < |w.workers| && w.workers[e.k].batch != [] && w.workers[e.k].reading.Some?
  {
  }

  lemma StepKeepsLeaked(w: World, e: Event, w': World)
    requires Sound(w) && Next(w, e, w')
    ensures KeepsSlots(w, w', w.leaked)
  {
    LeakedLive(w);
    if e.End? {
      EndOf(w, e, w');
    }
    hide Next, Sound, Live;
    StepCalm(w, e, w');
    if e.End? {
      ReadingSlot(w, e.k);
      SoleOwner(w, e.k);
    }
  }

  lemma KeepsSlotsOn(w: World, b: World, c: World)
    requires KeepsSlots(w, b, w.leaked) && KeepsSlots(b, c, b.leaked) && w.leaked <= b.leaked
    ensures KeepsSlots(w, c, w.leaked)
  {
  }

  lemma KeepsSlotsSelf(w: World)
    requires Sound(w)
    ensures KeepsSlots(w, w, w.leaked)
  {
    LeakedLive(w);
    hide Sound;
  }

  /** A slot whose mail was purged is lost for good: no later step of the run changes it. */
  lemma {:induction false} LeakedForever(ws: seq<World>, es: seq<Event>, a: nat, b: nat)
    requires IsRun(ws, es) && Initial(ws[0]) && a <= b < |ws|
    ensures ws[a].leaked <= ws[b].leaked
    ensures KeepsSlots(ws[a], ws[b], ws[a].leaked)
    decreases b
  {
    hide Sound, Next, Initial, KeepsSlots;
    AlwaysSound(ws, es, if a < b then b - 1 else a);
    if a < b {
      LeakedForever(ws, es, a, b - 1);
      StepLeaksMore(ws[b - 1], es[b - 1], ws[b]);
      StepKeepsLeaked(ws[b - 1], es[b - 1], ws[b]);
      KeepsSlotsOn(ws[a], ws[b - 1], ws[b]);
    } else {
      KeepsSlotsSelf(ws[a]);
    }
  }

  lemma {:induction false} FanOutExhausted(r: Region, tos: seq<Mail>, n: nat, fromPid: nat, buf: seq<Byte>, clock: nat -> int)
    requires WellFormed(r) && 0 < |buf| <= PAYLOAD_MAX && n <= |tos|
    requires forall i :: 0 <= i < |r.slots| ==> IsLive(r.slots[i])
    ensures FanOut(r, tos, n, fromPid, buf, clock) == r
  {
    hide Reserved, Filled, NextSlot;
    if n > 0 {
      FanOutExhausted(r, tos, n - 1, fromPid, buf, clock);
      AllocatorComplete(r.slots, r.hint % PAYLOAD_SLOTS, clock(2 * n - 2));
    }
  }

  /**
   Once purges have cost every slot, no notification with a payload is ever
   queued again, at any time and for any recipient.
   */
  lemma ExhaustedForever(ws: seq<World>, es: seq<Event>, a: nat, b: nat)
    requires IsRun(ws, es) && Initial(ws[0]) && a <= b < |es|
    requires |ws[a].leaked| >= PAYLOAD_SLOTS
    requires es[b].Notify? && es[b].buf != []
    ensures ws[b + 1] == ws[b]
  {
    LeakedForever(ws, es, a, b);
    AlwaysSound(ws, es, b);
    SlotAccounting(ws, es, b);
    var w, e := ws[b], es[b];
    assert w.leaked == ws[a].leaked + (w.leaked - ws[a].leaked);
    ManyLive(w.region.slots);
    assert Next(w, e, ws[b + 1]);
    NotifyExhausted(w, e);
  }

  lemma NotifyExhausted(w: World, e: Event)
    requires WellFormed(w.region) && Enabled(w, e) && e.Notify? && e.buf != []
    requires forall i :: 0 <= i < |w.region.slots| ==> IsLive(w.region.slots[i])
    ensures Step(w, e) == w
  {
    var tos := Recipients(w.region.listen, e.msg, e.obj);
    FanOutExhausted(w.region, tos, |tos|, e.pid, e.buf, e.clock);
    assert w.region.queue[|w.region.queue|..] == [];
  }

  lemma LiveSnoc(slots: seq<Slot>, n: nat)
    requires |slots| == n + 1
    ensures Live(slots) == Live(slots[..n]) + if IsLive(slots[n]) then {n} else {}
    ensures n !in Live(slots[..n])
  {
    var init := slots[..n];
    assert forall i :: 0 <= i < n ==> init[i] == slots[i];
  }

  /** There are at most as many live slots as slots, and as many only if all are live. */
  lemma {:induction false} ManyLive(slots: seq<Slot>)
    ensures |Live(slots)| <= |slots|
    ensures |Live(slots)| == |slots| ==> forall i :: 0 <= i < |slots| ==> IsLive(slots[i])
  {
    if slots == [] {
      assert Live(slots) == {};
    } else {
      var n := |slots| - 1;
      var init := slots[..n];
      ManyLive(init);
      LiveSnoc(slots, n);
      hide Live;
      assert forall i :: 0 <= i < n ==> init[i] == slots[i];
    }
  }
}
