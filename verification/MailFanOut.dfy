/**
 What the slot allocator and the fan-out of one notification do, exactly.
 */
module MailFanOut {
  import opened Bags
  import opened Mailboxes
  import opened MailOwnership

  function Min(a: int, b: int): int {
    if a <= b then a else b
  }

  /** The slots that a notification at this time may take. */
  function Free(slots: seq<Slot>, now: int): set<int> {
    set i | 0 <= i < |slots| && Reclaimable(slots[i], now)
  }

  lemma CircularCoversAll(start: nat, i: nat)
    requires i < PAYLOAD_SLOTS
    ensures exists n: nat :: n < PAYLOAD_SLOTS && Circular(start, n) == i
  {
    var n := (i - start) % PAYLOAD_SLOTS;
    assert Circular(start, n) == i;
  }

  /** The offset at which the search stops; everything before it was not reclaimable. */
  lemma {:induction false} NextSlotScan(slots: seq<Slot>, start: nat, n: nat, now: int) returns (stop: nat)
    requires |slots| == PAYLOAD_SLOTS && n <= PAYLOAD_SLOTS
    ensures n <= stop <= PAYLOAD_SLOTS
    ensures forall k: nat :: n <= k < stop ==> !Reclaimable(slots[Circular(start, k)], now)
    ensures NextSlot(slots, start, n, now) == if stop == PAYLOAD_SLOTS then -1 else Circular(start, stop)
    ensures stop < PAYLOAD_SLOTS ==> Reclaimable(slots[Circular(start, stop)], now)
    decreases PAYLOAD_SLOTS - n
  {
    if n == PAYLOAD_SLOTS || Reclaimable(slots[Circular(start, n)], now) {
      stop := n;
    } else {
      stop := NextSlotScan(slots, start, n + 1, now);
    }
  }

  /**
   The allocator finds the first reclaimable slot in circular order from the
   hint, and fails exactly when no slot anywhere is reclaimable.
   */
  lemma AllocatorComplete(slots: seq<Slot>, start: nat, now: int)
    requires |slots| == PAYLOAD_SLOTS
    ensures var idx := NextSlot(slots, start, 0, now);
            && -1 <= idx < PAYLOAD_SLOTS
            && (idx == -1 <==> Free(slots, now) == {})
            && (idx >= 0 ==>
                  exists n: nat ::
                    && n < PAYLOAD_SLOTS
                    && idx == Circular(start, n)
                    && Reclaimable(slots[idx], now)
                    && forall k: nat :: k < n ==> !Reclaimable(slots[Circular(start, k)], now))
  {
    var stop := NextSlotScan(slots, start, 0, now);
    if stop == PAYLOAD_SLOTS {
      forall i: nat | i < PAYLOAD_SLOTS
        ensures !Reclaimable(slots[i], now)
      {
        CircularCoversAll(start, i);
      }
      assert Free(slots, now) == {};
    } else {
      assert Circular(start, stop) in Free(slots, now);
    }
  }

  /** No processed slot crosses the reuse age while this call reads the clock. */
  ghost predicate Steady(slots: seq<Slot>, clock: nat -> int) {
    forall n: nat, i :: 0 <= i < |slots| ==> Reclaimable(slots[i], clock(n)) == Reclaimable(slots[i], clock(0))
  }

  ghost predicate OnlyTouches(before: seq<Slot>, after: seq<Slot>, free: set<int>) {
    |before| == |after| && forall i :: 0 <= i < |before| && i !in free ==> after[i] == before[i]
  }

  lemma AllocatorSucceeds(r: Region, clock: nat -> int, n: nat)
    requires WellFormed(r) && Steady(r.slots, clock)
    ensures var idx, free := NextSlot(r.slots, r.hint % PAYLOAD_SLOTS, 0, clock(n)), Free(r.slots, clock(0));
            -1 <= idx < PAYLOAD_SLOTS && (if free == {} then idx == -1 else idx in free)
  {
    AllocatorComplete(r.slots, r.hint % PAYLOAD_SLOTS, clock(n));
    hide NextSlot;
    assert Free(r.slots, clock(n)) == Free(r.slots, clock(0));
  }

  /** A slot in use and unprocessed is not free at any time. */
  lemma TakenSlot(slots: seq<Slot>, idx: nat, s: Slot, clock: nat -> int)
    requires idx < |slots| && Steady(slots, clock) && IsLive(s)
    ensures Steady(slots[idx := s], clock)
    ensures Free(slots[idx := s], clock(0)) == Free(slots, clock(0)) - {idx}
    ensures OnlyTouches(slots, slots[idx := s], {idx})
  {
  }

  /** An unused slot is free at any time. */
  lemma ReturnedSlot(slots: seq<Slot>, idx: nat, s: Slot, clock: nat -> int)
    requires idx < |slots| && Steady(slots, clock) && !s.inUse
    ensures Steady(slots[idx := s], clock)
    ensures Free(slots[idx := s], clock(0)) == Free(slots, clock(0)) + {idx}
    ensures OnlyTouches(slots, slots[idx := s], {idx})
  {
  }

  /** The slot shows the receiver of m the bytes of buf, stamped with their sending, and nothing may take it. */
  ghost predicate Holds(s: Slot, m: Mail, fromPid: nat, buf: seq<Byte>, sentMs: int) {
    && IsLive(s) && s.msg == m.msg && s.toPid == m.pid && s.fromPid == fromPid && Bytes(s) == buf
    && s.sentMs == sentMs && s.processedMs == 0
  }

  lemma SentExact(r: Region, to: Mail, fromPid: nat, buf: seq<Byte>, n: nat, sentMs: int, clock: nat -> int)
    requires WellFormed(r) && 0 < |buf| <= PAYLOAD_MAX && Steady(r.slots, clock)
    ensures var free, r' := Free(r.slots, clock(0)), Sent(r, to, fromPid, buf, clock(n), sentMs);
            && Steady(r'.slots, clock)
            && OnlyTouches(r.slots, r'.slots, free)
            && (if |r.queue| < 384 && free != {}
                then
                  && |r'.queue| == |r.queue| + 1
                  && var m := r'.queue[|r.queue|];
                     && r'.queue == r.queue + [m]
                     && m == to.(idx := m.idx)
                     && m.idx in free
                     && 0 <= m.idx < |r'.slots|
                     && Holds(r'.slots[m.idx], m, fromPid, buf, sentMs)
                     && Free(r'.slots, clock(0)) == free - {m.idx}
                else r'.queue == r.queue && Free(r'.slots, clock(0)) == free)
  {
    AllocatorSucceeds(r, clock, n);
    hide NextSlot, Steady, Free;
    var idx := NextSlot(r.slots, r.hint % PAYLOAD_SLOTS, 0, clock(n));
    if idx >= 0 {
      var slots' := Sent(r, to, fromPid, buf, clock(n), sentMs).slots;
      assert slots' == r.slots[idx := slots'[idx]];
      if |r.queue| < 384 {
        TakenSlot(r.slots, idx, slots'[idx], clock);
      } else {
        ReturnedSlot(r.slots, idx, slots'[idx], clock);
      }
    }
  }

  /**
   The outcome of a fan-out with a payload: k copies queued, each with the bytes,
   stamped with its own reading of the clock, in a slot of its own that was free.
   */
  ghost predicate QueuedFirst(r: Region, r': Region, tos: seq<Mail>, k: int, fromPid: nat, buf: seq<Byte>, clock: nat -> int) {
    var free, free' := Free(r.slots, clock(0)), Free(r'.slots, clock(0));
    && 0 <= k <= |tos|
    && |r'.queue| == |r.queue| + k
    && r'.queue[..|r.queue|] == r.queue
    && (forall i :: |r.queue| <= i < |r'.queue| ==>
          var m := r'.queue[i];
          m == tos[i - |r.queue|].(idx := m.idx) && m.idx in free && m.idx !in free'
          && 0 <= m.idx < |r'.slots|
          && Holds(r'.slots[m.idx], m, fromPid, buf, clock(2 * (i - |r.queue|) + 1)))
    && (forall i, j :: |r.queue| <= i < j < |r'.queue| ==> r'.queue[i].idx != r'.queue[j].idx)
    && free' <= free
    && |free'| == |free| - k
    && OnlyTouches(r.slots, r'.slots, free)
    && Steady(r'.slots, clock)
  }

  lemma QueuedOneMore(r: Region, b: Region, c: Region, tos: seq<Mail>, k: nat, fromPid: nat, buf: seq<Byte>, clock: nat -> int)
    requires QueuedFirst(r, b, tos, k, fromPid, buf, clock) && k < |tos|
    requires Steady(c.slots, clock) && OnlyTouches(b.slots, c.slots, Free(b.slots, clock(0)))
    requires |c.queue| == |b.queue| + 1 && c.queue == b.queue + [c.queue[|b.queue|]]
    requires var m := c.queue[|b.queue|];
             && m == tos[k].(idx := m.idx) && m.idx in Free(b.slots, clock(0)) && 0 <= m.idx < |c.slots|
             && Holds(c.slots[m.idx], m, fromPid, buf, clock(2 * k + 1))
             && Free(c.slots, clock(0)) == Free(b.slots, clock(0)) - {m.idx}
    ensures QueuedFirst(r, c, tos, k + 1, fromPid, buf, clock)
  {
    hide Free, Steady, Holds;
    forall i | |r.queue| <= i < |b.queue|
      ensures c.queue[i] == b.queue[i] && c.slots[b.queue[i].idx] == b.slots[b.queue[i].idx]
    {
    }
  }

  lemma QueuedNoMore(r: Region, b: Region, c: Region, tos: seq<Mail>, k: nat, fromPid: nat, buf: seq<Byte>, clock: nat -> int)
    requires QueuedFirst(r, b, tos, k, fromPid, buf, clock)
    requires Steady(c.slots, clock) && OnlyTouches(b.slots, c.slots, Free(b.slots, clock(0)))
    requires c.queue == b.queue && Free(c.slots, clock(0)) == Free(b.slots, clock(0))
    ensures QueuedFirst(r, c, tos, k, fromPid, buf, clock)
  {
    hide Free, Steady, Holds;
    forall i | |r.queue| <= i < |b.queue|
      ensures c.slots[b.queue[i].idx] == b.slots[b.queue[i].idx]
    {
    }
  }

  /**
   With a payload, exactly the first recipients that find both room in the queue
   and a free slot get a copy, in table order.
   */
  lemma {:induction false} FanOutExact(r: Region, tos: seq<Mail>, n: nat, fromPid: nat, buf: seq<Byte>, clock: nat -> int)
    requires WellFormed(r) && 0 < |buf| <= PAYLOAD_MAX && n <= |tos| && Steady(r.slots, clock)
    ensures QueuedFirst(r, FanOut(r, tos, n, fromPid, buf, clock), tos,
                        Min(n, Min(384 - |r.queue|, |Free(r.slots, clock(0))|)), fromPid, buf, clock)
  {
    hide Free, Steady, Sent, Holds;
    if n > 0 {
      FanOutExact(r, tos, n - 1, fromPid, buf, clock);
      var b, c := FanOut(r, tos, n - 1, fromPid, buf, clock), FanOut(r, tos, n, fromPid, buf, clock);
      SentExact(b, tos[n - 1], fromPid, buf, 2 * n - 2, clock(2 * n - 1), clock);
      var k := Min(n - 1, Min(384 - |r.queue|, |Free(r.slots, clock(0))|));
      if |b.queue| < 384 && Free(b.slots, clock(0)) != {} {
        QueuedOneMore(r, b, c, tos, k, fromPid, buf, clock);
      } else {
        QueuedNoMore(r, b, c, tos, k, fromPid, buf, clock);
        assert k == Min(n, Min(384 - |r.queue|, |Free(r.slots, clock(0))|));
      }
    }
  }

  function Bare(tos: seq<Mail>): (ms: seq<Mail>)
    ensures |ms| == |tos|
  {
    seq(|tos|, i requires 0 <= i < |tos| => tos[i].(idx := -1))
  }

  /** Without a payload only the room in the queue counts, and no slot changes. */
  lemma {:induction false} FanOutBareExact(r: Region, tos: seq<Mail>, n: nat, fromPid: nat, clock: nat -> int)
    requires WellFormed(r) && n <= |tos|
    ensures FanOut(r, tos, n, fromPid, [], clock)
            == r.(queue := r.queue + Bare(tos)[..Min(n, 384 - |r.queue|)])
  {
    if n > 0 {
      FanOutBareExact(r, tos, n - 1, fromPid, clock);
    }
  }

  /**
   A notification reaches, in table order, exactly the first listeners of the
   message other than those at the sender's address, as many as the queue and the
   slots can take.
   */
  lemma NotifyExact(r: Region, from: nat, fromPid: nat, msg: nat, buf: seq<Byte>, clock: nat -> int)
    requires WellFormed(r) && |buf| <= PAYLOAD_MAX
    requires Steady(r.slots, clock)
    ensures var tos, room := Recipients(r.listen, msg, from), 384 - |r.queue|;
            var r' := Notified(r, from, fromPid, msg, buf, clock);
            if buf == []
            then r' == r.(queue := r.queue + Bare(tos)[..Min(|tos|, room)])
            else QueuedFirst(r, r', tos, Min(|tos|, Min(room, |Free(r.slots, clock(0))|)), fromPid, buf, clock)
  {
    var tos := Recipients(r.listen, msg, from);
    if buf == [] {
      FanOutBareExact(r, tos, |tos|, fromPid, clock);
    } else {
      FanOutExact(r, tos, |tos|, fromPid, buf, clock);
    }
  }

  // ----- With a clock that moves on

  /** At whatever time: one copy is queued exactly if the queue has room and some slot is free when it is sought. */
  lemma SentAtAnyTime(r: Region, to: Mail, fromPid: nat, buf: seq<Byte>, allocMs: int, sentMs: int)
    requires WellFormed(r) && 0 < |buf| <= PAYLOAD_MAX
    ensures var r', free := Sent(r, to, fromPid, buf, allocMs, sentMs), Free(r.slots, allocMs);
            && OnlyTouches(r.slots, r'.slots, free)
            && (if |r.queue| < 384 && free != {}
                then
                  && |r'.queue| == |r.queue| + 1
                  && var m := r'.queue[|r.queue|];
                     && r'.queue == r.queue + [m] && m == to.(idx := m.idx)
                     && m.idx in free && 0 <= m.idx < |r'.slots| && Holds(r'.slots[m.idx], m, fromPid, buf, sentMs)
                     && forall i :: i in free && i != m.idx ==> r'.slots[i] == r.slots[i]
                else r'.queue == r.queue && forall i :: i in free ==> r'.slots[i] == r.slots[i] || !r'.slots[i].inUse)
  {
    AllocatorComplete(r.slots, r.hint % PAYLOAD_SLOTS, allocMs);
    hide NextSlot;
  }

  /** What was free stays free, except for one slot for each copy queued. */
  lemma FreeLater(before: seq<Slot>, after: seq<Slot>, used: set<int>, now: int, later: int)
    requires |before| == |after| && now <= later
    requires forall i :: i in Free(before, now) && i !in used ==> after[i] == before[i] || !after[i].inUse
    ensures |Free(after, later)| >= |Free(before, now)| - |used|
  {
    var rest := Free(before, now) - used;
    assert rest <= Free(after, later);
    Subset(rest, Free(after, later));
    Subset(Free(before, now), rest + used);
  }

  lemma {:induction false} Subset(a: set<int>, b: set<int>)
    requires a <= b
    ensures |a| <= |b|
  {
    assert b == a + (b - a);
  }

  /**
   With any clock that does not run backwards, a notification queues at least
   as many copies as the recipients, the queue and the slots that were free at
   its start allow.
   */
  lemma {:induction false} FanOutAtLeast(r: Region, tos: seq<Mail>, n: nat, fromPid: nat, buf: seq<Byte>, clock: nat -> int)
    requires WellFormed(r) && 0 < |buf| <= PAYLOAD_MAX && n <= |tos|
    requires forall i: nat, j: nat :: i <= j ==> clock(i) <= clock(j)
    ensures var r' := FanOut(r, tos, n, fromPid, buf, clock);
            && |r'.slots| == |r.slots|
            && |r.queue| + Min(n, Min(384 - |r.queue|, |Free(r.slots, clock(0))|)) <= |r'.queue| <= |r.queue| + n
            && |Free(r'.slots, clock(2 * n))| >= |Free(r.slots, clock(0))| - (|r'.queue| - |r.queue|)
  {
    hide Free, Sent, Holds;
    if n > 0 {
      FanOutAtLeast(r, tos, n - 1, fromPid, buf, clock);
      var b, c := FanOut(r, tos, n - 1, fromPid, buf, clock), FanOut(r, tos, n, fromPid, buf, clock);
      SentAtAnyTime(b, tos[n - 1], fromPid, buf, clock(2 * n - 2), clock(2 * n - 1));
      var used := if |c.queue| > |b.queue| then {c.queue[|b.queue|].idx as int} else {};
      FreeLater(b.slots, c.slots, used, clock(2 * n - 2), clock(2 * n));
    }
  }
}
