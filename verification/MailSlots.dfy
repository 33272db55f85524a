/**
 The life of a payload slot: which one an allocation takes, what it is stamped
 with, and until when it stays as it is.
 */
module MailSlots {
  import opened Options
  import opened Bags
  import opened Mailboxes
  import opened MailOwnership
  import opened MailFanOut
  import opened MailRuns

  // ----- Allocation

  /** A slot can be taken if it is unused, or processed and sent at least five seconds ago. */
  predicate Available(s: Slot, now: int) {
    !s.inUse || (s.processed && now - s.sentMs >= 5000)
  }

  /** The slot n places on from start, going round. */
  function Around(start: nat, n: nat): nat {
    (start + n) % 384
  }

  /** The first slot that can be taken, going round from start. */
  ghost predicate FirstAvailable(slots: seq<Slot>, start: nat, now: int, idx: int)
    requires |slots| == 384
  {
    exists n: nat ::
      && n < 384
      && idx == Around(start, n)
      && Available(slots[Around(start, n)], now)
      && forall k: nat :: k < n ==> !Available(slots[Around(start, k)], now)
  }

  /** An allocation takes the first slot that can be taken, and fails exactly if there is none. */
  lemma AllocationExactly(slots: seq<Slot>, start: nat, now: int)
    requires |slots| == 384
    ensures var idx := NextSlot(slots, start % 384, 0, now);
            && -1 <= idx < 384
            && (idx == -1 <==> forall i :: 0 <= i < 384 ==> !Available(slots[i], now))
            && (idx >= 0 ==> FirstAvailable(slots, start, now, idx))
  {
    var idx := NextSlot(slots, start % 384, 0, now);
    AllocatorComplete(slots, start % 384, now);
    forall i | 0 <= i < 384
      ensures Available(slots[i], now) <==> i in Free(slots, now)
    {
    }
    if idx >= 0 {
      var n: nat :| n < PAYLOAD_SLOTS && idx == Circular(start % 384, n) && Reclaimable(slots[idx], now)
                    && forall k: nat :: k < n ==> !Reclaimable(slots[Circular(start % 384, k)], now);
      hide NextSlot, Free;
      FirstIs(slots, start, now, n);
    }
  }

  lemma FirstIs(slots: seq<Slot>, start: nat, now: int, n: nat)
    requires |slots| == 384 && n < 384 && Reclaimable(slots[Circular(start % 384, n)], now)
    requires forall k: nat :: k < n ==> !Reclaimable(slots[Circular(start % 384, k)], now)
    ensures FirstAvailable(slots, start, now, Circular(start % 384, n))
  {
    SameRest(start, n);
    hide Circular;
    forall k: nat | k < n
      ensures !Available(slots[Around(start, k)], now)
    {
      SameRest(start, k);
      assert !Reclaimable(slots[Circular(start % 384, k)], now);
    }
    assert Available(slots[Around(start, n)], now);
  }

  lemma SameRest(start: nat, k: nat)
    ensures Circular(start % 384, k) == Around(start, k)
  {
  }

  /**
   Sending a payload takes the first slot available from the hint, queued or not, and
   moves the hint just behind it; it does nothing exactly if no slot is available.
   */
  lemma SentTakesFirst(r: Region, to: Mail, fromPid: nat, buf: seq<Byte>, allocMs: int, sentMs: int)
    requires WellFormed(r) && 0 < |buf| <= PAYLOAD_MAX
    ensures var r' := Sent(r, to, fromPid, buf, allocMs, sentMs);
            && (if forall i :: 0 <= i < 384 ==> !Available(r.slots[i], allocMs) then r' == r
                else FirstAvailable(r.slots, r.hint, allocMs, r'.hint - 1))
            && (|r'.queue| > |r.queue| ==>
                  && FirstAvailable(r.slots, r.hint, allocMs, r'.queue[|r.queue|].idx)
                  && r'.hint == r'.queue[|r.queue|].idx + 1)
  {
    AllocationExactly(r.slots, r.hint, allocMs);
    hide NextSlot, FirstAvailable;
  }

  /** Of two successive allocations the second takes the first slot available after that of the first. */
  lemma SuccessiveAllocations(r: Region, to: Mail, to': Mail, fromPid: nat, fromPid': nat, buf: seq<Byte>, buf': seq<Byte>,
                              allocMs: int, sentMs: int, allocMs': int, sentMs': int)
    requires WellFormed(r) && 0 < |buf| <= PAYLOAD_MAX && 0 < |buf'| <= PAYLOAD_MAX
    ensures var r1 := Sent(r, to, fromPid, buf, allocMs, sentMs);
            && WellFormed(r1)
            && var r2 := Sent(r1, to', fromPid', buf', allocMs', sentMs');
               |r1.queue| > |r.queue| && |r2.queue| > |r1.queue| ==>
                 FirstAvailable(r1.slots, r1.queue[|r.queue|].idx + 1, allocMs', r2.queue[|r1.queue|].idx)
  {
    SentTakesFirst(r, to, fromPid, buf, allocMs, sentMs);
    var r1 := Sent(r, to, fromPid, buf, allocMs, sentMs);
    SentWellFormed(r, to, fromPid, buf, allocMs, sentMs);
    SentTakesFirst(r1, to', fromPid', buf', allocMs', sentMs');
    hide Sent, FirstAvailable;
  }

  // ----- The stamp

  /** The mail is a copy to one recipient, and its slot holds the bytes with the reading of the clock for that recipient. */
  ghost predicate Stamped(slots: seq<Slot>, m: Mail, tos: seq<Mail>, fromPid: nat, buf: seq<Byte>, clock: nat -> int) {
    exists n: nat ::
      && n < |tos| && m == tos[n].(idx := m.idx)
      && 0 <= m.idx < |slots| && Holds(slots[m.idx], m, fromPid, buf, clock(2 * n + 1))
  }

  ghost predicate NewStamped(r: Region, r': Region, tos: seq<Mail>, fromPid: nat, buf: seq<Byte>, clock: nat -> int) {
    forall i :: |r.queue| <= i < |r'.queue| ==> Stamped(r'.slots, r'.queue[i], tos, fromPid, buf, clock)
  }

  lemma StillStamped(before: seq<Slot>, after: seq<Slot>, m: Mail, tos: seq<Mail>, fromPid: nat, buf: seq<Byte>, clock: nat -> int)
    requires CalmExcept(before, after, -1) && Stamped(before, m, tos, fromPid, buf, clock)
    ensures Stamped(after, m, tos, fromPid, buf, clock)
  {
    var n: nat :| n < |tos| && m == tos[n].(idx := m.idx)
                  && 0 <= m.idx < |before| && Holds(before[m.idx], m, fromPid, buf, clock(2 * n + 1));
    assert Holds(after[m.idx], m, fromPid, buf, clock(2 * n + 1));
  }

  /** For every clock: each copy that a notification queues is stamped. */
  lemma {:induction false} FanOutStamped(r: Region, tos: seq<Mail>, n: nat, fromPid: nat, buf: seq<Byte>, clock: nat -> int)
    requires WellFormed(r) && 0 < |buf| <= PAYLOAD_MAX && n <= |tos|
    ensures NewStamped(r, FanOut(r, tos, n, fromPid, buf, clock), tos, fromPid, buf, clock)
  {
    hide Sent, Stamped, Free, Holds;
    if n > 0 {
      FanOutStamped(r, tos, n - 1, fromPid, buf, clock);
      var b, c := FanOut(r, tos, n - 1, fromPid, buf, clock), FanOut(r, tos, n, fromPid, buf, clock);
      SentAtAnyTime(b, tos[n - 1], fromPid, buf, clock(2 * n - 2), clock(2 * n - 1));
      SentShape(b, tos[n - 1], fromPid, buf, clock(2 * n - 2), clock(2 * n - 1));
      forall i | |r.queue| <= i < |c.queue|
        ensures Stamped(c.slots, c.queue[i], tos, fromPid, buf, clock)
      {
        if i < |b.queue| {
          assert Stamped(b.slots, b.queue[i], tos, fromPid, buf, clock);
          StillStamped(b.slots, c.slots, b.queue[i], tos, fromPid, buf, clock);
        } else {
          JustStamped(c.slots, c.queue[i], tos, n - 1, fromPid, buf, clock);
        }
      }
    }
  }

  lemma JustStamped(slots: seq<Slot>, m: Mail, tos: seq<Mail>, n: nat, fromPid: nat, buf: seq<Byte>, clock: nat -> int)
    requires n < |tos| && m == tos[n].(idx := m.idx) && 0 <= m.idx < |slots|
    requires Holds(slots[m.idx], m, fromPid, buf, clock(2 * n + 1))
    ensures Stamped(slots, m, tos, fromPid, buf, clock)
  {
  }

  // ----- Until when a slot stays

  /** The collector frees exactly the processed slots of its age, and touches no other. */
  lemma CollectedExactly(slots: seq<Slot>, now: int, after: int, i: nat)
    requires i < |slots|
    ensures var s := slots[i];
            Collected(slots, now, after)[i]
            == if s.inUse && s.processed && now - s.sentMs >= after then Slot(false, false, 0, 0, 0, 0, 0, 0, s.data) else s
  {
  }

  /** The event is the end of the callback that was shown slot j. */
  predicate EndsSlot(w: World, e: Event, j: int) {
    e.End? && e.k < |w.workers| && w.workers[e.k].batch != [] && w.workers[e.k].batch[0].idx == j
  }

  /** A slot in use and unprocessed stays as it is until the callback that was shown it ends. */
  lemma {:induction false} LiveStays(ws: seq<World>, es: seq<Event>, a: nat, b: nat, j: nat)
    requires IsRun(ws, es) && Initial(ws[0]) && a <= b < |ws| && j < 384
    requires forall i :: a <= i < b ==> !EndsSlot(ws[i], es[i], j)
    ensures |ws[a].region.slots| == |ws[b].region.slots| == 384
    ensures var s := ws[a].region.slots[j]; s.inUse && !s.processed ==> ws[b].region.slots[j] == s
    decreases b
  {
    hide Sound, Next, Initial, EndsSlot;
    WellFormedAt(ws, es, a);
    WellFormedAt(ws, es, b);
    if a < b {
      AlwaysSound(ws, es, b - 1);
      LiveStays(ws, es, a, b - 1, j);
      StepKeepsLive(ws[b - 1], es[b - 1], ws[b], j);
    }
  }

  lemma WellFormedAt(ws: seq<World>, es: seq<Event>, i: nat)
    requires IsRun(ws, es) && Initial(ws[0]) && i < |ws|
    ensures WellFormed(ws[i].region)
  {
    AlwaysSound(ws, es, i);
  }

  lemma StepKeepsLive(w: World, e: Event, w': World, j: nat)
    requires Sound(w) && Next(w, e, w') && j < |w.region.slots| && !EndsSlot(w, e, j)
    ensures |w'.region.slots| == |w.region.slots|
    ensures IsLive(w.region.slots[j]) ==> w'.region.slots[j] == w.region.slots[j]
  {
    StepCalm(w, e, w');
    if e.End? {
      EndOf(w, e, w');
    }
    hide Sound, Next;
  }

  /** The end of the callback marks its slot, and keeps its message, bytes and send time. */
  lemma EndMarks(ws: seq<World>, es: seq<Event>, i: nat, j: nat)
    requires IsRun(ws, es) && Initial(ws[0]) && i < |es| && j < 384 && EndsSlot(ws[i], es[i], j)
    ensures |ws[i].region.slots| == |ws[i + 1].region.slots| == 384
    ensures var s := ws[i].region.slots[j];
            s.inUse && !s.processed && ws[i + 1].region.slots[j] == s.(processed := true, processedMs := es[i].now)
  {
    AlwaysSound(ws, es, i);
    assert Next(ws[i], es[i], ws[i + 1]);
    EndOf(ws[i], es[i], ws[i + 1]);
    ReadingSlot(ws[i], es[i].k);
    hide Sound, IsRun, Initial;
  }

  /** No reading of the clock in this event makes a payload sent then old enough to be thrown away. */
  ghost predicate TooYoung(e: Event, sentMs: int) {
    && (e.Notify? ==> forall n: nat :: e.clock(n) - sentMs < 5000)
    && (e.Collect? ==> e.now - sentMs < e.after)
  }

  lemma {:induction false} FanOutKeepsYoung(r: Region, tos: seq<Mail>, n: nat, fromPid: nat, buf: seq<Byte>, clock: nat -> int, j: nat)
    requires WellFormed(r) && |buf| <= PAYLOAD_MAX && n <= |tos| && j < |r.slots| && r.slots[j].inUse
    requires forall i: nat :: clock(i) - r.slots[j].sentMs < 5000
    ensures var r' := FanOut(r, tos, n, fromPid, buf, clock); |r'.slots| == |r.slots| && r'.slots[j] == r.slots[j]
  {
    if n > 0 {
      FanOutKeepsYoung(r, tos, n - 1, fromPid, buf, clock, j);
      var b := FanOut(r, tos, n - 1, fromPid, buf, clock);
      if buf != [] {
        SentAtAnyTime(b, tos[n - 1], fromPid, buf, clock(2 * n - 2), clock(2 * n - 1));
        assert j !in Free(b.slots, clock(2 * n - 2));
        hide Sent;
      }
    }
  }

  lemma StepKeepsYoung(w: World, e: Event, w': World, j: nat)
    requires Sound(w) && Next(w, e, w') && j < |w.region.slots|
    requires w.region.slots[j].inUse && w.region.slots[j].processed && TooYoung(e, w.region.slots[j].sentMs)
    ensures |w'.region.slots| == |w.region.slots| && w'.region.slots[j] == w.region.slots[j]
  {
    hide Sound, Gather, Filter, Registered;
    match e
    case Notify(pid, obj, msg, buf, clock) =>
      var tos := Recipients(w.region.listen, msg, obj);
      FanOutKeepsYoung(w.region, tos, |tos|, pid, buf, clock, j);
      hide FanOut, WellFormed;
    case End(k, now) => EndKeepsYoung(w, k, now, j);
    case _ =>
  }

  lemma EndKeepsYoung(w: World, k: nat, now: int, j: nat)
    requires Sound(w) && Enabled(w, End(k, now)) && j < |w.region.slots| && w.region.slots[j].processed
    ensures |Ended(w, k, now).region.slots| == |w.region.slots| && Ended(w, k, now).region.slots[j] == w.region.slots[j]
  {
    ReadingSlot(w, k);
    hide Sound, WellFormed;
  }

  /** A processed slot stays as it is until something finds it old enough. */
  lemma {:induction false} ProcessedStays(ws: seq<World>, es: seq<Event>, a: nat, b: nat, j: nat)
    requires IsRun(ws, es) && Initial(ws[0]) && a <= b < |ws| && j < |ws[a].region.slots|
    requires ws[a].region.slots[j].inUse && ws[a].region.slots[j].processed
    requires forall i :: a <= i < b ==> TooYoung(es[i], ws[a].region.slots[j].sentMs)
    ensures j < |ws[b].region.slots| && ws[b].region.slots[j] == ws[a].region.slots[j]
    decreases b
  {
    hide Sound, Next, Initial, TooYoung;
    if a < b {
      AlwaysSound(ws, es, b - 1);
      ProcessedStays(ws, es, a, b - 1, j);
      StepKeepsYoung(ws[b - 1], es[b - 1], ws[b], j);
    }
  }

  /**
   The life of a payload: from its sending its slot stays as it is until the callback
   ends at c, whatever happens; from then on it is marked, and otherwise the same,
   until five seconds after its send time, or the collector's age.
   */
  lemma SlotLife(ws: seq<World>, es: seq<Event>, a: nat, c: nat, b: nat, j: nat)
    requires IsRun(ws, es) && Initial(ws[0]) && a <= c < b < |ws| && j < |ws[a].region.slots|
    requires ws[a].region.slots[j].inUse && !ws[a].region.slots[j].processed
    requires EndsSlot(ws[c], es[c], j) && forall i :: a <= i < c ==> !EndsSlot(ws[i], es[i], j)
    requires forall i :: c < i < b ==> TooYoung(es[i], ws[a].region.slots[j].sentMs)
    ensures j < |ws[b].region.slots|
            && ws[b].region.slots[j] == ws[a].region.slots[j].(processed := true, processedMs := es[c].now)
  {
    WellFormedAt(ws, es, a);
    hide IsRun, Initial, EndsSlot, TooYoung;
    LiveStays(ws, es, a, c, j);
    EndMarks(ws, es, c, j);
    ProcessedStays(ws, es, c + 1, b, j);
  }

  /** Each payload mail that a notification queues begins such a life, with the bytes sent and the time of sending. */
  lemma NotifyStamps(ws: seq<World>, es: seq<Event>, a: nat, i: nat)
    requires IsRun(ws, es) && Initial(ws[0]) && a < |es| && es[a].Notify? && es[a].buf != []
    requires |ws[a].region.queue| <= i < |ws[a + 1].region.queue|
    ensures var m := ws[a + 1].region.queue[i];
            && 0 <= m.idx < |ws[a + 1].region.slots|
            && var s := ws[a + 1].region.slots[m.idx];
               && s.inUse && !s.processed && Bytes(s) == es[a].buf && s.msg == m.msg && s.toPid == m.pid && s.fromPid == es[a].pid
               && exists n: nat :: s.sentMs == es[a].clock(2 * n + 1)
  {
    assert Next(ws[a], es[a], ws[a + 1]);
    var tos := Recipients(ws[a].region.listen, es[a].msg, es[a].obj);
    FanOutStamped(ws[a].region, tos, |tos|, es[a].pid, es[a].buf, es[a].clock);
    assert Stamped(ws[a + 1].region.slots, ws[a + 1].region.queue[i], tos, es[a].pid, es[a].buf, es[a].clock);
    hide IsRun, Next, Initial, FanOut, Filter;
  }
}
