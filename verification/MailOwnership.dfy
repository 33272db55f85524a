/**
 Who owns which payload slot, and where every accepted letter is: the two
 invariants of the mailbox that every step keeps, whatever the interleaving.
 */
module MailOwnership {
  import opened Options
  import opened Bags
  import opened Mailboxes

  predicate IsLive(s: Slot) {
    s.inUse && !s.processed
  }

  /** The slots in use whose payload has not been processed. */
  function Live(slots: seq<Slot>): set<int> {
    set i | 0 <= i < |slots| && IsLive(slots[i])
  }

  /** A payload mail's slot is in use, unprocessed, and made out to that message and process. */
  predicate Genuine(slots: seq<Slot>, m: Mail) {
    m.idx == -1 || (0 <= m.idx < |slots| && IsLive(slots[m.idx]) && SlotMatches(slots[m.idx], m, m.pid))
  }

  ghost predicate AllGenuine(slots: seq<Slot>, ms: seq<Mail>) {
    forall m :: m in ms ==> Genuine(slots, m)
  }

  /** A worker holds mail of its own process, and its callback was shown what the slot still holds. */
  ghost predicate WorkerSound(slots: seq<Slot>, wk: Worker) {
    && AllGenuine(slots, wk.batch)
    && (forall m :: m in wk.batch ==> m.obj != 0 && m.pid == wk.pid)
    && (wk.reading.Some? ==>
          && wk.batch != []
          && 0 <= wk.batch[0].idx < |slots|
          && wk.reading.value == Bytes(slots[wk.batch[0].idx]))
  }

  ghost predicate WorkersSound(slots: seq<Slot>, workers: seq<Worker>) {
    forall k :: 0 <= k < |workers| ==> WorkerSound(slots, workers[k])
  }

  /** All slot references that are outstanding: queued, drained but not done with, and leaked. */
  function Outstanding(queue: seq<Mail>, workers: seq<Worker>, leaked: multiset<int>): multiset<int> {
    (Gather(queue, SlotBag()) + leaked) + Gather(workers, WorkerSlots())
  }

  /**
   Every in-use, unprocessed slot has exactly one owner: one queued mail, one
   mail in one worker's batch, or a mail that was purged.
   */
  ghost predicate Owned(slots: seq<Slot>, queue: seq<Mail>, workers: seq<Worker>, leaked: multiset<int>) {
    && Outstanding(queue, workers, leaked) == multiset(Live(slots))
    && AllGenuine(slots, queue)
    && WorkersSound(slots, workers)
  }

  /** Every accepted letter is delivered, purged, queued, or with a worker: once, and with its own bytes. */
  ghost predicate Conserved(w: World) {
    w.accepted == w.delivered + w.purged
                  + Gather(w.region.queue, LetterBag(w.region.slots))
                  + Gather(w.workers, WorkerLetters(w.region.slots))
  }

  ghost predicate Sound(w: World) {
    && WellFormed(w.region)
    && Owned(w.region.slots, w.region.queue, w.workers, w.leaked)
    && Conserved(w)
  }

  // ----- Framing: what a change of slots leaves alone

  /** The live slots of before, other than j, are the same in after. */
  ghost predicate CalmExcept(before: seq<Slot>, after: seq<Slot>, j: int) {
    && |before| == |after|
    && forall i :: 0 <= i < |before| && i != j && IsLive(before[i]) ==> after[i] == before[i]
  }

  ghost predicate NoneOwns(ms: seq<Mail>, j: int) {
    forall m :: m in ms ==> m.idx != j
  }

  lemma MailsCalm(before: seq<Slot>, after: seq<Slot>, j: int, ms: seq<Mail>)
    requires CalmExcept(before, after, j) && AllGenuine(before, ms)
    requires j == -1 || NoneOwns(ms, j)
    ensures AllGenuine(after, ms)
    ensures Gather(ms, LetterBag(after)) == Gather(ms, LetterBag(before))
  {
    forall m | m in ms
      ensures LetterBag(before)(m) == LetterBag(after)(m)
    {
    }
    GatherSame(ms, LetterBag(before), LetterBag(after));
  }

  lemma WorkerCalm(before: seq<Slot>, after: seq<Slot>, j: int, wk: Worker)
    requires CalmExcept(before, after, j) && WorkerSound(before, wk)
    requires j == -1 || NoneOwns(wk.batch, j)
    ensures WorkerSound(after, wk)
    ensures WorkerLetters(after)(wk) == WorkerLetters(before)(wk)
  {
    MailsCalm(before, after, j, wk.batch);
    if wk.reading.Some? {
      assert wk.batch[0] in wk.batch;
    }
  }

  lemma WorkersCalm(before: seq<Slot>, after: seq<Slot>, workers: seq<Worker>)
    requires CalmExcept(before, after, -1) && WorkersSound(before, workers)
    ensures WorkersSound(after, workers)
    ensures Gather(workers, WorkerLetters(after)) == Gather(workers, WorkerLetters(before))
  {
    forall k | 0 <= k < |workers|
      ensures WorkerSound(after, workers[k])
      ensures WorkerLetters(after)(workers[k]) == WorkerLetters(before)(workers[k])
    {
      WorkerCalm(before, after, -1, workers[k]);
    }
    GatherSame(workers, WorkerLetters(before), WorkerLetters(after));
  }

  /** A slot outside the outstanding references belongs to no mail of the bag. */
  lemma NotGathered(ms: seq<Mail>, j: int)
    requires 0 <= j && Gather(ms, SlotBag())[j] == 0
    ensures NoneOwns(ms, j)
  {
    forall m | m in ms
      ensures m.idx != j
    {
      GatherContains(ms, m, SlotBag());
    }
  }

  // ----- Sending

  lemma NextSlotReclaimable(slots: seq<Slot>, start: nat, n: nat, now: int)
    requires |slots| == PAYLOAD_SLOTS
    ensures var idx := NextSlot(slots, start, n, now);
            -1 <= idx < PAYLOAD_SLOTS && (idx >= 0 ==> Reclaimable(slots[idx], now))
    decreases PAYLOAD_SLOTS - n
  {
    if n < PAYLOAD_SLOTS && !Reclaimable(slots[Circular(start, n)], now) {
      NextSlotReclaimable(slots, start, n + 1, now);
    }
  }

  lemma SnocGather<X>(ms: seq<Mail>, m: Mail, f: Mail -> multiset<X>)
    ensures Gather(ms + [m], f) == Gather(ms, f) + f(m)
  {
    GatherConcat(ms, [m], f);
    GatherOne(m, f);
  }

  /** What sending one copy does to the slots and to the queue. */
  ghost predicate Accepts(r: Region, r': Region, buf: seq<Byte>, m: Mail) {
    && r'.queue == r.queue + [m]
    && (buf == [] ==> m.idx == -1 && r'.slots == r.slots)
    && (buf != [] ==>
          && 0 <= m.idx < PAYLOAD_SLOTS == |r'.slots|
          && m.idx !in Live(r.slots)
          && Live(r'.slots) == Live(r.slots) + {m.idx}
          && SlotMatches(r'.slots[m.idx], m, m.pid)
          && Bytes(r'.slots[m.idx]) == buf)
  }

  lemma SentShape(r: Region, to: Mail, fromPid: nat, buf: seq<Byte>, allocMs: int, sentMs: int)
    requires WellFormed(r) && |buf| <= PAYLOAD_MAX
    ensures var r' := Sent(r, to, fromPid, buf, allocMs, sentMs);
            && CalmExcept(r.slots, r'.slots, -1)
            && (if |r'.queue| == |r.queue|
                then r'.queue == r.queue && Live(r'.slots) == Live(r.slots)
                else |r'.queue| == |r.queue| + 1 && Accepts(r, r', buf, r'.queue[|r.queue|]))
  {
    var r' := Sent(r, to, fromPid, buf, allocMs, sentMs);
    NextSlotReclaimable(r.slots, r.hint % PAYLOAD_SLOTS, 0, allocMs);
    var idx := NextSlot(r.slots, r.hint % PAYLOAD_SLOTS, 0, allocMs);
    if buf != [] && idx >= 0 {
      assert forall i :: 0 <= i < PAYLOAD_SLOTS && i != idx ==> r'.slots[i] == r.slots[i];
      assert !IsLive(r.slots[idx]);
      if |r.queue| < QUEUE_MAX {
        assert IsLive(r'.slots[idx]) && Bytes(r'.slots[idx]) == buf;
        assert Live(r'.slots) == Live(r.slots) + {idx};
      } else {
        assert Live(r'.slots) == Live(r.slots);
      }
    }
  }

  lemma AcceptOwned(r: Region, r': Region, buf: seq<Byte>, m: Mail, workers: seq<Worker>, leaked: multiset<int>)
    requires CalmExcept(r.slots, r'.slots, -1) && Accepts(r, r', buf, m)
    requires Owned(r.slots, r.queue, workers, leaked)
    ensures Owned(r'.slots, r'.queue, workers, leaked)
  {
    hide Gather;
    MailsCalm(r.slots, r'.slots, -1, r.queue);
    WorkersCalm(r.slots, r'.slots, workers);
    SnocGather(r.queue, m, SlotBag());
    if buf != [] {
      assert m.idx in Live(r'.slots);
      assert multiset(Live(r'.slots)) == multiset(Live(r.slots)) + multiset{m.idx};
    }
  }

  /**
   From r to r' ownership is kept, no letter already in the system is disturbed,
   and the mails that joined the queue carry exactly the bytes of buf.
   */
  ghost predicate Carries(r: Region, r': Region, buf: seq<Byte>, workers: seq<Worker>, leaked: multiset<int>) {
    && Owned(r'.slots, r'.queue, workers, leaked)
    && Gather(workers, WorkerLetters(r'.slots)) == Gather(workers, WorkerLetters(r.slots))
    && r.queue <= r'.queue
    && Gather(r'.queue, LetterBag(r'.slots))
       == Gather(r.queue, LetterBag(r.slots)) + Gather(r'.queue[|r.queue|..], SentBag(buf))
  }

  lemma CarriesOn(r: Region, b: Region, c: Region, buf: seq<Byte>, workers: seq<Worker>, leaked: multiset<int>)
    requires Carries(r, b, buf, workers, leaked) && Carries(b, c, buf, workers, leaked)
    ensures Carries(r, c, buf, workers, leaked)
  {
    hide Gather, Owned;
    assert c.queue[|r.queue|..] == b.queue[|r.queue|..] + c.queue[|b.queue|..];
    GatherConcat(b.queue[|r.queue|..], c.queue[|b.queue|..], SentBag(buf));
  }

  lemma SentKeeps(r: Region, to: Mail, fromPid: nat, buf: seq<Byte>, allocMs: int, sentMs: int,
                  workers: seq<Worker>, leaked: multiset<int>)
    requires WellFormed(r) && |buf| <= PAYLOAD_MAX
    requires Owned(r.slots, r.queue, workers, leaked)
    ensures Carries(r, Sent(r, to, fromPid, buf, allocMs, sentMs), buf, workers, leaked)
  {
    hide Gather, Sent;
    var r' := Sent(r, to, fromPid, buf, allocMs, sentMs);
    SentShape(r, to, fromPid, buf, allocMs, sentMs);
    MailsCalm(r.slots, r'.slots, -1, r.queue);
    WorkersCalm(r.slots, r'.slots, workers);
    if |r'.queue| == |r.queue| {
      assert r'.queue[|r.queue|..] == [];
      GatherUnfold([], SentBag(buf));
    } else {
      var m := r'.queue[|r.queue|];
      AcceptOwned(r, r', buf, m, workers, leaked);
      SnocGather(r.queue, m, LetterBag(r'.slots));
      GatherOne(m, SentBag(buf));
      assert r'.queue[|r.queue|..] == [m];
      assert LetterBag(r'.slots)(m) == SentBag(buf)(m);
    }
  }

  lemma {:induction false} FanOutKeeps(r: Region, tos: seq<Mail>, n: nat, fromPid: nat, buf: seq<Byte>, clock: nat -> int,
                                       workers: seq<Worker>, leaked: multiset<int>)
    requires WellFormed(r) && |buf| <= PAYLOAD_MAX && n <= |tos|
    requires Owned(r.slots, r.queue, workers, leaked)
    ensures Carries(r, FanOut(r, tos, n, fromPid, buf, clock), buf, workers, leaked)
  {
    if n == 0 {
      assert r.queue[|r.queue|..] == [];
    } else {
      var b := FanOut(r, tos, n - 1, fromPid, buf, clock);
      FanOutKeeps(r, tos, n - 1, fromPid, buf, clock, workers, leaked);
      SentKeeps(b, tos[n - 1], fromPid, buf, clock(2 * n - 2), clock(2 * n - 1), workers, leaked);
      CarriesOn(r, b, FanOut(r, tos, n, fromPid, buf, clock), buf, workers, leaked);
    }
  }

  lemma NotifyKeeps(w: World, pid: nat, obj: nat, msg: nat, buf: seq<Byte>, clock: nat -> int)
    requires Sound(w) && |buf| <= PAYLOAD_MAX
    ensures Sound(NotifiedWorld(w, pid, obj, msg, buf, clock))
  {
    var tos := Recipients(w.region.listen, msg, obj);
    FanOutKeeps(w.region, tos, |tos|, pid, buf, clock, w.workers, w.leaked);
  }

  // ----- Draining and purging

  /** A purge shares the queue out: what goes and what stays. */
  lemma GoesOrStays<X>(queue: seq<Mail>, rest: seq<Mail>, taken: Mail -> bool, f: Mail -> multiset<X>)
    requires Rearranged(rest, Filter(queue, Stays(taken)))
    ensures Gather(queue, f) == Gather(Filter(queue, Goes(taken)), f) + Gather(rest, f)
  {
    GatherPermutation(rest, Filter(queue, Stays(taken)), f);
    GatherFilter(queue, Goes(taken), Stays(taken), f);
  }

  /** A drain shares the queue out: to the worker, to the purged, and to the queue that stays. */
  lemma SharedOut<X>(queue: seq<Mail>, rest: seq<Mail>, taken: Mail -> bool, f: Mail -> multiset<X>)
    requires Rearranged(rest, Filter(queue, Stays(taken)))
    requires forall m :: m in queue && taken(m) ==> m.msg != 0
    ensures Gather(queue, f)
            == Gather(Filter(queue, taken), f) + Gather(Filter(queue, Trimmed(taken)), f) + Gather(rest, f)
  {
    hide Gather, Filter;
    var untaken := (m: Mail) => !taken(m);
    var others := Filter(queue, untaken);
    GatherPermutation(rest, Filter(queue, Stays(taken)), f);
    GatherFilter(queue, taken, untaken, f);
    GatherFilter(others, Trimmed(taken), Stays(taken), f);
    FilterTwice(queue, untaken, Trimmed(taken));
    FilterTwice(queue, untaken, Stays(taken));
  }

  lemma {:induction false} FilterTwice<T(!new)>(s: seq<T>, p: T -> bool, q: T -> bool)
    requires forall x :: q(x) ==> p(x)
    ensures Filter(Filter(s, p), q) == Filter(s, q)
  {
    if s != [] {
      FilterTwice(s[1..], p, q);
      FilterConcat(if p(s[0]) then [s[0]] else [], Filter(s[1..], p), q);
    }
  }

  /** Replacing one worker, the queue and the leaks by others with the same references in total. */
  lemma SwapOwned(slots: seq<Slot>, queue: seq<Mail>, queue': seq<Mail>, workers: seq<Worker>, k: nat, wk': Worker,
                  leaked: multiset<int>, leaked': multiset<int>)
    requires k < |workers| && Owned(slots, queue, workers, leaked)
    requires AllGenuine(slots, queue') && WorkerSound(slots, wk')
    requires (Gather(queue, SlotBag()) + leaked) + WorkerSlots()(workers[k])
             == (Gather(queue', SlotBag()) + leaked') + WorkerSlots()(wk')
    ensures Owned(slots, queue', workers[k := wk'], leaked')
  {
    GatherUpdate(workers, k, wk', WorkerSlots());
    Rebalance(multiset(Live(slots)), Gather(queue, SlotBag()) + leaked, Gather(queue', SlotBag()) + leaked',
              WorkerSlots()(workers[k]), WorkerSlots()(wk'), Others(workers, k, WorkerSlots()));
  }

  lemma DrainOwned(w: World, k: nat, queue: seq<Mail>)
    requires Sound(w) && Enabled(w, Drain(k, queue))
    ensures var w' := Drained(w, k, queue);
            Owned(w'.region.slots, w'.region.queue, w'.workers, w'.leaked)
  {
    hide Gather;
    var w' := Drained(w, k, queue);
    var own := OwnMail(w.workers[k].pid);
    SameBag(queue, Filter(w.region.queue, Stays(own)));
    SharedOut(w.region.queue, queue, own, SlotBag());
    GatherUnfold(w.workers[k].batch, SlotBag());
    assert WorkerSound(w.region.slots, w.workers[k]);
    SwapOwned(w.region.slots, w.region.queue, queue, w.workers, k, w'.workers[k], w.leaked, w'.leaked);
  }

  lemma DrainConserved(w: World, k: nat, queue: seq<Mail>)
    requires Sound(w) && Enabled(w, Drain(k, queue))
    ensures Conserved(Drained(w, k, queue))
  {
    hide Gather, Filter, Owned;
    var w' := Drained(w, k, queue);
    var slots, own := w.region.slots, OwnMail(w.workers[k].pid);
    var out, held := w.delivered + w.purged, Others(w.workers, k, WorkerLetters(slots));
    SharedOut(w.region.queue, queue, own, LetterBag(slots));
    GatherUpdate(w.workers, k, w'.workers[k], WorkerLetters(slots));
    GatherUnfold(w.workers[k].batch, LetterBag(slots));
    assert w.accepted == out + Gather(w.region.queue, LetterBag(slots)) + held;
  }

  lemma DrainKeeps(w: World, k: nat, queue: seq<Mail>)
    requires Sound(w) && Enabled(w, Drain(k, queue))
    ensures Sound(Drained(w, k, queue))
  {
    hide Gather, Filter, Owned, Conserved;
    DrainOwned(w, k, queue);
    DrainConserved(w, k, queue);
    SameBag(queue, Filter(w.region.queue, Stays(OwnMail(w.workers[k].pid))));
  }

  lemma DetachKeeps(w: World, pid: nat, obj: nat, queue: seq<Mail>, listen: seq<Mail>)
    requires Sound(w) && Enabled(w, Detach(pid, obj, queue, listen))
    ensures Sound(Detached(w, pid, obj, queue, listen))
  {
    hide Gather, Filter;
    if w.objects[(pid, obj)].needWorker {
      var mine := MailOf(obj);
      var gone := Filter(w.region.queue, Goes(mine));
      SameBag(queue, Filter(w.region.queue, Stays(mine)));
      GoesOrStays(w.region.queue, queue, mine, SlotBag());
      GoesOrStays(w.region.queue, queue, mine, LetterBag(w.region.slots));
      SameBag(listen, Filter(w.region.listen, Stays(mine)));
    }
  }

  // ----- Delivering

  /** The worker's check of the slot succeeds on every payload mail. */
  lemma CheckSucceeds(w: World, k: nat)
    requires Sound(w) && Enabled(w, Begin(k))
    ensures var m := w.workers[k].batch[0];
            if m.idx >= 0
            then Begun(w, k) == w.(workers := w.workers[k := w.workers[k].(reading := LetterOf(w.region.slots, m).data)])
            else Begun(w, k) == w.(workers := w.workers[k := w.workers[k].(batch := w.workers[k].batch[1..])],
                                   delivered := w.delivered + multiset{LetterOf(w.region.slots, m)})
  {
    assert w.workers[k].batch[0] in w.workers[k].batch;
    assert WorkerSound(w.region.slots, w.workers[k]);
  }

  lemma BeginOwned(w: World, k: nat)
    requires Sound(w) && Enabled(w, Begin(k))
    ensures Owned(w.region.slots, w.region.queue, Begun(w, k).workers, w.leaked)
  {
    hide Gather;
    CheckSucceeds(w, k);
    var wk, wk' := w.workers[k], Begun(w, k).workers[k];
    assert WorkerSound(w.region.slots, wk) && wk.batch[0] in wk.batch;
    GatherUnfold(wk.batch, SlotBag());
    SwapOwned(w.region.slots, w.region.queue, w.region.queue, w.workers, k, wk', w.leaked, w.leaked);
  }

  lemma BeginKeeps(w: World, k: nat)
    requires Sound(w) && Enabled(w, Begin(k))
    ensures Sound(Begun(w, k))
  {
    hide Gather;
    CheckSucceeds(w, k);
    BeginOwned(w, k);
    var slots, wk' := w.region.slots, Begun(w, k).workers[k];
    GatherUpdate(w.workers, k, wk', WorkerLetters(slots));
    GatherUnfold(w.workers[k].batch, LetterBag(slots));
  }

  /** While a worker delivers from a slot, no other mail anywhere refers to that slot. */
  lemma SoleOwner(w: World, k: nat)
    requires Sound(w) && k < |w.workers| && w.workers[k].batch != [] && w.workers[k].batch[0].idx >= 0
    ensures var j := w.workers[k].batch[0].idx;
            && j in Live(w.region.slots)
            && NoneOwns(w.region.queue, j)
            && NoneOwns(w.workers[k].batch[1..], j)
            && w.leaked[j] == 0
            && (forall i :: 0 <= i < |w.workers| && i != k ==> NoneOwns(w.workers[i].batch, j))
  {
    hide Gather;
    var wk := w.workers[k];
    var j := wk.batch[0].idx;
    var queued, held := Gather(w.region.queue, SlotBag()), Gather(w.workers, WorkerSlots());
    assert WorkerSound(w.region.slots, wk) && wk.batch[0] in wk.batch;
    assert multiset(Live(w.region.slots))[j] == 1;
    GatherSplitAt(w.workers, k, WorkerSlots());
    var others := w.workers[..k] + w.workers[k + 1..];
    GatherUnfold(wk.batch, SlotBag());
    assert (queued + w.leaked + held)[j] == 1;
    NotGathered(w.region.queue, j);
    NotGathered(wk.batch[1..], j);
    forall i | 0 <= i < |w.workers| && i != k
      ensures NoneOwns(w.workers[i].batch, j)
    {
      assert others[if i < k then i else i - 1] == w.workers[i];
      GatherContains(others, w.workers[i], WorkerSlots());
      NotGathered(w.workers[i].batch, j);
    }
  }

  lemma EndSound(w: World, k: nat, now: int)
    requires Sound(w) && Enabled(w, End(k, now))
    ensures var w' := Ended(w, k, now);
            && AllGenuine(w'.region.slots, w.region.queue)
            && WorkersSound(w'.region.slots, w'.workers)
            && Live(w'.region.slots) == Live(w.region.slots) - {w.workers[k].batch[0].idx}
            && Gather(w.region.queue, LetterBag(w'.region.slots)) == Gather(w.region.queue, LetterBag(w.region.slots))
            && Gather(w'.workers, WorkerLetters(w'.region.slots)) == Gather(w'.workers, WorkerLetters(w.region.slots))
  {
    hide Gather;
    var w' := Ended(w, k, now);
    var before, after := w.region.slots, w'.region.slots;
    var wk, done := w.workers[k], w'.workers[k];
    var j := wk.batch[0].idx;
    assert WorkerSound(before, wk);
    SoleOwner(w, k);
    assert CalmExcept(before, after, j);
    MailsCalm(before, after, j, w.region.queue);
    forall m | m in done.batch
      ensures m in wk.batch
    {
    }
    MailsCalm(before, after, j, done.batch);
    forall i | 0 <= i < |w.workers|
      ensures WorkerSound(after, w'.workers[i])
      ensures WorkerLetters(after)(w'.workers[i]) == WorkerLetters(before)(w'.workers[i])
    {
      if i != k {
        WorkerCalm(before, after, j, w.workers[i]);
      }
    }
    GatherSame(w'.workers, WorkerLetters(before), WorkerLetters(after));
  }

  lemma MultisetMinus(s: set<int>, j: int)
    requires j in s
    ensures multiset(s) == multiset(s - {j}) + multiset{j}
  {
    assert s == (s - {j}) + {j};
  }

  lemma EndOwned(w: World, k: nat, now: int)
    requires Sound(w) && Enabled(w, End(k, now))
    ensures var w' := Ended(w, k, now);
            Owned(w'.region.slots, w'.region.queue, w'.workers, w'.leaked)
  {
    hide Gather;
    EndSound(w, k, now);
    SoleOwner(w, k);
    var wk, done := w.workers[k], Ended(w, k, now).workers[k];
    GatherUpdate(w.workers, k, done, WorkerSlots());
    GatherUnfold(wk.batch, SlotBag());
    var live, j := Live(w.region.slots), wk.batch[0].idx;
    MultisetMinus(live, j);
    Cancel(multiset(live), multiset(live - {j}), Gather(w.region.queue, SlotBag()) + w.leaked,
           WorkerSlots()(done) + Others(w.workers, k, WorkerSlots()), multiset{j});
  }

  lemma EndKeeps(w: World, k: nat, now: int)
    requires Sound(w) && Enabled(w, End(k, now))
    ensures Sound(Ended(w, k, now))
  {
    hide Gather;
    var before := w.region.slots;
    var wk, done := w.workers[k], Ended(w, k, now).workers[k];
    assert WorkerSound(before, wk) && wk.batch[0] in wk.batch;
    EndSound(w, k, now);
    EndOwned(w, k, now);
    GatherUpdate(w.workers, k, done, WorkerLetters(before));
    GatherUnfold(wk.batch, LetterBag(before));
    assert wk.reading == LetterOf(before, wk.batch[0]).data;
  }

  // ----- The remaining steps

  lemma CollectKeeps(w: World, now: int, after: int)
    requires Sound(w)
    ensures Sound(w.(region := w.region.(slots := Collected(w.region.slots, now, after))))
  {
    var slots := Collected(w.region.slots, now, after);
    assert CalmExcept(w.region.slots, slots, -1);
    assert Live(slots) == Live(w.region.slots);
    MailsCalm(w.region.slots, slots, -1, w.region.queue);
    WorkersCalm(w.region.slots, slots, w.workers);
  }

  /** A new worker holds nothing. */
  lemma NewWorker(slots: seq<Slot>, workers: seq<Worker>, pid: nat)
    ensures Gather(workers + [Worker(pid, [], None)], WorkerSlots()) == Gather(workers, WorkerSlots())
    ensures Gather(workers + [Worker(pid, [], None)], WorkerLetters(slots)) == Gather(workers, WorkerLetters(slots))
  {
    hide Gather;
    var wk := Worker(pid, [], None);
    GatherConcat(workers, [wk], WorkerSlots());
    GatherConcat(workers, [wk], WorkerLetters(slots));
    GatherOne(wk, WorkerSlots());
    GatherOne(wk, WorkerLetters(slots));
    GatherUnfold(wk.batch, SlotBag());
    GatherUnfold(wk.batch, LetterBag(slots));
  }

  lemma AttachKeeps(w: World, pid: nat, obj: nat, list: seq<nat>, listen: seq<Mail>)
    requires Sound(w) && Enabled(w, Attach(pid, obj, list, listen))
    ensures Sound(Attached(w, pid, obj, list, listen))
  {
    hide Gather, Registered;
    SameBag(listen, Registered(w.region.listen, obj, pid, list));
    NewWorker(w.region.slots, w.workers, pid);
  }

  /** Every step keeps ownership and conservation. */
  lemma StepSound(w: World, e: Event, w': World)
    requires Sound(w) && Next(w, e, w')
    ensures Sound(w')
  {
    hide Gather, Filter, Owned, Registered;
    match e
    case Attach(pid, obj, list, listen) => AttachKeeps(w, pid, obj, list, listen);
    case AddListen(pid, obj, target, list, listen) =>
      SameBag(listen, Registered(w.region.listen, target, pid, list));
    case Notify(pid, obj, msg, buf, clock) => NotifyKeeps(w, pid, obj, msg, buf, clock);
    case Drain(k, queue) => DrainKeeps(w, k, queue);
    case Begin(k) => BeginKeeps(w, k);
    case End(k, now) => EndKeeps(w, k, now);
    case Collect(now, after) => CollectKeeps(w, now, after);
    case Release(pid, obj) =>
    case Detach(pid, obj, queue, listen) => DetachKeeps(w, pid, obj, queue, listen);
  }
}
