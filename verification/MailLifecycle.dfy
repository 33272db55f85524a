/**
 The listener table, the process table and the life of the objects, across the
 constructor and the two critical sections of the destructor.
 */
module MailLifecycle {
  import opened Bags
  import opened Mailboxes

  ghost predicate NoDuplicates(s: seq<Mail>) {
    forall m :: multiset(s)[m] <= 1
  }

  /** The listener table is in message order, without duplicates, and its entries carry no slot. */
  ghost predicate Tabled(listen: seq<Mail>) {
    && |listen| <= LISTEN_MAX
    && SortedByMsg(listen)
    && NoDuplicates(listen)
    && forall m :: m in listen ==> m.idx == -1
  }

  /** Every queued mail has its listener in the table. */
  ghost predicate Matched(r: Region) {
    forall m :: m in r.queue ==> m.(idx := -1) in r.listen
  }

  /** The objects of a process that listen and have not entered their destructor. */
  function Users(objects: map<(nat, nat), Life>, pid: nat): set<(nat, nat)> {
    set o | o in objects && o.0 == pid && objects[o].needWorker && !objects[o].released
  }

  /** A process is in the table exactly while it has users, with their number; instances counts all objects. */
  ghost predicate Counted(w: World) {
    && (forall pid: nat :: pid in w.region.procs <==> Users(w.objects, pid) != {})
    && (forall pid: nat :: pid in w.region.procs ==> w.region.procs[pid] == |Users(w.objects, pid)|)
    && w.region.instances == |w.objects|
  }

  ghost predicate Tracks(objects: map<(nat, nat), Life>, m: Mail) {
    (m.pid, m.obj) in objects && objects[(m.pid, m.obj)].needWorker
  }

  /** Every listener belongs to an object that is alive. */
  ghost predicate Tracked(w: World) {
    forall m :: m in w.region.listen ==> Tracks(w.objects, m)
  }

  ghost predicate Orderly(w: World) {
    && WellFormed(w.region)
    && Tabled(w.region.listen)
    && Matched(w.region)
    && Counted(w)
  }

  // ----- Registering and trimming

  lemma InsertOne(s: seq<Mail>, x: Mail)
    requires NoDuplicates(s) && x !in s
    ensures NoDuplicates(s + [x])
  {
    assert multiset(s)[x] == 0;
  }

  /** Registering adds the missing (message, object, process) triples while there is room, and nothing else. */
  lemma {:induction false} RegisteredTable(listen: seq<Mail>, obj: nat, pid: nat, list: seq<nat>)
    requires |listen| <= 128 && NoDuplicates(listen)
    requires forall m :: m in listen ==> m.idx == -1
    ensures var r := Registered(listen, obj, pid, list);
            && |r| <= 128
            && NoDuplicates(r)
            && listen <= r
            && (forall m :: m in r ==> m.idx == -1)
            && (forall m :: m in r ==> m in listen || (m.obj == obj && m.pid == pid && m.msg in list))
            && (|r| < 128 ==> forall msg :: msg in list ==> Mail(msg, obj, pid, -1) in r)
    decreases |list|
  {
    if list != [] {
      var n := |list| - 1;
      RegisteredTable(listen, obj, pid, list[..n]);
      var b, msg := Registered(listen, obj, pid, list[..n]), list[n];
      assert list == list[..n] + [msg];
      var x := Mail(msg, obj, pid, -1);
      RegisteredIffPresent(b, obj, pid, msg);
      if x !in b && |b| < LISTEN_MAX {
        InsertOne(b, x);
      }
    }
  }

  lemma RegisteredIffPresent(listen: seq<Mail>, obj: nat, pid: nat, msg: nat)
    requires forall m :: m in listen ==> m.idx == -1
    ensures IsRegistered(listen, obj, pid, msg) <==> Mail(msg, obj, pid, -1) in listen
  {
    if IsRegistered(listen, obj, pid, msg) {
      var i :| 0 <= i < |listen| && listen[i].obj == obj && listen[i].msg == msg && listen[i].pid == pid;
      assert listen[i] in listen && listen[i] == Mail(msg, obj, pid, -1);
    }
  }

  lemma FilterNoDuplicates(s: seq<Mail>, p: Mail -> bool)
    requires NoDuplicates(s)
    ensures NoDuplicates(Filter(s, p))
  {
    forall m
      ensures multiset(Filter(s, p))[m] <= 1
    {
      FilterMultiplicity(s, p, m);
    }
  }

  // ----- Users

  lemma UsersAfter(objects: map<(nat, nat), Life>, o: (nat, nat), life: Life, pid: nat)
    ensures Users(objects[o := life], pid)
            == if o.0 == pid && life.needWorker && !life.released then Users(objects, pid) + {o}
               else Users(objects, pid) - {o}
  {
  }

  lemma UsersWithout(objects: map<(nat, nat), Life>, o: (nat, nat), pid: nat)
    ensures Users(objects - {o}, pid) == Users(objects, pid) - {o}
  {
  }

  // ----- The steps

  lemma AttachTable(w: World, pid: nat, obj: nat, list: seq<nat>, listen: seq<Mail>)
    requires Tabled(w.region.listen) && Matched(w.region)
    requires Rearranged(listen, Registered(w.region.listen, obj, pid, list))
    ensures Tabled(listen) && Matched(w.region.(listen := listen))
  {
    hide Registered;
    RegisteredTable(w.region.listen, obj, pid, list);
    SameBag(listen, Registered(w.region.listen, obj, pid, list));
  }

  lemma AttachCounts(w: World, pid: nat, obj: nat, list: seq<nat>, listen: seq<Mail>)
    requires Counted(w) && (pid, obj) !in w.objects
    ensures Counted(Attached(w, pid, obj, list, listen))
  {
    hide Registered;
    var w', o := Attached(w, pid, obj, list, listen), (pid, obj);
    forall p: nat
      ensures p in w'.region.procs <==> Users(w'.objects, p) != {}
      ensures p in w'.region.procs ==> w'.region.procs[p] == |Users(w'.objects, p)|
    {
      UsersAfter(w.objects, o, w'.objects[o], p);
      assert o !in Users(w.objects, p);
      if p == pid && w'.objects[o].needWorker {
        assert o in Users(w'.objects, p);
      } else {
        assert Users(w'.objects, p) == Users(w.objects, p);
      }
    }
  }

  lemma ReleaseCounts(w: World, pid: nat, obj: nat)
    requires Counted(w) && (pid, obj) in w.objects && !w.objects[(pid, obj)].released
    ensures Counted(Released(w, pid, obj))
  {
    var w', o := Released(w, pid, obj), (pid, obj);
    forall p: nat
      ensures p in w'.region.procs <==> Users(w'.objects, p) != {}
      ensures p in w'.region.procs ==> w'.region.procs[p] == |Users(w'.objects, p)|
    {
      UsersAfter(w.objects, o, w'.objects[o], p);
      var before, after := Users(w.objects, p), Users(w'.objects, p);
      if p == pid && w.objects[o].needWorker {
        assert o in before && before == after + {o};
        assert |before| == |after| + 1;
      } else {
        assert after == before;
      }
    }
    assert w'.objects.Keys == w.objects.Keys;
    assert |w'.objects| == |w'.objects.Keys| == |w.objects.Keys|;
  }

  lemma DetachCounts(w: World, pid: nat, obj: nat, queue: seq<Mail>, listen: seq<Mail>)
    requires Counted(w) && (pid, obj) in w.objects && w.objects[(pid, obj)].released
    ensures Counted(Detached(w, pid, obj, queue, listen))
  {
    hide Filter, Gather;
    var w', o := Detached(w, pid, obj, queue, listen), (pid, obj);
    forall p: nat
      ensures Users(w'.objects, p) == Users(w.objects, p)
    {
      UsersWithout(w.objects, o, p);
    }
    assert w'.objects.Keys == w.objects.Keys - {o};
    assert |w.objects| == |w.objects.Keys| && |w'.objects| == |w'.objects.Keys|;
  }

  lemma TrimmedTable(listen: seq<Mail>, listen': seq<Mail>, keep: Mail -> bool)
    requires Tabled(listen) && Rearranged(listen', Filter(listen, keep))
    ensures Tabled(listen')
  {
    hide Filter;
    SameBag(listen', Filter(listen, keep));
    FilterNoDuplicates(listen, keep);
  }

  lemma DetachTable(w: World, pid: nat, obj: nat, queue: seq<Mail>, listen: seq<Mail>)
    requires Orderly(w) && Enabled(w, Detach(pid, obj, queue, listen)) && w.objects[(pid, obj)].needWorker
    ensures var r := Detached(w, pid, obj, queue, listen).region; Tabled(r.listen) && Matched(r)
  {
    TrimmedTable(w.region.listen, listen, Stays(MailOf(obj)));
    SameBag(queue, Filter(w.region.queue, Stays(MailOf(obj))));
    SameBag(listen, Filter(w.region.listen, Stays(MailOf(obj))));
    hide Filter, Gather, Counted, Tabled;
  }

  /** A notification queues only mails of listeners. */
  lemma {:induction false} FanOutMatched(r: Region, tos: seq<Mail>, n: nat, fromPid: nat, buf: seq<Byte>, clock: nat -> int)
    requires WellFormed(r) && |buf| <= PAYLOAD_MAX && n <= |tos| && Matched(r)
    requires forall m :: m in tos ==> m.(idx := -1) in r.listen
    ensures Matched(FanOut(r, tos, n, fromPid, buf, clock))
  {
    if n > 0 {
      FanOutMatched(r, tos, n - 1, fromPid, buf, clock);
      var b := FanOut(r, tos, n - 1, fromPid, buf, clock);
      SentMatched(b, tos[n - 1], fromPid, buf, clock(2 * n - 2), clock(2 * n - 1));
      hide Sent;
    }
  }

  lemma SentMatched(r: Region, to: Mail, fromPid: nat, buf: seq<Byte>, allocMs: int, sentMs: int)
    requires WellFormed(r) && |buf| <= PAYLOAD_MAX && Matched(r) && to.(idx := -1) in r.listen
    ensures Matched(Sent(r, to, fromPid, buf, allocMs, sentMs))
    ensures Sent(r, to, fromPid, buf, allocMs, sentMs).listen == r.listen
  {
    hide NextSlot, Filled, Cleared;
  }

  lemma StepCounted(w: World, e: Event, w': World)
    requires Counted(w) && Next(w, e, w')
    ensures Counted(w')
  {
    hide Gather, Registered, Filter, Counted, WellFormed, Collected, FanOut;
    match e
    case Attach(pid, obj, list, listen) => AttachCounts(w, pid, obj, list, listen);
    case Release(pid, obj) => ReleaseCounts(w, pid, obj);
    case Detach(pid, obj, queue, listen) => DetachCounts(w, pid, obj, queue, listen);
    case _ => SameCounts(w, w');
  }

  lemma StepTabled(w: World, e: Event, w': World)
    requires Orderly(w) && Next(w, e, w')
    ensures Tabled(w'.region.listen) && Matched(w'.region)
  {
    hide Gather, Registered, Counted, Tabled;
    match e
    case Attach(pid, obj, list, listen) => AttachTable(w, pid, obj, list, listen);
    case AddListen(pid, obj, target, list, listen) => AttachTable(w, pid, target, list, listen);
    case Notify(pid, obj, msg, buf, clock) =>
      var tos := Recipients(w.region.listen, msg, obj);
      NoSlotInTable(w.region.listen);
      FanOutMatched(w.region, tos, |tos|, pid, buf, clock);
    case Drain(k, queue) =>
      SameBag(queue, Filter(w.region.queue, Stays(OwnMail(w.workers[k].pid))));
    case Detach(pid, obj, queue, listen) =>
      if w.objects[(pid, obj)].needWorker {
        DetachTable(w, pid, obj, queue, listen);
      }
    case _ =>
  }

  /** Every step keeps the tables in order. */
  lemma StepOrderly(w: World, e: Event, w': World)
    requires Orderly(w) && Next(w, e, w')
    ensures Orderly(w')
  {
    StepWellFormed(w, e, w');
    StepCounted(w, e, w');
    StepTabled(w, e, w');
  }

  lemma NoSlotInTable(listen: seq<Mail>)
    requires Tabled(listen)
    ensures forall m :: m in listen ==> m.(idx := -1) in listen
  {
    forall m | m in listen
      ensures m.(idx := -1) in listen
    {
      assert m.(idx := -1) == m;
    }
  }

  lemma SameCounts(w: World, w': World)
    requires Counted(w)
    requires w'.objects == w.objects && w'.region.procs == w.region.procs && w'.region.instances == w.region.instances
    ensures Counted(w')
  {
  }

  // ----- Listeners and the life of their objects

  /** A registration keeps listeners alive exactly when it adds none, or adds them for a live listening object. */
  lemma AddListenTracked(w: World, pid: nat, obj: nat, target: nat, list: seq<nat>, listen: seq<Mail>)
    requires Orderly(w) && Tracked(w) && Enabled(w, AddListen(pid, obj, target, list, listen))
    ensures Tracked(Step(w, AddListen(pid, obj, target, list, listen))) <==>
              || |listen| == |w.region.listen|
              || Tracks(w.objects, Mail(0, target, pid, -1))
  {
    var added := Registered(w.region.listen, target, pid, list);
    RegisteredTable(w.region.listen, target, pid, list);
    SameBag(listen, added);
    hide Registered;
    if |listen| > |w.region.listen| {
      var x := added[|w.region.listen|];
      assert x in listen;
      RegisteredNew(w.region.listen, added, target, pid, x);
    } else {
      assert added == w.region.listen;
    }
  }

  lemma RegisteredNew(listen: seq<Mail>, added: seq<Mail>, obj: nat, pid: nat, x: Mail)
    requires listen < added && NoDuplicates(added) && x == added[|listen|]
    requires forall m :: m in added ==> m in listen || (m.obj == obj && m.pid == pid)
    ensures x.obj == obj && x.pid == pid
  {
    forall i | 0 <= i < |listen|
      ensures listen[i] != x
    {
      DistinctPlaces(added, i, |listen|);
    }
  }

  lemma DistinctPlaces(s: seq<Mail>, i: nat, j: nat)
    requires NoDuplicates(s) && i < j < |s|
    ensures s[i] != s[j]
  {
    var a, b := s[..j], s[j..];
    assert s == a + b && a[i] == s[i] && b[0] == s[j];
    assert multiset(s)[s[i]] == multiset(a)[s[i]] + multiset(b)[s[i]];
    assert s[i] in multiset(a) && s[j] in multiset(b);
  }

  /** Objects register for themselves, or at least for live listening objects of their process. */
  ghost predicate Considerate(w: World, e: Event) {
    e.AddListen? ==>
      |e.listen| == |w.region.listen| || Tracks(w.objects, Mail(0, e.target, e.pid, -1))
  }

  lemma AttachTracked(w: World, pid: nat, obj: nat, list: seq<nat>, listen: seq<Mail>)
    requires Orderly(w) && Tracked(w) && Enabled(w, Attach(pid, obj, list, listen))
    ensures Tracked(Attached(w, pid, obj, list, listen))
  {
    var added := Registered(w.region.listen, obj, pid, list);
    RegisteredTable(w.region.listen, obj, pid, list);
    SameBag(listen, added);
    hide Registered;
    if |added| == |w.region.listen| {
      assert added == w.region.listen;
    }
  }

  lemma StepTracked(w: World, e: Event, w': World)
    requires Orderly(w) && Tracked(w) && Next(w, e, w') && Considerate(w, e)
    ensures Tracked(w')
  {
    hide Gather, Registered, Orderly, Notified;
    match e
    case Attach(pid, obj, list, listen) => AttachTracked(w, pid, obj, list, listen);
    case AddListen(pid, obj, target, list, listen) => AddListenTracked(w, pid, obj, target, list, listen);
    case Notify(pid, obj, msg, buf, clock) => NotifiedTables(w.region, obj, pid, msg, buf, clock);
    case Detach(pid, obj, queue, listen) =>
      if w.objects[(pid, obj)].needWorker {
        SameBag(listen, Filter(w.region.listen, Stays(MailOf(obj))));
      } else {
        NotATarget(w, pid, obj);
      }
    case _ =>
  }

  lemma NotifiedTables(r: Region, from: nat, fromPid: nat, msg: nat, buf: seq<Byte>, clock: nat -> int)
    requires WellFormed(r) && |buf| <= PAYLOAD_MAX
    ensures Notified(r, from, fromPid, msg, buf, clock).listen == r.listen
  {
  }

  lemma NotATarget(w: World, pid: nat, obj: nat)
    requires Tracked(w) && (pid, obj) in w.objects && !w.objects[(pid, obj)].needWorker
    ensures forall m :: m in w.region.listen ==> (m.pid, m.obj) != (pid, obj)
  {
  }

  /** After the second phase of its destructor no mail and no listener of the object is left. */
  lemma DetachCleans(w: World, pid: nat, obj: nat, queue: seq<Mail>, listen: seq<Mail>)
    requires Enabled(w, Detach(pid, obj, queue, listen)) && w.objects[(pid, obj)].needWorker
    ensures var r := Detached(w, pid, obj, queue, listen).region;
            forall m :: m in r.queue || m in r.listen ==> m.obj != obj && m.msg != 0
  {
    SameBag(queue, Filter(w.region.queue, Stays(MailOf(obj))));
    SameBag(listen, Filter(w.region.listen, Stays(MailOf(obj))));
  }

  /** Nothing but the mails and listeners of that address, and of message 0, is taken away. */
  lemma DetachTakesExactly(w: World, pid: nat, obj: nat, queue: seq<Mail>, listen: seq<Mail>, m: Mail)
    requires Enabled(w, Detach(pid, obj, queue, listen)) && w.objects[(pid, obj)].needWorker
    ensures var r := Detached(w, pid, obj, queue, listen).region;
            && multiset(r.queue)[m] == (if m.obj == obj || m.msg == 0 then 0 else multiset(w.region.queue)[m])
            && multiset(r.listen)[m] == (if m.obj == obj || m.msg == 0 then 0 else multiset(w.region.listen)[m])
  {
    FilterMultiplicity(w.region.queue, Stays(MailOf(obj)), m);
    FilterMultiplicity(w.region.listen, Stays(MailOf(obj)), m);
    hide Filter, Gather;
  }

  /** A drain takes exactly the process's own mails, in queue order, and leaves every other one except those of message 0. */
  lemma DrainTakesExactly(w: World, k: nat, queue: seq<Mail>, m: Mail)
    requires Enabled(w, Drain(k, queue))
    ensures var w', pid := Drained(w, k, queue), w.workers[k].pid;
            var own := m.msg != 0 && m.obj != 0 && m.pid == pid;
            && multiset(w'.workers[k].batch)[m] == (if own then multiset(w.region.queue)[m] else 0)
            && multiset(w'.region.queue)[m] == (if own || m.msg == 0 then 0 else multiset(w.region.queue)[m])
            && w'.workers[k].pid == pid
            && forall l :: 0 <= l < |w.workers| && l != k ==> w'.workers[l] == w.workers[l]
  {
    FilterMultiplicity(w.region.queue, OwnMail(w.workers[k].pid), m);
    FilterMultiplicity(w.region.queue, Stays(OwnMail(w.workers[k].pid)), m);
    hide Filter, Gather;
  }

  /** Which payload slots a destructor costs: those of the mails it drops, so none exactly if they carry none. */
  lemma DetachLeaksExactly(w: World, pid: nat, obj: nat, queue: seq<Mail>, listen: seq<Mail>)
    requires Enabled(w, Detach(pid, obj, queue, listen)) && w.objects[(pid, obj)].needWorker
    ensures Detached(w, pid, obj, queue, listen).leaked == w.leaked <==>
              forall m :: m in w.region.queue && (m.obj == obj || m.msg == 0) ==> m.idx < 0
  {
    var gone := Filter(w.region.queue, Goes(MailOf(obj)));
    GatherNothing(gone);
    hide Gather;
    AddsNothing(w.leaked, Gather(gone, SlotBag()));
  }

  lemma AddsNothing(was: multiset<int>, lost: multiset<int>)
    ensures was + lost == was <==> lost == multiset{}
  {
    if was + lost == was {
      forall x: int
        ensures lost[x] == multiset{}[x]
      {
        assert (was + lost)[x] == was[x];
      }
    }
  }

  lemma {:induction false} GatherNothing(ms: seq<Mail>)
    ensures Gather(ms, SlotBag()) == multiset{} <==> forall m :: m in ms ==> m.idx < 0
  {
    if ms != [] {
      GatherNothing(ms[1..]);
      assert ms == [ms[0]] + ms[1..];
      if ms[0].idx >= 0 {
        assert Gather(ms, SlotBag())[ms[0].idx] > 0;
      }
    }
  }
}
