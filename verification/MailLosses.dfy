/**
 What the mailbox loses, exactly when: payload slots, and the registrations of
 live objects. Mails are matched to objects by address alone, and message 0
 marks an empty cell; both have a price.
 */
module MailLosses {
  import opened Options
  import opened Bags
  import opened Mailboxes
  import opened MailOwnership
  import opened MailLifecycle
  import opened MailLifeRuns
  import MailRuns

  // ----- Slots

  /** A worker trims the mails of message 0 that it does not take; a destructor trims those, and the ones of its object. */
  ghost predicate LosesSlot(w: World, e: Event) {
    match e
    case Drain(_, _) => exists m :: m in w.region.queue && m.msg == 0 && m.idx >= 0
    case Detach(pid, obj, _, _) =>
      && (pid, obj) in w.objects && w.objects[(pid, obj)].needWorker
      && exists m :: m in w.region.queue && (m.obj == obj || m.msg == 0) && m.idx >= 0
    case _ => false
  }

  /** Which payload slots a drain costs: those of the queued mails of message 0. */
  lemma DrainLeaksExactly(w: World, k: nat, queue: seq<Mail>)
    requires Enabled(w, Drain(k, queue))
    ensures Drained(w, k, queue).leaked == w.leaked <==> forall m :: m in w.region.queue && m.msg == 0 ==> m.idx < 0
  {
    var gone := Filter(w.region.queue, Trimmed(OwnMail(w.workers[k].pid)));
    GatherNothing(gone);
    hide Gather;
    AddsNothing(w.leaked, Gather(gone, SlotBag()));
  }

  /** A step loses no slot if and only if no payload mail is trimmed by it. */
  lemma StepLosesExactly(w: World, e: Event, w': World)
    requires Next(w, e, w')
    ensures w'.leaked == w.leaked <==> !LosesSlot(w, e)
  {
    hide Gather, Filter, Notified, AttachedRegion, Registered;
    match e
    case Drain(k, queue) => DrainLeaksExactly(w, k, queue);
    case Detach(pid, obj, queue, listen) =>
      if w.objects[(pid, obj)].needWorker {
        DetachLeaksExactly(w, pid, obj, queue, listen);
      }
    case _ =>
  }

  /** Over any stretch of a run no slot is lost if and only if none of its steps trims a payload mail. */
  lemma {:induction false} LossFreeExactly(ws: seq<World>, es: seq<Event>, a: nat, b: nat)
    requires IsRun(ws, es) && a <= b < |ws|
    ensures ws[a].leaked <= ws[b].leaked
    ensures ws[b].leaked == ws[a].leaked <==> forall i :: a <= i < b ==> !LosesSlot(ws[i], es[i])
    decreases b
  {
    hide Next, LosesSlot;
    if a < b {
      LossFreeExactly(ws, es, a, b - 1);
      MailRuns.StepLeaksMore(ws[b - 1], es[b - 1], ws[b]);
      StepLosesExactly(ws[b - 1], es[b - 1], ws[b]);
    }
  }

  /** Workers lose slots only while somebody is registered for message 0. */
  lemma WorkerLosesOnlyZero(ws: seq<World>, es: seq<Event>, i: nat)
    requires IsRun(ws, es) && Initial(ws[0]) && i < |es| && es[i].Drain? && LosesSlot(ws[i], es[i])
    ensures exists m :: m in ws[i].region.listen && m.msg == 0
  {
    AlwaysOrderly(ws, es, i);
    var m :| m in ws[i].region.queue && m.msg == 0 && m.idx >= 0;
    assert m.(idx := -1) in ws[i].region.listen;
  }

  /** No worker holds a mail of message 0, and none was ever delivered. */
  ghost predicate ZeroUndelivered(w: World) {
    && (forall k, m :: 0 <= k < |w.workers| && m in w.workers[k].batch ==> m.msg != 0)
    && (forall l :: l in w.delivered ==> l.msg != 0)
  }

  lemma StepZero(w: World, e: Event, w': World)
    requires ZeroUndelivered(w) && Next(w, e, w')
    ensures ZeroUndelivered(w')
  {
    hide Gather, Filter, Notified, AttachedRegion, Registered, LetterBag, SlotBag, SentBag, WellFormed, Collected;
    match e
    case Begin(k) => HeadDelivered(w, k, w'); hide Begun;
    case End(k, _) => HeadDelivered(w, k, w'); hide Ended;
    case _ =>
  }

  /** A worker that is done with a mail has delivered it, if anything. */
  lemma HeadDelivered(w: World, k: nat, w': World)
    requires ZeroUndelivered(w) && k < |w.workers| && w.workers[k].batch != []
    requires w' == Begun(w, k) || exists now :: w' == Ended(w, k, now)
    ensures ZeroUndelivered(w')
  {
    hide WellFormed, MarkedProcessed, Bytes, SlotMatches;
    assert w.workers[k].batch[0] in w.workers[k].batch;
  }

  /** Mails of message 0 are accepted but never delivered. */
  lemma {:induction false} ZeroNeverDelivered(ws: seq<World>, es: seq<Event>, i: nat)
    requires IsRun(ws, es) && Initial(ws[0]) && i < |ws|
    ensures ZeroUndelivered(ws[i])
  {
    if i > 0 {
      hide Next, ZeroUndelivered;
      ZeroNeverDelivered(ws, es, i - 1);
      StepZero(ws[i - 1], es[i - 1], ws[i]);
    }
  }

  // ----- Recipients

  /** The listeners of a message other than one object, known by process and address. */
  function ListensBeside(msg: nat, pid: nat, obj: nat): Mail -> bool {
    (m: Mail) => m.msg == msg && (m.pid, m.obj) != (pid, obj)
  }

  lemma {:induction false} FilterSame(s: seq<Mail>, p: Mail -> bool, q: Mail -> bool)
    requires forall m :: m in s ==> p(m) == q(m)
    ensures Filter(s, p) == Filter(s, q)
  {
    if s != [] {
      FilterSame(s[1..], p, q);
    }
  }

  /**
   A notification is meant for the listeners of the message other than the
   sender exactly if no other process listens to it at the sender's address.
   */
  lemma RecipientsExactly(listen: seq<Mail>, msg: nat, from: nat, fromPid: nat)
    ensures Recipients(listen, msg, from) == Filter(listen, ListensBeside(msg, fromPid, from))
            <==> forall m :: m in listen && m.msg == msg && m.obj == from ==> m.pid == fromPid
  {
    var p, q := IsRecipient(msg, from), ListensBeside(msg, fromPid, from);
    if forall m :: m in listen && m.msg == msg && m.obj == from ==> m.pid == fromPid {
      FilterSame(listen, p, q);
    } else {
      hide Filter;
      var m :| m in listen && m.msg == msg && m.obj == from && m.pid != fromPid;
      assert m in Filter(listen, q) && m !in Filter(listen, p);
    }
  }

  // ----- Registrations

  /** The step drops a registration: the destructor of a listening object at its address, or any such if its message is 0. */
  ghost predicate DropsListener(w: World, e: Event, m: Mail) {
    && e.Detach?
    && (e.pid, e.obj) in w.objects && w.objects[(e.pid, e.obj)].needWorker
    && (e.obj == m.obj || m.msg == 0)
  }

  lemma StepDropsExactly(w: World, e: Event, w': World, m: Mail)
    requires Next(w, e, w') && m in w.region.listen
    ensures m in w'.region.listen <==> !DropsListener(w, e, m)
  {
    hide Gather, Filter, Notified, Registered;
    match e
    case Attach(pid, obj, list, listen) => SameBag(listen, Registered(w.region.listen, obj, pid, list));
    case AddListen(pid, obj, target, list, listen) => SameBag(listen, Registered(w.region.listen, target, pid, list));
    case Notify(pid, obj, msg, buf, clock) => NotifiedTables(w.region, obj, pid, msg, buf, clock);
    case Detach(pid, obj, queue, listen) =>
      if w.objects[(pid, obj)].needWorker {
        SameBag(listen, Filter(w.region.listen, Stays(MailOf(obj))));
      }
    case _ =>
  }

  /** A registration stays in the table over a stretch of a run if and only if no step of it drops it. */
  lemma {:induction false} RegistrationStays(ws: seq<World>, es: seq<Event>, a: nat, b: nat, m: Mail)
    requires IsRun(ws, es) && a <= b < |ws| && m in ws[a].region.listen
    ensures (forall i :: a <= i <= b ==> m in ws[i].region.listen)
            <==> forall i :: a <= i < b ==> !DropsListener(ws[i], es[i], m)
    decreases b
  {
    hide Next, DropsListener;
    if a < b {
      RegistrationStays(ws, es, a, b - 1, m);
      if m in ws[b - 1].region.listen {
        StepDropsExactly(ws[b - 1], es[b - 1], ws[b], m);
      }
    }
  }

  /** A listening object of another process at the address of m's object is destroyed. */
  ghost predicate DetachesNamesake(w: World, e: Event, m: Mail) {
    DropsListener(w, e, m) && e.obj == m.obj && e.pid != m.pid
  }

  /** The object of m is alive and has not entered its destructor. */
  ghost predicate Unreleased(w: World, m: Mail) {
    (m.pid, m.obj) in w.objects && !w.objects[(m.pid, m.obj)].released
  }

  /**
   While its object is alive and not released, a registration for a nonzero
   message stays in the table if and only if no listening object of another
   process at the same address is destroyed.
   */
  lemma LiveListenerStays(ws: seq<World>, es: seq<Event>, a: nat, b: nat, m: Mail)
    requires IsRun(ws, es) && a <= b < |ws| && m in ws[a].region.listen && m.msg != 0
    requires forall i :: a <= i < b ==> Unreleased(ws[i], m)
    ensures (forall i :: a <= i <= b ==> m in ws[i].region.listen)
            <==> forall i :: a <= i < b ==> !DetachesNamesake(ws[i], es[i], m)
  {
    RegistrationStays(ws, es, a, b, m);
    forall i | a <= i < b
      ensures DropsListener(ws[i], es[i], m) <==> DetachesNamesake(ws[i], es[i], m)
    {
      assert Next(ws[i], es[i], ws[i + 1]) && Unreleased(ws[i], m);
    }
    hide IsRun, DropsListener, DetachesNamesake;
  }

  // ----- Runs that show each loss

  /** A worker loses the slot of a payload sent as message 0; no object is destroyed. */
  lemma DrainedSlot(w0: World) returns (ws: seq<World>, es: seq<Event>)
    requires Initial(w0)
    ensures IsRun(ws, es) && ws[0] == w0 && SentByObjects(ws, es)
    ensures forall i :: 0 <= i < |es| ==> es[i].Attach? || es[i].Notify? || es[i].Drain?
    ensures var w := ws[|es|];
            w.region.queue == [] && w.leaked == multiset{0} && |w.region.slots| == PAYLOAD_SLOTS && IsLive(w.region.slots[0])
  {
    hide IsRun, Enabled, Step, SentByObjects, Initial;
    var clock: nat -> int := (n: nat) => 0;
    ws, es := FirstListener(w0, 0);
    ws, es := AddSender(ws, es, Mail(0, 10, 1, -1));
    PayloadSent(ws[|es|], 0, clock);
    ws, es := RunOn(ws, es, Notify(2, 30, 0, [7], clock));
    ZeroTrimmed(ws[|es|]);
    ws, es := RunOn(ws, es, Drain(0, []));
  }

  lemma ZeroTrimmed(w: World)
    requires w.workers == [Worker(1, [], None)] && w.region.queue == [Mail(0, 10, 1, 0)] && w.leaked == multiset{}
    requires WellFormed(w.region)
    ensures Enabled(w, Drain(0, []))
    ensures var w' := Step(w, Drain(0, []));
            w'.leaked == multiset{0} && w'.region == w.region.(queue := [])
  {
    var gone := w.region.queue;
    FilterNone(gone, Stays(OwnMail(1)));
    FilterAll(gone, Trimmed(OwnMail(1)));
    GatherOne(gone[0], SlotBag());
    hide Gather, Filter;
  }

  /** Two processes have a listening object each, at the same address. */
  lemma Namesakes(w0: World) returns (ws: seq<World>, es: seq<Event>)
    requires Initial(w0)
    ensures IsRun(ws, es) && ws[0] == w0 && SentByObjects(ws, es)
    ensures var w := ws[|es|];
            && WellFormed(w.region) && w.region.queue == []
            && w.region.listen == [Mail(5, 10, 1, -1), Mail(5, 10, 2, -1)]
            && w.objects == map[(1, 10) := Life(true, false), (2, 10) := Life(true, false)]
  {
    var one, two := Mail(5, 10, 1, -1), Mail(5, 10, 2, -1);
    hide IsRun, SentByObjects, Initial;
    ws, es := FirstListener(w0, 5);
    NamesakeAdded(ws[|es|]);
    hide Enabled, Step, WellFormed;
    ws, es := RunOn(ws, es, Attach(2, 10, [5], [one, two]));
  }

  lemma NamesakeAdded(w: World)
    requires WellFormed(w.region) && w.region.listen == [Mail(5, 10, 1, -1)]
    requires w.objects == map[(1, 10) := Life(true, false)]
    ensures var e := Attach(2, 10, [5], [Mail(5, 10, 1, -1), Mail(5, 10, 2, -1)]);
            && Enabled(w, e)
            && var w' := Step(w, e);
               && w'.region.listen == e.listen && w'.region.queue == w.region.queue
               && w'.objects == map[(1, 10) := Life(true, false), (2, 10) := Life(true, false)]
  {
    var one, two := Mail(5, 10, 1, -1), Mail(5, 10, 2, -1);
    assert Registered([one], 10, 2, [5][..0]) == [one];
    assert Registered([one], 10, 2, [5]) == [one, two];
  }

  lemma NobodyElse(r: Region, clock: nat -> int)
    requires WellFormed(r) && r.listen == [Mail(5, 10, 1, -1), Mail(5, 10, 2, -1)]
    ensures Notified(r, 10, 1, 5, [], clock) == r
  {
    FilterNone(r.listen, IsRecipient(5, 10));
    assert Recipients(r.listen, 5, 10) == [];
  }

  /**
   The object of process 2 gets nothing from the one of process 1, and loses its
   registration when that one is destroyed, though it is alive itself.
   */
  lemma NamesakeLoses(w0: World) returns (ws: seq<World>, es: seq<Event>, n: nat)
    requires Initial(w0)
    ensures IsRun(ws, es) && ws[0] == w0 && SentByObjects(ws, es) && n < |es|
    ensures Mail(5, 10, 2, -1) in ws[n].region.listen
    ensures es[n].Notify? && es[n].pid == 1 && es[n].obj == 10 && es[n].msg == 5 && ws[n + 1].region.queue == []
    ensures var w := ws[|es|]; w.region.listen == [] && w.objects == map[(2, 10) := Life(true, false)]
  {
    var two, clock: nat -> int := Mail(5, 10, 2, -1), (k: nat) => 0;
    ws, es := Namesakes(w0);
    n := |es|;
    assert ws[n].region.listen[1] == two;
    OneGoes(ws[n], clock);
    hide IsRun, Enabled, Step, WellFormed, SentByObjects;
    var ws1, es1 := RunOn(ws, es, Notify(1, 10, 5, [], clock));
    var ws2, es2 := RunOn(ws1, es1, Release(1, 10));
    ws, es := RunOn(ws2, es2, Detach(1, 10, [], []));
  }

  lemma OneGoes(w: World, clock: nat -> int)
    requires WellFormed(w.region) && w.region.queue == []
    requires w.region.listen == [Mail(5, 10, 1, -1), Mail(5, 10, 2, -1)]
    requires w.objects == map[(1, 10) := Life(true, false), (2, 10) := Life(true, false)]
    ensures Enabled(w, Notify(1, 10, 5, [], clock))
    ensures var w1 := Step(w, Notify(1, 10, 5, [], clock));
            && WellFormed(w1.region) && w1.region.queue == [] && Enabled(w1, Release(1, 10))
            && var w2 := Step(w1, Release(1, 10));
               && WellFormed(w2.region) && Enabled(w2, Detach(1, 10, [], []))
               && var w3 := Step(w2, Detach(1, 10, [], []));
                  w3.region.listen == [] && w3.objects == map[(2, 10) := Life(true, false)]
  {
    NobodyElse(w.region, clock);
    LastNamesake(w);
    hide Filter, Gather, Notified, Released, Detached, LetterBag, SentBag;
    assert Step(w, Notify(1, 10, 5, [], clock)) == w;
  }

  lemma LastNamesake(w: World)
    requires WellFormed(w.region) && w.region.queue == []
    requires w.region.listen == [Mail(5, 10, 1, -1), Mail(5, 10, 2, -1)]
    requires w.objects == map[(1, 10) := Life(true, false), (2, 10) := Life(true, false)]
    ensures var w2 := Released(w, 1, 10);
            && WellFormed(w2.region) && Enabled(w2, Detach(1, 10, [], []))
            && var w3 := Detached(w2, 1, 10, [], []);
               w3.region.listen == [] && w3.objects == map[(2, 10) := Life(true, false)]
  {
    var w2 := Released(w, 1, 10);
    assert w2.region.listen == w.region.listen && w2.region.queue == [] && WellFormed(w2.region);
    assert w2.objects == map[(1, 10) := Life(true, true), (2, 10) := Life(true, false)];
    hide WellFormed, Released, Enabled, Detached;
    ReleasedGoes(w2);
  }

  lemma ReleasedGoes(w: World)
    requires w.region.queue == [] && w.region.listen == [Mail(5, 10, 1, -1), Mail(5, 10, 2, -1)]
    requires w.objects == map[(1, 10) := Life(true, true), (2, 10) := Life(true, false)]
    ensures Enabled(w, Detach(1, 10, [], []))
    ensures var w' := Detached(w, 1, 10, [], []);
            w'.region.listen == [] && w'.objects == map[(2, 10) := Life(true, false)]
  {
    hide Filter, Gather, Purged, LetterBag, SlotBag;
    FilterNone(w.region.listen, Stays(MailOf(10)));
    FilterNone([], Stays(MailOf(10)));
  }
}
