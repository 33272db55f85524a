/**
 The mailbox can be emptied: in runs whose registrations are for live listening
 objects, the workers alone can deliver whatever waits for unreleased objects.
 */
module MailDelivery {
  import opened Options
  import opened Bags
  import opened Mailboxes
  import opened MailOwnership
  import opened MailLifecycle
  import opened MailLifeRuns
  import MailRuns
  import MailLosses
  import FV = FixVectors

  // ----- Every listening object has a worker

  ghost predicate HasWorker(workers: seq<Worker>, pid: nat) {
    exists k :: 0 <= k < |workers| && workers[k].pid == pid
  }

  /** The process of every listening object has a worker, and no object is at address 0. */
  ghost predicate Staffed(w: World) {
    && (forall o :: o in w.objects && w.objects[o].needWorker ==> HasWorker(w.workers, o.0))
    && (forall o :: o in w.objects ==> o.1 != 0)
  }

  lemma MoreWorkers(workers: seq<Worker>, workers': seq<Worker>, pid: nat)
    requires HasWorker(workers, pid) && |workers| <= |workers'|
    requires forall k :: 0 <= k < |workers| ==> workers'[k].pid == workers[k].pid
    ensures HasWorker(workers', pid)
  {
    var k :| 0 <= k < |workers| && workers[k].pid == pid;
    assert workers'[k].pid == pid;
  }

  /** A process that is in the table already has a user, hence a worker; the first user brings one. */
  lemma AttachStaffed(w: World, pid: nat, obj: nat, list: seq<nat>, listen: seq<Mail>)
    requires Staffed(w) && Counted(w) && obj != 0
    ensures Staffed(Attached(w, pid, obj, list, listen))
  {
    hide Registered;
    var w' := Attached(w, pid, obj, list, listen);
    if w'.objects[(pid, obj)].needWorker {
      if |w'.workers| > |w.workers| {
        assert w'.workers[|w.workers|].pid == pid;
      } else {
        assert Users(w.objects, pid) != {};
        var o :| o in Users(w.objects, pid);
        MoreWorkers(w.workers, w'.workers, pid);
      }
    }
    forall o | o in w'.objects && w'.objects[o].needWorker
      ensures HasWorker(w'.workers, o.0)
    {
      if o != (pid, obj) {
        MoreWorkers(w.workers, w'.workers, o.0);
      }
    }
  }

  lemma StepStaffed(w: World, e: Event, w': World)
    requires Staffed(w) && Counted(w) && Next(w, e, w')
    ensures Staffed(w')
  {
    if e.Attach? {
      AttachStaffed(w, e.pid, e.obj, e.list, e.listen);
    } else {
      SamePids(w, e, w');
      hide Next, HasWorker, Counted;
      forall o | o in w'.objects && w'.objects[o].needWorker
        ensures HasWorker(w'.workers, o.0)
      {
        MoreWorkers(w.workers, w'.workers, o.0);
      }
    }
  }

  /** A worker is started exactly when its process enters the process table, at the constructor of a listening object. */
  lemma StepHires(w: World, e: Event, w': World)
    requires Counted(w) && Next(w, e, w')
    ensures forall pid: nat :: pid in w'.region.procs && pid !in w.region.procs ==> e.Attach? && e.pid == pid
    ensures if e.Attach? && e.pid in w'.region.procs && e.pid !in w.region.procs
            then w'.workers == w.workers + [Worker(e.pid, [], None)]
            else |w'.workers| == |w.workers|
  {
    if e.Attach? {
      if e.pid in w.region.procs {
        assert Users(w.objects, e.pid) != {};
      }
      hide Registered, Counted, WellFormed;
    } else {
      hide Gather, Filter, Notified, Registered, WellFormed, Collected, Counted;
      NotifyKeepsProcs(w, e, w');
    }
  }

  lemma NotifyKeepsProcs(w: World, e: Event, w': World)
    requires Next(w, e, w') && !e.Attach?
    ensures forall pid: nat :: pid in w'.region.procs ==> pid in w.region.procs
  {
    hide Gather, Filter, Registered, WellFormed, Collected, FanOut;
  }

  lemma SamePids(w: World, e: Event, w': World)
    requires Next(w, e, w') && !e.Attach?
    ensures |w'.workers| == |w.workers|
    ensures forall k :: 0 <= k < |w.workers| ==> w'.workers[k].pid == w.workers[k].pid
    ensures forall o :: o in w'.objects ==> o in w.objects && w'.objects[o].needWorker == w.objects[o].needWorker
  {
    hide Gather, Filter, Notified, Registered, WellFormed, Collected;
  }

  lemma OrderlyCounts(w: World)
    requires Orderly(w)
    ensures Counted(w)
  {
  }

  lemma {:induction false} AlwaysStaffed(ws: seq<World>, es: seq<Event>, i: nat)
    requires IsRun(ws, es) && Initial(ws[0]) && i < |ws|
    ensures Staffed(ws[i])
  {
    if i > 0 {
      hide Next, Staffed, Initial, Counted, Orderly;
      AlwaysOrderly(ws, es, i - 1);
      OrderlyCounts(ws[i - 1]);
      AlwaysStaffed(ws, es, i - 1);
      StepStaffed(ws[i - 1], es[i - 1], ws[i]);
    }
  }

  /** The workers of the processes in the table can take the mail. */
  ghost predicate Servable(w: World, m: Mail) {
    m.obj != 0 && m.pid in w.region.procs && HasWorker(w.workers, m.pid)
  }

  /**
   The process of every queued mail has a worker, and is in the process table if
   the object has not been released.
   */
  lemma QueuedServable(ws: seq<World>, es: seq<Event>, i: nat, m: Mail)
    requires IsRun(ws, es) && Initial(ws[0]) && i < |ws| && ConsiderateRun(ws, es, i)
    requires m in ws[i].region.queue
    ensures HasWorker(ws[i].workers, m.pid) && m.obj != 0
    ensures MailLosses.Unreleased(ws[i], m) ==> Servable(ws[i], m)
  {
    AlwaysStaffed(ws, es, i);
    ListenersLive(ws, es, i);
    AlwaysTracked(ws, es, i);
    AlwaysOrderly(ws, es, i);
    hide IsRun, Initial, ConsiderateRun, Counted, Tabled, WellFormed, HasWorker;
    assert m.(idx := -1) in ws[i].region.listen;
    assert Tracks(ws[i].objects, m.(idx := -1));
  }

  // ----- Progress

  /** A step of delivery that gets on: a worker whose process is in the table takes or trims a mail, or a callback begins or ends. */
  ghost predicate Delivers(w: World, e: Event) {
    match e
    case Drain(k, _) =>
      && k < |w.workers| && w.workers[k].pid in w.region.procs
      && exists m :: m in w.region.queue && (OwnMail(w.workers[k].pid)(m) || m.msg == 0)
    case Begin(_) | End(_, _) => true
    case _ => false
  }

  function WorkerLeft(wk: Worker): nat {
    if wk.batch == [] then 0 else 2 * |wk.batch| - if wk.reading.Some? then 1 else 0
  }

  function WorkersLeft(workers: seq<Worker>): nat {
    if workers == [] then 0 else WorkerLeft(workers[0]) + WorkersLeft(workers[1..])
  }

  /** Three steps for each queued mail, two for each drained one, of which a running callback has done one. */
  function DeliveryLeft(w: World): nat {
    3 * |w.region.queue| + WorkersLeft(w.workers)
  }

  lemma {:induction false} LeftUpdate(workers: seq<Worker>, k: nat, wk: Worker)
    requires k < |workers|
    ensures WorkersLeft(workers[k := wk]) + WorkerLeft(workers[k]) == WorkersLeft(workers) + WorkerLeft(wk)
  {
    if k == 0 {
      assert workers[k := wk][1..] == workers[1..];
    } else {
      LeftUpdate(workers[1..], k - 1, wk);
      assert workers[k := wk][1..] == workers[1..][k - 1 := wk];
    }
  }

  /** Every mail is taken, trimmed, or stays. */
  lemma {:induction false} Parted(s: seq<Mail>, taken: Mail -> bool)
    requires forall m :: m in s && taken(m) ==> m.msg != 0
    ensures |Filter(s, taken)| + |Filter(s, Trimmed(taken))| + |Filter(s, Stays(taken))| == |s|
  {
    if s != [] {
      Parted(s[1..], taken);
    }
  }

  lemma DrainLeft(w: World, k: nat, queue: seq<Mail>)
    requires Enabled(w, Drain(k, queue)) && Delivers(w, Drain(k, queue)) && w.workers[k].reading.None?
    ensures DeliveryLeft(Drained(w, k, queue)) < DeliveryLeft(w)
    ensures forall m :: m in queue ==> m in w.region.queue
  {
    var own := OwnMail(w.workers[k].pid);
    Parted(w.region.queue, own);
    SameBag(queue, Filter(w.region.queue, Stays(own)));
    LeftUpdate(w.workers, k, Drained(w, k, queue).workers[k]);
    var m :| m in w.region.queue && (own(m) || m.msg == 0);
    assert m in Filter(w.region.queue, own) || m in Filter(w.region.queue, Trimmed(own));
    hide Gather, Filter, WorkersLeft;
  }

  /** Delivery leaves tables and objects alone, and purges nothing unless mails of message 0 were queued. */
  ghost predicate SameButDelivered(w: World, w': World) {
    && w'.region.procs == w.region.procs && w'.objects == w.objects && w'.accepted == w.accepted
    && (forall m :: m in w'.region.queue ==> m in w.region.queue)
    && ((forall m :: m in w.region.queue ==> m.msg != 0) ==> w'.purged == w.purged)
  }

  lemma DrainSame(w: World, k: nat, queue: seq<Mail>)
    requires Enabled(w, Drain(k, queue))
    ensures SameButDelivered(w, Drained(w, k, queue))
  {
    hide Gather, Filter, LetterBag, SlotBag;
    SameBag(queue, Filter(w.region.queue, Stays(OwnMail(w.workers[k].pid))));
    if forall m :: m in w.region.queue ==> m.msg != 0 {
      NothingTrimmed(w, OwnMail(w.workers[k].pid));
    }
  }

  lemma NothingTrimmed(w: World, own: Mail -> bool)
    requires forall m :: m in w.region.queue ==> m.msg != 0
    ensures Gather(Filter(w.region.queue, Trimmed(own)), LetterBag(w.region.slots)) == multiset{}
  {
    FilterNone(w.region.queue, Trimmed(own));
    GatherUnfold([], LetterBag(w.region.slots));
  }

  lemma BeginLeft(w: World, k: nat)
    requires Enabled(w, Begin(k))
    ensures DeliveryLeft(Begun(w, k)) < DeliveryLeft(w) && SameButDelivered(w, Begun(w, k))
  {
    hide WorkersLeft, SlotMatches, Bytes;
    LeftUpdate(w.workers, k, Begun(w, k).workers[k]);
  }

  lemma EndLeft(w: World, k: nat, now: int)
    requires Enabled(w, End(k, now))
    ensures DeliveryLeft(Ended(w, k, now)) < DeliveryLeft(w) && SameButDelivered(w, Ended(w, k, now))
  {
    hide WorkersLeft, MarkedProcessed;
    LeftUpdate(w.workers, k, Ended(w, k, now).workers[k]);
  }

  /** A callback runs on the head of a batch. */
  ghost predicate ReadsHeads(w: World) {
    WellFormed(w.region) && forall k :: 0 <= k < |w.workers| && w.workers[k].reading.Some? ==> w.workers[k].batch != []
  }

  lemma SoundReads(w: World)
    requires Sound(w)
    ensures ReadsHeads(w)
  {
    forall k | 0 <= k < |w.workers| && w.workers[k].reading.Some?
      ensures w.workers[k].batch != []
    {
      assert WorkerSound(w.region.slots, w.workers[k]);
    }
  }

  /** Each step of delivery lowers what is left to do. */
  lemma StepDeliveryLeft(w: World, e: Event, w': World)
    requires ReadsHeads(w) && Next(w, e, w') && Delivers(w, e)
    ensures DeliveryLeft(w') < DeliveryLeft(w) && SameButDelivered(w, w')
  {
    match e
    case Drain(k, queue) =>
      hide Gather, Filter, DeliveryLeft, SameButDelivered;
      DrainLeft(w, k, queue);
      DrainSame(w, k, queue);
    case Begin(k) => hide DeliveryLeft, SameButDelivered; BeginLeft(w, k);
    case End(k, now) => hide DeliveryLeft, SameButDelivered; EndLeft(w, k, now);
  }

  /** The queue in message order. */
  lemma Arranged(s: seq<Mail>) returns (r: seq<Mail>)
    ensures Rearranged(r, s)
  {
    var before := (a: Mail, b: Mail) => a.msg < b.msg;
    FV.SortedCopySorts(s, before);
    r := FV.SortedCopy(s, before);
  }

  ghost predicate AllDelivered(w: World) {
    w.region.queue == [] && forall k :: 0 <= k < |w.workers| ==> w.workers[k].batch == []
  }

  /** While anything is queued or in flight, and workers can take what is queued, some step of delivery is enabled. */
  lemma DeliveryProgress(w: World) returns (e: Event)
    requires !AllDelivered(w) && forall m :: m in w.region.queue ==> Servable(w, m)
    ensures Enabled(w, e) && Delivers(w, e)
  {
    hide Filter;
    if k :| 0 <= k < |w.workers| && w.workers[k].batch != [] {
      e := if w.workers[k].reading.Some? then End(k, 0) else Begin(k);
    } else {
      var m := w.region.queue[0];
      assert Servable(w, m);
      var k :| 0 <= k < |w.workers| && w.workers[k].pid == m.pid;
      var queue := Arranged(Filter(w.region.queue, Stays(OwnMail(m.pid))));
      e := Drain(k, queue);
    }
  }

  // ----- Whole runs

  /** A run that no step of delivery can continue has delivered or purged every accepted letter. */
  lemma MaximalRunDelivers(ws: seq<World>, es: seq<Event>)
    requires IsRun(ws, es) && Initial(ws[0]) && ConsiderateRun(ws, es, |es|)
    requires forall m :: m in ws[|es|].region.queue ==> MailLosses.Unreleased(ws[|es|], m)
    requires forall e :: Enabled(ws[|es|], e) ==> !Delivers(ws[|es|], e)
    ensures AllDelivered(ws[|es|]) && ws[|es|].delivered + ws[|es|].purged == ws[|es|].accepted
  {
    hide Delivers, Enabled, Servable;
    forall m | m in ws[|es|].region.queue
      ensures Servable(ws[|es|], m)
    {
      QueuedServable(ws, es, |es|, m);
    }
    if !AllDelivered(ws[|es|]) {
      var e := DeliveryProgress(ws[|es|]);
    }
    MailRuns.QuiescentDelivered(ws, es, |es|);
  }

  /** From here to there only delivery has happened. */
  ghost predicate OnlyDelivers(ws: seq<World>, es: seq<Event>, ws': seq<World>, es': seq<Event>) {
    && IsRun(ws', es') && |ws| == |es| + 1 && ws <= ws' && es <= es'
    && forall i :: |es| <= i < |es'| ==> Delivers(ws'[i], es'[i])
  }

  lemma StillServable(w: World, e: Event, w': World)
    requires Next(w, e, w') && Delivers(w, e) && SameButDelivered(w, w')
    requires forall m :: m in w.region.queue ==> Servable(w, m)
    ensures forall m :: m in w'.region.queue ==> Servable(w', m)
  {
    SamePids(w, e, w');
    hide Next, HasWorker;
    forall m | m in w'.region.queue
      ensures Servable(w', m)
    {
      assert Servable(w, m);
      MoreWorkers(w.workers, w'.workers, m.pid);
    }
  }

  lemma {:induction false} DeliverAll(ws: seq<World>, es: seq<Event>) returns (ws': seq<World>, es': seq<Event>)
    requires IsRun(ws, es) && Initial(ws[0])
    requires forall m :: m in ws[|es|].region.queue ==> Servable(ws[|es|], m)
    ensures OnlyDelivers(ws, es, ws', es') && AllDelivered(ws'[|es'|]) && SameButDelivered(ws[|es|], ws'[|es'|])
    decreases DeliveryLeft(ws[|es|])
  {
    var w := ws[|es|];
    if AllDelivered(w) {
      ws', es' := ws, es;
    } else {
      var e := DeliveryProgress(w);
      MailRuns.AlwaysSound(ws, es, |es|);
      SoundReads(w);
      var ws1, es1 := DeliverOne(ws, es, e);
      hide Sound, Enabled, Initial, Delivers, Servable, WellFormed, AllDelivered;
      ws', es' := DeliverAll(ws1, es1);
      assert es'[|es|] == es1[|es|] && ws'[|es|] == ws1[|es|];
    }
  }

  lemma DeliverOne(ws: seq<World>, es: seq<Event>, e: Event) returns (ws': seq<World>, es': seq<Event>)
    requires IsRun(ws, es) && |ws| == |es| + 1
    requires ReadsHeads(ws[|es|]) && Enabled(ws[|es|], e) && Delivers(ws[|es|], e)
    requires forall m :: m in ws[|es|].region.queue ==> Servable(ws[|es|], m)
    ensures OnlyDelivers(ws, es, ws', es') && |es'| == |es| + 1 && ws'[0] == ws[0]
    ensures forall m :: m in ws'[|es'|].region.queue ==> Servable(ws'[|es'|], m)
    ensures DeliveryLeft(ws'[|es'|]) < DeliveryLeft(ws[|es|]) && SameButDelivered(ws[|es|], ws'[|es'|])
  {
    hide IsRun, Enabled, Delivers, ReadsHeads, Servable, DeliveryLeft, Step, WellFormed, SameButDelivered, SentByObjects;
    DeliverStep(ws[|es|], e);
    ws', es' := RunOn(ws, es, e);
  }

  lemma DeliverStep(w: World, e: Event)
    requires ReadsHeads(w) && Enabled(w, e) && Delivers(w, e) && forall m :: m in w.region.queue ==> Servable(w, m)
    ensures WellFormed(w.region)
    ensures var w' := Step(w, e);
            && DeliveryLeft(w') < DeliveryLeft(w) && SameButDelivered(w, w')
            && forall m :: m in w'.region.queue ==> Servable(w', m)
  {
    assert WellFormed(w.region);
    hide Enabled, Delivers, ReadsHeads, Servable, DeliveryLeft, Step, SameButDelivered;
    NextIsStep(w, e);
    StepDeliveryLeft(w, e, Step(w, e));
    StillServable(w, e, Step(w, e));
  }

  /**
   From every state of such a run in which no queued mail's object is released, the
   workers of the processes in the table can empty queue and batches by themselves.
   Every accepted letter is then delivered or purged, and none is purged on the way
   unless mails of message 0 were queued.
   */
  lemma CanDeliver(ws: seq<World>, es: seq<Event>) returns (ws': seq<World>, es': seq<Event>)
    requires IsRun(ws, es) && Initial(ws[0]) && ConsiderateRun(ws, es, |es|)
    requires forall m :: m in ws[|es|].region.queue ==> MailLosses.Unreleased(ws[|es|], m)
    ensures OnlyDelivers(ws, es, ws', es')
    ensures var w, w' := ws[|es|], ws'[|es'|];
            && AllDelivered(w') && w'.delivered + w'.purged == w'.accepted == w.accepted
            && w'.objects == w.objects
            && ((forall m :: m in w.region.queue ==> m.msg != 0) ==> w'.purged == w.purged)
  {
    hide Servable, Initial;
    forall m | m in ws[|es|].region.queue
      ensures Servable(ws[|es|], m)
    {
      QueuedServable(ws, es, |es|, m);
    }
    ws', es' := DeliverAll(ws, es);
    MailRuns.QuiescentDelivered(ws', es', |es'|);
  }
}
