/**
 Theorems about whole runs of the mailbox: tables and object lives.
 */
module MailLifeRuns {
  import opened Options
  import opened Bags
  import opened Mailboxes
  import opened MailOwnership
  import opened MailLifecycle

  /** The tables are in order in every state of every run. */
  lemma {:induction false} AlwaysOrderly(ws: seq<World>, es: seq<Event>, i: nat)
    requires IsRun(ws, es) && Initial(ws[0]) && i < |ws|
    ensures Orderly(ws[i])
  {
    if i == 0 {
      NobodyUses();
      assert forall m :: multiset(ws[0].region.listen)[m] == 0;
    } else {
      hide Orderly, Next, Initial;
      AlwaysOrderly(ws, es, i - 1);
      StepOrderly(ws[i - 1], es[i - 1], ws[i]);
    }
  }

  lemma NobodyUses()
    ensures forall pid :: Users(map[], pid) == {}
  {
  }

  /** All registrations of the run up to state i were for live listening objects. */
  ghost predicate ConsiderateRun(ws: seq<World>, es: seq<Event>, i: nat)
    requires |ws| == |es| + 1
  {
    forall j :: 0 <= j < i && j < |es| ==> Considerate(ws[j], es[j])
  }

  lemma {:induction false} AlwaysTracked(ws: seq<World>, es: seq<Event>, i: nat)
    requires IsRun(ws, es) && Initial(ws[0]) && i < |ws|
    requires ConsiderateRun(ws, es, i)
    ensures Tracked(ws[i])
  {
    if i > 0 {
      hide Orderly, Next, Initial, Tracked, Considerate;
      AlwaysTracked(ws, es, i - 1);
      AlwaysOrderly(ws, es, i - 1);
      StepTracked(ws[i - 1], es[i - 1], ws[i]);
    }
  }

  /**
   In every state of a run with such registrations: a listener's object is
   alive, and its process is in the process table with a positive count unless
   the object is between the two phases of its destructor. So is the object of
   every queued mail: no mail waits for an object that is gone.
   */
  lemma ListenersLive(ws: seq<World>, es: seq<Event>, i: nat)
    requires IsRun(ws, es) && Initial(ws[0]) && i < |ws|
    requires ConsiderateRun(ws, es, i)
    ensures forall m :: m in ws[i].region.listen || m in ws[i].region.queue ==>
              && (m.pid, m.obj) in ws[i].objects
              && (ws[i].objects[(m.pid, m.obj)].released || (m.pid in ws[i].region.procs && ws[i].region.procs[m.pid] > 0))
  {
    AlwaysTracked(ws, es, i);
    AlwaysOrderly(ws, es, i);
    forall m | m in ws[i].region.listen || m in ws[i].region.queue
      ensures (m.pid, m.obj) in ws[i].objects
      ensures ws[i].objects[(m.pid, m.obj)].released || (m.pid in ws[i].region.procs && ws[i].region.procs[m.pid] > 0)
    {
      if m in ws[i].region.queue {
        assert m.(idx := -1) in ws[i].region.listen;
        assert Tracks(ws[i].objects, m.(idx := -1));
      } else {
        assert Tracks(ws[i].objects, m);
      }
      if !ws[i].objects[(m.pid, m.obj)].released {
        assert (m.pid, m.obj) in Users(ws[i].objects, m.pid);
      }
    }
  }

  // ----- Two runs that show what can go wrong

  /** Every notification of the run is sent by an object that is alive. */
  ghost predicate SentByObjects(ws: seq<World>, es: seq<Event>) {
    |ws| == |es| + 1 && forall i :: 0 <= i < |es| && es[i].Notify? ==> (es[i].pid, es[i].obj) in ws[i].objects
  }

  lemma RunOn(ws: seq<World>, es: seq<Event>, e: Event) returns (ws': seq<World>, es': seq<Event>)
    requires IsRun(ws, es) && WellFormed(ws[|es|].region) && Enabled(ws[|es|], e)
    ensures IsRun(ws', es') && |es'| == |es| + 1 && ws'[0] == ws[0]
    ensures |ws'| == |es'| + 1 && ws <= ws' && es' == es + [e]
    ensures SentByObjects(ws, es) && (e.Notify? ==> (e.pid, e.obj) in ws[|es|].objects) ==> SentByObjects(ws', es')
    ensures ws'[|es'|] == Step(ws[|es|], e) && WellFormed(ws'[|es'|].region)
  {
    hide Next, Enabled, Step;
    var w' := Step(ws[|es|], e);
    assert Next(ws[|es|], e, w') by {
      NextIsStep(ws[|es|], e);
    }
    StepWellFormed(ws[|es|], e, w');
    ws', es' := ws + [w'], es + [e];
  }

  lemma NextIsStep(w: World, e: Event)
    requires WellFormed(w.region) && Enabled(w, e)
    ensures Next(w, e, Step(w, e))
  {
  }

  /** Process 1 gets its first object, at address 10, listening to one message. */
  lemma FirstListener(w0: World, msg: nat) returns (ws: seq<World>, es: seq<Event>)
    requires Initial(w0)
    ensures IsRun(ws, es) && |ws| == 2 && |es| == 1 && ws[0] == w0 && es[0].Attach? && SentByObjects(ws, es)
    ensures var w := ws[1];
            && WellFormed(w.region) && w.region.listen == [Mail(msg, 10, 1, -1)] && w.region.queue == []
            && |w.region.slots| > 0 && !w.region.slots[0].inUse && w.region.hint == 0
            && w.workers == [Worker(1, [], None)] && w.leaked == multiset{}
            && w.objects == map[(1, 10) := Life(true, false)]
  {
    var own := Mail(msg, 10, 1, -1);
    assert Registered([], 10, 1, [msg][..0]) == [];
    assert Registered([], 10, 1, [msg]) == [own];
    ws, es := RunOn([w0], [], Attach(1, 10, [msg], [own]));
  }

  /** A registration for an object that does not listen itself outlives that object. */
  lemma StrayListener(w0: World) returns (ws: seq<World>, es: seq<Event>)
    requires Initial(w0)
    ensures IsRun(ws, es) && ws[0] == w0
    ensures var w := ws[|es|]; Mail(6, 20, 1, -1) in w.region.listen && (1, 20) !in w.objects
  {
    var own, stray := Mail(5, 10, 1, -1), Mail(6, 20, 1, -1);
    hide IsRun, SentByObjects, Initial;
    ws, es := FirstListener(w0, 5);
    ws, es := RunOn(ws, es, Attach(1, 20, [], [own]));
    StrayAdded(ws[|es|]);
    hide Enabled, Step, WellFormed;
    ws, es := RunOn(ws, es, AddListen(1, 10, 20, [6], [own, stray]));
    ws, es := DestroyIdle(ws, es, 1, 20);
    assert ws[|es|].region.listen[1] == stray;
  }

  lemma StrayAdded(w: World)
    requires WellFormed(w.region) && w.region.listen == [Mail(5, 10, 1, -1)]
    requires (1, 10) in w.objects && w.objects[(1, 10)].needWorker
    ensures var e := AddListen(1, 10, 20, [6], [Mail(5, 10, 1, -1), Mail(6, 20, 1, -1)]);
            && Enabled(w, e) && Step(w, e).region.listen == e.listen && Step(w, e).objects == w.objects
  {
    var own, stray := Mail(5, 10, 1, -1), Mail(6, 20, 1, -1);
    assert Registered([own], 20, 1, [6][..0]) == [own];
    assert Registered([own], 20, 1, [6]) == [own, stray];
  }

  /** An object without a worker leaves the tables alone when it goes. */
  lemma DestroyIdle(ws: seq<World>, es: seq<Event>, pid: nat, obj: nat) returns (ws': seq<World>, es': seq<Event>)
    requires IsRun(ws, es) && WellFormed(ws[|es|].region)
    requires (pid, obj) in ws[|es|].objects && ws[|es|].objects[(pid, obj)] == Life(false, false)
    ensures IsRun(ws', es') && ws'[0] == ws[0]
    ensures |ws'| == |es'| + 1 && (SentByObjects(ws, es) ==> SentByObjects(ws', es'))
    ensures var w, w' := ws[|es|], ws'[|es'|];
            && WellFormed(w'.region)
            && w'.region.listen == w.region.listen && w'.region.queue == w.region.queue && w'.region.slots == w.region.slots
            && w'.objects == w.objects - {(pid, obj)}
  {
    hide IsRun, SentByObjects;
    ws', es' := RunOn(ws, es, Release(pid, obj));
    ws', es' := RunOn(ws', es', Detach(pid, obj, [], []));
  }

  /** Process 2 gets an object at address 30 that listens to nothing. */
  lemma AddSender(ws: seq<World>, es: seq<Event>, listener: Mail) returns (ws': seq<World>, es': seq<Event>)
    requires IsRun(ws, es) && WellFormed(ws[|es|].region)
    requires ws[|es|].region.listen == [listener] && (2, 30) !in ws[|es|].objects
    ensures IsRun(ws', es') && ws'[0] == ws[0] && |ws'| == |es'| + 1
    ensures es' == es + [Attach(2, 30, [], [listener])] && (SentByObjects(ws, es) ==> SentByObjects(ws', es'))
    ensures var w, w' := ws[|es|], ws'[|es'|];
            && WellFormed(w'.region)
            && w' == w.(region := w.region.(instances := w.region.instances + 1),
                        objects := w.objects[(2, 30) := Life(false, false)])
  {
    assert Registered([listener], 30, 2, []) == [listener];
    ws', es' := RunOn(ws, es, Attach(2, 30, [], [listener]));
  }

  lemma FirstPayload(r: Region, msg: nat, clock: nat -> int)
    requires WellFormed(r) && r.listen == [Mail(msg, 10, 1, -1)] && r.queue == [] && r.hint == 0 && !r.slots[0].inUse
    ensures var r' := Notified(r, 30, 2, msg, [7], clock);
            r'.queue == [Mail(msg, 10, 1, 0)] && IsLive(r'.slots[0])
  {
    var to := Mail(msg, 10, 1, -1);
    assert Recipients([to], msg, 30) == [to];
    assert FanOut(r, [to], 0, 2, [7], clock) == r;
    assert NextSlot(r.slots, 0, 0, clock(0)) == 0;
    assert Notified(r, 30, 2, msg, [7], clock) == Sent(r, to, 2, [7], clock(0), clock(1));
  }

  lemma DestroyLast(ws: seq<World>, es: seq<Event>, listener: Mail, mail: Mail) returns (ws': seq<World>, es': seq<Event>)
    requires IsRun(ws, es) && WellFormed(ws[|es|].region)
    requires ws[|es|].objects == map[(listener.pid, listener.obj) := Life(true, false)]
    requires ws[|es|].region.listen == [listener] && ws[|es|].region.queue == [mail] && mail.obj == listener.obj
    ensures IsRun(ws', es') && ws'[0] == ws[0]
    ensures |ws'| == |es'| + 1 && (SentByObjects(ws, es) ==> SentByObjects(ws', es'))
    ensures var w := ws'[|es'|]; w.objects == map[] && w.region.queue == [] && w.region.slots == ws[|es|].region.slots
  {
    var w, released, e := ws[|es|], Release(listener.pid, listener.obj), Detach(listener.pid, listener.obj, [], []);
    LastCanGo(w, listener, mail);
    hide IsRun, Enabled, Step, WellFormed, SentByObjects;
    ws', es' := RunOn(ws, es, released);
    ws', es' := RunOn(ws', es', e);
  }

  lemma LastCanGo(w: World, listener: Mail, mail: Mail)
    requires WellFormed(w.region) && w.objects == map[(listener.pid, listener.obj) := Life(true, false)]
    requires w.region.listen == [listener] && w.region.queue == [mail] && mail.obj == listener.obj
    ensures Enabled(w, Release(listener.pid, listener.obj))
    ensures var w1 := Step(w, Release(listener.pid, listener.obj));
            && WellFormed(w1.region)
            && Enabled(w1, Detach(listener.pid, listener.obj, [], []))
            && var w2 := Step(w1, Detach(listener.pid, listener.obj, [], []));
               w2.objects == map[] && w2.region.queue == [] && w2.region.slots == w.region.slots
  {
    hide Gather;
    assert Filter([mail], Stays(MailOf(listener.obj))) == [];
    assert Filter([listener], Stays(MailOf(listener.obj))) == [];
    hide Filter;
    assert Released(w, listener.pid, listener.obj).region.slots == w.region.slots;
  }

  /** Destroying an object with a payload mail waiting costs a slot. */
  lemma LeakedSlot(w0: World) returns (ws: seq<World>, es: seq<Event>)
    requires Initial(w0)
    ensures IsRun(ws, es) && ws[0] == w0 && SentByObjects(ws, es)
    ensures var w := ws[|es|];
            w.objects == map[] && w.region.queue == [] && |w.region.slots| == PAYLOAD_SLOTS && IsLive(w.region.slots[0])
  {
    hide IsRun, Enabled, Step, SentByObjects, Initial;
    var own, clock: nat -> int := Mail(5, 10, 1, -1), (n: nat) => 0;
    ws, es := FirstListener(w0, 5);
    ws, es := AddSender(ws, es, own);
    PayloadSent(ws[|es|], 5, clock);
    ws, es := RunOn(ws, es, Notify(2, 30, 5, [7], clock));
    ws, es := DestroyIdle(ws, es, 2, 30);
    ws, es := DestroyLast(ws, es, own, own.(idx := 0));
  }

  /** The first payload mail takes slot 0. */
  lemma PayloadSent(w: World, msg: nat, clock: nat -> int)
    requires WellFormed(w.region) && w.region.listen == [Mail(msg, 10, 1, -1)] && w.region.queue == []
    requires w.region.hint == 0 && !w.region.slots[0].inUse
    ensures Enabled(w, Notify(2, 30, msg, [7], clock))
    ensures var w' := Step(w, Notify(2, 30, msg, [7], clock));
            && w'.workers == w.workers && w'.leaked == w.leaked && w'.objects == w.objects
            && w'.region.listen == w.region.listen
            && WellFormed(w'.region) && w'.region.queue == [Mail(msg, 10, 1, 0)] && IsLive(w'.region.slots[0])
  {
    FirstPayload(w.region, msg, clock);
    hide Notified, Gather;
    StepWellFormed(w, Notify(2, 30, msg, [7], clock), Step(w, Notify(2, 30, msg, [7], clock)));
  }
}
