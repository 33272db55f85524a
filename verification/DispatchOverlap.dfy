/**
 When tasks of one instance that are posted as sequential can still overlap:
 exactly when the instance has more turns than its running flag accounts for.
 */
module DispatchOverlap {
  import opened Options
  import opened Bags
  import opened Dispatch
  import opened DispatchInvariants
  import opened DispatchRuns
  import opened DispatchDrain

  /** Callers post in sequence only, and nobody stops the dispatcher. */
  predicate Quiet(e: Event) {
    (e.Post? ==> e.isSeq) && !e.Stop?
  }

  /** The run goes on with quiet events. */
  ghost predicate Continues(ws: seq<World>, es: seq<Event>, ws': seq<World>, es': seq<Event>) {
    && IsRun(ws, es) && IsRun(ws', es')
    && ws <= ws' && es <= es'
    && forall i :: |es| <= i < |es'| ==> Quiet(es'[i])
  }

  lemma GoOn(ws: seq<World>, es: seq<Event>, e: Event) returns (ws': seq<World>, es': seq<Event>)
    requires IsRun(ws, es) && Enabled(ws[|es|].s, e) && Quiet(e)
    ensures Continues(ws, es, ws', es') && ws'[|es'|] == Step(ws[|es|], e)
  {
    hide Step;
    ws', es' := ws + [Step(ws[|es|], e)], es + [e];
  }

  lemma ContinuesOn(ws: seq<World>, es: seq<Event>, ws1: seq<World>, es1: seq<Event>, ws2: seq<World>, es2: seq<Event>)
    requires Continues(ws, es, ws1, es1) && Continues(ws1, es1, ws2, es2)
    ensures Continues(ws, es, ws2, es2)
  {
    hide IsRun;
    assert forall i :: |es| <= i < |es1| ==> es2[i] == es1[i];
  }

  // ----- One worker works its way to the instance

  /** How many entries of the ready queue come before the first one of o. */
  function Place(ready: seq<nat>, o: nat): nat
    requires o in ready
  {
    if ready[0] == o then 0 else Place(ready[1..], o) + 1
  }

  lemma {:induction false} PlaceSnoc(ready: seq<nat>, o: nat, p: nat)
    requires o in ready
    ensures Place(ready + [p], o) == Place(ready, o)
  {
    if ready[0] != o {
      assert (ready + [p])[1..] == ready[1..] + [p];
      PlaceSnoc(ready[1..], o, p);
    }
  }

  function StepsUp(worker: Worker): nat {
    match worker
    case Awake => 0
    case Waiting => 1
    case Executing(_, _) => 2
    case Exited => 0
  }

  /** Worker l can come to serve o: it is neither gone nor serving o, and o is ready with a task. */
  ghost predicate CanTakeUp(s: State, o: nat, l: nat) {
    && !s.stop && o in s.ready && InstOf(s.insts, o).queue != []
    && l < |s.workers| && !s.workers[l].Exited? && !Serves(o)(s.workers[l])
  }

  /** What happens meanwhile disturbs neither o nor an execution by another worker than l. */
  ghost predicate Undisturbed(s: State, s': State, l: nat) {
    && s'.stop == s.stop
    && |s'.workers| == |s.workers|
    && forall k :: 0 <= k < |s.workers| && k != l ==>
         && (s.workers[k].Executing? ==> s'.workers[k] == s.workers[k])
         && (s'.workers[k].Exited? ==> s.workers[k].Exited?)
  }

  /** The next step of worker l, unless it is about to take o: it wakes up, finishes what it does, or takes another turn. */
  lemma NextUp(s: State, o: nat, l: nat) returns (e: Event)
    requires CanTakeUp(s, o, l) && !(s.workers[l].Awake? && s.ready[0] == o)
    ensures Enabled(s, e) && Quiet(e)
    ensures var s' := StateStep(s, e);
            && CanTakeUp(s', o, l) && Undisturbed(s, s', l)
            && InstOf(s'.insts, o) == InstOf(s.insts, o)
            && multiset(s'.ready)[o] == multiset(s.ready)[o]
            && (Place(s'.ready, o) < Place(s.ready, o)
                || (Place(s'.ready, o) == Place(s.ready, o) && StepsUp(s'.workers[l]) < StepsUp(s.workers[l])))
  {
    hide Checked, Finished;
    match s.workers[l]
    case Awake => e := Check(l); PassedOver(s, o, l);
    case Waiting => e := SpuriousWake(l);
    case Executing(_, _) => e := Finish(l, Choice(s.workers)); FinishedFirst(s, o, l, e.wake);
  }

  /** A turn of another instance brings o nearer to the head. */
  lemma PassedOver(s: State, o: nat, l: nat)
    requires CanTakeUp(s, o, l) && s.workers[l].Awake? && s.ready[0] != o
    ensures var s' := Checked(s, l);
            && CanTakeUp(s', o, l) && Undisturbed(s, s', l)
            && InstOf(s'.insts, o) == InstOf(s.insts, o)
            && multiset(s'.ready)[o] == multiset(s.ready)[o]
            && Place(s'.ready, o) < Place(s.ready, o)
  {
    assert s.ready == [s.ready[0]] + s.ready[1..];
  }

  /** What worker l finishes may go to the end of the queue, behind o. */
  lemma FinishedFirst(s: State, o: nat, l: nat, wake: Option<nat>)
    requires CanTakeUp(s, o, l) && s.workers[l].Executing? && CanSignal(s.workers, wake)
    ensures var s' := Finished(s, l, wake);
            && CanTakeUp(s', o, l) && Undisturbed(s, s', l)
            && InstOf(s'.insts, o) == InstOf(s.insts, o)
            && multiset(s'.ready)[o] == multiset(s.ready)[o]
            && Place(s'.ready, o) == Place(s.ready, o) && s'.workers[l].Awake?
  {
    PlaceSnoc(s.ready, o, s.workers[l].obj);
  }

  /** Worker l comes to serve o, while nobody else's execution ends. */
  lemma {:induction false} TakeUp(ws: seq<World>, es: seq<Event>, o: nat, l: nat) returns (ws': seq<World>, es': seq<Event>)
    requires IsRun(ws, es) && CanTakeUp(ws[|es|].s, o, l)
    ensures Continues(ws, es, ws', es')
    ensures var s, s' := ws[|es|].s, ws'[|es'|].s;
            && Undisturbed(s, s', l)
            && Serves(o)(s'.workers[l])
            && InstOf(s'.insts, o).queue == InstOf(s.insts, o).queue[1..]
            && multiset(s'.ready)[o] == multiset(s.ready)[o] - 1
    decreases Place(ws[|es|].s.ready, o), StepsUp(ws[|es|].s.workers[l])
  {
    var s := ws[|es|].s;
    if s.workers[l].Awake? && s.ready[0] == o {
      ws', es' := GoOn(ws, es, Check(l));
      assert s.ready == [o] + s.ready[1..];
    } else {
      var e := NextUp(s, o, l);
      hide StateStep, IsRun, Enabled;
      var ws1, es1 := GoOn(ws, es, e);
      ws', es' := TakeUp(ws1, es1, o, l);
      ContinuesOn(ws, es, ws1, es1, ws', es');
    }
  }

  // ----- Spare turns overlap

  /** A ready instance with two turns and two tasks can be served twice. */
  lemma ServeTwice(ws: seq<World>, es: seq<Event>, o: nat) returns (ws': seq<World>, es': seq<Event>)
    requires IsRun(ws, es) && !ws[|es|].s.stop && Tokens(ws[|es|].s, o) >= 2
    requires |ws[|es|].s.workers| >= 2 && forall k :: 0 <= k < |ws[|es|].s.workers| ==> !ws[|es|].s.workers[k].Exited?
    requires |InstOf(ws[|es|].s.insts, o).queue| >= 2
    ensures Continues(ws, es, ws', es') && Overlaps(ws'[|es'|].s, o)
  {
    var s := ws[|es|].s;
    hide IsRun, Count;
    if Overlaps(s, o) {
      ws', es' := ws, es;
    } else if k :| 0 <= k < |s.workers| && Serves(o)(s.workers[k]) {
      OnlyOneServes(s, o, k);
      ws', es' := SecondServes(ws, es, o, k);
    } else {
      CountWitness(s.workers, Serves(o));
      var ws1, es1 := TakeUp(ws, es, o, 0);
      ws', es' := SecondServes(ws1, es1, o, 0);
      ContinuesOn(ws, es, ws1, es1, ws', es');
    }
  }

  lemma TwoServe(s: State, o: nat, k: nat, l: nat)
    requires k < |s.workers| && l < |s.workers| && k != l && Serves(o)(s.workers[k]) && Serves(o)(s.workers[l])
    ensures Overlaps(s, o)
  {
    var i, j := if k < l then k else l, if k < l then l else k;
    assert i < j && Serves(o)(s.workers[i]) && Serves(o)(s.workers[j]);
  }

  lemma OnlyOneServes(s: State, o: nat, k: nat)
    requires k < |s.workers| && Serves(o)(s.workers[k]) && !Overlaps(s, o)
    ensures Count(s.workers, Serves(o)) == 1
  {
    var others := s.workers[k := Awake];
    forall l: nat | l < |others|
      ensures !Serves(o)(others[l])
    {
      if l != k && Serves(o)(others[l]) {
        TwoServe(s, o, k, l);
      }
    }
    CountUpdate(s.workers, k, Awake, Serves(o));
    CountWitness(others, Serves(o));
  }

  /** While worker k serves o, another worker takes up the next turn of o. */
  lemma SecondServes(ws: seq<World>, es: seq<Event>, o: nat, k: nat) returns (ws': seq<World>, es': seq<Event>)
    requires IsRun(ws, es) && !ws[|es|].s.stop && k < |ws[|es|].s.workers| && Serves(o)(ws[|es|].s.workers[k])
    requires |ws[|es|].s.workers| >= 2 && forall l :: 0 <= l < |ws[|es|].s.workers| ==> !ws[|es|].s.workers[l].Exited?
    requires multiset(ws[|es|].s.ready)[o] >= 1 && InstOf(ws[|es|].s.insts, o).queue != []
    ensures Continues(ws, es, ws', es') && Overlaps(ws'[|es'|].s, o)
  {
    var s, l: nat := ws[|es|].s, if k == 0 then 1 else 0;
    if Serves(o)(s.workers[l]) {
      ws', es' := ws, es;
    } else {
      ws', es' := TakeUp(ws, es, o, l);
    }
    TwoServe(ws'[|es'|].s, o, k, l);
  }

  /** With spare turns, two more sequential posts are enough. */
  lemma SpareTurnsOverlap(ws: seq<World>, es: seq<Event>, o: nat, t: nat, u: nat) returns (ws': seq<World>, es': seq<Event>)
    requires IsRun(ws, es) && Initial(ws[0]) && !ws[|es|].s.stop
    requires Tokens(ws[|es|].s, o) > RunFlag(ws[|es|].s, o)
    ensures Continues(ws, es, ws', es') && Overlaps(ws'[|es'|].s, o)
  {
    var ws1, es1 := PostOne(ws, es, o, t);
    var ws2, es2 := PostOne(ws1, es1, o, u);
    ContinuesOn(ws, es, ws1, es1, ws2, es2);
    AlwaysFits(ws2, es2, |es2|);
    FitsAlive(ws2[|es2|]);
    ws', es' := ServeTwice(ws2, es2, o);
    ContinuesOn(ws, es, ws2, es2, ws', es');
  }

  lemma FitsAlive(w: World)
    requires Fits(w) && !w.s.stop
    ensures |w.s.workers| >= 2 && forall k :: 0 <= k < |w.s.workers| ==> !w.s.workers[k].Exited?
  {
  }

  /** A sequential post of one task adds a turn exactly if the instance was not running. */
  lemma PostOne(ws: seq<World>, es: seq<Event>, o: nat, t: nat) returns (ws': seq<World>, es': seq<Event>)
    requires IsRun(ws, es) && !ws[|es|].s.stop
    ensures Continues(ws, es, ws', es')
    ensures var s, s' := ws[|es|].s, ws'[|es'|].s;
            && !s'.stop
            && InstOf(s'.insts, o) == Inst(InstOf(s.insts, o).queue + [t], true)
            && Tokens(s', o) == Tokens(s, o) + 1 - RunFlag(s, o)
  {
    var s := ws[|es|].s;
    var e := Post(o, t, true, Choice(s.workers));
    PostTokens(s, o, t, true, e.wake, o);
    hide Tokens, IsRun;
    ws', es' := GoOn(ws, es, e);
  }

  // ----- Exactly when

  lemma {:induction false} QuietParallel(ws: seq<World>, es: seq<Event>, a: nat, b: nat, o: nat)
    requires IsRun(ws, es) && a <= b < |ws|
    requires forall i :: a <= i < b ==> Quiet(es[i])
    ensures NumberOf(ws[b].h.parallel, o) == NumberOf(ws[a].h.parallel, o)
    decreases b
  {
    if a < b {
      QuietParallel(ws, es, a, b - 1, o);
      StepParallel(ws[b - 1], es[b - 1], ws[b], o);
    }
  }

  /**
   From a reachable state of a dispatcher that is not stopped, sequential posts
   and the workers alone can make two workers execute tasks of o at the same
   time if and only if o has more turns than its running flag accounts for.
   */
  lemma OverlapExactly(ws: seq<World>, es: seq<Event>, o: nat)
    requires IsRun(ws, es) && Initial(ws[0]) && !ws[|es|].s.stop
    ensures (exists ws': seq<World>, es': seq<Event> :: Continues(ws, es, ws', es') && Overlaps(ws'[|es'|].s, o))
            <==> Tokens(ws[|es|].s, o) > RunFlag(ws[|es|].s, o)
  {
    hide Tokens, Overlaps;
    if Tokens(ws[|es|].s, o) > RunFlag(ws[|es|].s, o) {
      var ws', es' := SpareTurnsOverlap(ws, es, o, 0, 0);
    } else {
      forall ws': seq<World>, es': seq<Event> | Continues(ws, es, ws', es')
        ensures !Overlaps(ws'[|es'|].s, o)
      {
        FitsHere(ws, es, |es|, o);
        QuietParallel(ws', es', |es|, |es'|, o);
        ExclusionRestored(ws', es', |es|, |es'|, o);
      }
    }
  }
}
