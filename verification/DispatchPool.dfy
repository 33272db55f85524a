/**
 The workers of the dispatcher one by one: when the pool grows, who sleeps, who
 works, who is gone, and how a shutdown ends.
 */
module DispatchPool {
  import opened Options
  import opened Bags
  import opened Dispatch
  import opened DispatchInvariants
  import opened DispatchDrain

  // ----- Growth

  /**
   The pool grows, by one worker that is up, exactly at a post after which more
   instances are ready than there were workers, and never beyond eight.
   */
  lemma PoolGrowsExactly(s: State, e: Event)
    requires Enabled(s, e)
    ensures var s' := StateStep(s, e);
            var grown := e.Post? && |s'.ready| > s.threads && s.threads < 8;
            && s'.threads == s.threads + (if grown then 1 else 0)
            && |s'.workers| == |s.workers| + (if grown then 1 else 0)
            && (grown ==> s'.workers[|s.workers|] == Awake)
  {
  }

  // ----- What each worker does

  /** Posts that make their instance ready, and finishes that leave it more to do, signal once. */
  predicate Signals(s: State, e: Event, k: nat) {
    match e
    case Post(o, _, isSeq, wake) => wake == Some(k) && (!isSeq || !(o in s.insts && s.insts[o].running))
    case Finish(l, wake) =>
      && wake == Some(k) && l < |s.workers| && s.workers[l].Executing?
      && s.workers[l].obj in s.insts && s.insts[s.workers[l].obj].queue != []
    case _ => false
  }

  /** What worker k does after a step, from what it did before. */
  function After(s: State, e: Event, k: nat): Worker
    requires k < |s.workers|
  {
    if e == Check(k) then
      if s.stop then Exited
      else if s.ready == [] then Waiting
      else if s.ready[0] in s.insts && s.insts[s.ready[0]].queue != []
      then Executing(s.ready[0], s.insts[s.ready[0]].queue[0])
      else Awake
    else if e.Finish? && e.k == k then Awake
    else if s.workers[k].Waiting? && (e == SpuriousWake(k) || e.Stop? || Signals(s, e, k)) then Awake
    else s.workers[k]
  }

  /**
   A worker sleeps only for want of ready instances, is woken only by a signal meant
   for it, a broadcast or by itself, starts only the first task of the first ready
   instance, and exits only after a stop.
   */
  lemma WorkersExactly(s: State, e: Event, k: nat)
    requires Enabled(s, e) && k < |s.workers|
    ensures k < |StateStep(s, e).workers| && StateStep(s, e).workers[k] == After(s, e, k)
  {
  }

  /** A signal is lost only if nobody sleeps. */
  lemma SignalReaches(s: State, e: Event)
    requires Enabled(s, e) && |StateStep(s, e).ready| > |s.ready|
    ensures (exists k :: 0 <= k < |s.workers| && s.workers[k].Waiting?) <==>
            exists k: nat :: k < |s.workers| && s.workers[k].Waiting? && Signals(s, e, k)
  {
    if k :| 0 <= k < |s.workers| && s.workers[k].Waiting? {
      var wake := if e.Post? then e.wake else if e.Finish? then e.wake else None;
      assert wake.Some? && Signals(s, e, wake.value);
    }
  }

  // ----- Shutdown

  /** A stop is final, and no task starts after it. */
  lemma StepStopped(w: World, e: Event, w': World)
    requires Next(w, e, w') && (w.s.stop || e.Stop?)
    ensures w'.s.stop && w'.h.started == w.h.started
  {
  }

  lemma {:induction false} StopIsFinal(ws: seq<World>, es: seq<Event>, a: nat, b: nat)
    requires IsRun(ws, es) && a < b < |ws| && es[a].Stop?
    ensures ws[b].s.stop && ws[b].h.started == ws[a].h.started
    decreases b
  {
    hide Next;
    if a + 1 < b {
      StopIsFinal(ws, es, a, b - 1);
    }
    StepStopped(ws[b - 1], es[b - 1], ws[b]);
  }

  /** After a stop, a worker that takes the lock to look for work is gone. */
  lemma CheckExits(ws: seq<World>, es: seq<Event>, a: nat, i: nat)
    requires IsRun(ws, es) && a < i < |es| && es[a].Stop? && es[i].Check?
    ensures es[i].k < |ws[i + 1].s.workers| && ws[i + 1].s.workers[es[i].k] == Exited
  {
    StopIsFinal(ws, es, a, i);
    assert Next(ws[i], es[i], ws[i + 1]);
    WorkersExactly(ws[i].s, es[i], es[i].k);
  }

  predicate Leaves(e: Event) {
    e.Check? || e.Finish?
  }

  function NotExited(): Worker -> bool {
    (k: Worker) => !k.Exited?
  }

  /** Two steps for each worker that executes or may still be added, one for each other that is not gone. */
  function LeaveLeft(s: State): int {
    Count(s.workers, IsExecuting()) + Count(s.workers, NotExited()) + 2 * (MAX_THREADS - s.threads)
  }

  lemma CheckLeft(s: State, k: nat)
    requires s.stop && Enabled(s, Check(k))
    ensures LeaveLeft(Checked(s, k)) < LeaveLeft(s)
  {
    hide Count;
    CountUpdate(s.workers, k, Exited, IsExecuting());
    CountUpdate(s.workers, k, Exited, NotExited());
  }

  lemma FinishLeft(s: State, k: nat, wake: Option<nat>)
    requires Enabled(s, Finish(k, wake))
    ensures LeaveLeft(Finished(s, k, wake)) < LeaveLeft(s)
  {
    hide Count;
    var more := InstOf(s.insts, s.workers[k].obj).queue != [];
    var woken := if more then Signalled(s.workers, wake) else s.workers;
    if more {
      SignalledCount(s.workers, wake, IsExecuting());
      SignalledCount(s.workers, wake, NotExited());
    }
    CountUpdate(woken, k, Awake, IsExecuting());
    CountUpdate(woken, k, Awake, NotExited());
  }

  lemma PostLeft(s: State, o: nat, t: nat, isSeq: bool, wake: Option<nat>)
    requires Enabled(s, Post(o, t, isSeq, wake))
    ensures LeaveLeft(Posted(s, o, t, isSeq, wake)) <= LeaveLeft(s)
  {
    hide Count;
    var inst := InstOf(s.insts, o);
    var s1 := if MakesReady(s, o, isSeq)
              then s.(insts := s.insts[o := Inst(inst.queue + [t], true)], ready := s.ready + [o],
                      workers := Signalled(s.workers, wake))
              else s.(insts := s.insts[o := Inst(inst.queue + [t], inst.running)]);
    if MakesReady(s, o, isSeq) {
      SignalledCount(s.workers, wake, IsExecuting());
      SignalledCount(s.workers, wake, NotExited());
    }
    AdjustedCount(s1, IsExecuting());
    AdjustedCount(s1, NotExited());
  }

  lemma StepLeaveLeft(s: State, e: Event)
    requires s.stop && Enabled(s, e)
    ensures if Leaves(e) then LeaveLeft(StateStep(s, e)) < LeaveLeft(s) else LeaveLeft(StateStep(s, e)) <= LeaveLeft(s)
  {
    match e
    case Check(k) => CheckLeft(s, k);
    case Finish(k, wake) => FinishLeft(s, k, wake);
    case Post(o, t, isSeq, wake) => PostLeft(s, o, t, isSeq, wake);
    case SpuriousWake(k) =>
      CountUpdate(s.workers, k, Awake, IsExecuting());
      CountUpdate(s.workers, k, Awake, NotExited());
    case Stop =>
      AllWokenCount(s.workers, IsExecuting());
      AllWokenCount(s.workers, NotExited());
  }

  ghost function LeaveSteps(es: seq<Event>, a: nat, b: nat): nat
    requires a <= b <= |es|
    decreases b
  {
    if a == b then 0 else LeaveSteps(es, a, b - 1) + if Leaves(es[b - 1]) then 1 else 0
  }

  lemma {:induction false} LeaveLeftFalls(ws: seq<World>, es: seq<Event>, a: nat, b: nat)
    requires IsRun(ws, es) && a < b < |ws| && es[a].Stop?
    ensures LeaveSteps(es, a + 1, b) + LeaveLeft(ws[b].s) <= LeaveLeft(ws[a + 1].s)
    decreases b
  {
    hide LeaveLeft, StateStep;
    if a + 1 < b {
      LeaveLeftFalls(ws, es, a, b - 1);
      StopIsFinal(ws, es, a, b - 1);
      assert Next(ws[b - 1], es[b - 1], ws[b]);
      StepLeaveLeft(ws[b - 1].s, es[b - 1]);
    }
  }

  /** After a stop the workers take at most sixteen more steps: each finishes at most one task, and exits. */
  lemma ShutdownIsShort(ws: seq<World>, es: seq<Event>, a: nat, b: nat)
    requires IsRun(ws, es) && Initial(ws[0]) && a < b < |ws| && es[a].Stop?
    ensures LeaveSteps(es, a + 1, b) <= 16
  {
    LeaveLeftFalls(ws, es, a, b);
    AlwaysFits(ws, es, a + 1);
    AlwaysFits(ws, es, b);
    hide IsRun, Initial, TurnsFit, TasksFit, Count;
  }

  /** A stopped run in which no worker can go on has no worker left: the destructor's joins return. */
  lemma ShutdownCompletes(ws: seq<World>, es: seq<Event>, a: nat)
    requires IsRun(ws, es) && Initial(ws[0]) && a < |es| && es[a].Stop?
    requires forall e :: Enabled(ws[|es|].s, e) ==> !Leaves(e)
    ensures forall k :: 0 <= k < |ws[|es|].s.workers| ==> ws[|es|].s.workers[k] == Exited
  {
    var s := ws[|es|].s;
    StopIsFinal(ws, es, a, |es|);
    AlwaysFits(ws, es, |es|);
    assert WakeUpsFit(s);
    CountWitness(s.workers, IsWaiting());
    assert forall k :: 0 <= k < |s.workers| ==> !s.workers[k].Waiting?;
    hide IsRun, Fits, Count, Enabled;
    forall k: nat | k < |s.workers|
      ensures s.workers[k] == Exited
    {
      if !s.workers[k].Exited? {
        var e := WayOut(s, k);
      }
    }
  }

  lemma WayOut(s: State, k: nat) returns (e: Event)
    requires k < |s.workers| && !s.workers[k].Exited? && !s.workers[k].Waiting?
    ensures Enabled(s, e) && Leaves(e)
  {
    e := if s.workers[k].Awake? then Check(k) else Finish(k, Choice(s.workers));
  }
}
