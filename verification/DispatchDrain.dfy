/**
 The dispatcher drains: its workers alone finish every posted task, each exactly
 once, in a bounded number of work steps.
 */
module DispatchDrain {
  import opened Options
  import opened Bags
  import opened Dispatch
  import opened DispatchInvariants

  /** A step that makes progress: taking a turn, or finishing a task. */
  predicate IsWork(s: State, e: Event) {
    (e.Check? && !s.stop && s.ready != []) || e.Finish?
  }

  predicate IsPost(e: Event) {
    e.Post?
  }

  // ----- The measure

  lemma {:induction false} QueuedRemove(insts: map<nat, Inst>, o: nat)
    requires o in insts
    ensures Queued(insts) == |insts[o].queue| + Queued(insts - {o})
    decreases |insts|
  {
    var p := AnyKey(insts);
    assert insts.Keys == (insts - {o}).Keys + {o} == (insts - {p}).Keys + {p};
    if p != o {
      QueuedRemove(insts - {p}, o);
      QueuedRemove(insts - {o}, p);
      assert insts - {p} - {o} == insts - {o} - {p};
    }
  }

  lemma QueuedUpdate(insts: map<nat, Inst>, o: nat, inst: Inst)
    ensures Queued(insts[o := inst]) == Queued(insts) - |InstOf(insts, o).queue| + |inst.queue|
    ensures Queued(insts) >= |InstOf(insts, o).queue|
  {
    var u := insts[o := inst];
    QueuedRemove(u, o);
    if o in insts {
      QueuedRemove(insts, o);
      assert u - {o} == insts - {o};
    } else {
      assert u - {o} == insts;
    }
  }

  lemma CheckWorkLeft(s: State, k: nat)
    requires Enabled(s, Check(k))
    ensures Work(Checked(s, k)) == Work(s) - if !s.stop && s.ready != [] then 1 else 0
  {
    hide Count, Queued;
    CountUpdate(s.workers, k, Checked(s, k).workers[k], IsExecuting());
    if !s.stop && s.ready != [] {
      QueuedUpdate(s.insts, s.ready[0], Checked(s, k).insts[s.ready[0]]);
    }
  }

  lemma FinishWorkLeft(s: State, k: nat, wake: Option<nat>)
    requires Enabled(s, Finish(k, wake))
    ensures Work(Finished(s, k, wake)) < Work(s)
  {
    hide Count, Queued;
    var o := s.workers[k].obj;
    var more := InstOf(s.insts, o).queue != [];
    if more {
      SignalledCount(s.workers, wake, IsExecuting());
    } else {
      QueuedUpdate(s.insts, o, Inst([], false));
    }
    CountUpdate(if more then Signalled(s.workers, wake) else s.workers, k, Awake, IsExecuting());
  }

  /** Work steps lower the work left, and only posts raise it. */
  lemma StepWorkLeft(s: State, e: Event)
    requires Enabled(s, e)
    ensures IsWork(s, e) ==> Work(StateStep(s, e)) < Work(s)
    ensures !IsPost(e) ==> Work(StateStep(s, e)) <= Work(s)
  {
    match e
    case Check(k) => CheckWorkLeft(s, k);
    case Finish(k, wake) => FinishWorkLeft(s, k, wake);
    case SpuriousWake(k) => CountUpdate(s.workers, k, Awake, IsExecuting());
    case Stop => AllWokenCount(s.workers, IsExecuting());
    case Post(_, _, _, _) =>
  }

  /** How many of the steps from a to b are work. */
  ghost function WorkSteps(ws: seq<World>, es: seq<Event>, a: nat, b: nat): nat
    requires |ws| == |es| + 1 && a <= b <= |es|
    decreases b
  {
    if a == b then 0 else WorkSteps(ws, es, a, b - 1) + if IsWork(ws[b - 1].s, es[b - 1]) then 1 else 0
  }

  /** Without new posts, a run has at most as many work steps as there is work. */
  lemma {:induction false} BoundedWork(ws: seq<World>, es: seq<Event>, a: nat, b: nat)
    requires IsRun(ws, es) && a <= b <= |es|
    requires forall i :: a <= i < b ==> !IsPost(es[i])
    ensures WorkSteps(ws, es, a, b) + Work(ws[b].s) <= Work(ws[a].s)
    decreases b
  {
    hide Work, StateStep;
    if a < b {
      BoundedWork(ws, es, a, b - 1);
      assert Next(ws[b - 1], es[b - 1], ws[b]);
      StepWorkLeft(ws[b - 1].s, es[b - 1]);
    }
  }

  // ----- Progress

  /** No task is queued or being executed. */
  predicate Idle(s: State) {
    && (forall k :: 0 <= k < |s.workers| ==> !s.workers[k].Executing?)
    && (forall o :: o in s.insts ==> s.insts[o].queue == [])
  }

  function Choice(workers: seq<Worker>): (wake: Option<nat>)
    ensures CanSignal(workers, wake)
  {
    if forall k :: 0 <= k < |workers| ==> !workers[k].Waiting? then None
    else Some(FirstWaiting(workers, 0))
  }

  function FirstWaiting(workers: seq<Worker>, i: nat): (k: nat)
    requires exists j :: i <= j < |workers| && workers[j].Waiting?
    ensures k < |workers| && workers[k].Waiting?
    decreases |workers| - i
  {
    if workers[i].Waiting? then i else FirstWaiting(workers, i + 1)
  }

  /** A queued task that nobody executes has its instance in the ready queue. */
  lemma QueuedIsReady(w: World, o: nat)
    requires Fits(w) && InstOf(w.s.insts, o).queue != []
    requires forall k :: 0 <= k < |w.s.workers| ==> !w.s.workers[k].Executing?
    ensures o in w.s.ready
  {
    assert TurnsFit(w, o);
    CountWitness(w.s.workers, Serves(o));
    hide Count;
    assert multiset(w.s.ready)[o] > 0;
  }

  lemma SomeoneAwake(w: World)
    requires Fits(w) && !w.s.stop && w.s.ready != []
    requires forall k :: 0 <= k < |w.s.workers| ==> !w.s.workers[k].Executing?
    ensures exists k :: 0 <= k < |w.s.workers| && w.s.workers[k].Awake?
  {
    hide TurnsFit, TasksFit;
    WaitingOrNot(w.s.workers);
    CountWitness(w.s.workers, NotWaiting());
  }

  /** While a task is unfinished and the dispatcher is not stopped, some worker can make progress. */
  lemma Progress(w: World) returns (e: Event)
    requires Fits(w) && !w.s.stop && !Idle(w.s)
    ensures Enabled(w.s, e) && IsWork(w.s, e) && !IsPost(e)
  {
    hide Fits;
    if k :| 0 <= k < |w.s.workers| && w.s.workers[k].Executing? {
      e := Finish(k, Choice(w.s.workers));
    } else {
      var o :| o in w.s.insts && w.s.insts[o].queue != [];
      QueuedIsReady(w, o);
      SomeoneAwake(w);
      var k :| 0 <= k < |w.s.workers| && w.s.workers[k].Awake?;
      e := Check(k);
    }
  }

  lemma IdleWorkers(workers: seq<Worker>, o: nat)
    requires forall k :: 0 <= k < |workers| ==> !workers[k].Executing?
    ensures Gather(workers, Pending(o)) == multiset{}
  {
    ServingAndPending(workers, o);
    CountWitness(workers, Serves(o));
    hide Count, Gather;
  }

  /** When the system is idle, every task posted to any instance has been finished, once. */
  lemma IdleIsComplete(w: World, o: nat)
    requires Fits(w) && Idle(w.s)
    ensures multiset(TasksOf(w.h.finished, o)) == multiset(TasksOf(w.h.posted, o))
  {
    assert TasksFit(w, o);
    IdleWorkers(w.s.workers, o);
    assert InstOf(w.s.insts, o).queue == [];
    assert TasksOf(w.h.posted, o) == TasksOf(w.h.started, o);
    hide Fits, Gather;
  }

  /**
   A run that cannot be continued by any work step has finished every posted
   task, each exactly as often as it was posted, unless it was stopped.
   */
  lemma MaximalRunCompletes(ws: seq<World>, es: seq<Event>, o: nat)
    requires IsRun(ws, es) && Initial(ws[0]) && !ws[|es|].s.stop
    requires forall e :: Enabled(ws[|es|].s, e) ==> !IsWork(ws[|es|].s, e)
    ensures multiset(TasksOf(ws[|es|].h.finished, o)) == multiset(TasksOf(ws[|es|].h.posted, o))
  {
    var w := ws[|es|];
    AlwaysFits(ws, es, |es|);
    if !Idle(w.s) {
      var e := Progress(w);
    }
    IdleIsComplete(w, o);
  }

  lemma StepPosted(w: World, e: Event, w': World)
    requires Next(w, e, w') && !IsPost(e) && !e.Stop?
    ensures w'.h.posted == w.h.posted && w'.s.stop == w.s.stop
  {
  }

  /** From every reachable state the workers can drain the dispatcher by themselves. */
  lemma {:induction false} CanDrain(ws: seq<World>, es: seq<Event>) returns (ws': seq<World>, es': seq<Event>)
    requires IsRun(ws, es) && Initial(ws[0]) && !ws[|es|].s.stop
    ensures IsRun(ws', es') && ws <= ws' && es <= es'
    ensures forall i :: |es| <= i < |es'| ==> !IsPost(es'[i]) && !es'[i].Stop?
    ensures ws'[|es'|].h.posted == ws[|es|].h.posted
    ensures forall o :: multiset(TasksOf(ws'[|es'|].h.finished, o)) == multiset(TasksOf(ws[|es|].h.posted, o))
    decreases Work(ws[|es|].s)
  {
    var w := ws[|es|];
    AlwaysFits(ws, es, |es|);
    if Idle(w.s) {
      ws', es' := ws, es;
      forall o
        ensures multiset(TasksOf(w.h.finished, o)) == multiset(TasksOf(w.h.posted, o))
      {
        IdleIsComplete(w, o);
      }
    } else {
      hide Fits, Work, TasksOf, Initial;
      var e := Progress(w);
      StepWorkLeft(w.s, e);
      var w' := Step(w, e);
      StepPosted(w, e, w');
      hide Step, IsWork;
      ws', es' := CanDrain(ws + [w'], es + [e]);
    }
  }
}
