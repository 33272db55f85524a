/**
 What every step of the dispatcher keeps: the count of turns each instance has,
 the order of its tasks, the wake-ups, and the size of the pool.
 */
module DispatchInvariants {
  import opened Options
  import opened Bags
  import opened Dispatch

  /**
   A running instance has a turn, waiting tasks keep it running, and spare turns
   come from parallel posts only, those after the first base of them.
   */
  ghost predicate TurnsWithin(w: World, o: nat, base: nat) {
    && (InstOf(w.s.insts, o).queue != [] ==> InstOf(w.s.insts, o).running)
    && RunFlag(w.s, o) <= Tokens(w.s, o) <= RunFlag(w.s, o) + NumberOf(w.h.parallel, o) - base
  }

  ghost predicate TurnsFit(w: World, o: nat) {
    TurnsWithin(w, o, 0)
  }

  /** Tasks start in the order posted. */
  ghost predicate StartsInOrder(w: World, o: nat) {
    TasksOf(w.h.posted, o) == TasksOf(w.h.started, o) + InstOf(w.s.insts, o).queue
  }

  /** Every started task is finished or being executed by one worker; in order, without spare turns. */
  ghost predicate Accounted(w: World, o: nat) {
    && multiset(TasksOf(w.h.started, o)) == multiset(TasksOf(w.h.finished, o)) + Gather(w.s.workers, Pending(o))
    && (NumberOf(w.h.parallel, o) == 0 ==> TasksOf(w.h.finished, o) <= TasksOf(w.h.started, o))
  }

  ghost predicate TasksFit(w: World, o: nat) {
    StartsInOrder(w, o) && Accounted(w, o)
  }

  function NotWaiting(): Worker -> bool {
    (k: Worker) => !k.Waiting?
  }

  /** While a worker sleeps, there are no more ready entries than workers that are up. */
  ghost predicate WakeUpsFit(s: State) {
    && (Count(s.workers, IsWaiting()) > 0 ==> |s.ready| <= Count(s.workers, NotWaiting()))
    && (if s.stop then Count(s.workers, IsWaiting()) == 0
        else forall k :: 0 <= k < |s.workers| ==> !s.workers[k].Exited?)
  }

  /** The pool has between 2 and 8 workers, and is at its maximum or has at most two turns per worker. */
  ghost predicate PoolFits(s: State) {
    && s.threads == |s.workers|
    && DEFAULT_THREADS <= s.threads <= MAX_THREADS
    && (s.threads == MAX_THREADS || |s.ready| + Count(s.workers, IsExecuting()) <= 2 * s.threads)
  }

  ghost predicate Fits(w: World) {
    && (forall o: nat :: TurnsFit(w, o))
    && (forall o: nat :: TasksFit(w, o))
    && WakeUpsFit(w.s)
    && PoolFits(w.s)
  }

  // ----- How counts change

  lemma SignalledCount(workers: seq<Worker>, wake: Option<nat>, p: Worker -> bool)
    requires CanSignal(workers, wake)
    ensures Count(Signalled(workers, wake), p)
            == Count(workers, p) + if wake.None? then 0 else (if p(Awake) then 1 else 0) - (if p(Waiting) then 1 else 0)
    ensures wake.None? ==> Count(workers, IsWaiting()) == 0
  {
    if wake.Some? {
      CountUpdate(workers, wake.value, Awake, p);
    } else {
      CountWitness(workers, IsWaiting());
    }
  }

  lemma AdjustedCount(s: State, p: Worker -> bool)
    ensures Count(Adjusted(s).workers, p) == Count(s.workers, p) + if Adjusted(s) == s || !p(Awake) then 0 else 1
  {
    CountConcat(s.workers, [Awake], p);
  }

  /** Waking and adding workers changes no execution. */
  lemma SignalledPending(workers: seq<Worker>, wake: Option<nat>, o: nat)
    requires CanSignal(workers, wake)
    ensures Gather(Signalled(workers, wake), Pending(o)) == Gather(workers, Pending(o))
  {
    if wake.Some? {
      GatherUpdate(workers, wake.value, Awake, Pending(o));
    }
  }

  lemma AdjustedPending(s: State, o: nat)
    ensures Gather(Adjusted(s).workers, Pending(o)) == Gather(s.workers, Pending(o))
  {
    GatherConcat(s.workers, [Awake], Pending(o));
    GatherOne(Awake, Pending(o));
  }

  lemma {:induction false} ServingAndPending(workers: seq<Worker>, o: nat)
    ensures |Gather(workers, Pending(o))| == Count(workers, Serves(o))
  {
    if workers != [] {
      ServingAndPending(workers[1..], o);
    }
  }

  lemma {:induction false} WaitingOrNot(workers: seq<Worker>)
    ensures Count(workers, IsWaiting()) + Count(workers, NotWaiting()) == |workers|
    ensures Count(workers, IsExecuting()) <= Count(workers, NotWaiting())
  {
    if workers != [] {
      WaitingOrNot(workers[1..]);
    }
  }

  // ----- Turns

  lemma PostTokens(s: State, o: nat, t: nat, isSeq: bool, wake: Option<nat>, i: nat)
    requires MakesReady(s, o, isSeq) ==> CanSignal(s.workers, wake)
    ensures Tokens(Posted(s, o, t, isSeq, wake), i)
            == Tokens(s, i) + if i == o && MakesReady(s, o, isSeq) then 1 else 0
  {
    hide Count;
    var inst := InstOf(s.insts, o);
    if MakesReady(s, o, isSeq) {
      SignalledCount(s.workers, wake, Serves(i));
      AdjustedCount(s.(insts := s.insts[o := Inst(inst.queue + [t], true)], ready := s.ready + [o],
                       workers := Signalled(s.workers, wake)), Serves(i));
    } else {
      AdjustedCount(s.(insts := s.insts[o := Inst(inst.queue + [t], inst.running)]), Serves(i));
    }
  }

  lemma CheckTokens(s: State, k: nat, i: nat)
    requires Enabled(s, Check(k))
    ensures Tokens(Checked(s, k), i)
            == Tokens(s, i) - if !s.stop && s.ready != [] && s.ready[0] == i && InstOf(s.insts, i).queue == [] then 1 else 0
    ensures !s.stop && s.ready != [] ==> Tokens(s, s.ready[0]) > 0
  {
    hide Count;
    CountUpdate(s.workers, k, Checked(s, k).workers[k], Serves(i));
    if s.ready != [] {
      assert s.ready == [s.ready[0]] + s.ready[1..];
    }
  }

  lemma FinishTokens(s: State, k: nat, wake: Option<nat>, i: nat)
    requires Enabled(s, Finish(k, wake))
    ensures Tokens(Finished(s, k, wake), i)
            == Tokens(s, i) - if i == s.workers[k].obj && InstOf(s.insts, i).queue == [] then 1 else 0
    ensures Tokens(s, s.workers[k].obj) > 0
  {
    hide Count;
    CountUpdate(s.workers, k, Awake, Serves(s.workers[k].obj));
    if InstOf(s.insts, s.workers[k].obj).queue != [] {
      SignalledCount(s.workers, wake, Serves(i));
      CountUpdate(Signalled(s.workers, wake), k, Awake, Serves(i));
    } else {
      CountUpdate(s.workers, k, Awake, Serves(i));
    }
  }

  lemma {:induction false} AllWokenCount(workers: seq<Worker>, p: Worker -> bool)
    requires p(Waiting) == p(Awake)
    ensures Count(AllWoken(workers), p) == Count(workers, p)
  {
    if workers != [] {
      AllWokenCount(workers[1..], p);
      assert AllWoken(workers)[1..] == AllWoken(workers[1..]);
    }
  }

  lemma SpuriousTokens(s: State, k: nat, i: nat)
    requires Enabled(s, SpuriousWake(k))
    ensures Tokens(StateStep(s, SpuriousWake(k)), i) == Tokens(s, i)
  {
    hide Count;
    CountUpdate(s.workers, k, Awake, Serves(i));
  }

  lemma StepTurns(w: World, e: Event, w': World, i: nat, base: nat)
    requires Next(w, e, w') && TurnsWithin(w, i, base)
    ensures TurnsWithin(w', i, base)
  {
    hide Count, Tokens;
    match e
    case Post(o, t, isSeq, wake) => PostTokens(w.s, o, t, isSeq, wake, i);
    case Check(k) => CheckTokens(w.s, k, i);
    case Finish(k, wake) => FinishTokens(w.s, k, wake, i);
    case SpuriousWake(k) => SpuriousTokens(w.s, k, i);
    case Stop => AllWokenTokens(w.s, i);
  }

  lemma AllWokenTokens(s: State, i: nat)
    ensures Tokens(Stopped(s), i) == Tokens(s, i)
  {
    AllWokenCount(s.workers, Serves(i));
  }

  // ----- Tasks

  lemma {:induction false} AllWokenPending(workers: seq<Worker>, o: nat)
    ensures Gather(AllWoken(workers), Pending(o)) == Gather(workers, Pending(o))
  {
    if workers == [] {
      assert AllWoken(workers) == workers;
    }
    hide Gather;
    if workers != [] {
      var rest := workers[1..];
      AllWokenPending(rest, o);
      AllWokenSplit(workers);
      hide AllWoken;
      GatherConcat([workers[0]], rest, Pending(o));
      GatherConcat(AllWoken([workers[0]]), AllWoken(rest), Pending(o));
      AllWokenOne(workers[0], o);
    }
  }

  lemma AllWokenSplit(workers: seq<Worker>)
    requires workers != []
    ensures AllWoken(workers) == AllWoken([workers[0]]) + AllWoken(workers[1..])
    ensures workers == [workers[0]] + workers[1..]
  {
  }

  lemma AllWokenOne(worker: Worker, o: nat)
    ensures Gather(AllWoken([worker]), Pending(o)) == Gather([worker], Pending(o))
  {
    GatherOne(AllWoken([worker])[0], Pending(o));
    GatherOne(worker, Pending(o));
    assert AllWoken([worker]) == [AllWoken([worker])[0]];
  }

  lemma PostPending(s: State, o: nat, t: nat, isSeq: bool, wake: Option<nat>, i: nat)
    requires MakesReady(s, o, isSeq) ==> CanSignal(s.workers, wake)
    ensures Gather(Posted(s, o, t, isSeq, wake).workers, Pending(i)) == Gather(s.workers, Pending(i))
  {
    hide Gather;
    var inst := InstOf(s.insts, o);
    if MakesReady(s, o, isSeq) {
      SignalledPending(s.workers, wake, i);
      AdjustedPending(s.(insts := s.insts[o := Inst(inst.queue + [t], true)], ready := s.ready + [o],
                         workers := Signalled(s.workers, wake)), i);
    } else {
      AdjustedPending(s.(insts := s.insts[o := Inst(inst.queue + [t], inst.running)]), i);
    }
  }

  lemma MoveHead(a: seq<nat>, q: seq<nat>)
    requires q != []
    ensures a + q == (a + [q[0]]) + q[1..]
  {
  }

  lemma AddLast(a: seq<nat>, q: seq<nat>, t: nat)
    ensures (a + q) + [t] == a + (q + [t])
  {
  }

  lemma CheckInOrder(w: World, k: nat, i: nat)
    requires Enabled(w.s, Check(k)) && StartsInOrder(w, i)
    ensures StartsInOrder(Step(w, Check(k)), i)
  {
    var before := InstOf(w.s.insts, i).queue;
    if before != [] {
      MoveHead(TasksOf(w.h.started, i), before);
    }
  }

  /** Posting adds at the back of the queue, starting takes from the front, and nothing else moves tasks. */
  lemma StepInOrder(w: World, e: Event, w': World, i: nat)
    requires Next(w, e, w') && StartsInOrder(w, i)
    ensures StartsInOrder(w', i)
  {
    hide CanSignal, Signalled, Checked;
    match e
    case Post(o, t, _, _) => AddLast(TasksOf(w.h.started, i), InstOf(w.s.insts, i).queue, t);
    case Check(k) => CheckInOrder(w, k, i);
    case _ =>
  }

  lemma PostAccounted(w: World, o: nat, t: nat, isSeq: bool, wake: Option<nat>, i: nat)
    requires Enabled(w.s, Post(o, t, isSeq, wake)) && Accounted(w, i)
    ensures Accounted(Step(w, Post(o, t, isSeq, wake)), i)
  {
    hide Gather;
    PostPending(w.s, o, t, isSeq, wake, i);
    hide Posted;
  }

  lemma CheckPending(s: State, k: nat, i: nat)
    requires Enabled(s, Check(k))
    ensures Gather(Checked(s, k).workers, Pending(i))
            == Gather(s.workers, Pending(i)) + if Starts(s, Check(k), i) then multiset{InstOf(s.insts, i).queue[0]} else multiset{}
  {
    hide Gather;
    GatherUpdate(s.workers, k, Checked(s, k).workers[k], Pending(i));
  }

  lemma CheckAccounted(w: World, k: nat, i: nat)
    requires Enabled(w.s, Check(k)) && Accounted(w, i)
    ensures Accounted(Step(w, Check(k)), i)
  {
    hide Gather;
    CheckPending(w.s, k, i);
    hide Checked;
  }

  /** The one task of a list that a longer list adds. */
  lemma LastOne(shorter: seq<nat>, longer: seq<nat>, t: nat)
    requires shorter <= longer && multiset(longer) == multiset(shorter) + multiset{t}
    ensures longer == shorter + [t]
  {
    assert |longer| == |multiset(longer)| == |shorter| + 1;
    var x := longer[|shorter|];
    assert longer == shorter + [x];
    assert multiset(longer)[x] == multiset(shorter)[x] + 1;
  }

  lemma AloneFinishesInOrder(w: World, k: nat)
    requires k < |w.s.workers| && w.s.workers[k].Executing?
    requires var o := w.s.workers[k].obj; TasksFit(w, o) && TurnsFit(w, o) && NumberOf(w.h.parallel, o) == 0
    ensures var o := w.s.workers[k].obj;
            TasksOf(w.h.started, o) == TasksOf(w.h.finished, o) + [w.s.workers[k].task]
  {
    hide Gather, Count;
    var o, t := w.s.workers[k].obj, w.s.workers[k].task;
    ServingAndPending(w.s.workers, o);
    GatherSplitAt(w.s.workers, k, Pending(o));
    assert |Gather(w.s.workers, Pending(o))| <= 1;
    assert Gather(w.s.workers, Pending(o)) == multiset{t};
    LastOne(TasksOf(w.h.finished, o), TasksOf(w.h.started, o), t);
  }

  lemma FinishPending(s: State, k: nat, wake: Option<nat>, i: nat)
    requires Enabled(s, Finish(k, wake))
    ensures Gather(s.workers, Pending(i))
            == Gather(Finished(s, k, wake).workers, Pending(i))
               + if i == s.workers[k].obj then multiset{s.workers[k].task} else multiset{}
  {
    hide Gather;
    var more := InstOf(s.insts, s.workers[k].obj).queue != [];
    var woken := if more then Signalled(s.workers, wake) else s.workers;
    if more {
      SignalledPending(s.workers, wake, i);
    }
    GatherUpdate(woken, k, Awake, Pending(i));
    assert woken[k] == s.workers[k] && Finished(s, k, wake).workers == woken[k := Awake];
    assert Gather(woken, Pending(i)) == Pending(i)(s.workers[k]) + Others(woken, k, Pending(i));
  }

  lemma FinishAccounted(w: World, k: nat, wake: Option<nat>, i: nat)
    requires Enabled(w.s, Finish(k, wake)) && TasksFit(w, i) && TurnsFit(w, i)
    ensures Accounted(Step(w, Finish(k, wake)), i)
  {
    hide Gather, Finished;
    FinishPending(w.s, k, wake, i);
    if w.s.workers[k].obj == i && NumberOf(w.h.parallel, i) == 0 {
      AloneFinishesInOrder(w, k);
    }
  }

  lemma StepTasks(w: World, e: Event, w': World, i: nat)
    requires Next(w, e, w') && TasksFit(w, i) && TurnsFit(w, i)
    ensures TasksFit(w', i)
  {
    hide Gather, TurnsFit, StartsInOrder;
    StepInOrder(w, e, w', i);
    match e
    case Post(o, t, isSeq, wake) => PostAccounted(w, o, t, isSeq, wake, i);
    case Check(k) => CheckAccounted(w, k, i);
    case Finish(k, wake) => FinishAccounted(w, k, wake, i);
    case SpuriousWake(k) => GatherUpdate(w.s.workers, k, Awake, Pending(i));
    case Stop => AllWokenPending(w.s.workers, i);
  }

  // ----- Wake-ups and the pool

  lemma PostCounts(s: State, o: nat, t: nat, isSeq: bool, wake: Option<nat>)
    requires Enabled(s, Post(o, t, isSeq, wake)) && WakeUpsFit(s) && PoolFits(s)
    ensures WakeUpsFit(Posted(s, o, t, isSeq, wake)) && PoolFits(Posted(s, o, t, isSeq, wake))
  {
    hide Count;
    var inst := InstOf(s.insts, o);
    WaitingOrNot(s.workers);
    var s1 := if MakesReady(s, o, isSeq)
              then s.(insts := s.insts[o := Inst(inst.queue + [t], true)], ready := s.ready + [o],
                      workers := Signalled(s.workers, wake))
              else s.(insts := s.insts[o := Inst(inst.queue + [t], inst.running)]);
    if MakesReady(s, o, isSeq) {
      SignalledCount(s.workers, wake, IsWaiting());
      SignalledCount(s.workers, wake, NotWaiting());
      SignalledCount(s.workers, wake, IsExecuting());
    }
    AdjustedCount(s1, IsWaiting());
    AdjustedCount(s1, NotWaiting());
    AdjustedCount(s1, IsExecuting());
  }

  lemma CheckCounts(s: State, k: nat)
    requires Enabled(s, Check(k)) && WakeUpsFit(s) && PoolFits(s)
    ensures WakeUpsFit(Checked(s, k)) && PoolFits(Checked(s, k))
  {
    hide Count;
    var x := Checked(s, k).workers[k];
    CountUpdate(s.workers, k, x, IsWaiting());
    CountUpdate(s.workers, k, x, NotWaiting());
    CountUpdate(s.workers, k, x, IsExecuting());
  }

  lemma FinishCounts(s: State, k: nat, wake: Option<nat>)
    requires Enabled(s, Finish(k, wake)) && WakeUpsFit(s) && PoolFits(s)
    ensures WakeUpsFit(Finished(s, k, wake)) && PoolFits(Finished(s, k, wake))
  {
    hide Count;
    var more := InstOf(s.insts, s.workers[k].obj).queue != [];
    var woken := if more then Signalled(s.workers, wake) else s.workers;
    if more {
      SignalledCount(s.workers, wake, IsWaiting());
      SignalledCount(s.workers, wake, NotWaiting());
      SignalledCount(s.workers, wake, IsExecuting());
    }
    CountUpdate(woken, k, Awake, IsWaiting());
    CountUpdate(woken, k, Awake, NotWaiting());
    CountUpdate(woken, k, Awake, IsExecuting());
  }

  lemma StepCounts(s: State, e: Event)
    requires Enabled(s, e) && WakeUpsFit(s) && PoolFits(s)
    ensures WakeUpsFit(StateStep(s, e)) && PoolFits(StateStep(s, e))
    ensures StateStep(s, e).threads >= s.threads
  {
    hide Count, WakeUpsFit, PoolFits;
    match e
    case Post(o, t, isSeq, wake) => PostCounts(s, o, t, isSeq, wake);
    case Check(k) => CheckCounts(s, k);
    case Finish(k, wake) => FinishCounts(s, k, wake);
    case SpuriousWake(k) => SpuriousCounts(s, k);
    case Stop => StopCounts(s);
  }

  lemma SpuriousCounts(s: State, k: nat)
    requires Enabled(s, SpuriousWake(k)) && WakeUpsFit(s) && PoolFits(s)
    ensures WakeUpsFit(StateStep(s, SpuriousWake(k))) && PoolFits(StateStep(s, SpuriousWake(k)))
  {
    hide Count;
    CountUpdate(s.workers, k, Awake, IsWaiting());
    CountUpdate(s.workers, k, Awake, NotWaiting());
    CountUpdate(s.workers, k, Awake, IsExecuting());
  }

  lemma StopCounts(s: State)
    requires WakeUpsFit(s) && PoolFits(s)
    ensures WakeUpsFit(Stopped(s)) && PoolFits(Stopped(s))
  {
    hide Count;
    CountWitness(AllWoken(s.workers), IsWaiting());
    AllWokenCount(s.workers, IsExecuting());
  }

  lemma InitialFits(w: World)
    requires Initial(w)
    ensures Fits(w)
  {
    CountWitness(w.s.workers, IsWaiting());
    CountWitness(w.s.workers, IsExecuting());
    forall o: nat
      ensures TurnsFit(w, o) && TasksFit(w, o)
    {
      CountWitness(w.s.workers, Serves(o));
      GatherUnfold([Awake, Awake], Pending(o));
      GatherUnfold([Awake, Awake][1..], Pending(o));
    }
  }

  lemma StepFits(w: World, e: Event, w': World)
    requires Fits(w) && Next(w, e, w')
    ensures Fits(w')
  {
    hide TurnsWithin, TasksFit, WakeUpsFit, PoolFits;
    StepCounts(w.s, e);
    forall o: nat
      ensures TurnsFit(w', o) && TasksFit(w', o)
    {
      assert TurnsFit(w, o) && TasksFit(w, o);
      StepTurns(w, e, w', o, 0);
      StepTasks(w, e, w', o);
    }
  }

  /** The invariants hold in every state of every run. */
  lemma {:induction false} AlwaysFits(ws: seq<World>, es: seq<Event>, i: nat)
    requires IsRun(ws, es) && Initial(ws[0]) && i < |ws|
    ensures Fits(ws[i])
  {
    if i == 0 {
      InitialFits(ws[0]);
    } else {
      hide Fits, Next;
      AlwaysFits(ws, es, i - 1);
      StepFits(ws[i - 1], es[i - 1], ws[i]);
    }
  }
}
