/**
 The dispatcher as a transition system. A step is one critical section of the
 dispatcher's lock; tasks run between two steps, with the lock released.
 */
module Dispatch {
  import opened Options
  import opened Bags

  const DEFAULT_THREADS: nat := 2
  const MAX_THREADS: nat := 8

  /** Instances and tasks are known by number; every posting makes a new task. */
  datatype Inst = Inst(queue: seq<nat>, running: bool)

  /** Awake workers are about to take the lock; waiting ones sleep on the condition variable. */
  datatype Worker = Awake | Waiting | Executing(obj: nat, task: nat) | Exited

  datatype State = State(insts: map<nat, Inst>, ready: seq<nat>, workers: seq<Worker>, threads: nat, stop: bool)

  /** What has happened so far, by instance; parallel counts the parallel posts that found the instance running. */
  datatype History = History(posted: map<nat, seq<nat>>, started: map<nat, seq<nat>>, finished: map<nat, seq<nat>>,
                             parallel: map<nat, nat>)

  datatype World = World(s: State, h: History)

  /** The table makes an entry for an instance when it is first looked up. */
  function InstOf(insts: map<nat, Inst>, o: nat): Inst {
    if o in insts then insts[o] else Inst([], false)
  }

  function TasksOf(m: map<nat, seq<nat>>, o: nat): seq<nat> {
    if o in m then m[o] else []
  }

  function NumberOf(m: map<nat, nat>, o: nat): nat {
    if o in m then m[o] else 0
  }

  /** A signal wakes one waiting worker, if there is one; which one is not promised. */
  predicate CanSignal(workers: seq<Worker>, wake: Option<nat>) {
    match wake
    case Some(k) => k < |workers| && workers[k].Waiting?
    case None => forall k :: 0 <= k < |workers| ==> !workers[k].Waiting?
  }

  function Signalled(workers: seq<Worker>, wake: Option<nat>): seq<Worker>
    requires CanSignal(workers, wake)
  {
    if wake.Some? then workers[wake.value := Awake] else workers
  }

  // ----- Steps on the state

  /** One more worker if more instances are ready than there are workers, up to the maximum. */
  function Adjusted(s: State): State {
    if |s.ready| > s.threads && s.threads < MAX_THREADS
    then s.(workers := s.workers + [Awake], threads := s.threads + 1)
    else s
  }

  /** A post makes the instance ready unless it is running already and the task is to keep its order. */
  predicate MakesReady(s: State, o: nat, isSeq: bool) {
    !InstOf(s.insts, o).running || !isSeq
  }

  function Posted(s: State, o: nat, t: nat, isSeq: bool, wake: Option<nat>): State
    requires MakesReady(s, o, isSeq) ==> CanSignal(s.workers, wake)
  {
    var inst := InstOf(s.insts, o);
    var queue := inst.queue + [t];
    Adjusted(
      if MakesReady(s, o, isSeq)
      then s.(insts := s.insts[o := Inst(queue, true)], ready := s.ready + [o], workers := Signalled(s.workers, wake))
      else s.(insts := s.insts[o := Inst(queue, inst.running)]))
  }

  /** An awake worker exits, goes to sleep, takes the first task of the first ready instance, or finds none there. */
  function Checked(s: State, k: nat): State
    requires k < |s.workers|
  {
    if s.stop then s.(workers := s.workers[k := Exited])
    else if s.ready == [] then s.(workers := s.workers[k := Waiting])
    else
      var o := s.ready[0];
      var inst := InstOf(s.insts, o);
      if inst.queue == []
      then s.(ready := s.ready[1..], insts := s.insts[o := Inst([], false)])
      else s.(ready := s.ready[1..],
              insts := s.insts[o := Inst(inst.queue[1..], inst.running)],
              workers := s.workers[k := Executing(o, inst.queue[0])])
  }

  /** A worker is done with a task: the instance becomes ready again if it has more, and stops running otherwise. */
  function Finished(s: State, k: nat, wake: Option<nat>): State
    requires k < |s.workers| && s.workers[k].Executing?
    requires InstOf(s.insts, s.workers[k].obj).queue != [] ==> CanSignal(s.workers, wake)
  {
    var o := s.workers[k].obj;
    var inst := InstOf(s.insts, o);
    if inst.queue != []
    then s.(ready := s.ready + [o], workers := Signalled(s.workers, wake)[k := Awake])
    else s.(insts := s.insts[o := Inst([], false)], workers := s.workers[k := Awake])
  }

  function AllWoken(workers: seq<Worker>): (r: seq<Worker>)
    ensures |r| == |workers|
    ensures forall i :: 0 <= i < |r| ==> r[i] == if workers[i].Waiting? then Awake else workers[i]
  {
    seq(|workers|, i requires 0 <= i < |workers| => if workers[i].Waiting? then Awake else workers[i])
  }

  function Stopped(s: State): State {
    s.(stop := true, workers := AllWoken(s.workers))
  }

  // ----- Events

  datatype Event =
    | Post(o: nat, t: nat, isSeq: bool, wake: Option<nat>)
    | Check(k: nat)
    | Finish(k: nat, wake: Option<nat>)
    | SpuriousWake(k: nat)
    | Stop

  predicate Enabled(s: State, e: Event) {
    match e
    case Post(o, _, isSeq, wake) => MakesReady(s, o, isSeq) ==> CanSignal(s.workers, wake)
    case Check(k) => k < |s.workers| && s.workers[k].Awake?
    case Finish(k, wake) =>
      && k < |s.workers| && s.workers[k].Executing?
      && (InstOf(s.insts, s.workers[k].obj).queue != [] ==> CanSignal(s.workers, wake))
    case SpuriousWake(k) => k < |s.workers| && s.workers[k].Waiting?
    case Stop => true
  }

  function StateStep(s: State, e: Event): State
    requires Enabled(s, e)
  {
    match e
    case Post(o, t, isSeq, wake) => Posted(s, o, t, isSeq, wake)
    case Check(k) => Checked(s, k)
    case Finish(k, wake) => Finished(s, k, wake)
    case SpuriousWake(k) => s.(workers := s.workers[k := Awake])
    case Stop => Stopped(s)
  }

  /** The check starts a task of instance o. */
  predicate Starts(s: State, e: Event, o: nat) {
    e.Check? && !s.stop && s.ready != [] && s.ready[0] == o && InstOf(s.insts, o).queue != []
  }

  function HistoryStep(w: World, e: Event): History
    requires Enabled(w.s, e)
  {
    var h := w.h;
    match e
    case Post(o, t, isSeq, _) =>
      h.(posted := h.posted[o := TasksOf(h.posted, o) + [t]],
         parallel := if !isSeq && InstOf(w.s.insts, o).running then h.parallel[o := NumberOf(h.parallel, o) + 1] else h.parallel)
    case Check(_) =>
      if w.s.ready != [] && Starts(w.s, e, w.s.ready[0])
      then
        var o := w.s.ready[0];
        h.(started := h.started[o := TasksOf(h.started, o) + [InstOf(w.s.insts, o).queue[0]]])
      else h
    case Finish(k, _) =>
      var o := w.s.workers[k].obj;
      h.(finished := h.finished[o := TasksOf(h.finished, o) + [w.s.workers[k].task]])
    case _ => h
  }

  function Step(w: World, e: Event): World
    requires Enabled(w.s, e)
  {
    World(StateStep(w.s, e), HistoryStep(w, e))
  }

  predicate Initial(w: World) {
    && w.s == State(map[], [], [Awake, Awake], DEFAULT_THREADS, false)
    && w.h == History(map[], map[], map[], map[])
  }

  ghost predicate Next(w: World, e: Event, w': World) {
    Enabled(w.s, e) && w' == Step(w, e)
  }

  ghost predicate IsRun(ws: seq<World>, es: seq<Event>) {
    && |ws| == |es| + 1
    && forall i :: 0 <= i < |es| ==> Next(ws[i], es[i], ws[i + 1])
  }

  // ----- Counting

  function IsWaiting(): Worker -> bool {
    (k: Worker) => k.Waiting?
  }

  function IsExecuting(): Worker -> bool {
    (k: Worker) => k.Executing?
  }

  function Serves(o: nat): Worker -> bool {
    (k: Worker) => k.Executing? && k.obj == o
  }

  /** The turns that instance o has: its entries in the ready queue, and the workers executing it. */
  function Tokens(s: State, o: nat): nat {
    multiset(s.ready)[o] + Count(s.workers, Serves(o))
  }

  function RunFlag(s: State, o: nat): nat {
    if InstOf(s.insts, o).running then 1 else 0
  }

  /** Tasks of instance o that workers are executing. */
  function Pending(o: nat): Worker -> multiset<nat> {
    (k: Worker) => if k.Executing? && k.obj == o then multiset{k.task} else multiset{}
  }

  ghost function AnyKey(insts: map<nat, Inst>): (o: nat)
    requires insts != map[]
    ensures o in insts
  {
    var o :| o in insts;
    o
  }

  /** All queued tasks, over all instances. */
  ghost function Queued(insts: map<nat, Inst>): nat
    decreases |insts|
  {
    if insts == map[] then 0
    else
      var o := AnyKey(insts);
      assert insts.Keys == (insts - {o}).Keys + {o};
      |insts[o].queue| + Queued(insts - {o})
  }

  /** The work left to do: every work step lowers it. */
  ghost function Work(s: State): nat {
    2 * Queued(s.insts) + 2 * Count(s.workers, IsExecuting()) + |s.ready|
  }
}
