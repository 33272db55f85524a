/**
 Queue, workers and result table together: a task is drawn a handle, registered,
 posted, executed by a worker, and reports its value before it finishes. The
 critical sections of different callers and workers interleave freely.
 */
module Services {
  import opened Options
  import opened Bags
  import D = Dispatch
  import DI = DispatchInvariants
  import DD = DispatchDrain
  import R = Results

  /** Tasks are known by the number of their draw. home: where each was posted; reported: workers past their report. */
  datatype World = World(d: D.World, r: R.World, home: map<nat, nat>, reported: set<nat>)

  datatype Event =
    | Draw
    | Register(i: nat)
    | Submit(i: nat, o: nat, isSeq: bool, wake: Option<nat>)
    | Report(k: nat, value: int)
    | Work(e: D.Event)

  /** Only posts that return a handle for a result register it, and they do so before they submit the task. */
  predicate Enabled(w: World, e: Event) {
    match e
    case Draw => true
    case Register(i) => R.Enabled(w.r, R.Register(i)) && i !in w.home
    case Submit(i, o, isSeq, wake) =>
      i < w.r.drawn && i !in w.home && D.Enabled(w.d.s, D.Post(o, i, isSeq, wake))
    case Report(k, _) =>
      && k < |w.d.s.workers| && w.d.s.workers[k].Executing? && k !in w.reported
      && w.d.s.workers[k].task in w.r.registered
      && R.NotStale(w.r, w.d.s.workers[k].task)
    case Work(de) =>
      && !de.Post?
      && D.Enabled(w.d.s, de)
      && (de.Finish? && w.d.s.workers[de.k].task in w.r.registered ==> de.k in w.reported)
  }

  function Step(w: World, e: Event): World
    requires Enabled(w, e)
  {
    match e
    case Draw => w.(r := R.Step(w.r, R.Draw))
    case Register(i) => w.(r := R.Step(w.r, R.Register(i)))
    case Submit(i, o, isSeq, wake) => w.(d := D.Step(w.d, D.Post(o, i, isSeq, wake)), home := w.home[i := o])
    case Report(k, value) =>
      w.(r := R.Step(w.r, R.Produce(w.d.s.workers[k].task, value)), reported := w.reported + {k})
    case Work(de) =>
      w.(d := D.Step(w.d, de), reported := if de.Finish? then w.reported - {de.k} else w.reported)
  }

  predicate Initial(w: World) {
    D.Initial(w.d) && R.Initial(w.r) && w.home == map[] && w.reported == {}
  }

  ghost predicate Next(w: World, e: Event, w': World) {
    Enabled(w, e) && w' == Step(w, e)
  }

  ghost predicate IsRun(ws: seq<World>, es: seq<Event>) {
    && |ws| == |es| + 1
    && forall i :: 0 <= i < |es| ==> Next(ws[i], es[i], ws[i + 1])
  }

  /** Every task is posted once, to one instance. */
  ghost predicate PostedOnce(w: World) {
    forall o: nat, t: nat :: OnceAt(D.TasksOf(w.d.h.posted, o), w.home, o, t)
  }

  ghost predicate OnceAt(posted: seq<nat>, home: map<nat, nat>, o: nat, t: nat) {
    && multiset(posted)[t] <= 1
    && (t in posted <==> t in home && home[t] == o)
  }

  /** Values come from tasks that were started, and from no execution that is still to report. */
  ghost predicate ReportedOnce(w: World) {
    && (forall t :: t in w.r.produced ==> t in w.home && t in D.TasksOf(w.d.h.started, w.home[t]))
    && (forall k :: 0 <= k < |w.d.s.workers| && w.d.s.workers[k].Executing? && k !in w.reported ==>
          w.d.s.workers[k].task !in w.r.produced)
    && (forall k :: k in w.reported ==>
          k < |w.d.s.workers| && w.d.s.workers[k].Executing? && w.d.s.workers[k].task in w.r.produced)
  }

  /** A registered task has its value by the time it is finished; no task is registered after it was posted. */
  ghost predicate FinishedReported(w: World) {
    forall o: nat, t: nat :: t in D.TasksOf(w.d.h.finished, o) && t in w.r.registered ==> t in w.r.produced
  }

  ghost predicate Linked(w: World) {
    && DI.Fits(w.d)
    && R.Agrees(w.r)
    && PostedOnce(w)
    && ReportedOnce(w)
    && FinishedReported(w)
  }

  // ----- Facts about one state

  /** A task that a worker executes was started, and only one worker executes it, and it is not finished. */
  lemma ExecutedOnce(w: World, k: nat)
    requires DI.Fits(w.d) && PostedOnce(w)
    requires k < |w.d.s.workers| && w.d.s.workers[k].Executing?
    ensures var o, t := w.d.s.workers[k].obj, w.d.s.workers[k].task;
            && t in D.TasksOf(w.d.h.started, o) && t in w.home && w.home[t] == o
            && t !in D.TasksOf(w.d.h.finished, o)
            && (forall l :: 0 <= l < |w.d.s.workers| && l != k && w.d.s.workers[l].Executing? ==> w.d.s.workers[l].task != t)
  {
    var o, t := w.d.s.workers[k].obj, w.d.s.workers[k].task;
    StartedOnce(w, k, o, t);
    forall l | 0 <= l < |w.d.s.workers| && l != k && w.d.s.workers[l].Executing?
      ensures w.d.s.workers[l].task != t
    {
      if w.d.s.workers[l].task == t {
        StartedOnce(w, l, w.d.s.workers[l].obj, t);
        PendingTwice(w.d.s.workers, if k < l then k else l, if k < l then l else k, o, t);
      }
    }
  }

  lemma StartedOnce(w: World, k: nat, o: nat, t: nat)
    requires DI.Fits(w.d) && PostedOnce(w)
    requires k < |w.d.s.workers| && w.d.s.workers[k] == D.Executing(o, t)
    ensures t in D.TasksOf(w.d.h.started, o) && t in w.home && w.home[t] == o
    ensures t !in D.TasksOf(w.d.h.finished, o)
    ensures Gather(w.d.s.workers, D.Pending(o))[t] == 1
  {
    hide Gather;
    var posted: seq<nat>, started: seq<nat>, queue: seq<nat> := D.TasksOf(w.d.h.posted, o), D.TasksOf(w.d.h.started, o), D.InstOf(w.d.s.insts, o).queue;
    assert DI.TasksFit(w.d, o);
    GatherContains(w.d.s.workers, w.d.s.workers[k], D.Pending(o));
    assert multiset(posted)[t] == multiset(started)[t] + multiset(queue)[t];
    assert OnceAt(posted, w.home, o, t);
    assert t in multiset(started);
    assert t in started && t in posted;
  }

  lemma PendingTwice(workers: seq<D.Worker>, k: nat, l: nat, o: nat, t: nat)
    requires k < l < |workers| && workers[k] == D.Executing(o, t) && workers[l] == D.Executing(o, t)
    ensures Gather(workers, D.Pending(o))[t] >= 2
  {
    hide Gather;
    GatherSplitAt(workers, k, D.Pending(o));
    var rest := workers[..k] + workers[k + 1..];
    assert rest[l - 1] == workers[l];
    GatherContains(rest, workers[l], D.Pending(o));
  }

  /** A queued task has not been started. */
  lemma QueuedNotStarted(w: World, o: nat)
    requires DI.Fits(w.d) && PostedOnce(w) && D.InstOf(w.d.s.insts, o).queue != []
    ensures var t := D.InstOf(w.d.s.insts, o).queue[0];
            t !in D.TasksOf(w.d.h.started, o) && t in w.home && w.home[t] == o
  {
    var posted: seq<nat>, started: seq<nat>, queue: seq<nat> := D.TasksOf(w.d.h.posted, o), D.TasksOf(w.d.h.started, o), D.InstOf(w.d.s.insts, o).queue;
    var t := queue[0];
    assert DI.TasksFit(w.d, o);
    hide DI.Fits, DI.Accounted;
    assert multiset(posted)[t] == multiset(started)[t] + multiset(queue)[t];
    assert OnceAt(posted, w.home, o, t) && t in multiset(queue);
    assert t in posted;
  }

  // ----- Steps

  lemma SubmitLinked(w: World, i: nat, o: nat, isSeq: bool, wake: Option<nat>)
    requires PostedOnce(w) && ReportedOnce(w) && Enabled(w, Submit(i, o, isSeq, wake))
    ensures PostedOnce(Step(w, Submit(i, o, isSeq, wake)))
    ensures ReportedOnce(Step(w, Submit(i, o, isSeq, wake)))
  {
    SubmitPostsOnce(w, Step(w, Submit(i, o, isSeq, wake)), i, o);
    PostKeepsExecutions(w.d.s, o, i, isSeq, wake);
    hide PostedOnce, ReportedOnce, D.StateStep;
    SameExecutions(w, Step(w, Submit(i, o, isSeq, wake)));
  }

  lemma SameExecutions(w: World, w': World)
    requires ReportedOnce(w)
    requires w'.r == w.r && w'.reported == w.reported && w'.d.h.started == w.d.h.started
    requires forall t :: t in w.home ==> t in w'.home && w'.home[t] == w.home[t]
    requires |w.d.s.workers| <= |w'.d.s.workers|
    requires forall k :: 0 <= k < |w.d.s.workers| ==>
      w.d.s.workers[k].Executing? || w'.d.s.workers[k].Executing? ==> w'.d.s.workers[k] == w.d.s.workers[k]
    requires forall k :: |w.d.s.workers| <= k < |w'.d.s.workers| ==> !w'.d.s.workers[k].Executing?
    ensures ReportedOnce(w')
  {
  }

  lemma SubmitPostsOnce(w: World, w': World, i: nat, o: nat)
    requires PostedOnce(w) && i !in w.home && w'.home == w.home[i := o]
    requires w'.d.h.posted == w.d.h.posted[o := D.TasksOf(w.d.h.posted, o) + [i]]
    ensures PostedOnce(w')
  {
    var was: seq<nat> := D.TasksOf(w.d.h.posted, o);
    assert OnceAt(was, w.home, o, i);
    forall p: nat, t: nat
      ensures OnceAt(D.TasksOf(w'.d.h.posted, p), w'.home, p, t)
    {
      assert OnceAt(D.TasksOf(w.d.h.posted, p), w.home, p, t);
    }
  }

  /** A post disturbs no execution. */
  lemma PostKeepsExecutions(s: D.State, o: nat, t: nat, isSeq: bool, wake: Option<nat>)
    requires D.Enabled(s, D.Post(o, t, isSeq, wake))
    ensures var s' := D.StateStep(s, D.Post(o, t, isSeq, wake));
            && |s.workers| <= |s'.workers|
            && (forall k :: 0 <= k < |s.workers| ==> s.workers[k].Executing? || s'.workers[k].Executing? ==> s'.workers[k] == s.workers[k])
            && (forall k :: |s.workers| <= k < |s'.workers| ==> !s'.workers[k].Executing?)
  {
  }

  lemma ReportLinked(w: World, k: nat, value: int)
    requires Linked(w) && Enabled(w, Report(k, value))
    ensures R.Enabled(w.r, R.Produce(w.d.s.workers[k].task, value))
    ensures Linked(Step(w, Report(k, value)))
  {
    var t := w.d.s.workers[k].task;
    assert t !in w.r.produced;
    R.StepAgrees(w.r, R.Produce(t, value), R.Step(w.r, R.Produce(t, value)));
    ExecutedOnce(w, k);
    hide DI.Fits, R.Agrees, R.Reported;
  }

  lemma StartLinked(w: World, k: nat)
    requires DI.Fits(w.d) && PostedOnce(w) && ReportedOnce(w) && Enabled(w, Work(D.Check(k)))
    ensures ReportedOnce(Step(w, Work(D.Check(k))))
  {
    var s := w.d.s;
    if !s.stop && s.ready != [] && D.InstOf(s.insts, s.ready[0]).queue != [] {
      QueuedNotStarted(w, s.ready[0]);
    }
    hide DI.Fits;
  }

  lemma FinishLinked(w: World, k: nat, wake: Option<nat>)
    requires ReportedOnce(w) && FinishedReported(w) && Enabled(w, Work(D.Finish(k, wake)))
    ensures ReportedOnce(Step(w, Work(D.Finish(k, wake))))
    ensures FinishedReported(Step(w, Work(D.Finish(k, wake))))
  {
    var w' := Step(w, Work(D.Finish(k, wake)));
    FinishKeepsExecutions(w.d.s, k, wake);
    forall o: nat, t: nat | t in D.TasksOf(w'.d.h.finished, o) && t in w'.r.registered
      ensures t in w'.r.produced
    {
      if t !in D.TasksOf(w.d.h.finished, o) {
        assert w.d.s.workers[k] == D.Executing(o, t);
      }
    }
    hide D.StateStep;
  }

  /** Finishing disturbs no other execution. */
  lemma FinishKeepsExecutions(s: D.State, k: nat, wake: Option<nat>)
    requires D.Enabled(s, D.Finish(k, wake))
    ensures var s' := D.StateStep(s, D.Finish(k, wake));
            && |s'.workers| == |s.workers|
            && !s'.workers[k].Executing?
            && (forall l :: 0 <= l < |s.workers| && l != k ==> s.workers[l].Executing? || s'.workers[l].Executing? ==> s'.workers[l] == s.workers[l])
  {
  }

  lemma WorkLinked(w: World, de: D.Event)
    requires Linked(w) && Enabled(w, Work(de))
    ensures PostedOnce(Step(w, Work(de))) && ReportedOnce(Step(w, Work(de))) && FinishedReported(Step(w, Work(de)))
  {
    hide DI.Fits, R.Agrees, PostedOnce, ReportedOnce, FinishedReported, D.StateStep;
    WorkPosted(w, de);
    match de
    case Check(k) => StartLinked(w, k); StartFinished(w, k);
    case Finish(k, wake) => FinishLinked(w, k, wake);
    case SpuriousWake(_) | Stop => WakeLinked(w, de);
  }

  lemma WorkPosted(w: World, de: D.Event)
    requires PostedOnce(w) && Enabled(w, Work(de))
    ensures PostedOnce(Step(w, Work(de)))
  {
    hide OnceAt, D.StateStep;
  }

  lemma StartFinished(w: World, k: nat)
    requires FinishedReported(w) && Enabled(w, Work(D.Check(k)))
    ensures FinishedReported(Step(w, Work(D.Check(k))))
  {
    hide D.StateStep;
  }

  lemma WakeLinked(w: World, de: D.Event)
    requires ReportedOnce(w) && FinishedReported(w) && Enabled(w, Work(de)) && (de.SpuriousWake? || de.Stop?)
    ensures ReportedOnce(Step(w, Work(de))) && FinishedReported(Step(w, Work(de)))
  {
    hide ReportedOnce;
    SameExecutions(w, Step(w, Work(de)));
  }

  lemma StepLinked(w: World, e: Event, w': World)
    requires Linked(w) && Next(w, e, w')
    ensures Linked(w')
  {
    match e
    case Draw => R.StepAgrees(w.r, R.Draw, w'.r);
    case Register(i) =>
      R.StepAgrees(w.r, R.Register(i), w'.r);
      RegisterLinked(w, i);
    case Submit(i, o, isSeq, wake) =>
      DI.StepFits(w.d, D.Post(o, i, isSeq, wake), w'.d);
      SubmitLinked(w, i, o, isSeq, wake);
    case Report(k, value) => ReportLinked(w, k, value);
    case Work(de) =>
      DI.StepFits(w.d, de, w'.d);
      WorkLinked(w, de);
  }

  lemma RegisterLinked(w: World, i: nat)
    requires DI.Fits(w.d) && PostedOnce(w) && FinishedReported(w) && Enabled(w, Register(i))
    ensures FinishedReported(Step(w, Register(i)))
  {
    var w' := Step(w, Register(i));
    forall o: nat, t: nat | t in D.TasksOf(w'.d.h.finished, o) && t in w'.r.registered
      ensures t in w'.r.produced
    {
      FinishedIsPosted(w.d, o, t);
      assert OnceAt(D.TasksOf(w.d.h.posted, o), w.home, o, t);
    }
  }

  lemma FinishedIsPosted(d: D.World, o: nat, t: nat)
    requires DI.Fits(d) && t in D.TasksOf(d.h.finished, o)
    ensures t in D.TasksOf(d.h.started, o) && t in D.TasksOf(d.h.posted, o)
  {
    hide Gather;
    assert DI.TasksFit(d, o);
    assert t in multiset(D.TasksOf(d.h.finished, o));
    assert t in multiset(D.TasksOf(d.h.started, o));
  }

  lemma InitialLinked(w: World)
    requires Initial(w)
    ensures Linked(w)
  {
    DI.InitialFits(w.d);
  }

  lemma {:induction false} AlwaysLinked(ws: seq<World>, es: seq<Event>, i: nat)
    requires IsRun(ws, es) && Initial(ws[0]) && i < |ws|
    ensures Linked(ws[i])
  {
    hide Linked, Next, Initial;
    if i == 0 {
      InitialLinked(ws[0]);
    } else {
      AlwaysLinked(ws, es, i - 1);
      StepLinked(ws[i - 1], es[i - 1], ws[i]);
    }
  }

  // ----- Theorems

  /** Each task reports at most once: a report never meets a value that is already there. */
  lemma ReportsOnce(ws: seq<World>, es: seq<Event>, i: nat)
    requires IsRun(ws, es) && Initial(ws[0]) && i < |es| && es[i].Report?
    ensures es[i].k < |ws[i].d.s.workers| && ws[i].d.s.workers[es[i].k].Executing?
    ensures var t := ws[i].d.s.workers[es[i].k].task;
            t !in ws[i].r.produced && t in ws[i + 1].r.produced && ws[i + 1].r.produced[t] == es[i].value
  {
    AlwaysLinked(ws, es, i);
    assert Next(ws[i], es[i], ws[i + 1]);
  }

  /**
   A caller that finds a result for a handle finds the value its own task
   reported. Once the workers are idle, each of the last hundred registered
   handles whose task was posted has its result.
   */
  lemma WaitFindsOwnResult(ws: seq<World>, es: seq<Event>, n: nat, i: nat)
    requires IsRun(ws, es) && Initial(ws[0]) && n < |ws|
    requires i in R.LastOf(ws[n].r.registered)
    ensures forall value :: R.Found(ws[n].r.t, R.HandleOf(i)) == Some(value) <==>
              i in ws[n].r.produced && ws[n].r.produced[i] == value
    ensures i in ws[n].home && DD.Idle(ws[n].d.s) ==> R.Found(ws[n].r.t, R.HandleOf(i)).Some?
  {
    AlwaysLinked(ws, es, n);
    LastFound(ws[n].r, i);
    if i in ws[n].home && DD.Idle(ws[n].d.s) {
      IdleReported(ws[n], i);
    }
  }

  lemma LastFound(r: R.World, i: nat)
    requires R.Agrees(r) && i in R.LastOf(r.registered)
    ensures i in r.registered
    ensures R.Found(r.t, R.HandleOf(i)) == if i in r.produced then Some(r.produced[i]) else None
  {
    hide R.HandleOf;
    R.LastIsSome(r.registered, i);
  }

  lemma IdleReported(w: World, i: nat)
    requires Linked(w) && DD.Idle(w.d.s) && i in w.home && i in w.r.registered
    ensures i in w.r.produced
  {
    hide R.Agrees, ReportedOnce;
    var posted: seq<nat>, finished: seq<nat> := D.TasksOf(w.d.h.posted, w.home[i]), D.TasksOf(w.d.h.finished, w.home[i]);
    DD.IdleIsComplete(w.d, w.home[i]);
    hide DI.Fits;
    assert OnceAt(posted, w.home, w.home[i], i);
    assert i in multiset(posted) && i in multiset(finished);
  }
}
