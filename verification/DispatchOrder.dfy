/**
 Completion order: once an instance has no spare turns, its tasks finish in the
 order in which they were posted, until the next parallel post that finds it running.
 */
module DispatchOrder {
  import opened Options
  import opened Bags
  import opened Dispatch
  import opened DispatchInvariants
  import opened DispatchRuns

  /** The tasks of o that workers are executing. */
  function Held(workers: seq<Worker>, o: nat): seq<nat> {
    if workers == [] then []
    else (if Serves(o)(workers[0]) then [workers[0].task] else []) + Held(workers[1..], o)
  }

  lemma {:induction false} HeldIsPending(workers: seq<Worker>, o: nat)
    ensures multiset(Held(workers, o)) == Gather(workers, Pending(o))
    ensures |Held(workers, o)| == Count(workers, Serves(o))
  {
    if workers != [] {
      HeldIsPending(workers[1..], o);
    }
  }

  /** With one turn, the only task in execution is the one that worker k executes. */
  lemma OnlyPending(s: State, o: nat, k: nat)
    requires Tokens(s, o) <= 1 && k < |s.workers| && s.workers[k].Executing? && s.workers[k].obj == o
    ensures Gather(s.workers, Pending(o)) == multiset{s.workers[k].task}
  {
    hide Gather, Count;
    ServingAndPending(s.workers, o);
    GatherSplitAt(s.workers, k, Pending(o));
    assert |Gather(s.workers, Pending(o))| <= 1;
  }

  /** What has finished since w0 is, in order, what was executing then and what has started since. */
  ghost predicate InOrderSince(w0: World, w: World, o: nat) {
    var begun, done := TasksOf(w0.h.started, o), TasksOf(w0.h.finished, o);
    && begun <= TasksOf(w.h.started, o)
    && done <= TasksOf(w.h.finished, o)
    && TasksOf(w.h.finished, o)[|done|..] <= Held(w0.s.workers, o) + TasksOf(w.h.started, o)[|begun|..]
  }

  lemma CancelLeft(x: multiset<nat>, a: multiset<nat>, b: multiset<nat>)
    requires x + a == x + b
    ensures a == b
  {
    forall t: nat
      ensures a[t] == b[t]
    {
      assert (x + a)[t] == (x + b)[t];
    }
    assert forall t :: t in a || t in b ==> a[t] == b[t];
  }

  /** As lists: started and finished so far, each split at w0; t is the one task in execution. */
  lemma NextToFinish(begun: seq<nat>, since: seq<nat>, done: seq<nat>, ended: seq<nat>, held: seq<nat>, t: nat)
    requires multiset(begun) == multiset(done) + multiset(held)
    requires multiset(begun + since) == multiset(done + ended) + multiset{t}
    requires ended <= held + since
    ensures held + since == ended + [t]
  {
    var d: multiset<nat>, h: multiset<nat>, n: multiset<nat>, e: multiset<nat>
      := multiset(done), multiset(held), multiset(since), multiset(ended);
    assert multiset(begun + since) == d + h + n == d + (h + n);
    assert multiset(done + ended) + multiset{t} == d + e + multiset{t} == d + (e + multiset{t});
    CancelLeft(d, h + n, e + multiset{t});
    assert multiset(held + since) == h + n;
    LastOne(ended, held + since, t);
  }

  lemma FinishedNext(begun: seq<nat>, started: seq<nat>, done: seq<nat>, finished: seq<nat>, held: seq<nat>, t: nat)
    requires begun <= started && done <= finished && finished[|done|..] <= held + started[|begun|..]
    requires multiset(begun) == multiset(done) + multiset(held)
    requires multiset(started) == multiset(finished) + multiset{t}
    ensures (finished + [t])[|done|..] <= held + started[|begun|..]
  {
    assert started == begun + started[|begun|..] && finished == done + finished[|done|..];
    NextToFinish(begun, started[|begun|..], done, finished[|done|..], held, t);
    assert (finished + [t])[|done|..] == finished[|done|..] + [t];
  }

  lemma FinishOrder(w0: World, w: World, k: nat, wake: Option<nat>, o: nat)
    requires Enabled(w.s, Finish(k, wake)) && InOrderSince(w0, w, o)
    requires Accounted(w0, o) && Accounted(w, o) && Tokens(w.s, o) <= 1
    ensures InOrderSince(w0, Step(w, Finish(k, wake)), o)
  {
    hide Gather, Finished, Tokens, Held;
    var w' := Step(w, Finish(k, wake));
    if w.s.workers[k].obj == o {
      OnlyPending(w.s, o, k);
      HeldIsPending(w0.s.workers, o);
      assert TasksOf(w'.h.finished, o) == TasksOf(w.h.finished, o) + [w.s.workers[k].task];
      assert w'.h.started == w.h.started;
      hide Step;
      FinishedNext(TasksOf(w0.h.started, o), TasksOf(w.h.started, o), TasksOf(w0.h.finished, o), TasksOf(w.h.finished, o),
                   Held(w0.s.workers, o), w.s.workers[k].task);
    }
  }

  lemma CheckOrder(w0: World, w: World, k: nat, o: nat)
    requires Enabled(w.s, Check(k)) && InOrderSince(w0, w, o)
    ensures InOrderSince(w0, Step(w, Check(k)), o)
  {
    var w' := Step(w, Check(k));
    StartsAppend(w, k, o);
    hide Step;
    var begun, started, started' := TasksOf(w0.h.started, o), TasksOf(w.h.started, o), TasksOf(w'.h.started, o);
    assert started'[|begun|..] == started[|begun|..] + started'[|started|..];
  }

  lemma StartsAppend(w: World, k: nat, o: nat)
    requires Enabled(w.s, Check(k))
    ensures TasksOf(w.h.started, o) <= TasksOf(Step(w, Check(k)).h.started, o)
    ensures Step(w, Check(k)).h.finished == w.h.finished
  {
    hide Checked;
  }

  lemma StepOrder(w0: World, w: World, e: Event, w': World, o: nat)
    requires Next(w, e, w') && InOrderSince(w0, w, o)
    requires Accounted(w0, o) && Accounted(w, o) && Tokens(w.s, o) <= 1
    ensures InOrderSince(w0, w', o)
  {
    hide InOrderSince, Accounted, Tokens;
    match e
    case Check(k) => CheckOrder(w0, w, k, o);
    case Finish(k, wake) => FinishOrder(w0, w, k, wake, o);
    case _ => SameOrder(w0, w, w', o);
  }

  lemma SameOrder(w0: World, w: World, w': World, o: nat)
    requires InOrderSince(w0, w, o) && w'.h.started == w.h.started && w'.h.finished == w.h.finished
    ensures InOrderSince(w0, w', o)
  {
  }

  /**
   From a state without spare turns on, until the next parallel post that finds the
   instance running, its tasks finish in the order in which they were posted: first
   the one executing then, if any, then those started since, which are a stretch of
   the post history.
   */
  lemma {:induction false} OrderRestored(ws: seq<World>, es: seq<Event>, a: nat, b: nat, o: nat)
    requires IsRun(ws, es) && Initial(ws[0]) && a <= b < |ws|
    requires Tokens(ws[a].s, o) == RunFlag(ws[a].s, o) && NumberOf(ws[b].h.parallel, o) == NumberOf(ws[a].h.parallel, o)
    ensures InOrderSince(ws[a], ws[b], o) && |Held(ws[a].s.workers, o)| <= 1
    ensures TasksOf(ws[b].h.posted, o) == TasksOf(ws[b].h.started, o) + InstOf(ws[b].s.insts, o).queue
    decreases b
  {
    hide Tokens, RunFlag, InOrderSince, Next, Initial, Accounted;
    Alone(ws, es, a, b, o);
    Alone(ws, es, a, a, o);
    if a == b {
      SinceItself(ws[a], o);
    } else {
      ParallelGrows(ws, es, a, b - 1, o);
      StepParallel(ws[b - 1], es[b - 1], ws[b], o);
      OrderRestored(ws, es, a, b - 1, o);
      Alone(ws, es, a, b - 1, o);
      StepOrder(ws[a], ws[b - 1], es[b - 1], ws[b], o);
    }
  }

  lemma Alone(ws: seq<World>, es: seq<Event>, a: nat, b: nat, o: nat)
    requires IsRun(ws, es) && Initial(ws[0]) && a <= b < |ws|
    requires Tokens(ws[a].s, o) == RunFlag(ws[a].s, o) && NumberOf(ws[b].h.parallel, o) == NumberOf(ws[a].h.parallel, o)
    ensures Accounted(ws[b], o) && StartsInOrder(ws[b], o) && Tokens(ws[b].s, o) <= 1
    ensures |Held(ws[b].s.workers, o)| <= 1
  {
    hide Next, Initial, Accounted, StartsInOrder, TurnsWithin, Held, Count, Gather;
    FitsHere(ws, es, b, o);
    ExclusionRestored(ws, es, a, b, o);
    HeldIsPending(ws[b].s.workers, o);
    OneHeld(ws[b].s, o);
  }

  lemma OneHeld(s: State, o: nat)
    requires Tokens(s, o) == RunFlag(s, o)
    ensures Count(s.workers, Serves(o)) <= 1
  {
  }

  lemma SinceItself(w: World, o: nat)
    ensures InOrderSince(w, w, o)
  {
  }
}
