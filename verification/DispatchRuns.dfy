/**
 Theorems about whole runs of the dispatcher.
 */
module DispatchRuns {
  import opened Options
  import opened Bags
  import opened Dispatch
  import opened DispatchInvariants

  // ----- Exclusion

  /** Two workers that serve the same instance are two turns. */
  lemma ServingTwice(s: State, o: nat, k: nat, l: nat)
    requires k < l < |s.workers| && Serves(o)(s.workers[k]) && Serves(o)(s.workers[l])
    ensures Tokens(s, o) >= 2
  {
    CountTwo(s.workers, k, l, Serves(o));
  }

  /** Two workers execute tasks of the instance at the same time. */
  ghost predicate Overlaps(s: State, o: nat) {
    exists k, l :: 0 <= k < l < |s.workers| && Serves(o)(s.workers[k]) && Serves(o)(s.workers[l])
  }

  lemma OverlapNeedsTurns(s: State, o: nat)
    ensures Overlaps(s, o) ==> Tokens(s, o) >= 2
  {
    if Overlaps(s, o) {
      var k, l :| 0 <= k < l < |s.workers| && Serves(o)(s.workers[k]) && Serves(o)(s.workers[l]);
      ServingTwice(s, o, k, l);
    }
  }

  /**
   As long as no parallel post has found the instance running, it has at most
   one turn, so at most one worker executes it, and its tasks finish in the
   order in which they were posted.
   */
  lemma SequentialExclusion(ws: seq<World>, es: seq<Event>, i: nat, o: nat)
    requires IsRun(ws, es) && Initial(ws[0]) && i < |ws|
    requires NumberOf(ws[i].h.parallel, o) == 0
    ensures Tokens(ws[i].s, o) <= 1
    ensures !Overlaps(ws[i].s, o)
    ensures TasksOf(ws[i].h.finished, o) <= TasksOf(ws[i].h.posted, o)
  {
    AlwaysFits(ws, es, i);
    assert TurnsFit(ws[i], o) && TasksFit(ws[i], o);
    OverlapNeedsTurns(ws[i].s, o);
  }

  lemma StepParallel(w: World, e: Event, w': World, o: nat)
    requires Next(w, e, w')
    ensures NumberOf(w'.h.parallel, o) >= NumberOf(w.h.parallel, o)
    ensures NumberOf(w'.h.parallel, o) > NumberOf(w.h.parallel, o) <==>
              e.Post? && e.o == o && !e.isSeq && InstOf(w.s.insts, o).running
  {
    hide Posted, Checked, Finished;
  }

  /** A parallel post that finds the instance running makes a second turn at once. */
  lemma ParallelPostDoubles(w: World, e: Event, w': World, o: nat)
    requires Next(w, e, w') && TurnsFit(w, o)
    requires e.Post? && e.o == o && !e.isSeq && InstOf(w.s.insts, o).running
    ensures Tokens(w'.s, o) >= 2
  {
    PostTokens(w.s, o, e.t, e.isSeq, e.wake, o);
    hide Tokens;
  }

  lemma {:induction false} OverlapStarts(ws: seq<World>, es: seq<Event>, n: nat, o: nat)
    requires IsRun(ws, es) && Initial(ws[0]) && n < |ws|
    requires NumberOf(ws[n].h.parallel, o) > 0
    ensures exists i :: 0 <= i <= n && Tokens(ws[i].s, o) >= 2
  {
    hide Next, Tokens, Fits;
    if n > 0 {
      if NumberOf(ws[n - 1].h.parallel, o) > 0 {
        OverlapStarts(ws, es, n - 1, o);
      } else {
        FitsHere(ws, es, n - 1, o);
        StepParallel(ws[n - 1], es[n - 1], ws[n], o);
        ParallelPostDoubles(ws[n - 1], es[n - 1], ws[n], o);
      }
    }
  }

  lemma FitsHere(ws: seq<World>, es: seq<Event>, i: nat, o: nat)
    requires IsRun(ws, es) && Initial(ws[0]) && i < |ws|
    ensures TurnsFit(ws[i], o) && TasksFit(ws[i], o)
  {
    AlwaysFits(ws, es, i);
  }

  lemma {:induction false} ParallelGrows(ws: seq<World>, es: seq<Event>, i: nat, n: nat, o: nat)
    requires IsRun(ws, es) && i <= n < |ws|
    ensures NumberOf(ws[i].h.parallel, o) <= NumberOf(ws[n].h.parallel, o)
    decreases n
  {
    if i < n {
      ParallelGrows(ws, es, i, n - 1, o);
      StepParallel(ws[n - 1], es[n - 1], ws[n], o);
    }
  }

  /**
   Exactly when: an instance has at most one turn throughout a run if and only
   if no parallel post of the run finds it running.
   */
  lemma ExclusionExactly(ws: seq<World>, es: seq<Event>, o: nat)
    requires IsRun(ws, es) && Initial(ws[0])
    ensures (forall i :: 0 <= i < |ws| ==> Tokens(ws[i].s, o) <= 1)
            <==> (forall i :: 0 <= i < |es| ==> !(es[i].Post? && es[i].o == o && !es[i].isSeq && InstOf(ws[i].s.insts, o).running))
  {
    var last := |es|;
    if NumberOf(ws[last].h.parallel, o) == 0 {
      forall i | 0 <= i < |ws|
        ensures Tokens(ws[i].s, o) <= 1
      {
        ParallelGrows(ws, es, i, last, o);
        SequentialExclusion(ws, es, i, o);
      }
      forall i | 0 <= i < |es|
        ensures !(es[i].Post? && es[i].o == o && !es[i].isSeq && InstOf(ws[i].s.insts, o).running)
      {
        StepParallel(ws[i], es[i], ws[i + 1], o);
        ParallelGrows(ws, es, i + 1, last, o);
      }
    } else {
      OverlapStarts(ws, es, last, o);
      SomeParallelPost(ws, es, last, o);
    }
  }

  lemma {:induction false} SomeParallelPost(ws: seq<World>, es: seq<Event>, n: nat, o: nat)
    requires IsRun(ws, es) && Initial(ws[0]) && n < |ws|
    requires NumberOf(ws[n].h.parallel, o) > 0
    ensures exists i :: 0 <= i < n && es[i].Post? && es[i].o == o && !es[i].isSeq && InstOf(ws[i].s.insts, o).running
  {
    if n > 0 {
      if NumberOf(ws[n - 1].h.parallel, o) > 0 {
        SomeParallelPost(ws, es, n - 1, o);
      } else {
        StepParallel(ws[n - 1], es[n - 1], ws[n], o);
      }
    }
  }

  /**
   From a state without spare turns on, until the next parallel post that finds
   the instance running, there are none, and at most one worker serves the instance.
   */
  lemma {:induction false} ExclusionRestored(ws: seq<World>, es: seq<Event>, a: nat, b: nat, o: nat)
    requires IsRun(ws, es) && Initial(ws[0]) && a <= b < |ws|
    requires Tokens(ws[a].s, o) == RunFlag(ws[a].s, o) && NumberOf(ws[b].h.parallel, o) == NumberOf(ws[a].h.parallel, o)
    ensures TurnsWithin(ws[b], o, NumberOf(ws[a].h.parallel, o))
    ensures Tokens(ws[b].s, o) == RunFlag(ws[b].s, o)
    ensures !Overlaps(ws[b].s, o)
    decreases b
  {
    hide Tokens;
    if a == b {
      FitsHere(ws, es, a, o);
    } else {
      ParallelGrows(ws, es, a, b - 1, o);
      StepParallel(ws[b - 1], es[b - 1], ws[b], o);
      ExclusionRestored(ws, es, a, b - 1, o);
      StepTurns(ws[b - 1], es[b - 1], ws[b], o, NumberOf(ws[a].h.parallel, o));
    }
    OverlapNeedsTurns(ws[b].s, o);
  }

  predicate LooksLike(s: State, inst: Inst, ready: seq<nat>, workers: seq<Worker>) {
    InstOf(s.insts, 0) == inst && s.ready == ready && s.workers == workers && s.threads == 2 && !s.stop
  }

  /**
   Why the condition is needed: after one parallel post, two tasks that were both
   posted as sequential are executed at the same time.
   */
  lemma SequentialOverlap(w0: World) returns (ws: seq<World>, es: seq<Event>)
    requires Initial(w0)
    ensures IsRun(ws, es) && ws[0] == w0
    ensures |es| == 5 && es[0] == Post(0, 1, true, None) && es[2] == Post(0, 2, true, None)
    ensures var s := ws[|es|].s; s.workers == [Executing(0, 1), Executing(0, 2)]
  {
    es := [Post(0, 1, true, None), Check(0), Post(0, 2, true, None), Post(0, 3, false, None), Check(1)];
    var w1 := Step(w0, es[0]);
    assert LooksLike(w1.s, Inst([1], true), [0], [Awake, Awake]);
    var w2 := Step(w1, es[1]);
    assert LooksLike(w2.s, Inst([], true), [], [Executing(0, 1), Awake]);
    var w3 := Step(w2, es[2]);
    assert LooksLike(w3.s, Inst([2], true), [], [Executing(0, 1), Awake]);
    var w4 := Step(w3, es[3]);
    assert LooksLike(w4.s, Inst([2, 3], true), [0], [Executing(0, 1), Awake]);
    var w5 := Step(w4, es[4]);
    ws := [w0, w1, w2, w3, w4, w5];
    hide HistoryStep, Posted, Checked;
  }

  // ----- Fairness

  /** What a step takes off the ready queue, and what it adds. */
  function PoppedBy(s: State, e: Event): seq<nat> {
    if e.Check? && !s.stop && s.ready != [] then [s.ready[0]] else []
  }

  function PushedBy(s: State, e: Event): seq<nat>
    requires Enabled(s, e)
  {
    match e
    case Post(o, _, isSeq, _) => if MakesReady(s, o, isSeq) then [o] else []
    case Finish(k, _) => if InstOf(s.insts, s.workers[k].obj).queue != [] then [s.workers[k].obj] else []
    case _ => []
  }

  ghost function Pops(ws: seq<World>, es: seq<Event>, a: nat, b: nat): seq<nat>
    requires |ws| == |es| + 1 && a <= b <= |es|
    decreases b
  {
    if a == b then [] else Pops(ws, es, a, b - 1) + PoppedBy(ws[b - 1].s, es[b - 1])
  }

  ghost function Pushes(ws: seq<World>, es: seq<Event>, a: nat, b: nat): seq<nat>
    requires IsRun(ws, es) && a <= b <= |es|
    decreases b
  {
    if a == b then [] else
      assert Next(ws[b - 1], es[b - 1], ws[b]);
      Pushes(ws, es, a, b - 1) + PushedBy(ws[b - 1].s, es[b - 1])
  }

  lemma StepQueue(w: World, e: Event, w': World)
    requires Next(w, e, w')
    ensures w.s.ready + PushedBy(w.s, e) == PoppedBy(w.s, e) + w'.s.ready
  {
    hide CanSignal, Signalled, AllWoken;
  }

  lemma Regroup(r0: seq<nat>, u: seq<nat>, v: seq<nat>, x: seq<nat>, y: seq<nat>, r1: seq<nat>, r2: seq<nat>)
    requires r0 + u == x + r1 && r1 + v == y + r2
    ensures r0 + (u + v) == (x + y) + r2
  {
    assert r0 + (u + v) == (r0 + u) + v;
    assert (x + r1) + v == x + (r1 + v);
    assert x + (y + r2) == (x + y) + r2;
  }

  /** The ready queue is first in, first out over any stretch of a run. */
  lemma {:induction false} ReadyFifo(ws: seq<World>, es: seq<Event>, a: nat, b: nat)
    requires IsRun(ws, es) && a <= b <= |es|
    ensures ws[a].s.ready + Pushes(ws, es, a, b) == Pops(ws, es, a, b) + ws[b].s.ready
    decreases b
  {
    if a < b {
      assert Next(ws[b - 1], es[b - 1], ws[b]);
      hide Next, PushedBy, PoppedBy;
      ReadyFifo(ws, es, a, b - 1);
      StepQueue(ws[b - 1], es[b - 1], ws[b]);
      Regroup(ws[a].s.ready, Pushes(ws, es, a, b - 1), PushedBy(ws[b - 1].s, es[b - 1]),
              Pops(ws, es, a, b - 1), PoppedBy(ws[b - 1].s, es[b - 1]), ws[b - 1].s.ready, ws[b].s.ready);
    }
  }

  lemma PrefixOfSum(r: seq<nat>, u: seq<nat>, x: seq<nat>, y: seq<nat>, o: nat)
    requires r + u == x + y && o in r && o !in x
    ensures x <= r
  {
    var p :| 0 <= p < |r| && r[p] == o;
    assert (r + u)[p] == o;
    assert (x + y)[p] == o;
    assert |x| <= p;
    assert forall i :: 0 <= i < |x| ==> (r + u)[i] == r[i] && (x + y)[i] == x[i];
  }

  /**
   With sequential posts only, the ready queue holds no instance twice, and while
   an instance waits in it no other instance is taken more than once.
   */
  lemma RoundRobin(ws: seq<World>, es: seq<Event>, a: nat, b: nat, o: nat)
    requires IsRun(ws, es) && Initial(ws[0]) && a <= b <= |es|
    requires forall i: nat :: NumberOf(ws[a].h.parallel, i) == 0
    requires o in ws[a].s.ready && o !in Pops(ws, es, a, b)
    ensures forall x: nat :: multiset(ws[a].s.ready)[x] <= 1
    ensures Pops(ws, es, a, b) <= ws[a].s.ready
    ensures forall x: nat :: multiset(Pops(ws, es, a, b))[x] <= 1
  {
    forall x: nat
      ensures multiset(ws[a].s.ready)[x] <= 1
    {
      SequentialExclusion(ws, es, a, x);
    }
    ReadyFifo(ws, es, a, b);
    var pops: seq<nat>, ready: seq<nat> := Pops(ws, es, a, b), ws[a].s.ready;
    PrefixOfSum(ready, Pushes(ws, es, a, b), pops, ws[b].s.ready, o);
    hide Pops, Pushes, IsRun;
    assert ready == pops + ready[|pops|..];
    forall x: nat
      ensures multiset(pops)[x] <= 1
    {
      assert multiset(ready)[x] == multiset(pops)[x] + multiset(ready[|pops|..])[x];
    }
  }

  // ----- Wake-ups and the pool

  /** Ready work never coexists with all workers asleep. */
  lemma NoLostWakeUp(ws: seq<World>, es: seq<Event>, i: nat)
    requires IsRun(ws, es) && Initial(ws[0]) && i < |ws|
    requires ws[i].s.ready != []
    ensures exists k :: 0 <= k < |ws[i].s.workers| && !ws[i].s.workers[k].Waiting?
    ensures Count(ws[i].s.workers, IsWaiting()) > 0 ==> |ws[i].s.ready| <= Count(ws[i].s.workers, NotWaiting())
  {
    AlwaysFits(ws, es, i);
    WaitingOrNot(ws[i].s.workers);
    CountWitness(ws[i].s.workers, NotWaiting());
  }

  /** The pool only grows, stays between 2 and 8, and is at 8 or has at most two turns per worker. */
  lemma {:induction false} PoolBounds(ws: seq<World>, es: seq<Event>, a: nat, b: nat)
    requires IsRun(ws, es) && Initial(ws[0]) && a <= b < |ws|
    ensures 2 <= ws[a].s.threads <= ws[b].s.threads <= 8
    ensures ws[b].s.threads == |ws[b].s.workers|
    ensures ws[b].s.threads == 8 || |ws[b].s.ready| + Count(ws[b].s.workers, IsExecuting()) <= 2 * ws[b].s.threads
    decreases b
  {
    AlwaysFits(ws, es, b);
    if a < b {
      PoolBounds(ws, es, a, b - 1);
      AlwaysFits(ws, es, b - 1);
      StepCounts(ws[b - 1].s, es[b - 1]);
    }
  }
}
