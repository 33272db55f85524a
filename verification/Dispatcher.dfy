/**
 The dispatcher object: its queues, worker pool and result table, updated in
 place. Each method is one critical section and takes exactly the step that the
 transition systems describe.
 */
module Dispatchers {
  import opened Options
  import opened Bags
  import opened Dispatch
  import Results

  class Dispatcher {
    var insts: map<nat, Inst>
    var ready: seq<nat>
    var workers: seq<Worker>
    var threads: nat
    var stop: bool
    var results: map<nat, Results.Item>
    var order: seq<nat>
    var counter: nat

    ghost function View(): State
      reads this
    {
      State(insts, ready, workers, threads, stop)
    }

    ghost function Table(): Results.Table
      reads this
    {
      Results.Table(results, order)
    }

    constructor ()
      ensures Initial(World(View(), History(map[], map[], map[], map[])))
      ensures Results.Initial(Results.World(Table(), 0, [], map[])) && counter == Results.CounterAt(0)
    {
      insts, ready, workers, threads, stop := map[], [], [], DEFAULT_THREADS, false;
      results, order, counter := map[], [], 0;
      new;
      for i := 0 to threads
        invariant |workers| == i && forall k :: 0 <= k < i ==> workers[k] == Awake
        invariant insts == map[] && ready == [] && threads == DEFAULT_THREADS && !stop
        invariant results == map[] && order == [] && counter == 0
      {
        SpawnWorker();
      }
      assert workers == [Awake, Awake];
    }

    method SpawnWorker()
      modifies `workers
      ensures workers == old(workers) + [Awake]
    {
      workers := workers + [Awake];
    }

    /** The next handle; after the largest the counter restarts at 1. */
    method GetHandle(ghost n: nat) returns (handle: nat)
      requires counter == Results.CounterAt(n)
      modifies `counter
      ensures handle == Results.HandleOf(n)
      ensures counter == Results.CounterAt(n + 1)
    {
      counter := counter + 1;
      handle := counter;
      if handle >= Results.INT64_MAX {
        counter := 1;
      }
    }

    /** Enter a new result item; beyond the maximum the oldest is dropped. */
    method NewResultItem(handle: nat)
      modifies `results, `order
      ensures Table() == Results.Registered(old(Table()), handle)
    {
      results := results[handle := Results.Item(0, false)];
      order := order + [handle];
      if |order| > Results.MAX_RESULTS {
        var oldest := order[0];
        order := order[1..];
        results := results - {oldest};
      }
    }

    method PostResultItem(handle: nat, value: int)
      modifies `results
      ensures Table() == Results.Reported(old(Table()), handle, value)
    {
      if handle in results {
        results := results[handle := Results.Item(value, true)];
      }
    }

    /** One look of a waiting caller at the table. */
    method TryResult(handle: nat) returns (found: bool, value: int)
      ensures found <==> Results.Found(Table(), handle).Some?
      ensures found ==> Results.Found(Table(), handle) == Some(value)
    {
      found, value := false, 0;
      if handle in results && results[handle].ready {
        found, value := true, results[handle].value;
      }
    }

    /** Wake one waiting worker, any one, if there is one. */
    method Signal() returns (ghost wake: Option<nat>)
      modifies `workers
      ensures CanSignal(old(workers), wake) && workers == Signalled(old(workers), wake)
    {
      wake := None;
      if exists k :: 0 <= k < |workers| && workers[k].Waiting? {
        var k :| 0 <= k < |workers| && workers[k].Waiting?;
        workers := workers[k := Awake];
        wake := Some(k);
      }
    }

    method AdjustWorkers()
      modifies `workers, `threads
      ensures View() == Adjusted(old(View()))
    {
      if |ready| > threads && threads < MAX_THREADS {
        SpawnWorker();
        threads := threads + 1;
      }
    }

    /** The critical section that ends every post; events and plain tasks are posted as sequential. */
    method Enqueue(o: nat, t: nat, isSeq: bool) returns (ghost wake: Option<nat>)
      modifies `insts, `ready, `workers, `threads
      ensures Enabled(old(View()), Post(o, t, isSeq, wake))
      ensures View() == StateStep(old(View()), Post(o, t, isSeq, wake))
    {
      var inst := InstOf(insts, o);
      inst := inst.(queue := inst.queue + [t]);
      wake := None;
      if !inst.running || !isSeq {
        ready := ready + [o];
        inst := inst.(running := true);
        wake := Signal();
      }
      insts := insts[o := inst];
      AdjustWorkers();
    }

    /** A worker that holds the lock: exit, sleep, or take the next turn. */
    method TakeTurn(k: nat) returns (task: Option<(nat, nat)>)
      requires Enabled(View(), Check(k))
      modifies `insts, `ready, `workers
      ensures View() == StateStep(old(View()), Check(k))
      ensures task == if workers[k].Executing? then Some((workers[k].obj, workers[k].task)) else None
    {
      task := None;
      if stop {
        workers := workers[k := Exited];
        return;
      }
      if |ready| == 0 {
        workers := workers[k := Waiting];
        return;
      }
      var o := ready[0];
      ready := ready[1..];
      var inst := InstOf(insts, o);
      if |inst.queue| == 0 {
        insts := insts[o := inst.(running := false)];
        return;
      }
      task := Some((o, inst.queue[0]));
      insts := insts[o := inst.(queue := inst.queue[1..])];
      workers := workers[k := Executing(o, inst.queue[0])];
    }

    /** A worker that has executed its task takes the lock again. */
    method FinishTurn(k: nat) returns (ghost wake: Option<nat>)
      requires k < |workers| && workers[k].Executing?
      modifies `insts, `ready, `workers
      ensures Enabled(old(View()), Finish(k, wake))
      ensures View() == StateStep(old(View()), Finish(k, wake))
    {
      var o := workers[k].obj;
      var inst := InstOf(insts, o);
      wake := None;
      if |inst.queue| > 0 {
        ready := ready + [o];
        wake := Signal();
      } else {
        insts := insts[o := inst.(running := false)];
      }
      workers := workers[k := Awake];
    }

    /** The destructor declares the end and wakes everybody. */
    method Shutdown()
      modifies `stop, `workers
      ensures View() == StateStep(old(View()), Stop)
    {
      stop := true;
      ghost var was := workers;
      for i := 0 to |workers|
        invariant |workers| == |was| && stop
        invariant forall k :: 0 <= k < i ==> workers[k] == AllWoken(was)[k]
        invariant forall k :: i <= k < |was| ==> workers[k] == was[k]
      {
        if workers[i].Waiting? {
          workers := workers[i := Awake];
        }
      }
      assert workers == AllWoken(was);
    }
  }
}
