/**
 The timer loop: one thread walks a cursor over the timer table, looks at one
 timer per wake-up and runs its callback with the lock released. Each event is
 one critical section; callers create and remove timers in between.
 */
module Timers {
  import opened Options

  const MIN_TICK: int := 15
  const MAX_TICK: int := 2000

  datatype Timer = Timer(interval: int, nextTime: int, active: bool)

  /** Where the thread is: about to compute its wait, asleep, in a callback, or gone. */
  datatype Phase = Planning | Waiting(since: int, wait: int) | Firing(h: nat) | Ended

  /**
   order: the handles in the order in which the cursor meets them; a cursor of
   |order| is past the end. last: the clock at the latest wake-up. base: the
   base interval, which a new timer can shorten.
   */
  datatype State = State(timers: map<nat, Timer>, order: seq<nat>, cursor: nat, phase: Phase, last: int, base: int, stop: bool)

  datatype Event =
    | Plan(now: int)
    | Wake(now: int)
    | Done(result: int)
    | Create(h: nat, interval: int, start: int, order: seq<nat>, cursor: nat)
    | Remove(h: nat)
    | SetBase(msec: int, now: int)
    | Stop

  ghost predicate Lists(order: seq<nat>, timers: map<nat, Timer>) {
    && (forall h :: h in order <==> h in timers)
    && (forall i, j :: 0 <= i < j < |order| ==> order[i] != order[j])
  }

  // ----- The wait between two wake-ups

  /** The earliest of limit and the due times of the active timers among the first n. */
  function Earliest(timers: map<nat, Timer>, order: seq<nat>, n: nat, limit: int): int
    requires n <= |order| && forall h :: h in order ==> h in timers
  {
    if n == 0 then limit
    else
      var t, rest := timers[order[n - 1]], Earliest(timers, order, n - 1, limit);
      if t.active && t.nextTime < rest then t.nextTime else rest
  }

  function WaitAt(timers: map<nat, Timer>, order: seq<nat>, now: int): int
    requires forall h :: h in order ==> h in timers
  {
    var wait := Earliest(timers, order, |order|, now + MAX_TICK) - now;
    if wait < MIN_TICK then MIN_TICK else wait
  }

  lemma {:induction false} EarliestIsMinimum(timers: map<nat, Timer>, order: seq<nat>, n: nat, limit: int)
    requires n <= |order| && forall h :: h in order ==> h in timers
    ensures Earliest(timers, order, n, limit) <= limit
    ensures forall i :: 0 <= i < n && timers[order[i]].active ==> Earliest(timers, order, n, limit) <= timers[order[i]].nextTime
    ensures Earliest(timers, order, n, limit) == limit
            || exists i :: 0 <= i < n && timers[order[i]].active && Earliest(timers, order, n, limit) == timers[order[i]].nextTime
  {
    if n > 0 {
      EarliestIsMinimum(timers, order, n - 1, limit);
    }
  }

  /**
   The loop asks for its minimum wait, 15 milliseconds, exactly when an active timer
   is due before that wait is over, and for more only until the first one is due, or
   for two seconds.
   */
  lemma MinimumWait(timers: map<nat, Timer>, order: seq<nat>, now: int)
    requires Lists(order, timers)
    ensures 15 <= WaitAt(timers, order, now) <= 2000
    ensures WaitAt(timers, order, now) == 15 <==>
      exists h :: h in timers && timers[h].active && timers[h].nextTime <= now + 15
    ensures forall h :: h in timers && timers[h].active ==>
      WaitAt(timers, order, now) <= if timers[h].nextTime - now < 15 then 15 else timers[h].nextTime - now
    ensures 15 < WaitAt(timers, order, now) < 2000 ==>
      exists h :: h in timers && timers[h].active && timers[h].nextTime == now + WaitAt(timers, order, now)
  {
    var e := Earliest(timers, order, |order|, now + MAX_TICK);
    EarliestIsMinimum(timers, order, |order|, now + MAX_TICK);
    forall h | h in timers && timers[h].active
      ensures e <= timers[h].nextTime
    {
      var i :| 0 <= i < |order| && order[i] == h;
    }
  }

  // ----- Steps

  /** The cursor stands on an active timer whose time has come. */
  predicate Due(s: State, now: int) {
    && s.cursor < |s.order|
    && s.order[s.cursor] in s.timers
    && s.timers[s.order[s.cursor]].active
    && s.timers[s.order[s.cursor]].nextTime <= now
  }

  /** The table may put a new timer anywhere; the cursor stays on its timer, or past the end. */
  ghost predicate Enabled(s: State, e: Event) {
    match e
    case Plan(_) => s.phase == Planning
    case Wake(_) => s.phase.Waiting?
    case Done(_) => s.phase.Firing?
    case Create(h, interval, start, order, cursor) =>
      if h in s.timers || interval < MIN_TICK then order == s.order && cursor == s.cursor
      else Lists(order, s.timers[h := Timer(interval, start + interval, true)])
           && (if s.cursor >= |s.order| then cursor == |order|
               else cursor < |order| && order[cursor] == s.order[s.cursor])
    case Remove(_) | SetBase(_, _) | Stop => true
  }

  /** A broadcast ends a sleep at once. */
  function Roused(phase: Phase, now: int): (r: Phase)
    ensures r.Firing? <==> phase.Firing?
    ensures r.Firing? ==> r == phase
    ensures r.Waiting? <==> phase.Waiting?
    ensures r.Waiting? ==> r.since == phase.since && r.wait <= phase.wait
  {
    if phase.Waiting? && now < phase.since + phase.wait then phase.(wait := now - phase.since) else phase
  }

  /** A new timer rouses the thread exactly if a fifth of its interval is shorter than the base interval. */
  function Rebased(s: State, interval: int, now: int): State {
    if s.base > interval / 5 then s.(base := interval / 5, phase := Roused(s.phase, now)) else s
  }

  function Deactivate(timers: map<nat, Timer>, h: nat): map<nat, Timer> {
    if h in timers then timers[h := timers[h].(active := false)] else timers
  }

  ghost function Step(s: State, e: Event): State
    requires Sound(s) && Enabled(s, e)
  {
    match e
    case Plan(now) => s.(phase := Waiting(now, WaitAt(s.timers, s.order, now)))
    case Wake(now) =>
      if s.stop then s.(phase := Ended, last := now)
      else if s.cursor == |s.order| then
        s.(cursor := 0, phase := Planning, last := now, base := if |s.order| == 0 then MAX_TICK else s.base)
      else if !Due(s, now) then s.(cursor := s.cursor + 1, phase := Planning, last := now)
      else
        var h := s.order[s.cursor];
        s.(timers := s.timers[h := s.timers[h].(nextTime := now + s.timers[h].interval)], phase := Firing(h), last := now)
    case Done(result) =>
      s.(timers := if result < 0 then Deactivate(s.timers, s.phase.h) else s.timers,
         cursor := s.cursor + 1, phase := Planning)
    case Create(h, interval, start, order, cursor) =>
      if interval < MIN_TICK then s
      else Rebased(
        if h in s.timers then s
        else s.(timers := s.timers[h := Timer(interval, start + interval, true)], order := order, cursor := cursor),
        interval, start)
    case SetBase(msec, now) =>
      if MIN_TICK <= msec <= MAX_TICK then s.(base := msec, phase := Roused(s.phase, now)) else s
    case Remove(h) => s.(timers := Deactivate(s.timers, h))
    case Stop => s.(stop := true)
  }

  ghost predicate Sound(s: State) {
    && Lists(s.order, s.timers)
    && s.cursor <= |s.order|
    && (forall h :: h in s.timers ==> s.timers[h].interval >= MIN_TICK)
    && (s.phase.Firing? ==> s.cursor < |s.order| && s.order[s.cursor] == s.phase.h)
    && (s.phase.Waiting? ==> s.phase.wait <= MAX_TICK)
  }

  /** The event is a wake-up that runs the callback of timer h. */
  predicate Fires(s: State, e: Event, h: nat) {
    e.Wake? && !s.stop && Due(s, e.now) && s.order[s.cursor] == h
  }

  ghost predicate Next(s: State, e: Event, s': State) {
    Sound(s) && Enabled(s, e) && s' == Step(s, e)
  }

  ghost predicate IsRun(ss: seq<State>, es: seq<Event>) {
    && |ss| == |es| + 1
    && Sound(ss[0])
    && forall i :: 0 <= i < |es| ==> Next(ss[i], es[i], ss[i + 1])
  }

  lemma SameKeys(order: seq<nat>, timers: map<nat, Timer>, timers': map<nat, Timer>)
    requires Lists(order, timers) && timers'.Keys == timers.Keys
    ensures Lists(order, timers')
  {
  }

  lemma CreateSound(s: State, e: Event)
    requires Sound(s) && Enabled(s, e) && e.Create?
    ensures Sound(Step(s, e))
  {
    hide Lists;
  }

  /** No step breaks the table, so a run never gets stuck in a state the source excludes. */
  lemma StepSound(s: State, e: Event)
    requires Sound(s) && Enabled(s, e)
    ensures Sound(Step(s, e))
  {
    if e.Plan? {
      MinimumWait(s.timers, s.order, e.now);
    }
    hide WaitAt, Roused, Lists;
    if e.Create? {
      CreateSound(s, e);
    } else {
      SameKeys(s.order, s.timers, Step(s, e).timers);
      hide Rebased;
    }
  }

  /**
   Whatever the clock does, a due time only moves forward, by at least the
   interval at each firing; an inactive timer stays inactive and does not fire.
   */
  lemma StepForward(s: State, e: Event, s': State, h: nat)
    requires Next(s, e, s') && h in s.timers
    ensures h in s'.timers && s'.timers[h].interval == s.timers[h].interval
    ensures s'.timers[h].nextTime >= s.timers[h].nextTime + if Fires(s, e, h) then s.timers[h].interval else 0
    ensures Fires(s, e, h) ==> s.timers[h].active && s.timers[h].nextTime <= e.now
                               && s'.timers[h].nextTime == e.now + s.timers[h].interval
    ensures !Fires(s, e, h) ==> s'.timers[h].nextTime == s.timers[h].nextTime
    ensures !s.timers[h].active ==> !s'.timers[h].active
  {
    hide WaitAt, Lists;
  }

  // ----- Whole runs

  lemma SoundAt(ss: seq<State>, es: seq<Event>, i: nat)
    requires IsRun(ss, es) && i < |ss|
    ensures Sound(ss[i])
  {
    if i > 0 {
      assert Next(ss[i - 1], es[i - 1], ss[i]);
      StepSound(ss[i - 1], es[i - 1]);
    }
  }

  function Firings(ss: seq<State>, es: seq<Event>, h: nat, i: nat, j: nat): nat
    requires i <= j <= |es| <= |ss|
    decreases j
  {
    if i == j then 0 else Firings(ss, es, h, i, j - 1) + if Fires(ss[j - 1], es[j - 1], h) then 1 else 0
  }

  function Times(n: int, d: int): int {
    n * d
  }

  lemma OneMore(n: int, d: int)
    ensures Times(n + 1, d) == Times(n, d) + d
    ensures Times(0, d) == 0
    ensures n >= 0 && d >= 0 ==> Times(n, d) >= 0
  {
  }

  /** Each firing has used up one interval of the due time. */
  lemma {:induction false} FiringsSpent(ss: seq<State>, es: seq<Event>, h: nat, i: nat, j: nat)
    requires IsRun(ss, es) && i <= j < |ss| && h in ss[i].timers
    ensures h in ss[j].timers && ss[j].timers[h].interval == ss[i].timers[h].interval
    ensures Times(Firings(ss, es, h, i, j), ss[i].timers[h].interval) <= ss[j].timers[h].nextTime - ss[i].timers[h].nextTime
    ensures Firings(ss, es, h, i, j) == 0 ==> ss[j].timers[h].nextTime == ss[i].timers[h].nextTime
    ensures !ss[i].timers[h].active ==> !ss[j].timers[h].active && Firings(ss, es, h, i, j) == 0
    decreases j
  {
    hide Next, Fires, Sound, Times;
    OneMore(0, ss[i].timers[h].interval);
    if i < j {
      FiringsSpent(ss, es, h, i, j - 1);
      StepForward(ss[j - 1], es[j - 1], ss[j], h);
      OneMore(Firings(ss, es, h, i, j - 1), ss[i].timers[h].interval);
    }
  }

  /** The n-th firing after a state comes no earlier than n - 1 intervals after the due time of that state. */
  lemma FiringRate(ss: seq<State>, es: seq<Event>, h: nat, i: nat, j: nat)
    requires IsRun(ss, es) && i <= j < |es| && h in ss[i].timers && Fires(ss[j], es[j], h)
    ensures es[j].now >= ss[i].timers[h].nextTime + Times(Firings(ss, es, h, i, j), ss[i].timers[h].interval)
  {
    FiringsSpent(ss, es, h, i, j);
    assert Next(ss[j], es[j], ss[j + 1]);
    StepForward(ss[j], es[j], ss[j + 1], h);
  }

  /** Any two firings of a timer are at least its interval apart. */
  lemma FiringsSpaced(ss: seq<State>, es: seq<Event>, h: nat, i: nat, j: nat)
    requires IsRun(ss, es) && i < j < |es|
    requires Fires(ss[i], es[i], h) && Fires(ss[j], es[j], h)
    ensures es[j].now >= es[i].now + ss[i].timers[h].interval
  {
    hide Next, Fires, Times, Firings, Sound;
    AfterFiring(ss, es, h, i);
    FiringRate(ss, es, h, i + 1, j);
    OneMore(Firings(ss, es, h, i + 1, j), ss[i].timers[h].interval);
  }

  lemma AfterFiring(ss: seq<State>, es: seq<Event>, h: nat, i: nat)
    requires IsRun(ss, es) && i < |es| && Fires(ss[i], es[i], h)
    ensures h in ss[i].timers && h in ss[i + 1].timers && ss[i].timers[h].interval >= MIN_TICK
    ensures ss[i + 1].timers[h] == ss[i].timers[h].(nextTime := es[i].now + ss[i].timers[h].interval)
  {
    assert Next(ss[i], es[i], ss[i + 1]);
  }

  /** The event switches timer h off: its removal, or a negative result of its callback. */
  predicate SwitchesOff(s: State, e: Event, h: nat) {
    e == Remove(h) || (e.Done? && e.result < 0 && s.phase == Firing(h))
  }

  /** Nothing else switches a timer off, nothing switches one on again, and no other timer is affected. */
  lemma StepActive(s: State, e: Event, s': State, h: nat)
    requires Next(s, e, s') && h in s.timers
    ensures h in s'.timers
    ensures s'.timers[h].active <==> s.timers[h].active && !SwitchesOff(s, e, h)
  {
    hide WaitAt, Lists, Roused;
  }

  /** An active timer stays active over a stretch of a run exactly if nothing in it switches it off. */
  lemma {:induction false} ActiveExactly(ss: seq<State>, es: seq<Event>, h: nat, i: nat, j: nat)
    requires IsRun(ss, es) && i <= j < |ss| && h in ss[i].timers && ss[i].timers[h].active
    ensures h in ss[j].timers
    ensures ss[j].timers[h].active <==> forall l :: i <= l < j ==> !SwitchesOff(ss[l], es[l], h)
    decreases j
  {
    hide Next, SwitchesOff;
    if i < j {
      ActiveExactly(ss, es, h, i, j - 1);
      StepActive(ss[j - 1], es[j - 1], ss[j], h);
    }
  }

  /** A new timer is active, and fires for the first time no earlier than its interval after its creation. */
  lemma FirstFiring(ss: seq<State>, es: seq<Event>, i: nat, j: nat)
    requires IsRun(ss, es) && i < |es| && es[i].Create? && es[i].h !in ss[i].timers && es[i].interval >= 15
    ensures es[i].h in ss[i + 1].timers
            && ss[i + 1].timers[es[i].h] == Timer(es[i].interval, es[i].start + es[i].interval, true)
    ensures i < j < |es| && Fires(ss[j], es[j], es[i].h) ==> es[j].now >= es[i].start + es[i].interval
  {
    assert Next(ss[i], es[i], ss[i + 1]);
    hide Next, Fires, Times, Firings, Sound, WaitAt;
    if i < j < |es| && Fires(ss[j], es[j], es[i].h) {
      FiringRate(ss, es, es[i].h, i + 1, j);
      OneMore(Firings(ss, es, es[i].h, i + 1, j), es[i].interval);
    }
  }

  /** Where the base interval comes from, and that a broadcast ends a sleep at its own time, not before. */
  lemma StepBase(s: State, e: Event, s': State)
    requires Next(s, e, s')
    ensures s'.base ==
      if e.Create? && e.interval >= 15 && e.interval / 5 < s.base then e.interval / 5
      else if e.SetBase? && 15 <= e.msec <= 2000 then e.msec
      else if e.Wake? && !s.stop && s.order == [] then 2000
      else s.base
    ensures s.phase.Waiting? && !e.Wake? ==>
      && s'.phase.Waiting? && s'.phase.since == s.phase.since
      && var end, end' := s.phase.since + s.phase.wait, s'.phase.since + s'.phase.wait;
         end' == if e.Create? && s'.base < s.base && e.start < end then e.start
                 else if e.SetBase? && 15 <= e.msec <= 2000 && e.now < end then e.now
                 else end
  {
    hide WaitAt, Lists;
  }

  /** After a stop no timer fires, and the next wake-up ends the thread. */
  lemma {:induction false} StopEndsLoop(ss: seq<State>, es: seq<Event>, i: nat, j: nat)
    requires IsRun(ss, es) && i < j < |ss| && es[i].Stop?
    ensures ss[j].stop
    ensures j < |es| ==> forall h :: !Fires(ss[j], es[j], h)
    ensures j < |es| && es[j].Wake? ==> ss[j + 1].phase == Ended
    decreases j
  {
    if i + 1 < j {
      StopEndsLoop(ss, es, i, j - 1);
    }
    assert Next(ss[j - 1], es[j - 1], ss[j]) && (j < |es| ==> Next(ss[j], es[j], ss[j + 1]));
    hide Sound, WaitAt;
  }

  /** Removing a timer, or a negative result of its callback, is final. */
  lemma NeverAgain(ss: seq<State>, es: seq<Event>, h: nat, i: nat, j: nat)
    requires IsRun(ss, es) && i < j < |es| && h in ss[i].timers
    requires SwitchesOff(ss[i], es[i], h) || !ss[i].timers[h].active
    ensures !Fires(ss[j], es[j], h)
  {
    assert Next(ss[i], es[i], ss[i + 1]) && Next(ss[j], es[j], ss[j + 1]);
    StepForward(ss[i], es[i], ss[i + 1], h);
    FiringsSpent(ss, es, h, i + 1, j);
    StepForward(ss[j], es[j], ss[j + 1], h);
  }

  /** No timer is overdue, and the thread is not asleep. */
  ghost predicate Early(s: State) {
    !s.phase.Waiting? && forall h :: h in s.timers && s.timers[h].active ==> s.last <= s.timers[h].nextTime
  }

  // ----- The loop itself

  class TimerLoop {
    var timers: map<nat, Timer>
    var order: seq<nat>
    var cursor: nat
    var phase: Phase
    var base: int
    var stop: bool
    ghost var last: int

    ghost function View(): State
      reads this
    {
      State(timers, order, cursor, phase, last, base, stop)
    }

    constructor (now: int)
      ensures Sound(View()) && View() == State(map[], [], 0, Planning, now, MAX_TICK, false)
      ensures Early(View())
    {
      timers, order, cursor, phase, stop, last, base := map[], [], 0, Planning, false, now, MAX_TICK;
    }

    /** The head of the loop: look through the whole table for the earliest due time, then sleep. */
    method SleepUntilNext(now: int)
      requires Sound(View()) && phase == Planning
      modifies `phase
      ensures Sound(View()) && View() == Step(old(View()), Plan(now))
    {
      MinimumWait(timers, order, now);
      var nextExec := now + MAX_TICK;
      for i := 0 to |order|
        invariant nextExec == Earliest(timers, order, i, now + MAX_TICK)
      {
        var t := timers[order[i]];
        if t.active && t.nextTime < nextExec {
          nextExec := t.nextTime;
        }
      }
      var wait := nextExec - now;
      if wait < MIN_TICK {
        wait := MIN_TICK;
      }
      phase := Waiting(now, wait);
    }

    /** After the sleep: one step of the cursor, or the timer whose callback is to run. */
    method WakeUp(now: int) returns (fired: Option<nat>)
      requires Sound(View()) && phase.Waiting?
      modifies `timers, `cursor, `phase, `base, `last
      ensures Sound(View()) && View() == Step(old(View()), Wake(now))
      ensures fired.Some? <==> exists h :: Fires(old(View()), Wake(now), h)
      ensures fired.Some? ==> Fires(old(View()), Wake(now), fired.value)
    {
      ghost var was := View();
      StepSound(was, Wake(now));
      fired := None;
      last := now;
      if stop {
        phase := Ended;
        return;
      }
      if cursor == |order| {
        cursor := 0;
        phase := Planning;
        if |order| == 0 {
          base := MAX_TICK;
        }
        return;
      }
      var h := order[cursor];
      var timer := timers[h];
      if !timer.active || now < timer.nextTime {
        cursor := cursor + 1;
        phase := Planning;
        return;
      }
      fired := Some(h);
      timers := timers[h := timer.(nextTime := now + timer.interval)];
      phase := Firing(h);
      assert Fires(was, Wake(now), h);
    }

    /** The callback has returned; a negative result switches its timer off. */
    method FinishCallback(result: int)
      requires Sound(View()) && phase.Firing?
      modifies `timers, `cursor, `phase
      ensures Sound(View()) && View() == Step(old(View()), Done(result))
    {
      if result < 0 && phase.h in timers {
        timers := timers[phase.h := timers[phase.h].(active := false)];
      }
      cursor := cursor + 1;
      phase := Planning;
    }

    /** The hash table chooses where the new timer goes: order' and cursor' describe the table after the insertion. */
    method CreateTimer(h: nat, interval: int, start: int, order': seq<nat>, cursor': nat) returns (handle: nat)
      requires Sound(View()) && Enabled(View(), Create(h, interval, start, order', cursor'))
      modifies `timers, `order, `cursor, `base, `phase
      ensures Sound(View()) && View() == Step(old(View()), Create(h, interval, start, order', cursor'))
      ensures handle == if interval < MIN_TICK then 0 else h
    {
      StepSound(View(), Create(h, interval, start, order', cursor'));
      hide Lists, WaitAt, Roused;
      if interval < MIN_TICK {
        return 0;
      }
      if h !in timers {
        timers := timers[h := Timer(interval, start + interval, true)];
        order, cursor := order', cursor';
      }
      if base > interval / 5 {
        base := interval / 5;
        phase := Roused(phase, start);
      }
      handle := h;
    }

    method SetBaseInterval(msec: int, now: int) returns (ok: bool)
      requires Sound(View())
      modifies `base, `phase
      ensures Sound(View()) && View() == Step(old(View()), SetBase(msec, now))
      ensures ok <==> MIN_TICK <= msec <= MAX_TICK
    {
      ok := MIN_TICK <= msec <= MAX_TICK;
      if ok {
        base := msec;
        phase := Roused(phase, now);
      }
    }

    method RemoveTimer(h: nat) returns (found: bool)
      requires Sound(View())
      modifies `timers
      ensures Sound(View()) && View() == Step(old(View()), Remove(h))
      ensures found <==> h in old(timers)
    {
      found := h in timers;
      if found {
        timers := timers[h := timers[h].(active := false)];
      }
    }
  }
}
