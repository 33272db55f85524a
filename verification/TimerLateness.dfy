/**
 How late a timer can be: selection by the cursor, the wait between two wake-ups,
 and what the creation of a timer does to both.
 */
module TimerLateness {
  import opened Timers

  // ----- The way of the cursor

  /** The number of wake-ups that come before the one that looks at position p. */
  function Ahead(s: State, p: nat): int {
    var at := if s.phase.Firing? then s.cursor + 1 else s.cursor;
    if at <= p then p - at else p + |s.order| + 1 - at
  }

  /** The event adds a timer to the table. */
  predicate Adds(s: State, e: Event) {
    e.Create? && e.h !in s.timers && e.interval >= MIN_TICK
  }

  predicate Undisturbed(s: State, e: Event) {
    !Adds(s, e) && !e.Stop?
  }

  function Wakes(es: seq<Event>, i: nat, j: nat): nat
    requires i <= j <= |es|
    decreases j
  {
    if i == j then 0 else Wakes(es, i, j - 1) + if es[j - 1].Wake? then 1 else 0
  }

  /** With a fixed table each wake-up brings the cursor one place nearer, and none passes over a due timer. */
  lemma StepNearer(s: State, e: Event, s': State, p: nat)
    requires Next(s, e, s') && Undisturbed(s, e) && !s.stop && p < |s.order|
    ensures s'.order == s.order && !s'.stop && s'.timers.Keys == s.timers.Keys
    ensures 0 <= Ahead(s, p) <= |s.order| && 0 <= Ahead(s', p) <= |s.order|
    ensures Ahead(s', p) == if !e.Wake? then Ahead(s, p) else if Ahead(s, p) == 0 then |s.order| else Ahead(s, p) - 1
    ensures Fires(s, e, s.order[p]) <==>
      e.Wake? && Ahead(s, p) == 0 && s.timers[s.order[p]].active && s.timers[s.order[p]].nextTime <= e.now
  {
    hide WaitAt, Roused;
    if e.Wake? && s.cursor < |s.order| && s.cursor != p {
      assert s.order[s.cursor] != s.order[p];
    }
  }

  /** With a fixed table the cursor comes nearer by one place for each wake-up, until it gets there. */
  lemma {:induction false} AheadFalls(ss: seq<State>, es: seq<Event>, p: nat, a: nat, j: nat)
    requires IsRun(ss, es) && a <= j < |ss| && !ss[a].stop && p < |ss[a].order|
    requires forall l :: a <= l < j ==> Undisturbed(ss[l], es[l])
    ensures ss[j].order == ss[a].order && !ss[j].stop
    ensures 0 <= Ahead(ss[a], p) <= |ss[a].order|
    ensures Wakes(es, a, j) <= Ahead(ss[a], p) ==> Ahead(ss[j], p) == Ahead(ss[a], p) - Wakes(es, a, j)
    decreases j
  {
    hide Ahead, Next, Undisturbed;
    if a < j {
      AheadFalls(ss, es, p, a, j - 1);
      StepNearer(ss[j - 1], es[j - 1], ss[j], p);
    } else {
      SoundAt(ss, es, a);
      AheadWithin(ss[a], p);
    }
  }

  lemma AheadWithin(s: State, p: nat)
    requires Sound(s) && p < |s.order|
    ensures 0 <= Ahead(s, p) <= |s.order|
  {
  }

  /** After more wake-ups than lie Ahead, the cursor has looked at the place. */
  lemma {:induction false} FirstLook(ss: seq<State>, es: seq<Event>, p: nat, i: nat, j: nat) returns (l: nat)
    requires IsRun(ss, es) && i <= j < |ss| && !ss[i].stop && p < |ss[i].order|
    requires forall l :: i <= l < j ==> Undisturbed(ss[l], es[l])
    requires Wakes(es, i, j) > Ahead(ss[i], p)
    ensures i <= l < j && es[l].Wake? && Ahead(ss[l], p) == 0
    decreases j
  {
    hide Ahead, Next, Undisturbed;
    AheadFalls(ss, es, p, i, if i < j then j - 1 else j);
    if Wakes(es, i, j - 1) > Ahead(ss[i], p) {
      l := FirstLook(ss, es, p, i, j - 1);
    } else {
      l := j - 1;
    }
  }

  lemma {:induction false} FiringsGrow(ss: seq<State>, es: seq<Event>, h: nat, i: nat, l: nat, j: nat)
    requires i <= l < j <= |es| <= |ss|
    ensures Firings(ss, es, h, i, j) >= Firings(ss, es, h, i, l) + if Fires(ss[l], es[l], h) then 1 else 0
    decreases j
  {
    hide Fires;
    if l < j - 1 {
      FiringsGrow(ss, es, h, i, l, j - 1);
    }
  }

  /** The clock has reached a due time at every wake-up of a stretch. */
  ghost predicate WakesAfter(es: seq<Event>, due: int, i: nat, j: nat)
    requires i <= j <= |es|
  {
    forall l :: i <= l < j && es[l].Wake? ==> es[l].now >= due
  }

  /**
   In a table of k timers that nobody adds to, a due timer fires within k + 1
   wake-ups, wherever the cursor was, if it is active and not switched off.
   */
  lemma SelectedInTime(ss: seq<State>, es: seq<Event>, h: nat, i: nat, j: nat)
    requires IsRun(ss, es) && i <= j < |ss| && h in ss[i].timers && !ss[i].stop
    requires forall l :: i <= l < j ==> Undisturbed(ss[l], es[l])
    requires WakesAfter(es, ss[i].timers[h].nextTime, i, j)
    requires ss[i].timers[h].active && forall l :: i <= l < j ==> !SwitchesOff(ss[l], es[l], h)
    requires Wakes(es, i, j) > |ss[i].order|
    ensures Firings(ss, es, h, i, j) > 0
  {
    SoundAt(ss, es, i);
    var p :| 0 <= p < |ss[i].order| && ss[i].order[p] == h;
    AheadFalls(ss, es, p, i, j);
    hide Ahead, Next, Times, Undisturbed, SwitchesOff;
    ActiveExactly(ss, es, h, i, j);
    var l := FirstLook(ss, es, p, i, j);
    AheadFalls(ss, es, p, i, l);
    FiringsSpent(ss, es, h, i, l);
    FiringsSpent(ss, es, h, l, j);
    FiringsGrow(ss, es, h, i, l, j);
    StepNearer(ss[l], es[l], ss[l + 1], p);
  }

  /** Stretches of a run, from each mark to the next, with k + 1 wake-ups each that the timer is due for. */
  ghost predicate DueBetween(ss: seq<State>, es: seq<Event>, h: nat, marks: seq<nat>)
    requires |ss| == |es| + 1
  {
    && |marks| > 0
    && (forall q :: 0 <= q < |marks| ==> marks[q] < |ss| && h in ss[marks[q]].timers)
    && (forall q :: 0 < q < |marks| ==>
          && marks[q - 1] <= marks[q]
          && Wakes(es, marks[q - 1], marks[q]) > |ss[marks[q - 1]].order|
          && WakesAfter(es, ss[marks[q - 1]].timers[h].nextTime, marks[q - 1], marks[q]))
  }

  /** A timer that is not switched off fires again and again: once in each stretch for which it is due. */
  lemma {:induction false} FiresAgain(ss: seq<State>, es: seq<Event>, h: nat, marks: seq<nat>)
    requires IsRun(ss, es) && DueBetween(ss, es, h, marks)
    requires ss[marks[0]].timers[h].active && !ss[marks[0]].stop
    requires forall l :: marks[0] <= l < marks[|marks| - 1] ==> Undisturbed(ss[l], es[l]) && !SwitchesOff(ss[l], es[l], h)
    ensures marks[0] <= marks[|marks| - 1]
    ensures Firings(ss, es, h, marks[0], marks[|marks| - 1]) >= |marks| - 1
  {
    var n := |marks| - 1;
    if n > 0 {
      hide Next, Undisturbed, SwitchesOff, Wakes, WakesAfter;
      assert DueBetween(ss, es, h, marks[..n]);
      FiresAgain(ss, es, h, marks[..n]);
      ActiveExactly(ss, es, h, marks[0], marks[n - 1]);
      SameOrder(ss, es, marks[0], marks[n - 1]);
      SelectedInTime(ss, es, h, marks[n - 1], marks[n]);
      FiringsAdd(ss, es, h, marks[0], marks[n - 1], marks[n]);
    }
  }

  lemma {:induction false} FiringsAdd(ss: seq<State>, es: seq<Event>, h: nat, i: nat, l: nat, j: nat)
    requires i <= l <= j <= |es| <= |ss|
    ensures Firings(ss, es, h, i, j) == Firings(ss, es, h, i, l) + Firings(ss, es, h, l, j)
    decreases j
  {
    hide Fires;
    if l < j {
      FiringsAdd(ss, es, h, i, l, j - 1);
    }
  }

  // ----- Being on time

  /**
   busy bounds the time from a wake-up to the next plan (a callback), slip how far
   a sleep overshoots its wait, and the clock does not run backwards.
   */
  predicate OnSchedule(s: State, e: Event, busy: nat, slip: nat) {
    && (e.Plan? ==> e.now <= s.last + busy)
    && (e.Wake? && s.phase.Waiting? ==> e.now <= s.phase.since + s.phase.wait + slip)
    && (e.Create? ==> s.last <= e.start && (s.phase.Waiting? ==> s.phase.since <= e.start))
  }

  predicate Timely(s: State, e: Event, busy: nat, slip: nat) {
    Undisturbed(s, e) && OnSchedule(s, e, busy, slip)
  }

  function Round(busy: nat, slip: nat): nat {
    busy + MIN_TICK + slip
  }

  /**
   The timer at place p, if active, is overdue by at most slack and one round for
   each place that the cursor has come nearer to it, and a thread that sleeps will
   not sleep on after that slack.
   */
  ghost predicate OnTime(s: State, p: nat, slack: nat, busy: nat, slip: nat) {
    p < |s.order| && s.order[p] in s.timers && s.timers[s.order[p]].active ==>
      OnTimeAt(s, s.timers[s.order[p]].nextTime + slack, |s.order| - Ahead(s, p), busy, slip)
  }

  ghost predicate OnTimeAt(s: State, due: int, places: int, busy: nat, slip: nat) {
    && s.last <= due + Times(places, Round(busy, slip))
    && (s.phase.Waiting? ==>
          s.phase.since <= s.last + busy
          && (s.phase.wait <= MIN_TICK || s.phase.since + s.phase.wait <= due))
  }

  lemma EarlyIsOnTime(s: State, p: nat, busy: nat, slip: nat)
    requires Sound(s) && Early(s) && p < |s.order|
    ensures OnTime(s, p, 0, busy, slip)
  {
    OneMore(|s.order| - Ahead(s, p), Round(busy, slip));
  }

  lemma StepOnTime(s: State, e: Event, s': State, p: nat, slack: nat, busy: nat, slip: nat)
    requires Next(s, e, s') && Timely(s, e, busy, slip) && !s.stop && p < |s.order|
    requires OnTime(s, p, slack, busy, slip)
    ensures OnTime(s', p, slack, busy, slip) && s.order[p] in s.timers
    ensures Fires(s, e, s.order[p]) ==>
      e.now <= s.timers[s.order[p]].nextTime + slack + Times(|s.order| + 1, Round(busy, slip))
  {
    var h := s.order[p];
    StepForward(s, e, s', h);
    StepNearer(s, e, s', p);
    if s'.timers[h].active || Fires(s, e, h) {
      assert s.timers[h].active;
      var places, round := |s.order| - Ahead(s, p), Round(busy, slip);
      assert OnTimeAt(s, s.timers[h].nextTime + slack, places, busy, slip);
      if e.Plan? {
        MinimumWait(s.timers, s.order, e.now);
      }
      hide WaitAt, Lists, Ahead, Times, Roused;
      OneMore(places, round);
      OneMore(|s'.order| - Ahead(s', p), round);
    }
  }

  /** The wake-up that looks at a timer leaves it on time, however late it was. */
  lemma LookedAt(s: State, e: Event, s': State, p: nat, slack: nat, busy: nat, slip: nat)
    requires Next(s, e, s') && Undisturbed(s, e) && e.Wake? && !s.stop && p < |s.order| && Ahead(s, p) == 0
    ensures OnTime(s', p, slack, busy, slip)
  {
    StepNearer(s, e, s', p);
    StepForward(s, e, s', s.order[p]);
    OneMore(0, Round(busy, slip));
    hide WaitAt, Ahead, Times;
  }

  /** While the table is fixed a timer that was on time, or has been looked at since, is on time. */
  lemma {:induction false} Settled(ss: seq<State>, es: seq<Event>, slack: nat, busy: nat, slip: nat, p: nat, a: nat, j: nat)
    requires IsRun(ss, es) && a <= j < |ss| && !ss[a].stop && p < |ss[a].order|
    requires forall l :: a <= l < j ==> Timely(ss[l], es[l], busy, slip)
    requires OnTime(ss[a], p, slack, busy, slip) || Wakes(es, a, j) > Ahead(ss[a], p)
    ensures OnTime(ss[j], p, slack, busy, slip)
    decreases j
  {
    hide Next, OnTime, Ahead, Undisturbed, OnSchedule;
    AheadFalls(ss, es, p, a, if a < j then j - 1 else j);
    if a < j {
      if OnTime(ss[a], p, slack, busy, slip) || Wakes(es, a, j - 1) > Ahead(ss[a], p) {
        Settled(ss, es, slack, busy, slip, p, a, j - 1);
        StepOnTime(ss[j - 1], es[j - 1], ss[j], p, slack, busy, slip);
      } else {
        LookedAt(ss[j - 1], es[j - 1], ss[j], p, slack, busy, slip);
      }
    }
  }

  lemma {:induction false} SameOrder(ss: seq<State>, es: seq<Event>, a: nat, j: nat)
    requires IsRun(ss, es) && a <= j < |ss| && !ss[a].stop
    requires forall l :: a <= l < j ==> Undisturbed(ss[l], es[l])
    ensures ss[j].order == ss[a].order && !ss[j].stop
    decreases j
  {
    hide Next, Undisturbed;
    if a < j {
      SameOrder(ss, es, a, j - 1);
      StepSameOrder(ss[j - 1], es[j - 1], ss[j]);
    }
  }

  lemma StepSameOrder(s: State, e: Event, s': State)
    requires Next(s, e, s') && Undisturbed(s, e) && !s.stop
    ensures s'.order == s.order && !s'.stop
  {
    hide Sound, WaitAt;
  }

  /** The timer at a place that is on time fires at most its slack and k + 1 rounds after its due time. */
  lemma LatenessAt(ss: seq<State>, es: seq<Event>, slack: nat, busy: nat, slip: nat, p: nat, a: nat, j: nat)
    requires IsRun(ss, es) && a <= j < |es| && !ss[a].stop && p < |ss[a].order|
    requires OnTime(ss[a], p, slack, busy, slip) || Wakes(es, a, j) > |ss[a].order|
    requires forall l :: a <= l <= j ==> Timely(ss[l], es[l], busy, slip)
    ensures ss[j].order == ss[a].order && ss[a].order[p] in ss[j].timers
    ensures Fires(ss[j], es[j], ss[a].order[p]) ==>
      es[j].now <= ss[j].timers[ss[a].order[p]].nextTime + slack + Times(|ss[a].order| + 1, Round(busy, slip))
  {
    hide Next, OnTime, Ahead, Fires, Times, Undisturbed, OnSchedule;
    SoundAt(ss, es, a);
    AheadFalls(ss, es, p, a, j);
    Settled(ss, es, slack, busy, slip, p, a, j);
    StepOnTime(ss[j], es[j], ss[j + 1], p, slack, busy, slip);
  }

  /**
   Bounded lateness in a fixed table: let nobody add a timer from some state on, to
   a table of k timers, let callbacks take at most busy and sleeps overshoot by at
   most slip. If no timer was overdue in that state, or once k + 1 wake-ups have
   passed since, every firing comes at most (k + 1) * (busy + 15 + slip) milliseconds
   after its due time.
   */
  lemma LatenessBound(ss: seq<State>, es: seq<Event>, busy: nat, slip: nat, h: nat, a: nat, j: nat)
    requires IsRun(ss, es) && a <= j < |es| && !ss[a].stop
    requires Early(ss[a]) || Wakes(es, a, j) > |ss[a].order|
    requires forall l :: a <= l <= j ==> Timely(ss[l], es[l], busy, slip)
    requires Fires(ss[j], es[j], h)
    ensures ss[j].timers[h].nextTime <= es[j].now
            <= ss[j].timers[h].nextTime + Times(|ss[a].order| + 1, Round(busy, slip))
  {
    var p := ss[j].cursor;
    assert Due(ss[j], es[j].now) && ss[j].order[p] == h;
    hide Due, Next, Early, Times, OnTime, Undisturbed, OnSchedule;
    SoundAt(ss, es, a);
    SameOrder(ss, es, a, j);
    if Early(ss[a]) {
      EarlyIsOnTime(ss[a], p, busy, slip);
    }
    LatenessAt(ss, es, 0, busy, slip, p, a, j);
    StepForward(ss[j], es[j], ss[j + 1], h);
  }

  // ----- Creations

  /** The thread is left asleep until after the new timer is due. */
  predicate Oversleeps(s: State, e: Event) {
    && e.Create?
    && s.phase.Waiting?
    && s.base <= e.interval / 5
    && s.phase.wait > MIN_TICK
    && s.phase.since + s.phase.wait > e.start + e.interval
  }

  /** A sleeping thread planned its sleep within busy of its last wake-up. */
  predicate Prompt(s: State, busy: nat) {
    s.phase.Waiting? ==> s.phase.since <= s.last + busy
  }

  /**
   A new timer is on time if and only if its creation does not leave the thread
   asleep past its due time; otherwise it is within 1985 milliseconds of being so.
   */
  lemma CreationExactly(s: State, e: Event, s': State, p: nat, busy: nat, slip: nat)
    requires Next(s, e, s') && Adds(s, e) && OnSchedule(s, e, busy, slip) && Prompt(s, busy)
    requires p < |s'.order| && s'.order[p] == e.h
    ensures OnTime(s', p, 0, busy, slip) <==> !Oversleeps(s, e)
    ensures OnTime(s', p, MAX_TICK - MIN_TICK, busy, slip)
  {
    StepSound(s, e);
    AheadWithin(s', p);
    OneMore(|s'.order| - Ahead(s', p), Round(busy, slip));
    hide Ahead, Times, Lists;
  }

  /** With the new timer's place in the table. */
  lemma NewPlace(s: State, e: Event, s': State) returns (p: nat)
    requires Next(s, e, s') && Adds(s, e)
    ensures p < |s'.order| && s'.order[p] == e.h && Sound(s')
    ensures s'.stop == s.stop
  {
    StepSound(s, e);
    assert e.h in s'.timers;
    assert e.h in s'.order;
    p :| 0 <= p < |s'.order| && s'.order[p] == e.h;
  }

  lemma {:induction false} AlwaysPrompt(ss: seq<State>, es: seq<Event>, busy: nat, slip: nat, j: nat)
    requires IsRun(ss, es) && j < |ss| && !ss[0].phase.Waiting?
    requires forall l :: 0 <= l < j ==> OnSchedule(ss[l], es[l], busy, slip)
    ensures Prompt(ss[j], busy)
  {
    if j > 0 {
      hide Next, OnSchedule, Prompt;
      AlwaysPrompt(ss, es, busy, slip, j - 1);
      StepPrompt(ss[j - 1], es[j - 1], ss[j], busy, slip);
    }
  }

  lemma StepPrompt(s: State, e: Event, s': State, busy: nat, slip: nat)
    requires Next(s, e, s') && OnSchedule(s, e, busy, slip) && Prompt(s, busy)
    ensures Prompt(s', busy)
  {
    hide WaitAt, Sound;
  }

  function Overslept(s: State, e: Event): nat {
    if Oversleeps(s, e) then MAX_TICK - MIN_TICK else 0
  }

  /**
   The lateness of a new timer: while nobody adds another one to what is then a
   table of k timers, it fires at most k + 1 rounds after its due time, or at most
   1985 milliseconds more if its creation left the thread asleep past that time.
   */
  lemma NewTimerLateness(ss: seq<State>, es: seq<Event>, busy: nat, slip: nat, a: nat, j: nat)
    requires IsRun(ss, es) && a < j < |es| && !ss[0].phase.Waiting? && !ss[a].stop && Adds(ss[a], es[a])
    requires forall l :: 0 <= l <= j ==> OnSchedule(ss[l], es[l], busy, slip)
    requires forall l :: a < l <= j ==> Undisturbed(ss[l], es[l])
    requires Fires(ss[j], es[j], es[a].h)
    ensures es[a].h in ss[j].timers
    ensures es[j].now <= ss[j].timers[es[a].h].nextTime + Overslept(ss[a], es[a]) + Times(|ss[a + 1].order| + 1, Round(busy, slip))
  {
    AlwaysPrompt(ss, es, busy, slip, a);
    hide Fires, Undisturbed, OnSchedule, OnTime, Times, Prompt, Oversleeps;
    assert Next(ss[a], es[a], ss[a + 1]);
    hide Next;
    var p := NewPlace(ss[a], es[a], ss[a + 1]);
    CreationExactly(ss[a], es[a], ss[a + 1], p, busy, slip);
    LatenessAt(ss, es, Overslept(ss[a], es[a]), busy, slip, p, a + 1, j);
  }

  // ----- Every run

  /**
   What the creations of a run have cost: each one may send the cursor round the
   old table once more, and one that leaves the thread asleep delays the new timer.
   */
  function Slack(ss: seq<State>, es: seq<Event>, j: nat, busy: nat, slip: nat): nat
    requires j <= |es| <= |ss|
  {
    if j == 0 then 0
    else
      var before := Slack(ss, es, j - 1, busy, slip);
      if !Adds(ss[j - 1], es[j - 1]) then before
      else Larger(before + Tour(ss[j - 1], busy, slip), Overslept(ss[j - 1], es[j - 1]))
  }

  /** The time for the cursor to go once round the table. */
  function Tour(s: State, busy: nat, slip: nat): nat {
    |s.order| * Round(busy, slip)
  }

  lemma TourIsTimes(s: State, busy: nat, slip: nat)
    ensures Tour(s, busy, slip) == Times(|s.order|, Round(busy, slip))
  {
  }

  function Larger(a: nat, b: nat): nat {
    if a < b then b else a
  }

  ghost predicate AllOnTime(s: State, slack: nat, busy: nat, slip: nat) {
    forall p: nat :: p < |s.order| ==> OnTime(s, p, slack, busy, slip)
  }

  lemma MoreSlack(s: State, p: nat, slack: nat, slack': nat, busy: nat, slip: nat)
    requires OnTime(s, p, slack, busy, slip) && slack <= slack'
    ensures OnTime(s, p, slack', busy, slip)
  {
    hide Ahead, Times;
  }

  /** A creation may move the cursor away from an old timer, by one round of the old table at most. */
  lemma CreationDelays(s: State, e: Event, s': State, q: nat, p: nat, slack: nat, busy: nat, slip: nat)
    requires Next(s, e, s') && Adds(s, e) && OnTime(s, q, slack, busy, slip)
    requires q < |s.order| && p < |s'.order| && s'.order[p] == s.order[q]
    ensures OnTime(s', p, slack + Tour(s, busy, slip), busy, slip)
  {
    StepSound(s, e);
    AheadWithin(s', p);
    AheadWithin(s, q);
    var round := Round(busy, slip);
    OneMore(|s'.order| - Ahead(s', p), round);
    FewerTimes(|s.order| - Ahead(s, q), |s.order|, round);
    TourIsTimes(s, busy, slip);
    hide Ahead, Times, Tour, Lists;
  }

  lemma FewerTimes(m: int, n: int, d: nat)
    requires m <= n
    ensures Times(m, d) <= Times(n, d)
  {
    assert (n - m) * d >= 0;
  }

  lemma CreationAllOnTime(s: State, e: Event, s': State, slack: nat, busy: nat, slip: nat)
    requires Next(s, e, s') && Adds(s, e) && OnSchedule(s, e, busy, slip) && Prompt(s, busy)
    requires AllOnTime(s, slack, busy, slip)
    ensures AllOnTime(s', Larger(slack + Tour(s, busy, slip), Overslept(s, e)), busy, slip)
  {
    var slack' := Larger(slack + Tour(s, busy, slip), Overslept(s, e));
    forall p: nat | p < |s'.order|
      ensures OnTime(s', p, slack', busy, slip)
    {
      if s'.order[p] == e.h {
        CreationExactly(s, e, s', p, busy, slip);
        MoreSlack(s', p, Overslept(s, e), slack', busy, slip);
      } else {
        var q := OldPlace(s, e, s', p);
        CreationDelays(s, e, s', q, p, slack, busy, slip);
        MoreSlack(s', p, slack + Tour(s, busy, slip), slack', busy, slip);
      }
    }
  }

  lemma OldPlace(s: State, e: Event, s': State, p: nat) returns (q: nat)
    requires Next(s, e, s') && Adds(s, e) && p < |s'.order| && s'.order[p] != e.h
    ensures q < |s.order| && s.order[q] == s'.order[p]
  {
    assert s'.order[p] in s'.timers;
    assert s'.order[p] in s.timers;
    q :| 0 <= q < |s.order| && s.order[q] == s'.order[p];
  }

  lemma StepAllOnTime(s: State, e: Event, s': State, slack: nat, busy: nat, slip: nat)
    requires Next(s, e, s') && Timely(s, e, busy, slip) && !s.stop && AllOnTime(s, slack, busy, slip)
    ensures AllOnTime(s', slack, busy, slip)
  {
    StepSameOrder(s, e, s');
    hide OnTime, Next, Undisturbed, OnSchedule;
    forall p: nat | p < |s'.order|
      ensures OnTime(s', p, slack, busy, slip)
    {
      StepOnTime(s, e, s', p, slack, busy, slip);
    }
  }

  lemma {:induction false} AlwaysOnTime(ss: seq<State>, es: seq<Event>, busy: nat, slip: nat, j: nat)
    requires IsRun(ss, es) && j < |ss| && Early(ss[0]) && !ss[0].stop
    requires forall l :: 0 <= l < j ==> OnSchedule(ss[l], es[l], busy, slip) && !es[l].Stop?
    ensures AllOnTime(ss[j], Slack(ss, es, j, busy, slip), busy, slip) && !ss[j].stop
  {
    hide Next, OnSchedule, OnTime, Adds, Oversleeps;
    if j == 0 {
      forall p: nat | p < |ss[0].order|
        ensures OnTime(ss[0], p, 0, busy, slip)
      {
        EarlyIsOnTime(ss[0], p, busy, slip);
      }
    } else {
      var s, e, s' := ss[j - 1], es[j - 1], ss[j];
      AlwaysOnTime(ss, es, busy, slip, j - 1);
      StillGoing(s, e, s');
      if Adds(s, e) {
        AlwaysPrompt(ss, es, busy, slip, j - 1);
        CreationAllOnTime(s, e, s', Slack(ss, es, j - 1, busy, slip), busy, slip);
      } else {
        StepAllOnTime(s, e, s', Slack(ss, es, j - 1, busy, slip), busy, slip);
      }
    }
  }

  lemma StillGoing(s: State, e: Event, s': State)
    requires Next(s, e, s') && !s.stop && !e.Stop?
    ensures !s'.stop
  {
    hide Sound, WaitAt;
  }

  /**
   Bounded lateness in every run: from a state in which nothing is overdue, such as
   the constructor's, whatever timers are created on the way, every firing comes at
   most k + 1 rounds and the slack of the creations so far after its due time.
   */
  lemma LatenessAlways(ss: seq<State>, es: seq<Event>, busy: nat, slip: nat, h: nat, j: nat)
    requires IsRun(ss, es) && j < |es| && Early(ss[0]) && !ss[0].stop
    requires forall l :: 0 <= l <= j ==> OnSchedule(ss[l], es[l], busy, slip) && !es[l].Stop?
    requires Fires(ss[j], es[j], h)
    ensures ss[j].timers[h].nextTime <= es[j].now
            <= ss[j].timers[h].nextTime + Slack(ss, es, j, busy, slip) + Times(|ss[j].order| + 1, Round(busy, slip))
  {
    hide Next, Times, AllOnTime, OnSchedule, Slack, Fires, Early, Round, Sound;
    AlwaysOnTime(ss, es, busy, slip, j);
    LateFiring(ss[j], es[j], ss[j + 1], Slack(ss, es, j, busy, slip), busy, slip, h);
  }

  lemma LateFiring(s: State, e: Event, s': State, slack: nat, busy: nat, slip: nat, h: nat)
    requires Next(s, e, s') && OnSchedule(s, e, busy, slip) && !s.stop && AllOnTime(s, slack, busy, slip) && Fires(s, e, h)
    ensures h in s.timers
            && s.timers[h].nextTime <= e.now <= s.timers[h].nextTime + slack + Times(|s.order| + 1, Round(busy, slip))
  {
    var p := s.cursor;
    assert Due(s, e.now) && s.order[p] == h;
    hide Due, Next, Times, OnTime, OnSchedule, Undisturbed;
    NotAdding(s, e, h);
    StepOnTime(s, e, s', p, slack, busy, slip);
  }

  lemma NotAdding(s: State, e: Event, h: nat)
    requires Fires(s, e, h)
    ensures Undisturbed(s, e)
  {
  }

  // ----- A creation that oversleeps

  /**
   A run from the constructor in which nothing takes any time: the first timer is
   created and removed, the thread goes to sleep, and a timer created then, with no
   shorter interval, does not rouse it and fires 2000 milliseconds late.
   */
  lemma CreationOverslept(now: int) returns (ss: seq<State>, es: seq<Event>)
    ensures PromptRun(ss, es) && |ss| == 8 && |es| == 7 && ss[0] == State(map[], [], 0, Planning, now, MAX_TICK, false)
    ensures Adds(ss[3], es[3]) && Oversleeps(ss[3], es[3]) && es[3].h == 2
    ensures Fires(ss[6], es[6], 2) && es[6].now == ss[6].timers[2].nextTime + 2000
  {
    var s3 := State(map[1 := Timer(15, now + 15, false)], [1], 1, Waiting(now, 2000), now, 3, false);
    var s4 := s3.(timers := s3.timers[2 := Timer(15, now + 15, true)], order := [2, 1], cursor := 2);
    var s5 := s4.(cursor := 0, phase := Planning, last := now + 2000);
    var s6 := s5.(phase := Waiting(now + 2000, 15));
    var s7 := s6.(timers := s6.timers[2 := Timer(15, now + 2030, true)], phase := Firing(2), last := now + 2015);
    hide Next, Fires, Adds, Oversleeps, OnSchedule, IsRun, Sound, PromptRun;
    ss, es := FallsAsleep(now);
    Unheard(s3, s4, now);
    FoundLate(s4, s5, s6, s7, now);
    ss, es := StepOn(ss, es, Create(2, 15, now, [2, 1], 2), s4);
    ss, es := StepOn(ss, es, Wake(now + 2000), s5);
    ss, es := StepOn(ss, es, Plan(now + 2000), s6);
    ss, es := StepOn(ss, es, Wake(now + 2015), s7);
  }

  /** The start of that run: a timer comes and goes, and the thread sleeps with the base interval at 3. */
  lemma FallsAsleep(now: int) returns (ss: seq<State>, es: seq<Event>)
    ensures PromptRun(ss, es) && |ss| == 4 && |es| == 3 && ss[0] == State(map[], [], 0, Planning, now, MAX_TICK, false)
    ensures ss[3] == State(map[1 := Timer(15, now + 15, false)], [1], 1, Waiting(now, 2000), now, 3, false)
  {
    var s0 := State(map[], [], 0, Planning, now, MAX_TICK, false);
    var s1 := State(map[1 := Timer(15, now + 15, true)], [1], 1, Planning, now, 3, false);
    var s2 := s1.(timers := map[1 := Timer(15, now + 15, false)]);
    hide Next, OnSchedule, IsRun, PromptRun;
    FirstOff(s0, s1, s2, now);
    PlansFullWait(s2, Plan(now));
    hide Sound;
    ss, es := NoSteps(s0);
    ss, es := StepOn(ss, es, Create(1, 15, now, [1], 1), s1);
    ss, es := StepOn(ss, es, Remove(1), s2);
    ss, es := StepOn(ss, es, Plan(now), s2.(phase := Waiting(now, 2000)));
  }

  /** A run in which nothing takes any time. */
  ghost predicate PromptRun(ss: seq<State>, es: seq<Event>) {
    IsRun(ss, es) && forall l :: 0 <= l < |es| ==> OnSchedule(ss[l], es[l], 0, 0)
  }

  lemma NoSteps(s: State) returns (ss: seq<State>, es: seq<Event>)
    requires Sound(s)
    ensures PromptRun(ss, es) && ss == [s] && es == []
  {
    ss, es := [s], [];
  }

  lemma StepOn(ss: seq<State>, es: seq<Event>, e: Event, s': State) returns (ss': seq<State>, es': seq<Event>)
    requires PromptRun(ss, es) && |ss| == |es| + 1 && Next(ss[|es|], e, s') && OnSchedule(ss[|es|], e, 0, 0)
    ensures PromptRun(ss', es') && ss' == ss + [s'] && es' == es + [e]
  {
    hide Next, OnSchedule, Sound;
    ss', es' := ss + [s'], es + [e];
  }

  lemma FirstOff(s0: State, s1: State, s2: State, now: int)
    requires s0 == State(map[], [], 0, Planning, now, MAX_TICK, false)
    requires s1 == State(map[1 := Timer(15, now + 15, true)], [1], 1, Planning, now, 3, false)
    requires s2 == s1.(timers := map[1 := Timer(15, now + 15, false)])
    ensures Next(s0, Create(1, 15, now, [1], 1), s1) && Next(s1, Remove(1), s2) && Sound(s0)
    ensures OnSchedule(s0, Create(1, 15, now, [1], 1), 0, 0) && OnSchedule(s1, Remove(1), 0, 0)
  {
    assert s2.timers == s1.timers[1 := Timer(15, now + 15, false)];
  }

  lemma PlansFullWait(s: State, e: Event)
    requires Sound(s) && s.phase == Planning && e.Plan? && forall h :: h in s.timers ==> !s.timers[h].active
    ensures Next(s, e, s.(phase := Waiting(e.now, MAX_TICK)))
    ensures s.last == e.now ==> OnSchedule(s, e, 0, 0)
  {
    EarliestIsMinimum(s.timers, s.order, |s.order|, e.now + MAX_TICK);
  }

  /** The second creation of that run finds the base interval already at 3 and leaves the thread asleep. */
  lemma Unheard(s3: State, s4: State, now: int)
    requires s3 == State(map[1 := Timer(15, now + 15, false)], [1], 1, Waiting(now, 2000), now, 3, false)
    requires s4 == s3.(timers := s3.timers[2 := Timer(15, now + 15, true)], order := [2, 1], cursor := 2)
    ensures var e := Create(2, 15, now, [2, 1], 2);
            Next(s3, e, s4) && OnSchedule(s3, e, 0, 0) && Adds(s3, e) && Oversleeps(s3, e)
  {
    hide WaitAt;
    assert [2, 1][0] == 2 && [2, 1][1] == 1;
  }

  /** The first wake-up after it only takes the cursor back to the start of the table. */
  lemma FoundLate(s4: State, s5: State, s6: State, s7: State, now: int)
    requires s4 == State(map[1 := Timer(15, now + 15, false), 2 := Timer(15, now + 15, true)], [2, 1], 2,
                         Waiting(now, 2000), now, 3, false)
    requires s5 == s4.(cursor := 0, phase := Planning, last := now + 2000)
    requires s6 == s5.(phase := Waiting(now + 2000, 15))
    requires s7 == s6.(timers := s6.timers[2 := Timer(15, now + 2030, true)], phase := Firing(2), last := now + 2015)
    ensures Next(s4, Wake(now + 2000), s5) && Next(s5, Plan(now + 2000), s6)
    ensures Next(s6, Wake(now + 2015), s7) && Fires(s6, Wake(now + 2015), 2)
    ensures OnSchedule(s4, Wake(now + 2000), 0, 0) && OnSchedule(s5, Plan(now + 2000), 0, 0)
    ensures OnSchedule(s6, Wake(now + 2015), 0, 0)
  {
    assert [2, 1][0] == 2 && [2, 1][1] == 1;
    MinimumWait(s5.timers, s5.order, now + 2000);
    assert s5.timers[2].active;
    hide WaitAt;
  }
}
