/**
 The bridge's semaphore (`Semaphore.run` and `maxInFlight` in bridges/atta-dsh-bridge/src/limit.js).
 */
module Semaphore {
  /**
   `run` either starts its function at once or parks a resolver in the queue. A finishing task
   resolves the first of them, but the resolved task only counts itself active when it resumes, in
   a later turn of the event loop; a newcomer may come in between. The three sections between
   awaits are the methods of the class and the steps of the machine.
   */

  import opened Wrappers

  type Task = nat

  // ---------------------------------------------------------------- the limit

  const DEFAULT_MAX_IN_FLIGHT: nat := 8

  /** What `Number` makes of the environment variable. */
  datatype Number = NotFinite | Finite(value: real)

  function MaxInFlight(raw: Number): nat {
    if raw.Finite? && raw.value > 0.0 then raw.value.Floor else DEFAULT_MAX_IN_FLIGHT
  }

  /** A positive number counts rounded down; anything else leaves the limit at eight. */
  lemma LimitIsTheFloor(raw: Number)
    ensures raw.Finite? && raw.value > 0.0 ==>
              MaxInFlight(raw) as real <= raw.value < MaxInFlight(raw) as real + 1.0
    ensures raw.NotFinite? || raw.value <= 0.0 ==> MaxInFlight(raw) == 8
  {
  }

  /** The limit is zero exactly for the positive fractions below one. */
  lemma LimitIsZeroIff(raw: Number)
    ensures MaxInFlight(raw) == 0 <==> raw.Finite? && 0.0 < raw.value < 1.0
  {
  }

  // ---------------------------------------------------------------- in place

  class Limiter {
    const limit: nat
    var active: nat
    var waiting: seq<Task>

    /** The object is what the machine's state says of it. */
    ghost predicate Shows(s: State)
      reads this
    {
      s.active == active && s.waiting == waiting
    }

    constructor (limit: nat)
      ensures this.limit == limit && active == 0 && waiting == []
    {
      this.limit := limit;
      active, waiting := 0, [];
    }

    /** Up to the first await: starts at once, or parks. */
    method Enter(t: Task) returns (starts: bool)
      modifies this
      ensures starts <==> old(active) < limit
      ensures active == if starts then old(active) + 1 else old(active)
      ensures waiting == if starts then old(waiting) else old(waiting) + [t]
      ensures forall s: State :: old(Shows(s)) && s.nextTask == t ==> Shows(Next(limit, s, Step.Enter))
    {
      if active >= limit {
        waiting := waiting + [t];
        return false;
      }
      active := active + 1;
      return true;
    }

    /** After the await: nothing is checked again. */
    method Resume()
      modifies this
      ensures active == old(active) + 1 && waiting == old(waiting)
      ensures forall s: State :: old(Shows(s)) && Enabled(s, Step.Resume) ==> Shows(Next(limit, s, Step.Resume))
    {
      active := active + 1;
    }

    method Finish() returns (next: Option<Task>)
      requires active > 0
      modifies this
      ensures active == old(active) - 1
      ensures next == if old(waiting) == [] then None else Some(old(waiting)[0])
      ensures old(waiting) == if next.Some? then [next.value] + waiting else waiting
      ensures forall s: State :: old(Shows(s)) ==>
                && Shows(Next(limit, s, Step.Finish))
                && Next(limit, s, Step.Finish).woken == s.woken + if next.Some? then [next.value] else []
    {
      active := active - 1;
      if waiting == [] {
        return None;
      }
      next := Some(waiting[0]);
      waiting := waiting[1..];
    }
  }

  // ---------------------------------------------------------------- every run

  /**
   `woken` are the tasks resolved and not yet resumed; `parked` and `released` record who was ever
   put into the queue and who was ever resolved, in order. Tasks are numbered by arrival.
   */
  datatype State = State(
    active: nat,
    waiting: seq<Task>,
    woken: seq<Task>,
    parked: seq<Task>,
    released: seq<Task>,
    nextTask: Task)

  const INITIAL := State(0, [], [], [], [], 0)

  datatype Step = Enter | Resume | Finish

  predicate Enabled(s: State, a: Step) {
    match a
    case Enter => true
    case Resume => s.woken != []
    case Finish => s.active > 0
  }

  function Next(limit: nat, s: State, a: Step): State
    requires Enabled(s, a)
  {
    match a
    case Enter =>
      var t := s.nextTask;
      if s.active >= limit
      then s.(waiting := s.waiting + [t], parked := s.parked + [t], nextTask := t + 1)
      else s.(active := s.active + 1, nextTask := t + 1)
    case Resume => s.(active := s.active + 1, woken := s.woken[1..])
    case Finish =>
      if s.waiting == [] then s.(active := s.active - 1)
      else
        s.(active := s.active - 1,
           waiting := s.waiting[1..],
           woken := s.woken + [s.waiting[0]],
           released := s.released + [s.waiting[0]])
  }

  ghost predicate IsRun(limit: nat, states: seq<State>, steps: seq<Step>) {
    && |states| == |steps| + 1
    && states[0] == INITIAL
    && forall i {:trigger steps[i]} :: 0 <= i < |steps| ==>
         Enabled(states[i], steps[i]) && states[i + 1] == Next(limit, states[i], steps[i])
  }

  /** Tasks that count, or are about to. */
  function Admitted(s: State): nat {
    s.active + |s.woken|
  }

  predicate NoLostWakeup(limit: nat, s: State) {
    s.waiting != [] ==> Admitted(s) >= limit
  }

  /** Whoever was parked has been released or still waits, in order of arrival, and is parked once. */
  ghost predicate FirstInFirstOut(s: State) {
    && s.parked == s.released + s.waiting
    && (forall i :: 0 <= i < |s.parked| ==> s.parked[i] < s.nextTask)
    && (forall i, j :: 0 <= i < j < |s.parked| ==> s.parked[i] < s.parked[j])
  }

  /** Those resolved and not resumed are the last ones released. */
  ghost predicate WokenAreReleased(s: State) {
    |s.woken| <= |s.released| && s.woken == s.released[|s.released| - |s.woken|..]
  }

  lemma WakeupStep(limit: nat, s: State, a: Step)
    requires Enabled(s, a) && NoLostWakeup(limit, s) && WokenAreReleased(s)
    ensures NoLostWakeup(limit, Next(limit, s, a)) && WokenAreReleased(Next(limit, s, a))
  {
  }

  lemma OrderStep(limit: nat, s: State, a: Step)
    requires Enabled(s, a) && FirstInFirstOut(s)
    ensures FirstInFirstOut(Next(limit, s, a))
  {
    var s' := Next(limit, s, a);
    if a.Finish? && s.waiting != [] {
      assert s.waiting == [s.waiting[0]] + s.waiting[1..];
      assert s'.released + s'.waiting == s.released + s.waiting;
    } else if a.Enter? && s.active >= limit {
      assert s.released + s'.waiting == s.parked + [s.nextTask];
    }
  }

  /**
   In every run a task in the queue implies that `limit` tasks are active or about to be, and
   waiters are woken once each in order of arrival.
   */
  lemma {:induction false} Invariant(limit: nat, states: seq<State>, steps: seq<Step>, n: nat)
    requires IsRun(limit, states, steps) && n < |states|
    ensures NoLostWakeup(limit, states[n]) && FirstInFirstOut(states[n]) && WokenAreReleased(states[n])
  {
    if n > 0 {
      Invariant(limit, states, steps, n - 1);
      WakeupStep(limit, states[n - 1], steps[n - 1]);
      OrderStep(limit, states[n - 1], steps[n - 1]);
    }
  }

  /** With room for anybody at all, a queued task always has somebody ahead who can move. */
  lemma QueuedMeansProgress(limit: nat, states: seq<State>, steps: seq<Step>, n: nat)
    requires IsRun(limit, states, steps) && n < |states| && limit >= 1
    requires states[n].waiting != []
    ensures Enabled(states[n], Resume) || Enabled(states[n], Finish)
  {
    Invariant(limit, states, steps, n);
  }

  /** Finishes among the steps from `m` up to `n`. */
  function Finishes(steps: seq<Step>, m: nat, n: nat): nat
    requires n <= |steps|
  {
    if n <= m then 0 else Finishes(steps, m, n - 1) + if steps[n - 1].Finish? then 1 else 0
  }

  /** Arrivals among the first `n` steps. */
  function Arrivals(steps: seq<Step>, n: nat): nat
    requires n <= |steps|
  {
    if n == 0 then 0 else Arrivals(steps, n - 1) + if steps[n - 1].Enter? then 1 else 0
  }

  /** Every task that has come is in one place: in the queue, woken, at work, or finished. */
  lemma {:induction false} EveryTaskIsSomewhere(limit: nat, states: seq<State>, steps: seq<Step>, n: nat)
    requires IsRun(limit, states, steps) && n < |states|
    ensures states[n].nextTask == Arrivals(steps, n)
    ensures |states[n].waiting| + |states[n].woken| + states[n].active + Finishes(steps, 0, n) == Arrivals(steps, n)
  {
    if n > 0 {
      EveryTaskIsSomewhere(limit, states, steps, n - 1);
      assert states[n] == Next(limit, states[n - 1], steps[n - 1]);
    }
  }

  lemma {:induction false} EveryFinishReleases(limit: nat, states: seq<State>, steps: seq<Step>, m: nat, n: nat)
    requires IsRun(limit, states, steps) && m <= n < |states|
    ensures states[m].parked <= states[n].parked && states[m].released <= states[n].released
    ensures states[n].waiting == [] || |states[n].released| == |states[m].released| + Finishes(steps, m, n)
         || |states[n].released| >= |states[m].parked|
  {
    if m < n {
      EveryFinishReleases(limit, states, steps, m, n - 1);
      Invariant(limit, states, steps, n - 1);
      Invariant(limit, states, steps, m);
      assert states[n] == Next(limit, states[n - 1], steps[n - 1]);
    }
  }

  /** A task with `p` others before it in the queue has been woken once `p + 1` tasks have finished. */
  lemma WokenInItsTurn(limit: nat, states: seq<State>, steps: seq<Step>, m: nat, n: nat, p: nat)
    requires IsRun(limit, states, steps) && m <= n < |states|
    requires p < |states[m].waiting| && Finishes(steps, m, n) > p
    ensures states[m].waiting[p] in states[n].released && states[m].waiting[p] !in states[m].released
  {
    Invariant(limit, states, steps, m);
    Invariant(limit, states, steps, n);
    EveryFinishReleases(limit, states, steps, m, n);
    var s, s' := states[m], states[n];
    var k := |s.released| + p;
    assert s.parked[k] == s.waiting[p];
    assert s'.parked[k] == s.waiting[p];
    assert |s'.released| > k;
    assert s'.released[k] == s'.parked[k];
    forall i | 0 <= i < |s.released| ensures s.released[i] != s.waiting[p] {
      assert s.parked[i] == s.released[i];
    }
  }

  // ---------------------------------------------------------------- the bound, and when it fails

  /** A newcomer starts although the places are all spoken for: a released task has not resumed yet. */
  predicate Barges(limit: nat, s: State, a: Step) {
    a.Enter? && s.active < limit <= Admitted(s)
  }

  /** The places are never promised twice, over a whole run, exactly when no newcomer barges in. */
  lemma WithinLimitIffNobodyBarges(limit: nat, states: seq<State>, steps: seq<Step>)
    requires IsRun(limit, states, steps)
    ensures (forall i :: 0 <= i < |states| ==> Admitted(states[i]) <= limit)
       <==> (forall i :: 0 <= i < |steps| ==> !Barges(limit, states[i], steps[i]))
  {
    if forall i :: 0 <= i < |steps| ==> !Barges(limit, states[i], steps[i]) {
      forall i | 0 <= i < |states| ensures Admitted(states[i]) <= limit {
        StaysWithin(limit, states, steps, i);
      }
    } else {
      var i :| 0 <= i < |steps| && Barges(limit, states[i], steps[i]);
      assert Admitted(states[i + 1]) == Admitted(states[i]) + 1;
    }
  }

  lemma {:induction false} StaysWithin(limit: nat, states: seq<State>, steps: seq<Step>, n: nat)
    requires IsRun(limit, states, steps) && n < |states|
    requires forall i :: 0 <= i < |steps| ==> !Barges(limit, states[i], steps[i])
    ensures Admitted(states[n]) <= limit
  {
    if n > 0 {
      StaysWithin(limit, states, steps, n - 1);
      assert !Barges(limit, states[n - 1], steps[n - 1]);
      assert states[n] == Next(limit, states[n - 1], steps[n - 1]);
    }
  }

  /**
   The number of tasks that run at once stays within the limit exactly when every woken task
   finds a free place as it resumes: only resuming can take a place that is not there.
   */
  lemma ActiveWithinLimitIff(limit: nat, states: seq<State>, steps: seq<Step>)
    requires IsRun(limit, states, steps)
    ensures (forall i :: 0 <= i < |states| ==> states[i].active <= limit)
       <==> (forall i {:trigger steps[i]} :: 0 <= i < |steps| && steps[i].Resume? ==> states[i].active < limit)
  {
    if forall i :: 0 <= i < |states| ==> states[i].active <= limit {
      forall i {:trigger steps[i]} | 0 <= i < |steps| && steps[i].Resume? ensures states[i].active < limit {
        assert states[i + 1].active <= limit;
      }
    }
    if forall i {:trigger steps[i]} :: 0 <= i < |steps| && steps[i].Resume? ==> states[i].active < limit {
      forall i | 0 <= i < |states| ensures states[i].active <= limit {
        ActiveStaysWithin(limit, states, steps, i);
      }
    }
  }

  lemma {:induction false} ActiveStaysWithin(limit: nat, states: seq<State>, steps: seq<Step>, n: nat)
    requires IsRun(limit, states, steps) && n < |states|
    requires forall i {:trigger steps[i]} :: 0 <= i < |steps| && steps[i].Resume? ==> states[i].active < limit
    ensures states[n].active <= limit
  {
    if n > 0 {
      ActiveStaysWithin(limit, states, steps, n - 1);
      assert states[n] == Next(limit, states[n - 1], steps[n - 1]);
    }
  }

  /** If released tasks resume before newcomers enter, at most `limit` tasks are ever admitted. */
  lemma WithinLimitWhenResumedFirst(limit: nat, states: seq<State>, steps: seq<Step>, n: nat)
    requires IsRun(limit, states, steps) && n < |states|
    requires forall i {:trigger steps[i]} :: 0 <= i < |steps| && steps[i].Enter? ==> states[i].woken == []
    ensures Admitted(states[n]) <= limit
  {
    forall i | 0 <= i < |steps| ensures !Barges(limit, states[i], steps[i]) {
      assert steps[i].Enter? ==> states[i].woken == [];
    }
    StaysWithin(limit, states, steps, n);
  }

  /** Otherwise too many can run: with limit one, two tasks run at the same time. */
  lemma TwoAtOnceUnderLimitOne()
    ensures exists states: seq<State>, steps: seq<Step>, n: nat ::
              IsRun(1, states, steps) && n < |states| && states[n].active == 2
  {
    var steps := [Enter, Enter, Finish, Enter, Resume];
    var s1 := Next(1, INITIAL, Enter);
    var s2 := Next(1, s1, Enter);
    var s3 := Next(1, s2, Finish);
    var s4 := Next(1, s3, Enter);
    var s5 := Next(1, s4, Resume);
    var states := [INITIAL, s1, s2, s3, s4, s5];
    assert IsRun(1, states, steps);
    assert states[5].active == 2;
  }

  /** Under limit zero nothing ever starts and every task waits for ever. */
  lemma {:induction false} LimitZeroStartsNothing(states: seq<State>, steps: seq<Step>, n: nat)
    requires IsRun(0, states, steps) && n < |states|
    ensures Admitted(states[n]) == 0 && |states[n].waiting| == n
  {
    if n > 0 {
      LimitZeroStartsNothing(states, steps, n - 1);
      assert states[n] == Next(0, states[n - 1], steps[n - 1]);
    }
  }

  /** A setting of one half, for example. */
  lemma HalfStartsNothing(states: seq<State>, steps: seq<Step>, n: nat)
    requires IsRun(MaxInFlight(Finite(0.5)), states, steps) && n < |states|
    ensures Admitted(states[n]) == 0 && |states[n].waiting| == n
  {
    LimitIsZeroIff(Finite(0.5));
    LimitZeroStartsNothing(states, steps, n);
  }

  /** So a setting lets some task start exactly when it is not a positive fraction below one. */
  lemma SomethingStartsIff(raw: Number)
    ensures !(raw.Finite? && 0.0 < raw.value < 1.0)
       <==> exists states: seq<State>, steps: seq<Step>, n: nat ::
              IsRun(MaxInFlight(raw), states, steps) && n < |states| && states[n].active > 0
  {
    LimitIsZeroIff(raw);
    var limit := MaxInFlight(raw);
    if limit > 0 {
      var s1 := Next(limit, INITIAL, Enter);
      var states, steps := [INITIAL, s1], [Enter];
      assert IsRun(limit, states, steps);
      assert states[1].active > 0;
    } else {
      forall states: seq<State>, steps: seq<Step>, n: nat | IsRun(limit, states, steps) && n < |states|
        ensures states[n].active == 0
      {
        LimitZeroStartsNothing(states, steps, n);
      }
    }
  }
}
