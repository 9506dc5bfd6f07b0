/**
 Debounce by generation (`Inner::schedule_notify` in daemon/src/watch_hub.rs).
 */
module Debounce {
  /**
   Every event bumps its key's generation and leaves behind a checker, which sleeps for the
   debounce window and then notifies only if its generation is still the newest. Sleeping takes at
   least the window but may take longer, so the machine lets a checker run at any time from its due
   time on, in any order.
   */

  import opened WatchRegistry

  type Time = nat

  /** Milliseconds. */
  const DEBOUNCE: Time := 300

  datatype Checker = Checker(key: WatchKey, gen: nat, due: Time)

  datatype Notice = Notice(key: WatchKey, gen: nat, time: Time)

  function Generation(gens: map<WatchKey, nat>, key: WatchKey): nat {
    if key in gens then gens[key] else 0
  }

  // ---------------------------------------------------------------- in place

  class Debouncer {
    var gens: map<WatchKey, nat>
    var sleeping: set<Checker>
    var sent: seq<Notice>

    /** The object is what the machine's state says of it. */
    ghost predicate Shows(s: State)
      reads this
    {
      s.gens == gens && s.sleeping == sleeping && s.sent == sent
    }

    constructor ()
      ensures gens == map[] && sleeping == {} && sent == []
    {
      gens, sleeping, sent := map[], {}, [];
    }

    method ScheduleNotify(key: WatchKey, now: Time)
      modifies this
      ensures gens == old(gens)[key := Generation(old(gens), key) + 1]
      ensures sleeping == old(sleeping) + {Checker(key, Generation(gens, key), now + 300)}
      ensures sent == old(sent)
      ensures forall s: State :: old(Shows(s)) && s.now == now ==> Shows(Next(s, Step.Event(key)))
    {
      if key !in gens {
        gens := gens[key := 0];
      }
      var myGen := gens[key] + 1;
      gens := gens[key := myGen];
      sleeping := sleeping + {Checker(key, myGen, now + DEBOUNCE)};
    }

    method Wake(c: Checker, now: Time)
      requires c in sleeping && c.due <= now
      modifies this
      ensures gens == old(gens) && sleeping == old(sleeping) - {c}
      ensures sent == if Generation(gens, c.key) == c.gen then old(sent) + [Notice(c.key, c.gen, now)] else old(sent)
      ensures forall s: State :: old(Shows(s)) && s.now == now ==> Shows(Next(s, Step.Wake(c)))
    {
      sleeping := sleeping - {c};
      if Generation(gens, c.key) == c.gen {
        sent := sent + [Notice(c.key, c.gen, now)];
      }
    }
  }

  // ---------------------------------------------------------------- timed runs

  /** `happened` records when each event came; the generation is its number among its key's events. */
  datatype State = State(
    now: Time,
    gens: map<WatchKey, nat>,
    sleeping: set<Checker>,
    sent: seq<Notice>,
    happened: map<(WatchKey, nat), Time>)

  const INITIAL := State(0, map[], {}, [], map[])

  datatype Step = Elapse(d: Time) | Event(key: WatchKey) | Wake(c: Checker)

  predicate Enabled(s: State, a: Step) {
    match a
    case Wake(c) => c in s.sleeping && c.due <= s.now
    case _ => true
  }

  function Next(s: State, a: Step): State
    requires Enabled(s, a)
  {
    match a
    case Elapse(d) => s.(now := s.now + d)
    case Event(key) =>
      var gen := Generation(s.gens, key) + 1;
      s.(gens := s.gens[key := gen],
         sleeping := s.sleeping + {Checker(key, gen, s.now + DEBOUNCE)},
         happened := s.happened[(key, gen) := s.now])
    case Wake(c) =>
      s.(sleeping := s.sleeping - {c},
         sent := if Generation(s.gens, c.key) == c.gen then s.sent + [Notice(c.key, c.gen, s.now)] else s.sent)
  }

  ghost predicate IsRun(states: seq<State>, steps: seq<Step>) {
    && |states| == |steps| + 1
    && states[0] == INITIAL
    && forall i {:trigger steps[i]} :: 0 <= i < |steps| ==>
         Enabled(states[i], steps[i]) && states[i + 1] == Next(states[i], steps[i])
  }

  /** Event number `gen` of `key` has happened. */
  predicate Happened(s: State, key: WatchKey, gen: nat) {
    1 <= gen <= Generation(s.gens, key)
  }

  function At(s: State, key: WatchKey, gen: nat): Time {
    if (key, gen) in s.happened then s.happened[(key, gen)] else 0
  }

  /** Events are numbered in the order of their times. */
  ghost predicate EventsInOrder(s: State) {
    && (forall key, gen: nat :: Happened(s, key, gen) ==> (key, gen) in s.happened && At(s, key, gen) <= s.now)
    && (forall key, g: nat, h: nat ::
          Happened(s, key, g) && Happened(s, key, h) && g <= h ==> At(s, key, g) <= At(s, key, h))
  }

  /** A checker belongs to an event that is a window before its due time. */
  ghost predicate CheckersBelong(s: State) {
    forall c <- s.sleeping :: Happened(s, c.key, c.gen) && c.due == At(s, c.key, c.gen) + DEBOUNCE
  }

  /** A notice comes at least a window after its event, and before the next event of its key. */
  ghost predicate NoticesBelong(s: State) {
    forall i {:trigger s.sent[i]} :: 0 <= i < |s.sent| ==>
      var n := s.sent[i];
      && Happened(s, n.key, n.gen)
      && At(s, n.key, n.gen) + DEBOUNCE <= n.time <= s.now
      && (Happened(s, n.key, n.gen + 1) ==> n.time <= At(s, n.key, n.gen + 1))
  }

  /** Notices of a key are for ever newer events, and a sleeping checker has not given its own. */
  ghost predicate NoticesInOrder(s: State) {
    && (forall i, j {:trigger s.sent[i], s.sent[j]} :: 0 <= i < j < |s.sent| && s.sent[i].key == s.sent[j].key ==>
          s.sent[i].gen < s.sent[j].gen)
    && (forall i, c {:trigger s.sent[i], c in s.sleeping} :: 0 <= i < |s.sent| && c in s.sleeping ==>
          !(s.sent[i].key == c.key && s.sent[i].gen == c.gen))
  }

  predicate Noticed(s: State, key: WatchKey, gen: nat) {
    exists i :: 0 <= i < |s.sent| && s.sent[i].key == key && s.sent[i].gen == gen
  }

  /** The newest event of a key has been notified, or its checker still sleeps. */
  ghost predicate NewestIsCovered(s: State) {
    forall key {:trigger Generation(s.gens, key)} :: Generation(s.gens, key) > 0 ==>
      Noticed(s, key, Generation(s.gens, key)) || SleepsFor(s, key, Generation(s.gens, key))
  }

  ghost predicate SleepsFor(s: State, key: WatchKey, gen: nat) {
    exists c :: c in s.sleeping && c.key == key && c.gen == gen
  }

  ghost predicate Inv(s: State) {
    EventsInOrder(s) && CheckersBelong(s) && NoticesBelong(s) && NoticesInOrder(s) && NewestIsCovered(s)
  }

  lemma EventsStep(s: State, a: Step)
    requires Enabled(s, a) && EventsInOrder(s)
    ensures EventsInOrder(Next(s, a))
    ensures forall key, gen: nat :: Happened(s, key, gen) ==>
              Happened(Next(s, a), key, gen) && At(Next(s, a), key, gen) == At(s, key, gen)
  {
  }

  lemma CheckersStep(s: State, a: Step)
    requires Enabled(s, a) && EventsInOrder(s) && CheckersBelong(s)
    ensures CheckersBelong(Next(s, a))
  {
    EventsStep(s, a);
  }

  lemma NoticesStep(s: State, a: Step)
    requires Enabled(s, a) && Inv(s)
    ensures NoticesBelong(Next(s, a))
  {
    EventsStep(s, a);
  }

  lemma OrderStep(s: State, a: Step)
    requires Enabled(s, a) && Inv(s)
    ensures NoticesInOrder(Next(s, a))
  {
  }

  lemma CoverStep(s: State, a: Step)
    requires Enabled(s, a) && NewestIsCovered(s)
    ensures NewestIsCovered(Next(s, a))
  {
    var s' := Next(s, a);
    forall key: WatchKey | Generation(s'.gens, key) > 0
      ensures Noticed(s', key, Generation(s'.gens, key)) || SleepsFor(s', key, Generation(s'.gens, key))
    {
      var gen := Generation(s'.gens, key);
      if a.Event? && a.key == key {
        assert Checker(key, gen, s.now + DEBOUNCE) in s'.sleeping;
      } else {
        assert Generation(s.gens, key) == gen;
        CoverStays(s, a, key);
      }
    }
  }

  /** Either the notice is given already, or the checker still sleeps, or this step wakes it. */
  lemma CoverStays(s: State, a: Step, key: WatchKey)
    requires Enabled(s, a) && !(a.Event? && a.key == key)
    requires Noticed(s, key, Generation(s.gens, key)) || SleepsFor(s, key, Generation(s.gens, key))
    ensures Noticed(Next(s, a), key, Generation(s.gens, key)) || SleepsFor(Next(s, a), key, Generation(s.gens, key))
  {
    var s' := Next(s, a);
    var gen := Generation(s.gens, key);
    if Noticed(s, key, gen) {
      var i: nat :| i < |s.sent| && s.sent[i].key == key && s.sent[i].gen == gen;
      assert s'.sent[i] == s.sent[i];
    } else {
      var c: Checker :| c in s.sleeping && c.key == key && c.gen == gen;
      if a.Wake? && a.c == c {
        assert s'.sent == s.sent + [Notice(key, gen, s.now)];
        assert s'.sent[|s.sent|] == Notice(key, gen, s.now);
      } else {
        assert c in s'.sleeping;
      }
    }
  }

  lemma {:induction false} Invariant(states: seq<State>, steps: seq<Step>, n: nat)
    requires IsRun(states, steps) && n < |states|
    ensures Inv(states[n])
  {
    if n > 0 {
      Invariant(states, steps, n - 1);
      EventsStep(states[n - 1], steps[n - 1]);
      CheckersStep(states[n - 1], steps[n - 1]);
      NoticesStep(states[n - 1], steps[n - 1]);
      OrderStep(states[n - 1], steps[n - 1]);
      CoverStep(states[n - 1], steps[n - 1]);
    }
  }

  // ---------------------------------------------------------------- what holds in every timed run

  /** Two notices of one key are at least 300 milliseconds, the window, apart. */
  lemma NoticesAreSpaced(states: seq<State>, steps: seq<Step>, n: nat, i: nat, j: nat)
    requires IsRun(states, steps) && n < |states|
    requires i < j < |states[n].sent| && states[n].sent[i].key == states[n].sent[j].key
    ensures states[n].sent[i].time + 300 <= states[n].sent[j].time
  {
    Invariant(states, steps, n);
    var s := states[n];
    var a, b := s.sent[i], s.sent[j];
    assert Happened(s, a.key, a.gen + 1) && Happened(s, a.key, b.gen);
  }

  /**
   A notice belongs to an event with no later event of its key before the check; so of two
   events of a key less than a window apart the earlier is never notified on its own.
   */
  lemma BurstsCollapse(states: seq<State>, steps: seq<Step>, n: nat, key: WatchKey, gen: nat)
    requires IsRun(states, steps) && n < |states|
    requires Happened(states[n], key, gen) && Happened(states[n], key, gen + 1)
    requires At(states[n], key, gen + 1) < At(states[n], key, gen) + 300
    ensures !Noticed(states[n], key, gen)
  {
    Invariant(states, steps, n);
  }

  /** Once the checkers of a key have run, every event of it has been followed by a notice a window later. */
  lemma EveryEventIsNoticed(states: seq<State>, steps: seq<Step>, n: nat, key: WatchKey, gen: nat) returns (i: nat)
    requires IsRun(states, steps) && n < |states|
    requires Happened(states[n], key, gen)
    requires forall c <- states[n].sleeping :: c.key != key
    ensures i < |states[n].sent| && states[n].sent[i].key == key
    ensures states[n].sent[i].gen == Generation(states[n].gens, key)
    ensures At(states[n], key, gen) + 300 <= states[n].sent[i].time
  {
    Invariant(states, steps, n);
    var s := states[n];
    var newest := Generation(s.gens, key);
    assert Noticed(s, key, newest);
    i :| i < |s.sent| && s.sent[i].key == key && s.sent[i].gen == newest;
    assert Happened(s, key, newest);
  }

  /** And 300 milliseconds are enough: an event with no other after it can be notified then. */
  lemma ALoneEventIsNoticed(key: WatchKey)
    ensures exists states: seq<State>, steps: seq<Step> ::
              && IsRun(states, steps) && |steps| == 3
              && steps[0] == Event(key) && steps[1] == Elapse(300) && states[3].sent == [Notice(key, 1, 300)]
  {
    var steps := [Event(key), Elapse(300), Wake(Checker(key, 1, 300))];
    var s1 := Next(INITIAL, steps[0]);
    var s2 := Next(s1, steps[1]);
    assert Checker(key, 1, 300) in s2.sleeping;
    var s3 := Next(s2, steps[2]);
    var states := [INITIAL, s1, s2, s3];
    assert IsRun(states, steps);
    assert states[3].sent == [Notice(key, 1, 300)];
  }
}
