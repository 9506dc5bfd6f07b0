/**
 Rebuilding a session's entry while turns are run (`run_turn`, `set_session_model`,
 `resume_session` and `create` in daemon/src/session_pool.rs).
 */
module Rebuild {
  /**
   A rebuild replaces the agent, and replacing one in the middle of a turn cuts that turn off. So
   a caller first checks: that the id is not in the map, that the receiver of a stale entry is in
   its slot, or that no turn is reported. A session with history has its old agent cancelled in a
   second section, so that the history can be read; the new entry is inserted, and what is there
   then cancelled, in a third. Neither of them looks again. This is the machine of `TurnSlot`,
   whose `Create` may only come from such a caller, with the agents that have been cancelled, by
   a rebuild or with an entry that is removed. The question is when a turn is cut off.
   */

  import opened Wrappers
  import opened TurnSlot

  /** A caller that may rebuild has the slot of a stale entry, is to rebuild, or has stopped the old agent. */
  datatype Check = Glanced(e: nat) | Cleared | Stopped

  /** `cancelled` are the entries whose agent has been cancelled. */
  datatype Pool = Pool(slot: State, checks: map<Task, Check>, cancelled: set<nat>)

  const EMPTY := Pool(INITIAL, map[], {})

  datatype Act =
    | Turn(a: Step)          // a step of `TurnSlot` other than `Create`
    | Miss(t: Task)          // the id is not in the map
    | Glance(t: Task)        // the live entry is on a stale binding: its slot is to be looked into
    | Probe(t: Task)         // the look into that slot
    | SetModel(t: Task)      // `session.setModel` finds no turn reported
    | Stop(t: Task)          // `stop_live_agent` in `create`, when there is history to load
    | Rebuild(t: Task)       // the insertion in `create`

  predicate Reports(s: State) {
    s.live.Some? && s.live.value < |s.entries| && s.entries[s.live.value].currentTurn.Some?
  }

  /** A caller of `run_turn` is through with rebuilding before its turn begins. */
  predicate Free(p: Pool, t: Task) {
    t !in p.checks && t !in p.slot.phase
  }

  predicate Can(p: Pool, a: Act) {
    match a
    case Turn(a) => !a.Create? && Enabled(p.slot, a) && (a.Arrive? ==> a.t !in p.checks)
    case Miss(t) => Free(p, t) && p.slot.live.None?
    case Glance(t) => Free(p, t) && p.slot.live.Some?
    case Probe(t) => t in p.checks && p.checks[t].Glanced?
    case SetModel(t) => Free(p, t) && p.slot.live.Some? && !Reports(p.slot)
    case Stop(t) => t in p.checks && p.checks[t].Cleared?
    case Rebuild(t) => t in p.checks && !p.checks[t].Glanced?
  }

  predicate Valid(p: Pool) {
    WellFormed(p.slot) && forall t :: t in p.checks && p.checks[t].Glanced? ==> p.checks[t].e < |p.slot.entries|
  }

  /** Every way of removing or replacing the live entry cancels its agent. */
  predicate Cancels(a: Act) {
    a.Stop? || a.Rebuild? || (a.Turn? && (a.a.Remove? || a.a.EngineGone?))
  }

  function CancelledAfter(p: Pool, a: Act): set<nat> {
    if Cancels(a) && p.slot.live.Some? then p.cancelled + {p.slot.live.value} else p.cancelled
  }

  function After(req: Task -> Request, p: Pool, a: Act): (p': Pool)
    requires Valid(p) && Can(p, a)
    ensures Valid(p')
  {
    var p := p.(cancelled := CancelledAfter(p, a));
    match a
    case Turn(a) => p.(slot := Next(req, p.slot, a))
    case Miss(t) => p.(checks := p.checks[t := Cleared])
    case Glance(t) => p.(checks := p.checks[t := Glanced(p.slot.live.value)])
    case Probe(t) =>
      if p.slot.entries[p.checks[t].e].eventRx
      then p.(checks := p.checks[t := Cleared])
      else p.(checks := p.checks - {t})
    case SetModel(t) => p.(checks := p.checks[t := Cleared])
    case Stop(t) => p.(checks := p.checks[t := Stopped])
    case Rebuild(t) => p.(slot := Next(req, p.slot, Create), checks := p.checks - {t})
  }

  ghost predicate IsHistory(req: Task -> Request, pools: seq<Pool>, acts: seq<Act>) {
    && |pools| == |acts| + 1
    && pools[0] == EMPTY
    && forall i {:trigger acts[i]} :: 0 <= i < |acts| ==>
         Valid(pools[i]) && Can(pools[i], acts[i]) && pools[i + 1] == After(req, pools[i], acts[i])
  }

  /** The receivers are in one place each, and the live entry is the newest. */
  ghost predicate Inv(p: Pool) {
    && Valid(p) && TokenInOnePlace(p.slot)
    && (p.slot.live.Some? ==> p.slot.live.value == |p.slot.entries| - 1)
  }

  lemma SlotStep(req: Task -> Request, p: Pool, a: Act)
    requires Inv(p) && Can(p, a)
    ensures Inv(After(req, p, a))
  {
    hide TokenInOnePlace;
    if a.Turn? {
      TokenStep(req, p.slot, a.a);
    } else if a.Rebuild? {
      TokenStep(req, p.slot, Create);
    }
  }

  lemma NothingIsInOnePlace()
    ensures Inv(EMPTY)
  {
  }

  lemma {:induction false} Invariant(req: Task -> Request, pools: seq<Pool>, acts: seq<Act>, n: nat)
    requires IsHistory(req, pools, acts) && n < |pools|
    ensures Inv(pools[n])
  {
    hide Inv;
    if n == 0 {
      NothingIsInOnePlace();
    } else {
      Invariant(req, pools, acts, n - 1);
      SlotStep(req, pools[n - 1], acts[n - 1]);
    }
  }

  // ---------------------------------------------------------------- who has a receiver

  /** Cancelling the live entry's agent now cuts off the caller that has its receiver. */
  ghost predicate Cuts(p: Pool) {
    p.slot.live.Some? && Held(p.slot, p.slot.live.value)
  }

  /** A look into the slot in the section that cancels would tell. */
  lemma CutsIffSlotIsEmpty(req: Task -> Request, pools: seq<Pool>, acts: seq<Act>, n: nat)
    requires IsHistory(req, pools, acts) && n < |pools|
    ensures pools[n].slot.live.Some? ==> pools[n].slot.live.value < |pools[n].slot.entries|
    ensures Cuts(pools[n])
       <==> pools[n].slot.live.Some? && !pools[n].slot.entries[pools[n].slot.live.value].eventRx
  {
    Invariant(req, pools, acts, n);
    var s := pools[n].slot;
    if s.live.Some? {
      assert TokenAt(s, s.live.value);
    }
  }

  /** The step takes the receiver of `e` out of its slot. */
  predicate Takes(p: Pool, a: Act, e: nat) {
    && a.Turn? && a.a.Take? && a.a.t in p.slot.phase && p.slot.phase[a.a.t] == Armed(e)
    && e < |p.slot.entries| && p.slot.entries[e].eventRx
  }

  /** The step puts the receiver of `e` back, or ends with the engine that fed it. */
  predicate GivesUp(p: Pool, a: Act, e: nat) {
    a.Turn? && (a.a.Finish? || a.a.EngineGone?) && At(p.slot, a.a.t, Running(e))
  }

  ghost predicate KeptSince(pools: seq<Pool>, acts: seq<Act>, m: nat, n: nat, e: nat)
    requires n <= |acts| && n <= |pools|
  {
    forall j {:trigger acts[j]} :: m <= j < n ==> !GivesUp(pools[j], acts[j], e)
  }

  /** In the steps from `m` up to `n` somebody took the receiver of `e` and has not given it up. */
  ghost predicate TakenSince(pools: seq<Pool>, acts: seq<Act>, m: nat, n: nat, e: nat)
    requires n <= |acts| && n <= |pools|
  {
    exists k: nat {:trigger Takes(pools[k], acts[k], e)} ::
      m <= k < n && Takes(pools[k], acts[k], e) && KeptSince(pools, acts, k + 1, n, e)
  }

  lemma SameHolders(s: State, s': State, e: nat)
    requires forall t :: HoldsNow(s, t, e) <==> HoldsNow(s', t, e)
    ensures Held(s, e) <==> Held(s', e)
  {
    if Held(s, e) {
      var t :| HoldsNow(s, t, e);
      assert HoldsNow(s', t, e);
    }
    if Held(s', e) {
      var t :| HoldsNow(s', t, e);
      assert HoldsNow(s, t, e);
    }
  }

  /** One step of `TurnSlot`, seen by the receiver of `e`. */
  lemma HeldTurn(req: Task -> Request, p: Pool, a: Act, e: nat)
    requires Inv(p) && Can(p, a) && a.Turn?
    ensures Held(After(req, p, a).slot, e) <==> Takes(p, a, e) || (Held(p.slot, e) && !GivesUp(p, a, e))
  {
    var s, s' := p.slot, Next(req, p.slot, a.a);
    if Takes(p, a, e) {
      assert HoldsNow(s', a.a.t, e);
    } else if GivesUp(p, a, e) {
      assert HoldsNow(s, a.a.t, e) && TokenAt(s, e);
      forall t ensures !HoldsNow(s', t, e) {
        assert t != a.a.t && HoldsNow(s', t, e) ==> HoldsNow(s, t, e);
      }
    } else {
      hide TokenInOnePlace;
      forall t ensures HoldsNow(s, t, e) <==> HoldsNow(s', t, e) {
      }
      SameHolders(s, s', e);
    }
  }

  lemma HeldStep(req: Task -> Request, p: Pool, a: Act, e: nat)
    requires Inv(p) && Can(p, a)
    ensures Held(After(req, p, a).slot, e) <==> Takes(p, a, e) || (Held(p.slot, e) && !GivesUp(p, a, e))
  {
    if a.Turn? {
      HeldTurn(req, p, a, e);
    } else {
      SameHolders(p.slot, After(req, p, a).slot, e);
    }
  }

  /** Who holds a receiver took it since, or held it before, and nobody has given it up. */
  lemma {:induction false} HeldIff(req: Task -> Request, pools: seq<Pool>, acts: seq<Act>, m: nat, n: nat, e: nat)
    requires IsHistory(req, pools, acts) && m <= n < |pools|
    ensures Held(pools[n].slot, e)
       <==> TakenSince(pools, acts, m, n, e) || (Held(pools[m].slot, e) && KeptSince(pools, acts, m, n, e))
  {
    hide Inv, Takes, GivesUp, Held;
    if m < n {
      HeldIff(req, pools, acts, m, n - 1, e);
      Invariant(req, pools, acts, n - 1);
      HeldStep(req, pools[n - 1], acts[n - 1], e);
      hide IsHistory;
      TakenStep(pools, acts, m, n, e);
    }
  }

  lemma TakenStep(pools: seq<Pool>, acts: seq<Act>, m: nat, n: nat, e: nat)
    requires m < n <= |acts| && |pools| == |acts| + 1
    ensures TakenSince(pools, acts, m, n, e)
       <==> || Takes(pools[n - 1], acts[n - 1], e)
            || (TakenSince(pools, acts, m, n - 1, e) && !GivesUp(pools[n - 1], acts[n - 1], e))
    ensures KeptSince(pools, acts, m, n, e)
       <==> KeptSince(pools, acts, m, n - 1, e) && !GivesUp(pools[n - 1], acts[n - 1], e)
  {
    hide Takes, GivesUp;
    if Takes(pools[n - 1], acts[n - 1], e) {
      assert KeptSince(pools, acts, n, n, e);
    } else if TakenSince(pools, acts, m, n - 1, e) && !GivesUp(pools[n - 1], acts[n - 1], e) {
      var k: nat :| m <= k < n - 1 && Takes(pools[k], acts[k], e) && KeptSince(pools, acts, k + 1, n - 1, e);
      assert KeptSince(pools, acts, k + 1, n, e);
    }
    if TakenSince(pools, acts, m, n, e) {
      var k: nat :| m <= k < n && Takes(pools[k], acts[k], e) && KeptSince(pools, acts, k + 1, n, e);
      if k < n - 1 {
        assert KeptSince(pools, acts, k + 1, n - 1, e) && !GivesUp(pools[n - 1], acts[n - 1], e);
      }
    }
  }

  // ---------------------------------------------------------------- from the check to the insertion

  /** `t` checks in step `m`, and from there up to state `n` has not gone back on it. */
  ghost predicate ChecksFrom(pools: seq<Pool>, acts: seq<Act>, m: nat, n: nat, t: Task)
    requires n <= |acts| && n < |pools|
  {
    && m < n && acts[m] in {Miss(t), Glance(t), SetModel(t)}
    && forall k {:trigger pools[k]} :: m < k <= n ==> t in pools[k].checks
  }

  lemma {:induction false} CheckOf(req: Task -> Request, pools: seq<Pool>, acts: seq<Act>, n: nat, t: Task)
    returns (m: nat)
    requires IsHistory(req, pools, acts) && n < |pools| && t in pools[n].checks
    ensures ChecksFrom(pools, acts, m, n, t)
  {
    assert pools[n] == After(req, pools[n - 1], acts[n - 1]);
    if t in pools[n - 1].checks {
      m := CheckOf(req, pools, acts, n - 1, t);
    } else {
      m := n - 1;
    }
  }

  /** Entries are added and never come back: the live one is the one of before or a newer one. */
  lemma {:induction false} LiveIsSameOrNew(req: Task -> Request, pools: seq<Pool>, acts: seq<Act>, m: nat, n: nat)
    requires IsHistory(req, pools, acts) && m <= n < |pools|
    ensures |pools[m].slot.entries| <= |pools[n].slot.entries|
    ensures pools[n].slot.live.Some? ==>
              pools[n].slot.live == pools[m].slot.live || pools[n].slot.live.value >= |pools[m].slot.entries|
  {
    if m < n {
      LiveIsSameOrNew(req, pools, acts, m, n - 1);
      assert pools[n] == After(req, pools[n - 1], acts[n - 1]);
    }
  }

  /** A caller that glanced at the slot of `e` and is to rebuild has found the receiver there on the way. */
  lemma {:induction false} ProbedOnTheWay(
      req: Task -> Request, pools: seq<Pool>, acts: seq<Act>, m: nat, n: nat, t: Task, e: nat)
    returns (k: nat)
    requires IsHistory(req, pools, acts) && m < n < |pools| && t in pools[m].checks && pools[m].checks[t] == Glanced(e)
    requires forall k {:trigger pools[k]} :: m < k <= n ==> t in pools[k].checks
    requires !pools[n].checks[t].Glanced?
    ensures m <= k < n && e < |pools[k].slot.entries| && pools[k].slot.entries[e].eventRx
    decreases n - m
  {
    assert pools[m + 1] == After(req, pools[m], acts[m]) && t in pools[m + 1].checks;
    if acts[m] == Probe(t) {
      k := m;
    } else {
      k := ProbedOnTheWay(req, pools, acts, m + 1, n, t, e);
    }
  }

  /** The two sections of a rebuild that cancel the live entry's agent. */
  predicate ForRebuild(a: Act) {
    a.Stop? || a.Rebuild?
  }

  /** The section of the rebuild in step `n` comes too late for the check in step `m`. */
  ghost predicate Outrun(pools: seq<Pool>, acts: seq<Act>, m: nat, n: nat)
    requires m < n < |acts| && |pools| == |acts| + 1
  {
    && pools[n].slot.live.Some?
    && var e := pools[n].slot.live.value;
       || TakenSince(pools, acts, m, n, e)
       || (acts[m].SetModel? && pools[m].slot.live == Some(e) && !Reports(pools[m].slot)
           && Held(pools[m].slot, e) && KeptSince(pools, acts, m, n, e))
  }

  /**
   Nobody rebuilds without a check: it found no entry, or a stale one whose receiver was then in its
   slot, or one without a reported turn.
   */
  lemma RebuildFollowsACheck(req: Task -> Request, pools: seq<Pool>, acts: seq<Act>, n: nat, t: Task)
    returns (m: nat, k: nat)
    requires IsHistory(req, pools, acts) && n < |acts| && ForRebuild(acts[n]) && acts[n].t == t
    ensures ChecksFrom(pools, acts, m, n, t) && m <= k < n
    ensures acts[m] == Miss(t) ==> pools[m].slot.live.None?
    ensures acts[m] == Glance(t) ==>
              && pools[m].slot.live.Some? && pools[m].slot.live.value < |pools[k].slot.entries|
              && pools[k].slot.entries[pools[m].slot.live.value].eventRx
    ensures acts[m] == SetModel(t) ==>
              && pools[m].slot.live.Some? && pools[m].slot.live.value < |pools[m].slot.entries|
              && pools[m].slot.entries[pools[m].slot.live.value].currentTurn.None?
  {
    assert Can(pools[n], acts[n]);
    m := CheckOf(req, pools, acts, n, t);
    k := m;
    assert Valid(pools[m]) && Can(pools[m], acts[m]) && pools[m + 1] == After(req, pools[m], acts[m]);
    if acts[m] == Glance(t) {
      k := ProbedOnTheWay(req, pools, acts, m + 1, n, t, pools[m].slot.live.value);
    }
  }

  /** Who has stopped the old agent inserts the new entry, and stops nothing more before that. */
  lemma {:induction false} StoppedUntilInserted(
      req: Task -> Request, pools: seq<Pool>, acts: seq<Act>, m: nat, n: nat, t: Task)
    requires IsHistory(req, pools, acts) && m < n < |pools| && acts[m] == Stop(t)
    requires forall j {:trigger acts[j]} :: m < j < n ==> acts[j] != Rebuild(t)
    ensures t in pools[n].checks && pools[n].checks[t].Stopped?
    ensures Can(pools[n], Rebuild(t)) && !Can(pools[n], Stop(t))
  {
    if m < n - 1 {
      StoppedUntilInserted(req, pools, acts, m, n - 1, t);
    }
    assert Can(pools[n - 1], acts[n - 1]) && pools[n] == After(req, pools[n - 1], acts[n - 1]);
  }

  /** Nobody else has. */
  lemma {:induction false} StoppedBefore(req: Task -> Request, pools: seq<Pool>, acts: seq<Act>, n: nat, t: Task)
    returns (m: nat)
    requires IsHistory(req, pools, acts) && n < |pools| && t in pools[n].checks && pools[n].checks[t].Stopped?
    ensures m < n && acts[m] == Stop(t)
    ensures forall j {:trigger acts[j]} :: m < j < n ==> acts[j] != Rebuild(t)
  {
    assert pools[n] == After(req, pools[n - 1], acts[n - 1]);
    if acts[n - 1] == Stop(t) {
      m := n - 1;
    } else {
      m := StoppedBefore(req, pools, acts, n - 1, t);
    }
  }

  lemma HolderIsKnown(p: Pool, e: nat)
    requires Valid(p) && Held(p.slot, e)
    ensures e < |p.slot.entries|
  {
  }

  /** Unless it only asked for a reported turn, the check was made when nobody had the receiver in question. */
  lemma FreeAtTheCheck(req: Task -> Request, pools: seq<Pool>, acts: seq<Act>, m: nat, n: nat, t: Task)
    returns (k: nat)
    requires IsHistory(req, pools, acts) && m < n < |acts| && ForRebuild(acts[n]) && acts[n].t == t
    requires ChecksFrom(pools, acts, m, n, t) && !acts[m].SetModel? && pools[n].slot.live.Some?
    ensures m <= k <= n && !Held(pools[k].slot, pools[n].slot.live.value)
  {
    var e := pools[n].slot.live.value;
    LiveIsSameOrNew(req, pools, acts, m, n);
    assert pools[m + 1] == After(req, pools[m], acts[m]);
    assert Can(pools[m], acts[m]) && Can(pools[n], acts[n]);
    if acts[m].Glance? && pools[m].slot.live == Some(e) {
      k := ProbedOnTheWay(req, pools, acts, m + 1, n, t, e);
      Invariant(req, pools, acts, k);
      assert TokenAt(pools[k].slot, e);
    } else {
      k := m;
    }
  }

  /**
   A section of a rebuild cuts off a turn exactly when somebody took the receiver after the check
   and has not given it up, or, where the check was that no turn is reported, had it all along.
   */
  lemma RebuildCutsIff(req: Task -> Request, pools: seq<Pool>, acts: seq<Act>, m: nat, n: nat, t: Task)
    requires IsHistory(req, pools, acts) && m < n < |acts| && ForRebuild(acts[n]) && acts[n].t == t
    requires ChecksFrom(pools, acts, m, n, t)
    ensures Cuts(pools[n]) <==> Outrun(pools, acts, m, n)
  {
    hide Held, Takes;
    if pools[n].slot.live.Some? {
      var e := pools[n].slot.live.value;
      HeldIff(req, pools, acts, m, n, e);
      if acts[m].SetModel? {
        LiveIsSameOrNew(req, pools, acts, m, n);
        assert Valid(pools[m]) && Can(pools[m], acts[m]);
        if Held(pools[m].slot, e) {
          HolderIsKnown(pools[m], e);
        }
      } else {
        var k := FreeAtTheCheck(req, pools, acts, m, n, t);
        HeldIff(req, pools, acts, k, n, e);
        hide IsHistory;
        if TakenSince(pools, acts, k, n, e) {
          var j: nat :| k <= j < n && Takes(pools[j], acts[j], e) && KeptSince(pools, acts, j + 1, n, e);
        }
      }
    }
  }

  /** A whole rebuild, checked in `m`, with the old agent stopped in `s` and the new entry inserted in `n`. */
  lemma StoppedRebuildCutsIff(req: Task -> Request, pools: seq<Pool>, acts: seq<Act>, m: nat, s: nat, n: nat, t: Task)
    requires IsHistory(req, pools, acts) && m < s < n < |acts| && acts[s] == Stop(t) && acts[n] == Rebuild(t)
    requires ChecksFrom(pools, acts, m, n, t)
    ensures Cuts(pools[s]) || Cuts(pools[n])
       <==> || Outrun(pools, acts, m, s)
            || (pools[n].slot.live.Some? && Held(pools[n].slot, pools[n].slot.live.value))
  {
    RebuildCutsIff(req, pools, acts, m, s, t);
  }

  // ---------------------------------------------------------------- when a turn is cut off

  /** Some caller has the receiver of an entry whose agent is cancelled: it will not see the end of its turn. */
  ghost predicate CutOff(p: Pool) {
    exists e :: e in p.cancelled && Held(p.slot, e)
  }

  /** A caller with the handles of an entry takes its receiver after the agent was cancelled. */
  predicate TakesCancelled(p: Pool, a: Act) {
    && a.Turn? && a.a.Take? && a.a.t in p.slot.phase && p.slot.phase[a.a.t].Armed?
    && p.slot.phase[a.a.t].e in p.cancelled && Takes(p, a, p.slot.phase[a.a.t].e)
  }

  /** The live entry is removed, by somebody other than the turn that runs on it, while its slot is empty. */
  predicate RemovesTaken(p: Pool, a: Act) {
    && a.Turn? && (a.a.Remove? || a.a.EngineGone?)
    && p.slot.live.Some? && p.slot.live.value < |p.slot.entries| && !p.slot.entries[p.slot.live.value].eventRx
    && !(a.a.EngineGone? && At(p.slot, a.a.t, Running(p.slot.live.value)))
  }

  lemma CancelledBy(req: Task -> Request, p: Pool, a: Act, e: nat)
    requires Inv(p) && Can(p, a) && e in After(req, p, a).cancelled && e !in p.cancelled
    ensures Cancels(a) && p.slot.live == Some(e)
    ensures Held(After(req, p, a).slot, e) <==> Cuts(p) && !GivesUp(p, a, e)
  {
    hide Held;
    HeldStep(req, p, a, e);
  }

  lemma CutsIffEmpty(p: Pool)
    requires Inv(p)
    ensures Cuts(p) <==> p.slot.live.Some? && !p.slot.entries[p.slot.live.value].eventRx
  {
    if p.slot.live.Some? {
      assert TokenAt(p.slot, p.slot.live.value);
    }
  }

  /** What a step adds to the turns that are cut off. */
  lemma CutOffStep(req: Task -> Request, p: Pool, a: Act)
    requires Inv(p) && Can(p, a) && !CutOff(p)
    ensures CutOff(After(req, p, a)) <==> TakesCancelled(p, a) || RemovesTaken(p, a) || (ForRebuild(a) && Cuts(p))
  {
    var p' := After(req, p, a);
    CutsIffEmpty(p);
    hide Inv, Held, After, Can;
    if CutOff(p') {
      var e :| e in p'.cancelled && Held(p'.slot, e);
      HeldStep(req, p, a, e);
      if e !in p.cancelled {
        CancelledBy(req, p, a, e);
      }
    }
    if TakesCancelled(p, a) {
      HeldStep(req, p, a, p.slot.phase[a.a.t].e);
      CancelledStays(req, p, a, p.slot.phase[a.a.t].e);
    }
    if RemovesTaken(p, a) || (ForRebuild(a) && Cuts(p)) {
      HeldStep(req, p, a, p.slot.live.value);
      LiveIsCancelled(req, p, a);
    }
  }

  lemma CancelledStays(req: Task -> Request, p: Pool, a: Act, e: nat)
    requires Valid(p) && Can(p, a) && e in p.cancelled
    ensures e in After(req, p, a).cancelled
  {
  }

  lemma LiveIsCancelled(req: Task -> Request, p: Pool, a: Act)
    requires Valid(p) && Can(p, a) && Cancels(a) && p.slot.live.Some?
    ensures p.slot.live.value in After(req, p, a).cancelled
  {
  }

  /** The check of every rebuild still held in both of its sections. */
  ghost predicate NoneOutrun(pools: seq<Pool>, acts: seq<Act>)
    requires |pools| == |acts| + 1
  {
    forall m: nat, n: nat {:trigger Outrun(pools, acts, m, n)} ::
      m < n < |acts| && ForRebuild(acts[n]) && ChecksFrom(pools, acts, m, n, acts[n].t) ==> !Outrun(pools, acts, m, n)
  }

  ghost predicate NoneCuts(pools: seq<Pool>, acts: seq<Act>)
    requires |pools| == |acts| + 1
  {
    forall n {:trigger acts[n]} :: 0 <= n < |acts| && ForRebuild(acts[n]) ==> !Cuts(pools[n])
  }

  /** In both sections of every rebuild nobody has the receiver, exactly if no rebuild is outrun since its check. */
  lemma NoRebuildCutsIff(req: Task -> Request, pools: seq<Pool>, acts: seq<Act>)
    requires IsHistory(req, pools, acts)
    ensures NoneCuts(pools, acts) <==> NoneOutrun(pools, acts)
  {
    hide Cuts, Outrun, ChecksFrom;
    forall m: nat, n: nat | m < n < |acts| && ForRebuild(acts[n]) && ChecksFrom(pools, acts, m, n, acts[n].t)
      ensures Cuts(pools[n]) <==> Outrun(pools, acts, m, n)
    {
      RebuildCutsIff(req, pools, acts, m, n, acts[n].t);
    }
    forall n: nat | n < |acts| && ForRebuild(acts[n])
      ensures exists m: nat :: m < n && ChecksFrom(pools, acts, m, n, acts[n].t)
    {
      assert Can(pools[n], acts[n]);
      var m := CheckOf(req, pools, acts, n, acts[n].t);
      ChecksBefore(pools, acts, m, n, acts[n].t);
    }
  }

  /** A turn is cut off by this step, whether or not another one was before. */
  ghost predicate CutsOff(p: Pool, a: Act) {
    TakesCancelled(p, a) || RemovesTaken(p, a) || (ForRebuild(a) && Cuts(p))
  }

  lemma {:induction false} NoneCutUpTo(req: Task -> Request, pools: seq<Pool>, acts: seq<Act>, n: nat)
    requires IsHistory(req, pools, acts) && n < |pools|
    requires forall k :: 0 <= k < n ==> !CutsOff(pools[k], acts[k])
    ensures !CutOff(pools[n])
  {
    if n > 0 {
      NoneCutUpTo(req, pools, acts, n - 1);
      Invariant(req, pools, acts, n - 1);
      CutOffStep(req, pools[n - 1], acts[n - 1]);
    }
  }

  /**
   Over whole runs: no turn is ever cut off if and only if no rebuild is outrun since its check,
   no entry is removed while its receiver is out, but by the turn that runs on it, and nobody
   takes the receiver of an entry whose agent is cancelled.
   */
  lemma NoTurnIsCutIff(req: Task -> Request, pools: seq<Pool>, acts: seq<Act>)
    requires IsHistory(req, pools, acts)
    ensures (forall n :: 0 <= n < |pools| ==> !CutOff(pools[n]))
       <==> && NoneOutrun(pools, acts)
            && (forall n :: 0 <= n < |acts| ==> !RemovesTaken(pools[n], acts[n]))
            && (forall n :: 0 <= n < |acts| ==> !TakesCancelled(pools[n], acts[n]))
  {
    hide CutOff, NoneOutrun, RemovesTaken, TakesCancelled, Cuts;
    NoRebuildCutsIff(req, pools, acts);
    if forall n :: 0 <= n < |pools| ==> !CutOff(pools[n]) {
      forall n | 0 <= n < |acts| ensures !CutsOff(pools[n], acts[n]) {
        Invariant(req, pools, acts, n);
        assert !CutOff(pools[n]) && !CutOff(pools[n + 1]) && Can(pools[n], acts[n]);
        CutOffStep(req, pools[n], acts[n]);
      }
    }
    if forall n :: 0 <= n < |acts| ==> !CutsOff(pools[n], acts[n]) {
      forall n | 0 <= n < |pools| ensures !CutOff(pools[n]) {
        NoneCutUpTo(req, pools, acts, n);
      }
    }
  }

  /**
   A caller whose engine is gone removes whatever entry the id has by then. It takes another
   caller's turn down with it exactly when that entry is newer than its own and its slot empty.
   */
  lemma EngineEndTakesAnotherTurnIff(req: Task -> Request, pools: seq<Pool>, acts: seq<Act>, n: nat, t: Task)
    requires IsHistory(req, pools, acts) && n < |acts| && acts[n] == Turn(EngineGone(t))
    ensures t in pools[n].slot.phase && pools[n].slot.phase[t].Running?
    ensures pools[n].slot.live.Some? ==> pools[n].slot.live.value < |pools[n].slot.entries|
    ensures var s := pools[n].slot;
            (exists u: Task :: u != t && s.live.Some? && HoldsNow(s, u, s.live.value))
            <==> s.live.Some? && s.live.value > s.phase[t].e && !s.entries[s.live.value].eventRx
    ensures pools[n].slot.live.Some? ==> pools[n].slot.live.value in pools[n + 1].cancelled
  {
    Invariant(req, pools, acts, n);
    CutsIffEmpty(pools[n]);
    var s := pools[n].slot;
    assert Can(pools[n], acts[n]);
    if s.live.Some? {
      LiveIsCancelledBy(req, pools, acts, n);
    }
    if s.live.Some? {
      assert TokenAt(s, s.live.value) && HoldsNow(s, t, s.phase[t].e);
    }
  }

  lemma LiveIsCancelledBy(req: Task -> Request, pools: seq<Pool>, acts: seq<Act>, n: nat)
    requires IsHistory(req, pools, acts) && n < |acts| && Cancels(acts[n]) && pools[n].slot.live.Some?
    ensures pools[n].slot.live.value in pools[n + 1].cancelled
  {
    LiveIsCancelled(req, pools[n], acts[n]);
  }

  lemma ChecksBefore(pools: seq<Pool>, acts: seq<Act>, m: nat, n: nat, t: Task)
    requires n <= |acts| && n < |pools| && ChecksFrom(pools, acts, m, n, t)
    ensures m < n
  {
  }

  // ---------------------------------------------------------------- runs in which a turn is cut off

  lemma Extend(req: Task -> Request, pools: seq<Pool>, acts: seq<Act>, a: Act)
    returns (pools': seq<Pool>, acts': seq<Act>)
    requires IsHistory(req, pools, acts) && |pools| == |acts| + 1
    requires Valid(pools[|acts|]) && Can(pools[|acts|], a)
    ensures IsHistory(req, pools', acts') && |pools'| == |acts'| + 1 && acts' == acts + [a]
    ensures pools'[|acts'|] == After(req, pools[|acts|], a)
    ensures pools'[|acts|] == pools[|acts|]
    ensures NoneCuts(pools, acts) && !(ForRebuild(a) && Cuts(pools[|acts|])) ==> NoneCuts(pools', acts')
  {
    hide Cuts, After, Can, Valid;
    pools', acts' := pools + [After(req, pools[|acts|], a)], acts + [a];
    forall i | 0 <= i < |acts'|
      ensures Valid(pools'[i]) && Can(pools'[i], acts'[i]) && pools'[i + 1] == After(req, pools'[i], acts'[i])
    {
      if i < |acts| {
        assert acts'[i] == acts[i] && pools'[i] == pools[i] && pools'[i + 1] == pools[i + 1];
      }
    }
  }

  /** A step of a turn that removes no entry. */
  lemma ExtendTurn(req: Task -> Request, pools: seq<Pool>, acts: seq<Act>, a: Step)
    returns (pools': seq<Pool>, acts': seq<Act>)
    requires IsHistory(req, pools, acts) && |pools| == |acts| + 1
    requires Valid(pools[|acts|]) && Enabled(pools[|acts|].slot, a)
    requires !a.Create? && !a.Remove? && !a.EngineGone? && !(a.Arrive? && a.t in pools[|acts|].checks)
    ensures IsHistory(req, pools', acts') && |pools'| == |acts'| + 1 && acts' == acts + [Turn(a)]
    ensures Valid(pools'[|acts'|])
    ensures pools'[|acts'|] == pools[|acts|].(slot := Next(req, pools[|acts|].slot, a))
    ensures NoneCuts(pools, acts) ==> NoneCuts(pools', acts')
  {
    hide IsHistory, Next, Enabled, NoneCuts, Cuts;
    pools', acts' := Extend(req, pools, acts, Turn(a));
  }

  /** The first entry, created by `t`. */
  lemma Begin(req: Task -> Request, t: Task) returns (pools: seq<Pool>, acts: seq<Act>)
    ensures IsHistory(req, pools, acts) && |pools| == |acts| + 1 && acts == [Miss(t), Rebuild(t)]
    ensures pools[2] == Pool(State([NEW_ENTRY], Some(0), {}, map[], {}, []), map[], {})
    ensures NoneCuts(pools, acts)
  {
    pools, acts := [EMPTY], [];
    assert IsHistory(req, pools, acts) && NoneCuts(pools, acts);
    hide IsHistory, NoneCuts;
    pools, acts := Extend(req, pools, acts, Miss(t));
    pools, acts := Extend(req, pools, acts, Rebuild(t));
    assert pools[2].checks == map[];
  }

  /** A caller comes and takes the receiver of the live entry. */
  lemma Enter(req: Task -> Request, pools: seq<Pool>, acts: seq<Act>, t: Task, e: nat)
    returns (pools': seq<Pool>, acts': seq<Act>)
    requires IsHistory(req, pools, acts) && |pools| == |acts| + 1
    requires var p := pools[|acts|];
             Valid(p) && Free(p, t) && p.slot.live == Some(e) && p.slot.entries[e].eventRx
    ensures IsHistory(req, pools', acts') && |pools'| == |acts'| + 1
    ensures acts' == acts + [Turn(Arrive(t)), Turn(Look(t)), Turn(Arm(t)), Turn(Take(t))]
    ensures Valid(pools'[|acts'|])
    ensures var p, p' := pools[|acts|], pools'[|acts'|];
            && p'.slot.phase == p.slot.phase[t := Took(e)] && p'.slot.live == Some(e) && p'.checks == p.checks
            && p'.cancelled == p.cancelled && |p'.slot.entries| == |p.slot.entries|
            && p'.slot.entries[e].currentTurn == p.slot.entries[e].currentTurn
    ensures NoneCuts(pools, acts) ==> NoneCuts(pools', acts')
  {
    hide IsHistory, NoneCuts, After, Can;
    pools', acts' := ExtendTurn(req, pools, acts, Arrive(t));
    pools', acts' := ExtendTurn(req, pools', acts', Look(t));
    pools', acts' := ExtendTurn(req, pools', acts', Arm(t));
    pools', acts' := ExtendTurn(req, pools', acts', Take(t));
  }

  /** And is reported and sends its message. */
  lemma Run(req: Task -> Request, pools: seq<Pool>, acts: seq<Act>, t: Task, e: nat)
    returns (pools': seq<Pool>, acts': seq<Act>)
    requires IsHistory(req, pools, acts) && |pools| == |acts| + 1
    requires var p := pools[|acts|];
             Valid(p) && p.slot.live == Some(e) && At(p.slot, t, Took(e))
    ensures IsHistory(req, pools', acts') && |pools'| == |acts'| + 1
    ensures acts' == acts + [Turn(Announce(t)), Turn(Send(t))]
    ensures Valid(pools'[|acts'|])
    ensures var p, p' := pools[|acts|], pools'[|acts'|];
            && p'.slot.phase == p.slot.phase[t := Running(e)] && p'.slot.live == Some(e) && p'.checks == p.checks
            && p'.cancelled == p.cancelled && |p'.slot.entries| == |p.slot.entries|
  {
    hide IsHistory, NoneCuts, After, Can;
    pools', acts' := ExtendTurn(req, pools, acts, Announce(t));
    pools', acts' := ExtendTurn(req, pools', acts', Send(t));
  }

  /** The last step of the run cancels the agent of the live entry, on which a turn is running. */
  ghost predicate EndsInACut(req: Task -> Request, pools: seq<Pool>, acts: seq<Act>) {
    && IsHistory(req, pools, acts) && acts != [] && ForRebuild(acts[|acts| - 1])
    && pools[|acts| - 1].slot.live.Some?
    && AnyRuns(pools[|acts| - 1].slot, pools[|acts| - 1].slot.live.value)
  }

  /** One caller is cleared to rebuild the first entry. */
  lemma FoundIdle(req: Task -> Request) returns (pools: seq<Pool>, acts: seq<Act>)
    ensures IsHistory(req, pools, acts) && |pools| == |acts| + 1 && Valid(pools[|acts|])
    ensures acts == [Miss(2), Rebuild(2), Glance(1), Probe(1)]
    ensures var p := pools[|acts|];
            && p.slot == State([NEW_ENTRY], Some(0), {}, map[], {}, [])
            && p.checks == map[1 := Cleared] && p.cancelled == {}
    ensures NoneCuts(pools, acts)
  {
    hide IsHistory, NoneCuts, Cuts;
    pools, acts := Begin(req, 2);
    pools, acts := Extend(req, pools, acts, Glance(1));
    pools, acts := Extend(req, pools, acts, Probe(1));
  }

  /** Two callers find the same entry stale and idle, and the first rebuilds. */
  lemma TwoFindItIdle(req: Task -> Request) returns (pools: seq<Pool>, acts: seq<Act>)
    ensures IsHistory(req, pools, acts) && |pools| == |acts| + 1 && Valid(pools[|acts|])
    ensures acts == [Miss(2), Rebuild(2), Glance(1), Probe(1), Glance(0), Probe(0), Rebuild(0)]
    ensures var p := pools[|acts|];
            && p.slot.live == Some(1) && p.slot.entries[1].eventRx && p.slot.phase == map[]
            && 0 !in p.checks && 1 in p.checks && p.checks[1] == Cleared
  {
    hide IsHistory, NoneCuts;
    pools, acts := FoundIdle(req);
    pools, acts := Extend(req, pools, acts, Glance(0));
    pools, acts := Extend(req, pools, acts, Probe(0));
    pools, acts := Extend(req, pools, acts, Rebuild(0));
  }

  /** Two callers find the stale entry idle; the second rebuilds over the first one's turn. */
  lemma TheSecondRebuildCutsATurn(req: Task -> Request)
    ensures exists pools: seq<Pool>, acts: seq<Act> ::
              EndsInACut(req, pools, acts) && forall a <- acts :: !a.SetModel?
  {
    hide IsHistory, NoneCuts;
    var pools, acts := TwoFindItIdle(req);
    pools, acts := Enter(req, pools, acts, 0, 1);
    pools, acts := Run(req, pools, acts, 0, 1);
    assert RunsNow(pools[|acts|].slot, 0, 1);
    pools, acts := Extend(req, pools, acts, Rebuild(1));
    assert EndsInACut(req, pools, acts);
  }

  /** A change of provider is asked for while a caller has the receiver and is not yet reported. */
  lemma AskedBeforeTheReport(req: Task -> Request) returns (pools: seq<Pool>, acts: seq<Act>)
    ensures IsHistory(req, pools, acts) && |pools| == |acts| + 1 && Valid(pools[|acts|])
    ensures forall a <- acts :: !a.Probe?
    ensures var p := pools[|acts|];
            && p.slot.live == Some(0) && At(p.slot, 0, Took(0)) && p.slot.phase.Keys == {0}
            && |p.slot.entries| == 1 && p.checks == map[1 := Cleared]
  {
    hide IsHistory, NoneCuts;
    pools, acts := Begin(req, 2);
    pools, acts := Enter(req, pools, acts, 0, 0);
    pools, acts := Extend(req, pools, acts, SetModel(1));
  }

  /** A change of provider finds no turn reported between the taking of the receiver and the report. */
  lemma AChangeOfProviderCutsATurn(req: Task -> Request)
    ensures exists pools: seq<Pool>, acts: seq<Act> ::
              EndsInACut(req, pools, acts) && forall a <- acts :: !a.Probe?
  {
    hide IsHistory, NoneCuts;
    var pools, acts := AskedBeforeTheReport(req);
    pools, acts := Run(req, pools, acts, 0, 0);
    assert RunsNow(pools[|acts|].slot, 0, 0);
    pools, acts := Extend(req, pools, acts, Rebuild(1));
    assert EndsInACut(req, pools, acts);
  }

  /** The old agent is stopped under a turn that began after the check, by the only rebuild there is. */
  lemma AStopCutsATurn(req: Task -> Request)
    ensures exists pools: seq<Pool>, acts: seq<Act> ::
              EndsInACut(req, pools, acts) && acts[|acts| - 1].Stop? && forall a <- acts :: !a.SetModel?
  {
    hide IsHistory, NoneCuts;
    var pools, acts := FoundIdle(req);
    pools, acts := Enter(req, pools, acts, 0, 0);
    pools, acts := Run(req, pools, acts, 0, 0);
    assert RunsNow(pools[|acts|].slot, 0, 0);
    pools, acts := Extend(req, pools, acts, Stop(1));
    assert EndsInACut(req, pools, acts);
  }

  /** The receiver was in its slot when the agent was stopped; a caller takes it before the new entry is there. */
  lemma ATurnBeginsOnAStoppedAgent(req: Task -> Request)
    ensures exists pools: seq<Pool>, acts: seq<Act> ::
              && IsHistory(req, pools, acts) && |pools| == |acts| + 1 && CutOff(pools[|acts|])
              && NoneOutrun(pools, acts)
  {
    hide IsHistory, NoneOutrun, NoneCuts;
    var pools, acts := FoundIdle(req);
    assert forall t :: !HoldsNow(pools[|acts|].slot, t, 0);
    pools, acts := Extend(req, pools, acts, Stop(1));
    pools, acts := Enter(req, pools, acts, 0, 0);
    assert HoldsNow(pools[|acts|].slot, 0, 0);
    NoRebuildCutsIff(req, pools, acts);
  }

  /** The last step is an engine's end that removes a newer entry, on which another caller's turn runs. */
  ghost predicate EndsAnotherTurn(req: Task -> Request, pools: seq<Pool>, acts: seq<Act>, t: Task, u: Task, e: nat) {
    && IsHistory(req, pools, acts) && acts != [] && acts[|acts| - 1] == Turn(EngineGone(t)) && u != t
    && pools[|acts| - 1].slot.live == Some(e) && RunsNow(pools[|acts| - 1].slot, u, e)
    && pools[|acts|].slot.live == None && e in pools[|acts|].cancelled
  }

  /** After a rebuild the caller that was cut off ends the turn that runs on the new entry. */
  lemma AnOldEngineEndsANewTurn(req: Task -> Request)
    ensures exists pools: seq<Pool>, acts: seq<Act>, t: Task, u: Task, e: nat ::
              EndsAnotherTurn(req, pools, acts, t, u, e)
  {
    hide IsHistory, NoneCuts;
    var pools, acts := RebuiltUnderATurn(req);
    pools, acts := Enter(req, pools, acts, 3, 1);
    pools, acts := Run(req, pools, acts, 3, 1);
    assert RunsNow(pools[|acts|].slot, 3, 1) && At(pools[|acts|].slot, 0, Running(0));
    pools, acts := Extend(req, pools, acts, Turn(EngineGone(0)));
    assert EndsAnotherTurn(req, pools, acts, 0, 3, 1);
  }

  lemma RebuiltUnderATurn(req: Task -> Request) returns (pools: seq<Pool>, acts: seq<Act>)
    ensures IsHistory(req, pools, acts) && |pools| == |acts| + 1 && Valid(pools[|acts|])
    ensures var p := pools[|acts|];
            && p.slot.live == Some(1) && p.slot.entries[1].eventRx && p.slot.phase.Keys == {0}
            && p.slot.phase[0] == Running(0) && 3 !in p.checks
  {
    hide IsHistory, NoneCuts;
    pools, acts := AskedBeforeTheReport(req);
    pools, acts := Run(req, pools, acts, 0, 0);
    pools, acts := Extend(req, pools, acts, Rebuild(1));
  }
}
