/**
 What becomes of a caller of `run_turn` (daemon/src/session_pool.rs): over every run of `TurnSlot`,
 from the caller's side.
 */
module Callers {
  /**
   A caller says what is to happen when the session is busy: refuse, queue, or steer the running
   turn. Whatever the interleaving, its message is sent as a turn, handed to the running turn,
   refused, or finds no session, and never two of these.
   */

  import opened Wrappers
  import opened TurnSlot

  // ---------------------------------------------------------------- what has happened to a caller

  /** The message of `t` went out as a turn of its own. */
  ghost predicate SentBy(s: State, t: Task) {
    exists i {:trigger s.log[i]} :: 0 <= i < |s.log| && s.log[i].Sent? && s.log[i].sender == t
  }

  /** The step looks the session up for `t` and finds none. */
  predicate FindsNone(s: State, a: Step, t: Task) {
    a == Look(t) && s.live.None?
  }

  /** The step finds the slot empty. */
  predicate FindsEmpty(s: State, a: Step, t: Task) {
    && a == Take(t) && t in s.phase && s.phase[t].Armed? && s.phase[t].e < |s.entries|
    && !s.entries[s.phase[t].e].eventRx
  }

  ghost predicate Missed(states: seq<State>, steps: seq<Step>, n: nat, t: Task)
    requires n <= |steps| && n <= |states|
  {
    exists k: nat {:trigger steps[k]} :: k < n && FindsNone(states[k], steps[k], t)
  }

  ghost predicate TriedInVain(states: seq<State>, steps: seq<Step>, n: nat, t: Task)
    requires n <= |steps| && n <= |states|
  {
    exists k: nat {:trigger steps[k]} :: k < n && FindsEmpty(states[k], steps[k], t)
  }

  /** The running turn has accepted the message of `t`. */
  ghost predicate Steered(steps: seq<Step>, n: nat, t: Task)
    requires n <= |steps|
  {
    exists k: nat {:trigger steps[k]} :: k < n && steps[k] == SteerAnswer(t, true)
  }

  lemma OneMoreStep(states: seq<State>, steps: seq<Step>, n: nat, t: Task)
    requires n < |steps| && n < |states|
    ensures Missed(states, steps, n + 1, t) <==> Missed(states, steps, n, t) || FindsNone(states[n], steps[n], t)
    ensures TriedInVain(states, steps, n + 1, t)
       <==> TriedInVain(states, steps, n, t) || FindsEmpty(states[n], steps[n], t)
    ensures Steered(steps, n + 1, t) <==> Steered(steps, n, t) || steps[n] == SteerAnswer(t, true)
  {
    hide FindsNone, FindsEmpty;
  }

  lemma SentOneMore(req: Task -> Request, s: State, a: Step, t: Task)
    requires WellFormed(s) && Enabled(s, a)
    ensures SentBy(Next(req, s, a), t) <==> SentBy(s, t) || a == Send(t)
  {
    var s' := Next(req, s, a);
    if SentBy(s, t) {
      var i :| 0 <= i < |s.log| && s.log[i].Sent? && s.log[i].sender == t;
      assert s'.log[i] == s.log[i];
    }
    if a == Send(t) {
      assert s'.log[|s.log|].Sent?;
    }
  }

  // ---------------------------------------------------------------- how a call stands

  /**
   A call as the caller sees it: not there, on its way, sent, handed over, refused, or without a
   session. `missed`, `vain` and `steered` are the three facts above.
   */
  predicate Stands(req: Task -> Request, s: State, t: Task, sent: bool, missed: bool, vain: bool, steered: bool) {
    if t !in s.phase then !sent && !missed && !vain && !steered
    else
      var p, refused := s.phase[t], vain && req(t).onBusy.Reject?;
      && (sent <==> p.Running? || p.Restored? || (p.Done? && !missed && !steered && !refused))
      && (missed || steered ==> p.Done?) && !(missed && steered)
      && (refused ==> (p.Contended? || p.Done?) && !missed)
      && (p.Contended? ==> vain)
      && (steered || p.Steering? ==> MaySteer(req(t)))
      && (p.Asleep? ==> !req(t).onBusy.Reject?)
      && (p.Done? ==> sent || missed || steered || refused)
  }

  predicate MaySteer(r: Request) {
    r.onBusy.Steer? && !r.hasAttachments
  }

  ghost predicate StandsNow(req: Task -> Request, states: seq<State>, steps: seq<Step>, n: nat, t: Task)
    requires n <= |steps| && n < |states|
  {
    Stands(req, states[n], t, SentBy(states[n], t), Missed(states, steps, n, t), TriedInVain(states, steps, n, t),
           Steered(steps, n, t))
  }

  lemma StandsStep(
      req: Task -> Request, s: State, a: Step, t: Task, sent: bool, missed: bool, vain: bool, steered: bool)
    requires WellFormed(s) && Enabled(s, a) && Stands(req, s, t, sent, missed, vain, steered)
    ensures Stands(req, Next(req, s, a), t, sent || a == Send(t), missed || FindsNone(s, a, t),
                   vain || FindsEmpty(s, a, t), steered || a == SteerAnswer(t, true))
  {
  }

  lemma {:induction false} StandsAlways(req: Task -> Request, states: seq<State>, steps: seq<Step>, n: nat, t: Task)
    requires IsRun(req, states, steps) && n < |states|
    ensures StandsNow(req, states, steps, n, t)
  {
    if n > 0 {
      StandsAlways(req, states, steps, n - 1, t);
      var s, a := states[n - 1], steps[n - 1];
      assert WellFormed(s) && Enabled(s, a) && states[n] == Next(req, s, a);
      hide IsRun, SentBy, Missed, TriedInVain, Steered, Stands, FindsNone, FindsEmpty, Next, Enabled, WellFormed;
      OneMoreStep(states, steps, n - 1, t);
      SentOneMore(req, s, a, t);
      StandsStep(req, s, a, t, SentBy(s, t), Missed(states, steps, n - 1, t), TriedInVain(states, steps, n - 1, t),
                 Steered(steps, n - 1, t));
    }
  }

  /** Exactly one of the four. */
  predicate ExactlyOne(a: bool, b: bool, c: bool, d: bool) {
    (a || b || c || d) && !(a && b) && !(a && c) && !(a && d) && !(b && c) && !(b && d) && !(c && d)
  }

  /**
   A call that has returned did so for exactly one reason: its message was sent as a turn, there
   was no session, the running turn took it, or the slot was empty and it had asked to be refused.
   */
  lemma HowACallEnds(req: Task -> Request, states: seq<State>, steps: seq<Step>, n: nat, t: Task)
    requires IsRun(req, states, steps) && n < |states| && At(states[n], t, Done)
    ensures ExactlyOne(SentBy(states[n], t), Missed(states, steps, n, t), Steered(steps, n, t),
                       TriedInVain(states, steps, n, t) && req(t).onBusy.Reject?)
    ensures Steered(steps, n, t) ==> MaySteer(req(t))
  {
    hide IsRun, SentBy, Missed, TriedInVain, Steered;
    StandsAlways(req, states, steps, n, t);
  }

  /** Who asks to be refused never waits, and is refused as soon as it has found the slot empty. */
  lemma RejectNeverWaits(req: Task -> Request, states: seq<State>, steps: seq<Step>, n: nat, t: Task)
    requires IsRun(req, states, steps) && n < |states| && req(t).onBusy.Reject? && t in states[n].phase
    ensures !states[n].phase[t].Asleep? && !states[n].phase[t].Steering?
    ensures TriedInVain(states, steps, n, t) ==>
              (states[n].phase[t].Contended? || states[n].phase[t].Done?) && !SentBy(states[n], t)
  {
    hide IsRun, SentBy, Missed, TriedInVain, Steered;
    StandsAlways(req, states, steps, n, t);
  }

  /** Who queues is never turned away: it returns only with its message sent, or without a session. */
  lemma QueueIsServed(req: Task -> Request, states: seq<State>, steps: seq<Step>, n: nat, t: Task)
    requires IsRun(req, states, steps) && n < |states| && req(t).onBusy.Queue? && t in states[n].phase
    ensures !states[n].phase[t].Steering?
    ensures states[n].phase[t].Done? ==> SentBy(states[n], t) || Missed(states, steps, n, t)
  {
    hide IsRun, SentBy, Missed, TriedInVain, Steered;
    StandsAlways(req, states, steps, n, t);
  }

  /** And who steers only in these ways, or when the running turn has taken its message. */
  lemma SteerIsServed(req: Task -> Request, states: seq<State>, steps: seq<Step>, n: nat, t: Task)
    requires IsRun(req, states, steps) && n < |states| && req(t).onBusy.Steer? && At(states[n], t, Done)
    ensures SentBy(states[n], t) || Missed(states, steps, n, t) || Steered(steps, n, t)
    ensures Steered(steps, n, t) ==> !req(t).hasAttachments && !SentBy(states[n], t)
  {
    hide IsRun, SentBy, Missed, TriedInVain, Steered;
    StandsAlways(req, states, steps, n, t);
  }

  lemma {:induction false} SentStays(
      req: Task -> Request, states: seq<State>, steps: seq<Step>, m: nat, n: nat, t: Task)
    requires IsRun(req, states, steps) && m <= n < |states| && SentBy(states[m], t)
    ensures SentBy(states[n], t)
  {
    if m < n {
      SentStays(req, states, steps, m, n - 1, t);
      SentOneMore(req, states[n - 1], steps[n - 1], t);
    }
  }

  /** And no message goes out twice. */
  lemma MessageGoesOutOnce(req: Task -> Request, states: seq<State>, steps: seq<Step>, m: nat, n: nat, t: Task)
    requires IsRun(req, states, steps) && m < n < |steps| && steps[m] == Send(t)
    ensures steps[n] != Send(t)
  {
    SentOneMore(req, states[m], steps[m], t);
    SentStays(req, states, steps, m + 1, n, t);
    StandsAlways(req, states, steps, n, t);
    hide SentBy, Missed, TriedInVain, Steered;
    assert Enabled(states[n], steps[n]);
  }

  // ---------------------------------------------------------------- steering once

  /** The step has `t` hand its message to the running turn. */
  predicate TriesToSteer(req: Task -> Request, s: State, a: Step, t: Task) {
    && a == Decide(t) && WellFormed(s) && Enabled(s, a)
    && Next(req, s, a).phase[t].Steering?
  }

  ghost predicate HasTried(req: Task -> Request, states: seq<State>, steps: seq<Step>, n: nat, t: Task)
    requires n <= |steps| && n <= |states|
  {
    exists k: nat {:trigger steps[k]} :: k < n && TriesToSteer(req, states[k], steps[k], t)
  }

  lemma {:induction false} SteeredIffTried(req: Task -> Request, states: seq<State>, steps: seq<Step>, n: nat, t: Task)
    requires IsRun(req, states, steps) && n < |states|
    ensures t in states[n].steered <==> HasTried(req, states, steps, n, t)
  {
    if n > 0 {
      SteeredIffTried(req, states, steps, n - 1, t);
      assert states[n] == Next(req, states[n - 1], steps[n - 1]);
    }
  }

  /**
   What a caller does that found the slot empty: it is refused if it asked for that, hands its
   message over if it may and has not tried before, and waits otherwise.
   */
  lemma WhatABusySessionMeans(req: Task -> Request, states: seq<State>, steps: seq<Step>, n: nat, t: Task)
    requires IsRun(req, states, steps) && n < |steps| && steps[n] == Decide(t)
    ensures t in states[n + 1].phase && TriedInVain(states, steps, n, t)
    ensures states[n + 1].phase[t].Done? <==> req(t).onBusy.Reject?
    ensures states[n + 1].phase[t].Steering? <==> MaySteer(req(t)) && !HasTried(req, states, steps, n, t)
    ensures states[n + 1].phase[t].Asleep?
       <==> !req(t).onBusy.Reject? && !(MaySteer(req(t)) && !HasTried(req, states, steps, n, t))
  {
    StandsAlways(req, states, steps, n, t);
    SteeredIffTried(req, states, steps, n, t);
    hide SentBy, Missed, TriedInVain, Steered, HasTried;
    assert states[n + 1] == Next(req, states[n], steps[n]);
  }

  /** So it steers at most once. */
  lemma SteersAtMostOnce(req: Task -> Request, states: seq<State>, steps: seq<Step>, m: nat, n: nat, t: Task)
    requires IsRun(req, states, steps) && m < n < |steps|
    requires TriesToSteer(req, states[m], steps[m], t)
    ensures !TriesToSteer(req, states[n], steps[n], t)
  {
    SteeredIffTried(req, states, steps, n, t);
    assert HasTried(req, states, steps, n, t);
  }

  // ---------------------------------------------------------------- who is notified

  /** `t` begins to listen on the entry `e`. */
  predicate ListensOn(s: State, a: Step, t: Task, e: nat) {
    a == Arm(t) && At(s, t, Looked(e))
  }

  /** Whoever listens on `e` is notified: a turn has cleared itself, or the engine is gone. */
  predicate Notifies(s: State, a: Step, e: nat) {
    s.live == Some(e) && (a.Clear? || a.EngineGone?)
  }

  ghost predicate ListensSince(states: seq<State>, steps: seq<Step>, n: nat, t: Task, e: nat)
    requires n <= |steps| && n <= |states|
  {
    exists k: nat {:trigger steps[k]} ::
      && k < n && ListensOn(states[k], steps[k], t, e)
      && forall j {:trigger steps[j]} :: k < j < n ==> !Notifies(states[j], steps[j], e)
  }

  /** A notification came while `t` listened, and `t` has not begun to listen anew. */
  ghost predicate NotifiedSince(states: seq<State>, steps: seq<Step>, n: nat, t: Task, e: nat)
    requires n <= |steps| && n <= |states|
  {
    exists j: nat {:trigger steps[j]} ::
      && j < n && Notifies(states[j], steps[j], e) && ListensSince(states, steps, j, t, e)
      && forall i {:trigger steps[i]} :: j < i < n ==> !ListensOn(states[i], steps[i], t, e)
  }

  lemma NoticeStep(req: Task -> Request, s: State, a: Step, t: Task, e: nat)
    requires WellFormed(s) && Enabled(s, a) && e < |s.entries|
    ensures var f, f' := s.entries[e], Next(req, s, a).entries[e];
            && (t in f'.waiting <==> ListensOn(s, a, t, e) || (t in f.waiting && !Notifies(s, a, e)))
            && (t in f'.woken
                <==> !ListensOn(s, a, t, e) && (t in f.woken || (t in f.waiting && Notifies(s, a, e))))
  {
  }

  lemma NoticeOneMore(states: seq<State>, steps: seq<Step>, n: nat, t: Task, e: nat)
    requires n < |steps| && n < |states|
    ensures ListensSince(states, steps, n + 1, t, e)
       <==> || ListensOn(states[n], steps[n], t, e)
            || (ListensSince(states, steps, n, t, e) && !Notifies(states[n], steps[n], e))
    ensures NotifiedSince(states, steps, n + 1, t, e)
       <==> && !ListensOn(states[n], steps[n], t, e)
            && (NotifiedSince(states, steps, n, t, e)
                || (ListensSince(states, steps, n, t, e) && Notifies(states[n], steps[n], e)))
  {
    assert !(ListensOn(states[n], steps[n], t, e) && Notifies(states[n], steps[n], e));
    hide ListensOn, Notifies;
  }

  /** A notification reaches exactly those who listen then, and is forgotten when they listen anew. */
  lemma {:induction false} NotifiedIff(
      req: Task -> Request, states: seq<State>, steps: seq<Step>, n: nat, t: Task, e: nat)
    requires IsRun(req, states, steps) && n < |states| && e < |states[n].entries|
    ensures t in states[n].entries[e].waiting <==> ListensSince(states, steps, n, t, e)
    ensures t in states[n].entries[e].woken <==> NotifiedSince(states, steps, n, t, e)
  {
    if n > 0 {
      var s, a := states[n - 1], steps[n - 1];
      assert WellFormed(s) && Enabled(s, a) && states[n] == Next(req, s, a);
      if e < |s.entries| {
        NotifiedIff(req, states, steps, n - 1, t, e);
        hide IsRun, ListensOn, Notifies, ListensSince, NotifiedSince, Next, Enabled, WellFormed;
        NoticeStep(req, s, a, t, e);
        NoticeOneMore(states, steps, n - 1, t, e);
      } else {
        NobodyThereYet(req, states, steps, n - 1, t, e);
      }
    }
  }

  lemma {:induction false} NobodyThereYet(
      req: Task -> Request, states: seq<State>, steps: seq<Step>, n: nat, t: Task, e: nat)
    requires IsRun(req, states, steps) && n < |states| && |states[n].entries| <= e
    ensures forall k {:trigger steps[k]} :: 0 <= k < n ==>
              !ListensOn(states[k], steps[k], t, e) && !Notifies(states[k], steps[k], e)
  {
    if n > 0 {
      assert WellFormed(states[n - 1]) && states[n] == Next(req, states[n - 1], steps[n - 1]);
      NobodyThereYet(req, states, steps, n - 1, t, e);
    }
  }

  // ---------------------------------------------------------------- every attempt looks again

  /** `t` looked the session up in step `k`, found `e` live, and has not tried a slot since. */
  predicate LookedUp(states: seq<State>, steps: seq<Step>, k: nat, n: nat, t: Task, e: nat)
    requires n <= |steps| && n <= |states|
  {
    && k < n && steps[k] == Look(t) && states[k].live == Some(e)
    && forall j {:trigger steps[j]} :: k < j < n ==> steps[j] != Take(t)
  }

  predicate HasHandles(s: State, t: Task) {
    t in s.phase && (s.phase[t].Looked? || s.phase[t].Armed?)
  }

  lemma HandlesStep(req: Task -> Request, s: State, a: Step, t: Task)
    requires WellFormed(s) && Enabled(s, a) && HasHandles(Next(req, s, a), t)
    ensures if a == Look(t) then s.live == Some(Next(req, s, a).phase[t].e)
            else HasHandles(s, t) && s.phase[t].e == Next(req, s, a).phase[t].e && a != Take(t)
  {
  }

  lemma {:induction false} HandlesAreLookedUp(
      req: Task -> Request, states: seq<State>, steps: seq<Step>, n: nat, t: Task)
    returns (k: nat)
    requires IsRun(req, states, steps) && n < |states| && HasHandles(states[n], t)
    ensures LookedUp(states, steps, k, n, t, states[n].phase[t].e)
  {
    assert n > 0;
    var s, a := states[n - 1], steps[n - 1];
    assert WellFormed(s) && Enabled(s, a) && states[n] == Next(req, s, a);
    hide Next, Enabled, WellFormed;
    HandlesStep(req, s, a, t);
    if a == Look(t) {
      k := n - 1;
    } else {
      k := HandlesAreLookedUp(req, states, steps, n - 1, t);
    }
  }

  /** A caller that waited tries the entry that is live when it looks again, not the one it waited on. */
  lemma EveryAttemptLooksAgain(req: Task -> Request, states: seq<State>, steps: seq<Step>, m: nat, n: nat, t: Task)
    returns (k: nat)
    requires IsRun(req, states, steps) && m < n < |steps| && steps[m] == Take(t) && steps[n] == Take(t)
    ensures m < k < n && steps[k] == Look(t)
    ensures t in states[n].phase && states[n].phase[t].Armed? && states[k].live == Some(states[n].phase[t].e)
  {
    assert Enabled(states[n], steps[n]);
    k := HandlesAreLookedUp(req, states, steps, n, t);
  }

  // ---------------------------------------------------------------- a caller that queues is served

  /** A wake-up, and a refused steer, mean that the caller begins again with a look-up. */
  lemma WakingStartsOver(req: Task -> Request, states: seq<State>, steps: seq<Step>, n: nat, t: Task)
    requires IsRun(req, states, steps) && n < |steps| && (steps[n] == Resume(t) || steps[n] == SteerAnswer(t, false))
    ensures At(states[n + 1], t, Top) && Enabled(states[n + 1], Look(t))
  {
    assert states[n + 1] == Next(req, states[n], steps[n]);
  }

  /** There is one entry, and its receiver is in its slot or not. */
  predicate OneEntry(s: State, free: bool) {
    s.live == Some(0) && |s.entries| == 1 && s.entries[0].eventRx == free && WellFormed(s)
  }

  lemma Attempt(req: Task -> Request, states: seq<State>, steps: seq<Step>, t: Task, free: bool)
    returns (states': seq<State>, steps': seq<Step>)
    requires IsRun(req, states, steps) && OneEntry(states[|steps|], free) && At(states[|steps|], t, Top)
    ensures IsRun(req, states', steps') && steps <= steps' && OneEntry(states'[|steps'|], false)
    ensures states'[|steps'|].phase == states[|steps|].phase[t := if free then Took(0) else Contended(0)]
  {
    hide IsRun;
    states', steps' := Extend(req, states, steps, Look(t));
    states', steps' := Extend(req, states', steps', Arm(t));
    states', steps' := Extend(req, states', steps', Take(t));
  }

  lemma Speak(req: Task -> Request, states: seq<State>, steps: seq<Step>, t: Task)
    returns (states': seq<State>, steps': seq<Step>)
    requires IsRun(req, states, steps) && OneEntry(states[|steps|], false) && At(states[|steps|], t, Took(0))
    ensures IsRun(req, states', steps') && steps <= steps' && OneEntry(states'[|steps'|], false)
    ensures |states'| == |steps'| + 1 && states'[|steps'|].phase == states[|steps|].phase[t := Running(0)]
  {
    hide IsRun;
    states', steps' := Extend(req, states, steps, Announce(t));
    states', steps' := Extend(req, states', steps', Send(t));
  }

  lemma Behave(req: Task -> Request) returns (states: seq<State>, steps: seq<Step>)
    ensures IsRun(req, states, steps) && OneEntry(states[|steps|], false)
    ensures states[|steps|].phase == map[0 := Running(0)]
  {
    states, steps := [INITIAL], [];
    assert IsRun(req, states, steps);
    hide IsRun;
    states, steps := Extend(req, states, steps, Create);
    states, steps := Extend(req, states, steps, Arrive(0));
    states, steps := Attempt(req, states, steps, 0, true);
    states, steps := Speak(req, states, steps, 0);
  }

  lemma WaitItsTurn(req: Task -> Request) returns (states: seq<State>, steps: seq<Step>, n: nat)
    requires req(1).onBusy.Queue?
    ensures IsRun(req, states, steps) && OneEntry(states[|steps|], false)
    ensures n < |steps| && steps[n] == Decide(1)
    ensures states[|steps|].phase == map[0 := Running(0), 1 := Asleep(0)]
  {
    hide IsRun;
    states, steps := Behave(req);
    states, steps := Extend(req, states, steps, Arrive(1));
    states, steps := Attempt(req, states, steps, 1, false);
    n := |steps|;
    states, steps := Extend(req, states, steps, Decide(1));
  }

  lemma WakeUp(req: Task -> Request) returns (states: seq<State>, steps: seq<Step>, n: nat, m: nat)
    requires req(1).onBusy.Queue?
    ensures IsRun(req, states, steps) && OneEntry(states[|steps|], true)
    ensures n < m < |steps| && steps[n] == Decide(1) && steps[m] == Resume(1)
    ensures states[|steps|].phase == map[0 := Done, 1 := Top]
  {
    hide IsRun;
    states, steps, n := WaitItsTurn(req);
    states, steps := Extend(req, states, steps, Finish(0));
    states, steps := Extend(req, states, steps, Clear(0));
    m := |steps|;
    states, steps := Extend(req, states, steps, Resume(1));
  }

  /** What queueing is for: a run in which a caller finds the slot empty, waits, and has its message sent. */
  lemma AQueuedCallerIsServed(req: Task -> Request)
    requires req(1).onBusy.Queue?
    ensures exists states: seq<State>, steps: seq<Step>, n: nat, m: nat ::
              && IsRun(req, states, steps) && n < m < |steps|
              && steps[n] == Decide(1) && steps[m] == Resume(1) && SentBy(states[|steps|], 1)
  {
    hide IsRun, SentBy, Missed, TriedInVain, Steered, WellFormed;
    var states, steps, n, m := WakeUp(req);
    states, steps := Attempt(req, states, steps, 1, true);
    states, steps := Speak(req, states, steps, 1);
    assert steps[n] == Decide(1) && steps[m] == Resume(1);
    StandsAlways(req, states, steps, |steps|, 1);
  }
}
