/**
 Deleting a session while others resume or rebuild it (`delete_session`, `resume_session`,
 `resume_or_create` and `create` in daemon/src/session_pool.rs).
 */
module Deletion {
  /**
   One session id. A delete takes the entry out of the live map and then erases the transcript,
   both inside the id's section. A resume looks for a live entry first, and then checks the
   history and creates the entry inside the section. A turn that finds the entry missing or
   stale does the same without the section. That sections of one id never overlap is
   `LockRegistry.SectionsNeverOverlap`; here one task at most is `inside`.
   */

  import opened Wrappers

  type Task = nat

  datatype Phase =
    | Deleting                              // inside, nothing done yet
    | Removed                               // the entry is out of the map
    | Erased                                // and the transcript gone
    | Absent                                // a resume that saw no live entry
    | Resuming                              // inside
    | Loading                               // a turn that saw none, or a stale one
    | Creating(isNew: bool, locked: bool)   // has looked at the history
    | Ready(locked: bool)                   // a new one, its first line written if it could be
    | Leaving                               // done, still inside
    | Done

  /** `stored` says that the transcript is there, from its first line on. */
  datatype State = State(live: bool, stored: bool, inside: Option<Task>, phase: map<Task, Phase>)

  const INITIAL := State(false, false, None, map[])

  datatype Step =
    | EnterDelete(t: Task)
    | RemoveLive(t: Task)
    | Erase(t: Task, ok: bool)
    | Look(t: Task)                              // `session.resume`; a live entry is all it needs
    | EnterResume(t: Task)
    | LookTurn(t: Task)                          // `session.runTurn` or `session.setModel`
    | Refuse(t: Task)                            // a sidechain that has ended is not resumed
    | Check(t: Task, found: bool, create: bool)  // is there history; and may a resume do without
    | WriteMeta(t: Task, ok: bool)
    | Insert(t: Task)
    | Leave(t: Task)
    | Drop                                       // closed, evicted, idle too long, or its engine is gone

  predicate At(s: State, t: Task, p: Phase) {
    t in s.phase && s.phase[t] == p
  }

  predicate MayInsert(p: Phase) {
    p.Ready? || (p.Creating? && !p.isNew)
  }

  predicate Enabled(s: State, a: Step) {
    match a
    case EnterDelete(t) => t !in s.phase && s.inside.None?
    case RemoveLive(t) => At(s, t, Deleting)
    case Erase(t, _) => At(s, t, Removed)
    case Look(t) => t !in s.phase
    case EnterResume(t) => At(s, t, Absent) && s.inside.None?
    case LookTurn(t) => t !in s.phase
    case Refuse(t) => At(s, t, Resuming)
    case Check(t, found, _) => (At(s, t, Resuming) || At(s, t, Loading)) && (s.stored ==> found)
    case WriteMeta(t, _) => t in s.phase && s.phase[t].Creating? && s.phase[t].isNew
    case Insert(t) => t in s.phase && MayInsert(s.phase[t])
    case Leave(t) => At(s, t, Erased) || At(s, t, Leaving)
    case Drop => true
  }

  function Go(s: State, t: Task, p: Phase): State {
    s.(phase := s.phase[t := p])
  }

  function Next(s: State, a: Step): State
    requires Enabled(s, a)
  {
    match a
    case EnterDelete(t) => Go(s, t, Deleting).(inside := Some(t))
    case RemoveLive(t) => Go(s, t, Removed).(live := false)
    case Erase(t, ok) => Go(s, t, Erased).(stored := s.stored && !ok)
    case Look(t) => Go(s, t, if s.live then Done else Absent)
    case EnterResume(t) => Go(s, t, Resuming).(inside := Some(t))
    case LookTurn(t) => Go(s, t, Loading)
    case Refuse(t) => Go(s, t, Leaving)
    case Check(t, found, create) =>
      if s.phase[t].Loading? then Go(s, t, Creating(!found, false))
      else if found || create then Go(s, t, Creating(!found, true))
      else Go(s, t, Leaving)
    case WriteMeta(t, ok) => Go(s, t, Ready(s.phase[t].locked)).(stored := s.stored || ok)
    case Insert(t) => Go(s, t, if s.phase[t].locked then Leaving else Done).(live := true)
    case Leave(t) => Go(s, t, Done).(inside := None)
    case Drop => s.(live := false)
  }

  ghost predicate IsRun(states: seq<State>, steps: seq<Step>) {
    && |states| == |steps| + 1
    && states[0] == INITIAL
    && forall i {:trigger steps[i]} :: 0 <= i < |steps| ==>
         Enabled(states[i], steps[i]) && states[i + 1] == Next(states[i], steps[i])
  }

  // ---------------------------------------------------------------- who is inside

  predicate IsInside(p: Phase) {
    || p.Deleting? || p.Removed? || p.Erased? || p.Resuming? || p.Leaving?
    || ((p.Creating? || p.Ready?) && p.locked)
  }

  ghost predicate Inv(s: State) {
    forall t: Task :: t in s.phase && IsInside(s.phase[t]) ==> s.inside == Some(t)
  }

  lemma {:induction false} Invariant(states: seq<State>, steps: seq<Step>, n: nat)
    requires IsRun(states, steps) && n < |states|
    ensures Inv(states[n])
  {
    if n > 0 {
      Invariant(states, steps, n - 1);
      assert states[n] == Next(states[n - 1], steps[n - 1]);
    }
  }

  /** And whoever is inside is in one of these phases, so that the section is not left locked. */
  lemma {:induction false} InsiderIsInside(states: seq<State>, steps: seq<Step>, n: nat, t: Task)
    requires IsRun(states, steps) && n < |states| && states[n].inside == Some(t)
    ensures t in states[n].phase && IsInside(states[n].phase[t])
  {
    Invariant(states, steps, n - 1);
    assert states[n] == Next(states[n - 1], steps[n - 1]);
    if states[n - 1].inside == Some(t) {
      InsiderIsInside(states, steps, n - 1, t);
    }
  }

  /** The step is one of `t`. */
  predicate IsBy(a: Step, t: Task) {
    !a.Drop? && a.t == t
  }

  lemma InsiderCanMove(states: seq<State>, steps: seq<Step>, n: nat, t: Task)
    requires IsRun(states, steps) && n < |states| && states[n].inside == Some(t)
    ensures exists a: Step :: IsBy(a, t) && Enabled(states[n], a)
  {
    InsiderIsInside(states, steps, n, t);
    var s := states[n];
    var a := match s.phase[t]
      case Deleting => RemoveLive(t)
      case Removed => Erase(t, true)
      case Resuming => Check(t, true, true)
      case Creating(isNew, _) => if isNew then WriteMeta(t, true) else Insert(t)
      case Ready(_) => Insert(t)
      case _ => Leave(t);
    assert IsBy(a, t) && Enabled(s, a);
  }

  /** A task only moves on. */
  function Rank(p: Phase): nat {
    match p
    case Deleting => 0
    case Removed => 1
    case Erased => 2
    case Absent => 10
    case Resuming => 11
    case Loading => 11
    case Creating(_, _) => 12
    case Ready(_) => 13
    case Leaving => 14
    case Done => 15
  }

  lemma {:induction false} RankGrows(states: seq<State>, steps: seq<Step>, m: nat, n: nat, t: Task)
    requires IsRun(states, steps) && m <= n < |states| && t in states[m].phase
    ensures t in states[n].phase && Rank(states[m].phase[t]) <= Rank(states[n].phase[t])
    ensures Rank(states[m].phase[t]) <= 2 ==> Rank(states[n].phase[t]) <= 2 || states[n].phase[t].Done?
    ensures IsInside(states[m].phase[t]) ==> IsInside(states[n].phase[t]) || states[n].phase[t].Done?
  {
    if m < n {
      RankGrows(states, steps, m, n - 1, t);
      assert states[n] == Next(states[n - 1], steps[n - 1]);
    }
  }

  /** `t` takes the entry out in step `r`, erases the transcript in step `d` and leaves in step `n`. */
  ghost predicate Deletes(states: seq<State>, steps: seq<Step>, r: nat, d: nat, n: nat, t: Task) {
    && r < d < n < |steps| && steps[r] == RemoveLive(t) && steps[d] == Erase(t, true) && steps[n] == Leave(t)
  }

  /** Meanwhile nobody else is inside. */
  lemma InsideThroughout(states: seq<State>, steps: seq<Step>, r: nat, d: nat, n: nat, t: Task, k: nat)
    requires IsRun(states, steps) && Deletes(states, steps, r, d, n, t) && r < k <= n
    ensures t in states[k].phase && (states[k].phase[t].Removed? || states[k].phase[t].Erased?)
    ensures forall u: Task :: u in states[k].phase && IsInside(states[k].phase[u]) ==> u == t
  {
    assert states[r + 1] == Next(states[r], steps[r]) && states[d + 1] == Next(states[d], steps[d]);
    assert Enabled(states[n], steps[n]);
    RankGrows(states, steps, r + 1, k, t);
    RankGrows(states, steps, k, n, t);
    RankGrows(states, steps, d + 1, n, t);
    Invariant(states, steps, k);
  }

  // ---------------------------------------------------------------- what a completed delete leaves

  /** An insertion, or the first line of a transcript, by a caller that is not inside. */
  predicate Outside(s: State, a: Step) {
    (a.Insert? || a.WriteMeta?) && a.t in s.phase && !IsInside(s.phase[a.t])
  }

  ghost predicate NeverOut(steps: seq<Step>, m: nat, n: nat)
    requires n <= |steps|
  {
    forall j {:trigger steps[j]} :: m <= j < n ==> !steps[j].Drop?
  }

  /** In the steps from `m` up to `n` the entry was inserted from outside and has stayed. */
  ghost predicate Recreated(states: seq<State>, steps: seq<Step>, m: nat, n: nat)
    requires n <= |steps| && n <= |states|
  {
    exists k: nat {:trigger steps[k]} ::
      m <= k < n && steps[k].Insert? && Outside(states[k], steps[k]) && NeverOut(steps, k + 1, n)
  }

  /** In the steps from `m` up to `n` the first line was written from outside. */
  ghost predicate Rewritten(states: seq<State>, steps: seq<Step>, m: nat, n: nat)
    requires n <= |steps| && n <= |states|
  {
    exists k: nat {:trigger steps[k]} ::
      m <= k < n && steps[k].WriteMeta? && steps[k].ok && Outside(states[k], steps[k])
  }

  /** A step of anybody else while `t` is the only one inside. */
  lemma OneStep(states: seq<State>, steps: seq<Step>, r: nat, d: nat, n: nat, t: Task, k: nat)
    requires IsRun(states, steps) && Deletes(states, steps, r, d, n, t) && r < k < n
    ensures states[k + 1].live <==>
              (steps[k].Insert? && Outside(states[k], steps[k])) || (states[k].live && !steps[k].Drop?)
    ensures d < k ==>
              (states[k + 1].stored <==>
                 || (steps[k].WriteMeta? && steps[k].ok && Outside(states[k], steps[k])) || states[k].stored)
  {
    InsideThroughout(states, steps, r, d, n, t, k);
    InsideThroughout(states, steps, r, d, n, t, k + 1);
    assert states[k + 1] == Next(states[k], steps[k]);
    assert states[d + 1] == Next(states[d], steps[d]);
    if d < k {
      RankGrows(states, steps, d + 1, k, t);
    }
  }

  lemma {:induction false} LiveIff(states: seq<State>, steps: seq<Step>, r: nat, d: nat, n: nat, t: Task, k: nat)
    requires IsRun(states, steps) && Deletes(states, steps, r, d, n, t) && r < k <= n
    ensures states[k].live <==> Recreated(states, steps, r + 1, k)
  {
    RemovedIsOut(states, steps, r, d, n, t);
    hide Outside, NeverOut, Next, Enabled;
    if k > r + 1 {
      LiveIff(states, steps, r, d, n, t, k - 1);
      OneStep(states, steps, r, d, n, t, k - 1);
      hide IsRun;
      RecreatedStep(states, steps, r + 1, k);
    }
  }

  lemma RemovedIsOut(states: seq<State>, steps: seq<Step>, r: nat, d: nat, n: nat, t: Task)
    requires IsRun(states, steps) && Deletes(states, steps, r, d, n, t)
    ensures !states[r + 1].live
    ensures !states[d + 1].stored
  {
    assert states[r + 1] == Next(states[r], steps[r]) && states[d + 1] == Next(states[d], steps[d]);
  }

  lemma RecreatedStep(states: seq<State>, steps: seq<Step>, m: nat, n: nat)
    requires m < n <= |steps| && |states| == |steps| + 1
    ensures Recreated(states, steps, m, n)
       <==> || (steps[n - 1].Insert? && Outside(states[n - 1], steps[n - 1]))
            || (Recreated(states, steps, m, n - 1) && !steps[n - 1].Drop?)
  {
    hide Outside;
    if steps[n - 1].Insert? && Outside(states[n - 1], steps[n - 1]) {
      assert NeverOut(steps, n, n);
    } else if Recreated(states, steps, m, n - 1) && !steps[n - 1].Drop? {
      var k: nat :| m <= k < n - 1 && steps[k].Insert? && Outside(states[k], steps[k]) && NeverOut(steps, k + 1, n - 1);
      assert NeverOut(steps, k + 1, n);
    }
    if Recreated(states, steps, m, n) {
      var k: nat :| m <= k < n && steps[k].Insert? && Outside(states[k], steps[k]) && NeverOut(steps, k + 1, n);
      if k < n - 1 {
        assert NeverOut(steps, k + 1, n - 1) && !steps[n - 1].Drop?;
      }
    }
  }

  lemma {:induction false} StoredIff(states: seq<State>, steps: seq<Step>, r: nat, d: nat, n: nat, t: Task, k: nat)
    requires IsRun(states, steps) && Deletes(states, steps, r, d, n, t) && d < k <= n
    ensures states[k].stored <==> Rewritten(states, steps, d + 1, k)
  {
    RemovedIsOut(states, steps, r, d, n, t);
    hide Outside, Next, Enabled;
    if k > d + 1 {
      StoredIff(states, steps, r, d, n, t, k - 1);
      OneStep(states, steps, r, d, n, t, k - 1);
    }
  }

  /**
   A completed delete leaves the id out of the live map exactly if no caller outside the section
   has inserted an entry that stayed, and leaves no transcript exactly if none has written the
   first line since it was erased. Resumes are inside, so they do neither.
   */
  lemma DeletedIffNotRecreated(states: seq<State>, steps: seq<Step>, r: nat, d: nat, n: nat, t: Task)
    requires IsRun(states, steps) && Deletes(states, steps, r, d, n, t)
    ensures states[n + 1].live <==> Recreated(states, steps, r + 1, n)
    ensures states[n + 1].stored <==> Rewritten(states, steps, d + 1, n)
  {
    hide Recreated, Rewritten;
    LiveIff(states, steps, r, d, n, t, n);
    StoredIff(states, steps, r, d, n, t, n);
    assert states[n + 1] == Next(states[n], steps[n]);
  }

  /** In particular when every caller that creates goes through the section. */
  lemma ResumesNeverRecreate(states: seq<State>, steps: seq<Step>, r: nat, d: nat, n: nat, t: Task)
    requires IsRun(states, steps) && Deletes(states, steps, r, d, n, t)
    requires forall k :: 0 <= k < n ==> !steps[k].LookTurn?
    ensures !states[n + 1].live && !states[n + 1].stored
  {
    DeletedIffNotRecreated(states, steps, r, d, n, t);
    forall k: nat | k < n ensures !Outside(states[k], steps[k]) {
      NobodyOutside(states, steps, k);
    }
  }

  /** And no delete takes anything away while a resume is inside: what it has created it finds when it leaves. */
  lemma NoDeleteDuringAResume(states: seq<State>, steps: seq<Step>, m: nat, k: nat, n: nat, t: Task)
    requires IsRun(states, steps) && m < k < n < |steps| && steps[m] == EnterResume(t) && steps[n] == Leave(t)
    ensures !steps[k].RemoveLive? && !steps[k].Erase?
    ensures states[k].stored ==> states[k + 1].stored
    ensures states[k].live && !steps[k].Drop? ==> states[k + 1].live
  {
    assert states[m + 1] == Next(states[m], steps[m]);
    assert Enabled(states[n], steps[n]) && Enabled(states[k], steps[k]) && states[k + 1] == Next(states[k], steps[k]);
    RankGrows(states, steps, m + 1, k, t);
    RankGrows(states, steps, k, n, t);
    Invariant(states, steps, k);
  }

  /** A resume that sees a live entry, or is refused, creates nothing. */
  lemma LiveResumeCreatesNothing(states: seq<State>, steps: seq<Step>, k: nat, n: nat, t: Task)
    requires IsRun(states, steps) && k < n < |steps|
    requires (steps[k] == Look(t) && states[k].live) || steps[k] == Refuse(t)
    ensures steps[n] != Insert(t) && !(steps[n].WriteMeta? && steps[n].t == t)
  {
    assert states[k + 1] == Next(states[k], steps[k]) && Enabled(states[n], steps[n]);
    RankGrows(states, steps, k + 1, n, t);
  }

  /**
   The history decides: a first line is written only if there was none, and a resume that found
   none and may not do without creates nothing.
   */
  lemma HistoryDecides(states: seq<State>, steps: seq<Step>, k: nat, n: nat, t: Task)
    requires IsRun(states, steps) && k < n < |steps| && steps[k].Check? && steps[k].t == t
    ensures steps[n].WriteMeta? && steps[n].t == t ==> !steps[k].found
    ensures steps[n] == Insert(t) ==> At(states[k], t, Loading) || steps[k].found || steps[k].create
  {
    assert Enabled(states[k], steps[k]) && Enabled(states[n], steps[n]);
    CheckedStays(states, steps, k, n, t);
  }

  /** Only a resume that has not looked at the history yet is refused for having ended. */
  lemma RefusedBeforeTheCheck(states: seq<State>, steps: seq<Step>, k: nat, n: nat, t: Task)
    requires IsRun(states, steps) && k < n < |steps| && steps[n] == Refuse(t)
    ensures !(steps[k].Check? && steps[k].t == t)
  {
    assert Enabled(states[n], steps[n]);
    if steps[k].Check? && steps[k].t == t {
      assert Enabled(states[k], steps[k]) && states[k + 1] == Next(states[k], steps[k]);
      RankGrows(states, steps, k + 1, n, t);
    }
  }

  /** And in full: it goes on if there is a history or it may do without, and writes a first line only without. */
  lemma WhatTheCheckMeans(states: seq<State>, steps: seq<Step>, k: nat, t: Task)
    requires IsRun(states, steps) && k < |steps| && steps[k].Check? && steps[k].t == t
    ensures states[k + 1].phase[t].Leaving? || states[k + 1].phase[t].Creating?
    ensures states[k + 1].phase[t].Leaving? <==> At(states[k], t, Resuming) && !steps[k].found && !steps[k].create
    ensures MayInsert(states[k + 1].phase[t]) <==> steps[k].found
  {
    assert Enabled(states[k], steps[k]) && states[k + 1] == Next(states[k], steps[k]);
  }

  lemma {:induction false} CheckedStays(states: seq<State>, steps: seq<Step>, k: nat, n: nat, t: Task)
    requires IsRun(states, steps) && k < n < |states| && steps[k].Check? && steps[k].t == t
    ensures t in states[n].phase
    ensures var p := states[n].phase[t];
            || p.Leaving? || p.Done? || (p == Creating(!steps[k].found, IsInside(states[k].phase[t])))
            || (p.Ready? && !steps[k].found)
    ensures At(states[k], t, Resuming) && !steps[k].found && !steps[k].create ==>
              states[n].phase[t].Leaving? || states[n].phase[t].Done?
  {
    assert states[n] == Next(states[n - 1], steps[n - 1]);
    if k < n - 1 {
      CheckedStays(states, steps, k, n - 1, t);
    }
  }

  lemma {:induction false} NobodyOutside(states: seq<State>, steps: seq<Step>, n: nat)
    requires IsRun(states, steps) && n < |states|
    requires forall k :: 0 <= k < n ==> !steps[k].LookTurn?
    ensures forall t: Task :: t in states[n].phase ==>
              IsInside(states[n].phase[t]) || states[n].phase[t].Absent? || states[n].phase[t].Done?
    ensures n < |steps| ==> !Outside(states[n], steps[n])
  {
    if n > 0 {
      NobodyOutside(states, steps, n - 1);
      assert states[n] == Next(states[n - 1], steps[n - 1]);
    }
    if n < |steps| {
      assert Enabled(states[n], steps[n]);
    }
  }

  // ---------------------------------------------------------------- a run in which the id comes back

  lemma Extend(states: seq<State>, steps: seq<Step>, a: Step) returns (states': seq<State>, steps': seq<Step>)
    requires IsRun(states, steps) && |states| == |steps| + 1 && Enabled(states[|steps|], a)
    ensures IsRun(states', steps') && |states'| == |steps'| + 1 && steps' == steps + [a]
    ensures states'[|steps'|] == Next(states[|steps|], a)
  {
    hide Next, Enabled;
    states', steps' := states + [Next(states[|steps|], a)], steps + [a];
    forall i {:trigger steps'[i]} | 0 <= i < |steps'|
      ensures Enabled(states'[i], steps'[i]) && states'[i + 1] == Next(states'[i], steps'[i])
    {
      if i < |steps| {
        assert steps'[i] == steps[i] && states'[i] == states[i] && states'[i + 1] == states[i + 1];
      }
    }
  }

  lemma NoStepIsARun()
    ensures IsRun([INITIAL], [])
  {
  }

  /** A stored, live session, with a turn on its way that has found it stale and seen its history. */
  lemma ATurnIsLoading() returns (states: seq<State>, steps: seq<Step>)
    ensures IsRun(states, steps) && |states| == |steps| + 1
    ensures |steps| == 6
    ensures states[6] == State(true, true, None, map[0 := Done, 1 := Creating(false, false)])
  {
    hide IsRun;
    NoStepIsARun();
    states, steps := Extend([INITIAL], [], LookTurn(0));
    states, steps := Extend(states, steps, Check(0, false, true));
    states, steps := Extend(states, steps, WriteMeta(0, true));
    states, steps := Extend(states, steps, Insert(0));
    states, steps := Extend(states, steps, LookTurn(1));
    states, steps := Extend(states, steps, Check(1, true, true));
  }

  /** A delete comes and has erased the transcript. */
  lemma ErasedMeanwhile() returns (states: seq<State>, steps: seq<Step>)
    ensures IsRun(states, steps) && |states| == |steps| + 1
    ensures |steps| == 9 && steps[7] == RemoveLive(2) && steps[8] == Erase(2, true)
    ensures states[9] == State(false, false, Some(2), map[0 := Done, 1 := Creating(false, false), 2 := Erased])
  {
    hide IsRun;
    states, steps := ATurnIsLoading();
    states, steps := Extend(states, steps, EnterDelete(2));
    states, steps := Extend(states, steps, RemoveLive(2));
    states, steps := Extend(states, steps, Erase(2, true));
  }

  /** The session is live again, without a transcript, when its delete reports success. */
  lemma ADeletedSessionComesBack()
    ensures exists states: seq<State>, steps: seq<Step>, r: nat, d: nat, n: nat, t: Task ::
              && IsRun(states, steps) && n + 1 < |states| && Deletes(states, steps, r, d, n, t)
              && states[n + 1].live && !states[n + 1].stored
  {
    hide IsRun;
    var states, steps := ErasedMeanwhile();
    states, steps := Extend(states, steps, Insert(1));
    states, steps := Extend(states, steps, Leave(2));
    assert Deletes(states, steps, 7, 8, 10, 2);
  }

  /** A session that was stored and has been dropped. */
  lemma ADroppedSession() returns (states: seq<State>, steps: seq<Step>)
    ensures IsRun(states, steps) && |states| == |steps| + 1
    ensures |steps| == 5 && steps[4] == Drop && states[5] == State(false, true, None, map[0 := Done])
  {
    hide IsRun;
    NoStepIsARun();
    states, steps := Extend([INITIAL], [], LookTurn(0));
    states, steps := Extend(states, steps, Check(0, false, true));
    states, steps := Extend(states, steps, WriteMeta(0, true));
    states, steps := Extend(states, steps, Insert(0));
    states, steps := Extend(states, steps, Drop);
  }

  /** And is being resumed. */
  lemma AResumeIsLoading() returns (states: seq<State>, steps: seq<Step>)
    ensures IsRun(states, steps) && |states| == |steps| + 1
    ensures |steps| == 8 && steps[4] == Drop && steps[6] == EnterResume(1)
    ensures states[8] == State(false, true, Some(1), map[0 := Done, 1 := Creating(false, true)])
  {
    hide IsRun;
    states, steps := ADroppedSession();
    states, steps := Extend(states, steps, Look(1));
    states, steps := Extend(states, steps, EnterResume(1));
    states, steps := Extend(states, steps, Check(1, true, false));
  }

  /** What resuming is for: it is live again, with its transcript. */
  lemma ADroppedSessionIsResumed()
    ensures exists states: seq<State>, steps: seq<Step> ::
              && IsRun(states, steps) && |steps| == 10 && steps[4] == Drop
              && steps[6] == EnterResume(1) && states[10] == State(true, true, None, map[0 := Done, 1 := Done])
  {
    hide IsRun;
    var states, steps := AResumeIsLoading();
    states, steps := Extend(states, steps, Insert(1));
    states, steps := Extend(states, steps, Leave(1));
  }
}
