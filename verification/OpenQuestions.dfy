/**
 Questions that a turn waits for, and the questions that a session shows as open (`run_turn`,
 `respond_to_prompt` and `clear_pending_prompts` in daemon/src/session_pool.rs).
 */
module OpenQuestions {
  /**
   A turn that ends clears the session's open questions, in a section of its own after the
   receiver is back and the turn is no longer reported. The next turn may have begun by then and
   may be waiting for an answer. A turn that fails clears nothing. This is the machine of
   `TurnSlot` with its questions.
   */

  import opened Wrappers
  import opened TurnSlot

  type Prompt = nat

  /**
   `awaited` are the questions that turns are blocked on, with their turns; `pending` are those
   that the live entry shows; `toWipe` are the callers that have ended their turn and are about to
   clear them, `failed` those whose turn ended with an error. `toForget` are the questions whose
   answer has been sent and that are still to be taken off. Numbers are used once, and nobody
   answers a question before it was asked.
   */
  datatype Desk = Desk(
    slot: State,
    awaited: map<Prompt, Task>,
    pending: set<Prompt>,
    toWipe: set<Task>,
    failed: set<Task>,
    toForget: set<Prompt>,
    nextPrompt: Prompt)

  const EMPTY := Desk(INITIAL, map[], {}, {}, {}, {}, 0)

  datatype Act =
    | Turn(a: Step)
    | Ask(t: Task)          // the running turn of `t` asks, and the question is remembered
    | Respond(p: Prompt)    // `session.respondToPrompt` sends the answer to the live entry's engine
    | Forget(p: Prompt)     // and then forgets the question, by session id again
    | Expire(p: Prompt)     // the engine gives the question up
    | Fail(t: Task)         // the turn of `t` ends with an error: as `Finish`, and `t` will not clear
    | Wipe(t: Task)         // `clear_pending_prompts` at the end of the turn of `t`

  predicate Can(d: Desk, a: Act) {
    match a
    case Turn(a) => Enabled(d.slot, a)
    case Ask(t) => t in d.slot.phase && d.slot.phase[t].Running?
    case Respond(p) => d.slot.live.Some? && p < d.nextPrompt
    case Forget(p) => p in d.toForget
    case Expire(p) => p in d.awaited
    case Fail(t) => Enabled(d.slot, Finish(t))
    case Wipe(t) => t in d.toWipe
  }

  /** The turn of `t` runs on the live entry. */
  predicate RunsLive(s: State, t: Task) {
    s.live.Some? && At(s, t, Running(s.live.value))
  }

  /** The step gives the session another entry, or none. */
  predicate Replaces(a: Step) {
    a.Create? || a.Remove? || a.EngineGone?
  }

  predicate EndsTurn(a: Step, t: Task) {
    a == Finish(t) || a == EngineGone(t)
  }

  function After(req: Task -> Request, d: Desk, a: Act): (d': Desk)
    requires WellFormed(d.slot) && Can(d, a)
    ensures WellFormed(d'.slot)
  {
    match a
    case Turn(a) =>
      d.(slot := Next(req, d.slot, a),
         awaited := map p | p in d.awaited && !EndsTurn(a, d.awaited[p]) :: d.awaited[p],
         pending := if Replaces(a) then {} else d.pending,
         toWipe := if a.Clear? && a.t !in d.failed then d.toWipe + {a.t} else d.toWipe)
    case Ask(t) =>
      d.(awaited := d.awaited[d.nextPrompt := t],
         // remembered by session id: on the live entry, whichever that is by now
         pending := if d.slot.live.Some? then d.pending + {d.nextPrompt} else d.pending,
         nextPrompt := d.nextPrompt + 1)
    case Respond(p) =>
      // an answer that nobody on the live entry waits for goes nowhere
      d.(awaited := if p in d.awaited && RunsLive(d.slot, d.awaited[p]) then d.awaited - {p} else d.awaited,
         toForget := d.toForget + {p})
    case Forget(p) => d.(pending := d.pending - {p}, toForget := d.toForget - {p})
    case Expire(p) => d.(awaited := d.awaited - {p})
    case Fail(t) =>
      d.(slot := Next(req, d.slot, Finish(t)),
         awaited := map p | p in d.awaited && d.awaited[p] != t :: d.awaited[p],
         failed := d.failed + {t})
    case Wipe(t) =>
      d.(pending := {}, toWipe := d.toWipe - {t})
  }

  ghost predicate IsHistory(req: Task -> Request, desks: seq<Desk>, acts: seq<Act>) {
    && |desks| == |acts| + 1
    && desks[0] == EMPTY
    && forall i {:trigger acts[i]} :: 0 <= i < |acts| ==>
         WellFormed(desks[i].slot) && Can(desks[i], acts[i]) && desks[i + 1] == After(req, desks[i], acts[i])
  }

  /** A turn on the live entry waits for the answer to `p`. */
  predicate Waits(d: Desk, p: Prompt) {
    p in d.awaited && RunsLive(d.slot, d.awaited[p])
  }

  /** Only running turns wait for answers, and a caller that may still clear has ended its turn. */
  ghost predicate Inv(d: Desk) {
    && WellFormed(d.slot)
    && (forall p :: p in d.awaited ==>
          p < d.nextPrompt && d.awaited[p] in d.slot.phase && d.slot.phase[d.awaited[p]].Running?)
    && (forall p :: p in d.pending || p in d.toForget ==> p < d.nextPrompt)
    && (forall t :: t in d.toWipe ==> At(d.slot, t, Done))
    && (forall p :: p in d.toForget ==> !Waits(d, p))
  }

  lemma RunningStays(req: Task -> Request, s: State, a: Step, t: Task)
    requires WellFormed(s) && Enabled(s, a) && t in s.phase && s.phase[t].Running? && !EndsTurn(a, t)
    ensures var s' := Next(req, s, a); t in s'.phase && s'.phase[t].Running?
  {
  }

  lemma DoneStays(req: Task -> Request, s: State, a: Step, t: Task)
    requires WellFormed(s) && Enabled(s, a) && (At(s, t, Done) || a == Clear(t))
    ensures At(Next(req, s, a), t, Done)
  {
  }

  /** Nobody begins to wait without asking: the live entry is never an old one. */
  lemma WaitedBefore(req: Task -> Request, d: Desk, a: Act, p: Prompt)
    requires Inv(d) && Can(d, a) && Waits(After(req, d, a), p)
    ensures Waits(d, p) || (a.Ask? && p == d.nextPrompt)
    ensures !(a.Turn? && Replaces(a.a)) && a != Respond(p) && a != Forget(p)
  {
  }

  lemma InvStep(req: Task -> Request, d: Desk, a: Act)
    requires Inv(d) && Can(d, a)
    ensures Inv(After(req, d, a))
  {
    var d' := After(req, d, a);
    forall p | p in d'.toForget ensures !Waits(d', p) {
      if Waits(d', p) {
        WaitedBefore(req, d, a, p);
      }
    }
    hide Next, Enabled, WellFormed, RunsLive;
    if a.Turn? || a.Fail? {
      var step := if a.Turn? then a.a else Finish(a.t);
      forall p | p in d'.awaited ensures d'.awaited[p] in d'.slot.phase && d'.slot.phase[d'.awaited[p]].Running? {
        RunningStays(req, d.slot, step, d.awaited[p]);
      }
      forall t | t in d'.toWipe ensures At(d'.slot, t, Done) {
        DoneStays(req, d.slot, step, t);
      }
    }
  }

  lemma {:induction false} Invariant(req: Task -> Request, desks: seq<Desk>, acts: seq<Act>, n: nat)
    requires IsHistory(req, desks, acts) && n < |desks|
    ensures Inv(desks[n])
  {
    if n > 0 {
      Invariant(req, desks, acts, n - 1);
      InvStep(req, desks[n - 1], acts[n - 1]);
    }
  }

  // ---------------------------------------------------------------- what waits is shown

  /** Every question that a turn on the live entry waits for is shown as open. */
  ghost predicate Shown(d: Desk) {
    forall p: Prompt :: Waits(d, p) ==> p in d.pending
  }

  /** A turn that has ended clears the questions while one on the live entry waits for an answer. */
  ghost predicate Hides(d: Desk, a: Act) {
    a.Wipe? && exists p: Prompt :: Waits(d, p)
  }

  lemma ShownStep(req: Task -> Request, d: Desk, a: Act)
    requires Inv(d) && Can(d, a) && Shown(d)
    ensures Shown(After(req, d, a)) <==> !Hides(d, a)
  {
    var d' := After(req, d, a);
    if Hides(d, a) {
      var p: Prompt :| Waits(d, p);
      assert Waits(d', p) && p !in d'.pending;
    } else {
      forall p: Prompt | Waits(d', p) ensures p in d'.pending {
        WaitedBefore(req, d, a, p);
      }
    }
  }

  /**
   Throughout a run the questions that the running turn waits for are shown as open, exactly
   when no turn that has ended clears them while a later one waits.
   */
  lemma ShownIffNotHidden(req: Task -> Request, desks: seq<Desk>, acts: seq<Act>)
    requires IsHistory(req, desks, acts)
    ensures (forall n :: 0 <= n < |desks| ==> Shown(desks[n]))
       <==> (forall n :: 0 <= n < |acts| ==> !Hides(desks[n], acts[n]))
  {
    hide Shown, Hides;
    if forall n :: 0 <= n < |desks| ==> Shown(desks[n]) {
      forall n | 0 <= n < |acts| ensures !Hides(desks[n], acts[n]) {
        Invariant(req, desks, acts, n);
        assert Shown(desks[n]) && Shown(desks[n + 1]);
        ShownStep(req, desks[n], acts[n]);
      }
    }
    if forall n :: 0 <= n < |acts| ==> !Hides(desks[n], acts[n]) {
      forall n | 0 <= n < |desks| ensures Shown(desks[n]) {
        ShownUpTo(req, desks, acts, n);
      }
    }
  }

  lemma NothingIsShown()
    ensures Shown(EMPTY)
  {
  }

  lemma {:induction false} ShownUpTo(req: Task -> Request, desks: seq<Desk>, acts: seq<Act>, n: nat)
    requires IsHistory(req, desks, acts) && n < |desks|
    requires forall k :: 0 <= k < n ==> !Hides(desks[k], acts[k])
    ensures Shown(desks[n])
  {
    hide Shown, Hides;
    if n == 0 {
      NothingIsShown();
    } else {
      ShownUpTo(req, desks, acts, n - 1);
      Invariant(req, desks, acts, n - 1);
      ShownStep(req, desks[n - 1], acts[n - 1]);
    }
  }

  lemma PendingStep(req: Task -> Request, d: Desk, a: Act, p: Prompt)
    requires Inv(d) && Can(d, a) && Waits(After(req, d, a), p) && p < d.nextPrompt
    ensures Waits(d, p) && (p in After(req, d, a).pending <==> p in d.pending && !a.Wipe?)
  {
    WaitedBefore(req, d, a, p);
    hide Next, Enabled, WellFormed, RunsLive;
  }

  lemma AskShows(req: Task -> Request, d: Desk, a: Act)
    requires WellFormed(d.slot) && Can(d, a) && a.Ask?
    ensures After(req, d, a).nextPrompt == d.nextPrompt + 1
    ensures Waits(After(req, d, a), d.nextPrompt) ==> d.nextPrompt in After(req, d, a).pending
  {
  }

  /** One question: while it is waited for it is shown exactly until somebody clears, if anybody does. */
  lemma {:induction false} PendingIffNotWiped(
      req: Task -> Request, desks: seq<Desk>, acts: seq<Act>, m: nat, n: nat, p: Prompt)
    requires IsHistory(req, desks, acts) && m < n < |desks|
    requires acts[m].Ask? && desks[m].nextPrompt == p && Waits(desks[n], p)
    ensures p in desks[n].pending <==> forall k :: m < k < n ==> !acts[k].Wipe?
  {
    hide Waits, Inv, After, Can, Next, Enabled, WellFormed;
    AskShows(req, desks[m], acts[m]);
    if m < n - 1 {
      Invariant(req, desks, acts, n - 1);
      AskedBefore(req, desks, acts, m + 1, n - 1);
      PendingStep(req, desks[n - 1], acts[n - 1], p);
      PendingIffNotWiped(req, desks, acts, m, n - 1, p);
    }
  }

  /** The step takes `p` off the open questions, whoever waits for it. */
  predicate Drops(a: Act, p: Prompt) {
    a.Wipe? || a == Forget(p) || (a.Turn? && Replaces(a.a))
  }

  lemma DropsStep(req: Task -> Request, d: Desk, a: Act, p: Prompt)
    requires WellFormed(d.slot) && Can(d, a) && p < d.nextPrompt
    ensures p in After(req, d, a).pending <==> p in d.pending && !Drops(a, p)
  {
    hide Next, Enabled, WellFormed, RunsLive;
  }

  /**
   A question goes on being offered until a turn clears, it is answered, or the entry is
   replaced or removed; that its own turn has ended does not matter.
   */
  lemma {:induction false} PendingIffNotDropped(
      req: Task -> Request, desks: seq<Desk>, acts: seq<Act>, m: nat, n: nat, p: Prompt)
    requires IsHistory(req, desks, acts) && m < n < |desks|
    requires acts[m].Ask? && desks[m].nextPrompt == p && desks[m].slot.live.Some?
    ensures p in desks[n].pending <==> forall k {:trigger acts[k]} :: m < k < n ==> !Drops(acts[k], p)
  {
    assert desks[m + 1] == After(req, desks[m], acts[m]) && desks[m + 1].nextPrompt == p + 1;
    if m < n - 1 {
      hide After, Can, Drops, WellFormed;
      AskedBefore(req, desks, acts, m + 1, n - 1);
      PendingIffNotDropped(req, desks, acts, m, n - 1, p);
      DropsStep(req, desks[n - 1], acts[n - 1], p);
    }
  }

  lemma {:induction false} AskedBefore(req: Task -> Request, desks: seq<Desk>, acts: seq<Act>, m: nat, n: nat)
    requires IsHistory(req, desks, acts) && m <= n < |desks|
    ensures desks[m].nextPrompt <= desks[n].nextPrompt
  {
    if m < n {
      AskedBefore(req, desks, acts, m, n - 1);
      assert desks[n] == After(req, desks[n - 1], acts[n - 1]);
    }
  }

  /** The step ends the waiting of `t` for the answer to `p`. */
  predicate EndsWait(a: Act, p: Prompt, t: Task) {
    || a == Respond(p) || a == Expire(p) || a == Fail(t)
    || (a.Turn? && (EndsTurn(a.a, t) || Replaces(a.a)))
  }

  lemma WaitTurnStep(req: Task -> Request, d: Desk, a: Act, p: Prompt)
    requires Inv(d) && Can(d, a) && Waits(d, p) && (a.Turn? || a.Fail?)
    ensures Waits(After(req, d, a), p) <==> !EndsWait(a, p, d.awaited[p])
    ensures Waits(After(req, d, a), p) ==> After(req, d, a).awaited[p] == d.awaited[p]
  {
  }

  lemma WaitStep(req: Task -> Request, d: Desk, a: Act, p: Prompt)
    requires Inv(d) && Can(d, a) && Waits(d, p)
    ensures Waits(After(req, d, a), p) <==> !EndsWait(a, p, d.awaited[p])
    ensures Waits(After(req, d, a), p) ==> After(req, d, a).awaited[p] == d.awaited[p]
  {
    hide Next, Enabled, WellFormed;
    if a.Turn? || a.Fail? {
      WaitTurnStep(req, d, a, p);
    }
  }

  lemma AskWaits(req: Task -> Request, d: Desk, t: Task)
    requires WellFormed(d.slot) && Can(d, Ask(t)) && RunsLive(d.slot, t)
    ensures var d', p := After(req, d, Ask(t)), d.nextPrompt;
            Waits(d', p) && d'.awaited[p] == t && d'.nextPrompt == p + 1
  {
  }

  /**
   A question asked on the live entry is waited for exactly until it is answered or given up, its
   turn ends, or the entry is replaced or removed.
   */
  lemma {:induction false} WaitsIffNotEnded(
      req: Task -> Request, desks: seq<Desk>, acts: seq<Act>, m: nat, n: nat, p: Prompt, t: Task)
    requires IsHistory(req, desks, acts) && m < n < |desks|
    requires acts[m] == Ask(t) && desks[m].nextPrompt == p && RunsLive(desks[m].slot, t)
    ensures Waits(desks[n], p) <==> forall k {:trigger acts[k]} :: m < k < n ==> !EndsWait(acts[k], p, t)
    ensures Waits(desks[n], p) ==> desks[n].awaited[p] == t
  {
    hide Waits, Inv, After, Can, Next, Enabled, WellFormed, RunsLive, EndsWait;
    AskWaits(req, desks[m], t);
    assert desks[m + 1] == After(req, desks[m], acts[m]);
    if m < n - 1 {
      assert Can(desks[n - 1], acts[n - 1]) && desks[n] == After(req, desks[n - 1], acts[n - 1]);
      Invariant(req, desks, acts, n - 1);
      AskedBefore(req, desks, acts, m + 1, n - 1);
      WaitsIffNotEnded(req, desks, acts, m, n - 1, p, t);
      if Waits(desks[n - 1], p) {
        WaitStep(req, desks[n - 1], acts[n - 1], p);
      } else if Waits(desks[n], p) {
        PendingStep(req, desks[n - 1], acts[n - 1], p);
      }
    }
  }

  /** The step ends the waiting of `t`, on whichever entry: an answer reaches it only on the live one. */
  predicate EndsBlocking(d: Desk, a: Act, p: Prompt, t: Task) {
    || (a == Respond(p) && RunsLive(d.slot, t)) || a == Expire(p) || a == Fail(t)
    || (a.Turn? && EndsTurn(a.a, t))
  }

  lemma BlockedStep(req: Task -> Request, d: Desk, a: Act, p: Prompt, t: Task)
    requires Inv(d) && Can(d, a) && p < d.nextPrompt
    ensures var d' := After(req, d, a);
            && d'.nextPrompt >= d.nextPrompt
            && (p in d'.awaited && d'.awaited[p] == t
                <==> p in d.awaited && d.awaited[p] == t && !EndsBlocking(d, a, p, t))
  {
    hide Next, WellFormed;
  }

  lemma AskBlocks(req: Task -> Request, d: Desk, t: Task)
    requires WellFormed(d.slot) && Can(d, Ask(t))
    ensures var d', p := After(req, d, Ask(t)), d.nextPrompt;
            p < d'.nextPrompt && p in d'.awaited && d'.awaited[p] == t
  {
  }

  /** A turn is blocked on its question until an answer reaches it, the question is given up, or the turn ends. */
  lemma {:induction false} BlockedIffNotEnded(
      req: Task -> Request, desks: seq<Desk>, acts: seq<Act>, m: nat, n: nat, p: Prompt, t: Task)
    requires IsHistory(req, desks, acts) && m < n < |desks| && acts[m] == Ask(t) && desks[m].nextPrompt == p
    ensures p < desks[n].nextPrompt
    ensures p in desks[n].awaited && desks[n].awaited[p] == t
       <==> forall k {:trigger acts[k]} :: m < k < n ==> !EndsBlocking(desks[k], acts[k], p, t)
  {
    hide Inv, After, Can, EndsBlocking, WellFormed;
    var d, a := desks[n - 1], acts[n - 1];
    assert desks[n] == After(req, d, a) && Can(d, a);
    if m == n - 1 {
      AskBlocks(req, d, t);
    } else {
      BlockedIffNotEnded(req, desks, acts, m, n - 1, p, t);
      Invariant(req, desks, acts, n - 1);
      BlockedStep(req, d, a, p, t);
    }
  }

  /** A question that a turn is blocked on was asked by it, and that turn is running. */
  lemma {:induction false} AwaitedWasAsked(req: Task -> Request, desks: seq<Desk>, acts: seq<Act>, n: nat, p: Prompt)
    returns (k: nat)
    requires IsHistory(req, desks, acts) && n < |desks| && p in desks[n].awaited
    ensures k < n && acts[k] == Ask(desks[n].awaited[p]) && desks[k].nextPrompt == p
    ensures desks[n].awaited[p] in desks[n].slot.phase && desks[n].slot.phase[desks[n].awaited[p]].Running?
  {
    Invariant(req, desks, acts, n);
    hide Next, Enabled, WellFormed, RunsLive;
    assert desks[n] == After(req, desks[n - 1], acts[n - 1]);
    if p in desks[n - 1].awaited && desks[n - 1].awaited[p] == desks[n].awaited[p] {
      k := AwaitedWasAsked(req, desks, acts, n - 1, p);
    } else {
      k := n - 1;
    }
  }

  /** The engine gives up only what a running turn asked. */
  lemma OnlyAwaitedOnesExpire(req: Task -> Request, desks: seq<Desk>, acts: seq<Act>, n: nat, p: Prompt)
    returns (k: nat, t: Task)
    requires IsHistory(req, desks, acts) && n < |acts| && acts[n] == Expire(p)
    ensures k < n && acts[k] == Ask(t) && desks[k].nextPrompt == p
    ensures t in desks[n].slot.phase && desks[n].slot.phase[t].Running?
  {
    assert Can(desks[n], acts[n]);
    k := AwaitedWasAsked(req, desks, acts, n, p);
    t := desks[n].awaited[p];
  }

  /** An answer to `p` has been sent and nobody has forgotten the question since. */
  ghost predicate AnsweredLast(acts: seq<Act>, n: nat, p: Prompt)
    requires n <= |acts|
  {
    exists k: nat {:trigger acts[k]} ::
      k < n && acts[k] == Respond(p) && forall j {:trigger acts[j]} :: k < j < n ==> acts[j] != Forget(p)
  }

  /** Each answer is followed by at most one forgetting, and nothing is forgotten without an answer. */
  lemma {:induction false} ToForgetIff(req: Task -> Request, desks: seq<Desk>, acts: seq<Act>, n: nat, p: Prompt)
    requires IsHistory(req, desks, acts) && n < |desks|
    ensures p in desks[n].toForget <==> AnsweredLast(acts, n, p)
    ensures n < |acts| && acts[n] == Forget(p) ==> AnsweredLast(acts, n, p)
  {
    hide Next, Enabled, WellFormed, RunsLive;
    if n > 0 {
      ToForgetIff(req, desks, acts, n - 1, p);
      assert desks[n] == After(req, desks[n - 1], acts[n - 1]);
    }
    assert n < |acts| ==> Can(desks[n], acts[n]);
  }

  ghost predicate Occurs(acts: seq<Act>, n: nat, a: Act)
    requires n <= |acts|
  {
    exists k {:trigger acts[k]} :: 0 <= k < n && acts[k] == a
  }

  /** What is known of `t`: whether its turn has failed, has been cleared, and has cleared the questions. */
  predicate WipeStands(d: Desk, t: Task, failed: bool, cleared: bool, wiped: bool) {
    && (t in d.failed <==> failed)
    && (t in d.toWipe <==> cleared && !failed && !wiped)
    && (cleared || wiped ==> At(d.slot, t, Done))
    && (failed ==> t in d.slot.phase && (d.slot.phase[t].Restored? || d.slot.phase[t].Done?))
  }

  lemma WipeStep(req: Task -> Request, d: Desk, a: Act, t: Task, failed: bool, cleared: bool, wiped: bool)
    requires WellFormed(d.slot) && Can(d, a) && WipeStands(d, t, failed, cleared, wiped)
    ensures WipeStands(After(req, d, a), t,
      failed || a == Fail(t), cleared || a == Turn(Clear(t)), wiped || a == Wipe(t))
  {
  }

  /** Who clears: each caller whose turn ended without an error, once, after its turn is no longer reported. */
  lemma {:induction false} WhoClears(req: Task -> Request, desks: seq<Desk>, acts: seq<Act>, n: nat, t: Task)
    requires IsHistory(req, desks, acts) && n < |desks|
    ensures WipeStands(desks[n], t, Occurs(acts, n, Fail(t)), Occurs(acts, n, Turn(Clear(t))), Occurs(acts, n, Wipe(t)))
    ensures t in desks[n].toWipe
       <==> Occurs(acts, n, Turn(Clear(t))) && !Occurs(acts, n, Fail(t)) && !Occurs(acts, n, Wipe(t))
  {
    if n > 0 {
      WhoClears(req, desks, acts, n - 1, t);
      var d, a := desks[n - 1], acts[n - 1];
      assert WellFormed(d.slot) && Can(d, a) && desks[n] == After(req, d, a);
      WipeStep(req, d, a, t,
        Occurs(acts, n - 1, Fail(t)), Occurs(acts, n - 1, Turn(Clear(t))), Occurs(acts, n - 1, Wipe(t)));
      hide After, Can, WellFormed, WipeStands, IsHistory;
      OccursOneMore(acts, n - 1, Fail(t));
      OccursOneMore(acts, n - 1, Turn(Clear(t)));
      OccursOneMore(acts, n - 1, Wipe(t));
    }
  }

  lemma OccursOneMore(acts: seq<Act>, n: nat, a: Act)
    requires n < |acts|
    ensures Occurs(acts, n + 1, a) <==> Occurs(acts, n, a) || acts[n] == a
  {
  }

  // ---------------------------------------------------------------- a run that hides a question, and one that keeps it

  lemma Extend(req: Task -> Request, desks: seq<Desk>, acts: seq<Act>, a: Act)
    returns (desks': seq<Desk>, acts': seq<Act>)
    requires IsHistory(req, desks, acts) && |desks| == |acts| + 1
    requires WellFormed(desks[|acts|].slot) && Can(desks[|acts|], a)
    ensures IsHistory(req, desks', acts') && |desks'| == |acts'| + 1
    ensures desks'[|acts'|] == After(req, desks[|acts|], a)
  {
    desks', acts' := desks + [After(req, desks[|acts|], a)], acts + [a];
    forall i | 0 <= i < |acts'|
      ensures WellFormed(desks'[i].slot) && Can(desks'[i], acts'[i]) && desks'[i + 1] == After(req, desks'[i], acts'[i])
    {
      if i < |acts| {
        assert acts'[i] == acts[i] && desks'[i] == desks[i] && desks'[i + 1] == desks[i + 1];
      }
    }
  }

  lemma OneEntry(req: Task -> Request) returns (desks: seq<Desk>, acts: seq<Act>)
    ensures IsHistory(req, desks, acts) && |desks| == |acts| + 1
    ensures desks[|acts|] == Desk(State([NEW_ENTRY], Some(0), {}, map[], {}, []), map[], {}, {}, {}, {}, 0)
  {
    desks, acts := [EMPTY], [];
    assert IsHistory(req, desks, acts);
    desks, acts := Extend(req, desks, acts, Turn(Create));
    assert desks[|acts|].awaited == map[];
  }

  /** What a step of a turn that neither ends it nor replaces the entry leaves alone. */
  ghost predicate SameDesk(d: Desk, d': Desk) {
    && d'.awaited == d.awaited && d'.toWipe == d.toWipe && d'.failed == d.failed
    && d'.nextPrompt == d.nextPrompt
  }

  lemma OneStep(req: Task -> Request, desks: seq<Desk>, acts: seq<Act>, a: Step)
    returns (desks': seq<Desk>, acts': seq<Act>)
    requires IsHistory(req, desks, acts) && |desks| == |acts| + 1
    requires WellFormed(desks[|acts|].slot) && Enabled(desks[|acts|].slot, a)
    requires !a.Finish? && !a.EngineGone? && !a.Clear?
    ensures IsHistory(req, desks', acts') && |desks'| == |acts'| + 1
    ensures desks'[|acts'|].slot == Next(req, desks[|acts|].slot, a) && SameDesk(desks[|acts|], desks'[|acts'|])
  {
    hide IsHistory, Next, Enabled;
    desks', acts' := Extend(req, desks, acts, Turn(a));
  }

  /** A caller comes to the only entry, takes its receiver and sends its message. */
  lemma StartTurn(req: Task -> Request, desks: seq<Desk>, acts: seq<Act>, t: Task)
    returns (desks': seq<Desk>, acts': seq<Act>)
    requires IsHistory(req, desks, acts) && |desks| == |acts| + 1
    requires var s := desks[|acts|].slot;
             WellFormed(s) && t !in s.phase && s.live == Some(0) && |s.entries| == 1 && s.entries[0].eventRx
    ensures IsHistory(req, desks', acts') && |desks'| == |acts'| + 1
    ensures var d, d' := desks[|acts|], desks'[|acts'|];
            && WellFormed(d'.slot) && d'.slot.phase == d.slot.phase[t := Running(0)] && d'.slot.live == Some(0)
            && |d'.slot.entries| == 1 && SameDesk(d, d')
  {
    hide IsHistory;
    desks', acts' := OneStep(req, desks, acts, Arrive(t));
    desks', acts' := OneStep(req, desks', acts', Look(t));
    desks', acts' := OneStep(req, desks', acts', Arm(t));
    desks', acts' := OneStep(req, desks', acts', Take(t));
    desks', acts' := OneStep(req, desks', acts', Announce(t));
    desks', acts' := OneStep(req, desks', acts', Send(t));
  }

  /** The first turn has ended and has still to clear the questions. */
  lemma AfterTheFirstTurn(req: Task -> Request) returns (desks: seq<Desk>, acts: seq<Act>)
    ensures IsHistory(req, desks, acts) && |desks| == |acts| + 1
    ensures var d := desks[|acts|];
            && WellFormed(d.slot) && d.slot.phase.Keys == {0} && d.slot.live == Some(0) && |d.slot.entries| == 1
            && d.slot.entries[0].eventRx && d.awaited == map[] && d.toWipe == {0} && d.nextPrompt == 0
  {
    desks, acts := OneEntry(req);
    hide IsHistory;
    desks, acts := StartTurn(req, desks, acts, 0);
    desks, acts := Extend(req, desks, acts, Turn(Finish(0)));
    desks, acts := Extend(req, desks, acts, Turn(Clear(0)));
    assert desks[|acts|].awaited == map[];
  }

  /**
   A run, with one entry, after which the running turn waits for an answer, the session shows
   no open question, and nobody is about to do anything but that turn.
   */
  lemma AnOpenQuestionIsHidden(req: Task -> Request)
    ensures exists desks: seq<Desk>, acts: seq<Act>, n: nat, p: Prompt ::
              && IsHistory(req, desks, acts) && n < |desks| && |desks[n].slot.entries| == 1
              && Waits(desks[n], p) && desks[n].pending == {} && desks[n].toWipe == {}
  {
    hide IsHistory;
    var desks, acts := AfterTheFirstTurn(req);
    desks, acts := StartTurn(req, desks, acts, 1);
    desks, acts := Extend(req, desks, acts, Ask(1));
    desks, acts := Extend(req, desks, acts, Wipe(0));
    assert Waits(desks[|acts|], 0);
  }

  /** Nobody is at work. */
  ghost predicate Idle(d: Desk) {
    d.toWipe == {} && forall t {:trigger d.slot.phase[t]} :: t in d.slot.phase ==> d.slot.phase[t].Done?
  }

  lemma AfterAFailedTurn(req: Task -> Request) returns (desks: seq<Desk>, acts: seq<Act>)
    ensures IsHistory(req, desks, acts) && |desks| == |acts| + 1
    ensures Idle(desks[|acts|]) && desks[|acts|].slot.live == Some(0)
    ensures desks[|acts|].awaited == map[] && 0 in desks[|acts|].pending
  {
    desks, acts := OneEntry(req);
    hide IsHistory;
    desks, acts := StartTurn(req, desks, acts, 0);
    desks, acts := Extend(req, desks, acts, Ask(0));
    desks, acts := Extend(req, desks, acts, Fail(0));
    desks, acts := Extend(req, desks, acts, Turn(Clear(0)));
    assert desks[|acts|].awaited == map[];
  }

  /** A run after which nobody is at work, no turn waits for anything, and a question is still open. */
  lemma AQuestionOutlivesItsTurn(req: Task -> Request)
    ensures exists desks: seq<Desk>, acts: seq<Act>, n: nat ::
              && IsHistory(req, desks, acts) && n < |desks| && desks[n].slot.live == Some(0)
              && Idle(desks[n]) && desks[n].awaited == map[] && 0 in desks[n].pending
  {
    hide IsHistory, Idle;
    var desks, acts := AfterAFailedTurn(req);
    assert Idle(desks[|acts|]);
  }
}
