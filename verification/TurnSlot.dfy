/**
 One turn at a time: how callers of `run_turn` share a session's event receiver
 (daemon/src/session_pool.rs).
 */
module TurnSlot {
  /**
   The receiver is a token. A caller takes it out of the entry's slot before it sends its
   message, and gives it back in two steps: first the receiver, then, under another lock,
   `current_turn` and the wake-up of whoever queued. Everything below is about the interleavings
   of those lock-held sections: a state machine over its steps, and properties of every run.

   `SessionEntry` is the entry with its fields updated in place; its methods are proved to do
   what the machine's steps do to an `Entry`.
   */

  import opened Wrappers

  type Task = nat

  datatype OnBusy = Reject | Queue | Steer

  datatype Request = Request(onBusy: OnBusy, hasAttachments: bool)

  // ---------------------------------------------------------------- one entry

  /**
   A session entry: whether the receiver is in its slot, the turn it reports, and the two
   sides of its `idle` notification: who listens and who has been notified since it began to.
   */
  datatype Entry = Entry(eventRx: bool, currentTurn: Option<Task>, waiting: set<Task>, woken: set<Task>)

  const NEW_ENTRY := Entry(true, None, {}, {})

  function Listening(e: Entry, t: Task): Entry {
    e.(waiting := e.waiting + {t}, woken := e.woken - {t})
  }

  function Notified(e: Entry): Entry {
    e.(waiting := {}, woken := e.woken + e.waiting)
  }

  function Cleared(e: Entry): Entry {
    Notified(e.(currentTurn := None))
  }

  class SessionEntry {
    var eventRx: bool
    var currentTurn: Option<Task>
    var waiting: set<Task>
    var woken: set<Task>

    function View(): Entry
      reads this
    {
      Entry(eventRx, currentTurn, waiting, woken)
    }

    /** The object is what the machine's state says of its entry number `e`. */
    ghost predicate Shows(s: State, e: nat)
      reads this
    {
      e < |s.entries| && s.entries[e] == View()
    }

    constructor ()
      ensures View() == NEW_ENTRY
    {
      eventRx, currentTurn, waiting, woken := true, None, {}, {};
    }

    /** `idle.notified()` with `enable()`: from here on a notification is not missed. */
    method EnableIdle(t: Task)
      modifies this
      ensures View() == Listening(old(View()), t)
      ensures forall req: Task -> Request, s: State, e: nat ::
                old(Shows(s, e)) && Moves(s, Arm(t), e) ==> Shows(Next(req, s, Arm(t)), e)
    {
      waiting := waiting + {t};
      woken := woken - {t};
    }

    method TakeEventRx() returns (taken: bool)
      modifies this
      ensures taken == old(eventRx)
      ensures View() == old(View()).(eventRx := false)
      ensures forall req: Task -> Request, s: State, e: nat, t: Task ::
                old(Shows(s, e)) && Moves(s, Take(t), e) ==>
                  && Shows(Next(req, s, Take(t)), e)
                  && (taken <==> HoldsNow(Next(req, s, Take(t)), t, e))
    {
      taken := eventRx;
      eventRx := false;
    }

    method SetCurrentTurn(t: Task)
      modifies this
      ensures View() == old(View()).(currentTurn := Some(t))
      ensures forall req: Task -> Request, s: State, e: nat ::
                old(Shows(s, e)) && WellFormed(s) && Enabled(s, Announce(t)) && s.live == Some(e) ==>
                  Shows(Next(req, s, Announce(t)), e)
    {
      currentTurn := Some(t);
    }

    method RestoreEventRx()
      modifies this
      ensures View() == old(View()).(eventRx := true)
      ensures forall req: Task -> Request, s: State, e: nat, t: Task ::
                old(Shows(s, e)) && Moves(s, Finish(t), e) ==> Shows(Next(req, s, Finish(t)), e)
    {
      eventRx := true;
    }

    method ClearCurrentTurn()
      modifies this
      ensures View() == Cleared(old(View()))
      ensures forall req: Task -> Request, s: State, e: nat, t: Task ::
                old(Shows(s, e)) && WellFormed(s) && Enabled(s, Clear(t)) && s.live == Some(e) ==>
                  Shows(Next(req, s, Clear(t)), e)
    {
      currentTurn := None;
      NotifyWaiters();
    }

    method NotifyWaiters()
      modifies this
      ensures View() == Notified(old(View()))
      ensures forall req: Task -> Request, s: State, e: nat, t: Task ::
                old(Shows(s, e)) && WellFormed(s) && Enabled(s, EngineGone(t)) && s.live == Some(e) ==>
                  Shows(Next(req, s, EngineGone(t)), e)
    {
      woken := woken + waiting;
      waiting := {};
    }
  }

  // ---------------------------------------------------------------- the machine

  /** Where a caller is. Each phase names the entry whose handles the caller holds. */
  datatype Phase =
    | Top                    // about to look the session up
    | Looked(e: nat)         // has the entry's handles, does not listen yet
    | Armed(e: nat)          // listens on `idle`, has not tried the slot
    | Contended(e: nat)      // found the slot empty
    | Asleep(e: nat)         // queued
    | Steering(e: nat)       // waits for the running turn to accept its message
    | Took(e: nat)           // has the receiver, not yet reported as the current turn
    | Announced(e: nat)      // reported, message not yet sent
    | Running(e: nat)        // message sent, reading events
    | Restored(e: nat)       // receiver back in the slot, `current_turn` not yet cleared
    | Done

  predicate Holds(p: Phase, e: nat) {
    p == Took(e) || p == Announced(e) || p == Running(e)
  }

  /** Between taking the receiver and the wake-up that ends the turn. */
  predicate Active(p: Phase, e: nat) {
    Holds(p, e) || p == Restored(e)
  }

  predicate InTurn(p: Phase, e: nat) {
    p == Announced(e) || p == Running(e)
  }

  datatype Event = Sent(sender: Task, e: nat) | Ended(e: nat)

  /**
   Entries are never reused: replacing the session appends one. `live` is the entry the
   session map holds now; `gone` are the entries whose receiver died with its engine.
   */
  datatype State = State(
    entries: seq<Entry>,
    live: Option<nat>,
    gone: set<nat>,
    phase: map<Task, Phase>,
    steered: set<Task>,
    log: seq<Event>)

  const INITIAL := State([], None, {}, map[], {}, [])

  datatype Step =
    | Arrive(t: Task)
    | Look(t: Task)
    | Arm(t: Task)
    | Take(t: Task)
    | Decide(t: Task)
    | SteerAnswer(t: Task, accepted: bool)
    | Resume(t: Task)        // woken, or the one-second timeout
    | Announce(t: Task)
    | Send(t: Task)
    | Finish(t: Task)        // the turn completed or failed: the receiver goes back
    | Clear(t: Task)         // `clear_current_turn`
    | EngineGone(t: Task)
    | Remove                 // closed, evicted, idle too long
    | Create                 // created, or rebuilt in place

  predicate At(s: State, t: Task, p: Phase) {
    t in s.phase && s.phase[t] == p
  }

  predicate Enabled(s: State, a: Step) {
    match a
    case Arrive(t) => t !in s.phase
    case Look(t) => At(s, t, Top)
    case Arm(t) => t in s.phase && s.phase[t].Looked?
    case Take(t) => t in s.phase && s.phase[t].Armed?
    case Decide(t) => t in s.phase && s.phase[t].Contended?
    case SteerAnswer(t, _) => t in s.phase && s.phase[t].Steering?
    case Resume(t) => t in s.phase && s.phase[t].Asleep?
    case Announce(t) => t in s.phase && s.phase[t].Took?
    case Send(t) => t in s.phase && s.phase[t].Announced?
    case Finish(t) => t in s.phase && s.phase[t].Running?
    case Clear(t) => t in s.phase && s.phase[t].Restored?
    case EngineGone(t) => t in s.phase && s.phase[t].Running?
    case Remove => s.live.Some?
    case Create => true
  }

  function Go(s: State, t: Task, p: Phase): State {
    s.(phase := s.phase[t := p])
  }

  /** Every handle and the session map name entries that exist. */
  predicate WellFormed(s: State) {
    && (s.live.Some? ==> s.live.value < |s.entries|)
    && (forall t | t in s.phase && !s.phase[t].Top? && !s.phase[t].Done? :: s.phase[t].e < |s.entries|)
  }

  function Next(req: Task -> Request, s: State, a: Step): (s': State)
    requires WellFormed(s) && Enabled(s, a)
    ensures WellFormed(s')
  {
    match a
    case Arrive(t) => Go(s, t, Top)
    case Look(t) => Go(s, t, if s.live.None? then Done else Looked(s.live.value))
    case Arm(t) =>
      var e := s.phase[t].e;
      Go(s.(entries := s.entries[e := Listening(s.entries[e], t)]), t, Armed(e))
    case Take(t) =>
      var e := s.phase[t].e;
      if s.entries[e].eventRx
      then Go(s.(entries := s.entries[e := s.entries[e].(eventRx := false)]), t, Took(e))
      else Go(s, t, Contended(e))
    case Decide(t) =>
      var e := s.phase[t].e;
      if req(t).onBusy.Reject? then Go(s, t, Done)
      else if req(t).onBusy.Steer? && t !in s.steered && !req(t).hasAttachments
           then Go(s.(steered := s.steered + {t}), t, Steering(e))
      else Go(s, t, Asleep(e))
    case SteerAnswer(t, accepted) => Go(s, t, if accepted then Done else Top)
    case Resume(t) => Go(s, t, Top)
    case Announce(t) =>
      // Looked up by session id: the live entry, whichever that is by now.
      var s' := Go(s, t, Announced(s.phase[t].e));
      if s.live.None? then s'
      else s'.(entries := s.entries[s.live.value := s.entries[s.live.value].(currentTurn := Some(t))])
    case Send(t) =>
      var e := s.phase[t].e;
      Go(s, t, Running(e)).(log := s.log + [Sent(t, e)])
    case Finish(t) =>
      var e := s.phase[t].e;
      Go(s, t, Restored(e)).(
        entries := s.entries[e := s.entries[e].(eventRx := true)],
        log := s.log + [Ended(e)])
    case Clear(t) =>
      var s' := Go(s, t, Done);
      if s.live.None? then s'
      else s'.(entries := s.entries[s.live.value := Cleared(s.entries[s.live.value])])
    case EngineGone(t) =>
      var e := s.phase[t].e;
      var s' := Go(s, t, Done).(gone := s.gone + {e}, log := s.log + [Ended(e)]);
      if s.live.None? then s'
      else s'.(live := None, entries := s.entries[s.live.value := Notified(s.entries[s.live.value])])
    case Remove => s.(live := None)
    case Create => s.(entries := s.entries + [NEW_ENTRY], live := Some(|s.entries|))
  }

  /** The step is one that its caller makes on the entry `e` whose handles it has. */
  predicate Moves(s: State, a: Step, e: nat) {
    && WellFormed(s) && Enabled(s, a)
    && (a.Arm? || a.Take? || a.Finish?)
    && s.phase[a.t].e == e
  }

  /** A run: states and the steps between them, from the empty pool. */
  ghost predicate IsRun(req: Task -> Request, states: seq<State>, steps: seq<Step>) {
    && |states| == |steps| + 1
    && states[0] == INITIAL
    && forall i {:trigger steps[i]} :: 0 <= i < |steps| ==>
         WellFormed(states[i]) && Enabled(states[i], steps[i]) && states[i + 1] == Next(req, states[i], steps[i])
  }

  // ---------------------------------------------------------------- the token

  predicate HoldsNow(s: State, t: Task, e: nat) {
    t in s.phase && Holds(s.phase[t], e)
  }

  /** Some caller has the receiver of `e`. */
  ghost predicate Held(s: State, e: nat) {
    exists t :: HoldsNow(s, t, e)
  }

  /** The receiver of `e` is in exactly one place: its slot, one caller, or gone with its engine. */
  ghost predicate TokenAt(s: State, e: nat)
    requires e < |s.entries|
  {
    && (forall t, u :: HoldsNow(s, t, e) && HoldsNow(s, u, e) ==> t == u)
    && (s.entries[e].eventRx ==> !Held(s, e) && e !in s.gone)
    && (e in s.gone ==> !Held(s, e))
    && (s.entries[e].eventRx || Held(s, e) || e in s.gone)
  }

  ghost predicate TokenInOnePlace(s: State) {
    && (forall e {:trigger TokenAt(s, e)} :: 0 <= e < |s.entries| ==> TokenAt(s, e))
    && (s.live.Some? ==> s.live.value !in s.gone)
    && (forall e :: e in s.gone ==> e < |s.entries|)
  }

  /** A step that changes neither the slot of `e` nor who holds its receiver. */
  lemma TokenUnmoved(s: State, s': State, e: nat)
    requires e < |s.entries| && e < |s'.entries| && TokenAt(s, e)
    requires s'.entries[e].eventRx == s.entries[e].eventRx && (e in s'.gone <==> e in s.gone)
    requires forall t :: HoldsNow(s, t, e) <==> HoldsNow(s', t, e)
    ensures TokenAt(s', e)
  {
    if Held(s, e) {
      var t :| HoldsNow(s, t, e);
      assert HoldsNow(s', t, e);
    }
  }

  lemma TokenTaken(req: Task -> Request, s: State, t: Task)
    requires WellFormed(s) && Enabled(s, Take(t)) && TokenAt(s, s.phase[t].e)
    requires s.entries[s.phase[t].e].eventRx
    ensures TokenAt(Next(req, s, Take(t)), s.phase[t].e)
  {
    var s', e := Next(req, s, Take(t)), s.phase[t].e;
    assert HoldsNow(s', t, e);
    forall u | HoldsNow(s', u, e) ensures u == t {
      assert u != t ==> HoldsNow(s, u, e);
    }
  }

  lemma TokenGivenUp(req: Task -> Request, s: State, a: Step)
    requires WellFormed(s) && Enabled(s, a) && (a.Finish? || a.EngineGone?)
    requires TokenAt(s, s.phase[a.t].e)
    ensures TokenAt(Next(req, s, a), s.phase[a.t].e)
  {
    var s', e := Next(req, s, a), s.phase[a.t].e;
    assert HoldsNow(s, a.t, e);
    forall u ensures !HoldsNow(s', u, e) {
      assert u != a.t && HoldsNow(s', u, e) ==> HoldsNow(s, u, e);
    }
  }

  /** A step that neither takes the receiver of `e` nor gives it up. */
  lemma TokenElsewhere(req: Task -> Request, s: State, a: Step, e: nat)
    requires WellFormed(s) && Enabled(s, a) && e < |s.entries| && TokenAt(s, e)
    requires !(a.Take? && s.phase[a.t].e == e && s.entries[e].eventRx)
    requires !((a.Finish? || a.EngineGone?) && s.phase[a.t].e == e)
    ensures TokenAt(Next(req, s, a), e)
  {
    hide TokenAt;
    var s' := Next(req, s, a);
    forall t ensures HoldsNow(s, t, e) <==> HoldsNow(s', t, e) {
    }
    TokenUnmoved(s, s', e);
  }

  lemma TokenStep(req: Task -> Request, s: State, a: Step)
    requires WellFormed(s) && Enabled(s, a) && TokenInOnePlace(s)
    ensures TokenInOnePlace(Next(req, s, a))
  {
    var s' := Next(req, s, a);
    forall e | 0 <= e < |s'.entries| ensures TokenAt(s', e) {
      if e == |s.entries| {
        assert forall t :: !HoldsNow(s', t, e);
      } else {
        assert TokenAt(s, e);
        if a.Take? && s.phase[a.t].e == e && s.entries[e].eventRx {
          TokenTaken(req, s, a.t);
        } else if (a.Finish? || a.EngineGone?) && s.phase[a.t].e == e {
          TokenGivenUp(req, s, a);
        } else {
          TokenElsewhere(req, s, a, e);
        }
      }
    }
    if a.EngineGone? {
      assert TokenAt(s', s.phase[a.t].e);
    }
  }

  lemma {:induction false} TokenInvariant(req: Task -> Request, states: seq<State>, steps: seq<Step>, n: nat)
    requires IsRun(req, states, steps) && n < |states|
    ensures TokenInOnePlace(states[n])
  {
    if n > 0 {
      TokenInvariant(req, states, steps, n - 1);
      var a := steps[n - 1];
      TokenStep(req, states[n - 1], a);
    }
  }

  // ---------------------------------------------------------------- turns never overlap

  /** In the first `n` events, a message went out on `e` and its turn has not ended. */
  function OpenTurn(log: seq<Event>, n: nat, e: nat): bool
    requires n <= |log|
  {
    if n == 0 then false
    else if log[n - 1].e == e then log[n - 1].Sent?
    else OpenTurn(log, n - 1, e)
  }

  /** No message goes out on a channel whose last turn has not ended. */
  ghost predicate NoOverlap(log: seq<Event>) {
    forall i {:trigger log[i]} :: 0 <= i < |log| && log[i].Sent? ==> !OpenTurn(log, i, log[i].e)
  }

  predicate RunsNow(s: State, t: Task, e: nat) {
    At(s, t, Running(e))
  }

  ghost predicate AnyRuns(s: State, e: nat) {
    exists t :: RunsNow(s, t, e)
  }

  lemma SameRuns(s: State, s': State, e: nat)
    requires forall t :: RunsNow(s, t, e) <==> RunsNow(s', t, e)
    ensures AnyRuns(s, e) <==> AnyRuns(s', e)
  {
    if AnyRuns(s, e) {
      var t :| RunsNow(s, t, e);
      assert RunsNow(s', t, e);
    }
    if AnyRuns(s', e) {
      var t :| RunsNow(s', t, e);
      assert RunsNow(s, t, e);
    }
  }

  ghost predicate OpenIsRunning(s: State) {
    && (forall e :: OpenTurn(s.log, |s.log|, e) <==> AnyRuns(s, e))
    && NoOverlap(s.log)
  }

  lemma {:induction false} OpenTurnAgrees(a: seq<Event>, b: seq<Event>, n: nat, e: nat)
    requires n <= |a| && n <= |b| && forall i :: 0 <= i < n ==> a[i] == b[i]
    ensures OpenTurn(a, n, e) == OpenTurn(b, n, e)
  {
    if n > 0 {
      OpenTurnAgrees(a, b, n - 1, e);
    }
  }

  lemma NoOverlapSnoc(log: seq<Event>, x: Event)
    requires NoOverlap(log) && (x.Sent? ==> !OpenTurn(log, |log|, x.e))
    ensures NoOverlap(log + [x])
    ensures forall e :: OpenTurn(log + [x], |log| + 1, e) == if x.e == e then x.Sent? else OpenTurn(log, |log|, e)
  {
    var more := log + [x];
    forall i | 0 <= i < |more| && more[i].Sent? ensures !OpenTurn(more, i, more[i].e) {
      OpenTurnAgrees(more, log, i, more[i].e);
    }
    forall e ensures OpenTurn(more, |log| + 1, e) == if x.e == e then x.Sent? else OpenTurn(log, |log|, e) {
      OpenTurnAgrees(more, log, |log|, e);
    }
  }

  /** The steps that send a message or end a turn. */
  lemma OverlapEvent(req: Task -> Request, s: State, a: Step)
    requires WellFormed(s) && Enabled(s, a) && TokenInOnePlace(s) && OpenIsRunning(s)
    requires a.Send? || a.Finish? || a.EngineGone?
    ensures OpenIsRunning(Next(req, s, a))
  {
    var s', e := Next(req, s, a), s.phase[a.t].e;
    assert TokenAt(s, e) && HoldsNow(s, a.t, e);
    forall u | RunsNow(s, u, e) ensures u == a.t {
      assert HoldsNow(s, u, e);
    }
    hide TokenAt, TokenInOnePlace, WellFormed;
    NoOverlapSnoc(s.log, if a.Send? then Sent(a.t, e) else Ended(e));
    hide OpenTurn, NoOverlap;
    if a.Send? {
      assert RunsNow(s', a.t, e);
    } else {
      forall t ensures !RunsNow(s', t, e) {
        assert t != a.t && RunsNow(s', t, e) ==> RunsNow(s, t, e);
      }
    }
    forall x ensures OpenTurn(s'.log, |s'.log|, x) <==> AnyRuns(s', x) {
      if x != e {
        SameRuns(s, s', x);
      }
    }
  }

  lemma OverlapStep(req: Task -> Request, s: State, a: Step)
    requires WellFormed(s) && Enabled(s, a) && TokenInOnePlace(s) && OpenIsRunning(s)
    ensures OpenIsRunning(Next(req, s, a))
  {
    if a.Send? || a.Finish? || a.EngineGone? {
      OverlapEvent(req, s, a);
    } else {
      hide TokenInOnePlace, OpenTurn, NoOverlap;
      forall x ensures AnyRuns(s, x) <==> AnyRuns(Next(req, s, a), x) {
        SameRuns(s, Next(req, s, a), x);
      }
    }
  }

  /**
   In every run, a `User` message is sent only by the caller that holds the receiver, and two
   turns on one channel never overlap: before each message the previous turn has ended.
   */
  lemma {:induction false} TurnsNeverOverlap(req: Task -> Request, states: seq<State>, steps: seq<Step>, n: nat)
    requires IsRun(req, states, steps) && n < |states|
    ensures OpenIsRunning(states[n])
    ensures n < |steps| && steps[n].Send? ==>
              forall u :: HoldsNow(states[n], u, states[n].phase[steps[n].t].e) <==> u == steps[n].t
  {
    TokenInvariant(req, states, steps, n);
    if n > 0 {
      TurnsNeverOverlap(req, states, steps, n - 1);
      TokenInvariant(req, states, steps, n - 1);
      var a := steps[n - 1];
      OverlapStep(req, states[n - 1], a);
    }
    if n < |steps| && steps[n].Send? {
      var t := steps[n].t;
      assert TokenAt(states[n], states[n].phase[t].e) && HoldsNow(states[n], t, states[n].phase[t].e);
    }
  }

  // ---------------------------------------------------------------- no wake-up is lost

  /** `t` found the slot of `e` empty, listens, and has not been notified since it began to. */
  predicate Unnotified(s: State, t: Task, e: nat) {
    && (At(s, t, Contended(e)) || At(s, t, Asleep(e)))
    && e < |s.entries| && t !in s.entries[e].woken
  }

  predicate ActiveNow(s: State, u: Task, e: nat) {
    u in s.phase && Active(s.phase[u], e)
  }

  ghost predicate AnyActive(s: State, e: nat) {
    exists u :: ActiveNow(s, u, e)
  }

  /** `t` has a listener's phase only with a listener's place in the entry. */
  ghost predicate ListensAt(s: State, t: Task) {
    t in s.phase && (s.phase[t].Armed? || s.phase[t].Contended? || s.phase[t].Asleep?) ==>
      var e := s.phase[t].e;
      e < |s.entries| && (t in s.entries[e].waiting || t in s.entries[e].woken)
  }

  /** Whoever tried the slot listens. */
  ghost predicate Listens(s: State) {
    forall t: Task :: ListensAt(s, t)
  }

  /**
   While the entry is the one in the session map: a queued caller that nobody has notified is
   not forgotten, because some caller still has the receiver, or has restored it and is about
   to notify.
   */
  ghost predicate NoLostWakeup(s: State) {
    s.live.Some? ==> forall t :: Unnotified(s, t, s.live.value) ==> AnyActive(s, s.live.value)
  }

  lemma ListensStep(req: Task -> Request, s: State, a: Step)
    requires WellFormed(s) && Enabled(s, a) && Listens(s)
    ensures Listens(Next(req, s, a))
  {
    forall t: Task ensures ListensAt(Next(req, s, a), t) {
      assert ListensAt(s, t);
    }
  }

  /** A caller that is active stays so until it notifies. */
  lemma ActiveStays(req: Task -> Request, s: State, a: Step, u: Task, e: nat)
    requires WellFormed(s) && Enabled(s, a) && ActiveNow(s, u, e)
    requires a != Clear(u) && a != EngineGone(u)
    ensures ActiveNow(Next(req, s, a), u, e)
  {
  }

  lemma WakeupStep(req: Task -> Request, s: State, a: Step)
    requires WellFormed(s) && Enabled(s, a) && TokenInOnePlace(s) && Listens(s) && NoLostWakeup(s)
    ensures NoLostWakeup(Next(req, s, a))
  {
    var s' := Next(req, s, a);
    if s'.live.Some? && s.live == s'.live {
      var e := s.live.value;
      forall t | Unnotified(s', t, e) ensures AnyActive(s', e) {
        if Unnotified(s, t, e) {
          assert ListensAt(s, t);
          var u :| ActiveNow(s, u, e);
          ActiveStays(req, s, a, u, e);
        } else {
          assert a == Take(t) && !s.entries[e].eventRx;
          assert TokenAt(s, e);
          var u :| HoldsNow(s, u, e);
          assert ActiveNow(s', u, e);
        }
      }
    }
  }

  lemma {:induction false} NoWakeupIsLost(req: Task -> Request, states: seq<State>, steps: seq<Step>, n: nat)
    requires IsRun(req, states, steps) && n < |states|
    ensures Listens(states[n]) && NoLostWakeup(states[n])
  {
    if n > 0 {
      NoWakeupIsLost(req, states, steps, n - 1);
      TokenInvariant(req, states, steps, n - 1);
      var a := steps[n - 1];
      ListensStep(req, states[n - 1], a);
      WakeupStep(req, states[n - 1], a);
    }
  }

  // ---------------------------------------------------------------- the reported turn

  predicate InTurnNow(s: State, t: Task, e: nat) {
    t in s.phase && InTurn(s.phase[t], e)
  }

  /** Every running turn on the live entry is reported. */
  ghost predicate Mirror(s: State) {
    s.live.Some? && s.live.value < |s.entries| ==>
      forall t: Task :: InTurnNow(s, t, s.live.value) ==> s.entries[s.live.value].currentTurn == Some(t)
  }

  /** A caller writes `current_turn` while another caller's turn is running on the live entry. */
  ghost predicate Overtakes(s: State, a: Step) {
    && (a.Clear? || a.Announce?) && s.live.Some?
    && exists u: Task :: u != a.t && InTurnNow(s, u, s.live.value)
  }

  lemma MirrorStep(req: Task -> Request, s: State, a: Step)
    requires WellFormed(s) && Enabled(s, a) && TokenInOnePlace(s) && Mirror(s)
    ensures Mirror(Next(req, s, a)) <==> !Overtakes(s, a)
  {
    var s' := Next(req, s, a);
    if Overtakes(s, a) {
      var u: Task :| u != a.t && InTurnNow(s, u, s.live.value);
      assert InTurnNow(s', u, s.live.value);
    } else if s'.live.Some? {
      var c := s'.live.value;
      forall t: Task | InTurnNow(s', t, c) ensures s'.entries[c].currentTurn == Some(t) {
        if a == Announce(t) {
        } else {
          assert InTurnNow(s, t, c);
        }
      }
    }
  }

  /**
   Because the receiver goes back before `current_turn` is cleared, a running turn need not be
   reported: every running turn is, throughout a run, exactly when no caller writes
   `current_turn` while another caller's turn runs.
   */
  lemma MirrorIffNeverOvertaken(req: Task -> Request, states: seq<State>, steps: seq<Step>)
    requires IsRun(req, states, steps)
    ensures (forall n :: 0 <= n < |states| ==> Mirror(states[n]))
       <==> (forall n :: 0 <= n < |steps| ==> !Overtakes(states[n], steps[n]))
  {
    if forall n :: 0 <= n < |states| ==> Mirror(states[n]) {
      forall n | 0 <= n < |steps| ensures !Overtakes(states[n], steps[n]) {
        TokenInvariant(req, states, steps, n);
        assert Mirror(states[n]) && Mirror(states[n + 1]);
        MirrorStep(req, states[n], steps[n]);
      }
    }
    if forall n :: 0 <= n < |steps| ==> !Overtakes(states[n], steps[n]) {
      forall n | 0 <= n < |states| ensures Mirror(states[n]) {
        MirrorUpTo(req, states, steps, n);
      }
    }
  }

  lemma {:induction false} MirrorUpTo(req: Task -> Request, states: seq<State>, steps: seq<Step>, n: nat)
    requires IsRun(req, states, steps) && n < |states|
    requires forall k :: 0 <= k < n ==> !Overtakes(states[k], steps[k])
    ensures Mirror(states[n])
  {
    if n > 0 {
      MirrorUpTo(req, states, steps, n - 1);
      TokenInvariant(req, states, steps, n - 1);
      MirrorStep(req, states[n - 1], steps[n - 1]);
    }
  }

  /** The other direction always holds: a turn that is reported has not finished clearing itself. */
  ghost predicate ReportedIsUnfinished(s: State) {
    s.live.Some? && s.live.value < |s.entries| && s.entries[s.live.value].currentTurn.Some? ==>
      var t := s.entries[s.live.value].currentTurn.value;
      t in s.phase && (s.phase[t].Announced? || s.phase[t].Running? || s.phase[t].Restored?)
  }

  lemma ReportedStep(req: Task -> Request, s: State, a: Step)
    requires WellFormed(s) && Enabled(s, a) && ReportedIsUnfinished(s)
    ensures ReportedIsUnfinished(Next(req, s, a))
  {
  }

  lemma {:induction false} ReportedTurnIsUnfinished(req: Task -> Request, states: seq<State>, steps: seq<Step>, n: nat)
    requires IsRun(req, states, steps) && n < |states|
    ensures ReportedIsUnfinished(states[n])
  {
    if n > 0 {
      ReportedTurnIsUnfinished(req, states, steps, n - 1);
      ReportedStep(req, states[n - 1], steps[n - 1]);
    }
  }

  /** Nobody has overtaken a running turn before state `n`. */
  ghost predicate NobodyOvertakes(states: seq<State>, steps: seq<Step>, n: nat)
    requires n <= |steps| && n <= |states|
  {
    forall k :: 0 <= k < n ==> !Overtakes(states[k], steps[k])
  }

  lemma RunWellFormed(req: Task -> Request, states: seq<State>, steps: seq<Step>, n: nat)
    requires IsRun(req, states, steps) && n < |states|
    ensures WellFormed(states[n])
  {
    if n > 0 {
      assert states[n] == Next(req, states[n - 1], steps[n - 1]);
    }
  }

  /** `t` is at work with the handles of `e`. */
  predicate OfEntry(s: State, t: Task, e: nat) {
    t in s.phase && !s.phase[t].Top? && !s.phase[t].Done? && s.phase[t].e == e
  }

  /** The caller that has the receiver of the live entry is reported, unless it has only just taken it. */
  lemma HolderIsReportedIff(req: Task -> Request, states: seq<State>, steps: seq<Step>, n: nat, t: Task, e: nat)
    requires IsRun(req, states, steps) && n < |states| && NobodyOvertakes(states, steps, n)
    requires states[n].live == Some(e) && HoldsNow(states[n], t, e)
    ensures e < |states[n].entries|
    ensures states[n].entries[e].currentTurn == Some(t) <==> !At(states[n], t, Took(e))
  {
    MirrorUpTo(req, states, steps, n);
    ReportedTurnIsUnfinished(req, states, steps, n);
    RunWellFormed(req, states, steps, n);
    assert InTurnNow(states[n], t, e) || At(states[n], t, Took(e));
  }

  /** A turn that is reported has some receiver, unless it has given it back and not cleared itself yet. */
  lemma ReportedHoldsIff(req: Task -> Request, states: seq<State>, steps: seq<Step>, n: nat, t: Task, e: nat)
    requires IsRun(req, states, steps) && n < |states| && states[n].live == Some(e)
    requires e < |states[n].entries| && states[n].entries[e].currentTurn == Some(t)
    ensures t in states[n].phase
    ensures (exists x :: HoldsNow(states[n], t, x)) <==> !states[n].phase[t].Restored?
  {
    ReportedTurnIsUnfinished(req, states, steps, n);
    if !states[n].phase[t].Restored? {
      assert HoldsNow(states[n], t, states[n].phase[t].e);
    }
  }

  /** `current_turn` is the caller that has the receiver of `e`, and nobody while it is in its slot. */
  ghost predicate SaysWhoHolds(s: State, e: nat)
    requires e < |s.entries|
  {
    forall t: Task :: HoldsNow(s, t, e) <==> s.entries[e].currentTurn == Some(t)
  }

  /**
   So even when nobody overtakes, `current_turn` says who holds the channel only in these states:
   nobody has just taken the receiver, and the reported turn, if there is one, runs on this
   entry, not on one that it replaced, and has not given its receiver back.
   */
  lemma SaysWhoHoldsIff(req: Task -> Request, states: seq<State>, steps: seq<Step>, n: nat, e: nat)
    requires IsRun(req, states, steps) && n < |states| && NobodyOvertakes(states, steps, n)
    requires states[n].live == Some(e)
    ensures e < |states[n].entries|
    ensures SaysWhoHolds(states[n], e)
       <==> && (forall t: Task :: !At(states[n], t, Took(e)))
            && (forall t: Task :: states[n].entries[e].currentTurn == Some(t) ==>
                  OfEntry(states[n], t, e) && !At(states[n], t, Restored(e)))
  {
    RunWellFormed(req, states, steps, n);
    var s, reported := states[n], states[n].entries[e].currentTurn;
    forall t: Task | HoldsNow(s, t, e) ensures reported == Some(t) <==> !At(s, t, Took(e)) {
      HolderIsReportedIff(req, states, steps, n, t, e);
    }
    forall t: Task | At(s, t, Took(e)) ensures HoldsNow(s, t, e) {
    }
    if reported.Some? {
      ReportedHoldsIff(req, states, steps, n, reported.value, e);
      ReportedTurnIsUnfinished(req, states, steps, n);
    }
  }

  // ---------------------------------------------------------------- a run that is overtaken

  lemma Extend(req: Task -> Request, states: seq<State>, steps: seq<Step>, a: Step)
      returns (states': seq<State>, steps': seq<Step>)
    requires IsRun(req, states, steps)
    requires WellFormed(states[|steps|]) && Enabled(states[|steps|], a)
    ensures IsRun(req, states', steps') && steps' == steps + [a] && |states'| == |steps'| + 1
    ensures states'[|steps'|] == Next(req, states[|steps|], a)
  {
    states', steps' := states + [Next(req, states[|steps|], a)], steps + [a];
    forall i | 0 <= i < |steps'|
      ensures WellFormed(states'[i]) && Enabled(states'[i], steps'[i])
           && states'[i + 1] == Next(req, states'[i], steps'[i])
    {
      if i < |steps| {
        assert steps'[i] == steps[i] && states'[i] == states[i] && states'[i + 1] == states[i + 1];
      }
    }
  }

  /** From the empty pool, one caller up to the point where it is reported as the current turn. */
  lemma StartTurn(req: Task -> Request, states: seq<State>, steps: seq<Step>, t: Task)
      returns (states': seq<State>, steps': seq<Step>)
    requires IsRun(req, states, steps)
    requires var s := states[|steps|];
             WellFormed(s) && t !in s.phase && s.live == Some(0) && |s.entries| == 1 && s.entries[0].eventRx
    ensures IsRun(req, states', steps')
    ensures var s, s' := states[|steps|], states'[|steps'|];
            && WellFormed(s') && s'.phase == s.phase[t := Running(0)] && s'.live == Some(0)
            && |s'.entries| == 1 && !s'.entries[0].eventRx && s'.entries[0].currentTurn == Some(t)
  {
    states', steps' := Extend(req, states, steps, Arrive(t));
    states', steps' := Extend(req, states', steps', Look(t));
    states', steps' := Extend(req, states', steps', Arm(t));
    states', steps' := Extend(req, states', steps', Take(t));
    states', steps' := Extend(req, states', steps', Announce(t));
    states', steps' := Extend(req, states', steps', Send(t));
  }

  /**
   The gap is real: there is a run, with one entry and no removal, after which a turn is
   running and the session reports none. The second caller takes the slot between the two
   steps with which the first gives it back.
   */
  lemma IdleIsReportedWhileATurnRuns(req: Task -> Request)
    ensures exists states: seq<State>, steps: seq<Step>, t: Task, n: nat ::
              && IsRun(req, states, steps) && n < |states|
              && states[n].live == Some(0) && |states[n].entries| == 1
              && At(states[n], t, Running(0)) && states[n].entries[0].currentTurn == None
  {
    var states: seq<State>, steps: seq<Step> := [INITIAL], [];
    assert IsRun(req, states, steps);
    states, steps := Extend(req, states, steps, Create);
    states, steps := StartTurn(req, states, steps, 0);
    states, steps := Extend(req, states, steps, Finish(0));
    states, steps := StartTurn(req, states, steps, 1);
    states, steps := Extend(req, states, steps, Clear(0));
    assert At(states[|steps|], 1, Running(0));
  }
}
