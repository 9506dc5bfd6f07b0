/**
 Turns that outlast what the pool takes for activity (`run_turn`, `idle_session_ids`, the janitor
 and `evict_lru` in daemon/src/session_pool.rs).
 */
module LongTurns {
  /**
   `last_active` is set when a caller looks the session up, and not again while the turn runs. So
   the sweep of idle sessions and the eviction of the least recently active one can meet a
   session in the middle of a turn, and cancel its agent. This is the machine of `SessionMap`
   with the agents that are running a turn.
   */

  import opened SessionMap

  datatype Busy = Busy(base: State, running: set<Agent>)

  const NOBODY := Busy(INITIAL, {})

  datatype Act =
    | Move(a: Step)
    | Begin(sid: Sid, now: Time)   // looks the session up, which counts as activity, and takes its turn
    | End(agent: Agent)

  ghost predicate Can(cap: nat, b: Busy, a: Act) {
    match a
    case Move(a) => Enabled(cap, b.base, a)
    case Begin(sid, _) => sid in b.base.pool.sessions && b.base.pool.sessions[sid].agent !in b.running
    case End(agent) => agent in b.running
  }

  function After(b: Busy, a: Act): Busy {
    match a
    case Move(a) => b.(base := Next(b.base, a))
    case Begin(sid, now) =>
      if sid !in b.base.pool.sessions then b
      else Busy(Next(b.base, Touch(sid, now)), b.running + {b.base.pool.sessions[sid].agent})
    case End(agent) => b.(running := b.running - {agent})
  }

  ghost predicate IsHistory(cap: nat, busy: seq<Busy>, acts: seq<Act>) {
    && |busy| == |acts| + 1
    && busy[0] == NOBODY
    && forall i {:trigger acts[i]} :: 0 <= i < |acts| ==>
         Can(cap, busy[i], acts[i]) && busy[i + 1] == After(busy[i], acts[i])
  }

  // ---------------------------------------------------------------- activity

  /** The step sets `last_active` of `sid`. */
  predicate Activates(a: Act, sid: Sid) {
    || (a.Begin? && a.sid == sid)
    || (a.Move? && (a.a.Touch? || a.a.Insert?) && a.a.sid == sid)
  }

  function When(a: Act): Time {
    if a.Begin? then a.now
    else if a.Move? && (a.a.Touch? || a.a.Insert?) then a.a.now
    else 0
  }

  /** The clock does not go back. */
  ghost predicate Timed(acts: seq<Act>) {
    forall i, j, sid, sid' ::
      0 <= i < j < |acts| && Activates(acts[i], sid) && Activates(acts[j], sid') ==> When(acts[i]) <= When(acts[j])
  }

  /** A step sets `last_active` to its time, or leaves it alone. */
  lemma ActivityStep(cap: nat, b: Busy, a: Act, sid: Sid)
    requires Can(cap, b, a) && sid in After(b, a).base.pool.sessions
    ensures Activates(a, sid) ==> After(b, a).base.pool.sessions[sid].lastActive == When(a)
    ensures !Activates(a, sid) ==>
              sid in b.base.pool.sessions
              && After(b, a).base.pool.sessions[sid].lastActive == b.base.pool.sessions[sid].lastActive
  {
  }

  ghost predicate ActiveAt(acts: seq<Act>, n: nat, sid: Sid, t: Time)
    requires n <= |acts|
  {
    exists k: nat {:trigger acts[k]} :: k < n && Activates(acts[k], sid) && When(acts[k]) == t
  }

  /** `last_active` is the time of the latest activity. */
  lemma {:induction false} LastActiveIsLatest(cap: nat, busy: seq<Busy>, acts: seq<Act>, n: nat, sid: Sid)
    requires IsHistory(cap, busy, acts) && n < |busy| && Timed(acts) && sid in busy[n].base.pool.sessions
    ensures ActiveAt(acts, n, sid, busy[n].base.pool.sessions[sid].lastActive)
    ensures forall k {:trigger acts[k]} :: 0 <= k < n && Activates(acts[k], sid) ==>
              When(acts[k]) <= busy[n].base.pool.sessions[sid].lastActive
  {
    hide Activates, When;
    var a := acts[n - 1];
    assert busy[n] == After(busy[n - 1], a);
    hide After;
    ActivityStep(cap, busy[n - 1], a, sid);
    if !Activates(a, sid) {
      LastActiveIsLatest(cap, busy, acts, n - 1, sid);
    }
  }

  /** The agent has begun a turn and has not ended it. */
  ghost predicate BegunLast(busy: seq<Busy>, acts: seq<Act>, n: nat, agent: Agent)
    requires n <= |acts| && n <= |busy|
  {
    exists k: nat {:trigger acts[k]} ::
      && k < n && acts[k].Begin? && Runs(busy[k].base.pool, acts[k].sid, agent)
      && forall j {:trigger acts[j]} :: k < j < n ==> acts[j] != End(agent)
  }

  /** An agent runs a turn from its beginning to its end, whatever becomes of the session meanwhile. */
  lemma {:induction false} RunningIff(cap: nat, busy: seq<Busy>, acts: seq<Act>, n: nat, agent: Agent)
    requires IsHistory(cap, busy, acts) && n < |busy|
    ensures agent in busy[n].running <==> BegunLast(busy, acts, n, agent)
    ensures n < |acts| && acts[n] == End(agent) ==> BegunLast(busy, acts, n, agent)
    ensures n < |acts| && acts[n].Begin? && Runs(busy[n].base.pool, acts[n].sid, agent) ==>
              !BegunLast(busy, acts, n, agent)
  {
    hide Next, Enabled;
    if n > 0 {
      RunningIff(cap, busy, acts, n - 1, agent);
      assert Can(cap, busy[n - 1], acts[n - 1]) && busy[n] == After(busy[n - 1], acts[n - 1]);
    }
    assert n < |acts| ==> Can(cap, busy[n], acts[n]);
  }

  // ---------------------------------------------------------------- turns that are cut short

  /** The step cancels the agent in the middle of a turn. */
  predicate CutsShort(b: Busy, a: Act, agent: Agent) {
    agent in b.running && agent !in b.base.pool.cancelled && agent in After(b, a).base.pool.cancelled
  }

  /** The agent runs a turn on the live session `sid` and has not been cancelled. */
  predicate RunsOn(b: Busy, sid: Sid, agent: Agent) {
    && agent in b.running && agent !in b.base.pool.cancelled
    && sid in b.base.pool.sessions && b.base.pool.sessions[sid].agent == agent
  }

  /** Every activity of `sid` so far was more than `timeout` before `now`. */
  ghost predicate QuietFor(acts: seq<Act>, n: nat, sid: Sid, now: Time, timeout: nat)
    requires n <= |acts|
  {
    forall k {:trigger acts[k]} :: 0 <= k < n && Activates(acts[k], sid) ==> now - When(acts[k]) > timeout
  }

  lemma {:induction false} AgentsAreOwn(cap: nat, busy: seq<Busy>, acts: seq<Act>, n: nat)
    requires IsHistory(cap, busy, acts) && n < |busy|
    ensures OwnAgents(busy[n].base)
  {
    if n > 0 {
      AgentsAreOwn(cap, busy, acts, n - 1);
      var b, a := busy[n - 1], acts[n - 1];
      if a.Move? {
        OwnAgentsStep(cap, b.base, a.a);
      } else if a.Begin? {
        OwnAgentsStep(cap, b.base, Touch(a.sid, a.now));
      }
    }
  }

  /**
   The sweep cuts a turn short exactly when nobody has looked the session up within the timeout,
   the caller of the turn included, however busy the turn has been.
   */
  lemma SweepCutsShortIff(cap: nat, busy: seq<Busy>, acts: seq<Act>, n: nat, sid: Sid, agent: Agent,
                          now: Time, timeout: nat)
    requires IsHistory(cap, busy, acts) && n < |acts| && Timed(acts)
    requires acts[n] == Move(Step.SweepIdle(now, timeout)) && RunsOn(busy[n], sid, agent)
    ensures CutsShort(busy[n], acts[n], agent) <==> QuietFor(acts, n, sid, now, timeout)
  {
    hide Activates, When;
    AgentsAreOwn(cap, busy, acts, n);
    LastActiveIsLatest(cap, busy, acts, n, sid);
    var p := busy[n].base.pool;
    SweptIff(busy[n].base, now, timeout, sid);
  }

  lemma SweptIff(s: State, now: Time, timeout: nat, sid: Sid)
    requires OwnAgents(s) && sid in s.pool.sessions && s.pool.sessions[sid].agent !in s.pool.cancelled
    ensures s.pool.sessions[sid].agent in Next(s, Step.SweepIdle(now, timeout)).pool.cancelled
       <==> now - s.pool.sessions[sid].lastActive > timeout
  {
  }

  /** Over a whole run: no sweep cuts a turn short exactly if each finds the sessions with turns looked up lately. */
  lemma NoSweepCutsShortIff(cap: nat, busy: seq<Busy>, acts: seq<Act>)
    requires IsHistory(cap, busy, acts) && Timed(acts)
    ensures (forall n: nat, agent: Agent :: n < |acts| && Sweeps(acts[n]) ==> !CutsShort(busy[n], acts[n], agent))
       <==> (forall n: nat, sid: Sid, agent: Agent {:trigger RunsOn(busy[n], sid, agent)} ::
               n < |acts| && Sweeps(acts[n]) && RunsOn(busy[n], sid, agent) ==>
                 !QuietFor(acts, n, sid, acts[n].a.now, acts[n].a.timeout))
  {
    hide CutsShort, RunsOn, QuietFor, Timed;
    forall n: nat, sid: Sid, agent: Agent {:trigger RunsOn(busy[n], sid, agent)} |
      n < |acts| && Sweeps(acts[n]) && RunsOn(busy[n], sid, agent)
      ensures CutsShort(busy[n], acts[n], agent) <==> QuietFor(acts, n, sid, acts[n].a.now, acts[n].a.timeout)
    {
      SweepCutsShortIff(cap, busy, acts, n, sid, agent, acts[n].a.now, acts[n].a.timeout);
    }
    forall n: nat, agent: Agent | n < |acts| && Sweeps(acts[n]) && CutsShort(busy[n], acts[n], agent)
      ensures exists sid: Sid :: RunsOn(busy[n], sid, agent)
    {
      AgentsAreOwn(cap, busy, acts, n);
      var sid := SweptFrom(busy[n], acts[n], agent);
    }
  }

  predicate Sweeps(a: Act) {
    a.Move? && a.a.SweepIdle?
  }

  lemma SweptFrom(b: Busy, a: Act, agent: Agent) returns (sid: Sid)
    requires Sweeps(a) && CutsShort(b, a, agent)
    ensures RunsOn(b, sid, agent)
  {
    sid :| sid in b.base.pool.sessions && b.base.pool.sessions[sid].agent == agent;
  }

  /** `other` has been active no earlier than `sid` ever was. */
  ghost predicate ActiveLater(acts: seq<Act>, n: nat, sid: Sid, other: Sid)
    requires n <= |acts|
  {
    exists t: Time :: ActiveAt(acts, n, other, t) && NoneLater(acts, n, sid, t)
  }

  ghost predicate NoneLater(acts: seq<Act>, n: nat, sid: Sid, t: Time)
    requires n <= |acts|
  {
    forall k {:trigger acts[k]} :: 0 <= k < n && Activates(acts[k], sid) ==> When(acts[k]) <= t
  }

  lemma ActiveLaterIff(cap: nat, busy: seq<Busy>, acts: seq<Act>, n: nat, sid: Sid, other: Sid)
    requires IsHistory(cap, busy, acts) && n < |busy| && Timed(acts)
    requires sid in busy[n].base.pool.sessions && other in busy[n].base.pool.sessions
    ensures ActiveLater(acts, n, sid, other)
       <==> busy[n].base.pool.sessions[sid].lastActive <= busy[n].base.pool.sessions[other].lastActive
  {
    LastActiveIsLatest(cap, busy, acts, n, sid);
    LastActiveIsLatest(cap, busy, acts, n, other);
    hide IsHistory, Timed, Activates, When;
    var mine, theirs := busy[n].base.pool.sessions[sid].lastActive, busy[n].base.pool.sessions[other].lastActive;
    if mine <= theirs {
      assert ActiveAt(acts, n, other, theirs) && NoneLater(acts, n, sid, theirs);
    }
    if ActiveLater(acts, n, sid, other) {
      var t: Time :| ActiveAt(acts, n, other, t) && NoneLater(acts, n, sid, t);
      assert mine <= t <= theirs;
    }
  }

  /**
   Making room for another session may cut a turn short exactly when the pool is full and every
   other session has been looked up since this one was, the turn's own caller included.
   */
  lemma EvictionMayCutShortIff(cap: nat, busy: seq<Busy>, acts: seq<Act>, n: nat, sid: Sid, agent: Agent, sid': Sid)
    requires IsHistory(cap, busy, acts) && n < |busy| && Timed(acts) && RunsOn(busy[n], sid, agent) && sid' != sid
    ensures (exists victims: set<Sid> :: MakesRoom(busy[n].base.pool, cap, sid', victims) && sid in victims)
       <==> && MustEvict(busy[n].base.pool, cap, sid')
            && forall other <- busy[n].base.pool.sessions :: ActiveLater(acts, n, sid, other)
  {
    var p := busy[n].base.pool;
    forall other | other in p.sessions
      ensures ActiveLater(acts, n, sid, other) <==> p.sessions[sid].lastActive <= p.sessions[other].lastActive
    {
      ActiveLaterIff(cap, busy, acts, n, sid, other);
    }
    hide IsHistory, Timed, ActiveLater;
    if MustEvict(p, cap, sid') && forall other <- p.sessions :: ActiveLater(acts, n, sid, other) {
      assert IsOldest(p.sessions, sid);
      assert MakesRoom(p, cap, sid', {sid});
    }
  }

  /** And does, if it is the one chosen. */
  lemma EvictionCutsShortIff(cap: nat, busy: seq<Busy>, acts: seq<Act>, n: nat, sid: Sid, agent: Agent)
    requires IsHistory(cap, busy, acts) && n < |acts| && RunsOn(busy[n], sid, agent)
    requires acts[n].Move? && acts[n].a.Insert? && acts[n].a.sid != sid
    ensures CutsShort(busy[n], acts[n], agent) <==> sid in acts[n].a.victims
  {
    AgentsAreOwn(cap, busy, acts, n);
    EvictedIff(cap, busy[n].base, acts[n].a, sid);
  }

  lemma EvictedIff(cap: nat, s: State, a: Step, sid: Sid)
    requires Enabled(cap, s, a) && a.Insert? && a.sid != sid && OwnAgents(s)
    requires sid in s.pool.sessions && s.pool.sessions[sid].agent !in s.pool.cancelled
    ensures s.pool.sessions[sid].agent in Next(s, a).pool.cancelled <==> sid in a.victims
  {
    var agent := s.pool.sessions[sid].agent;
    if sid in a.victims {
      assert agent in AgentsOf(s.pool.sessions, a.victims);
    }
  }

  // ---------------------------------------------------------------- two turns that are cut short

  lemma Extend(cap: nat, busy: seq<Busy>, acts: seq<Act>, a: Act) returns (busy': seq<Busy>, acts': seq<Act>)
    requires IsHistory(cap, busy, acts) && |busy| == |acts| + 1 && Can(cap, busy[|acts|], a)
    ensures IsHistory(cap, busy', acts') && |busy'| == |acts'| + 1 && acts' == acts + [a]
    ensures busy'[|acts'|] == After(busy[|acts|], a) && busy'[|acts|] == busy[|acts|]
  {
    hide After, Can;
    busy', acts' := busy + [After(busy[|acts|], a)], acts + [a];
    forall i {:trigger acts'[i]} | 0 <= i < |acts'|
      ensures Can(cap, busy'[i], acts'[i]) && busy'[i + 1] == After(busy'[i], acts'[i])
    {
      if i < |acts| {
        assert acts'[i] == acts[i] && busy'[i] == busy[i] && busy'[i + 1] == busy[i + 1];
      }
    }
  }

  lemma NothingYet(cap: nat)
    ensures IsHistory(cap, [NOBODY], [])
  {
  }

  /** A session with a turn that has begun at time 0. */
  lemma OneTurn(cap: nat) returns (busy: seq<Busy>, acts: seq<Act>)
    requires cap > 0
    ensures IsHistory(cap, busy, acts) && |busy| == |acts| + 1
    ensures acts == [Move(Spawn), Move(Step.Insert(0, 0, 0, {})), Begin(0, 0)]
    ensures busy[3] == Busy(State(Pool(map[0 := Live(0, 0)], {}), {}, 1), {0})
  {
    NothingYet(cap);
    FirstSession(cap);
    hide IsHistory, Next, Enabled;
    busy, acts := [NOBODY], [];
    busy, acts := Extend(cap, busy, acts, Move(Spawn));
    busy, acts := Extend(cap, busy, acts, Move(Step.Insert(0, 0, 0, {})));
    busy, acts := Extend(cap, busy, acts, Begin(0, 0));
  }

  lemma FirstSession(cap: nat)
    requires cap > 0
    ensures var spawned := State(Pool(map[], {}), {0}, 1);
            var live := State(Pool(map[0 := Live(0, 0)], {}), {}, 1);
            && Enabled(cap, INITIAL, Spawn) && Next(INITIAL, Spawn) == spawned
            && Enabled(cap, spawned, Step.Insert(0, 0, 0, {})) && Next(spawned, Step.Insert(0, 0, 0, {})) == live
            && Next(live, Touch(0, 0)) == live
  {
    var spawned := State(Pool(map[], {}), {0}, 1);
    assert Next(spawned, Step.Insert(0, 0, 0, {})).pool.sessions == map[0 := Live(0, 0)];
    assert Next(spawned, Step.Insert(0, 0, 0, {})).pool.cancelled == {};
  }

  /** Under any timeout the janitor cancels a turn that takes longer. */
  lemma ALongTurnIsSwept(timeout: nat)
    ensures exists busy: seq<Busy>, acts: seq<Act>, n: nat ::
              && IsHistory(1, busy, acts) && n < |acts| && Sweeps(acts[n]) && acts[n].a.timeout == timeout
              && CutsShort(busy[n], acts[n], 0)
  {
    hide IsHistory;
    var busy, acts := OneTurn(1);
    var a := Move(Step.SweepIdle(timeout + 1, timeout));
    var b := busy[3];
    busy, acts := Extend(1, busy, acts, a);
    assert 0 in Idle(b.base.pool.sessions, timeout + 1, timeout);
    assert CutsShort(b, a, 0);
    assert busy[3] == b && acts[3] == a;
  }

  /** In a full pool a new session ends the turn of the one looked up least recently, running or not. */
  lemma ARunningSessionIsEvicted()
    ensures exists busy: seq<Busy>, acts: seq<Act>, n: nat ::
              && IsHistory(1, busy, acts) && n < |acts| && acts[n].Move? && acts[n].a.Insert?
              && CutsShort(busy[n], acts[n], 0)
  {
    hide IsHistory;
    var busy, acts := OneTurn(1);
    busy, acts := Extend(1, busy, acts, Move(Spawn));
    var b := busy[4];
    var a := Move(Step.Insert(1, 1, 1, {0}));
    assert IsOldest(b.base.pool.sessions, 0) && |b.base.pool.sessions| == 1;
    busy, acts := Extend(1, busy, acts, a);
    assert 0 in AgentsOf(b.base.pool.sessions, {0});
    assert CutsShort(b, a, 0);
    assert busy[4] == b && acts[4] == a;
  }
}
