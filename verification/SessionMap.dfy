/**
 The live map of the pool: capacity, eviction and the cancellation of agents (`create`,
 `evict_lru`, `idle_session_ids`, the janitor, `shutdown_all` and the removal paths in
 daemon/src/session_pool.rs).
 */
module SessionMap {
  /**
   Each live session has a spawned agent, which stops only when its cancellation token fires.
   Dropping the map entry does not fire it, so every path out of the map has to.
   */

  type Sid = nat
  type Agent = nat
  type Time = nat

  datatype Live = Live(agent: Agent, lastActive: Time)

  /** The map, and the agents whose token has fired. */
  datatype Pool = Pool(sessions: map<Sid, Live>, cancelled: set<Agent>)

  function AgentsOf(sessions: map<Sid, Live>, ids: set<Sid>): set<Agent> {
    set k | k in sessions && k in ids :: sessions[k].agent
  }

  /** `ids` leave the map, each with its agent cancelled. */
  function Without(p: Pool, ids: set<Sid>): Pool {
    Pool(p.sessions - ids, p.cancelled + AgentsOf(p.sessions, ids))
  }

  /** `live` takes the place of whoever had `sid`. */
  function Put(p: Pool, sid: Sid, live: Live): Pool {
    Pool(p.sessions[sid := live], p.cancelled + AgentsOf(p.sessions, {sid}))
  }

  predicate IsOldest(sessions: map<Sid, Live>, victim: Sid) {
    victim in sessions && forall k <- sessions :: sessions[victim].lastActive <= sessions[k].lastActive
  }

  /** Only an insertion that makes the map larger has to make room. */
  predicate MustEvict(p: Pool, cap: nat, sid: Sid) {
    sid !in p.sessions && |p.sessions| >= cap
  }

  /** The choice among equally old sessions is the map's iteration order, so any of them may go. */
  ghost predicate IsEviction(sessions: map<Sid, Live>, victims: set<Sid>) {
    if sessions == map[] then victims == {}
    else exists v: Sid :: IsOldest(sessions, v) && victims == {v}
  }

  ghost predicate MakesRoom(p: Pool, cap: nat, sid: Sid, victims: set<Sid>) {
    if MustEvict(p, cap, sid) then IsEviction(p.sessions, victims) else victims == {}
  }

  /** Strictly more than `timeout` ago; an instant in the future counts as now. */
  function Idle(sessions: map<Sid, Live>, now: Time, timeout: nat): set<Sid> {
    set k | k in sessions && now - sessions[k].lastActive > timeout
  }

  // ---------------------------------------------------------------- the map in place

  class SessionPool {
    const cap: nat
    var sessions: map<Sid, Live>
    var cancelled: set<Agent>

    ghost function Value(): Pool
      reads this
    {
      Pool(sessions, cancelled)
    }

    constructor (cap: nat)
      ensures this.cap == cap && Value() == Pool(map[], {})
    {
      this.cap := cap;
      sessions, cancelled := map[], {};
    }

    /** Every removal path goes through this: the entry leaves and its agent is cancelled. */
    method RemoveAndCancel(sid: Sid)
      modifies this
      ensures Value() == Without(old(Value()), {sid})
    {
      if sid in sessions {
        cancelled := cancelled + {sessions[sid].agent};
        sessions := sessions - {sid};
      }
    }

    method EvictLru() returns (ghost victims: set<Sid>)
      modifies this
      ensures IsEviction(old(sessions), victims)
      ensures Value() == Without(old(Value()), victims)
    {
      victims := {};
      if sessions != map[] {
        var best :| best in sessions;
        var rest := sessions.Keys - {best};
        while rest != {}
          invariant best in sessions && rest <= sessions.Keys
          invariant forall k <- sessions.Keys - rest :: sessions[best].lastActive <= sessions[k].lastActive
        {
          var k :| k in rest;
          if sessions[k].lastActive < sessions[best].lastActive {
            best := k;
          }
          rest := rest - {k};
        }
        victims := {best};
        RemoveAndCancel(best);
      }
    }

    /** The end of `create`: `live` has a fresh agent, which is already running. */
    method Insert(sid: Sid, live: Live) returns (ghost victims: set<Sid>)
      modifies this
      ensures MakesRoom(old(Value()), cap, sid, victims)
      ensures Value() == Put(Without(old(Value()), victims), sid, live)
    {
      victims := {};
      if sid !in sessions && |sessions| >= cap {
        victims := EvictLru();
      }
      if sid in sessions {
        cancelled := cancelled + {sessions[sid].agent};
      }
      sessions := sessions[sid := live];
    }

    method SweepIdle(now: Time, timeout: nat)
      modifies this
      ensures Value() == Without(old(Value()), Idle(old(sessions), now, timeout))
    {
      var idle := Idle(sessions, now, timeout);
      var todo := idle;
      while todo != {}
        invariant todo <= idle <= old(sessions).Keys
        invariant Value() == Without(old(Value()), idle - todo)
      {
        var sid :| sid in todo;
        WithoutOneMore(old(Value()), idle - todo, sid);
        RemoveAndCancel(sid);
        todo := todo - {sid};
        assert idle - todo == (idle - (todo + {sid})) + {sid};
      }
    }

    method ShutdownAll()
      modifies this
      ensures Value() == Without(old(Value()), old(sessions).Keys)
    {
      var all := sessions.Keys;
      while sessions != map[]
        invariant sessions.Keys <= all
        invariant Value() == Without(old(Value()), all - sessions.Keys)
        decreases sessions.Keys
      {
        var sid :| sid in sessions;
        WithoutOneMore(old(Value()), all - sessions.Keys, sid);
        assert all - (sessions.Keys - {sid}) == (all - sessions.Keys) + {sid};
        RemoveAndCancel(sid);
      }
      assert all - sessions.Keys == all;
    }
  }

  lemma WithoutOneMore(p: Pool, ids: set<Sid>, sid: Sid)
    ensures Without(Without(p, ids), {sid}) == Without(p, ids + {sid})
  {
    var both := Without(Without(p, ids), {sid});
    assert both.sessions == Without(p, ids + {sid}).sessions;
    assert both.cancelled == Without(p, ids + {sid}).cancelled by {
      forall a | a in AgentsOf(p.sessions, ids + {sid}) ensures a in both.cancelled {
        var k :| k in p.sessions && k in ids + {sid} && p.sessions[k].agent == a;
        if k !in ids {
          assert k in Without(p, ids).sessions;
        }
      }
    }
  }

  // ---------------------------------------------------------------- every run

  /** `starting` are the agents that `create` has spawned but not yet put into the map. */
  datatype State = State(pool: Pool, starting: set<Agent>, spawned: nat)

  const INITIAL := State(Pool(map[], {}), {}, 0)

  datatype Step =
    | Spawn
    | Insert(agent: Agent, sid: Sid, now: Time, victims: set<Sid>)
    | Touch(sid: Sid, now: Time)
    | Remove(sid: Sid)
    | SweepIdle(now: Time, timeout: nat)
    | StopAgent(sid: Sid)
    | ShutdownAll

  ghost predicate Enabled(cap: nat, s: State, a: Step) {
    match a
    case Insert(agent, sid, _, victims) => agent in s.starting && MakesRoom(s.pool, cap, sid, victims)
    case _ => true
  }

  function Next(s: State, a: Step): State {
    var p := s.pool;
    match a
    case Spawn => s.(starting := s.starting + {s.spawned}, spawned := s.spawned + 1)
    case Insert(agent, sid, now, victims) =>
      s.(pool := Put(Without(p, victims), sid, Live(agent, now)), starting := s.starting - {agent})
    case Touch(sid, now) =>
      if sid in p.sessions then
        s.(pool := p.(sessions := p.sessions[sid := p.sessions[sid].(lastActive := now)]))
      else s
    case Remove(sid) => s.(pool := Without(p, {sid}))
    case SweepIdle(now, timeout) => s.(pool := Without(p, Idle(p.sessions, now, timeout)))
    case StopAgent(sid) => s.(pool := p.(cancelled := p.cancelled + AgentsOf(p.sessions, {sid})))
    case ShutdownAll => s.(pool := Without(p, p.sessions.Keys))
  }

  ghost predicate IsRun(cap: nat, states: seq<State>, steps: seq<Step>) {
    && |states| == |steps| + 1
    && states[0] == INITIAL
    && forall i {:trigger steps[i]} :: 0 <= i < |steps| ==>
         Enabled(cap, states[i], steps[i]) && states[i + 1] == Next(states[i], steps[i])
  }

  predicate IsLive(p: Pool, agent: Agent) {
    agent in AgentsOf(p.sessions, p.sessions.Keys)
  }

  /** No two sessions share an agent, and no session's agent is still starting. */
  ghost predicate OwnAgents(s: State) {
    && (forall k, k' ::
          && k in s.pool.sessions && k' in s.pool.sessions
          && s.pool.sessions[k].agent == s.pool.sessions[k'].agent
          ==> k == k')
    && (forall k :: k in s.pool.sessions ==>
          s.pool.sessions[k].agent !in s.starting && s.pool.sessions[k].agent < s.spawned)
    && (forall a :: a in s.starting ==> a < s.spawned && a !in s.pool.cancelled)
    && (forall a :: a in s.pool.cancelled ==> a < s.spawned)
  }

  /** Every agent ever spawned is starting, live or cancelled. */
  ghost predicate NoneLeaks(s: State) {
    forall a: nat :: a < s.spawned ==> a in s.starting || IsLive(s.pool, a) || a in s.pool.cancelled
  }

  predicate WithinCapacity(cap: nat, s: State) {
    |s.pool.sessions| <= if cap == 0 then 1 else cap
  }

  lemma RemovalShrinks(p: Pool, ids: set<Sid>)
    ensures |Without(p, ids).sessions| <= |p.sessions|
  {
    KeysCount(p.sessions);
    KeysCount(p.sessions - ids);
    SubsetCount(p.sessions.Keys - ids, p.sessions.Keys);
    assert (p.sessions - ids).Keys == p.sessions.Keys - ids;
  }

  lemma EvictionMakesOnePlace(p: Pool, victims: set<Sid>)
    requires IsEviction(p.sessions, victims) && p.sessions != map[]
    ensures |Without(p, victims).sessions| == |p.sessions| - 1
  {
    var v: Sid :| IsOldest(p.sessions, v) && victims == {v};
    KeysCount(p.sessions);
    KeysCount(p.sessions - victims);
    assert (p.sessions - victims).Keys == p.sessions.Keys - {v};
  }

  lemma PutCount(p: Pool, sid: Sid, live: Live)
    ensures |Put(p, sid, live).sessions| == if sid in p.sessions then |p.sessions| else |p.sessions| + 1
  {
    var after := p.sessions[sid := live];
    KeysCount(p.sessions);
    KeysCount(after);
    if sid in p.sessions {
      assert after.Keys == p.sessions.Keys;
    } else {
      assert after.Keys == p.sessions.Keys + {sid};
    }
  }

  lemma KeysCount(m: map<Sid, Live>)
    ensures |m| == |m.Keys|
  {
  }

  lemma {:induction false} SubsetCount<T>(a: set<T>, b: set<T>)
    requires a <= b
    ensures |a| <= |b|
  {
    if a != {} {
      var x :| x in a;
      SubsetCount(a - {x}, b - {x});
    }
  }

  lemma InsertWithinCapacity(cap: nat, p: Pool, sid: Sid, live: Live, victims: set<Sid>)
    requires MakesRoom(p, cap, sid, victims)
    requires |p.sessions| <= if cap == 0 then 1 else cap
    ensures |Put(Without(p, victims), sid, live).sessions| <= if cap == 0 then 1 else cap
  {
    hide Without, Put, IsEviction;
    PutCount(Without(p, victims), sid, live);
    if MustEvict(p, cap, sid) && p.sessions != map[] {
      EvictionMakesOnePlace(p, victims);
    } else {
      RemovalShrinks(p, victims);
      KeepsKey(p, sid, victims);
    }
  }

  lemma KeepsKey(p: Pool, sid: Sid, victims: set<Sid>)
    ensures victims == {} ==> (sid in Without(p, victims).sessions <==> sid in p.sessions)
    ensures p.sessions == map[] ==> |Without(p, victims).sessions| == 0
  {
    RemovalShrinks(p, victims);
  }

  lemma CapacityStep(cap: nat, s: State, a: Step)
    requires Enabled(cap, s, a) && WithinCapacity(cap, s)
    ensures WithinCapacity(cap, Next(s, a))
  {
    hide Without, Put, MakesRoom;
    var p := s.pool;
    match a
    case Insert(agent, sid, now, victims) => InsertWithinCapacity(cap, p, sid, Live(agent, now), victims);
    case Touch(sid, now) =>
      if sid in p.sessions {
        KeysCount(p.sessions);
        KeysCount(Next(s, a).pool.sessions);
        assert Next(s, a).pool.sessions.Keys == p.sessions.Keys;
      }
    case Remove(sid) => RemovalShrinks(p, {sid});
    case SweepIdle(now, timeout) => RemovalShrinks(p, Idle(p.sessions, now, timeout));
    case ShutdownAll => RemovalShrinks(p, p.sessions.Keys);
    case Spawn =>
    case StopAgent(_) =>
  }

  /** Whoever is live before the step and not after it has been cancelled by it. */
  lemma LeaversAreCancelled(cap: nat, s: State, a: Step, agent: Agent)
    requires Enabled(cap, s, a) && IsLive(s.pool, agent)
    ensures IsLive(Next(s, a).pool, agent) || agent in Next(s, a).pool.cancelled
  {
    var k :| k in s.pool.sessions && s.pool.sessions[k].agent == agent;
    var after := Next(s, a).pool;
    if k in after.sessions && after.sessions[k].agent == agent {
    } else if a.Insert? {
      if k in a.victims {
        assert agent in AgentsOf(s.pool.sessions, a.victims);
      } else {
        assert k == a.sid;
        assert agent in AgentsOf(Without(s.pool, a.victims).sessions, {k});
      }
    }
  }

  lemma OwnAgentsStep(cap: nat, s: State, a: Step)
    requires Enabled(cap, s, a) && OwnAgents(s)
    ensures OwnAgents(Next(s, a))
  {
    if a.Insert? {
      InsertKeepsOwnAgents(cap, s, a);
    }
  }

  lemma InsertKeepsOwnAgents(cap: nat, s: State, a: Step)
    requires Enabled(cap, s, a) && a.Insert? && OwnAgents(s)
    ensures OwnAgents(Next(s, a))
  {
    var s' := Next(s, a);
    forall k | k in s'.pool.sessions && k != a.sid
      ensures k in s.pool.sessions && s'.pool.sessions[k] == s.pool.sessions[k]
    {
    }
    forall c | c in s'.pool.cancelled
      ensures c in s.pool.cancelled || exists k :: k in s.pool.sessions && s.pool.sessions[k].agent == c
    {
    }
  }

  lemma NoneLeaksStep(cap: nat, s: State, a: Step)
    requires Enabled(cap, s, a) && NoneLeaks(s)
    ensures NoneLeaks(Next(s, a))
  {
    var s' := Next(s, a);
    forall agent: nat | agent < s'.spawned
      ensures agent in s'.starting || IsLive(s'.pool, agent) || agent in s'.pool.cancelled
    {
      if agent < s.spawned && IsLive(s.pool, agent) {
        LeaversAreCancelled(cap, s, a, agent);
      } else if a.Insert? && agent == a.agent {
        assert s'.pool.sessions[a.sid].agent == agent;
      } else if agent < s.spawned && agent in s.pool.cancelled {
        CancelledStays(s, a, agent);
      }
    }
  }

  lemma CancelledStays(s: State, a: Step, agent: Agent)
    requires agent in s.pool.cancelled
    ensures agent in Next(s, a).pool.cancelled
  {
  }

  /** In every run the map stays within `max(cap, 1)` and no spawned agent leaks. */
  lemma {:induction false} Invariant(cap: nat, states: seq<State>, steps: seq<Step>, n: nat)
    requires IsRun(cap, states, steps) && n < |states|
    ensures WithinCapacity(cap, states[n]) && OwnAgents(states[n]) && NoneLeaks(states[n])
  {
    if n > 0 {
      Invariant(cap, states, steps, n - 1);
      CapacityStep(cap, states[n - 1], steps[n - 1]);
      OwnAgentsStep(cap, states[n - 1], steps[n - 1]);
      NoneLeaksStep(cap, states[n - 1], steps[n - 1]);
    }
  }

  /** Once out of the map, by whatever path, an agent stays out and cancelled. */
  lemma {:induction false} OutMeansCancelledForGood(cap: nat, states: seq<State>, steps: seq<Step>,
                                                     m: nat, n: nat, agent: Agent)
    requires IsRun(cap, states, steps) && m <= n < |states|
    requires IsLive(states[m].pool, agent) && !IsLive(states[n].pool, agent)
    ensures agent in states[n].pool.cancelled
  {
    Invariant(cap, states, steps, n);
    Invariant(cap, states, steps, m);
    StartedOnce(cap, states, steps, m, n, agent);
  }

  lemma {:induction false} StartedOnce(cap: nat, states: seq<State>, steps: seq<Step>, m: nat, n: nat, agent: Agent)
    requires IsRun(cap, states, steps) && m <= n < |states|
    requires agent < states[m].spawned && agent !in states[m].starting
    ensures agent < states[n].spawned && agent !in states[n].starting
  {
    if m < n {
      StartedOnce(cap, states, steps, m, n - 1, agent);
      assert states[n] == Next(states[n - 1], steps[n - 1]);
    }
  }

  /** A rebuild in place evicts nobody: only the old agent of that id is cancelled. */
  lemma RebuildEvictsNobody(cap: nat, s: State, a: Step)
    requires Enabled(cap, s, a) && a.Insert? && a.sid in s.pool.sessions
    ensures Next(s, a).pool.sessions.Keys == s.pool.sessions.Keys
    ensures forall k <- s.pool.sessions :: k != a.sid ==> Next(s, a).pool.sessions[k] == s.pool.sessions[k]
    ensures Next(s, a).pool.cancelled == s.pool.cancelled + {s.pool.sessions[a.sid].agent}
  {
    assert Without(s.pool, {}).sessions == s.pool.sessions;
    assert AgentsOf(s.pool.sessions, {a.sid}) == {s.pool.sessions[a.sid].agent};
  }

  /** What an insertion evicts was active no later than any session it leaves. */
  lemma SurvivorsAreYounger(cap: nat, s: State, a: Step, gone: Sid, kept: Sid)
    requires Enabled(cap, s, a) && a.Insert?
    requires gone in s.pool.sessions && gone !in Next(s, a).pool.sessions
    requires kept in s.pool.sessions && kept in Next(s, a).pool.sessions
    ensures |s.pool.sessions| >= cap && a.sid !in s.pool.sessions
    ensures s.pool.sessions[gone].lastActive <= s.pool.sessions[kept].lastActive
    ensures gone != kept && s.pool.sessions.Keys == {gone} + (Next(s, a).pool.sessions.Keys - {a.sid})
  {
    assert gone in a.victims;
  }

  /** Only a stop cancels an agent that stays in the map: every other step cancels just the leavers. */
  lemma OnlyLeaversAreCancelled(cap: nat, s: State, a: Step, agent: Agent)
    requires Enabled(cap, s, a) && OwnAgents(s) && !a.StopAgent?
    requires agent !in s.pool.cancelled && agent in Next(s, a).pool.cancelled
    ensures IsLive(s.pool, agent) && !IsLive(Next(s, a).pool, agent)
  {
  }

  // ---------------------------------------------------------------- which agents are live

  /** The step ends the session `sid`: evicted, replaced, removed, idle for too long, or at a shutdown. */
  predicate Leaves(s: State, a: Step, sid: Sid) {
    sid in s.pool.sessions
    && match a
       case Insert(_, other, _, victims) => other == sid || sid in victims
       case Remove(other) => other == sid
       case SweepIdle(now, timeout) => now > s.pool.sessions[sid].lastActive + timeout
       case ShutdownAll => true
       case _ => false
  }

  predicate Runs(p: Pool, sid: Sid, agent: Agent) {
    sid in p.sessions && p.sessions[sid].agent == agent
  }

  lemma RunsStep(cap: nat, s: State, a: Step, sid: Sid, agent: Agent)
    requires Enabled(cap, s, a)
    ensures Runs(Next(s, a).pool, sid, agent)
       <==> (Runs(s.pool, sid, agent) && !Leaves(s, a, sid)) || (a.Insert? && a.sid == sid && a.agent == agent)
  {
  }

  ghost predicate RunsSince(states: seq<State>, steps: seq<Step>, n: nat, sid: Sid, agent: Agent)
    requires n <= |steps| && n <= |states|
  {
    exists k: nat {:trigger steps[k]} ::
      && k < n && steps[k].Insert? && steps[k].sid == sid && steps[k].agent == agent
      && forall j {:trigger steps[j]} :: k < j < n ==> !Leaves(states[j], steps[j], sid)
  }

  lemma RunsSinceOneMore(states: seq<State>, steps: seq<Step>, n: nat, sid: Sid, agent: Agent)
    requires n < |steps| && n < |states|
    ensures RunsSince(states, steps, n + 1, sid, agent)
       <==> || (RunsSince(states, steps, n, sid, agent) && !Leaves(states[n], steps[n], sid))
            || (steps[n].Insert? && steps[n].sid == sid && steps[n].agent == agent)
  {
    hide Leaves;
  }

  lemma NobodyRuns(states: seq<State>, steps: seq<Step>, sid: Sid, agent: Agent)
    requires |states| > 0 && states[0] == INITIAL
    ensures !Runs(states[0].pool, sid, agent) && !RunsSince(states, steps, 0, sid, agent)
  {
  }

  /** An agent runs a session from its insertion until it leaves in one of these ways. */
  lemma {:induction false} RunsIff(
      cap: nat, states: seq<State>, steps: seq<Step>, n: nat, sid: Sid, agent: Agent)
    requires IsRun(cap, states, steps) && n < |states|
    ensures Runs(states[n].pool, sid, agent) <==> RunsSince(states, steps, n, sid, agent)
  {
    hide Leaves, Enabled, Next, Runs, RunsSince;
    if n == 0 {
      NobodyRuns(states, steps, sid, agent);
    } else {
      RunsIff(cap, states, steps, n - 1, sid, agent);
      RunsSinceOneMore(states, steps, n - 1, sid, agent);
      RunsStep(cap, states[n - 1], steps[n - 1], sid, agent);
    }
  }

  /** The step cancels `agent`: it stops it, or ends the session that it runs. */
  ghost predicate Cancels(s: State, a: Step, agent: Agent) {
    exists sid :: Runs(s.pool, sid, agent) && (a == StopAgent(sid) || Leaves(s, a, sid))
  }

  lemma CancelsOnce(cap: nat, s: State, a: Step, sid: Sid)
    requires Enabled(cap, s, a) && sid in s.pool.sessions && (a == StopAgent(sid) || Leaves(s, a, sid))
    ensures s.pool.sessions[sid].agent in Next(s, a).pool.cancelled
  {
    if a.Insert? && sid !in a.victims {
      assert sid in Without(s.pool, a.victims).sessions;
    }
  }

  lemma CancelledByWhom(cap: nat, s: State, a: Step, agent: Agent) returns (sid: Sid)
    requires Enabled(cap, s, a) && agent in Next(s, a).pool.cancelled && agent !in s.pool.cancelled
    ensures Runs(s.pool, sid, agent) && (a == StopAgent(sid) || Leaves(s, a, sid))
  {
    if a.Insert? {
      if agent in AgentsOf(s.pool.sessions, a.victims) {
        sid :| Runs(s.pool, sid, agent) && sid in a.victims;
      } else {
        sid := a.sid;
      }
    } else if a.StopAgent? {
      sid := a.sid;
    } else {
      sid :| Runs(s.pool, sid, agent) && sid !in Next(s, a).pool.sessions;
    }
  }

  lemma CancelledStep(cap: nat, s: State, a: Step, agent: Agent)
    requires Enabled(cap, s, a)
    ensures agent in Next(s, a).pool.cancelled <==> agent in s.pool.cancelled || Cancels(s, a, agent)
  {
    hide Next, Enabled, Leaves;
    if agent in s.pool.cancelled {
      CancelledStays(s, a, agent);
    } else if agent in Next(s, a).pool.cancelled {
      var sid := CancelledByWhom(cap, s, a, agent);
    } else if Cancels(s, a, agent) {
      var sid :| Runs(s.pool, sid, agent) && (a == StopAgent(sid) || Leaves(s, a, sid));
      CancelsOnce(cap, s, a, sid);
    }
  }

  ghost predicate CancelledBefore(states: seq<State>, steps: seq<Step>, n: nat, agent: Agent)
    requires n <= |steps| && n <= |states|
  {
    exists k: nat {:trigger steps[k]} :: k < n && Cancels(states[k], steps[k], agent)
  }

  /** And it has been cancelled exactly if some step did that. */
  lemma {:induction false} CancelledIff(cap: nat, states: seq<State>, steps: seq<Step>, n: nat, agent: Agent)
    requires IsRun(cap, states, steps) && n < |states|
    ensures agent in states[n].pool.cancelled <==> CancelledBefore(states, steps, n, agent)
  {
    if n > 0 {
      CancelledIff(cap, states, steps, n - 1, agent);
      hide Cancels, Enabled, Next;
      CancelledStep(cap, states[n - 1], steps[n - 1], agent);
    }
  }
}
