/**
 When deleting sessions can deadlock (`delete_session`, `delete_sidechain_list` and
 `with_session_lock` in daemon/src/session_pool.rs).
 */
module Deadlock {
  /**
   A delete asks for the locks of a session's sidechains inside its own section. Here is the exact
   condition under which some run of the machine of `LockRegistry` reaches tasks that wait for
   each other in a circle.
   */

  import opened LockRegistry

  /** Each id of `ids` has the next one as its recorded parent, and the last is the first again. */
  ghost predicate IsCycle(parent: map<Id, Id>, ids: seq<Id>) {
    && |ids| > 1 && ids[0] == ids[|ids| - 1]
    && forall i {:trigger ids[i]} :: 0 <= i < |ids| - 1 ==> ids[i] in parent && parent[ids[i]] == ids[i + 1]
  }

  ghost predicate HasCycle(parent: map<Id, Id>) {
    exists ids :: IsCycle(parent, ids)
  }

  /** Tasks that wait for each other in a circle. */
  ghost predicate IsWaitCycle(s: State, ts: seq<Task>) {
    |ts| > 1 && WaitChain(s, ts) && ts[0] == ts[|ts| - 1]
  }

  ghost predicate ReachesWaitCycle(parent: map<Id, Id>) {
    exists states: seq<State>, steps: seq<Step>, n: nat, ts: seq<Task> ::
      IsRun(parent, states, steps) && n < |states| && IsWaitCycle(states[n], ts)
  }

  lemma EverybodyWaits(s: State, ts: seq<Task>, i: nat)
    requires IsWaitCycle(s, ts) && i < |ts|
    ensures TopIs(s, ts[i], Waiting)
  {
    if i < |ts| - 1 {
      assert WaitsOn(s, ts[i], ts[i + 1]);
    } else {
      assert WaitsOn(s, ts[0], ts[1]);
    }
  }

  /** A wait cycle is a cycle of parents: the ids waited for, from the last task to the first. */
  lemma WaitCycleMakesCycle(parent: map<Id, Id>, s: State, ts: seq<Task>) returns (ids: seq<Id>)
    requires Inv(parent, s) && IsWaitCycle(s, ts)
    ensures IsCycle(parent, ids)
    ensures |ids| == |ts| && forall i {:trigger ids[i]} :: 0 <= i < |ids| ==> ids[i] == TopId(s, ts[|ts| - 1 - i])
  {
    hide Inv, TopIs, WaitsOn, TopId;
    var n := |ts| - 1;
    ids := seq(|ts|, i requires 0 <= i < |ts| => TopId(s, ts[n - i]));
    forall i {:trigger ids[i]} | 0 <= i < |ids| - 1 ensures ids[i] in parent && parent[ids[i]] == ids[i + 1] {
      var k := n - i - 1;
      assert WaitsOn(s, ts[k], ts[k + 1]);
      EverybodyWaits(s, ts, k + 1);
      WaitedForIsParent(parent, s, ts[k], ts[k + 1]);
    }
  }

  /** A cycle that repeats no id, written from parent to sidechain. */
  ghost predicate IsRing(parent: map<Id, Id>, ring: seq<Id>) {
    && ring != []
    && (forall i, j :: 0 <= i < j < |ring| ==> ring[i] != ring[j])
    && (forall i {:trigger After(ring, i)} :: 0 <= i < |ring| ==>
          ring[After(ring, i)] in parent && parent[ring[After(ring, i)]] == ring[i])
  }

  function After(ring: seq<Id>, i: nat): (j: nat)
    requires i < |ring|
    ensures j < |ring|
  {
    if i + 1 < |ring| then i + 1 else 0
  }

  /** A cycle that comes back to an id on the way contains a shorter one. */
  lemma Shortcut(parent: map<Id, Id>, ids: seq<Id>, i: nat, j: nat)
    requires IsCycle(parent, ids) && i < j < |ids| - 1 && ids[i] == ids[j]
    ensures IsCycle(parent, ids[i..j + 1])
  {
    var shorter := ids[i..j + 1];
    forall k {:trigger shorter[k]} | 0 <= k < |shorter| - 1
      ensures shorter[k] in parent && parent[shorter[k]] == shorter[k + 1]
    {
      assert shorter[k] == ids[i + k] && shorter[k + 1] == ids[i + k + 1];
    }
  }

  /** A cycle that repeats nothing else, read backwards, is a ring. */
  lemma Reversed(parent: map<Id, Id>, ids: seq<Id>) returns (ring: seq<Id>)
    requires IsCycle(parent, ids)
    requires forall i, j :: 0 <= i < j < |ids| - 1 ==> ids[i] != ids[j]
    ensures IsRing(parent, ring)
  {
    var n := |ids| - 1;
    ring := seq(n, i requires 0 <= i < n => ids[n - 1 - i]);
    forall i {:trigger After(ring, i)} | 0 <= i < |ring|
      ensures ring[After(ring, i)] in parent && parent[ring[After(ring, i)]] == ring[i]
    {
      var k := if i + 1 < n then n - 2 - i else n - 1;
      assert ids[k] in parent && parent[ids[k]] == ids[k + 1];
    }
    forall i, j | 0 <= i < j < |ring| ensures ring[i] != ring[j] {
      assert ids[n - 1 - j] != ids[n - 1 - i];
    }
  }

  /** Every cycle contains one that repeats nothing. */
  lemma {:induction false} CycleHasRing(parent: map<Id, Id>, ids: seq<Id>) returns (ring: seq<Id>)
    requires IsCycle(parent, ids)
    ensures IsRing(parent, ring)
    decreases |ids|
  {
    hide IsRing;
    if i: nat, j: nat :| i < j < |ids| - 1 && ids[i] == ids[j] {
      Shortcut(parent, ids, i, j);
      ring := CycleHasRing(parent, ids[i..j + 1]);
    } else {
      ring := Reversed(parent, ids);
    }
  }

  /** The first `k` tasks are each inside the section of their id of the ring. */
  ghost predicate EnteredUpTo(s: State, ring: seq<Id>, k: nat)
    requires k <= |ring|
  {
    && s.nextLock == k
    && (forall i: nat :: i < k ==> EntersAt(s, ring, i) && Stack(s, i) == [Frame(ring[i], i, Holding)])
    && (forall i: nat {:trigger ring[i]} :: k <= i < |ring| ==> ring[i] !in s.locks)
    && (forall l: Lock :: l in s.owner ==> l < k)
    && (forall t: Task :: k <= t ==> Stack(s, t) == [])
  }

  ghost predicate EntersAt(s: State, ring: seq<Id>, i: nat)
    requires i < |ring|
  {
    && ring[i] in s.locks && s.locks[ring[i]] == i
    && i in s.owner && s.owner[i] == i
  }

  /** All tasks are inside, and the first `k` have asked for the sidechain of their session. */
  ghost predicate AskedUpTo(s: State, ring: seq<Id>, k: nat)
    requires k <= |ring|
  {
    && (forall i: nat :: i < |ring| ==> EntersAt(s, ring, i))
    && (forall i: nat :: i < k ==>
          Stack(s, i) == [Frame(ring[i], i, Holding), Frame(ring[After(ring, i)], After(ring, i), Waiting)])
    && (forall i: nat :: k <= i < |ring| ==> Stack(s, i) == [Frame(ring[i], i, Holding)])
  }

  lemma Extend(parent: map<Id, Id>, states: seq<State>, steps: seq<Step>, a: Step)
    returns (states': seq<State>, steps': seq<Step>)
    requires |states| == |steps| + 1 && IsRun(parent, states, steps) && Enabled(parent, states[|steps|], a)
    ensures IsRun(parent, states', steps') && |states'| == |steps'| + 1 == |steps| + 2
    ensures states'[|steps'|] == Next(parent, states[|steps|], a)
  {
    states', steps' := states + [Next(parent, states[|steps|], a)], steps + [a];
    forall i {:trigger steps'[i]} | 0 <= i < |steps'|
      ensures Enabled(parent, states'[i], steps'[i]) && states'[i + 1] == Next(parent, states'[i], steps'[i])
    {
      if i < |steps| {
        assert steps'[i] == steps[i] && states'[i] == states[i] && states'[i + 1] == states[i + 1];
      }
    }
  }

  /** What a task's call does: a new innermost frame, and nothing else. */
  lemma CallEffect(parent: map<Id, Id>, s: State, t: Task, id: Id)
    requires Enabled(parent, s, Call(t, id))
    ensures var s' := Next(parent, s, Call(t, id));
            && Stack(s', t) == Stack(s, t) + [Frame(id, 0, Wanting)]
            && (forall u: Task :: u != t ==> Stack(s', u) == Stack(s, u))
            && s'.locks == s.locks && s'.owner == s.owner && s'.nextLock == s.nextLock
  {
  }

  /** What cloning does when the innermost frame is `Frame(id, 0, Wanting)` on top of `below`. */
  lemma CloneEffect(parent: map<Id, Id>, s: State, t: Task, below: seq<Frame>, id: Id)
    requires Stack(s, t) == below + [Frame(id, 0, Wanting)]
    ensures Enabled(parent, s, Clone(t))
    ensures var s' := Next(parent, s, Clone(t));
            && s'.locks == WithEntry(s.locks, id, s.nextLock)
            && Stack(s', t) == below + [Frame(id, s'.locks[id], Waiting)]
            && (forall u: Task :: u != t ==> Stack(s', u) == Stack(s, u))
            && s'.owner == s.owner && s'.nextLock == if id in s.locks then s.nextLock else s.nextLock + 1
  {
  }

  lemma AcquireEffect(parent: map<Id, Id>, s: State, t: Task, id: Id, l: Lock)
    requires Stack(s, t) == [Frame(id, l, Waiting)] && l !in s.owner
    ensures Enabled(parent, s, Acquire(t))
    ensures var s' := Next(parent, s, Acquire(t));
            && Stack(s', t) == [Frame(id, l, Holding)]
            && (forall u: Task :: u != t ==> Stack(s', u) == Stack(s, u))
            && s'.locks == s.locks && s'.owner == s.owner[l := t] && s'.nextLock == s.nextLock
  {
  }

  lemma EntersNext(parent: map<Id, Id>, s: State, ring: seq<Id>, k: nat)
    requires IsRing(parent, ring) && k < |ring| && EnteredUpTo(s, ring, k)
    ensures Enabled(parent, s, Call(k, ring[k]))
    ensures var s1 := Next(parent, s, Call(k, ring[k]));
            && Enabled(parent, s1, Clone(k))
            && var s2 := Next(parent, s1, Clone(k));
            && Enabled(parent, s2, Acquire(k))
            && EnteredUpTo(Next(parent, s2, Acquire(k)), ring, k + 1)
  {
    assert Enabled(parent, s, Call(k, ring[k]));
    CallEffect(parent, s, k, ring[k]);
    hide Next, Stack;
    var s1 := Next(parent, s, Call(k, ring[k]));
    CloneEffect(parent, s1, k, [], ring[k]);
    var s2 := Next(parent, s1, Clone(k));
    assert Stack(s2, k) == [Frame(ring[k], k, Waiting)];
    AcquireEffect(parent, s2, k, ring[k], k);
    var s3 := Next(parent, s2, Acquire(k));
    hide Enabled, EnteredUpTo, IsRing;
    OneMoreEntered(parent, s, s3, ring, k);
  }

  lemma OneMoreEntered(parent: map<Id, Id>, s: State, s': State, ring: seq<Id>, k: nat)
    requires IsRing(parent, ring) && k < |ring| && EnteredUpTo(s, ring, k)
    requires Stack(s', k) == [Frame(ring[k], k, Holding)]
    requires forall u: Task :: u != k ==> Stack(s', u) == Stack(s, u)
    requires s'.locks == s.locks[ring[k] := k] && s'.owner == s.owner[k := k] && s'.nextLock == k + 1
    ensures EnteredUpTo(s', ring, k + 1)
  {
    hide Stack;
    forall i: nat | i < k + 1 ensures EntersAt(s', ring, i) && Stack(s', i) == [Frame(ring[i], i, Holding)] {
      assert i < k ==> EntersAt(s, ring, i);
    }
  }

  lemma AsksNext(parent: map<Id, Id>, s: State, ring: seq<Id>, k: nat)
    requires IsRing(parent, ring) && k < |ring| && AskedUpTo(s, ring, k)
    ensures Enabled(parent, s, Call(k, ring[After(ring, k)]))
    ensures var s1 := Next(parent, s, Call(k, ring[After(ring, k)]));
            && Enabled(parent, s1, Clone(k))
            && AskedUpTo(Next(parent, s1, Clone(k)), ring, k + 1)
  {
    var j := After(ring, k);
    assert Stack(s, k) == [Frame(ring[k], k, Holding)];
    assert parent[ring[After(ring, k)]] == ring[k];
    assert Enabled(parent, s, Call(k, ring[j]));
    CallEffect(parent, s, k, ring[j]);
    hide Next, Stack;
    var s1 := Next(parent, s, Call(k, ring[j]));
    CloneEffect(parent, s1, k, [Frame(ring[k], k, Holding)], ring[j]);
    var s2 := Next(parent, s1, Clone(k));
    assert EntersAt(s, ring, j);
    assert s2.locks == s.locks;
    forall i: nat | i < |ring| ensures EntersAt(s2, ring, i) {
      assert EntersAt(s, ring, i);
    }
    assert Stack(s2, k) == [Frame(ring[k], k, Holding), Frame(ring[j], j, Waiting)];
  }

  lemma NobodyEntered(parent: map<Id, Id>, ring: seq<Id>)
    ensures IsRun(parent, [INITIAL], []) && EnteredUpTo([INITIAL][0], ring, 0)
  {
  }

  /** One task after another enters the section of its id. */
  lemma {:induction false} AllEnter(parent: map<Id, Id>, ring: seq<Id>, k: nat)
    returns (states: seq<State>, steps: seq<Step>)
    requires IsRing(parent, ring) && k <= |ring|
    ensures |states| == |steps| + 1 && IsRun(parent, states, steps) && EnteredUpTo(states[|steps|], ring, k)
  {
    hide EnteredUpTo, IsRing, Enabled, Next, IsRun;
    if k == 0 {
      NobodyEntered(parent, ring);
      states, steps := [INITIAL], [];
    } else {
      states, steps := AllEnter(parent, ring, k - 1);
      EntersNext(parent, states[|steps|], ring, k - 1);
      states, steps := Extend(parent, states, steps, Call(k - 1, ring[k - 1]));
      states, steps := Extend(parent, states, steps, Clone(k - 1));
      states, steps := Extend(parent, states, steps, Acquire(k - 1));
    }
  }

  lemma NobodyAsked(s: State, ring: seq<Id>)
    requires EnteredUpTo(s, ring, |ring|)
    ensures AskedUpTo(s, ring, 0)
  {
  }

  /** Then one after another asks for the sidechain that the next one is inside. */
  lemma {:induction false} AllAsk(parent: map<Id, Id>, ring: seq<Id>, k: nat)
    returns (states: seq<State>, steps: seq<Step>)
    requires IsRing(parent, ring) && k <= |ring|
    ensures |states| == |steps| + 1 && IsRun(parent, states, steps) && AskedUpTo(states[|steps|], ring, k)
  {
    hide EnteredUpTo, AskedUpTo, IsRing, Enabled, Next, IsRun;
    if k == 0 {
      states, steps := AllEnter(parent, ring, |ring|);
      NobodyAsked(states[|steps|], ring);
    } else {
      states, steps := AllAsk(parent, ring, k - 1);
      AsksNext(parent, states[|steps|], ring, k - 1);
      states, steps := Extend(parent, states, steps, Call(k - 1, ring[After(ring, k - 1)]));
      states, steps := Extend(parent, states, steps, Clone(k - 1));
    }
  }

  /** Now they wait in a circle. */
  lemma RingIsWaitCycle(s: State, ring: seq<Id>) returns (ts: seq<Task>)
    requires ring != [] && AskedUpTo(s, ring, |ring|)
    ensures IsWaitCycle(s, ts)
  {
    var n := |ring|;
    ts := seq(n + 1, i requires 0 <= i <= n => if i < n then i else 0);
    forall i {:trigger ts[i]} | 0 <= i < |ts| - 1 ensures WaitsOn(s, ts[i], ts[i + 1]) {
      assert Stack(s, i) == [Frame(ring[i], i, Holding), Frame(ring[After(ring, i)], After(ring, i), Waiting)];
      assert EntersAt(s, ring, After(ring, i));
    }
  }

  /**
   The exact condition: some run of deletes reaches a circle of tasks waiting for each other if
   and only if the recorded parents have a cycle, of whatever length.
   */
  lemma DeadlockIffCycle(parent: map<Id, Id>)
    ensures ReachesWaitCycle(parent) <==> HasCycle(parent)
  {
    hide IsRun, Inv, IsWaitCycle, IsCycle, IsRing, AskedUpTo;
    if ReachesWaitCycle(parent) {
      var states: seq<State>, steps: seq<Step>, n: nat, ts: seq<Task> :|
        IsRun(parent, states, steps) && n < |states| && IsWaitCycle(states[n], ts);
      Invariant(parent, states, steps, n);
      var ids := WaitCycleMakesCycle(parent, states[n], ts);
    }
    if HasCycle(parent) {
      var ids :| IsCycle(parent, ids);
      var ring := CycleHasRing(parent, ids);
      RingIsNotEmpty(parent, ring);
      var states, steps := AllAsk(parent, ring, |ring|);
      var ts := RingIsWaitCycle(states[|steps|], ring);
    }
  }

  lemma RingIsNotEmpty(parent: map<Id, Id>, ring: seq<Id>)
    requires IsRing(parent, ring)
    ensures ring != []
  {
  }

  /** In particular a session recorded as its own sidechain can make its delete wait for itself. */
  lemma OwnSidechainDeadlocks(parent: map<Id, Id>, id: Id)
    requires id in parent && parent[id] == id
    ensures ReachesWaitCycle(parent)
  {
    assert IsCycle(parent, [id, id]);
    DeadlockIffCycle(parent);
  }

  /** And ranks that grow from sidechain to parent rule it out. */
  lemma RanksPreventDeadlock(parent: map<Id, Id>, rank: Id -> nat)
    requires Acyclic(parent, rank)
    ensures !ReachesWaitCycle(parent) && !HasCycle(parent)
  {
    hide IsRun, WaitChain;
    forall states: seq<State>, steps: seq<Step>, n: nat, ts: seq<Task> |
      IsRun(parent, states, steps) && n < |states| && |ts| > 1 && WaitChain(states[n], ts)
      ensures ts[0] != ts[|ts| - 1]
    {
      NoWaitCycle(parent, rank, states, steps, n, ts);
    }
    DeadlockIffCycle(parent);
  }
}
