/**
 One lock per session id, created and dropped by reference count (`with_session_lock` and its
 callers in daemon/src/session_pool.rs).
 */
module LockRegistry {
  /**
   A task clones the id's lock out of the registry, waits for it, runs its section, releases it,
   drops its clone, and then removes the registry entry if nobody else has a clone. Deleting a
   session runs the sections of its sidechains inside its own. The machine below interleaves all
   of that; the registry itself is a class whose two methods are its lock-held sections.
   */

  type Id = nat
  type Lock = nat
  type Task = nat

  // ---------------------------------------------------------------- the registry

  /** The entry of `id`, or a new lock under it. */
  function WithEntry(locks: map<Id, Lock>, id: Id, newLock: Lock): map<Id, Lock> {
    if id in locks then locks else locks[id := newLock]
  }

  /** The registry after the cleanup check: the entry goes when the registry's own reference is the last. */
  function WithoutUnused(locks: map<Id, Lock>, id: Id, strongCount: nat): map<Id, Lock> {
    if id in locks && strongCount == 1 then locks - {id} else locks
  }

  class SessionLocks {
    var locks: map<Id, Lock>
    var nextLock: Lock
    var strong: map<Lock, nat>   // the reference count of every lock ever made

    ghost predicate Valid()
      reads this
    {
      && (forall id <- locks :: locks[id] < nextLock)
      && (forall l: Lock :: l < nextLock <==> l in strong)
    }

    /** The object is what the machine's state says of it, reference counts included. */
    ghost predicate Shows(s: State)
      reads this
    {
      && locks == s.locks && nextLock == s.nextLock
      && forall l: Lock :: l < nextLock ==> l in strong && strong[l] == StrongCount(s, l)
    }

    constructor ()
      ensures Valid() && locks == map[] && nextLock == 0
    {
      locks, nextLock, strong := map[], 0, map[];
    }

    /** First section: find or create the lock of `id`, and clone it. */
    method CloneLock(id: Id) returns (lock: Lock)
      requires Valid()
      modifies this
      ensures Valid()
      ensures locks == WithEntry(old(locks), id, old(nextLock))
      ensures lock == locks[id]
      ensures nextLock == if id in old(locks) then old(nextLock) else old(nextLock) + 1
      ensures forall parent: map<Id, Id>, s: State, t: Task ::
                old(Shows(s)) && Distinct(s) && ClonesAreRegistered(s) && TopIs(s, t, Wanting) && Top(s, t).id == id ==>
                  Shows(Next(parent, s, Clone(t))) && TopIs(Next(parent, s, Clone(t)), t, Waiting)
                  && Top(Next(parent, s, Clone(t)), t).lock == lock
    {
      hide StrongCount, Distinct, ClonesAreRegistered;
      if id !in locks {
        locks, strong := locks[id := nextLock], strong[nextLock := 1];
        nextLock := nextLock + 1;
      }
      lock := locks[id];
      strong := strong[lock := strong[lock] + 1];
      forall parent: map<Id, Id>, s: State, t: Task |
        old(Shows(s)) && Distinct(s) && ClonesAreRegistered(s) && TopIs(s, t, Wanting) && Top(s, t).id == id
        ensures Shows(Next(parent, s, Clone(t)))
        ensures TopIs(Next(parent, s, Clone(t)), t, Waiting) && Top(Next(parent, s, Clone(t)), t).lock == lock
      {
        forall l: Lock ensures StrongCount(Next(parent, s, Clone(t)), l)
                            == if id !in s.locks && l == s.nextLock then 2
                               else StrongCount(s, l) + if l == lock then 1 else 0
        {
          CloneCounts(parent, s, t, l);
        }
      }
    }

    /** Between the sections: the clone goes. */
    method DropClone(lock: Lock)
      requires Valid() && lock < nextLock && strong[lock] > 0
      modifies this`strong
      ensures Valid()
      ensures strong == old(strong)[lock := old(strong)[lock] - 1]
      ensures forall parent: map<Id, Id>, s: State, t: Task ::
                old(Shows(s)) && TopIs(s, t, Unlocked) && Top(s, t).lock == lock ==>
                  Shows(Next(parent, s, Step.DropClone(t)))
    {
      hide StrongCount;
      strong := strong[lock := strong[lock] - 1];
      forall parent: map<Id, Id>, s: State, t: Task | old(Shows(s)) && TopIs(s, t, Unlocked) && Top(s, t).lock == lock
        ensures Shows(Next(parent, s, Step.DropClone(t)))
      {
        forall l: Lock ensures StrongCount(Next(parent, s, Step.DropClone(t)), l)
                            == StrongCount(s, l) - if l == lock then 1 else 0
        {
          DropCounts(parent, s, t, l);
        }
      }
    }

    /** Last section: the entry goes when the registry's own reference to its lock is the last. */
    method RemoveIfUnused(id: Id)
      requires Valid()
      modifies this
      ensures Valid()
      ensures locks
           == if id in old(locks) then WithoutUnused(old(locks), id, old(strong)[old(locks)[id]]) else old(locks)
      ensures nextLock == old(nextLock)
      ensures forall parent: map<Id, Id>, s: State, t: Task ::
                old(Shows(s)) && Distinct(s) && TopIs(s, t, Dropped) && Top(s, t).id == id ==>
                  Shows(Next(parent, s, Cleanup(t)))
    {
      hide StrongCount, Distinct;
      if id in locks && strong[locks[id]] == 1 {
        strong := strong[locks[id] := 0];
        locks := locks - {id};
      }
      forall parent: map<Id, Id>, s: State, t: Task |
        old(Shows(s)) && Distinct(s) && TopIs(s, t, Dropped) && Top(s, t).id == id
        ensures Shows(Next(parent, s, Cleanup(t)))
      {
        forall l: Lock ensures StrongCount(Next(parent, s, Cleanup(t)), l)
                            == if id in s.locks && l == s.locks[id] && StrongCount(s, l) == 1 then 0
                               else StrongCount(s, l)
        {
          CleanupCounts(parent, s, t, l);
        }
      }
    }
  }

  // ---------------------------------------------------------------- the machine

  datatype Phase = Wanting | Waiting | Holding | Unlocked | Dropped

  /** One call of `with_session_lock` in progress; `lock` means something from `Waiting` to `Unlocked`. */
  datatype Frame = Frame(id: Id, lock: Lock, phase: Phase)

  /** `owner` says who is inside which lock; a task's calls nest, innermost last. */
  datatype State = State(
    locks: map<Id, Lock>,
    nextLock: Lock,
    owner: map<Lock, Task>,
    stacks: map<Task, seq<Frame>>)

  const INITIAL := State(map[], 0, map[], map[])

  datatype Step =
    | Call(t: Task, id: Id)
    | Clone(t: Task)
    | Acquire(t: Task)
    | Release(t: Task)
    | DropClone(t: Task)
    | Cleanup(t: Task)

  function Stack(s: State, t: Task): seq<Frame> {
    if t in s.stacks then s.stacks[t] else []
  }

  /** The innermost call of `t` is in phase `p`. */
  predicate TopIs(s: State, t: Task, p: Phase) {
    Stack(s, t) != [] && Top(s, t).phase == p
  }

  function Top(s: State, t: Task): Frame
    requires Stack(s, t) != []
  {
    Stack(s, t)[|Stack(s, t)| - 1]
  }

  function WithTop(s: State, t: Task, f: Frame): State
    requires Stack(s, t) != []
  {
    s.(stacks := s.stacks[t := Stack(s, t)[|Stack(s, t)| - 1 := f]])
  }

  /** The frame `k` of task `t` has a clone of `l`. */
  predicate CloneAt(s: State, t: Task, k: nat, l: Lock) {
    && k < |Stack(s, t)| && Stack(s, t)[k].lock == l
    && (Stack(s, t)[k].phase.Waiting? || Stack(s, t)[k].phase.Holding? || Stack(s, t)[k].phase.Unlocked?)
  }

  function Clones(s: State, l: Lock): set<(Task, nat)> {
    set t, k | t in s.stacks && 0 <= k < |s.stacks[t]| && CloneAt(s, t, k, l) :: (t, k)
  }

  /** `Arc::strong_count`: the clones, and the registry's own reference. */
  function StrongCount(s: State, l: Lock): nat {
    |Clones(s, l)| + if l in s.locks.Values then 1 else 0
  }

  /**
   `parent` is the recorded parent of each sidechain. A nested call is always the one a delete
   makes: inside the section of a session, for one of its sidechains.
   */
  predicate Enabled(parent: map<Id, Id>, s: State, a: Step) {
    match a
    case Call(t, id) =>
      || Stack(s, t) == []
      || (|Stack(s, t)| == 1 && Top(s, t).phase.Holding? && id in parent && parent[id] == Top(s, t).id)
    case Clone(t) => TopIs(s, t, Wanting)
    case Acquire(t) => TopIs(s, t, Waiting) && Top(s, t).lock !in s.owner
    case Release(t) => TopIs(s, t, Holding)
    case DropClone(t) => TopIs(s, t, Unlocked)
    case Cleanup(t) => TopIs(s, t, Dropped)
  }

  function Next(parent: map<Id, Id>, s: State, a: Step): State
    requires Enabled(parent, s, a)
  {
    match a
    case Call(t, id) => s.(stacks := s.stacks[t := Stack(s, t) + [Frame(id, 0, Wanting)]])
    case Clone(t) =>
      var f := Top(s, t);
      var locks := WithEntry(s.locks, f.id, s.nextLock);
      WithTop(s, t, Frame(f.id, locks[f.id], Waiting)).(
        locks := locks, nextLock := if f.id in s.locks then s.nextLock else s.nextLock + 1)
    case Acquire(t) =>
      WithTop(s, t, Top(s, t).(phase := Holding)).(owner := s.owner[Top(s, t).lock := t])
    case Release(t) =>
      WithTop(s, t, Top(s, t).(phase := Unlocked)).(owner := s.owner - {Top(s, t).lock})
    case DropClone(t) => WithTop(s, t, Top(s, t).(phase := Dropped))
    case Cleanup(t) =>
      var id := Top(s, t).id;
      var count := if id in s.locks then StrongCount(s, s.locks[id]) else 0;
      s.(locks := WithoutUnused(s.locks, id, count),
         stacks := s.stacks[t := Stack(s, t)[..|Stack(s, t)| - 1]])
  }

  ghost predicate IsRun(parent: map<Id, Id>, states: seq<State>, steps: seq<Step>) {
    && |states| == |steps| + 1
    && states[0] == INITIAL
    && forall i {:trigger steps[i]} :: 0 <= i < |steps| ==>
         Enabled(parent, states[i], steps[i]) && states[i + 1] == Next(parent, states[i], steps[i])
  }

  // ---------------------------------------------------------------- what every step keeps

  /** A frame's position and what stands there. */
  predicate FrameAt(s: State, t: Task, k: nat, f: Frame) {
    k < |Stack(s, t)| && Stack(s, t)[k] == f
  }

  predicate HasClone(f: Frame) {
    f.phase.Waiting? || f.phase.Holding? || f.phase.Unlocked?
  }

  /** Registered locks are distinct and were handed out before. */
  ghost predicate Distinct(s: State) {
    && (forall id: Id, id': Id :: id in s.locks && id' in s.locks && s.locks[id] == s.locks[id'] ==> id == id')
    && (forall id: Id :: id in s.locks ==> s.locks[id] < s.nextLock)
  }

  /** A task that has a clone for an id has the lock the registry maps that id to. */
  ghost predicate ClonesAreRegistered(s: State) {
    forall t: Task, k: nat, f :: FrameAt(s, t, k, f) && HasClone(f) ==> f.id in s.locks && s.locks[f.id] == f.lock
  }

  /** Who is inside a lock's section owns the lock. */
  ghost predicate HeldIsOwned(s: State) {
    forall t: Task, k: nat, f ::
      FrameAt(s, t, k, f) && f.phase.Holding? ==> f.lock in s.owner && s.owner[f.lock] == t
  }

  ghost predicate HeldBy(s: State, t: Task, l: Lock) {
    exists k: nat, f :: FrameAt(s, t, k, f) && f.phase.Holding? && f.lock == l
  }

  /** Who owns a lock is inside its section. */
  ghost predicate OwnedIsHeld(s: State) {
    forall l: Lock :: l in s.owner ==> HeldBy(s, s.owner[l], l)
  }

  /** No task is inside the same lock's section twice. */
  ghost predicate HeldOnce(s: State) {
    forall t: Task, k: nat, k': nat, f, f' ::
      FrameAt(s, t, k, f) && FrameAt(s, t, k', f') && f.phase.Holding? && f'.phase.Holding? && f.lock == f'.lock
      ==> k == k'
  }

  /** Calls nest at most once, from a session into one of its sidechains. */
  ghost predicate Nested(parent: map<Id, Id>, s: State) {
    forall t: Task ::
      && |Stack(s, t)| <= 2
      && (|Stack(s, t)| == 2 ==>
            && Stack(s, t)[0].phase.Holding?
            && Stack(s, t)[1].id in parent && parent[Stack(s, t)[1].id] == Stack(s, t)[0].id)
  }

  /** An entry survives only while some task has a clone or is yet to make its cleanup check. */
  ghost predicate EntriesAreUsed(s: State) {
    forall id: Id :: id in s.locks ==> Used(s, id)
  }

  ghost predicate Used(s: State, id: Id) {
    exists t: Task, k: nat, f :: FrameAt(s, t, k, f) && f.id == id && (HasClone(f) || f.phase.Dropped?)
  }

  ghost predicate Inv(parent: map<Id, Id>, s: State) {
    && Distinct(s) && ClonesAreRegistered(s)
    && HeldIsOwned(s) && OwnedIsHeld(s) && HeldOnce(s)
    && Nested(parent, s) && EntriesAreUsed(s)
  }

  lemma ClonesIff(s: State, l: Lock)
    ensures Clones(s, l) == {} <==> forall t: Task, k: nat :: !CloneAt(s, t, k, l)
  {
    forall t: Task, k: nat | CloneAt(s, t, k, l) ensures (t, k) in Clones(s, l) {
    }
    if Clones(s, l) != {} {
      var x :| x in Clones(s, l);
      assert CloneAt(s, x.0, x.1, l);
    }
  }

  /** The cleanup check removes an entry exactly when no task has a clone of its lock. */
  lemma CountIsOneIffNoClone(s: State, id: Id)
    requires id in s.locks
    ensures StrongCount(s, s.locks[id]) == 1 <==> forall t: Task, k: nat :: !CloneAt(s, t, k, s.locks[id])
  {
    ClonesIff(s, s.locks[id]);
    assert s.locks[id] in s.locks.Values;
    assert |Clones(s, s.locks[id])| == 0 <==> Clones(s, s.locks[id]) == {};
  }

  /** Position `k` of task `t` is not the one that step `a` moves. */
  predicate Elsewhere(s: State, a: Step, t: Task, k: nat) {
    t != a.t || k + 1 < |Stack(s, t)| || (a.Call? && k < |Stack(s, t)|)
  }

  /** Elsewhere nothing moves. */
  lemma StaysElsewhere(parent: map<Id, Id>, s: State, a: Step, t: Task, k: nat)
    requires Enabled(parent, s, a) && Elsewhere(s, a, t, k)
    ensures forall f :: FrameAt(s, t, k, f) <==> FrameAt(Next(parent, s, a), t, k, f)
  {
  }

  /** What stands at the position the step moves: nothing after a cleanup, else the same call a phase on. */
  lemma MovesHere(parent: map<Id, Id>, s: State, a: Step, t: Task, k: nat, f: Frame)
    requires Enabled(parent, s, a) && !Elsewhere(s, a, t, k) && FrameAt(Next(parent, s, a), t, k, f)
    ensures t == a.t && !a.Cleanup?
    ensures a.Call? ==> f == Frame(a.id, 0, Wanting)
    ensures !a.Call? ==> k == |Stack(s, t)| - 1 && f == Moved(s, a)
  {
  }

  /** The frame that the step leaves at the top of its task's stack. */
  function Moved(s: State, a: Step): Frame
    requires !a.Call? && !a.Cleanup? && Stack(s, a.t) != []
  {
    var f := Top(s, a.t);
    match a
    case Clone(_) => Frame(f.id, WithEntry(s.locks, f.id, s.nextLock)[f.id], Waiting)
    case Acquire(_) => f.(phase := Holding)
    case Release(_) => f.(phase := Unlocked)
    case DropClone(_) => f.(phase := Dropped)
  }

  /** And it stands there. */
  lemma MovedStands(parent: map<Id, Id>, s: State, a: Step)
    requires Enabled(parent, s, a) && !a.Call? && !a.Cleanup?
    ensures FrameAt(Next(parent, s, a), a.t, |Stack(s, a.t)| - 1, Moved(s, a))
    ensures FrameAt(s, a.t, |Stack(s, a.t)| - 1, Top(s, a.t))
  {
  }

  // ---------------------------------------------------------------- what each step does to the reference counts

  lemma InClones(s: State, t: Task, k: nat, l: Lock)
    ensures (t, k) in Clones(s, l) <==> CloneAt(s, t, k, l)
  {
  }

  /** The clones after a step that changes at most the top frame of its task. */
  lemma ClonesAfter(parent: map<Id, Id>, s: State, a: Step, l: Lock)
    requires Enabled(parent, s, a) && (a.Clone? || a.DropClone? || a.Cleanup?)
    ensures var top := (a.t, |Stack(s, a.t)| - 1);
            && (a.Clone? ==>
                  var id := Top(s, a.t).id;
                  && top !in Clones(s, l)
                  && Clones(Next(parent, s, a), l)
                     == Clones(s, l) + if l == WithEntry(s.locks, id, s.nextLock)[id] then {top} else {})
            && (a.DropClone? ==>
                  && (top in Clones(s, l) <==> l == Top(s, a.t).lock)
                  && Clones(Next(parent, s, a), l) == Clones(s, l) - {top})
            && (a.Cleanup? ==> Clones(Next(parent, s, a), l) == Clones(s, l))
  {
    hide Clones;
    var s' := Next(parent, s, a);
    var top := (a.t, |Stack(s, a.t)| - 1);
    forall x: (Task, nat)
      ensures x != top ==> (x in Clones(s', l) <==> x in Clones(s, l))
      ensures x in Clones(s, l) <==> CloneAt(s, x.0, x.1, l)
      ensures x in Clones(s', l) <==> CloneAt(s', x.0, x.1, l)
    {
      InClones(s, x.0, x.1, l);
      InClones(s', x.0, x.1, l);
    }
  }

  lemma NoCloneOfNewLock(s: State)
    requires Distinct(s) && ClonesAreRegistered(s)
    ensures Clones(s, s.nextLock) == {} && s.nextLock !in s.locks.Values
  {
    if Clones(s, s.nextLock) != {} {
      var x :| x in Clones(s, s.nextLock);
      assert FrameAt(s, x.0, x.1, Stack(s, x.0)[x.1]);
    }
  }

  lemma CloneCounts(parent: map<Id, Id>, s: State, t: Task, l: Lock)
    requires TopIs(s, t, Wanting) && Distinct(s) && ClonesAreRegistered(s)
    ensures var id := Top(s, t).id;
            StrongCount(Next(parent, s, Clone(t)), l)
            == if id !in s.locks && l == s.nextLock then 2
               else StrongCount(s, l) + if id in s.locks && l == s.locks[id] then 1 else 0
  {
    var id, s' := Top(s, t).id, Next(parent, s, Clone(t));
    ClonesAfter(parent, s, Clone(t), l);
    NoCloneOfNewLock(s);
    hide Clones, Distinct, ClonesAreRegistered;
    if id !in s.locks {
      assert s'.locks.Values == s.locks.Values + {s.nextLock} by {
        assert s'.locks[id] == s.nextLock;
        forall v | v in s.locks.Values ensures v in s'.locks.Values {
          var k :| k in s.locks && s.locks[k] == v;
          assert s'.locks[k] == v;
        }
      }
    }
  }

  lemma DropCounts(parent: map<Id, Id>, s: State, t: Task, l: Lock)
    requires TopIs(s, t, Unlocked)
    ensures StrongCount(Next(parent, s, Step.DropClone(t)), l)
         == StrongCount(s, l) - if l == Top(s, t).lock then 1 else 0
  {
    ClonesAfter(parent, s, Step.DropClone(t), l);
    hide Clones;
  }

  lemma CleanupCounts(parent: map<Id, Id>, s: State, t: Task, l: Lock)
    requires TopIs(s, t, Dropped) && Distinct(s)
    ensures var id := Top(s, t).id;
            StrongCount(Next(parent, s, Cleanup(t)), l)
            == if id in s.locks && l == s.locks[id] && StrongCount(s, l) == 1 then 0 else StrongCount(s, l)
  {
    var id, s' := Top(s, t).id, Next(parent, s, Cleanup(t));
    ClonesAfter(parent, s, Cleanup(t), l);
    hide Clones;
    if id in s.locks && id !in s'.locks {
      assert s.locks[id] in s.locks.Values;
      forall v ensures v in s'.locks.Values <==> v in s.locks.Values && v != s.locks[id] {
        if v in s.locks.Values && v != s.locks[id] {
          var k :| k in s.locks && s.locks[k] == v;
          assert s'.locks[k] == v;
        }
      }
    } else {
      assert s'.locks == s.locks;
    }
  }

  lemma DistinctStep(parent: map<Id, Id>, s: State, a: Step)
    requires Enabled(parent, s, a) && Distinct(s)
    ensures Distinct(Next(parent, s, a))
  {
  }

  lemma RegisteredStep(parent: map<Id, Id>, s: State, a: Step)
    requires Enabled(parent, s, a) && ClonesAreRegistered(s)
    ensures ClonesAreRegistered(Next(parent, s, a))
  {
    var s' := Next(parent, s, a);
    forall t: Task, k: nat, f | FrameAt(s', t, k, f) && HasClone(f)
      ensures f.id in s'.locks && s'.locks[f.id] == f.lock
    {
      if Elsewhere(s, a, t, k) {
        StaysElsewhere(parent, s, a, t, k);
        assert FrameAt(s, t, k, f);
        if a.Cleanup? && f.id == Top(s, a.t).id {
          assert CloneAt(s, t, k, s.locks[f.id]);
          CountIsOneIffNoClone(s, f.id);
        }
      } else {
        MovesHere(parent, s, a, t, k, f);
        if !a.Call? {
          MovedStands(parent, s, a);
        }
      }
    }
  }

  lemma HeldIsOwnedStep(parent: map<Id, Id>, s: State, a: Step)
    requires Enabled(parent, s, a) && HeldIsOwned(s) && HeldOnce(s)
    ensures HeldIsOwned(Next(parent, s, a))
  {
    var s' := Next(parent, s, a);
    forall t: Task, k: nat, f | FrameAt(s', t, k, f) && f.phase.Holding?
      ensures f.lock in s'.owner && s'.owner[f.lock] == t
    {
      hide FrameAt;
      if Elsewhere(s, a, t, k) {
        StaysElsewhere(parent, s, a, t, k);
        assert FrameAt(s, t, k, f);
        if a.Release? {
          MovedStands(parent, s, a);
        }
      } else {
        MovesHere(parent, s, a, t, k, f);
      }
    }
  }

  lemma OwnedIsHeldStep(parent: map<Id, Id>, s: State, a: Step)
    requires Enabled(parent, s, a) && OwnedIsHeld(s)
    ensures OwnedIsHeld(Next(parent, s, a))
  {
    var s' := Next(parent, s, a);
    forall l: Lock | l in s'.owner ensures HeldBy(s', s'.owner[l], l) {
      hide FrameAt;
      if a.Acquire? && l == Top(s, a.t).lock {
        MovedStands(parent, s, a);
      } else {
        var t := s.owner[l];
        assert HeldBy(s, t, l);
        var k: nat, f :| FrameAt(s, t, k, f) && f.phase.Holding? && f.lock == l;
        HolderStays(parent, s, a, t, k, f);
      }
    }
  }

  /** A frame inside its section leaves it only by a release. */
  lemma HolderStays(parent: map<Id, Id>, s: State, a: Step, t: Task, k: nat, f: Frame)
    requires Enabled(parent, s, a) && FrameAt(s, t, k, f) && f.phase.Holding?
    requires a.Release? && t == a.t ==> f.lock != Top(s, t).lock
    ensures FrameAt(Next(parent, s, a), t, k, f)
  {
    assert Elsewhere(s, a, t, k);
    StaysElsewhere(parent, s, a, t, k);
  }

  lemma HeldOnceStep(parent: map<Id, Id>, s: State, a: Step)
    requires Enabled(parent, s, a) && HeldIsOwned(s) && HeldOnce(s)
    ensures HeldOnce(Next(parent, s, a))
  {
    var s' := Next(parent, s, a);
    forall t: Task, k: nat, k': nat, f, f' |
      FrameAt(s', t, k, f) && FrameAt(s', t, k', f') && f.phase.Holding? && f'.phase.Holding? && f.lock == f'.lock
      ensures k == k'
    {
      hide FrameAt;
      if Elsewhere(s, a, t, k) && Elsewhere(s, a, t, k') {
        StaysElsewhere(parent, s, a, t, k);
        StaysElsewhere(parent, s, a, t, k');
        assert FrameAt(s, t, k, f) && FrameAt(s, t, k', f');
      } else if Elsewhere(s, a, t, k) {
        NewHolderIsAlone(parent, s, a, t, k, f, k', f');
      } else if Elsewhere(s, a, t, k') {
        NewHolderIsAlone(parent, s, a, t, k', f', k, f);
      } else {
        MovesHere(parent, s, a, t, k, f);
        MovesHere(parent, s, a, t, k', f');
      }
    }
  }

  lemma NewHolderIsAlone(parent: map<Id, Id>, s: State, a: Step, t: Task, k: nat, f: Frame, k': nat, f': Frame)
    requires Enabled(parent, s, a) && HeldIsOwned(s)
    requires Elsewhere(s, a, t, k) && !Elsewhere(s, a, t, k')
    requires FrameAt(Next(parent, s, a), t, k, f) && FrameAt(Next(parent, s, a), t, k', f')
    requires f.phase.Holding? && f'.phase.Holding?
    ensures f.lock != f'.lock
  {
    StaysElsewhere(parent, s, a, t, k);
    assert FrameAt(s, t, k, f);
    MovesHere(parent, s, a, t, k', f');
  }

  lemma NestedStep(parent: map<Id, Id>, s: State, a: Step)
    requires Enabled(parent, s, a) && Nested(parent, s)
    ensures Nested(parent, Next(parent, s, a))
  {
    var s' := Next(parent, s, a);
    forall t: Task
      ensures |Stack(s', t)| <= 2
      ensures |Stack(s', t)| == 2 ==>
                && Stack(s', t)[0].phase.Holding?
                && Stack(s', t)[1].id in parent && parent[Stack(s', t)[1].id] == Stack(s', t)[0].id
    {
      if t != a.t {
        assert Stack(s', t) == Stack(s, t);
      } else {
        assert |Stack(s, t)| <= 2;
      }
    }
  }

  lemma UsedStep(parent: map<Id, Id>, s: State, a: Step)
    requires Enabled(parent, s, a) && EntriesAreUsed(s) && ClonesAreRegistered(s) && Distinct(s)
    ensures EntriesAreUsed(Next(parent, s, a))
  {
    var s' := Next(parent, s, a);
    forall id: Id | id in s'.locks ensures Used(s', id) {
      if a.Clone? && id == Top(s, a.t).id {
        MovedStands(parent, s, a);
      } else {
        assert Used(s, id);
        if a.Cleanup? && id == Top(s, a.t).id {
          CleanupLeavesUsed(parent, s, a);
        } else {
          var t: Task, k: nat, f :| FrameAt(s, t, k, f) && f.id == id && (HasClone(f) || f.phase.Dropped?);
          UserStays(parent, s, a, t, k, f);
        }
      }
    }
  }

  /** An entry that outlives a cleanup check for its id has a clone of its lock elsewhere. */
  lemma CleanupLeavesUsed(parent: map<Id, Id>, s: State, a: Step)
    requires Enabled(parent, s, a) && a.Cleanup? && ClonesAreRegistered(s) && Distinct(s)
    requires Top(s, a.t).id in Next(parent, s, a).locks
    ensures Used(Next(parent, s, a), Top(s, a.t).id)
  {
    var id := Top(s, a.t).id;
    CountIsOneIffNoClone(s, id);
    var t: Task, k: nat :| CloneAt(s, t, k, s.locks[id]);
    var f := Stack(s, t)[k];
    assert FrameAt(s, t, k, f);
    StaysElsewhere(parent, s, a, t, k);
  }

  lemma UserStays(parent: map<Id, Id>, s: State, a: Step, t: Task, k: nat, f: Frame)
    requires Enabled(parent, s, a) && FrameAt(s, t, k, f) && (HasClone(f) || f.phase.Dropped?)
    requires a.Cleanup? ==> f.id != Top(s, a.t).id
    ensures Used(Next(parent, s, a), f.id)
  {
    hide Used;
    if Elsewhere(s, a, t, k) {
      StaysElsewhere(parent, s, a, t, k);
      UsedBy(Next(parent, s, a), t, k, f);
    } else {
      MovedStands(parent, s, a);
      UsedBy(Next(parent, s, a), t, k, Moved(s, a));
    }
  }

  lemma UsedBy(s: State, t: Task, k: nat, f: Frame)
    requires FrameAt(s, t, k, f) && (HasClone(f) || f.phase.Dropped?)
    ensures Used(s, f.id)
  {
  }

  lemma {:induction false} Invariant(parent: map<Id, Id>, states: seq<State>, steps: seq<Step>, n: nat)
    requires IsRun(parent, states, steps) && n < |states|
    ensures Inv(parent, states[n])
  {
    if n > 0 {
      Invariant(parent, states, steps, n - 1);
      var s, a := states[n - 1], steps[n - 1];
      DistinctStep(parent, s, a);
      RegisteredStep(parent, s, a);
      HeldIsOwnedStep(parent, s, a);
      OwnedIsHeldStep(parent, s, a);
      HeldOnceStep(parent, s, a);
      NestedStep(parent, s, a);
      UsedStep(parent, s, a);
    }
  }

  // ---------------------------------------------------------------- sections never overlap

  /** Task `t` is inside the section of `id`, in its call number `k`. */
  predicate Inside(s: State, t: Task, k: nat, id: Id) {
    k < |Stack(s, t)| && Stack(s, t)[k].phase.Holding? && Stack(s, t)[k].id == id
  }

  /**
   Although entries come and go by reference count, two sections for one id never overlap, in
   any run.
   */
  lemma SectionsNeverOverlap(parent: map<Id, Id>, states: seq<State>, steps: seq<Step>, n: nat,
                             id: Id, t: Task, k: nat, u: Task, j: nat)
    requires IsRun(parent, states, steps) && n < |states|
    requires Inside(states[n], t, k, id) && Inside(states[n], u, j, id)
    ensures t == u && k == j
  {
    Invariant(parent, states, steps, n);
    var s := states[n];
    assert FrameAt(s, t, k, Stack(s, t)[k]) && FrameAt(s, u, j, Stack(s, u)[j]);
  }

  /** When no call is in progress the registry is empty: nothing lingers. */
  lemma NothingLingers(parent: map<Id, Id>, states: seq<State>, steps: seq<Step>, n: nat)
    requires IsRun(parent, states, steps) && n < |states|
    ensures (forall t: Task :: Stack(states[n], t) == []) ==> states[n].locks == map[]
  {
    Invariant(parent, states, steps, n);
    var s := states[n];
    if s.locks != map[] {
      var id: Id :| id in s.locks;
      assert Used(s, id);
      var t: Task, k: nat, f :| FrameAt(s, t, k, f);
      assert Stack(s, t) != [];
    }
  }

  // ---------------------------------------------------------------- no deadlock

  /** The recorded parents form no cycle: ranks grow from sidechain to parent. */
  ghost predicate Acyclic(parent: map<Id, Id>, rank: Id -> nat) {
    forall id: Id :: id in parent ==> rank(id) < rank(parent[id])
  }

  /** `t` waits for a lock that `u` is inside. */
  predicate WaitsOn(s: State, t: Task, u: Task) {
    TopIs(s, t, Waiting) && Top(s, t).lock in s.owner && s.owner[Top(s, t).lock] == u
  }

  /** The session that `t` asks for or is inside, in its innermost call. */
  function TopId(s: State, t: Task): Id {
    if Stack(s, t) == [] then 0 else Top(s, t).id
  }

  /** Whoever is waited for while waiting itself waits for a sidechain of the session it is inside. */
  lemma WaitedForIsParent(parent: map<Id, Id>, s: State, t: Task, u: Task)
    requires Inv(parent, s) && WaitsOn(s, t, u) && TopIs(s, u, Waiting)
    ensures TopId(s, u) in parent && parent[TopId(s, u)] == TopId(s, t)
  {
    var l := Top(s, t).lock;
    assert HeldBy(s, u, l);
    var k: nat, f :| FrameAt(s, u, k, f) && f.phase.Holding? && f.lock == l;
    var n := |Stack(s, u)| - 1;
    assert FrameAt(s, u, n, Top(s, u));
    assert k == 0 && n == 1;
    assert FrameAt(s, t, |Stack(s, t)| - 1, Top(s, t));
    assert f.id == Top(s, t).id;
  }

  /** So it waits for a session of lower rank. */
  lemma WaitingDescends(parent: map<Id, Id>, rank: Id -> nat, s: State, t: Task, u: Task)
    requires Inv(parent, s) && Acyclic(parent, rank)
    requires WaitsOn(s, t, u) && TopIs(s, u, Waiting)
    ensures rank(Top(s, u).id) < rank(Top(s, t).id)
  {
    hide Inv;
    WaitedForIsParent(parent, s, t, u);
  }

  /** Each task of `ts` waits for the next. */
  ghost predicate WaitChain(s: State, ts: seq<Task>) {
    forall i {:trigger ts[i]} :: 0 <= i < |ts| - 1 ==> WaitsOn(s, ts[i], ts[i + 1])
  }

  lemma {:induction false} ChainDescends(parent: map<Id, Id>, rank: Id -> nat, s: State, ts: seq<Task>, i: nat)
    requires Inv(parent, s) && Acyclic(parent, rank)
    requires WaitChain(s, ts) && 0 < i < |ts| && TopIs(s, ts[i], Waiting)
    ensures TopIs(s, ts[0], Waiting) && rank(Top(s, ts[i]).id) < rank(Top(s, ts[0]).id)
    decreases i
  {
    assert WaitsOn(s, ts[i - 1], ts[i]);
    WaitingDescends(parent, rank, s, ts[i - 1], ts[i]);
    if i > 1 {
      ChainDescends(parent, rank, s, ts, i - 1);
    }
  }

  /** With acyclic parents no run reaches a wait cycle, of any length. */
  lemma NoWaitCycle(parent: map<Id, Id>, rank: Id -> nat, states: seq<State>, steps: seq<Step>, n: nat, ts: seq<Task>)
    requires IsRun(parent, states, steps) && n < |states| && Acyclic(parent, rank)
    requires |ts| > 1 && WaitChain(states[n], ts)
    ensures ts[0] != ts[|ts| - 1]
  {
    Invariant(parent, states, steps, n);
    if ts[0] == ts[|ts| - 1] {
      assert WaitsOn(states[n], ts[0], ts[1]);
      ChainDescends(parent, rank, states[n], ts, |ts| - 1);
    }
  }

  /** `t` waits for a lock that somebody is inside. */
  predicate Blocked(s: State, t: Task) {
    TopIs(s, t, Waiting) && Top(s, t).lock in s.owner
  }

  /** `t` is in a call and can take the next step of it. */
  ghost predicate CanMove(parent: map<Id, Id>, s: State, t: Task) {
    exists a: Step :: a.t == t && !a.Call? && Enabled(parent, s, a)
  }

  lemma UnblockedCanMove(parent: map<Id, Id>, s: State, t: Task)
    requires Stack(s, t) != [] && !Blocked(s, t)
    ensures CanMove(parent, s, t)
  {
    match Top(s, t).phase
    case Wanting => assert Enabled(parent, s, Clone(t));
    case Waiting => assert Enabled(parent, s, Acquire(t));
    case Holding => assert Enabled(parent, s, Release(t));
    case Unlocked => assert Enabled(parent, s, DropClone(t));
    case Dropped => assert Enabled(parent, s, Cleanup(t));
  }

  lemma OwnerIsBusy(parent: map<Id, Id>, s: State, l: Lock)
    requires Inv(parent, s) && l in s.owner
    ensures Stack(s, s.owner[l]) != []
  {
    assert HeldBy(s, s.owner[l], l);
  }

  lemma ChainCons(s: State, t: Task, rest: seq<Task>)
    requires rest != [] && WaitsOn(s, t, rest[0]) && WaitChain(s, rest)
    ensures WaitChain(s, [t] + rest)
  {
    hide WaitsOn;
    var ts := [t] + rest;
    forall i {:trigger ts[i]} | 0 <= i < |ts| - 1 ensures WaitsOn(s, ts[i], ts[i + 1]) {
      if i > 0 {
        assert ts[i] == rest[i - 1] && ts[i + 1] == rest[i];
      }
    }
  }

  /** Behind every waiting task stands one that can move: a chain of waits ends at a task whose next step is enabled. */
  lemma {:induction false} WaitsBehindARunner(parent: map<Id, Id>, rank: Id -> nat, s: State, t: Task)
    returns (ts: seq<Task>)
    requires Inv(parent, s) && Acyclic(parent, rank)
    requires TopIs(s, t, Waiting)
    ensures ts != [] && ts[0] == t && WaitChain(s, ts)
    ensures CanMove(parent, s, ts[|ts| - 1])
    decreases rank(Top(s, t).id)
  {
    hide Inv, Acyclic, CanMove;
    ts := [t];
    if Blocked(s, t) {
      var u := s.owner[Top(s, t).lock];
      assert WaitsOn(s, t, u);
      var rest := [u];
      if TopIs(s, u, Waiting) {
        WaitingDescends(parent, rank, s, t, u);
        rest := WaitsBehindARunner(parent, rank, s, u);
      } else {
        OwnerIsBusy(parent, s, Top(s, t).lock);
        UnblockedCanMove(parent, s, u);
      }
      ChainCons(s, t, rest);
      ts := [t] + rest;
      assert ts[|ts| - 1] == rest[|rest| - 1];
    } else {
      UnblockedCanMove(parent, s, t);
    }
  }
}
