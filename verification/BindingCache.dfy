/**
 The cache of project bindings (`binding_for`, `invalidate_bindings` and `tier_covers` in
 daemon/src/session_pool.rs).
 */
module BindingCache {
  /**
   A binding is everything a session reads that its (project, scene) pair decides. It is built
   outside the cache's lock, so builds overlap each other and overlap invalidations; whoever
   inserts first wins. An invalidation drops the cached bindings it covers and marks them stale,
   and a session holding a stale binding rebuilds before its next turn.
   */

  import opened Wrappers
  import WatchRegistry

  type Path = WatchRegistry.Path
  type Tier = WatchRegistry.Tier

  /** `None` is the tier without a project. */
  datatype Key = Key(project: Option<Path>, scene: string)

  predicate TierCovers(tier: Tier, key: Key) {
    match tier
    case Global => true
    case OfScene(scene) => key.scene == scene
    case OfProject(root) => key.project == Some(root)
  }

  /** The tiers that a binding of `key` was merged from, whose files it has watched. */
  function TiersOf(key: Key): set<Tier> {
    {WatchRegistry.Global, WatchRegistry.OfScene(key.scene)}
    + if key.project.Some? then {WatchRegistry.OfProject(key.project.value)} else {}
  }

  lemma CoversIffMergedFrom(tier: Tier, key: Key)
    ensures TierCovers(tier, key) <==> tier in TiersOf(key)
  {
  }

  /** `None` invalidates everything. */
  type Change = Option<Tier>

  predicate Hits(changed: Change, key: Key) {
    changed.None? || TierCovers(changed.value, key)
  }

  function Retained<B>(bindings: map<Key, B>, changed: Change): map<Key, B> {
    map k | k in bindings && !Hits(changed, k) :: bindings[k]
  }

  function Dropped<B>(bindings: map<Key, B>, changed: Change): set<B> {
    set k | k in bindings && Hits(changed, k) :: bindings[k]
  }

  // ---------------------------------------------------------------- the cache in place

  class ProjectBinding {
    const key: Key
    var stale: bool

    constructor (key: Key)
      ensures this.key == key && !stale
    {
      this.key := key;
      stale := false;
    }
  }

  class Cache {
    var bindings: map<Key, ProjectBinding>

    /** Every binding sits under its own key, and none of the cached ones is stale. */
    ghost predicate Valid()
      reads this, bindings.Values
    {
      forall k :: k in bindings ==> bindings[k].key == k && !bindings[k].stale
    }

    constructor ()
      ensures Valid() && bindings == map[]
    {
      bindings := map[];
    }

    method Lookup(key: Key) returns (found: Option<ProjectBinding>)
      requires Valid()
      ensures found == if key in bindings then Some(bindings[key]) else None
      ensures found.Some? ==> found.value.key == key && !found.value.stale
    {
      if key in bindings {
        return Some(bindings[key]);
      }
      return None;
    }

    /** Ends a build: the first to get here is cached, a duplicate is thrown away. */
    method Insert(built: ProjectBinding) returns (winner: ProjectBinding)
      requires Valid() && !built.stale
      modifies this
      ensures Valid()
      ensures winner == if built.key in old(bindings) then old(bindings[built.key]) else built
      ensures bindings == old(bindings)[built.key := winner]
    {
      if built.key !in bindings {
        bindings := bindings[built.key := built];
      }
      winner := bindings[built.key];
    }

    /** Visits every entry, marks the hit ones stale and keeps the others. */
    method Invalidate(changed: Change)
      requires Valid()
      modifies this, bindings.Values
      ensures Valid()
      ensures bindings == Retained(old(bindings), changed)
      ensures forall b <- old(bindings.Values) :: b.stale <==> b in Dropped(old(bindings), changed)
      // A changed tier reaches the bindings merged from it, and no change named reaches them all.
      ensures changed == None ==> bindings == map[] && forall b <- old(bindings.Values) :: b.stale
      ensures changed.Some? ==>
                forall k <- old(bindings) ::
                  && (k in bindings <==> changed.value !in TiersOf(k))
                  && (old(bindings)[k].stale <==> changed.value in TiersOf(k))
    {
      var todo := bindings.Keys;
      while todo != {}
        invariant todo <= old(bindings).Keys
        invariant bindings.Keys <= old(bindings).Keys
        invariant forall k <- bindings :: bindings[k] == old(bindings)[k]
        invariant forall k <- old(bindings) :: k in bindings <==> k in todo || !Hits(changed, k)
        invariant forall k <- old(bindings) ::
                    old(bindings)[k].stale <==> k !in todo && Hits(changed, k)
      {
        var k :| k in todo;
        if Hits(changed, k) {
          bindings[k].stale := true;
          bindings := bindings - {k};
        }
        todo := todo - {k};
      }
      forall b <- old(bindings.Values) ensures b.stale <==> b in Dropped(old(bindings), changed) {
        var k :| k in old(bindings) && old(bindings)[k] == b;
      }
    }
  }

  // ---------------------------------------------------------------- builds, changes and notifications interleaved

  type Task = nat
  type Object = nat

  /**
   What happens to the files and what the pool is told of it. A change is notified by the
   debounced watcher, later and perhaps together with others; the pool also invalidates on its
   own account, as for a reload.
   */
  datatype Event = Changed(tier: Tier) | Notified(changed: Change)

  /**
   A build on its way: it has missed the cache, or it also has the settings it is to use. `readAt`
   is the number of events there had been when these were loaded from disk.
   */
  datatype Build = Missed(key: Key) | Read(key: Key, readAt: nat)

  /** A binding that was handed out; `insertedAt` is the number of events before its insertion. */
  datatype Binding = Binding(key: Key, readAt: nat, insertedAt: nat)

  /**
   Settings are loaded for each build, but for those of the daemon's own pair, `own`: of these the
   pool keeps a copy, loaded when there had been `loadedAt` events, and replaced by a reload.
   */
  datatype State = State(
    own: Key,
    loadedAt: nat,
    cache: map<Key, Object>,
    handedOut: map<Object, Binding>,
    stale: set<Object>,
    nextObject: Object,
    building: map<Task, Build>,
    events: seq<Event>)

  function Initial(own: Key): State {
    State(own, 0, map[], map[], {}, 0, map[], [])
  }

  datatype Step =
    | LookUp(t: Task, key: Key)
    | ReadDisk(t: Task)             // or the pool's copy
    | Reload                        // replaces the pool's copy; the invalidation follows
    | Insert(t: Task)
    | ChangeFile(tier: Tier)
    | Invalidate(changed: Change)   // on a notification, or unprompted

  predicate Enabled(s: State, a: Step) {
    match a
    case LookUp(t, _) => t !in s.building
    case ReadDisk(t) => t in s.building && s.building[t].Missed?
    case Insert(t) => t in s.building && s.building[t].Read?
    case Reload => true
    case ChangeFile(_) => true
    case Invalidate(_) => true
  }

  function Next(s: State, a: Step): State
    requires Enabled(s, a)
  {
    match a
    case LookUp(t, key) =>
      // a hit returns a binding that was handed out when it was inserted
      if key in s.cache then s else s.(building := s.building[t := Missed(key)])
    case ReadDisk(t) =>
      var key := s.building[t].key;
      s.(building := s.building[t := Read(key, if key == s.own then s.loadedAt else |s.events|)])
    case Reload => s.(loadedAt := |s.events|)
    case Insert(t) =>
      var b := s.building[t];
      if b.key in s.cache then s.(building := s.building - {t})
      else
        s.(cache := s.cache[b.key := s.nextObject],
           handedOut := s.handedOut[s.nextObject := Binding(b.key, b.readAt, |s.events|)],
           nextObject := s.nextObject + 1,
           building := s.building - {t})
    case ChangeFile(tier) => s.(events := s.events + [Changed(tier)])
    case Invalidate(changed) =>
      s.(cache := Retained(s.cache, changed),
         stale := s.stale + Dropped(s.cache, changed),
         events := s.events + [Notified(changed)])
  }

  ghost predicate IsRun(states: seq<State>, steps: seq<Step>) {
    && |states| == |steps| + 1
    && states[0] == Initial(states[0].own)
    && forall i {:trigger steps[i]} :: 0 <= i < |steps| ==>
         Enabled(states[i], steps[i]) && states[i + 1] == Next(states[i], steps[i])
  }

  predicate Invalidates(e: Event, key: Key) {
    e.Notified? && Hits(e.changed, key)
  }

  /** An event numbered `from` or later invalidates `key`. */
  ghost predicate InvalidatedSince(events: seq<Event>, from: nat, key: Key) {
    exists i: nat :: from <= i < |events| && Invalidates(events[i], key)
  }

  /** The cache holds exactly the bindings that are out and not stale, each under its key. */
  ghost predicate FreshIsCached(s: State) {
    && (forall k :: k in s.cache ==>
          s.cache[k] in s.handedOut && s.handedOut[s.cache[k]].key == k && s.cache[k] !in s.stale)
    && (forall o :: o in s.handedOut && o !in s.stale ==>
          s.handedOut[o].key in s.cache && s.cache[s.handedOut[o].key] == o)
  }

  /** A binding is stale exactly when its key has been invalidated since its insertion. */
  ghost predicate StaleMeansHit(s: State) {
    forall o :: o in s.handedOut ==>
      (o in s.stale <==> InvalidatedSince(s.events, s.handedOut[o].insertedAt, s.handedOut[o].key))
  }

  /** Numbers are used once, and a build reads before it inserts. */
  ghost predicate Dated(s: State) {
    && (forall o :: o in s.handedOut ==>
          o < s.nextObject && s.handedOut[o].readAt <= s.handedOut[o].insertedAt <= |s.events|)
    && (forall o :: o in s.stale ==> o in s.handedOut)
    && (forall t :: t in s.building && s.building[t].Read? ==> s.building[t].readAt <= |s.events|)
    && s.loadedAt <= |s.events|
  }

  ghost predicate Inv(s: State) {
    FreshIsCached(s) && StaleMeansHit(s) && Dated(s)
  }

  lemma FreshStep(s: State, a: Step)
    requires Enabled(s, a) && FreshIsCached(s) && Dated(s)
    ensures FreshIsCached(Next(s, a)) && Dated(Next(s, a))
  {
  }

  lemma StaleStep(s: State, a: Step)
    requires Enabled(s, a) && Inv(s)
    ensures StaleMeansHit(Next(s, a))
  {
    var s' := Next(s, a);
    forall o | o in s'.handedOut
      ensures o in s'.stale <==> InvalidatedSince(s'.events, s'.handedOut[o].insertedAt, s'.handedOut[o].key)
    {
      if a.Invalidate? {
        var b := s.handedOut[o];
        OneMoreEvent(s.events, b.insertedAt, Notified(a.changed), b.key);
        assert o in Dropped(s.cache, a.changed) <==> o !in s.stale && Hits(a.changed, b.key);
      } else if a.ChangeFile? {
        OneMoreEvent(s.events, s.handedOut[o].insertedAt, Changed(a.tier), s.handedOut[o].key);
      }
    }
  }

  lemma OneMoreEvent(events: seq<Event>, from: nat, e: Event, key: Key)
    requires from <= |events|
    ensures InvalidatedSince(events + [e], from, key) <==> InvalidatedSince(events, from, key) || Invalidates(e, key)
  {
    var after := events + [e];
    assert after[|events|] == e;
    if InvalidatedSince(events, from, key) {
      var i: nat :| from <= i < |events| && Invalidates(events[i], key);
      assert Invalidates(after[i], key);
    }
    if InvalidatedSince(after, from, key) && !Invalidates(e, key) {
      var i: nat :| from <= i < |after| && Invalidates(after[i], key);
      assert Invalidates(events[i], key);
    }
  }

  lemma {:induction false} Invariant(states: seq<State>, steps: seq<Step>, n: nat)
    requires IsRun(states, steps) && n < |states|
    ensures Inv(states[n])
  {
    if n > 0 {
      Invariant(states, steps, n - 1);
      FreshStep(states[n - 1], steps[n - 1]);
      StaleStep(states[n - 1], steps[n - 1]);
    }
  }

  // ---------------------------------------------------------------- what holds in every run

  /** A binding that is out and not stale is the cached one under its key, so a key has one at most. */
  lemma OneLiveBindingPerKey(states: seq<State>, steps: seq<Step>, n: nat, o: Object, p: Object)
    requires IsRun(states, steps) && n < |states|
    requires o in states[n].handedOut && o !in states[n].stale
    requires p in states[n].handedOut && p !in states[n].stale
    ensures states[n].handedOut[o].key in states[n].cache
    ensures states[n].cache[states[n].handedOut[o].key] == o
    ensures states[n].handedOut[o].key == states[n].handedOut[p].key ==> o == p
  {
    Invariant(states, steps, n);
  }

  /**
   A change of a tier reaches every binding merged from that tier, cached or long since only held
   by sessions, and no other; an invalidation without a tier reaches all.
   */
  lemma InvalidationReachesAll(states: seq<State>, steps: seq<Step>, n: nat, o: Object)
    requires IsRun(states, steps) && n < |steps| && steps[n].Invalidate?
    requires o in states[n].handedOut
    ensures steps[n].changed == None ==> o in states[n + 1].stale
    ensures steps[n].changed.Some? ==>
              (o in states[n + 1].stale
               <==> o in states[n].stale || steps[n].changed.value in TiersOf(states[n].handedOut[o].key))
  {
    Invariant(states, steps, n);
  }

  /** `loadedAt` is the number of events there had been at the last reload, or at the start. */
  lemma {:induction false} LoadedAtTheLastReload(states: seq<State>, steps: seq<Step>, n: nat)
    requires IsRun(states, steps) && n < |states|
    ensures states[n].own == states[0].own
    ensures || (states[n].loadedAt == 0 && forall k :: 0 <= k < n ==> steps[k] != Reload)
            || exists k {:trigger steps[k]} :: 0 <= k < n && steps[k] == Reload
                 && states[n].loadedAt == |states[k].events| && forall j :: k < j < n ==> steps[j] != Reload
  {
    if n > 0 {
      LoadedAtTheLastReload(states, steps, n - 1);
      assert states[n] == Next(states[n - 1], steps[n - 1]);
    }
  }

  /** `t` has missed the cache and has not inserted since. */
  ghost predicate MissedSince(states: seq<State>, steps: seq<Step>, n: nat, t: Task, key: Key)
    requires n <= |steps| && n <= |states|
  {
    exists k: nat {:trigger steps[k]} ::
      && k < n && steps[k] == LookUp(t, key) && key !in states[k].cache
      && forall j {:trigger steps[j]} :: k < j < n ==> steps[j] != Insert(t)
  }

  predicate Builds(s: State, t: Task, key: Key) {
    t in s.building && s.building[t].key == key
  }

  /** A caller builds a binding exactly from a look-up that missed to its insertion. */
  lemma {:induction false} BuildsIff(states: seq<State>, steps: seq<Step>, n: nat, t: Task, key: Key)
    requires IsRun(states, steps) && n < |states|
    ensures Builds(states[n], t, key) <==> MissedSince(states, steps, n, t, key)
  {
    if n > 0 {
      BuildsIff(states, steps, n - 1, t, key);
      assert Enabled(states[n - 1], steps[n - 1]) && states[n] == Next(states[n - 1], steps[n - 1]);
    }
  }

  lemma {:induction false} ReadUntilInserted(states: seq<State>, steps: seq<Step>, m: nat, n: nat, t: Task)
    requires IsRun(states, steps) && m < n < |states| && steps[m] == ReadDisk(t)
    requires forall j {:trigger steps[j]} :: m < j < n ==> steps[j] != Insert(t)
    ensures t in states[n].building && states[n].building[t].Read?
  {
    if m < n - 1 {
      ReadUntilInserted(states, steps, m, n - 1, t);
    }
    assert states[n] == Next(states[n - 1], steps[n - 1]);
  }

  /** And reads its settings once: before it reads again it has inserted what it built. */
  lemma ReadsOnce(states: seq<State>, steps: seq<Step>, m: nat, n: nat, t: Task)
    requires IsRun(states, steps) && m < n < |steps| && steps[m] == ReadDisk(t) && steps[n] == ReadDisk(t)
    ensures exists j {:trigger steps[j]} :: m < j < n && steps[j] == Insert(t)
  {
    assert Enabled(states[n], steps[n]);
    if forall j {:trigger steps[j]} :: m < j < n ==> steps[j] != Insert(t) {
      ReadUntilInserted(states, steps, m, n, t);
    }
  }

  /** The date of what a build reads in step `r`. */
  function DateOfRead(s: State, key: Key): nat {
    if key == s.own then s.loadedAt else |s.events|
  }

  lemma {:induction false} BuildIsDated(states: seq<State>, steps: seq<Step>, n: nat, t: Task) returns (r: nat)
    requires IsRun(states, steps) && n < |states| && t in states[n].building && states[n].building[t].Read?
    ensures r < n && steps[r] == ReadDisk(t)
    ensures states[n].building[t].readAt == DateOfRead(states[r], states[n].building[t].key)
  {
    assert states[n] == Next(states[n - 1], steps[n - 1]);
    if steps[n - 1] == ReadDisk(t) {
      r := n - 1;
    } else {
      r := BuildIsDated(states, steps, n - 1, t);
    }
  }

  /** The dates of a binding are those of the steps that read and inserted it. */
  lemma {:induction false} BindingIsDated(states: seq<State>, steps: seq<Step>, n: nat, o: Object)
    returns (t: Task, r: nat, i: nat)
    requires IsRun(states, steps) && n < |states| && o in states[n].handedOut
    ensures r < i < n && steps[r] == ReadDisk(t) && steps[i] == Insert(t)
    ensures states[n].handedOut[o].readAt == DateOfRead(states[r], states[n].handedOut[o].key)
    ensures states[n].handedOut[o].insertedAt == |states[i].events|
  {
    assert states[n] == Next(states[n - 1], steps[n - 1]);
    if o in states[n - 1].handedOut && states[n - 1].handedOut[o] == states[n].handedOut[o] {
      t, r, i := BindingIsDated(states, steps, n - 1, o);
    } else {
      t, i := steps[n - 1].t, n - 1;
      r := BuildIsDated(states, steps, n - 1, t);
    }
  }

  // ---------------------------------------------------------------- changes that a build misses

  /** Event `i` changes a file that bindings of `key` are read from. */
  predicate Concerns(events: seq<Event>, i: nat, key: Key) {
    i < |events| && events[i].Changed? && TierCovers(events[i].tier, key)
  }

  /** Event `j` tells the pool of the change `i` before it, alone or with everything else. */
  predicate Announces(events: seq<Event>, j: nat, i: nat) {
    && i < j < |events| && events[i].Changed? && events[j].Notified?
    && (events[j].changed == None || events[j].changed == Some(events[i].tier))
  }

  /** The change `i` came after the settings of the binding `o` were loaded, so the binding misses it. */
  ghost predicate Misses(s: State, o: Object, i: nat)
    requires o in s.handedOut
  {
    s.handedOut[o].readAt <= i && Concerns(s.events, i, s.handedOut[o].key)
  }

  ghost predicate Outdated(s: State, o: Object)
    requires o in s.handedOut
  {
    exists i: nat :: Misses(s, o, i)
  }

  /** The pool has been told of change `i`. */
  ghost predicate Known(s: State, i: nat) {
    exists j: nat :: Announces(s.events, j, i)
  }

  /** Every change of a file that `key` is read from has been notified. */
  ghost predicate Settled(s: State, key: Key) {
    forall i: nat :: Concerns(s.events, i, key) ==> Known(s, i)
  }

  /** The change `i` and a notification of it both came between the load and the insertion. */
  ghost predicate OvertakenBy(s: State, o: Object, i: nat)
    requires o in s.handedOut
  {
    Misses(s, o, i) && exists j: nat :: j < s.handedOut[o].insertedAt && Announces(s.events, j, i)
  }

  ghost predicate Overtaken(s: State, o: Object)
    requires o in s.handedOut
  {
    exists i: nat :: OvertakenBy(s, o, i)
  }

  /** A change that is notified after the insertion makes the binding stale, whenever it was made. */
  lemma LateNoticeMakesStale(states: seq<State>, steps: seq<Step>, n: nat, o: Object, i: nat, j: nat)
    requires IsRun(states, steps) && n < |states| && o in states[n].handedOut
    requires Concerns(states[n].events, i, states[n].handedOut[o].key)
    requires Announces(states[n].events, j, i) && states[n].handedOut[o].insertedAt <= j
    ensures o in states[n].stale
  {
    Invariant(states, steps, n);
    assert Invalidates(states[n].events[j], states[n].handedOut[o].key);
  }

  /**
   Of a change that has been notified: a binding that is not stale misses it exactly when the
   change came after its settings were loaded and the notification before its insertion.
   */
  lemma MissesChangeIff(states: seq<State>, steps: seq<Step>, n: nat, o: Object, i: nat)
    requires IsRun(states, steps) && n < |states| && o in states[n].handedOut && o !in states[n].stale
    requires Known(states[n], i)
    ensures Misses(states[n], o, i) <==> OvertakenBy(states[n], o, i)
  {
    var s := states[n];
    if Misses(s, o, i) {
      var j: nat :| Announces(s.events, j, i);
      if s.handedOut[o].insertedAt <= j {
        LateNoticeMakesStale(states, steps, n, o, i, j);
      }
    }
  }

  /**
   Once all changes have been notified, a binding that is not stale is outdated exactly when a
   change and its notification both fell between the load of its settings and its insertion: it
   stays cached until the next invalidation.
   */
  lemma MissedChangeIff(states: seq<State>, steps: seq<Step>, n: nat, o: Object)
    requires IsRun(states, steps) && n < |states| && o in states[n].handedOut && o !in states[n].stale
    requires Settled(states[n], states[n].handedOut[o].key)
    ensures Outdated(states[n], o) <==> Overtaken(states[n], o)
  {
    hide IsRun, OvertakenBy, Known;
    forall i: nat | Misses(states[n], o, i) ensures OvertakenBy(states[n], o, i) {
      MissesChangeIff(states, steps, n, o, i);
    }
    if Overtaken(states[n], o) {
      var i: nat :| OvertakenBy(states[n], o, i);
      OvertakenMisses(states[n], o, i);
    }
  }

  lemma OvertakenMisses(s: State, o: Object, i: nat)
    requires o in s.handedOut && OvertakenBy(s, o, i)
    ensures Misses(s, o, i)
  {
  }

  // ---------------------------------------------------------------- runs in which a change is missed

  lemma Extend(states: seq<State>, steps: seq<Step>, a: Step) returns (states': seq<State>, steps': seq<Step>)
    requires IsRun(states, steps) && |states| == |steps| + 1 && Enabled(states[|steps|], a)
    ensures IsRun(states', steps') && |states'| == |steps'| + 1 && steps' == steps + [a]
    ensures states'[|steps'|] == Next(states[|steps|], a)
  {
    hide Next, Enabled;
    states', steps' := states + [Next(states[|steps|], a)], steps + [a];
    forall i {:trigger steps'[i]} | 0 <= i < |steps'|
      ensures Enabled(states'[i], steps'[i]) && states'[i + 1] == Next(states'[i], steps'[i])
    {
      if i < |steps| {
        assert steps'[i] == steps[i] && states'[i] == states[i] && states'[i + 1] == states[i + 1];
      }
    }
  }

  lemma Empty(own: Key)
    ensures IsRun([Initial(own)], [])
  {
  }

  lemma NothingCached(changed: Change)
    ensures Retained<Object>(map[], changed) == map[] && Dropped<Object>(map[], changed) == {}
  {
  }

  /** A binding that is in use, current as far as anybody knows, and out of date. */
  ghost predicate MissesAChange(s: State, o: Object) {
    o in s.handedOut && o !in s.stale && Settled(s, s.handedOut[o].key) && Outdated(s, o)
  }

  lemma TheOnlyBindingMisses(s: State, key: Key)
    requires s.events == [Changed(WatchRegistry.Global), Notified(Some(WatchRegistry.Global))]
    requires s.handedOut == map[0 := Binding(key, 0, 2)] && s.stale == {}
    ensures MissesAChange(s, 0)
  {
    assert Misses(s, 0, 0) && Announces(s.events, 1, 0);
  }

  /** Such a build exists: a change and its notification between a read and the insertion go unnoticed. */
  lemma AChangeDuringABuildIsMissed()
    ensures exists states: seq<State>, steps: seq<Step>, n: nat, o: Object ::
              IsRun(states, steps) && n < |states| && MissesAChange(states[n], o)
  {
    hide IsRun, MissesAChange, Retained, Dropped;
    var key, tier := Key(None, ""), WatchRegistry.Global;
    Empty(Key(None, "own"));
    NothingCached(Some(tier));
    var states, steps := Extend([Initial(Key(None, "own"))], [], LookUp(0, key));
    states, steps := Extend(states, steps, ReadDisk(0));
    states, steps := Extend(states, steps, ChangeFile(tier));
    states, steps := Extend(states, steps, Invalidate(Some(tier)));
    states, steps := Extend(states, steps, Insert(0));
    TheOnlyBindingMisses(states[|steps|], key);
  }

  /** The first step changes a file, the third reads, and the fourth reloads the pool's copy. */
  predicate ChangesReadsReloads(steps: seq<Step>) {
    |steps| > 3 && steps[0].ChangeFile? && steps[2].ReadDisk? && steps[3].Reload?
  }

  /** For the pool's own pair even a change made before the build began: what is read is the copy. */
  lemma AChangeBeforeABuildIsMissed()
    ensures exists states: seq<State>, steps: seq<Step>, n: nat, o: Object ::
              && IsRun(states, steps) && n < |states| && MissesAChange(states[n], o)
              && ChangesReadsReloads(steps)
  {
    hide IsRun, MissesAChange, Retained, Dropped;
    var key, tier := Key(None, ""), WatchRegistry.Global;
    Empty(key);
    NothingCached(Some(tier));
    var states, steps := Extend([Initial(key)], [], ChangeFile(tier));
    states, steps := Extend(states, steps, LookUp(0, key));
    states, steps := Extend(states, steps, ReadDisk(0));
    states, steps := Extend(states, steps, Reload);
    states, steps := Extend(states, steps, Invalidate(Some(tier)));
    states, steps := Extend(states, steps, Insert(0));
    TheOnlyBindingMisses(states[|steps|], key);
  }
}
