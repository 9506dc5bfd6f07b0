/**
 Subscribing and releasing in their lock-held steps (`WatchHub::subscribe` and `Inner::release` in
 daemon/src/watch_hub.rs).
 */
module WatchInterleaved {
  /**
   The registry's two tables and the operating system's watcher have a lock each, and neither
   operation holds two of them. A subscription counts its path, then lists its key, and, when it was
   the first, has the path watched; a release takes the key off the list, then uncounts the path,
   and, when it was the last, drops the path's list and has the path unwatched. `WatchRegistry`
   takes each operation as one step. Here they interleave, and the questions are when the tables
   still say what the live tokens say, and when their paths are watched.
   */

  import opened WatchRegistry

  /** Where a token is between the first step of its subscription and the last of its release. */
  datatype Phase = Counted | Awaiting | Live | Unlisted | Uncounted | Dropped | Gone

  /** `first` says that the subscription found its path unwatched, and so has to have it watched. */
  datatype Entry = Entry(token: Token, phase: Phase, first: bool)

  /** `registered` are the paths that the operating system's watcher has been told of. */
  datatype State = State(
    entries: seq<Entry>,
    watched: map<Path, nat>,
    keys: map<Path, seq<WatchKey>>,
    registered: set<Path>)

  const INITIAL := State([], map[], map[], {})

  datatype Step =
    | Count(token: Token)   // `subscribe`, under the lock of `watched_paths`
    | List(i: nat)          // `subscribe`, under the lock of `path_keys`
    | Watch(i: nat, accepted: bool)  // first `subscribe`, if the path exists and can be watched
    | Unlist(i: nat)        // `release`, under the lock of `path_keys`
    | Uncount(i: nat)       // `release`, under the lock of `watched_paths`
    | DropKeys(i: nat)      // `release` of the last token, under the lock of `path_keys` again
    | Unwatch(i: nat)       // and under the lock of the watcher

  predicate At(s: State, i: nat, p: Phase) {
    i < |s.entries| && s.entries[i].phase == p
  }

  predicate Enabled(s: State, a: Step) {
    match a
    case Count(_) => true
    case List(i) => At(s, i, Counted)
    case Watch(i, _) => At(s, i, Awaiting)
    case Unlist(i) => At(s, i, Live)
    case Uncount(i) => At(s, i, Unlisted)
    case DropKeys(i) => At(s, i, Uncounted)
    case Unwatch(i) => At(s, i, Dropped)
  }

  function Go(s: State, i: nat, p: Phase): State
    requires i < |s.entries|
  {
    s.(entries := s.entries[i := s.entries[i].(phase := p)])
  }

  function CountOf(s: State, p: Path): nat {
    if p in s.watched then s.watched[p] else 0
  }

  function KeysAt(s: State, p: Path): seq<WatchKey> {
    if p in s.keys then s.keys[p] else []
  }

  function Next(s: State, a: Step): State
    requires Enabled(s, a)
  {
    match a
    case Count(t) =>
      s.(entries := s.entries + [Entry(t, Counted, t.path !in s.watched)],
         watched := s.watched[t.path := CountOf(s, t.path) + 1])
    case List(i) =>
      var t := s.entries[i].token;
      Go(s, i, if s.entries[i].first then Awaiting else Live).(
        keys := s.keys[t.path := KeysAt(s, t.path) + [t.key]])
    case Watch(i, accepted) =>
      Go(s, i, Live).(
        registered := if accepted then s.registered + {s.entries[i].token.path} else s.registered)
    case Unlist(i) =>
      var t := s.entries[i].token;
      Go(s, i, Unlisted).(
        keys := if t.path in s.keys then s.keys[t.path := WithoutFirst(s.keys[t.path], t.key)] else s.keys)
    case Uncount(i) =>
      var p := s.entries[i].token.path;
      if p !in s.watched then Go(s, i, Gone)
      else if s.watched[p] > 1 then Go(s, i, Gone).(watched := s.watched[p := s.watched[p] - 1])
      else Go(s, i, Uncounted).(watched := s.watched - {p})
    case DropKeys(i) => Go(s, i, Dropped).(keys := s.keys - {s.entries[i].token.path})
    case Unwatch(i) => Go(s, i, Gone).(registered := s.registered - {s.entries[i].token.path})
  }

  ghost predicate IsRun(states: seq<State>, steps: seq<Step>) {
    && |states| == |steps| + 1
    && states[0] == INITIAL
    && forall i {:trigger steps[i]} :: 0 <= i < |steps| ==>
         Enabled(states[i], steps[i]) && states[i + 1] == Next(states[i], steps[i])
  }

  // ---------------------------------------------------------------- what the tokens say

  /** The key of the token is on the list. */
  predicate Listing(e: Entry) {
    e.phase.Awaiting? || e.phase.Live?
  }

  /** A token counts from its first step until its release uncounts it. */
  predicate Counts(e: Entry, p: Path) {
    e.token.path == p && (e.phase.Counted? || Listing(e) || e.phase.Unlisted?)
  }

  function Weight(e: Entry, p: Path): nat {
    if Counts(e, p) then 1 else 0
  }

  /** The key of a token that lists one on `p`. */
  function Share(e: Entry, p: Path): multiset<WatchKey> {
    if Listing(e) && e.token.path == p then multiset{e.token.key} else multiset{}
  }

  /** How many of the first `n` tokens count for `p`. */
  function Counting(entries: seq<Entry>, n: nat, p: Path): nat
    requires n <= |entries|
  {
    if n == 0 then 0 else Counting(entries, n - 1, p) + Weight(entries[n - 1], p)
  }

  /** The keys of those of the first `n` tokens that list one on `p`. */
  function Listed(entries: seq<Entry>, n: nat, p: Path): multiset<WatchKey>
    requires n <= |entries|
  {
    if n == 0 then multiset{} else Listed(entries, n - 1, p) + Share(entries[n - 1], p)
  }

  function Tokens(s: State, p: Path): nat {
    Counting(s.entries, |s.entries|, p)
  }

  function LiveKeys(s: State, p: Path): multiset<WatchKey> {
    Listed(s.entries, |s.entries|, p)
  }

  /** A list that is about to be dropped. */
  ghost predicate AboutToDrop(s: State, p: Path) {
    exists i: nat :: At(s, i, Uncounted) && s.entries[i].token.path == p
  }

  /** The counts are those of the tokens, and a path without tokens has a list only until that is dropped. */
  ghost predicate CountsAreRight(s: State) {
    && (forall p :: CountOf(s, p) == Tokens(s, p))
    && (forall p :: p in s.watched ==> s.watched[p] > 0)
    && (forall p :: p in s.keys ==> p in s.watched || AboutToDrop(s, p))
  }

  /** The lists are the bags of the live tokens' keys. */
  ghost predicate KeysAreRight(s: State) {
    forall p :: KeysRightAt(s, p)
  }

  ghost predicate KeysRightAt(s: State, p: Path) {
    multiset(KeysAt(s, p)) == LiveKeys(s, p)
  }

  /** The step drops keys: somebody has subscribed to the path since its last token was uncounted. */
  predicate Loses(s: State, a: Step) {
    a.DropKeys? && At(s, a.i, Uncounted) && KeysAt(s, s.entries[a.i].token.path) != []
  }

  lemma {:induction false} CountingAgrees(a: seq<Entry>, b: seq<Entry>, n: nat, p: Path)
    requires n <= |a| && n <= |b| && forall i :: 0 <= i < n ==> a[i] == b[i]
    ensures Counting(a, n, p) == Counting(b, n, p) && Listed(a, n, p) == Listed(b, n, p)
  {
    if n > 0 {
      CountingAgrees(a, b, n - 1, p);
    }
  }

  /** Moving token `i` on changes the figures by what that token contributes. */
  lemma {:induction false} MovingOne(a: seq<Entry>, i: nat, e: Entry, n: nat, p: Path)
    requires i < n <= |a|
    ensures Counting(a[i := e], n, p) + Weight(a[i], p) == Counting(a, n, p) + Weight(e, p)
    ensures Listed(a[i := e], n, p) + Share(a[i], p) == Listed(a, n, p) + Share(e, p)
  {
    hide Weight, Share;
    var b := a[i := e];
    if n == i + 1 {
      CountingAgrees(a, b, i, p);
    } else {
      MovingOne(a, i, e, n - 1, p);
      assert b[n - 1] == a[n - 1];
      Swap(Listed(b, n - 1, p), Share(a[n - 1], p), Share(a[i], p));
      Swap(Listed(a, n - 1, p), Share(a[n - 1], p), Share(e, p));
    }
  }

  lemma Swap<T>(a: multiset<T>, b: multiset<T>, c: multiset<T>)
    ensures a + b + c == a + c + b
  {
  }

  /** What a step does to the figures of `p`. */
  lemma CountEffect(s: State, a: Step, p: Path)
    requires Enabled(s, a)
    ensures var s' := Next(s, a);
            if a.Count? then Tokens(s', p) == Tokens(s, p) + if a.token.path == p then 1 else 0
            else Tokens(s', p) + Weight(s.entries[a.i], p) == Tokens(s, p) + Weight(s'.entries[a.i], p)
  {
    hide Tokens, Weight, WithoutFirst, KeysAt, CountOf;
    var s' := Next(s, a);
    if a.Count? {
      AddedCounts(s, a.token, a.token.path !in s.watched, s', p);
    } else {
      MovedCounts(s, a.i, s'.entries[a.i], s', p);
    }
  }

  lemma MovedCounts(s: State, i: nat, e: Entry, s': State, p: Path)
    requires i < |s.entries| && s'.entries == s.entries[i := e]
    ensures Tokens(s', p) + Weight(s.entries[i], p) == Tokens(s, p) + Weight(e, p)
  {
    hide Weight;
    MovingOne(s.entries, i, e, |s.entries|, p);
  }

  lemma AddedCounts(s: State, t: Token, first: bool, s': State, p: Path)
    requires s'.entries == s.entries + [Entry(t, Counted, first)]
    ensures Tokens(s', p) == Tokens(s, p) + if t.path == p then 1 else 0
  {
    CountingAgrees(s'.entries, s.entries, |s.entries|, p);
  }

  lemma MovedKeys(s: State, i: nat, e: Entry, s': State, p: Path)
    requires i < |s.entries| && s'.entries == s.entries[i := e]
    ensures LiveKeys(s', p) + Share(s.entries[i], p) == LiveKeys(s, p) + Share(e, p)
  {
    hide Share;
    MovingOne(s.entries, i, e, |s.entries|, p);
  }

  lemma AddedKeys(s: State, t: Token, first: bool, s': State, p: Path)
    requires s'.entries == s.entries + [Entry(t, Counted, first)]
    ensures LiveKeys(s', p) == LiveKeys(s, p)
  {
    CountingAgrees(s'.entries, s.entries, |s.entries|, p);
    PlusNothing(LiveKeys(s, p));
  }

  /** Which token a step moves, and whether the token's key is on the list before and after. */
  lemma StepMoves(s: State, a: Step)
    requires Enabled(s, a)
    ensures a.Count? ==> Next(s, a).entries == s.entries + [Entry(a.token, Counted, a.token.path !in s.watched)]
    ensures !a.Count? ==>
              && a.i < |s.entries| && |Next(s, a).entries| == |s.entries|
              && Next(s, a).entries == s.entries[a.i := Next(s, a).entries[a.i]]
              && Next(s, a).entries[a.i].token == s.entries[a.i].token
              && (Listing(s.entries[a.i]) <==> a.Watch? || a.Unlist?)
              && (Listing(Next(s, a).entries[a.i]) <==> a.Watch? || a.List?)
  {
    hide WithoutFirst, KeysAt;
  }

  lemma ShareOf(e: Entry, p: Path)
    ensures Share(e, p) == if Listing(e) then KeyOn(e.token, p) else multiset{}
  {
  }

  lemma KeyEffect(s: State, a: Step, p: Path)
    requires Enabled(s, a)
    ensures a.List? ==> LiveKeys(Next(s, a), p) == LiveKeys(s, p) + KeyOn(s.entries[a.i].token, p)
    ensures a.Unlist? ==> LiveKeys(Next(s, a), p) + KeyOn(s.entries[a.i].token, p) == LiveKeys(s, p)
    ensures !a.List? && !a.Unlist? ==> LiveKeys(Next(s, a), p) == LiveKeys(s, p)
  {
    var s' := Next(s, a);
    StepMoves(s, a);
    hide LiveKeys, Next, Listing, Share;
    if a.Count? {
      AddedKeys(s, a.token, a.token.path !in s.watched, s', p);
    } else {
      ShareOf(s.entries[a.i], p);
      ShareOf(s'.entries[a.i], p);
      MovedKeys(s, a.i, s'.entries[a.i], s', p);
      PlusNothing(LiveKeys(s, p));
      PlusNothing(LiveKeys(s', p));
      if a.Watch? {
        Cancel(LiveKeys(s, p), LiveKeys(s', p), KeyOn(s.entries[a.i].token, p));
      }
    }
  }

  function KeyOn(t: Token, p: Path): multiset<WatchKey> {
    if t.path == p then multiset{t.key} else multiset{}
  }

  lemma PlusNothing<T>(a: multiset<T>)
    ensures a + multiset{} == a
  {
  }

  lemma Cancel<T>(a: multiset<T>, b: multiset<T>, c: multiset<T>)
    requires a + c == b + c
    ensures a == b
  {
    assert (a + c) - c == a && (b + c) - c == b;
  }

  lemma CountsStep(s: State, a: Step)
    requires Enabled(s, a) && CountsAreRight(s)
    ensures CountsAreRight(Next(s, a))
  {
    var s' := Next(s, a);
    forall p: Path ensures CountOf(s', p) == Tokens(s', p) {
      hide Tokens;
      CountEffect(s, a, p);
      assert CountOf(s, p) == Tokens(s, p);
    }
    forall p | p in s'.keys ensures p in s'.watched || AboutToDrop(s', p) {
      hide Tokens, CountsAreRight;
      if p !in s'.watched {
        DropsStay(s, a, p);
      }
    }
  }

  lemma CountedIsWatched(s: State, i: nat)
    requires CountsAreRight(s) && i < |s.entries| && Counts(s.entries[i], s.entries[i].token.path)
    ensures s.entries[i].token.path in s.watched
  {
    var p := s.entries[i].token.path;
    TokenCounts(s.entries, i, |s.entries|, p);
    assert CountOf(s, p) == Tokens(s, p);
  }

  /** A path that keeps its list but loses its count has a release about to drop the list. */
  lemma DropsStay(s: State, a: Step, p: Path)
    requires Enabled(s, a) && CountsAreRight(s)
    requires p in Next(s, a).keys && p !in Next(s, a).watched
    ensures AboutToDrop(Next(s, a), p)
  {
    var s' := Next(s, a);
    if a.List? {
      CountedIsWatched(s, a.i);
    }
    assert p in s.keys;
    if p in s.watched {
      assert a.Uncount? && At(s', a.i, Uncounted) && s'.entries[a.i].token.path == p;
    } else {
      var i: nat :| At(s, i, Uncounted) && s.entries[i].token.path == p;
      assert At(s', i, Uncounted) && s'.entries[i].token.path == p;
    }
  }

  lemma {:induction false} TokenCounts(entries: seq<Entry>, i: nat, n: nat, p: Path)
    requires i < n <= |entries| && Counts(entries[i], p)
    ensures Counting(entries, n, p) > 0
  {
    if i < n - 1 {
      TokenCounts(entries, i, n - 1, p);
    }
  }

  /** The counts hold in every run, however the steps interleave. */
  lemma {:induction false} CountsInvariant(states: seq<State>, steps: seq<Step>, n: nat)
    requires IsRun(states, steps) && n < |states|
    ensures CountsAreRight(states[n])
  {
    if n > 0 {
      CountsInvariant(states, steps, n - 1);
      CountsStep(states[n - 1], steps[n - 1]);
    }
  }

  // ---------------------------------------------------------------- when the lists are right

  lemma {:induction false} LiveOnesCount(entries: seq<Entry>, n: nat, p: Path)
    requires n <= |entries|
    ensures |Listed(entries, n, p)| <= Counting(entries, n, p)
    ensures (forall i :: 0 <= i < n ==> entries[i].phase.Live? || entries[i].phase.Gone?) ==>
              |Listed(entries, n, p)| == Counting(entries, n, p)
  {
    if n > 0 {
      LiveOnesCount(entries, n - 1, p);
    }
  }

  lemma KeysStep(s: State, a: Step)
    requires Enabled(s, a) && KeysAreRight(s)
    ensures KeysAreRight(Next(s, a)) <==> !Loses(s, a)
  {
    hide KeysRightAt;
    var s' := Next(s, a);
    if a.DropKeys? {
      var q := s.entries[a.i].token.path;
      forall p: Path ensures KeysRightAt(s', p) <==> p != q || KeysAt(s, q) == [] {
        assert KeysRightAt(s, p);
        DropStepAt(s, a, p);
      }
      assert KeysRightAt(s', q) <==> KeysAt(s, q) == [];
    } else {
      forall p: Path ensures KeysRightAt(s', p) {
        assert KeysRightAt(s, p);
        KeysStepAt(s, a, p);
      }
    }
  }

  lemma DropStepAt(s: State, a: Step, p: Path)
    requires Enabled(s, a) && a.DropKeys? && KeysRightAt(s, p)
    ensures KeysRightAt(Next(s, a), p) <==> p != s.entries[a.i].token.path || KeysAt(s, p) == []
  {
    hide LiveKeys;
    KeyEffect(s, a, p);
    assert KeysAt(s, p) != [] ==> KeysAt(s, p)[0] in multiset(KeysAt(s, p));
  }

  /** What a step does to the list of `p`. */
  lemma KeysAfter(s: State, a: Step, p: Path)
    requires Enabled(s, a) && !a.DropKeys?
    ensures KeysAt(Next(s, a), p)
         == if a.List? && s.entries[a.i].token.path == p then KeysAt(s, p) + [s.entries[a.i].token.key]
            else if a.Unlist? && s.entries[a.i].token.path == p && KeysAt(s, p) != []
                 then WithoutFirst(KeysAt(s, p), s.entries[a.i].token.key)
            else KeysAt(s, p)
  {
  }

  lemma KeysStepAt(s: State, a: Step, p: Path)
    requires Enabled(s, a) && !a.DropKeys? && KeysRightAt(s, p)
    ensures KeysRightAt(Next(s, a), p)
  {
    KeyEffect(s, a, p);
    KeysAfter(s, a, p);
    hide LiveKeys, WithoutFirst, KeyOn, Next, KeysAt;
    if a.List? {
      ListAt(KeysAt(s, p), s.entries[a.i].token, p);
    } else if a.Unlist? {
      UnlistAt(KeysAt(s, p), LiveKeys(Next(s, a), p), s.entries[a.i].token, p);
    }
  }

  lemma ListAt(keys: seq<WatchKey>, t: Token, p: Path)
    ensures multiset(if t.path == p then keys + [t.key] else keys) == multiset(keys) + KeyOn(t, p)
  {
    PlusNothing(multiset(keys));
  }

  lemma UnlistAt(keys: seq<WatchKey>, after: multiset<WatchKey>, t: Token, p: Path)
    requires after + KeyOn(t, p) == multiset(keys)
    ensures multiset(if t.path == p then WithoutFirst(keys, t.key) else keys) == after
    ensures t.path == p ==> keys != []
  {
    hide WithoutFirst;
    assert (after + KeyOn(t, p)) - KeyOn(t, p) == after;
    PlusNothing(after);
    assert t.path == p ==> t.key in after + KeyOn(t, p);
  }

  /**
   The exact condition: the lists are the bags of the live tokens throughout a run if and only
   if no release drops a list that somebody has meanwhile added to. A subscription that falls
   between the uncounting and the dropping of a release loses its key.
   */
  lemma KeysAreRightIff(states: seq<State>, steps: seq<Step>)
    requires IsRun(states, steps)
    ensures (forall n :: 0 <= n < |states| ==> KeysAreRight(states[n]))
       <==> (forall n :: 0 <= n < |steps| ==> !Loses(states[n], steps[n]))
  {
    hide KeysAreRight, Loses;
    if forall n :: 0 <= n < |states| ==> KeysAreRight(states[n]) {
      forall n | 0 <= n < |steps| ensures !Loses(states[n], steps[n]) {
        assert KeysAreRight(states[n]) && KeysAreRight(states[n + 1]);
        assert Enabled(states[n], steps[n]);
        KeysStep(states[n], steps[n]);
      }
    }
    if forall n :: 0 <= n < |steps| ==> !Loses(states[n], steps[n]) {
      forall n | 0 <= n < |states| ensures KeysAreRight(states[n]) {
        KeysUpTo(states, steps, n);
      }
    }
  }

  lemma NothingIsRight()
    ensures KeysAreRight(INITIAL)
  {
  }

  lemma {:induction false} KeysUpTo(states: seq<State>, steps: seq<Step>, n: nat)
    requires IsRun(states, steps) && n < |states|
    requires forall k :: 0 <= k < n ==> !Loses(states[k], steps[k])
    ensures KeysAreRight(states[n])
  {
    hide KeysAreRight, Loses;
    if n == 0 {
      NothingIsRight();
    } else {
      KeysUpTo(states, steps, n - 1);
      assert Enabled(states[n - 1], steps[n - 1]);
      KeysStep(states[n - 1], steps[n - 1]);
    }
  }

  /** No operation is under way. */
  predicate Quiet(s: State) {
    forall i :: 0 <= i < |s.entries| ==> s.entries[i].phase.Live? || s.entries[i].phase.Gone?
  }

  // ---------------------------------------------------------------- when the paths are watched

  /** Token `i` is about to have `p` watched. */
  predicate WillWatch(s: State, i: nat, p: Path) {
    && i < |s.entries| && s.entries[i].token.path == p
    && (s.entries[i].phase.Awaiting? || (s.entries[i].phase.Counted? && s.entries[i].first))
  }

  ghost predicate WatchToCome(s: State, p: Path) {
    exists i: nat :: WillWatch(s, i, p)
  }

  /** The release of token `i` is about to have `p` unwatched. */
  predicate WillUnwatch(s: State, i: nat, p: Path) {
    && i < |s.entries| && s.entries[i].token.path == p
    && (s.entries[i].phase.Uncounted? || s.entries[i].phase.Dropped?)
  }

  ghost predicate UnwatchToCome(s: State, p: Path) {
    exists i: nat :: WillUnwatch(s, i, p)
  }

  /** One token at a time is about to have a path watched, and a path that nobody counts for is to be unwatched. */
  ghost predicate WatchersAreRight(s: State) {
    && (forall p: Path, i: nat, j: nat :: WillWatch(s, i, p) && WillWatch(s, j, p) ==> i == j)
    && (forall p: Path :: p in s.registered ==> p in s.watched || UnwatchToCome(s, p))
  }

  lemma WillWatchIsWatched(s: State, i: nat, p: Path)
    requires CountsAreRight(s) && WillWatch(s, i, p)
    ensures p in s.watched
  {
    CountedIsWatched(s, i);
  }

  lemma WillWatchAfter(s: State, a: Step, i: nat, p: Path)
    requires Enabled(s, a) && i < |s.entries|
    ensures WillWatch(Next(s, a), i, p) <==> WillWatch(s, i, p) && !(a.Watch? && a.i == i)
  {
    hide WithoutFirst, KeysAt;
  }

  lemma UnwatchAfter(s: State, a: Step, i: nat, p: Path)
    requires Enabled(s, a) && WillUnwatch(s, i, p) && a != Unwatch(i)
    ensures WillUnwatch(Next(s, a), i, p)
  {
    hide WithoutFirst, KeysAt;
  }

  lemma OneWatcherStep(s: State, a: Step, p: Path, i: nat, j: nat)
    requires Enabled(s, a) && CountsAreRight(s) && WatchersAreRight(s)
    requires WillWatch(Next(s, a), i, p) && WillWatch(Next(s, a), j, p)
    ensures i == j
  {
    if i < |s.entries| {
      WillWatchAfter(s, a, i, p);
      WillWatchIsWatched(s, i, p);
    }
    if j < |s.entries| {
      WillWatchAfter(s, a, j, p);
      WillWatchIsWatched(s, j, p);
    }
  }

  lemma RegisteredStep(s: State, a: Step, p: Path)
    requires Enabled(s, a) && CountsAreRight(s) && WatchersAreRight(s)
    requires p in Next(s, a).registered
    ensures p in Next(s, a).watched || UnwatchToCome(Next(s, a), p)
  {
    hide CountOf, Tokens, KeysAt, WithoutFirst;
    var s' := Next(s, a);
    if a.Watch? && s.entries[a.i].token.path == p {
      CountedIsWatched(s, a.i);
    } else if p in s.watched {
      assert p !in s'.watched ==> WillUnwatch(s', a.i, p);
    } else {
      var i: nat :| WillUnwatch(s, i, p);
      UnwatchAfter(s, a, i, p);
    }
  }

  lemma {:induction false} WatchersInvariant(states: seq<State>, steps: seq<Step>, n: nat)
    requires IsRun(states, steps) && n < |states|
    ensures WatchersAreRight(states[n])
  {
    if n > 0 {
      WatchersInvariant(states, steps, n - 1);
      CountsInvariant(states, steps, n - 1);
      WatchersStep(states[n - 1], steps[n - 1]);
    }
  }

  lemma WatchersStep(s: State, a: Step)
    requires Enabled(s, a) && CountsAreRight(s) && WatchersAreRight(s)
    ensures WatchersAreRight(Next(s, a))
  {
    hide CountsAreRight, WillWatch, Next;
    var s' := Next(s, a);
    forall p: Path, i: nat, j: nat | WillWatch(s', i, p) && WillWatch(s', j, p) ensures i == j {
      OneWatcherStep(s, a, p, i, j);
    }
    forall p: Path | p in s'.registered ensures p in s'.watched || UnwatchToCome(s', p) {
      RegisteredStep(s, a, p);
    }
  }

  /** A path that tokens count for is watched, or is about to be. */
  ghost predicate CoveredAt(s: State, p: Path) {
    p in s.watched ==> p in s.registered || WatchToCome(s, p)
  }

  ghost predicate Covered(s: State) {
    forall p: Path :: CoveredAt(s, p)
  }

  /**
   The step leaves a path unwatched that tokens count for: a release unwatches what a
   subscription has had watched since, or the path could not be watched in the first place.
   */
  ghost predicate Strands(s: State, a: Step) {
    (a.Watch? || a.Unwatch?) && a.i < |s.entries| &&
    var p := s.entries[a.i].token.path;
    if a.Watch? then !a.accepted && p !in s.registered else p in s.watched && !WatchToCome(s, p)
  }

  lemma CoveredStepAt(s: State, a: Step, p: Path)
    requires Enabled(s, a) && CountsAreRight(s) && WatchersAreRight(s) && CoveredAt(s, p)
    ensures CoveredAt(Next(s, a), p) <==> !(Strands(s, a) && s.entries[a.i].token.path == p)
  {
    hide CountsAreRight, KeysAt, WithoutFirst;
    var s' := Next(s, a);
    if a.Watch? && s.entries[a.i].token.path == p {
      assert WillWatch(s, a.i, p);
      WillWatchIsWatched(s, a.i, p);
      forall i: nat ensures !WillWatch(s', i, p) {
        if i < |s.entries| {
          WillWatchAfter(s, a, i, p);
        }
      }
    } else {
      SameWatchToCome(s, a, p);
    }
  }

  lemma SameWatchToCome(s: State, a: Step, p: Path)
    requires Enabled(s, a) && CoveredAt(s, p) && !(a.Watch? && s.entries[a.i].token.path == p)
    ensures WatchToCome(Next(s, a), p) <==> WatchToCome(s, p) || (a.Count? && a.token.path == p && p !in s.watched)
  {
    var s' := Next(s, a);
    if WatchToCome(s, p) {
      var i: nat :| WillWatch(s, i, p);
      WillWatchAfter(s, a, i, p);
    }
    if WatchToCome(s', p) {
      var i: nat :| WillWatch(s', i, p);
      if i < |s.entries| {
        WillWatchAfter(s, a, i, p);
      }
    }
    if a.Count? && a.token.path == p && p !in s.watched {
      assert WillWatch(s', |s.entries|, p);
    }
  }

  lemma CoveredStep(s: State, a: Step)
    requires Enabled(s, a) && CountsAreRight(s) && WatchersAreRight(s) && Covered(s)
    ensures Covered(Next(s, a)) <==> !Strands(s, a)
  {
    hide CountsAreRight, WatchersAreRight, CoveredAt, Next;
    forall p: Path
      ensures CoveredAt(Next(s, a), p) <==> !(Strands(s, a) && s.entries[a.i].token.path == p)
    {
      assert CoveredAt(s, p);
      CoveredStepAt(s, a, p);
    }
    if Strands(s, a) {
      assert !CoveredAt(Next(s, a), s.entries[a.i].token.path);
    }
  }

  /**
   Throughout a run every path that tokens count for is watched or about to be, if and only if
   every path could be watched and no release unwatches one that tokens count for again.
   */
  lemma PathsAreWatchedIff(states: seq<State>, steps: seq<Step>)
    requires IsRun(states, steps)
    ensures (forall n :: 0 <= n < |states| ==> Covered(states[n]))
       <==> (forall n :: 0 <= n < |steps| ==> !Strands(states[n], steps[n]))
  {
    hide Covered, Strands;
    if forall n :: 0 <= n < |states| ==> Covered(states[n]) {
      forall n | 0 <= n < |steps| ensures !Strands(states[n], steps[n]) {
        assert Covered(states[n]) && Covered(states[n + 1]);
        CoveredNext(states, steps, n);
      }
    }
    if forall n :: 0 <= n < |steps| ==> !Strands(states[n], steps[n]) {
      forall n | 0 <= n < |states| ensures Covered(states[n]) {
        CoveredUpTo(states, steps, n);
      }
    }
  }

  lemma CoveredNext(states: seq<State>, steps: seq<Step>, n: nat)
    requires IsRun(states, steps) && n < |steps| && Covered(states[n])
    ensures Covered(states[n + 1]) <==> !Strands(states[n], steps[n])
  {
    hide Covered, Strands, CountsAreRight, WatchersAreRight;
    CountsInvariant(states, steps, n);
    WatchersInvariant(states, steps, n);
    assert Enabled(states[n], steps[n]);
    CoveredStep(states[n], steps[n]);
  }

  lemma {:induction false} CoveredUpTo(states: seq<State>, steps: seq<Step>, n: nat)
    requires IsRun(states, steps) && n < |states|
    requires forall k :: 0 <= k < n ==> !Strands(states[k], steps[k])
    ensures Covered(states[n])
  {
    if n > 0 {
      hide Covered, Strands;
      CoveredUpTo(states, steps, n - 1);
      CoveredNext(states, steps, n - 1);
    }
  }

  /** Between operations that comes to: the watched paths are exactly those of the live tokens. */
  lemma QuietAndCoveredIsWatched(states: seq<State>, steps: seq<Step>, n: nat)
    requires IsRun(states, steps) && n < |states| && Quiet(states[n])
    ensures Covered(states[n])
       <==> forall p: Path :: p in states[n].registered <==> LiveKeys(states[n], p) != multiset{}
  {
    hide Covered, LiveKeys, Quiet;
    forall p: Path
      ensures p in states[n].registered ==> LiveKeys(states[n], p) != multiset{}
      ensures CoveredAt(states[n], p) <==> (LiveKeys(states[n], p) != multiset{} ==> p in states[n].registered)
    {
      QuietCoveredAt(states, steps, n, p);
    }
    CoveredMeans(states[n]);
  }

  lemma CoveredMeans(s: State)
    ensures Covered(s) <==> forall p: Path :: CoveredAt(s, p)
  {
  }

  lemma QuietCoveredAt(states: seq<State>, steps: seq<Step>, n: nat, p: Path)
    requires IsRun(states, steps) && n < |states| && Quiet(states[n])
    ensures p in states[n].registered ==> LiveKeys(states[n], p) != multiset{}
    ensures CoveredAt(states[n], p) <==> (LiveKeys(states[n], p) != multiset{} ==> p in states[n].registered)
  {
    var s := states[n];
    CountsInvariant(states, steps, n);
    WatchersInvariant(states, steps, n);
    LiveOnesCount(s.entries, |s.entries|, p);
    assert CountOf(s, p) == Tokens(s, p) == |LiveKeys(s, p)|;
    assert !UnwatchToCome(s, p) && !WatchToCome(s, p);
  }

  /** Between operations, right lists make the registry say of each path exactly what its live tokens say. */
  lemma QuietAndRightIsTheBag(states: seq<State>, steps: seq<Step>, n: nat, p: Path)
    requires IsRun(states, steps) && n < |states| && Quiet(states[n]) && KeysAreRight(states[n])
    ensures RightFor(Registry(states[n].watched, states[n].keys, states[n].registered), p, LiveKeys(states[n], p))
  {
    var s := states[n];
    CountsInvariant(states, steps, n);
    WatchersInvariant(states, steps, n);
    LiveOnesCount(s.entries, |s.entries|, p);
    assert KeysRightAt(s, p);
    assert CountOf(s, p) == Tokens(s, p) == |LiveKeys(s, p)|;
    assert !AboutToDrop(s, p) && !UnwatchToCome(s, p);
    hide Tokens, LiveKeys;
    assert |multiset(KeysAt(s, p))| == |KeysAt(s, p)|;
  }

  /** Every path exists and the operating system's watcher takes it. */
  ghost predicate EachIsWatched(steps: seq<Step>) {
    forall a <- steps :: a.Watch? ==> a.accepted
  }

  lemma Extend(states: seq<State>, steps: seq<Step>, a: Step, s': State)
    returns (states': seq<State>, steps': seq<Step>)
    requires |states| == |steps| + 1 && IsRun(states, steps)
    requires Enabled(states[|steps|], a) && s' == Next(states[|steps|], a)
    ensures |states'| == |steps'| + 1 && IsRun(states', steps') && states'[|steps'|] == s'
    ensures EachIsWatched(steps) && (a.Watch? ==> a.accepted) ==> EachIsWatched(steps')
  {
    hide Next, Enabled;
    states', steps' := states + [s'], steps + [a];
    forall i {:trigger steps'[i]} | 0 <= i < |steps'|
      ensures Enabled(states'[i], steps'[i]) && states'[i + 1] == Next(states'[i], steps'[i])
    {
      if i < |steps| {
        assert steps'[i] == steps[i] && states'[i] == states[i] && states'[i + 1] == states[i + 1];
      }
    }
  }

  lemma NoStepIsARun()
    ensures IsRun([INITIAL], []) && EachIsWatched([])
  {
  }

  lemma OneLives(s: State, t: Token)
    requires s.entries == [Entry(t, Gone, true), Entry(t, Live, true)]
    ensures Quiet(s) && LiveKeys(s, t.path) == multiset{t.key}
    ensures KeysAt(s, t.path) == if t.path in s.keys then s.keys[t.path] else []
  {
    assert Listed(s.entries, 1, t.path) == multiset{};
  }

  function One(t: Token, a: Phase): seq<Entry> {
    [Entry(t, a, true)]
  }

  function Two(t: Token, a: Phase, b: Phase): seq<Entry> {
    [Entry(t, a, true), Entry(t, b, true)]
  }

  /** A token is handed out and, as the last on its path, released up to the point where it is uncounted. */
  lemma TheFirstReleases(t: Token) returns (states: seq<State>, steps: seq<Step>)
    ensures |states| == |steps| + 1 && IsRun(states, steps)
    ensures states[|steps|] == State(One(t, Uncounted), map[], map[t.path := []], {t.path})
    ensures EachIsWatched(steps)
  {
    hide IsRun, EachIsWatched;
    var p := t.path;
    var s1 := State(One(t, Counted), map[p := 1], map[], {});
    var s2 := State(One(t, Awaiting), map[p := 1], map[p := [t.key]], {});
    var s3 := State(One(t, Live), map[p := 1], map[p := [t.key]], {p});
    var s4 := State(One(t, Unlisted), map[p := 1], map[p := []], {p});
    var s5 := State(One(t, Uncounted), map[], map[p := []], {p});
    OneEnters(t, s1, s2, s3);
    OneLeaves(t, s3, s4, s5);
    hide Next;
    NoStepIsARun();
    states, steps := Extend([INITIAL], [], Count(t), s1);
    states, steps := Extend(states, steps, List(0), s2);
    states, steps := Extend(states, steps, Watch(0, true), s3);
    states, steps := Extend(states, steps, Unlist(0), s4);
    states, steps := Extend(states, steps, Uncount(0), s5);
  }

  lemma OneEnters(t: Token, s1: State, s2: State, s3: State)
    requires s1 == State(One(t, Counted), map[t.path := 1], map[], {})
    requires s2 == State(One(t, Awaiting), map[t.path := 1], map[t.path := [t.key]], {})
    requires s3 == State(One(t, Live), map[t.path := 1], map[t.path := [t.key]], {t.path})
    ensures Next(INITIAL, Count(t)) == s1
    ensures Enabled(s1, List(0)) && Next(s1, List(0)) == s2
    ensures Enabled(s2, Watch(0, true)) && Next(s2, Watch(0, true)) == s3
  {
    assert KeysAt(s1, t.path) + [t.key] == [t.key];
    assert Next(s1, List(0)).entries == s2.entries && Next(s1, List(0)).keys == s2.keys;
    assert Next(s2, Watch(0, true)).entries == s3.entries;
    assert s2.registered + {t.path} == s3.registered;
  }

  lemma OneLeaves(t: Token, s3: State, s4: State, s5: State)
    requires s3 == State(One(t, Live), map[t.path := 1], map[t.path := [t.key]], {t.path})
    requires s4 == State(One(t, Unlisted), map[t.path := 1], map[t.path := []], {t.path})
    requires s5 == State(One(t, Uncounted), map[], map[t.path := []], {t.path})
    ensures Enabled(s3, Unlist(0)) && Next(s3, Unlist(0)) == s4
    ensures Enabled(s4, Uncount(0)) && Next(s4, Uncount(0)) == s5
  {
    assert WithoutFirst([t.key], t.key) == [];
    assert Next(s3, Unlist(0)).entries == s4.entries && Next(s3, Unlist(0)).keys == s4.keys;
    assert Next(s4, Uncount(0)).entries == s5.entries && Next(s4, Uncount(0)).watched == s5.watched;
  }

  /** The first condition bites: a run that ends with nothing under way and a live token that no event reaches. */
  lemma AKeyCanBeLost(t: Token)
    ensures exists states: seq<State>, steps: seq<Step>, n: nat ::
              && IsRun(states, steps) && n < |states| && Quiet(states[n]) && t.path in states[n].registered
              && LiveKeys(states[n], t.path) == multiset{t.key} && KeysAt(states[n], t.path) == []
  {
    hide LiveKeys, KeysAt, Quiet, IsRun, EachIsWatched;
    var p := t.path;
    var states, steps := TheFirstReleases(t);
    var s1 := State(Two(t, Uncounted, Counted), map[p := 1], map[p := []], {p});
    var s2 := State(Two(t, Uncounted, Awaiting), map[p := 1], map[p := [t.key]], {p});
    var s3 := State(Two(t, Dropped, Awaiting), map[p := 1], map[], {p});
    var s4 := State(Two(t, Gone, Awaiting), map[p := 1], map[], {});
    var s5 := State(Two(t, Gone, Live), map[p := 1], map[], {p});
    EntersBeforeTheDrop(t, states[|steps|], s1, s2, s3);
    assert s3.registered - {p} == s4.registered && s4.registered + {p} == s5.registered;
    assert Enabled(s3, Unwatch(0)) && Next(s3, Unwatch(0)) == s4;
    assert Enabled(s4, Watch(1, true)) && Next(s4, Watch(1, true)) == s5;
    hide Next;
    states, steps := Extend(states, steps, Count(t), s1);
    states, steps := Extend(states, steps, List(1), s2);
    states, steps := Extend(states, steps, DropKeys(0), s3);
    states, steps := Extend(states, steps, Unwatch(0), s4);
    states, steps := Extend(states, steps, Watch(1, true), s5);
    OneLives(s5, t);
  }

  lemma EntersBeforeTheDrop(t: Token, s0: State, s1: State, s2: State, s3: State)
    requires s0 == State(One(t, Uncounted), map[], map[t.path := []], {t.path})
    requires s1 == State(Two(t, Uncounted, Counted), map[t.path := 1], map[t.path := []], {t.path})
    requires s2 == State(Two(t, Uncounted, Awaiting), map[t.path := 1], map[t.path := [t.key]], {t.path})
    requires s3 == State(Two(t, Dropped, Awaiting), map[t.path := 1], map[], {t.path})
    ensures Next(s0, Count(t)) == s1
    ensures Enabled(s1, List(1)) && Next(s1, List(1)) == s2
    ensures Enabled(s2, DropKeys(0)) && Next(s2, DropKeys(0)) == s3
  {
    assert KeysAt(s1, t.path) + [t.key] == [t.key];
    assert Next(s1, List(1)).entries == s2.entries && Next(s1, List(1)).keys == s2.keys;
    assert Next(s2, DropKeys(0)).entries == s3.entries && Next(s2, DropKeys(0)).keys == s3.keys;
  }

  /** And so does the second: a live token that the tables list, on a path that is no longer watched. */
  lemma AWatchCanBeUndone(t: Token)
    ensures exists states: seq<State>, steps: seq<Step>, n: nat ::
              && IsRun(states, steps) && n < |states| && Quiet(states[n]) && t.path !in states[n].registered
              && LiveKeys(states[n], t.path) == multiset{t.key} && KeysAt(states[n], t.path) == [t.key]
              && EachIsWatched(steps)
  {
    hide LiveKeys, KeysAt, Quiet, IsRun, EachIsWatched;
    var p := t.path;
    var states, steps := TheFirstReleases(t);
    var s1 := State(One(t, Dropped), map[], map[], {p});
    var s2 := State(Two(t, Dropped, Counted), map[p := 1], map[], {p});
    var s3 := State(Two(t, Dropped, Awaiting), map[p := 1], map[p := [t.key]], {p});
    var s4 := State(Two(t, Dropped, Live), map[p := 1], map[p := [t.key]], {p});
    var s5 := State(Two(t, Gone, Live), map[p := 1], map[p := [t.key]], {});
    EntersAfterTheDrop(t, states[|steps|], s1, s2, s3);
    assert s3.registered + {p} == s4.registered && s4.registered - {p} == s5.registered;
    assert Enabled(s3, Watch(1, true)) && Next(s3, Watch(1, true)) == s4;
    assert Enabled(s4, Unwatch(0)) && Next(s4, Unwatch(0)) == s5;
    hide Next;
    states, steps := Extend(states, steps, DropKeys(0), s1);
    states, steps := Extend(states, steps, Count(t), s2);
    states, steps := Extend(states, steps, List(1), s3);
    states, steps := Extend(states, steps, Watch(1, true), s4);
    states, steps := Extend(states, steps, Unwatch(0), s5);
    OneLives(s5, t);
  }

  lemma EntersAfterTheDrop(t: Token, s0: State, s1: State, s2: State, s3: State)
    requires s0 == State(One(t, Uncounted), map[], map[t.path := []], {t.path})
    requires s1 == State(One(t, Dropped), map[], map[], {t.path})
    requires s2 == State(Two(t, Dropped, Counted), map[t.path := 1], map[], {t.path})
    requires s3 == State(Two(t, Dropped, Awaiting), map[t.path := 1], map[t.path := [t.key]], {t.path})
    ensures Enabled(s0, DropKeys(0)) && Next(s0, DropKeys(0)) == s1
    ensures Next(s1, Count(t)) == s2
    ensures Enabled(s2, List(1)) && Next(s2, List(1)) == s3
  {
    assert Next(s0, DropKeys(0)).entries == s1.entries && Next(s0, DropKeys(0)).keys == s1.keys;
    assert KeysAt(s2, t.path) + [t.key] == [t.key];
    assert Next(s2, List(1)).entries == s3.entries && Next(s2, List(1)).keys == s3.keys;
  }
}
