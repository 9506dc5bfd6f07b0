/**
 The registry of watched paths (`WatchHub::subscribe`, `Inner::release` and
 `Inner::keys_for_event_path` in daemon/src/watch_hub.rs).
 */
module WatchRegistry {
  /**
   Subscribing hands out a token and dropping the token releases it. The registry keeps, per path,
   a reference count and the list of interested keys; it is proved to be nothing more than the bag
   of the tokens that are alive. What exists on disk, and what canonicalization answers, are
   parameters of each call.
   */

  import opened Wrappers

  /** The components of an absolute path; the root has none. */
  type Path = seq<string>

  datatype Tier = Global | OfScene(scene: string) | OfProject(root: Path)

  datatype WatchTarget = Settings | Skills | Agents | Plugins | RulesHooks

  datatype WatchKey = WatchKey(tier: Tier, target: WatchTarget)

  datatype Token = Token(key: WatchKey, path: Path)

  // ---------------------------------------------------------------- the path that gets watched

  /** The nearest existing ancestor of `path`, or `path` itself when there is none. */
  method NearestExisting(onDisk: Path -> bool, path: Path) returns (found: Path)
    ensures found <= path && (onDisk(found) || found == path)
    ensures forall q: Path :: q <= path && onDisk(q) ==> onDisk(found) && q <= found
  {
    var n: nat := |path|;
    while !onDisk(path[..n]) && n > 0
      invariant n <= |path|
      invariant forall q: Path :: q <= path && |q| > n ==> !onDisk(q)
    {
      forall q: Path | q <= path && |q| == n ensures !onDisk(q) {
        assert q == path[..n];
      }
      n := n - 1;
    }
    found := if onDisk(path[..n]) then path[..n] else path;
    if !onDisk(path[..n]) {
      forall q: Path | q <= path ensures !onDisk(q) {
        if |q| == 0 {
          assert q == path[..n];
        }
      }
    }
  }

  // ---------------------------------------------------------------- the registry as a value

  /** `registered` are the paths handed to the operating system's watcher. */
  datatype Registry = Registry(watched: map<Path, nat>, keys: map<Path, seq<WatchKey>>, registered: set<Path>)

  const EMPTY := Registry(map[], map[], {})

  function Subscribed(r: Registry, t: Token, onDisk: bool): Registry {
    Registry(
      r.watched[t.path := if t.path in r.watched then r.watched[t.path] + 1 else 1],
      r.keys[t.path := (if t.path in r.keys then r.keys[t.path] else []) + [t.key]],
      if t.path !in r.watched && onDisk then r.registered + {t.path} else r.registered)
  }

  function PositionOf(keys: seq<WatchKey>, key: WatchKey, from: nat): (i: nat)
    requires from <= |keys|
    ensures from <= i <= |keys|
    ensures i < |keys| ==> keys[i] == key
    ensures forall j :: from <= j < i ==> keys[j] != key
    decreases |keys| - from
  {
    if from == |keys| || keys[from] == key then from else PositionOf(keys, key, from + 1)
  }

  /** The first occurrence of `key` goes, if there is one. */
  function WithoutFirst(keys: seq<WatchKey>, key: WatchKey): (r: seq<WatchKey>)
    ensures multiset(r) == multiset(keys) - multiset{key}
  {
    var i := PositionOf(keys, key, 0);
    if i < |keys| then
      assert keys == keys[..i] + [key] + keys[i + 1..];
      keys[..i] + keys[i + 1..]
    else keys
  }

  function Released(r: Registry, t: Token): Registry {
    var keys := if t.path in r.keys then r.keys[t.path := WithoutFirst(r.keys[t.path], t.key)] else r.keys;
    if t.path !in r.watched then r.(keys := keys)
    else if r.watched[t.path] > 1 then r.(keys := keys, watched := r.watched[t.path := r.watched[t.path] - 1])
    else Registry(r.watched - {t.path}, keys - {t.path}, r.registered - {t.path})
  }

  // ---------------------------------------------------------------- the bag of live tokens

  /** The keys of the tokens on one of `paths`, each as often as there are such tokens. */
  ghost function Bag(tokens: seq<Token>, paths: set<Path>): multiset<WatchKey> {
    if tokens == [] then multiset{}
    else
      var last := tokens[|tokens| - 1];
      Bag(tokens[..|tokens| - 1], paths) + if last.path in paths then multiset{last.key} else multiset{}
  }

  /** What the registry says of `p`, when `b` are the keys of the live tokens on it. */
  ghost predicate RightFor(r: Registry, p: Path, b: multiset<WatchKey>) {
    && (p in r.watched <==> b != multiset{})
    && (p in r.keys <==> p in r.watched)
    && (p in r.watched ==> r.watched[p] == |b|)
    && (p in r.keys ==> multiset(r.keys[p]) == b)
    && (p in r.registered ==> p in r.watched)
  }

  ghost predicate RightAt(r: Registry, tokens: seq<Token>, p: Path) {
    RightFor(r, p, Bag(tokens, {p}))
  }

  /** The registry says of each path exactly what the live tokens on it say. */
  ghost predicate Refines(r: Registry, tokens: seq<Token>) {
    forall p :: RightAt(r, tokens, p)
  }

  lemma {:induction false} BagConcat(a: seq<Token>, b: seq<Token>, paths: set<Path>)
    ensures Bag(a + b, paths) == Bag(a, paths) + Bag(b, paths)
  {
    if b == [] {
      assert a + b == a;
    } else {
      assert (a + b)[..|a + b| - 1] == a + b[..|b| - 1];
      BagConcat(a, b[..|b| - 1], paths);
    }
  }

  lemma BagOne(t: Token, paths: set<Path>)
    ensures Bag([t], paths) == if t.path in paths then multiset{t.key} else multiset{}
  {
    assert [t][..0] == [];
  }

  function Dropped(tokens: seq<Token>, i: nat): seq<Token>
    requires i < |tokens|
  {
    tokens[..i] + tokens[i + 1..]
  }

  lemma BagDropped(tokens: seq<Token>, i: nat, paths: set<Path>)
    requires i < |tokens|
    ensures Bag(tokens, paths)
         == Bag(Dropped(tokens, i), paths) + if tokens[i].path in paths then multiset{tokens[i].key} else multiset{}
  {
    assert tokens == tokens[..i] + ([tokens[i]] + tokens[i + 1..]);
    BagConcat(tokens[..i], [tokens[i]] + tokens[i + 1..], paths);
    BagConcat([tokens[i]], tokens[i + 1..], paths);
    BagConcat(tokens[..i], tokens[i + 1..], paths);
    BagOne(tokens[i], paths);
  }

  lemma {:induction false} BagUnion(tokens: seq<Token>, a: set<Path>, b: set<Path>)
    requires a !! b
    ensures Bag(tokens, a + b) == Bag(tokens, a) + Bag(tokens, b)
  {
    if tokens != [] {
      BagUnion(tokens[..|tokens| - 1], a, b);
    }
  }

  /** Only the tokens' own paths matter. */
  lemma {:induction false} BagOnPaths(tokens: seq<Token>, a: set<Path>, b: set<Path>)
    requires forall i {:trigger tokens[i]} :: 0 <= i < |tokens| ==> (tokens[i].path in a <==> tokens[i].path in b)
    ensures Bag(tokens, a) == Bag(tokens, b)
  {
    if tokens != [] {
      BagOnPaths(tokens[..|tokens| - 1], a, b);
    }
  }

  lemma SubscribedAt(r: Registry, t: Token, onDisk: bool, p: Path, b: multiset<WatchKey>)
    requires RightFor(r, p, b)
    ensures RightFor(Subscribed(r, t, onDisk), p, b + if t.path == p then multiset{t.key} else multiset{})
  {
  }

  lemma ReleasedAt(r: Registry, t: Token, p: Path, b: multiset<WatchKey>)
    requires RightFor(r, p, b + if t.path == p then multiset{t.key} else multiset{})
    ensures RightFor(Released(r, t), p, b)
  {
    if t.path == p {
      assert (b + multiset{t.key}) - multiset{t.key} == b;
      assert t.key in b + multiset{t.key};
    }
  }

  lemma SubscribedRefines(r: Registry, tokens: seq<Token>, t: Token, onDisk: bool)
    requires Refines(r, tokens)
    ensures Refines(Subscribed(r, t, onDisk), tokens + [t])
  {
    hide Bag, RightFor, Subscribed;
    forall p: Path ensures RightAt(Subscribed(r, t, onDisk), tokens + [t], p) {
      assert RightAt(r, tokens, p);
      BagConcat(tokens, [t], {p});
      BagOne(t, {p});
      SubscribedAt(r, t, onDisk, p, Bag(tokens, {p}));
    }
  }

  lemma ReleasedRefines(r: Registry, tokens: seq<Token>, i: nat)
    requires Refines(r, tokens) && i < |tokens|
    ensures Refines(Released(r, tokens[i]), Dropped(tokens, i))
  {
    hide Bag, RightFor, Released, Dropped;
    forall p: Path ensures RightAt(Released(r, tokens[i]), Dropped(tokens, i), p) {
      assert RightAt(r, tokens, p);
      BagDropped(tokens, i, {p});
      ReleasedAt(r, tokens[i], p, Bag(Dropped(tokens, i), {p}));
    }
  }

  lemma EmptyRefines()
    ensures Refines(EMPTY, [])
  {
    forall p: Path ensures RightAt(EMPTY, [], p) {
      assert Bag([], {p}) == multiset{};
    }
  }

  // ---------------------------------------------------------------- any sequence of subscribes and drops

  /** A drop names the live token it drops by its position. */
  datatype Op = Subscribe(token: Token, onDisk: bool) | Drop(i: nat)

  ghost function Live(ops: seq<Op>, n: nat): seq<Token>
    requires n <= |ops|
  {
    if n == 0 then []
    else
      match ops[n - 1]
      case Subscribe(t, _) => Live(ops, n - 1) + [t]
      case Drop(i) => if i < |Live(ops, n - 1)| then Dropped(Live(ops, n - 1), i) else Live(ops, n - 1)
  }

  ghost function After(ops: seq<Op>, n: nat): Registry
    requires n <= |ops|
  {
    if n == 0 then EMPTY
    else
      match ops[n - 1]
      case Subscribe(t, onDisk) => Subscribed(After(ops, n - 1), t, onDisk)
      case Drop(i) =>
        if i < |Live(ops, n - 1)| then Released(After(ops, n - 1), Live(ops, n - 1)[i]) else After(ops, n - 1)
  }

  /** After any sequence of subscribes and drops the registry is the bag of the live tokens. */
  lemma {:induction false} RegistryIsTheBag(ops: seq<Op>, n: nat)
    requires n <= |ops|
    ensures Refines(After(ops, n), Live(ops, n))
  {
    hide Refines, Subscribed, Released;
    if n == 0 {
      EmptyRefines();
    } else {
      RegistryIsTheBag(ops, n - 1);
      match ops[n - 1]
      case Subscribe(t, onDisk) => SubscribedRefines(After(ops, n - 1), Live(ops, n - 1), t, onDisk);
      case Drop(i) =>
        if i < |Live(ops, n - 1)| {
          ReleasedRefines(After(ops, n - 1), Live(ops, n - 1), i);
        }
    }
  }

  /** In particular dropping every token leaves nothing behind. */
  lemma AllDroppedLeavesNothing(ops: seq<Op>, n: nat)
    requires n <= |ops| && Live(ops, n) == []
    ensures After(ops, n) == EMPTY
  {
    RegistryIsTheBag(ops, n);
    var r := After(ops, n);
    forall p: Path ensures p !in r.watched && p !in r.keys && p !in r.registered {
      assert RightAt(r, [], p);
    }
    assert r.watched == map[] && r.keys == map[] && r.registered == {};
  }

  // ---------------------------------------------------------------- what the operating system is told

  /** After `n` operations some live token is on `p`. */
  ghost predicate HasToken(ops: seq<Op>, n: nat, p: Path)
    requires n <= |ops|
  {
    Bag(Live(ops, n), {p}) != multiset{}
  }

  /** Operation `k` made the first of the tokens that `p` has had without a break until after `n`. */
  ghost predicate BeganAt(ops: seq<Op>, k: nat, n: nat, p: Path)
    requires n <= |ops|
  {
    && k < n && ops[k].Subscribe? && ops[k].token.path == p && !HasToken(ops, k, p)
    && forall j {:trigger HasToken(ops, j, p)} :: k < j <= n ==> HasToken(ops, j, p)
  }

  /** `p` has had tokens since a subscription that found it on disk. */
  ghost predicate SeenOnDisk(ops: seq<Op>, n: nat, p: Path)
    requires n <= |ops|
  {
    exists k: nat :: BeganAt(ops, k, n, p) && ops[k].onDisk
  }

  lemma HasTokenIff(ops: seq<Op>, n: nat, p: Path)
    requires n <= |ops|
    ensures HasToken(ops, n, p) <==> p in After(ops, n).watched
    ensures p in After(ops, n).registered ==> HasToken(ops, n, p)
  {
    RegistryIsTheBag(ops, n);
    assert RightAt(After(ops, n), Live(ops, n), p);
  }

  lemma RegisteredStep(ops: seq<Op>, n: nat, p: Path)
    requires n < |ops|
    ensures p in After(ops, n + 1).registered
       <==> || (p in After(ops, n).registered && HasToken(ops, n + 1, p))
            || (ops[n].Subscribe? && ops[n].token.path == p && ops[n].onDisk && !HasToken(ops, n, p))
  {
    HasTokenIff(ops, n, p);
    HasTokenIff(ops, n + 1, p);
    hide HasToken, WithoutFirst;
  }

  /** A path gets tokens from none only by a subscription to it. */
  lemma SeenStep(ops: seq<Op>, n: nat, p: Path)
    requires n < |ops|
    ensures SeenOnDisk(ops, n + 1, p)
       <==> || (SeenOnDisk(ops, n, p) && HasToken(ops, n + 1, p))
            || (ops[n].Subscribe? && ops[n].token.path == p && ops[n].onDisk && !HasToken(ops, n, p))
  {
    HasTokenIff(ops, n, p);
    HasTokenIff(ops, n + 1, p);
    hide HasToken, WithoutFirst;
    if SeenOnDisk(ops, n, p) && HasToken(ops, n + 1, p) {
      var k: nat :| BeganAt(ops, k, n, p) && ops[k].onDisk;
      assert BeganAt(ops, k, n + 1, p);
    }
    if ops[n].Subscribe? && ops[n].token.path == p && ops[n].onDisk && !HasToken(ops, n, p) {
      assert BeganAt(ops, n, n + 1, p);
    }
    if SeenOnDisk(ops, n + 1, p) {
      var k: nat :| BeganAt(ops, k, n + 1, p) && ops[k].onDisk;
      assert HasToken(ops, n + 1, p);
      if k < n {
        assert BeganAt(ops, k, n, p);
      }
    }
  }

  /**
   The operating system watches a path exactly if it has tokens and was on disk when the first of
   them, of those it has had without a break, was handed out.
   */
  lemma {:induction false} RegisteredIff(ops: seq<Op>, n: nat, p: Path)
    requires n <= |ops|
    ensures p in After(ops, n).registered <==> SeenOnDisk(ops, n, p)
    ensures SeenOnDisk(ops, n, p) ==> HasToken(ops, n, p)
  {
    HasTokenIff(ops, n, p);
    if n > 0 {
      hide HasToken, SeenOnDisk;
      RegisteredIff(ops, n - 1, p);
      RegisteredStep(ops, n - 1, p);
      SeenStep(ops, n - 1, p);
    }
  }

  /** If every path is there when it is subscribed to, the watched paths are those of the live tokens. */
  lemma {:induction false} AllOnDiskAreWatched(ops: seq<Op>, n: nat, p: Path)
    requires n <= |ops|
    requires forall k :: 0 <= k < n && ops[k].Subscribe? ==> ops[k].onDisk
    ensures p in After(ops, n).registered <==> HasToken(ops, n, p)
  {
    HasTokenIff(ops, n, p);
    if n > 0 {
      AllOnDiskAreWatched(ops, n - 1, p);
      RegisteredStep(ops, n - 1, p);
      HasTokenIff(ops, n - 1, p);
      hide HasToken, WithoutFirst;
    }
  }

  // ---------------------------------------------------------------- the registry in place

  /** The paths an event at `event` concerns: itself and its ancestors. */
  function AncestorsOf(event: Path): set<Path> {
    set n | 0 <= n <= |event| :: event[..n]
  }

  lemma AncestorsArePrefixes(event: Path, p: Path)
    ensures p in AncestorsOf(event) <==> p <= event
  {
    if p <= event {
      assert p == event[..|p|];
    }
  }

  class WatchHub {
    var watchedPaths: map<Path, nat>
    var pathKeys: map<Path, seq<WatchKey>>
    var registered: set<Path>
    ghost var tokens: seq<Token>

    ghost function Value(): Registry
      reads this
    {
      Registry(watchedPaths, pathKeys, registered)
    }

    ghost predicate Valid()
      reads this
    {
      Refines(Value(), tokens)
    }

    constructor ()
      ensures Valid() && Value() == EMPTY && tokens == []
    {
      watchedPaths, pathKeys, registered := map[], map[], {};
      tokens := [];
      new;
      EmptyRefines();
    }

    method Subscribe(key: WatchKey, path: Path, onDisk: Path -> bool, canonical: Path -> Option<Path>)
      returns (token: Token, ghost requested: Path)
      requires Valid()
      modifies this
      ensures Valid()
      // The nearest existing ancestor is asked for, and the path itself when there is none.
      ensures requested <= path && (onDisk(requested) || requested == path)
      ensures forall q: Path :: q <= path && onDisk(q) ==> onDisk(requested) && q <= requested
      ensures token == Token(key, if canonical(requested).Some? then canonical(requested).value else requested)
      ensures tokens == old(tokens) + [token]
      ensures Value() == Subscribed(old(Value()), token, onDisk(token.path))
    {
      hide Refines;
      var nearest := NearestExisting(onDisk, path);
      requested := nearest;
      var actual := match canonical(nearest) case Some(p) => p case None => nearest;
      token := Token(key, actual);
      SubscribedRefines(Value(), tokens, token, onDisk(actual));
      var firstRegistration := actual !in watchedPaths;
      watchedPaths := watchedPaths[actual := (if actual in watchedPaths then watchedPaths[actual] else 0) + 1];
      pathKeys := pathKeys[actual := (if actual in pathKeys then pathKeys[actual] else []) + [key]];
      if firstRegistration && onDisk(actual) {
        registered := registered + {actual};
      }
      tokens := tokens + [token];
    }

    /** Drops the live token number `i`, which is `token`. */
    method Release(token: Token, ghost i: nat)
      requires Valid() && i < |tokens| && tokens[i] == token
      modifies this
      ensures Valid()
      ensures tokens == Dropped(old(tokens), i)
      ensures Value() == Released(old(Value()), token)
    {
      hide Refines, Dropped, WithoutFirst;
      ReleasedRefines(Value(), tokens, i);
      var actual := token.path;
      tokens := Dropped(tokens, i);
      if actual in pathKeys {
        pathKeys := pathKeys[actual := WithoutFirst(pathKeys[actual], token.key)];
      }
      if actual in watchedPaths {
        if watchedPaths[actual] > 1 {
          watchedPaths := watchedPaths[actual := watchedPaths[actual] - 1];
          return;
        }
        watchedPaths := watchedPaths - {actual};
        pathKeys := pathKeys - {actual};
        registered := registered - {actual};
      }
    }

    /** An event concerns exactly the keys of the live tokens on its path or an ancestor of it. */
    method KeysForEventPath(event: Path) returns (keys: seq<WatchKey>)
      requires Valid()
      ensures multiset(keys) == Bag(tokens, AncestorsOf(event))
    {
      hide Bag;
      keys := [];
      var todo := pathKeys.Keys;
      ghost var done: set<Path> := {};
      NothingInNoPath(tokens);
      assert done * AncestorsOf(event) == {};
      while todo != {}
        invariant todo !! done && todo + done == pathKeys.Keys
        invariant multiset(keys) == Bag(tokens, done * AncestorsOf(event))
      {
        var p :| p in todo;
        AncestorsArePrefixes(event, p);
        if p <= event {
          assert RightAt(Value(), tokens, p);
          BagUnion(tokens, done * AncestorsOf(event), {p});
          keys := keys + pathKeys[p];
          assert (done + {p}) * AncestorsOf(event) == done * AncestorsOf(event) + {p};
        } else {
          assert (done + {p}) * AncestorsOf(event) == done * AncestorsOf(event);
        }
        todo, done := todo - {p}, done + {p};
      }
      TokenPathsAreWatched(Value(), tokens);
      BagOnPaths(tokens, done * AncestorsOf(event), AncestorsOf(event));
    }
  }

  lemma {:induction false} NothingInNoPath(tokens: seq<Token>)
    ensures Bag(tokens, {}) == multiset{}
  {
    if tokens != [] {
      NothingInNoPath(tokens[..|tokens| - 1]);
    }
  }

  lemma TokenPathsAreWatched(r: Registry, tokens: seq<Token>)
    requires Refines(r, tokens)
    ensures forall i {:trigger tokens[i]} :: 0 <= i < |tokens| ==> tokens[i].path in r.keys
  {
    hide Bag;
    forall i: nat | i < |tokens| ensures tokens[i].path in r.keys {
      assert RightAt(r, tokens, tokens[i].path);
      BagDropped(tokens, i, {tokens[i].path});
    }
  }
}
