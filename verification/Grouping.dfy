/**
 Grouping a transcript into API rounds (crates/compaction/src/grouping.rs).

 `Group` follows the source's loop. `WellCut` says, without any loop, what a grouping is:
 `GroupWellCut` and `RegroupWellCut` together make `Group` the only function that meets it.
 */
module Grouping {
  import opened Transcript

  datatype ApiRound = ApiRound(start: nat, messages: seq<Message>, estimatedTokens: nat)

  predicate IsUserText(m: Message) {
    m.role.User? && |m.content| > 0 && m.content[0].Text?
  }

  predicate IsToolResult(m: Message) {
    m.role.User? && |m.content| > 0 && m.content[0].ToolResult?
  }

  /** A message that opens a new round when it comes directly after `prev`. */
  predicate StartsRound(prev: Message, m: Message) {
    IsUserText(m) || (m.role.Assistant? && IsToolResult(prev))
  }

  /** A round begins at position `i`. */
  predicate Cut(msgs: seq<Message>, i: nat)
    requires i < |msgs|
  {
    i == 0 || StartsRound(msgs[i - 1], msgs[i])
  }

  function Last<T>(s: seq<T>): T
    requires s != []
  {
    s[|s| - 1]
  }

  /** The newest `k` elements. */
  function Newest<T>(s: seq<T>, k: nat): (r: seq<T>)
    requires k <= |s|
    ensures |r| == k
  {
    s[|s| - k..]
  }

  lemma NewestAll<T>(s: seq<T>)
    ensures Newest(s, |s|) == s
  {
  }

  lemma NewestOfAppend<T>(a: seq<T>, b: seq<T>, k: nat)
    requires k <= |b|
    ensures Newest(a + b, k) == Newest(b, k)
    ensures Newest(a + b, |b|) == b
  {
  }

  // ---------------------------------------------------------------- rounds laid end to end

  /** The messages of the first `n` rounds. */
  function FlattenFirst(g: seq<seq<Message>>, n: nat): seq<Message>
    requires n <= |g|
  {
    if n == 0 then [] else FlattenFirst(g, n - 1) + g[n - 1]
  }

  function Flatten(g: seq<seq<Message>>): seq<Message> {
    FlattenFirst(g, |g|)
  }

  /** Where round `r` begins, as an index into the messages. */
  function Start(g: seq<seq<Message>>, r: nat): (s: nat)
    requires r <= |g|
    ensures s == |FlattenFirst(g, r)|
  {
    if r == 0 then 0 else Start(g, r - 1) + |g[r - 1]|
  }

  lemma {:induction false} FlattenFirstAgrees(a: seq<seq<Message>>, b: seq<seq<Message>>, n: nat)
    requires n <= |a| && n <= |b| && forall r :: 0 <= r < n ==> a[r] == b[r]
    ensures FlattenFirst(a, n) == FlattenFirst(b, n)
  {
    if n > 0 {
      FlattenFirstAgrees(a, b, n - 1);
    }
  }

  lemma FlattenSnoc(a: seq<seq<Message>>, r: seq<Message>)
    ensures Flatten(a + [r]) == Flatten(a) + r
  {
    FlattenFirstAgrees(a + [r], a, |a|);
  }

  /** Splitting the rounds splits the messages. */
  lemma {:induction false} FlattenFirstSplit(g: seq<seq<Message>>, k: nat, n: nat)
    requires k <= |g| && |g| - k <= n <= |g|
    ensures FlattenFirst(g, n) == FlattenFirst(g, |g| - k) + FlattenFirst(Newest(g, k), n - (|g| - k))
  {
    if n > |g| - k {
      FlattenFirstSplit(g, k, n - 1);
      assert Newest(g, k)[n - 1 - (|g| - k)] == g[n - 1];
    }
  }

  lemma FlattenSplit(g: seq<seq<Message>>, k: nat)
    requires k <= |g|
    ensures Flatten(g) == FlattenFirst(g, |g| - k) + Flatten(Newest(g, k))
  {
    FlattenFirstSplit(g, k, |g|);
  }

  /** Where message `m` of round `r` sits among those of the first `n` rounds. */
  lemma {:induction false} MessageAt(g: seq<seq<Message>>, n: nat, r: nat, m: nat)
    requires r < n <= |g| && m < |g[r]|
    ensures Start(g, r) + m < Start(g, r + 1) <= Start(g, n)
    ensures FlattenFirst(g, n)[Start(g, r) + m] == g[r][m]
  {
    if r < n - 1 {
      MessageAt(g, n - 1, r, m);
    }
  }

  lemma {:induction false} StartMonotone(g: seq<seq<Message>>, r: nat, n: nat)
    requires r <= n <= |g|
    ensures Start(g, r) <= Start(g, n)
  {
    if r < n {
      StartMonotone(g, r, n - 1);
    }
  }

  /** The last round ends the messages. */
  lemma FlattenEnds(g: seq<seq<Message>>)
    requires g != []
    ensures |Flatten(g)| == Start(g, |g| - 1) + |Last(g)|
    ensures Newest(Flatten(g), |Last(g)|) == Last(g)
  {
    NewestOfAppend(FlattenFirst(g, |g| - 1), Last(g), 0);
  }

  lemma FlattenLast(g: seq<seq<Message>>)
    requires g != [] && Last(g) != []
    ensures Flatten(g) != [] && Last(Flatten(g)) == Last(Last(g))
  {
  }

  // ---------------------------------------------------------------- the grouping

  /** The message `m` added to the last of the rounds `g`. */
  function Extend(g: seq<seq<Message>>, m: Message): seq<seq<Message>>
    requires g != []
  {
    g[|g| - 1 := Last(g) + [m]]
  }

  /**
   The rounds of the first `n` messages, as nonempty runs: each message joins the last round
   of what came before it, or opens a round of its own.
   */
  function GroupFirst(msgs: seq<Message>, n: nat): (g: seq<seq<Message>>)
    requires n <= |msgs|
    ensures g == [] <==> n == 0
  {
    if n == 0 then []
    else
      var before := GroupFirst(msgs, n - 1);
      if Cut(msgs, n - 1) then before + [[msgs[n - 1]]] else Extend(before, msgs[n - 1])
  }

  function Group(msgs: seq<Message>): (g: seq<seq<Message>>)
    ensures g == [] <==> msgs == []
  {
    GroupFirst(msgs, |msgs|)
  }

  /**
   What a grouping is: nonempty rounds, a round start at the head of every round but the
   first, and no round start inside a round.
   */
  ghost predicate WellCut(g: seq<seq<Message>>) {
    && (forall r :: 0 <= r < |g| ==> g[r] != [])
    && (forall r :: 1 <= r < |g| ==> StartsRound(Last(g[r - 1]), g[r][0]))
    && (forall r, i :: 0 <= r < |g| && 1 <= i < |g[r]| ==> !StartsRound(g[r][i - 1], g[r][i]))
  }

  lemma WellCutAppend(g: seq<seq<Message>>, m: Message)
    requires WellCut(g) && (g != [] ==> StartsRound(Last(Last(g)), m))
    ensures WellCut(g + [[m]]) && Flatten(g + [[m]]) == Flatten(g) + [m]
  {
    FlattenSnoc(g, [m]);
  }

  lemma FlattenExtend(g: seq<seq<Message>>, m: Message)
    requires g != []
    ensures Flatten(Extend(g, m)) == Flatten(g) + [m]
  {
    FlattenFirstAgrees(Extend(g, m), g, |g| - 1);
  }

  lemma WellCutExtend(g: seq<seq<Message>>, m: Message)
    requires g != [] && WellCut(g) && !StartsRound(Last(Last(g)), m)
    ensures WellCut(Extend(g, m))
  {
    var e := Extend(g, m);
    forall k, i | 0 <= k < |e| && 1 <= i < |e[k]| ensures !StartsRound(e[k][i - 1], e[k][i]) {
      if k == |g| - 1 && i == |g[k]| {
        assert e[k][i - 1] == Last(g[k]) && e[k][i] == m;
      } else {
        assert e[k][i - 1] == g[k][i - 1] && e[k][i] == g[k][i];
      }
    }
    forall k | 1 <= k < |e| ensures StartsRound(Last(e[k - 1]), e[k][0]) {
      assert e[k][0] == g[k][0];
    }
  }

  lemma {:induction false} GroupFirstWellCut(msgs: seq<Message>, n: nat)
    requires n <= |msgs|
    ensures WellCut(GroupFirst(msgs, n)) && Flatten(GroupFirst(msgs, n)) == msgs[..n]
  {
    if n > 0 {
      var before := GroupFirst(msgs, n - 1);
      GroupFirstWellCut(msgs, n - 1);
      assert msgs[..n] == msgs[..n - 1] + [msgs[n - 1]];
      if before != [] {
        FlattenLast(before);
      }
      if Cut(msgs, n - 1) {
        WellCutAppend(before, msgs[n - 1]);
      } else {
        WellCutExtend(before, msgs[n - 1]);
        FlattenExtend(before, msgs[n - 1]);
      }
    }
  }

  /** Grouping loses, invents and reorders no message, and cuts exactly at the round starts. */
  lemma GroupWellCut(msgs: seq<Message>)
    ensures WellCut(Group(msgs)) && Flatten(Group(msgs)) == msgs
  {
    GroupFirstWellCut(msgs, |msgs|);
    assert msgs[..|msgs|] == msgs;
  }

  lemma {:induction false} GroupFirstAgrees(a: seq<Message>, b: seq<Message>, n: nat)
    requires n <= |a| && n <= |b| && forall i :: 0 <= i < n ==> a[i] == b[i]
    ensures GroupFirst(a, n) == GroupFirst(b, n)
  {
    if n > 0 {
      GroupFirstAgrees(a, b, n - 1);
    }
  }

  lemma GroupSnoc(msgs: seq<Message>, m: Message)
    ensures msgs == [] || StartsRound(Last(msgs), m) ==> Group(msgs + [m]) == Group(msgs) + [[m]]
    ensures msgs != [] && !StartsRound(Last(msgs), m) ==> Group(msgs + [m]) == Extend(Group(msgs), m)
  {
    GroupFirstAgrees(msgs + [m], msgs, |msgs|);
  }

  /** Nothing else is a grouping: regrouping the messages of any well-cut rounds gives them back. */
  lemma {:induction false} RegroupWellCut(g: seq<seq<Message>>)
    requires WellCut(g)
    ensures Group(Flatten(g)) == g
    decreases |Flatten(g)|
  {
    if g == [] {
      FlattenNothing();
    } else {
      hide Group, Flatten;
      var r := Last(g);
      if |r| == 1 {
        var head := g[..|g| - 1];
        WithoutLoneRound(g);
        RegroupWellCut(head);
        GroupSnoc(Flatten(head), r[0]);
      } else {
        var shorter := g[|g| - 1 := r[..|r| - 1]];
        WithoutLastMessage(g);
        RegroupWellCut(shorter);
        GroupSnoc(Flatten(shorter), Last(r));
      }
    }
  }

  lemma FlattenNothing()
    ensures Flatten([]) == [] && Group([]) == []
  {
  }

  lemma WithoutLoneRound(g: seq<seq<Message>>)
    requires WellCut(g) && g != [] && |Last(g)| == 1
    ensures var head, m := g[..|g| - 1], Last(g)[0];
            && WellCut(head) && g == head + [[m]] && Flatten(g) == Flatten(head) + [m]
            && (Flatten(head) == [] || StartsRound(Last(Flatten(head)), m))
  {
    var head, r := g[..|g| - 1], Last(g);
    assert r == [r[0]];
    assert g == head + [[r[0]]];
    FlattenSnoc(head, r);
    if head != [] { FlattenLast(head); }
  }

  lemma WithoutLastMessage(g: seq<seq<Message>>)
    requires WellCut(g) && g != [] && |Last(g)| != 1
    ensures var shorter, m := g[|g| - 1 := Last(g)[..|Last(g)| - 1]], Last(Last(g));
            && WellCut(shorter) && shorter != [] && g == Extend(shorter, m) && Flatten(g) == Flatten(shorter) + [m]
            && Flatten(shorter) != [] && !StartsRound(Last(Flatten(shorter)), m)
  {
    var r := Last(g);
    var shorter := g[|g| - 1 := r[..|r| - 1]];
    assert r == r[..|r| - 1] + [Last(r)];
    assert Last(shorter) == r[..|r| - 1];
    assert g == Extend(shorter, Last(r));
    FlattenExtend(shorter, Last(r));
    FlattenLast(shorter);
  }

  /** The newest rounds of a transcript are the grouping of the messages they hold. */
  lemma RegroupNewest(msgs: seq<Message>, k: nat)
    requires k <= |Group(msgs)|
    ensures Group(Flatten(Newest(Group(msgs), k))) == Newest(Group(msgs), k)
  {
    hide Group, Flatten;
    GroupWellCut(msgs);
    WellCutNewest(Group(msgs), k);
    RegroupWellCut(Newest(Group(msgs), k));
  }

  lemma WellCutNewest(g: seq<seq<Message>>, k: nat)
    requires WellCut(g) && k <= |g|
    ensures WellCut(Newest(g, k))
  {
    assert forall i :: 0 <= i < k ==> Newest(g, k)[i] == g[|g| - k + i];
  }

  lemma RoundStartsAtCut(g: seq<seq<Message>>, d: nat)
    requires WellCut(g) && d < |g|
    ensures Start(g, d) < |Flatten(g)| && Cut(Flatten(g), Start(g, d))
  {
    hide FlattenFirst;
    MessageAt(g, |g|, d, 0);
    if d > 0 {
      MessageAt(g, |g|, d - 1, |g[d - 1]| - 1);
    }
  }

  /** The newest rounds hold a suffix of the messages, and it begins at a round start. */
  lemma NewestStartsAtCut(g: seq<seq<Message>>, k: nat)
    requires WellCut(g) && 1 <= k <= |g|
    ensures var msgs, kept := Flatten(g), Flatten(Newest(g, k));
            && 1 <= |kept| <= |msgs|
            && Newest(msgs, |kept|) == kept
            && Cut(msgs, |msgs| - |kept|)
  {
    hide Flatten, FlattenFirst, WellCut, Cut, Newest;
    FlattenSplit(g, k);
    RoundStartsAtCut(g, |g| - k);
    NewestOfAppend(FlattenFirst(g, |g| - k), Flatten(Newest(g, k)), 0);
  }

  /** Message `m` of round `r` in the transcript. */
  lemma RoundMessageAt(msgs: seq<Message>, r: nat, m: nat)
    requires r < |Group(msgs)| && m < |Group(msgs)[r]|
    ensures Start(Group(msgs), r) + m < |msgs|
    ensures msgs[Start(Group(msgs), r) + m] == Group(msgs)[r][m]
  {
    hide FlattenFirst, WellCut, Group;
    GroupWellCut(msgs);
    MessageAt(Group(msgs), |Group(msgs)|, r, m);
  }

  /** Some round of the transcript begins at message `i`. */
  ghost predicate BeginsRound(msgs: seq<Message>, i: nat) {
    exists r: nat :: r < |Group(msgs)| && Start(Group(msgs), r) == i
  }

  /** The round and the place in it of message `i` among those of the first `n` rounds. */
  lemma {:induction false} Locate(g: seq<seq<Message>>, n: nat, i: nat) returns (r: nat, m: nat)
    requires n <= |g| && i < Start(g, n)
    ensures r < n && m < |g[r]| && Start(g, r) + m == i
  {
    if i < Start(g, n - 1) {
      r, m := Locate(g, n - 1, i);
    } else {
      r, m := n - 1, i - Start(g, n - 1);
    }
  }

  /** Rounds begin at the cuts and nowhere else. */
  lemma BeginsRoundIffCut(msgs: seq<Message>, i: nat)
    requires i < |msgs|
    ensures BeginsRound(msgs, i) <==> Cut(msgs, i)
  {
    hide Group, FlattenFirst;
    var g := Group(msgs);
    GroupWellCut(msgs);
    if BeginsRound(msgs, i) {
      var r: nat :| r < |g| && Start(g, r) == i;
      RoundStartsAtCut(g, r);
    }
    if Cut(msgs, i) {
      var r, m := Locate(g, |g|, i);
      RoundMessageAt(msgs, r, m);
      if m > 0 {
        RoundMessageAt(msgs, r, m - 1);
      }
      assert m == 0;
    }
  }

  /**
   What the comment on the source's function promises of tool results, in its exact form:
   the grouping opens a round at a user message after the first exactly when its first block
   is text. A message that puts text before its tool result leaves its call behind.
   */
  lemma UserMessageStartsRoundIffTextFirst(msgs: seq<Message>, i: nat)
    requires 1 <= i < |msgs| && msgs[i].role.User?
    ensures BeginsRound(msgs, i) <==> msgs[i].content != [] && msgs[i].content[0].Text?
  {
    hide BeginsRound;
    BeginsRoundIffCut(msgs, i);
  }

  /**
   At an answer of the model it opens one exactly when the message before it is one of the user
   whose first block is a tool result, and at no other kind of message.
   */
  lemma AnswerStartsRoundIffResultBefore(msgs: seq<Message>, i: nat)
    requires 1 <= i < |msgs| && !msgs[i].role.User?
    ensures BeginsRound(msgs, i)
       <==> && msgs[i].role.Assistant? && msgs[i - 1].role.User?
            && msgs[i - 1].content != [] && msgs[i - 1].content[0].ToolResult?
  {
    hide BeginsRound;
    BeginsRoundIffCut(msgs, i);
  }

  /** The rounds `Group` finds, with the offset and the cost the source stores beside each. */
  ghost predicate DescribesRounds(cost: Estimator, g: seq<seq<Message>>, rounds: seq<ApiRound>) {
    && |rounds| == |g|
    && forall r {:trigger rounds[r]} :: 0 <= r < |rounds| ==> rounds[r] == FinishRound(cost, g[r], Start(g, r))
  }

  function FinishRound(cost: Estimator, messages: seq<Message>, start: nat): ApiRound {
    ApiRound(start, messages, Tokens(cost, messages))
  }

  method GroupByApiRound(cost: Estimator, messages: seq<Message>) returns (rounds: seq<ApiRound>)
    ensures DescribesRounds(cost, Group(messages), rounds)
  {
    if messages == [] {
      return [];
    }
    hide DescribesRounds, FinishRound, Extend;
    rounds := [];
    var current: seq<Message> := [];
    var startIdx := 0;
    var prevWasToolResult := false;
    for i := 0 to |messages|
      invariant i > 0 ==> prevWasToolResult == IsToolResult(messages[i - 1])
      invariant i == 0 ==> current == [] && rounds == [] && startIdx == 0
      invariant startIdx + |current| == i && (i > 0 ==> current != [])
      invariant i > 0 ==> DescribesRounds(cost, GroupFirst(messages, i),
                                          rounds + [FinishRound(cost, current, startIdx)])
    {
      var msg := messages[i];
      var isRoundStart := IsUserText(msg) || (msg.role.Assistant? && prevWasToolResult);
      if isRoundStart && current != [] {
        rounds := rounds + [FinishRound(cost, current, startIdx)];
        DescribeCut(cost, messages, i, rounds);
        current := [];
        startIdx := i;
      } else if i > 0 {
        DescribeExtend(cost, GroupFirst(messages, i), rounds, current, startIdx, msg);
      } else {
        DescribeNone(cost);
        DescribeCut(cost, messages, 0, rounds);
      }
      current := current + [msg];
      prevWasToolResult := IsToolResult(msg);
    }
    rounds := rounds + [FinishRound(cost, current, startIdx)];
  }

  lemma {:induction false} SliceAt(g: seq<seq<Message>>, n: nat, r: nat)
    requires r < n <= |g|
    ensures Start(g, r) + |g[r]| <= |FlattenFirst(g, n)|
    ensures FlattenFirst(g, n)[Start(g, r)..Start(g, r) + |g[r]|] == g[r]
  {
    if r < n - 1 {
      SliceAt(g, n - 1, r);
    }
  }

  /** Each round is the slice of the transcript at its offset, with the estimate of that slice, one after another. */
  lemma RoundsLieWhereTheySay(cost: Estimator, msgs: seq<Message>, rounds: seq<ApiRound>, r: nat)
    requires DescribesRounds(cost, Group(msgs), rounds) && r < |rounds|
    ensures var round := rounds[r];
            && round.start + |round.messages| <= |msgs|
            && msgs[round.start..round.start + |round.messages|] == round.messages
            && round.estimatedTokens == Tokens(cost, round.messages)
            && (r == 0 ==> round.start == 0)
            && (if r + 1 < |rounds| then rounds[r + 1].start else |msgs|) == round.start + |round.messages|
  {
    hide Group, WellCut, FlattenFirst, Tokens;
    var g := Group(msgs);
    GroupWellCut(msgs);
    SliceAt(g, |g|, r);
    assert rounds[r] == FinishRound(cost, g[r], Start(g, r));
    assert r + 1 < |rounds| ==> rounds[r + 1] == FinishRound(cost, g[r + 1], Start(g, r + 1));
    assert msgs == Flatten(g) == FlattenFirst(g, |g|) && Start(g, |g|) == |msgs|;
  }

  lemma DescribeNone(cost: Estimator)
    ensures DescribesRounds(cost, [], [])
  {
  }

  lemma DescribeCut(cost: Estimator, msgs: seq<Message>, i: nat, rounds: seq<ApiRound>)
    requires i < |msgs| && DescribesRounds(cost, GroupFirst(msgs, i), rounds)
    ensures DescribesRounds(cost, GroupFirst(msgs, i) + [[msgs[i]]],
                            rounds + [FinishRound(cost, [] + [msgs[i]], i)])
  {
    var g := GroupFirst(msgs, i);
    assert |Flatten(g)| == i by {
      GroupFirstWellCut(msgs, i);
    }
    var h, all := g + [[msgs[i]]], rounds + [FinishRound(cost, [] + [msgs[i]], i)];
    assert [] + [msgs[i]] == [msgs[i]];
    forall r | 0 <= r < |all| ensures all[r] == FinishRound(cost, h[r], Start(h, r)) {
      StartAgrees(h, g, r);
    }
  }

  lemma DescribeExtend(cost: Estimator, g: seq<seq<Message>>, rounds: seq<ApiRound>,
                       current: seq<Message>, startIdx: nat, m: Message)
    requires g != [] && DescribesRounds(cost, g, rounds + [FinishRound(cost, current, startIdx)])
    ensures DescribesRounds(cost, Extend(g, m), rounds + [FinishRound(cost, current + [m], startIdx)])
  {
    var h, n := Extend(g, m), |rounds|;
    var before, after := rounds + [FinishRound(cost, current, startIdx)],
                         rounds + [FinishRound(cost, current + [m], startIdx)];
    assert before[n] == FinishRound(cost, g[n], Start(g, n));
    forall r | 0 <= r < |after| ensures after[r] == FinishRound(cost, h[r], Start(h, r)) {
      StartAgrees(h, g, r);
      assert r < n ==> before[r] == after[r];
    }
  }

  lemma {:induction false} StartAgrees(a: seq<seq<Message>>, b: seq<seq<Message>>, r: nat)
    requires r <= |a| && r <= |b| && forall i :: 0 <= i < r ==> |a[i]| == |b[i]|
    ensures Start(a, r) == Start(b, r)
  {
    if r > 0 {
      StartAgrees(a, b, r - 1);
    }
  }
}
