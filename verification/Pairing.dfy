/**
 Tool calls and their results stay together through every compaction pass.
 */
module Pairing {
  /**
   An API rejects a tool result whose call is missing, so what a pass drops must be closed
   under pairing. The grouping is what guarantees it: no round starts between a call and its
   result.
   */

  import opened Wrappers
  import opened Transcript
  import opened Grouping
  import opened Compact

  predicate HasCall(m: Message, t: string) {
    m.role.Assistant? && exists b :: 0 <= b < |m.content| && m.content[b].ToolUse? && m.content[b].id == t
  }

  predicate HasResult(m: Message, t: string) {
    exists b :: 0 <= b < |m.content| && m.content[b].ToolResult? && m.content[b].toolUseId == t
  }

  /** From `j` up to `k` only assistant messages, from `k` to `i` only tool results. */
  ghost predicate Exchange(msgs: seq<Message>, j: nat, k: nat, i: nat) {
    && j < k <= i < |msgs|
    && (forall x :: j <= x < k ==> msgs[x].role.Assistant?)
    && (forall x :: k <= x <= i ==> IsToolResult(msgs[x]))
  }

  /**
   The result in message `i` answers the call in message `j`: the call sits in the run of
   assistant messages directly before the run of results that `i` belongs to.
   */
  ghost predicate Answers(msgs: seq<Message>, j: nat, i: nat, t: string) {
    && j < i < |msgs|
    && HasCall(msgs[j], t) && HasResult(msgs[i], t)
    && exists k :: Exchange(msgs, j, k, i)
  }

  /** Every tool result answers a call. */
  ghost predicate AllAnswer(msgs: seq<Message>) {
    forall i: nat, t :: i < |msgs| && HasResult(msgs[i], t) ==> exists j :: Answers(msgs, j, i, t)
  }

  /** The call in message `j` has a result. */
  ghost predicate IsAnswered(msgs: seq<Message>, j: nat, t: string) {
    exists i :: Answers(msgs, j, i, t)
  }

  /** No round starts inside an exchange. */
  lemma ExchangeIsUncut(msgs: seq<Message>, j: nat, k: nat, i: nat, d: nat)
    requires Exchange(msgs, j, k, i) && j < d <= i
    ensures !Cut(msgs, d)
  {
    assert msgs[d - 1].role.Assistant? || d - 1 >= k;
  }

  // ---------------------------------------------------------------- what a pass may do

  /** The same message, but for the bodies of its tool results. */
  predicate SameShape(m: Message, m': Message) {
    && m.role == m'.role && |m.content| == |m'.content|
    && forall b :: 0 <= b < |m.content| ==>
         || m'.content[b] == m.content[b]
         || (m'.content[b].ToolResult? && m.content[b].ToolResult?
             && m'.content[b].toolUseId == m.content[b].toolUseId)
  }

  lemma SameShapeSameTools(m: Message, m': Message, t: string)
    requires SameShape(m, m')
    ensures HasCall(m, t) <==> HasCall(m', t)
    ensures HasResult(m, t) <==> HasResult(m', t)
    ensures IsToolResult(m) <==> IsToolResult(m')
  {
    if HasCall(m, t) {
      var b :| 0 <= b < |m.content| && m.content[b].ToolUse? && m.content[b].id == t;
      assert m'.content[b] == m.content[b];
    }
    if HasResult(m, t) {
      var b :| 0 <= b < |m.content| && m.content[b].ToolResult? && m.content[b].toolUseId == t;
      assert m'.content[b].ToolResult? && m'.content[b].toolUseId == t;
    }
    if HasCall(m', t) {
      var b :| 0 <= b < |m'.content| && m'.content[b].ToolUse? && m'.content[b].id == t;
      assert m'.content[b] == m.content[b];
    }
    if HasResult(m', t) {
      var b :| 0 <= b < |m'.content| && m'.content[b].ToolResult? && m'.content[b].toolUseId == t;
      assert m.content[b].ToolResult? && m.content[b].toolUseId == t;
    }
  }

  /** `out` is `off` user texts followed by what was `msgs` from `d` on, up to result bodies. */
  ghost predicate Rewrites(msgs: seq<Message>, d: nat, out: seq<Message>, off: nat) {
    && d <= |msgs| && |out| == off + (|msgs| - d)
    && (forall p :: 0 <= p < off ==> out[p].role.User? && |out[p].content| == 1 && out[p].content[0].Text?)
    && (forall p :: off <= p < |out| ==> SameShape(msgs[p - off + d], out[p]))
  }

  lemma ExchangeMoves(msgs: seq<Message>, d: nat, out: seq<Message>, off: nat, j: nat, k: nat, i: nat)
    requires Rewrites(msgs, d, out, off) && d <= j
    requires j < k <= i < |msgs|
    ensures Exchange(msgs, j, k, i) <==> Exchange(out, j - d + off, k - d + off, i - d + off)
  {
    forall x | j <= x <= i
      ensures msgs[x].role == out[x - d + off].role
      ensures IsToolResult(msgs[x]) <==> IsToolResult(out[x - d + off])
    {
      assert SameShape(msgs[x - d + off - off + d], out[x - d + off]);
      SameShapeSameTools(msgs[x], out[x - d + off], "");
    }
    if Exchange(out, j - d + off, k - d + off, i - d + off) {
      forall x | j <= x < k ensures msgs[x].role.Assistant? {
        assert out[x - d + off].role.Assistant?;
      }
      forall x | k <= x <= i ensures IsToolResult(msgs[x]) {
        assert IsToolResult(out[x - d + off]);
      }
    }
    if Exchange(msgs, j, k, i) {
      forall p | j - d + off <= p < k - d + off ensures out[p].role.Assistant? {
        assert msgs[p - off + d].role.Assistant?;
      }
      forall p | k - d + off <= p <= i - d + off ensures IsToolResult(out[p]) {
        assert IsToolResult(msgs[p - off + d]);
      }
    }
  }

  lemma AnswersMove(msgs: seq<Message>, d: nat, out: seq<Message>, off: nat, j: nat, i: nat, t: string)
    requires Rewrites(msgs, d, out, off) && d <= j < i < |msgs|
    ensures Answers(msgs, j, i, t) <==> Answers(out, j - d + off, i - d + off, t)
  {
    var p, q := j - d + off, i - d + off;
    assert SameShape(msgs[p - off + d], out[p]) && SameShape(msgs[q - off + d], out[q]);
    SameShapeSameTools(msgs[j], out[p], t);
    SameShapeSameTools(msgs[i], out[q], t);
    if Answers(msgs, j, i, t) {
      var k: nat :| Exchange(msgs, j, k, i);
      ExchangeMoves(msgs, d, out, off, j, k, i);
    }
    if Answers(out, p, q, t) {
      var l: nat :| Exchange(out, p, l, q);
      ExchangeMoves(msgs, d, out, off, j, l - off + d, i);
    }
  }

  /**
   The heart of the matter: cutting a transcript at a round start, rewriting result bodies
   and putting user texts in front leaves every result with its call, and leaves every
   surviving call exactly as answered or unanswered as it was.
   */
  lemma CutKeepsPairs(msgs: seq<Message>, d: nat, out: seq<Message>, off: nat)
    requires Rewrites(msgs, d, out, off) && AllAnswer(msgs)
    requires d < |msgs| ==> Cut(msgs, d)
    ensures AllAnswer(out)
    ensures forall j: nat, t :: d <= j < |msgs| ==> (IsAnswered(msgs, j, t) <==> IsAnswered(out, j - d + off, t))
  {
    forall q: nat, t | q < |out| && HasResult(out[q], t) ensures exists p :: Answers(out, p, q, t) {
      assert q >= off;
      var i := q - off + d;
      assert SameShape(msgs[i], out[q]);
      SameShapeSameTools(msgs[i], out[q], t);
      var j: nat :| Answers(msgs, j, i, t);
      var k: nat :| Exchange(msgs, j, k, i);
      if j < d {
        ExchangeIsUncut(msgs, j, k, i, d);
      }
      AnswersMove(msgs, d, out, off, j, i, t);
      assert Answers(out, j - d + off, q, t);
    }
    forall j: nat, t | d <= j < |msgs|
      ensures IsAnswered(msgs, j, t) <==> IsAnswered(out, j - d + off, t)
    {
      if IsAnswered(msgs, j, t) {
        var i: nat :| Answers(msgs, j, i, t);
        AnswersMove(msgs, d, out, off, j, i, t);
      }
      if IsAnswered(out, j - d + off, t) {
        var q: nat :| Answers(out, j - d + off, q, t);
        AnswersMove(msgs, d, out, off, j, q - off + d, t);
      }
    }
  }

  // ---------------------------------------------------------------- the three passes

  lemma SnipKeepsPairs(cost: Estimator, msgs: seq<Message>, maxTokens: nat, keepRounds: nat)
    requires AllAnswer(msgs)
    ensures var out := Snipped(cost, msgs, maxTokens, keepRounds);
            var d := |msgs| - |out|;
            && AllAnswer(out)
            && d >= 0
            && forall j: nat, t :: d <= j < |msgs| ==> (IsAnswered(msgs, j, t) <==> IsAnswered(out, j - d, t))
  {
    hide AllAnswer, IsAnswered;
    var out := Snipped(cost, msgs, maxTokens, keepRounds);
    if msgs != [] {
      SnippedIsSuffix(cost, msgs, maxTokens, keepRounds);
      var d := |msgs| - |out|;
      hide Snipped, Cut;
      CutKeepsPairs(msgs, d, out, 0);
    }
  }

  lemma MicroCompactKeepsPairs(msgs: seq<Message>, keepRounds: nat)
    requires AllAnswer(msgs)
    ensures var out := Aged(msgs, OldMessages(msgs, keepRounds));
            && |out| == |msgs| && AllAnswer(out)
            && forall j: nat, t :: j < |msgs| ==> (IsAnswered(msgs, j, t) <==> IsAnswered(out, j, t))
  {
    hide AllAnswer, IsAnswered, OldMessages, ToolSeen, IsCompactable;
    CutKeepsPairs(msgs, 0, Aged(msgs, OldMessages(msgs, keepRounds)), 0);
  }

  lemma CollapseKeepsPairs(msgs: seq<Message>, keepRounds: nat)
    requires AllAnswer(msgs)
    ensures var out := Collapsed(msgs, keepRounds);
            var d := OldMessages(msgs, keepRounds);
            var off := if |Group(msgs)| <= keepRounds then 0 else 2;
            && AllAnswer(out)
            && |out| == off + |msgs| - d
            && forall j: nat, t :: d <= j < |msgs| ==>
                 (IsAnswered(msgs, j, t) <==> IsAnswered(out, j - d + off, t))
  {
    hide AllAnswer, IsAnswered, Digest, Group, OldMessages, Cut, Rewrites, KeptMessages;
    if |Group(msgs)| <= keepRounds {
      RewritesSelf(msgs);
      OldMessagesNone(msgs, keepRounds);
      CutKeepsPairs(msgs, 0, msgs, 0);
    } else {
      CollapsedRewrites(msgs, keepRounds);
      OldMessagesCut(msgs, keepRounds);
      hide Collapsed;
      CutKeepsPairs(msgs, OldMessages(msgs, keepRounds), Collapsed(msgs, keepRounds), 2);
    }
  }

  lemma RewritesSelf(msgs: seq<Message>)
    ensures Rewrites(msgs, 0, msgs, 0) && (msgs != [] ==> Cut(msgs, 0))
  {
  }

  lemma OldMessagesNone(msgs: seq<Message>, keepRounds: nat)
    requires |Group(msgs)| <= keepRounds
    ensures OldMessages(msgs, keepRounds) == 0
  {
  }

  /** The old messages end at a round start. */
  lemma OldMessagesCut(msgs: seq<Message>, keepRounds: nat)
    requires |Group(msgs)| > keepRounds
    ensures var d := OldMessages(msgs, keepRounds); d < |msgs| ==> Cut(msgs, d)
  {
    hide Group, Cut, Flatten, WellCut, Start;
    GroupWellCut(msgs);
    if keepRounds >= 1 {
      RoundStartsAtCut(Group(msgs), |Group(msgs)| - keepRounds);
    } else {
      assert |Flatten(Group(msgs))| == Start(Group(msgs), |Group(msgs)|) by {
        FlattenEnds(Group(msgs));
        StartStep(Group(msgs));
      }
    }
  }

  lemma StartStep(g: seq<seq<Message>>)
    requires g != []
    ensures Start(g, |g|) == Start(g, |g| - 1) + |Last(g)|
  {
  }

  lemma CollapsedRewrites(msgs: seq<Message>, keepRounds: nat)
    requires |Group(msgs)| > keepRounds
    ensures Rewrites(msgs, OldMessages(msgs, keepRounds), Collapsed(msgs, keepRounds), 2)
    ensures |Collapsed(msgs, keepRounds)| == 2 + |msgs| - OldMessages(msgs, keepRounds)
  {
    hide Group, Digest, Cut, KeptMessages, OldMessages;
    var d, out := OldMessages(msgs, keepRounds), Collapsed(msgs, keepRounds);
    forall p | 2 <= p < |out| ensures SameShape(msgs[p - 2 + d], out[p]) {
      KeptAt(msgs, keepRounds, p - 2);
    }
  }

  lemma KeptAt(msgs: seq<Message>, keepRounds: nat, x: nat)
    requires x < |KeptMessages(msgs, keepRounds)|
    ensures KeptMessages(msgs, keepRounds)[x] == msgs[x + OldMessages(msgs, keepRounds)]
  {
  }

  // ---------------------------------------------------------------- exactly when

  /** Some earlier message calls `t`; `from` bounds how far back. */
  ghost predicate CalledSince(msgs: seq<Message>, from: nat, i: nat, t: string) {
    exists j: nat :: from <= j < i && j < |msgs| && HasCall(msgs[j], t)
  }

  /** Every result has its call before it. */
  ghost predicate OrphanFree(msgs: seq<Message>) {
    NoOrphans(msgs, 0)
  }

  /** Dropping the messages before `d` orphans no result. */
  ghost predicate NoOrphans(msgs: seq<Message>, d: nat) {
    forall i: nat, t :: d <= i < |msgs| && HasResult(msgs[i], t) ==> CalledSince(msgs, d, i, t)
  }

  /** After `j` and up to `i` comes no user text, and no answer of the model to tool results. */
  ghost predicate Uninterrupted(msgs: seq<Message>, j: nat, i: nat)
    requires i < |msgs|
  {
    forall x {:trigger msgs[x]} :: j < x <= i ==>
      !IsUserText(msgs[x]) && !(msgs[x].role.Assistant? && IsToolResult(msgs[x - 1]))
  }

  /** Every result has a call before it with nothing in between that separates them. */
  ghost predicate ResultsFollowCalls(msgs: seq<Message>) {
    forall i: nat, t :: i < |msgs| && HasResult(msgs[i], t) ==> FollowsCall(msgs, i, t)
  }

  ghost predicate FollowsCall(msgs: seq<Message>, i: nat, t: string)
    requires i < |msgs|
  {
    exists j: nat :: j < i && HasCall(msgs[j], t) && Uninterrupted(msgs, j, i)
  }

  /** The start of the round that message `i` belongs to. */
  function RoundStart(msgs: seq<Message>, i: nat): (d: nat)
    requires i < |msgs|
    ensures d <= i && Cut(msgs, d) && forall x :: d < x <= i ==> !Cut(msgs, x)
  {
    if Cut(msgs, i) then i else RoundStart(msgs, i - 1)
  }

  lemma CutsKeepPairsIff(msgs: seq<Message>)
    ensures (forall d: nat :: d < |msgs| && Cut(msgs, d) ==> NoOrphans(msgs, d)) <==> ResultsFollowCalls(msgs)
  {
    if forall d: nat :: d < |msgs| && Cut(msgs, d) ==> NoOrphans(msgs, d) {
      forall i: nat, t | i < |msgs| && HasResult(msgs[i], t) ensures FollowsCall(msgs, i, t) {
        var d := RoundStart(msgs, i);
        assert NoOrphans(msgs, d);
        assert CalledSince(msgs, d, i, t);
        var j: nat :| d <= j < i && HasCall(msgs[j], t);
        forall x {:trigger msgs[x]} | j < x <= i
          ensures !IsUserText(msgs[x]) && !(msgs[x].role.Assistant? && IsToolResult(msgs[x - 1]))
        {
          assert !Cut(msgs, x);
        }
        assert Uninterrupted(msgs, j, i);
      }
    }
    if ResultsFollowCalls(msgs) {
      forall d: nat, i: nat, t | d < |msgs| && Cut(msgs, d) && d <= i < |msgs| && HasResult(msgs[i], t)
        ensures CalledSince(msgs, d, i, t)
      {
        assert FollowsCall(msgs, i, t);
        var j: nat :| j < i && HasCall(msgs[j], t) && Uninterrupted(msgs, j, i);
        assert j < d ==> msgs[d] == msgs[d];
      }
    }
  }

  /** What a pass orphans is what its cut orphans. */
  lemma RewriteOrphansIff(msgs: seq<Message>, d: nat, out: seq<Message>, off: nat)
    requires Rewrites(msgs, d, out, off)
    ensures OrphanFree(out) <==> NoOrphans(msgs, d)
  {
    hide SameShape, HasCall;
    if OrphanFree(out) {
      forall i: nat, t | d <= i < |msgs| && HasResult(msgs[i], t) ensures CalledSince(msgs, d, i, t) {
        var q := i - d + off;
        assert SameShape(msgs[q - off + d], out[q]);
        SameShapeSameTools(msgs[i], out[q], t);
        assert CalledSince(out, 0, q, t);
        var p: nat :| p < q && HasCall(out[p], t);
        TextsCallNothing(msgs, d, out, off, p, t);
        assert SameShape(msgs[p - off + d], out[p]);
        SameShapeSameTools(msgs[p - off + d], out[p], t);
      }
    }
    if NoOrphans(msgs, d) {
      forall q: nat, t | q < |out| && HasResult(out[q], t) ensures CalledSince(out, 0, q, t) {
        var i := q - off + d;
        assert SameShape(msgs[q - off + d], out[q]);
        SameShapeSameTools(msgs[i], out[q], t);
        assert CalledSince(msgs, d, i, t);
        var j: nat :| d <= j < i && HasCall(msgs[j], t);
        var p := j - d + off;
        assert SameShape(msgs[p - off + d], out[p]);
        SameShapeSameTools(msgs[j], out[p], t);
      }
    }
  }

  lemma TextsCallNothing(msgs: seq<Message>, d: nat, out: seq<Message>, off: nat, p: nat, t: string)
    requires Rewrites(msgs, d, out, off) && p < |out| && HasCall(out[p], t)
    ensures p >= off
  {
  }

  // ---------------------------------------------------------------- the cuts the passes make

  /** Snip cuts at the start of some round. */
  lemma SnippedRewrites(cost: Estimator, msgs: seq<Message>, maxTokens: nat, keepRounds: nat) returns (d: nat)
    requires msgs != []
    ensures d < |msgs| && Cut(msgs, d) && Rewrites(msgs, d, Snipped(cost, msgs, maxTokens, keepRounds), 0)
  {
    hide Cut, Snipped, HasCall;
    SnippedIsSuffix(cost, msgs, maxTokens, keepRounds);
    d := |msgs| - |Snipped(cost, msgs, maxTokens, keepRounds)|;
  }

  /** And with a large enough budget it cuts at any that is asked for. */
  lemma SnipReachesEveryCut(cost: Estimator, msgs: seq<Message>, d: nat) returns (maxTokens: nat, keepRounds: nat)
    requires d < |msgs| && Cut(msgs, d)
    ensures Rewrites(msgs, d, Snipped(cost, msgs, maxTokens, keepRounds), 0)
    ensures Snipped(cost, msgs, maxTokens, keepRounds) == msgs[d..]
  {
    hide Cut, Group, FlattenFirst, Flatten, SuffixCost, Newest, Tokens, Start;
    BeginsRoundIffCut(msgs, d);
    var g := Group(msgs);
    var r: nat :| r < |g| && Start(g, r) == d;
    maxTokens, keepRounds := Tokens(cost, msgs), |g| - r;
    SuffixCostIsTokens(cost, g, |g|);
    SuffixCostMonotone(cost, g, keepRounds, |g|);
    NewestAll(g);
    GroupWellCut(msgs);
    FlattenSplit(g, keepRounds);
    assert KeepCap(g, keepRounds) == keepRounds;
    assert Fits(cost, g, maxTokens, keepRounds);
    assert SnipKeep(cost, msgs, maxTokens, keepRounds) == keepRounds;
  }

  /** Collapsing reaches every cut too. */
  lemma CollapseReachesEveryCut(msgs: seq<Message>, d: nat) returns (keepRounds: nat, off: nat)
    requires d < |msgs| && Cut(msgs, d)
    ensures Rewrites(msgs, d, Collapsed(msgs, keepRounds), off)
  {
    hide Cut, Group, KeptMessages, Digest;
    BeginsRoundIffCut(msgs, d);
    var g := Group(msgs);
    var r: nat :| r < |g| && Start(g, r) == d;
    keepRounds := |g| - r;
    if r == 0 {
      off := 0;
    } else {
      off := 2;
      CollapsedRewrites(msgs, keepRounds);
    }
  }

  lemma CollapsedCuts(msgs: seq<Message>, keepRounds: nat) returns (d: nat, off: nat)
    ensures d <= |msgs| && (d < |msgs| ==> Cut(msgs, d))
    ensures Rewrites(msgs, d, Collapsed(msgs, keepRounds), off)
  {
    hide Group, KeptMessages, Digest;
    if |Group(msgs)| <= keepRounds {
      d, off := 0, 0;
    } else {
      d, off := OldMessages(msgs, keepRounds), 2;
      OldMessagesCut(msgs, keepRounds);
      CollapsedRewrites(msgs, keepRounds);
    }
  }

  /**
   The exact condition on a transcript: whatever its arguments, snip never orphans a result,
   and neither does collapsing, if and only if no user text and no further answer of the model
   stands between a result and its call.
   */
  lemma SuffixesKeepPairsIff(cost: Estimator, msgs: seq<Message>)
    ensures (forall maxTokens: nat, keepRounds: nat :: OrphanFree(Snipped(cost, msgs, maxTokens, keepRounds)))
       <==> ResultsFollowCalls(msgs)
    ensures (forall keepRounds: nat :: OrphanFree(Collapsed(msgs, keepRounds))) <==> ResultsFollowCalls(msgs)
  {
    hide NoOrphans, OrphanFree, ResultsFollowCalls, Rewrites, Cut, Snipped, Collapsed;
    CutsKeepPairsIff(msgs);
    if ResultsFollowCalls(msgs) {
      forall maxTokens: nat, keepRounds: nat ensures OrphanFree(Snipped(cost, msgs, maxTokens, keepRounds)) {
        SnippedIsOrphanFree(cost, msgs, maxTokens, keepRounds);
      }
      forall keepRounds: nat ensures OrphanFree(Collapsed(msgs, keepRounds)) {
        CollapsedIsOrphanFree(msgs, keepRounds);
      }
    }
    if forall maxTokens: nat, keepRounds: nat :: OrphanFree(Snipped(cost, msgs, maxTokens, keepRounds)) {
      forall d: nat | d < |msgs| && Cut(msgs, d) ensures NoOrphans(msgs, d) {
        var maxTokens, keepRounds := SnipReachesEveryCut(cost, msgs, d);
        RewriteOrphansIff(msgs, d, Snipped(cost, msgs, maxTokens, keepRounds), 0);
      }
    }
    if forall keepRounds: nat :: OrphanFree(Collapsed(msgs, keepRounds)) {
      forall d: nat | d < |msgs| && Cut(msgs, d) ensures NoOrphans(msgs, d) {
        var keepRounds, off := CollapseReachesEveryCut(msgs, d);
        RewriteOrphansIff(msgs, d, Collapsed(msgs, keepRounds), off);
      }
    }
  }

  lemma SnippedIsOrphanFree(cost: Estimator, msgs: seq<Message>, maxTokens: nat, keepRounds: nat)
    requires forall d: nat :: d < |msgs| && Cut(msgs, d) ==> NoOrphans(msgs, d)
    ensures OrphanFree(Snipped(cost, msgs, maxTokens, keepRounds))
  {
    if msgs != [] {
      hide NoOrphans, OrphanFree, Rewrites, Cut, Snipped;
      var d := SnippedRewrites(cost, msgs, maxTokens, keepRounds);
      RewriteOrphansIff(msgs, d, Snipped(cost, msgs, maxTokens, keepRounds), 0);
    }
  }

  lemma CollapsedIsOrphanFree(msgs: seq<Message>, keepRounds: nat)
    requires forall d: nat :: d < |msgs| && Cut(msgs, d) ==> NoOrphans(msgs, d)
    ensures OrphanFree(Collapsed(msgs, keepRounds))
  {
    hide OrphanFree, Rewrites, Cut, Collapsed, HasResult;
    var d, off := CollapsedCuts(msgs, keepRounds);
    RewriteOrphansIff(msgs, d, Collapsed(msgs, keepRounds), off);
  }

  /**
   The condition bites: a message that puts text before its result is cut away from its call,
   under some budget for any estimator.
   */
  lemma TextBeforeResultIsOrphaned(cost: Estimator) returns (maxTokens: nat, keepRounds: nat)
    ensures var call := Message(Assistant, [ToolUse("t1", "Read", "{}")]);
            var result := Message(User, [Text("note"), ToolResult("t1", "body", Some(false))]);
            && OrphanFree([call, result])
            && Snipped(cost, [call, result], maxTokens, keepRounds) == [result] && !OrphanFree([result])
  {
    var call := Message(Assistant, [ToolUse("t1", "Read", "{}")]);
    var result := Message(User, [Text("note"), ToolResult("t1", "body", Some(false))]);
    var msgs := [call, result];
    assert Cut(msgs, 1);
    maxTokens, keepRounds := SnipReachesEveryCut(cost, msgs, 1);
    assert msgs[1..] == [result];
    hide Snipped;
    assert call.content[0].ToolUse? && call.content[0].id == "t1";
    assert HasCall(msgs[0], "t1");
    assert result.content[1].ToolResult? && result.content[1].toolUseId == "t1";
    assert HasResult([result][0], "t1");
    assert !CalledSince([result], 0, 0, "t1");
  }
}
