/**
 Budget-driven compaction (crates/compaction/src/compact.rs): snip, micro-compaction,
 collapse, and the cascade that picks one of them.
 */
module Compact {
  /**
   Every pass is a loop over rounds; beside each stands the function it is proved to compute,
   and the lemmas below speak about those functions.
   */

  import opened Wrappers
  import opened Transcript
  import opened Grouping

  datatype Strategy = NoOp | Snip | MicroCompact | CollapseContext

  datatype SnipProjection =
    SnipProjection(droppedRounds: nat, droppedMessages: nat, estimatedTokensSaved: nat)

  datatype CompactResult = CompactResult(
    strategy: Strategy,
    messagesBefore: nat, messagesAfter: nat,
    tokensBefore: nat, tokensAfter: nat,
    projection: Option<SnipProjection>)

  // ---------------------------------------------------------------- rounds and messages

  function MessagesOf(rounds: seq<ApiRound>): seq<seq<Message>> {
    seq(|rounds|, r requires 0 <= r < |rounds| => rounds[r].messages)
  }

  /** The messages of some rounds, end to end. */
  function Concat(rounds: seq<ApiRound>): seq<Message> {
    Flatten(MessagesOf(rounds))
  }

  lemma ConcatNewest(cost: Estimator, g: seq<seq<Message>>, rounds: seq<ApiRound>, k: nat)
    requires DescribesRounds(cost, g, rounds) && k <= |g|
    ensures Concat(Newest(rounds, k)) == Flatten(Newest(g, k))
  {
    hide Flatten;
    assert MessagesOf(Newest(rounds, k)) == Newest(g, k);
  }

  method AppendRounds(head: seq<Message>, rounds: seq<ApiRound>) returns (result: seq<Message>)
    ensures result == head + Concat(rounds)
  {
    result := head;
    for r := 0 to |rounds|
      invariant result == head + FlattenFirst(MessagesOf(rounds), r)
    {
      result := result + rounds[r].messages;
    }
  }

  // ---------------------------------------------------------------- snip

  /** What the last `k` rounds cost, added up from the newest. */
  function SuffixCost(cost: Estimator, g: seq<seq<Message>>, k: nat): nat
    requires k <= |g|
  {
    if k == 0 then 0 else Tokens(cost, g[|g| - k]) + SuffixCost(cost, g, k - 1)
  }

  /** Adding per-round costs gives the cost of the kept messages: the additivity `snip` relies on. */
  lemma {:induction false} SuffixCostIsTokens(cost: Estimator, g: seq<seq<Message>>, k: nat)
    requires k <= |g|
    ensures SuffixCost(cost, g, k) == Tokens(cost, Flatten(Newest(g, k)))
  {
    if k > 0 {
      hide TokensFirst;
      SuffixCostIsTokens(cost, g, k - 1);
      NewestStep(g, k);
      TokensAppend(cost, g[|g| - k], Flatten(Newest(g, k - 1)));
    }
  }

  lemma NewestStep(g: seq<seq<Message>>, k: nat)
    requires 1 <= k <= |g|
    ensures Flatten(Newest(g, k)) == g[|g| - k] + Flatten(Newest(g, k - 1))
  {
    var n := Newest(g, k);
    FlattenSplit(n, k - 1);
    assert Newest(n, k - 1) == Newest(g, k - 1);
    assert FlattenFirst(n, 1) == FlattenFirst(n, 0) + n[0];
  }

  lemma {:induction false} SuffixCostOfNewest(cost: Estimator, g: seq<seq<Message>>, n: nat, k: nat)
    requires k <= n <= |g|
    ensures SuffixCost(cost, Newest(g, n), k) == SuffixCost(cost, g, k)
  {
    if k > 0 {
      SuffixCostOfNewest(cost, g, n, k - 1);
    }
  }

  lemma {:induction false} SuffixCostMonotone(cost: Estimator, g: seq<seq<Message>>, j: nat, k: nat)
    requires j <= k <= |g|
    ensures SuffixCost(cost, g, j) <= SuffixCost(cost, g, k)
    decreases k - j
  {
    if j < k {
      SuffixCostMonotone(cost, g, j, k - 1);
    }
  }

  /** How many rounds `snip` may keep: at least one, at most `keepRounds`, at most all. */
  function KeepCap(g: seq<seq<Message>>, keepRounds: nat): (cap: nat)
    requires g != []
    ensures 1 <= cap <= |g|
  {
    if keepRounds < 1 then 1 else if keepRounds > |g| then |g| else keepRounds
  }

  /** The newest `k` rounds are within budget. */
  predicate Fits(cost: Estimator, g: seq<seq<Message>>, maxTokens: nat, k: nat)
    requires k <= |g|
  {
    SuffixCost(cost, g, k) <= maxTokens
  }

  /** `k` is the longest suffix of rounds, up to `cap` of them, that is within budget; or one round if none is. */
  ghost predicate IsBestSuffix(cost: Estimator, g: seq<seq<Message>>, maxTokens: nat, cap: nat, k: nat)
    requires cap <= |g|
  {
    && 1 <= k <= cap
    && (k > 1 ==> Fits(cost, g, maxTokens, k))
    && (forall j :: k < j <= cap ==> !Fits(cost, g, maxTokens, j))
  }

  /** The best suffix, searched downwards from the cap. */
  function BestKeep(cost: Estimator, g: seq<seq<Message>>, maxTokens: nat, cap: nat): (k: nat)
    requires 1 <= cap <= |g|
    ensures 1 <= k <= cap
  {
    if cap == 1 || Fits(cost, g, maxTokens, cap) then cap
    else BestKeep(cost, g, maxTokens, cap - 1)
  }

  lemma {:induction false} BestKeepIsBest(cost: Estimator, g: seq<seq<Message>>, maxTokens: nat, cap: nat)
    requires 1 <= cap <= |g|
    ensures IsBestSuffix(cost, g, maxTokens, cap, BestKeep(cost, g, maxTokens, cap))
  {
    if cap > 1 && !Fits(cost, g, maxTokens, cap) {
      BestKeepIsBest(cost, g, maxTokens, cap - 1);
    }
  }

  function SnipKeep(cost: Estimator, msgs: seq<Message>, maxTokens: nat, keepRounds: nat): (k: nat)
    requires msgs != []
    ensures 1 <= k <= |Group(msgs)|
  {
    BestKeep(cost, Group(msgs), maxTokens, KeepCap(Group(msgs), keepRounds))
  }

  /** What is left of a transcript after `snip`. */
  function Snipped(cost: Estimator, msgs: seq<Message>, maxTokens: nat, keepRounds: nat): seq<Message> {
    if msgs == [] then [] else Flatten(Newest(Group(msgs), SnipKeep(cost, msgs, maxTokens, keepRounds)))
  }

  /** `snip` keeps the longest suffix of rounds allowed and within budget, and it is the only such number. */
  lemma SnipKeepIsBest(cost: Estimator, msgs: seq<Message>, maxTokens: nat, keepRounds: nat)
    requires msgs != []
    ensures var g := Group(msgs);
            && IsBestSuffix(cost, g, maxTokens, KeepCap(g, keepRounds), SnipKeep(cost, msgs, maxTokens, keepRounds))
            && forall k | IsBestSuffix(cost, g, maxTokens, KeepCap(g, keepRounds), k) ::
                 k == SnipKeep(cost, msgs, maxTokens, keepRounds)
  {
    hide Flatten, Group;
    var g := Group(msgs);
    var cap := KeepCap(g, keepRounds);
    BestKeepIsBest(cost, g, maxTokens, cap);
  }

  /** Walk back from the newest round, adding rounds while they fit and are still wanted. */
  method ChooseKeep(cost: Estimator, rounds: seq<ApiRound>, maxTokens: nat, targetKeep: nat,
                    ghost g: seq<seq<Message>>)
    returns (keep: nat, tokens: nat)
    requires DescribesRounds(cost, g, rounds) && 1 <= targetKeep <= |rounds|
    ensures IsBestSuffix(cost, g, maxTokens, targetKeep, keep)
    ensures tokens == SuffixCost(cost, g, keep)
  {
    keep, tokens := 0, 0;
    while keep < |rounds|
      invariant 0 <= keep <= targetKeep
      invariant tokens == SuffixCost(cost, g, keep)
      invariant keep > 1 ==> tokens <= maxTokens
    {
      var next := tokens + rounds[|rounds| - keep - 1].estimatedTokens;
      if keep > 0 && (next > maxTokens || keep >= targetKeep) {
        break;
      }
      keep := keep + 1;
      tokens := next;
    }
    forall j | keep < j <= targetKeep ensures !Fits(cost, g, maxTokens, j) {
      SuffixCostMonotone(cost, g, keep + 1, j);
    }
  }

  /** `snip` returns a suffix of the transcript that begins at a round start. */
  lemma SnippedIsSuffix(cost: Estimator, msgs: seq<Message>, maxTokens: nat, keepRounds: nat)
    requires msgs != []
    ensures var kept := Snipped(cost, msgs, maxTokens, keepRounds);
            && 1 <= |kept| <= |msgs|
            && Newest(msgs, |kept|) == kept
            && Cut(msgs, |msgs| - |kept|)
  {
    hide Flatten, Group, Newest, WellCut, Cut;
    GroupWellCut(msgs);
    NewestStartsAtCut(Group(msgs), SnipKeep(cost, msgs, maxTokens, keepRounds));
  }

  /** What is left costs what the kept rounds were counted at, and no more than the whole. */
  lemma SnippedCost(cost: Estimator, msgs: seq<Message>, maxTokens: nat, keepRounds: nat)
    requires msgs != []
    ensures var kept := Snipped(cost, msgs, maxTokens, keepRounds);
            Tokens(cost, kept) == SuffixCost(cost, Group(msgs), SnipKeep(cost, msgs, maxTokens, keepRounds))
            <= Tokens(cost, msgs)
  {
    hide Flatten, Group, Newest, Tokens;
    SuffixCostIsTokens(cost, Group(msgs), SnipKeep(cost, msgs, maxTokens, keepRounds));
    SnippedIsSuffix(cost, msgs, maxTokens, keepRounds);
    CostsAtLeast(cost, msgs, Snipped(cost, msgs, maxTokens, keepRounds));
  }

  lemma CostsAtLeast(cost: Estimator, msgs: seq<Message>, tail: seq<Message>)
    requires |tail| <= |msgs| && Newest(msgs, |tail|) == tail
    ensures Tokens(cost, msgs) >= Tokens(cost, tail)
  {
    var n := |msgs| - |tail|;
    assert msgs == msgs[..n] + tail;
    TokensAppend(cost, msgs[..n], tail);
  }

  method Snip(cost: Estimator, messages: seq<Message>, maxTokens: nat, keepRounds: nat)
    returns (result: seq<Message>, strategy: Strategy,
             droppedRounds: nat, droppedMessages: nat, tokensSaved: nat)
    ensures strategy == Strategy.Snip
    ensures result == Snipped(cost, messages, maxTokens, keepRounds)
    ensures messages == [] ==> droppedRounds == 0
    ensures messages != [] ==>
              droppedRounds == |Group(messages)| - SnipKeep(cost, messages, maxTokens, keepRounds)
    ensures droppedMessages + |result| == |messages|
    ensures tokensSaved + Tokens(cost, result) == Tokens(cost, messages)
  {
    hide Flatten, Newest, SnipKeep;
    var rounds := GroupByApiRound(cost, messages);
    var totalRounds := |rounds|;
    var totalMessages := |messages|;
    if totalRounds == 0 {
      return messages, Strategy.Snip, 0, 0, 0;
    }
    var tokensBefore := Tokens(cost, messages);

    var targetKeep := if keepRounds < 1 then 1 else if keepRounds > totalRounds then totalRounds else keepRounds;
    var keep, tokens := ChooseKeep(cost, rounds, maxTokens, targetKeep, Group(messages));
    SnipKeepIsBest(cost, messages, maxTokens, keepRounds);
    SnippedIsSuffix(cost, messages, maxTokens, keepRounds);
    SnippedCost(cost, messages, maxTokens, keepRounds);
    ConcatNewest(cost, Group(messages), rounds, keep);

    result := Concat(Newest(rounds, keep));
    strategy := Strategy.Snip;
    droppedRounds := totalRounds - keep;
    droppedMessages := SaturatingSub(totalMessages, |result|);
    tokensSaved := SaturatingSub(tokensBefore, tokens);
  }

  /** Regrouping what `snip` kept gives back exactly the kept rounds. */
  lemma SnipRegroups(cost: Estimator, msgs: seq<Message>, maxTokens: nat, keepRounds: nat)
    requires msgs != []
    ensures Group(Snipped(cost, msgs, maxTokens, keepRounds))
              == Newest(Group(msgs), SnipKeep(cost, msgs, maxTokens, keepRounds))
  {
    hide Flatten, Group, Newest;
    RegroupNewest(msgs, SnipKeep(cost, msgs, maxTokens, keepRounds));
  }

  /** Among the rounds a snip kept, all of them are again the best suffix. */
  lemma BestKeepOfKept(cost: Estimator, g: seq<seq<Message>>, maxTokens: nat, keepRounds: nat)
    requires g != []
    ensures var k := BestKeep(cost, g, maxTokens, KeepCap(g, keepRounds));
            BestKeep(cost, Newest(g, k), maxTokens, KeepCap(Newest(g, k), keepRounds)) == k
  {
    hide Newest;
    var k := BestKeep(cost, g, maxTokens, KeepCap(g, keepRounds));
    BestKeepIsBest(cost, g, maxTokens, KeepCap(g, keepRounds));
    SuffixCostOfNewest(cost, g, k, k);
  }

  /** A second `snip` with the same arguments changes nothing. */
  lemma SnipIdempotent(cost: Estimator, msgs: seq<Message>, maxTokens: nat, keepRounds: nat)
    ensures var once := Snipped(cost, msgs, maxTokens, keepRounds);
            Snipped(cost, once, maxTokens, keepRounds) == once
  {
    hide Flatten, Group, Newest, BestKeep, KeepCap;
    if msgs != [] {
      var g := Group(msgs);
      var k := SnipKeep(cost, msgs, maxTokens, keepRounds);
      SnippedIsSuffix(cost, msgs, maxTokens, keepRounds);
      SnipRegroups(cost, msgs, maxTokens, keepRounds);
      BestKeepOfKept(cost, g, maxTokens, keepRounds);
      NewestAll(Newest(g, k));
    }
  }

  // ---------------------------------------------------------------- micro-compaction

  /** The tools whose results may be emptied. */
  const COMPACTABLE_TOOLS: seq<string> :=
    ["Read", "Bash", "Grep", "Glob", "WebSearch", "WebFetch", "Edit", "Write"]

  predicate IsCompactable(tool: Option<string>) {
    tool.Some? && tool.value in COMPACTABLE_TOOLS
  }

  /** The position of the last tool call among the first `n` blocks, or -1. */
  function LastCall(content: seq<Block>, n: nat): (b: int)
    requires n <= |content|
    ensures -1 <= b < n
    ensures b >= 0 ==> content[b].ToolUse?
    ensures forall c :: b < c < n && c >= 0 ==> !content[c].ToolUse?
  {
    if n == 0 then -1 else if content[n - 1].ToolUse? then n - 1 else LastCall(content, n - 1)
  }

  /** The last tool called in the first `n` blocks, or `seen` when they call none. */
  function LastTool(content: seq<Block>, n: nat, seen: Option<string>): Option<string>
    requires n <= |content|
  {
    var b := LastCall(content, n);
    if b < 0 then seen else Some(content[b].name)
  }

  /** The last tool called in the first `n` messages. */
  function ToolSeen(msgs: seq<Message>, n: nat): Option<string>
    requires n <= |msgs|
  {
    if n == 0 then None else LastTool(msgs[n - 1].content, |msgs[n - 1].content|, ToolSeen(msgs, n - 1))
  }

  function ClearedBlock(b: Block): Block {
    if b.ToolResult? then b.(content := CLEARED, isError := Some(false)) else b
  }

  function ClearedMessage(m: Message): Message {
    m.(content := seq(|m.content|, i requires 0 <= i < |m.content| => ClearedBlock(m.content[i])))
  }

  /** Message `i` as micro-compaction leaves it when it falls in an old round. */
  function AgedMessage(msgs: seq<Message>, i: nat): Message
    requires i < |msgs|
  {
    if IsCompactable(ToolSeen(msgs, i + 1)) then ClearedMessage(msgs[i]) else msgs[i]
  }

  /** The transcript with its first `n` messages micro-compacted. */
  function Aged(msgs: seq<Message>, n: nat): seq<Message>
    requires n <= |msgs|
  {
    seq(|msgs|, i requires 0 <= i < |msgs| => if i < n then AgedMessage(msgs, i) else msgs[i])
  }

  /** How many messages lie in the rounds before the last `keepRounds`. */
  function OldMessages(msgs: seq<Message>, keepRounds: nat): (n: nat)
    ensures n <= |msgs|
  {
    var g := Group(msgs);
    if |g| <= keepRounds then 0
    else
      assert Start(g, |g| - keepRounds) <= |msgs| by {
        GroupWellCut(msgs);
        StartMonotone(g, |g| - keepRounds, |g|);
      }
      Start(g, |g| - keepRounds)
  }

  /** The messages of the last `keepRounds` rounds. */
  function KeptMessages(msgs: seq<Message>, keepRounds: nat): (kept: seq<Message>)
    ensures |kept| == |msgs| - OldMessages(msgs, keepRounds)
  {
    msgs[OldMessages(msgs, keepRounds)..]
  }

  /** A tool call stands in the first `n` messages. */
  ghost predicate AnyCall(msgs: seq<Message>, n: nat)
    requires n <= |msgs|
  {
    exists i, b :: 0 <= i < n && 0 <= b < |msgs[i].content| && msgs[i].content[b].ToolUse?
  }

  /**
   The rule that decides what is emptied: `ToolSeen` is the name in the latest call of the
   first `n` messages, in message order and then block order.
   */
  lemma {:induction false} ToolSeenIsLatestCall(msgs: seq<Message>, n: nat)
    requires n <= |msgs|
    ensures ToolSeen(msgs, n).Some? <==> AnyCall(msgs, n)
    ensures AnyCall(msgs, n) ==>
              exists i, b :: 0 <= i < n && 0 <= b < |msgs[i].content| && msgs[i].content[b].ToolUse?
                && ToolSeen(msgs, n).value == msgs[i].content[b].name
                && (forall c :: b < c < |msgs[i].content| ==> !msgs[i].content[c].ToolUse?)
                && (forall k, c :: i < k < n && 0 <= c < |msgs[k].content| ==> !msgs[k].content[c].ToolUse?)
  {
    if n > 0 {
      ToolSeenIsLatestCall(msgs, n - 1);
    }
  }

  method TrackToolName(content: seq<Block>, seen: Option<string>) returns (last: Option<string>)
    ensures last == LastTool(content, |content|, seen)
  {
    last := seen;
    for i := 0 to |content|
      invariant last == LastTool(content, i, seen)
    {
      if content[i].ToolUse? {
        last := Some(content[i].name);
      }
    }
  }

  method ClearResults(m: Message, compactable: bool) returns (cleared: Message)
    ensures cleared == if compactable then ClearedMessage(m) else m
  {
    cleared := m;
    for i := 0 to |m.content|
      invariant cleared.role == m.role && |cleared.content| == |m.content|
      invariant forall k :: 0 <= k < i ==>
                  cleared.content[k] == if compactable then ClearedBlock(m.content[k]) else m.content[k]
      invariant forall k :: i <= k < |m.content| ==> cleared.content[k] == m.content[k]
    {
      if m.content[i].ToolResult? && compactable {
        cleared := cleared.(content := cleared.content[i := m.content[i].(content := CLEARED, isError := Some(false))]);
      }
    }
    assert compactable ==> cleared.content == ClearedMessage(m).content;
    assert !compactable ==> cleared.content == m.content;
  }

  ghost predicate IsAgedPrefix(msgs: seq<Message>, aged: seq<Message>, n: nat) {
    |aged| == n <= |msgs| && forall i {:trigger aged[i]} :: 0 <= i < n ==> aged[i] == AgedMessage(msgs, i)
  }

  /** Append the messages of round `r`, emptied as the rule says. */
  method AgeRound(round: ApiRound, aged: seq<Message>, seen: Option<string>,
                  ghost msgs: seq<Message>, ghost r: nat)
    returns (more: seq<Message>, last: Option<string>)
    requires r < |Group(msgs)| && round.messages == Group(msgs)[r]
    requires IsAgedPrefix(msgs, aged, Start(Group(msgs), r)) && seen == ToolSeen(msgs, |aged|)
    ensures IsAgedPrefix(msgs, more, Start(Group(msgs), r + 1)) && last == ToolSeen(msgs, |more|)
  {
    hide Group, IsCompactable;
    more, last := aged, seen;
    for m := 0 to |round.messages|
      invariant IsAgedPrefix(msgs, more, Start(Group(msgs), r) + m) && last == ToolSeen(msgs, |more|)
    {
      RoundMessageAt(msgs, r, m);
      var msg := round.messages[m];
      last := TrackToolName(msg.content, last);
      msg := ClearResults(msg, IsCompactable(last));
      more := more + [msg];
    }
  }

  lemma AgedFromParts(msgs: seq<Message>, aged: seq<Message>, keepRounds: nat)
    requires IsAgedPrefix(msgs, aged, OldMessages(msgs, keepRounds))
    ensures aged + KeptMessages(msgs, keepRounds) == Aged(msgs, OldMessages(msgs, keepRounds))
  {
  }

  lemma AgedNone(msgs: seq<Message>)
    ensures Aged(msgs, 0) == msgs
  {
  }

  /** The messages of the first `n` rounds, emptied as the rule says. */
  method AgeRounds(cost: Estimator, rounds: seq<ApiRound>, n: nat, ghost msgs: seq<Message>)
    returns (result: seq<Message>)
    requires DescribesRounds(cost, Group(msgs), rounds) && n <= |rounds|
    ensures IsAgedPrefix(msgs, result, Start(Group(msgs), n))
  {
    hide Group, AgedMessage;
    result := [];
    var lastToolName: Option<string> := None;
    for r := 0 to n
      invariant IsAgedPrefix(msgs, result, Start(Group(msgs), r))
      invariant lastToolName == ToolSeen(msgs, |result|)
    {
      result, lastToolName := AgeRound(rounds[r], result, lastToolName, msgs, r);
    }
  }

  method MicroCompact(cost: Estimator, messages: seq<Message>, keepRounds: nat)
    returns (result: seq<Message>, strategy: Strategy)
    ensures strategy == Strategy.MicroCompact
    ensures result == Aged(messages, OldMessages(messages, keepRounds))
  {
    hide Newest, Group, KeptMessages, Concat, Flatten, Aged, IsAgedPrefix;
    var rounds := GroupByApiRound(cost, messages);
    strategy := Strategy.MicroCompact;
    if |rounds| <= keepRounds {
      AgedNone(messages);
      return messages, strategy;
    }
    var aged := AgeRounds(cost, rounds, |rounds| - keepRounds, messages);
    AgedFromParts(messages, aged, keepRounds);
    result := AppendRounds(aged, Newest(rounds, keepRounds));
    ConcatNewest(cost, Group(messages), rounds, keepRounds);
    OldMessagesSplit(messages, keepRounds);
  }

  /** The messages after the old ones are those of the last `keepRounds` rounds. */
  lemma OldMessagesSplit(msgs: seq<Message>, keepRounds: nat)
    requires keepRounds < |Group(msgs)|
    ensures KeptMessages(msgs, keepRounds) == Flatten(Newest(Group(msgs), keepRounds))
  {
    hide Flatten, FlattenFirst, WellCut, Newest, Group;
    var g := Group(msgs);
    GroupWellCut(msgs);
    FlattenSplit(g, keepRounds);
    assert msgs[|FlattenFirst(g, |g| - keepRounds)|..] == Flatten(Newest(g, keepRounds));
  }

  /** The newest round is never old. */
  lemma NewestRoundIsKept(msgs: seq<Message>, keepRounds: nat)
    requires msgs != [] && keepRounds >= 1
    ensures var r := Last(Group(msgs));
            OldMessages(msgs, keepRounds) + |r| <= |msgs| && Newest(msgs, |r|) == r
  {
    hide WellCut, Newest, Group, Flatten, FlattenFirst;
    var g := Group(msgs);
    GroupWellCut(msgs);
    FlattenEnds(g);
    if keepRounds < |g| {
      StartMonotone(g, |g| - keepRounds, |g| - 1);
    }
  }

  /** Micro-compaction never touches the newest round. */
  lemma AgedKeepsNewestRound(cost: Estimator, msgs: seq<Message>, keepRounds: nat)
    requires msgs != [] && keepRounds >= 1
    ensures Tokens(cost, Aged(msgs, OldMessages(msgs, keepRounds))) >= Tokens(cost, Last(Group(msgs)))
  {
    NewestRoundIsKept(msgs, keepRounds);
    var aged, r := Aged(msgs, OldMessages(msgs, keepRounds)), Last(Group(msgs));
    assert Newest(aged, |r|) == Newest(msgs, |r|);
    CostsAtLeast(cost, aged, r);
  }

  // ---------------------------------------------------------------- collapse

  const BOUNDARY_TEXT := "[Earlier conversation collapsed for context]"

  const SUMMARY_LABEL := "[Summary of earlier conversation]: "

  /** What a block contributes to the digest: text, cut to 200 bytes, or the name of a called tool. */
  function BlockPart(b: Block): (parts: seq<string>)
    ensures |parts| == if b.Text? || b.ToolUse? then 1 else 0
    ensures b.Text? ==> |parts[0]| <= 203
  {
    match b
    case Text(text) => [if |text| > 200 then Truncated(text, 200) + "..." else text]
    case ToolUse(_, name, _) => ["[tool: " + name + "]"]
    case _ => []
  }

  /** The parts of the first `n` blocks. */
  function ContentParts(content: seq<Block>, n: nat): seq<string>
    requires n <= |content|
  {
    if n == 0 then [] else ContentParts(content, n - 1) + BlockPart(content[n - 1])
  }

  /** The parts of the first `n` messages. */
  function Parts(msgs: seq<Message>, n: nat): seq<string>
    requires n <= |msgs|
  {
    if n == 0 then [] else Parts(msgs, n - 1) + ContentParts(msgs[n - 1].content, |msgs[n - 1].content|)
  }

  function Join(parts: seq<string>): string {
    if parts == [] then ""
    else if |parts| == 1 then parts[0]
    else parts[0] + " | " + Join(parts[1..])
  }

  function TextMessage(text: string): Message {
    Message(User, [Text(text)])
  }

  /** The two messages that stand for the first `n`. */
  function Digest(msgs: seq<Message>, n: nat): (two: seq<Message>)
    requires n <= |msgs|
    ensures |two| == 2 && IsUserText(two[0]) && IsUserText(two[1])
    ensures |two[0].content| == |two[1].content| == 1
  {
    [TextMessage(BOUNDARY_TEXT), TextMessage(SUMMARY_LABEL + Join(Parts(msgs, n)))]
  }

  /** A transcript after `collapse_context`. */
  function Collapsed(msgs: seq<Message>, keepRounds: nat): seq<Message> {
    if |Group(msgs)| <= keepRounds then msgs
    else Digest(msgs, OldMessages(msgs, keepRounds)) + KeptMessages(msgs, keepRounds)
  }

  method AddParts(content: seq<Block>, parts: seq<string>) returns (more: seq<string>)
    ensures more == parts + ContentParts(content, |content|)
  {
    more := parts;
    for i := 0 to |content|
      invariant more == parts + ContentParts(content, i)
    {
      var block := content[i];
      if block.Text? {
        var truncated := block.text;
        if |block.text| > 200 {
          var cut := TruncateAtCharBoundary(block.text, 200);
          truncated := cut + "...";
        }
        more := more + [truncated];
      } else if block.ToolUse? {
        more := more + ["[tool: " + block.name + "]"];
      }
    }
  }

  lemma PartsNone(msgs: seq<Message>)
    ensures Parts(msgs, 0) == []
  {
  }

  lemma PartsOneMore(msgs: seq<Message>, n: nat)
    requires n < |msgs|
    ensures Parts(msgs, n + 1) == Parts(msgs, n) + ContentParts(msgs[n].content, |msgs[n].content|)
  {
  }

  /** The digest parts of the first `n` rounds. */
  method CollectParts(cost: Estimator, rounds: seq<ApiRound>, n: nat, ghost msgs: seq<Message>)
    returns (parts: seq<string>)
    requires DescribesRounds(cost, Group(msgs), rounds) && n <= |rounds|
    ensures Start(Group(msgs), n) <= |msgs|
    ensures parts == Parts(msgs, Start(Group(msgs), n))
  {
    parts := [];
    hide Group, Parts, ContentParts;
    PartsNone(msgs);
    for r := 0 to n
      invariant Start(Group(msgs), r) <= |msgs| && parts == Parts(msgs, Start(Group(msgs), r))
    {
      for m := 0 to |rounds[r].messages|
        invariant Start(Group(msgs), r) + m <= |msgs| && parts == Parts(msgs, Start(Group(msgs), r) + m)
      {
        RoundMessageAt(msgs, r, m);
        PartsOneMore(msgs, Start(Group(msgs), r) + m);
        parts := AddParts(rounds[r].messages[m].content, parts);
      }
    }
  }

  method CollapseContext(cost: Estimator, messages: seq<Message>, keepRounds: nat)
    returns (result: seq<Message>, strategy: Strategy)
    ensures strategy == Strategy.CollapseContext
    ensures result == Collapsed(messages, keepRounds)
  {
    hide Newest, Parts, Join, KeptMessages, BlockPart, Concat, Flatten, Start;
    var rounds := GroupByApiRound(cost, messages);
    strategy := Strategy.CollapseContext;
    if |rounds| <= keepRounds {
      return messages, strategy;
    }
    var summaryParts := CollectParts(cost, rounds, |rounds| - keepRounds, messages);
    var boundary := TextMessage(BOUNDARY_TEXT);
    var summary := TextMessage(SUMMARY_LABEL + Join(summaryParts));
    result := AppendRounds([boundary, summary], Newest(rounds, keepRounds));
    hide Group;
    ConcatNewest(cost, Group(messages), rounds, keepRounds);
    OldMessagesSplit(messages, keepRounds);
  }

  /** Collapsing never touches the newest round. */
  lemma CollapsedKeepsNewestRound(cost: Estimator, msgs: seq<Message>, keepRounds: nat)
    requires msgs != [] && keepRounds >= 1
    ensures Tokens(cost, Collapsed(msgs, keepRounds)) >= Tokens(cost, Last(Group(msgs)))
  {
    NewestRoundIsKept(msgs, keepRounds);
    hide Group, Newest, OldMessages, Digest, Tokens;
    var out, r := Collapsed(msgs, keepRounds), Last(Group(msgs));
    if keepRounds < |Group(msgs)| {
      var n := OldMessages(msgs, keepRounds);
      assert msgs == msgs[..n] + msgs[n..];
      NewestOfAppend(msgs[..n], msgs[n..], |r|);
      NewestOfAppend(Digest(msgs, n), msgs[n..], |r|);
    }
    CostsAtLeast(cost, out, r);
  }

  // ---------------------------------------------------------------- the cascade

  /** Snip ends within budget exactly when the newest round alone fits. */
  lemma SnippedFits(cost: Estimator, msgs: seq<Message>, maxTokens: nat, keepRounds: nat)
    requires msgs != []
    ensures (Tokens(cost, Snipped(cost, msgs, maxTokens, keepRounds)) <= maxTokens)
       <==> (Tokens(cost, Last(Group(msgs))) <= maxTokens)
  {
    var g := Group(msgs);
    var k := SnipKeep(cost, msgs, maxTokens, keepRounds);
    SnippedCost(cost, msgs, maxTokens, keepRounds);
    SnipKeepIsBest(cost, msgs, maxTokens, keepRounds);
    assert SuffixCost(cost, g, 1) == Tokens(cost, Last(g)) + SuffixCost(cost, g, 0);
    SuffixCostMonotone(cost, g, 1, k);
  }

  /** Over budget with a newest round that fits, `snip` drops at least one round. */
  lemma SnipDrops(cost: Estimator, msgs: seq<Message>, maxTokens: nat, keepRounds: nat)
    requires msgs != [] && Tokens(cost, msgs) > maxTokens
    requires Tokens(cost, Snipped(cost, msgs, maxTokens, keepRounds)) <= maxTokens
    ensures |Group(Snipped(cost, msgs, maxTokens, keepRounds))| == SnipKeep(cost, msgs, maxTokens, keepRounds)
    ensures SnipKeep(cost, msgs, maxTokens, keepRounds) < |Group(msgs)|
  {
    var g := Group(msgs);
    SnipRegroups(cost, msgs, maxTokens, keepRounds);
    GroupWellCut(msgs);
    NewestAll(g);
  }

  /** With `keepRounds == 0` every message is old. */
  lemma AllIsOld(msgs: seq<Message>)
    requires msgs != []
    ensures OldMessages(msgs, 0) == |msgs| && Collapsed(msgs, 0) == Digest(msgs, |msgs|)
  {
    GroupWellCut(msgs);
  }

  method Compact(cost: Estimator, messages: seq<Message>, maxTokens: nat, keepRounds: nat)
    returns (result: seq<Message>, report: CompactResult)
    ensures report.messagesBefore == |messages| && report.messagesAfter == |result|
    ensures report.tokensBefore == Tokens(cost, messages) && report.tokensAfter == Tokens(cost, result)
    // Within budget nothing runs.
    ensures Tokens(cost, messages) <= maxTokens ==>
              report.strategy == NoOp && result == messages && report.projection == None
    // Over budget, the newest round decides.
    ensures Tokens(cost, messages) > maxTokens && Tokens(cost, Last(Group(messages))) <= maxTokens ==>
              && report.strategy == Strategy.Snip
              && report.tokensAfter <= maxTokens
              && result == Snipped(cost, messages, maxTokens, keepRounds)
              && report.projection.Some?
              && var p := report.projection.value;
              && p.droppedRounds == |Group(messages)| - |Group(result)| > 0
              && p.droppedMessages == |messages| - |result|
              && p.estimatedTokensSaved == report.tokensBefore - report.tokensAfter
    ensures Tokens(cost, messages) > maxTokens && Tokens(cost, Last(Group(messages))) > maxTokens
            && keepRounds >= 1 ==>
              && report.strategy == Strategy.CollapseContext
              && report.tokensAfter > maxTokens
              && result == Collapsed(messages, keepRounds)
              && report.projection == None
    // With `keepRounds == 0` every round is old, and micro-compaction can be the answer.
    ensures Tokens(cost, messages) > maxTokens && Tokens(cost, Last(Group(messages))) > maxTokens
            && keepRounds == 0 ==>
              && report.projection == None
              && if Tokens(cost, Aged(messages, |messages|)) <= maxTokens
                 then report.strategy == Strategy.MicroCompact && result == Aged(messages, |messages|)
                 else report.strategy == Strategy.CollapseContext && result == Digest(messages, |messages|)
    // And that is the only way to it.
    ensures report.strategy == Strategy.MicroCompact <==>
              && Tokens(cost, messages) > maxTokens && keepRounds == 0
              && Tokens(cost, Last(Group(messages))) > maxTokens
              && Tokens(cost, Aged(messages, |messages|)) <= maxTokens
  {
    var tokensBefore := Tokens(cost, messages);
    var countBefore := |messages|;
    if tokensBefore <= maxTokens {
      return messages, CompactResult(NoOp, countBefore, countBefore, tokensBefore, tokensBefore, None);
    }
    SnippedFits(cost, messages, maxTokens, keepRounds);
    if Tokens(cost, Last(Group(messages))) <= maxTokens {
      SnipDrops(cost, messages, maxTokens, keepRounds);
    } else if keepRounds >= 1 {
      AgedKeepsNewestRound(cost, messages, keepRounds);
      CollapsedKeepsNewestRound(cost, messages, keepRounds);
    } else {
      AllIsOld(messages);
    }
    hide Tokens, Group, Flatten, Newest;
    var strategy, droppedRounds, droppedMessages, tokensSaved;
    result, strategy, droppedRounds, droppedMessages, tokensSaved :=
      Snip(cost, messages, maxTokens, keepRounds);
    if Tokens(cost, result) > maxTokens {
      droppedRounds, droppedMessages, tokensSaved := 0, 0, 0;
      result, strategy := MicroCompact(cost, messages, keepRounds);
      if Tokens(cost, result) > maxTokens {
        result, strategy := CollapseContext(cost, messages, keepRounds);
      }
    }
    var tokensAfter := Tokens(cost, result);
    var projection := if strategy == Strategy.Snip && droppedRounds > 0
      then Some(SnipProjection(droppedRounds, droppedMessages, tokensSaved)) else None;
    report := CompactResult(strategy, countBefore, |result|, tokensBefore, tokensAfter, projection);
  }

  /** One byte of a lone tool result is a token, and so is any other message. */
  function ResultBytes(m: Message): nat {
    if |m.content| == 1 && m.content[0].ToolResult? then |m.content[0].content| else 1
  }

  /** It is reached: a single round whose result is long, no round to keep, and a budget of 50. */
  method MicroCompactIsReported() returns (result: seq<Message>, report: CompactResult)
    ensures report.strategy == Strategy.MicroCompact
    ensures report.tokensBefore == 101 && report.tokensAfter == 34
    ensures |result| == 2 && result[1].content == [ToolResult("t1", CLEARED, Some(false))]
  {
    var body := seq(100, _ => 'x');
    var call := Message(Assistant, [ToolUse("t1", "Read", "{}")]);
    var answer := Message(User, [ToolResult("t1", body, Some(false))]);
    var msgs := [call, answer];
    TokensOfTwo(msgs);
    TokensOfTwo(Aged(msgs, 2));
    ReadIsSeen(msgs);
    assert [call] + [answer] == msgs && Group([call]) == [[call]];
    GroupSnoc([call], answer);
    assert Group(msgs) == [msgs];
    hide Group, Tokens, Aged;
    result, report := Compact(ResultBytes, msgs, 50, 0);
  }

  lemma TokensOfTwo(msgs: seq<Message>)
    requires |msgs| == 2
    ensures Tokens(ResultBytes, msgs) == ResultBytes(msgs[0]) + ResultBytes(msgs[1])
  {
    assert TokensFirst(ResultBytes, msgs, 1) == ResultBytes(msgs[0]);
  }

  lemma ReadIsSeen(msgs: seq<Message>)
    requires |msgs| == 2 && msgs[0].content == [ToolUse("t1", "Read", "{}")]
    requires |msgs[1].content| == 1 && msgs[1].content[0].ToolResult?
    ensures |Aged(msgs, 2)| == 2
    ensures Aged(msgs, 2)[0].content == msgs[0].content
    ensures Aged(msgs, 2)[1].content == [msgs[1].content[0].(content := CLEARED, isError := Some(false))]
  {
    assert ToolSeen(msgs, 1) == Some("Read");
    assert ToolSeen(msgs, 2) == Some("Read");
    assert COMPACTABLE_TOOLS[0] == "Read";
  }

  // ---------------------------------------------------------------- the predictive pass

  datatype ReactiveOutcome = NotTriggered | Compacted | NoEffect

  /**
   Compaction before the budget forces it. `predicted` is the answer of the velocity
   prediction, which is taken as given. The rewrite is adopted only when it made the history
   strictly cheaper, and never drops a message.
   */
  method Reactive(cost: Estimator, messages: seq<Message>, contextLimit: nat, keepRecent: nat,
                  enabled: bool, circuitOpen: bool, predicted: bool)
    returns (adopted: seq<Message>, outcome: ReactiveOutcome)
    ensures var keep := if keepRecent < 5 then 5 else keepRecent;
            var aged := Aged(messages, OldMessages(messages, keep));
            var runs := enabled && contextLimit != 0 && !circuitOpen && predicted && |Group(messages)| > keep;
            && (outcome == NotTriggered <==> !runs)
            && (outcome == Compacted <==> runs && Tokens(cost, aged) < Tokens(cost, messages))
            && adopted == (if outcome == Compacted then aged else messages)
    ensures |adopted| == |messages| && Tokens(cost, adopted) <= Tokens(cost, messages)
  {
    hide Group, Tokens;
    if !enabled || contextLimit == 0 || circuitOpen || !predicted {
      return messages, NotTriggered;
    }
    var keep := if keepRecent < 5 then 5 else keepRecent;
    var rounds := GroupByApiRound(cost, messages);
    if |rounds| <= keep {
      return messages, NotTriggered;
    }
    var before := Tokens(cost, messages);
    var compacted, _ := MicroCompact(cost, messages, keep);
    if Tokens(cost, compacted) >= before {
      return messages, NoEffect;
    }
    return compacted, Compacted;
  }
}
