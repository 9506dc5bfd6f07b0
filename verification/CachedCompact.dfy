/**
 The aging pass that keeps the server-side cache small (crates/compaction/src/cached.rs):
 blank every tool result but the newest few, and tell the next request which ones.
 */
module CachedCompact {
  import opened Wrappers
  import opened Transcript
  import opened ResultBudget

  // ---------------------------------------------------------------- scan order

  /** Tool results among the first `n` blocks. */
  function CountIn(content: seq<Block>, n: nat): nat
    requires n <= |content|
  {
    if n == 0 then 0 else CountIn(content, n - 1) + if content[n - 1].ToolResult? then 1 else 0
  }

  /** Tool results in the user messages from `i` on. */
  function CountFrom(msgs: seq<Message>, i: nat): nat
    requires i <= |msgs|
    decreases |msgs| - i
  {
    if i == |msgs| then 0
    else CountFrom(msgs, i + 1) + if msgs[i].role.User? then CountIn(msgs[i].content, |msgs[i].content|) else 0
  }

  /** A tool result the pass looks at: one in a user message. */
  predicate IsResultAt(msgs: seq<Message>, i: nat, j: nat) {
    i < |msgs| && j < |msgs[i].content| && msgs[i].role.User? && msgs[i].content[j].ToolResult?
  }

  /**
   How many results come before block `j` of message `i` in the order the pass counts them:
   newest message first, and block order within a message.
   */
  function Rank(msgs: seq<Message>, i: nat, j: nat): nat
    requires i < |msgs| && j < |msgs[i].content|
  {
    CountFrom(msgs, i + 1) + CountIn(msgs[i].content, j)
  }

  /** A result that is not among the `keepRecent` newest. */
  predicate IsStale(msgs: seq<Message>, i: nat, j: nat, keepRecent: nat) {
    IsResultAt(msgs, i, j) && Rank(msgs, i, j) >= keepRecent
  }

  /** What a stale result becomes. Its id goes too. */
  const BLANK := ToolResult("", CLEARED, Some(false))

  /** The transcript with the results of rank `from` up to `upTo` blanked. */
  function Blanked(msgs: seq<Message>, from: nat, upTo: nat): seq<Message> {
    seq(|msgs|, i requires 0 <= i < |msgs| =>
      msgs[i].(content := seq(|msgs[i].content|, j requires 0 <= j < |msgs[i].content| =>
        if IsStale(msgs, i, j, from) && Rank(msgs, i, j) < upTo then BLANK else msgs[i].content[j])))
  }

  /** The transcript after a pass: exactly the stale results blanked. */
  function Cleared(msgs: seq<Message>, keepRecent: nat): seq<Message> {
    Blanked(msgs, keepRecent, CountFrom(msgs, 0))
  }

  /** The positions of all results, in scan order. */
  function ScanFrom(msgs: seq<Message>, i: nat): seq<(nat, nat)>
    requires i <= |msgs|
    decreases |msgs| - i
  {
    if i == |msgs| then []
    else if msgs[i].role.User? then ScanFrom(msgs, i + 1) + MessagePositions(msgs[i], i)
    else ScanFrom(msgs, i + 1)
  }

  lemma {:induction false} CountInPositions(content: seq<Block>, n: nat, mi: nat)
    requires n <= |content|
    ensures |ContentPositions(content, n, mi)| == CountIn(content, n)
  {
    if n > 0 {
      CountInPositions(content, n - 1, mi);
    }
  }

  lemma {:induction false} CountInMonotone(content: seq<Block>, k: nat, n: nat)
    requires k <= n <= |content|
    ensures CountIn(content, k) <= CountIn(content, n)
    ensures k < n && content[k].ToolResult? ==> CountIn(content, k) < CountIn(content, n)
  {
    if k < n {
      CountInMonotone(content, k, n - 1);
    }
  }

  lemma {:induction false} ContentScan(content: seq<Block>, n: nat, mi: nat, p: nat)
    requires n <= |content| && p < |ContentPositions(content, n, mi)|
    ensures var at := ContentPositions(content, n, mi)[p];
            at.0 == mi && at.1 < n && content[at.1].ToolResult? && CountIn(content, at.1) == p
  {
    CountInPositions(content, n - 1, mi);
    if p < |ContentPositions(content, n - 1, mi)| {
      ContentScan(content, n - 1, mi, p);
    }
  }

  /** The `p`-th position in scan order holds the result of rank `p`. */
  lemma {:induction false} ScanRank(msgs: seq<Message>, i: nat, p: nat)
    requires i <= |msgs|
    ensures |ScanFrom(msgs, i)| == CountFrom(msgs, i)
    ensures p < |ScanFrom(msgs, i)| ==>
              var at := ScanFrom(msgs, i)[p];
              i <= at.0 && IsResultAt(msgs, at.0, at.1) && Rank(msgs, at.0, at.1) == p
    decreases |msgs| - i
  {
    if i < |msgs| {
      ScanRank(msgs, i + 1, p);
      if msgs[i].role.User? {
        var content := msgs[i].content;
        CountInPositions(content, |content|, i);
        var before := |ScanFrom(msgs, i + 1)|;
        if before <= p < |ScanFrom(msgs, i)| {
          assert ScanFrom(msgs, i)[p] == MessagePositions(msgs[i], i)[p - before];
          ContentScan(content, |content|, i, p - before);
        }
      }
    }
  }

  /** Ranks stay below the count, and grow towards older messages. */
  lemma {:induction false} RankBound(msgs: seq<Message>, i: nat, j: nat, k: nat)
    requires k <= i && IsResultAt(msgs, i, j)
    ensures Rank(msgs, i, j) < CountFrom(msgs, k)
    decreases i - k
  {
    CountInMonotone(msgs[i].content, j, |msgs[i].content|);
    if k < i {
      RankBound(msgs, i, j, k + 1);
    }
  }

  /** Different results have different ranks. */
  lemma RankInjective(msgs: seq<Message>, i: nat, j: nat, i': nat, j': nat)
    requires IsResultAt(msgs, i, j) && IsResultAt(msgs, i', j')
    requires Rank(msgs, i, j) == Rank(msgs, i', j')
    ensures i == i' && j == j'
  {
    if i < i' {
      RankBound(msgs, i', j', i + 1);
    } else if i' < i {
      RankBound(msgs, i, j, i' + 1);
    } else if j < j' {
      CountInMonotone(msgs[i].content, j, j');
    } else if j' < j {
      CountInMonotone(msgs[i].content, j', j);
    }
  }

  /** Results in newer messages come first, and within a message in block order. */
  lemma RankOrder(msgs: seq<Message>, i: nat, j: nat, i': nat, j': nat)
    requires IsResultAt(msgs, i, j) && IsResultAt(msgs, i', j')
    ensures Rank(msgs, i, j) < Rank(msgs, i', j') <==> i > i' || (i == i' && j < j')
  {
    if i < i' {
      RankBound(msgs, i', j', i + 1);
    } else if i' < i {
      RankBound(msgs, i, j, i' + 1);
    } else if j < j' {
      CountInMonotone(msgs[i].content, j, j');
    } else {
      CountInMonotone(msgs[i].content, j', j);
    }
  }

  // ---------------------------------------------------------------- the ids

  /** The ids of all results, in scan order. */
  function ScanIds(msgs: seq<Message>): (ids: seq<string>)
    ensures |ids| == CountFrom(msgs, 0)
  {
    ScanRank(msgs, 0, 0);
    var ps := ScanFrom(msgs, 0);
    seq(|ps|, p requires 0 <= p < |ps| =>
      ScanRank(msgs, 0, p); msgs[ps[p].0].content[ps[p].1].toolUseId)
  }

  /** Those of `ids[from..upTo]` that are not empty. */
  function NonEmpty(ids: seq<string>, from: nat, upTo: nat): seq<string>
    requires upTo <= |ids|
    decreases upTo
  {
    if upTo <= from then []
    else if ids[upTo - 1] != "" then NonEmpty(ids, from, upTo - 1) + [ids[upTo - 1]]
    else NonEmpty(ids, from, upTo - 1)
  }

  /** The ids a pass reports. */
  function StaleIds(msgs: seq<Message>, keepRecent: nat): seq<string> {
    NonEmpty(ScanIds(msgs), keepRecent, |ScanIds(msgs)|)
  }

  // ---------------------------------------------------------------- the pass

  method CollectScan(messages: array<Message>) returns (positions: seq<(nat, nat)>)
    ensures positions == ScanFrom(messages[..], 0)
  {
    positions := [];
    var i := messages.Length;
    while i > 0
      invariant 0 <= i <= messages.Length
      invariant positions == ScanFrom(messages[..], i)
    {
      i := i - 1;
      if messages[i].role.User? {
        var content := messages[i].content;
        ghost var before := positions;
        for j := 0 to |content|
          invariant positions == before + ContentPositions(content, j, i)
        {
          if content[j].ToolResult? {
            positions := positions + [(i, j)];
          }
        }
      }
    }
  }

  method ClearStaleToolResults(messages: array<Message>, keepRecent: nat)
    returns (cleared: nat, clearedIds: seq<string>)
    modifies messages
    ensures messages[..] == Cleared(old(messages[..]), keepRecent)
    ensures clearedIds == StaleIds(old(messages[..]), keepRecent)
    ensures cleared == SaturatingSub(CountFrom(old(messages[..]), 0), keepRecent)
  {
    hide ScanFrom, CountFrom, Rank, CountIn, IsResultAt;
    ghost var was := messages[..];
    var positions := CollectScan(messages);
    var toKeep := if keepRecent < |positions| then keepRecent else |positions|;
    cleared := SaturatingSub(|positions|, toKeep);
    clearedIds := [];
    ScanRank(was, 0, 0);
    BlankedNone(was, keepRecent, toKeep);
    var p := toKeep;
    while p < |positions|
      invariant toKeep <= p <= |positions| == |ScanIds(was)|
      invariant messages[..] == Blanked(was, keepRecent, p)
      invariant clearedIds == NonEmpty(ScanIds(was), keepRecent, p)
    {
      var at := positions[p];
      BlankStep(was, keepRecent, p);
      assert messages[..][at.0] == messages[at.0];
      var block := messages[at.0].content[at.1];
      if block.toolUseId != "" {
        clearedIds := clearedIds + [block.toolUseId];
      }
      ghost var now := messages[..];
      messages[at.0] := messages[at.0].(content := messages[at.0].content[at.1 := BLANK]);
      assert messages[..] == now[at.0 := now[at.0].(content := now[at.0].content[at.1 := BLANK])];
      p := p + 1;
    }
  }

  lemma BlankedNone(msgs: seq<Message>, from: nat, upTo: nat)
    requires upTo <= from
    ensures Blanked(msgs, from, upTo) == msgs
  {
    forall i | 0 <= i < |msgs| ensures Blanked(msgs, from, upTo)[i] == msgs[i] {
      assert Blanked(msgs, from, upTo)[i].content == msgs[i].content;
    }
  }

  /** Blanking the result at the `p`-th position is blanking the result of rank `p`. */
  lemma BlankStep(msgs: seq<Message>, from: nat, p: nat)
    requires from <= p < |ScanFrom(msgs, 0)|
    ensures |ScanIds(msgs)| == |ScanFrom(msgs, 0)|
    ensures var at := ScanFrom(msgs, 0)[p];
            var now := Blanked(msgs, from, p);
            && at.0 < |msgs| && at.1 < |now[at.0].content|
            && now[at.0].content[at.1].ToolResult?
            && now[at.0].content[at.1].toolUseId == ScanIds(msgs)[p]
            && Blanked(msgs, from, p + 1) == now[at.0 := now[at.0].(content := now[at.0].content[at.1 := BLANK])]
  {
    ScanRank(msgs, 0, p);
    var at := ScanFrom(msgs, 0)[p];
    var now, next := Blanked(msgs, from, p), Blanked(msgs, from, p + 1);
    var want := now[at.0 := now[at.0].(content := now[at.0].content[at.1 := BLANK])];
    hide Rank, CountFrom, ScanFrom;
    forall i | 0 <= i < |msgs| ensures next[i] == want[i] {
      forall j | 0 <= j < |msgs[i].content| ensures next[i].content[j] == want[i].content[j] {
        if IsResultAt(msgs, i, j) && Rank(msgs, i, j) == p {
          RankInjective(msgs, i, j, at.0, at.1);
        }
      }
      assert next[i].content == want[i].content;
    }
  }

  // ---------------------------------------------------------------- what a pass promises

  /** Blanking moves no result, so it changes no rank. */
  lemma {:induction false} CountsStay(a: seq<Message>, b: seq<Message>, i: nat)
    requires i <= |a| == |b| && SameResults(a, b)
    ensures CountFrom(a, i) == CountFrom(b, i)
    decreases |a| - i
  {
    if i < |a| {
      CountsStay(a, b, i + 1);
      CountInStays(a[i].content, b[i].content, |a[i].content|);
    }
  }

  ghost predicate SameResults(a: seq<Message>, b: seq<Message>) {
    && |a| == |b|
    && forall i {:trigger a[i]} {:trigger b[i]} :: 0 <= i < |a| ==>
         && a[i].role == b[i].role && |a[i].content| == |b[i].content|
         && forall j :: 0 <= j < |a[i].content| ==> a[i].content[j].ToolResult? == b[i].content[j].ToolResult?
  }

  lemma {:induction false} CountInStays(a: seq<Block>, b: seq<Block>, n: nat)
    requires n <= |a| && n <= |b| && forall j :: 0 <= j < n ==> a[j].ToolResult? == b[j].ToolResult?
    ensures CountIn(a, n) == CountIn(b, n)
  {
    if n > 0 {
      CountInStays(a, b, n - 1);
    }
  }

  lemma RankStays(a: seq<Message>, b: seq<Message>, i: nat, j: nat)
    requires SameResults(a, b) && i < |a| && j < |a[i].content|
    ensures Rank(a, i, j) == Rank(b, i, j) && IsResultAt(a, i, j) == IsResultAt(b, i, j)
  {
    CountsStay(a, b, i + 1);
    CountInStays(a[i].content, b[i].content, j);
  }

  /** Which results are intact after a pass: the `keepRecent` first in scan order, and no other. */
  lemma KeepsExactlyTheNewest(msgs: seq<Message>, keepRecent: nat, i: nat, j: nat)
    requires i < |msgs| && j < |msgs[i].content|
    ensures var after := Cleared(msgs, keepRecent);
            && |after| == |msgs| && |after[i].content| == |msgs[i].content| && after[i].role == msgs[i].role
            && after[i].content[j] ==
                 (if IsResultAt(msgs, i, j) && Rank(msgs, i, j) >= keepRecent then BLANK else msgs[i].content[j])
  {
    if IsResultAt(msgs, i, j) {
      RankBound(msgs, i, j, 0);
    }
  }

  /**
   Said without ranks: a blanked result is empty of id, body and error, everything else is as it
   was, and every result that is kept stands before every blanked one, newest message first.
   */
  lemma BlankedAreTheOldest(msgs: seq<Message>, keepRecent: nat, i: nat, j: nat, i': nat, j': nat)
    requires IsResultAt(msgs, i, j) && IsResultAt(msgs, i', j')
    ensures var after := Cleared(msgs, keepRecent);
            && |after| == |msgs| && |after[i].content| == |msgs[i].content| && |after[i'].content| == |msgs[i'].content|
            && (IsStale(msgs, i, j, keepRecent) ==>
                  after[i].content[j] == ToolResult("", "[Old tool result content cleared]", Some(false)))
            && (!IsStale(msgs, i, j, keepRecent) ==> after[i].content[j] == msgs[i].content[j])
            && (!IsStale(msgs, i, j, keepRecent) && IsStale(msgs, i', j', keepRecent) ==>
                  i > i' || (i == i' && j < j'))
  {
    KeepsExactlyTheNewest(msgs, keepRecent, i, j);
    KeepsExactlyTheNewest(msgs, keepRecent, i', j');
    RankOrder(msgs, i, j, i', j');
  }

  lemma ClearedSameResults(msgs: seq<Message>, keepRecent: nat)
    ensures SameResults(msgs, Cleared(msgs, keepRecent))
  {
    hide Rank, CountFrom;
  }

  /** A second pass leaves the messages as they are. */
  lemma SecondPassChangesNothing(msgs: seq<Message>, keepRecent: nat)
    ensures Cleared(Cleared(msgs, keepRecent), keepRecent) == Cleared(msgs, keepRecent)
  {
    var once := Cleared(msgs, keepRecent);
    var twice := Cleared(once, keepRecent);
    ClearedSameResults(msgs, keepRecent);
    ClearedSameResults(once, keepRecent);
    hide Cleared;
    forall i | 0 <= i < |msgs| ensures twice[i] == once[i] {
      assert once[i] == once[i].(content := once[i].content);
      forall j | 0 <= j < |msgs[i].content| ensures twice[i].content[j] == once[i].content[j] {
        KeepsExactlyTheNewest(msgs, keepRecent, i, j);
        KeepsExactlyTheNewest(once, keepRecent, i, j);
        RankStays(msgs, once, i, j);
      }
      assert twice[i].content == once[i].content;
    }
  }

  lemma {:induction false} NonEmptyOfEmpty(ids: seq<string>, from: nat, upTo: nat)
    requires upTo <= |ids| && forall p :: from <= p < upTo ==> ids[p] == ""
    ensures NonEmpty(ids, from, upTo) == []
    decreases upTo
  {
    if from < upTo {
      NonEmptyOfEmpty(ids, from, upTo - 1);
    }
  }

  /** A second pass reports no ids: the first one blanked them. */
  lemma SecondPassReportsNothing(msgs: seq<Message>, keepRecent: nat)
    ensures StaleIds(Cleared(msgs, keepRecent), keepRecent) == []
  {
    var once := Cleared(msgs, keepRecent);
    ClearedSameResults(msgs, keepRecent);
    ScanRank(once, 0, 0);
    var ids := ScanIds(once);
    hide Cleared;
    forall p | keepRecent <= p < |ids| ensures ids[p] == "" {
      ScanRank(once, 0, p);
      var at := ScanFrom(once, 0)[p];
      RankStays(msgs, once, at.0, at.1);
      KeepsExactlyTheNewest(msgs, keepRecent, at.0, at.1);
    }
    NonEmptyOfEmpty(ids, keepRecent, |ids|);
  }

  // ---------------------------------------------------------------- the independent scan

  /** The first occurrence of each of the first `n` elements. */
  function FirstOccurrences(s: seq<string>, n: nat): seq<string>
    requires n <= |s|
  {
    if n == 0 then []
    else if s[n - 1] in FirstOccurrences(s, n - 1) then FirstOccurrences(s, n - 1)
    else FirstOccurrences(s, n - 1) + [s[n - 1]]
  }

  /** It drops repetitions and nothing else. */
  lemma {:induction false} FirstOccurrencesMeaning(s: seq<string>, n: nat)
    requires n <= |s|
    ensures forall x :: x in FirstOccurrences(s, n) <==> x in s[..n]
    ensures forall i, j :: 0 <= i < j < |FirstOccurrences(s, n)| ==>
              FirstOccurrences(s, n)[i] != FirstOccurrences(s, n)[j]
  {
    if n > 0 {
      FirstOccurrencesMeaning(s, n - 1);
      assert s[..n] == s[..n - 1] + [s[n - 1]];
    }
  }

  /** The ids the scan has collected after `n` results. */
  function EditIds(ids: seq<string>, keepRecent: nat, n: nat): seq<string>
    requires n <= |ids|
  {
    if n == 0 then []
    else if n > keepRecent && ids[n - 1] != "" && ids[n - 1] !in EditIds(ids, keepRecent, n - 1)
         then EditIds(ids, keepRecent, n - 1) + [ids[n - 1]]
    else EditIds(ids, keepRecent, n - 1)
  }

  lemma {:induction false} FirstOccurrencesAgree(a: seq<string>, b: seq<string>, n: nat)
    requires n <= |a| && n <= |b| && forall i :: 0 <= i < n ==> a[i] == b[i]
    ensures FirstOccurrences(a, n) == FirstOccurrences(b, n)
  {
    if n > 0 {
      FirstOccurrencesAgree(a, b, n - 1);
    }
  }

  /** The scan's counter and vector come to deduplicating what the clearing pass reports. */
  lemma {:induction false} EditIdsAreDeduplicated(ids: seq<string>, keepRecent: nat, n: nat)
    requires n <= |ids|
    ensures var reported := NonEmpty(ids, keepRecent, n);
            EditIds(ids, keepRecent, n) == FirstOccurrences(reported, |reported|)
  {
    if n > 0 {
      EditIdsAreDeduplicated(ids, keepRecent, n - 1);
      var before := NonEmpty(ids, keepRecent, n - 1);
      if n > keepRecent && ids[n - 1] != "" {
        FirstOccurrencesAgree(before + [ids[n - 1]], before, |before|);
      }
    }
  }

  /** The result at block `j` of message `i` is the one the scan meets at its rank. */
  lemma ScanMeets(msgs: seq<Message>, i: nat, j: nat)
    requires IsResultAt(msgs, i, j)
    ensures Rank(msgs, i, j) < |ScanIds(msgs)|
    ensures ScanIds(msgs)[Rank(msgs, i, j)] == msgs[i].content[j].toolUseId
  {
    RankBound(msgs, i, j, 0);
    ScanRank(msgs, 0, Rank(msgs, i, j));
    var at := ScanFrom(msgs, 0)[Rank(msgs, i, j)];
    RankInjective(msgs, i, j, at.0, at.1);
  }

  method BuildCacheEdits(messages: seq<Message>, keepRecent: nat) returns (toolUseIds: seq<string>)
    ensures toolUseIds == FirstOccurrences(StaleIds(messages, keepRecent), |StaleIds(messages, keepRecent)|)
    ensures forall id :: id in toolUseIds <==> id in StaleIds(messages, keepRecent)
    ensures forall i, j :: 0 <= i < j < |toolUseIds| ==> toolUseIds[i] != toolUseIds[j]
  {
    hide ScanFrom, ScanIds;
    toolUseIds := [];
    var resultCount := 0;
    var i := |messages|;
    while i > 0
      invariant 0 <= i <= |messages|
      invariant resultCount == CountFrom(messages, i) <= |ScanIds(messages)|
      invariant toolUseIds == EditIds(ScanIds(messages), keepRecent, resultCount)
    {
      i := i - 1;
      if messages[i].role.User? {
        var content := messages[i].content;
        for j := 0 to |content|
          invariant resultCount == CountFrom(messages, i + 1) + CountIn(content, j) <= |ScanIds(messages)|
          invariant toolUseIds == EditIds(ScanIds(messages), keepRecent, resultCount)
        {
          if content[j].ToolResult? {
            ScanMeets(messages, i, j);
            var id := content[j].toolUseId;
            resultCount := resultCount + 1;
            if resultCount > keepRecent && id != "" && id !in toolUseIds {
              toolUseIds := toolUseIds + [id];
            }
          }
        }
      }
    }
    EditIdsAreDeduplicated(ScanIds(messages), keepRecent, resultCount);
    var reported := StaleIds(messages, keepRecent);
    FirstOccurrencesMeaning(reported, |reported|);
    assert reported[..|reported|] == reported;
  }

  // ---------------------------------------------------------------- the state around it

  datatype CachedMcConfig = CachedMcConfig(enabled: bool, interval: nat, keepRecent: nat)

  /** When a pass last ran, and the ids the next request still has to send. */
  class CachedMicroCompact {
    const config: CachedMcConfig
    var lastRun: nat
    var runCount: nat
    var pendingEdits: seq<string>

    /** The object holds the ids that are pending in the machine's state. */
    ghost predicate Shows(s: State)
      reads this
    {
      pendingEdits == Ids(s.pending)
    }

    constructor (config: CachedMcConfig, now: nat)
      ensures this.config == config && lastRun == now && runCount == 0 && pendingEdits == []
    {
      this.config, lastRun, runCount, pendingEdits := config, now, 0, [];
    }

    predicate ShouldRun(now: nat)
      reads this
    {
      config.enabled && now - lastRun >= config.interval
    }

    method RecordPass(ids: seq<string>, now: nat)
      modifies this
      ensures pendingEdits == ids && lastRun == now && runCount == old(runCount) + 1
      // The interval restarts: the next pass is due when it is over, if passes are enabled.
      ensures forall later :: later >= now ==> (ShouldRun(later) <==> config.enabled && later >= now + config.interval)
      ensures forall s: State :: Shows(Next(config.keepRecent, s, Record(ids)))
    {
      pendingEdits := ids;
      lastRun := now;
      runCount := runCount + 1;
    }

    method Run(messages: array<Message>, now: nat) returns (cleared: nat)
      modifies this, messages
      ensures !config.enabled ==>
                cleared == 0 && unchanged(this) && messages[..] == old(messages[..])
      ensures config.enabled ==>
                && messages[..] == Cleared(old(messages[..]), config.keepRecent)
                && cleared == SaturatingSub(CountFrom(old(messages[..]), 0), config.keepRecent)
                && pendingEdits == StaleIds(old(messages[..]), config.keepRecent)
                && lastRun == now && runCount == old(runCount) + 1
      ensures config.enabled ==>
                forall s: State :: s.msgs == old(messages[..]) ==>
                  Shows(Next(config.keepRecent, s, Pass)) && Next(config.keepRecent, s, Pass).msgs == messages[..]
    {
      if !config.enabled {
        return 0;
      }
      var ids;
      cleared, ids := ClearStaleToolResults(messages, config.keepRecent);
      RecordPass(ids, now);
    }

    method ConsumePendingEdits() returns (edits: seq<string>)
      modifies this
      ensures edits == old(pendingEdits) && pendingEdits == []
      ensures lastRun == old(lastRun) && runCount == old(runCount)
      ensures forall s: State :: old(Shows(s)) ==>
                && Shows(Next(config.keepRecent, s, Consume))
                && Ids(Next(config.keepRecent, s, Consume).handedOut) == Ids(s.handedOut) + edits
    {
      edits := pendingEdits;
      pendingEdits := [];
    }
  }

  /**
   A pass overwrites what an earlier pass left pending: two passes in a row with nothing new in
   between leave no edits to send, whatever ids the first one reported.
   */
  method TwoPassesLoseTheFirst(pass: CachedMicroCompact, messages: array<Message>, first: nat, second: nat)
    returns (lost: seq<string>)
    requires pass.config.enabled
    modifies pass, messages
    ensures lost == StaleIds(old(messages[..]), pass.config.keepRecent)
    ensures pass.pendingEdits == []
    ensures messages[..] == Cleared(old(messages[..]), pass.config.keepRecent)
  {
    var _ := pass.Run(messages, first);
    lost := pass.pendingEdits;
    SecondPassReportsNothing(old(messages[..]), pass.config.keepRecent);
    SecondPassChangesNothing(old(messages[..]), pass.config.keepRecent);
    var _ := pass.Run(messages, second);
  }

  // ---------------------------------------------------------------- runs of passes and requests

  /** An id to send, and the number of the step whose pass reported it. */
  datatype Edit = Edit(id: string, pass: nat)

  /** `handedOut` are the edits that requests took along; `time` counts the steps. */
  datatype State = State(msgs: seq<Message>, pending: seq<Edit>, handedOut: seq<Edit>, time: nat)

  const INITIAL := State([], [], [], 0)

  datatype Step =
    | Rewrite(to: seq<Message>)   // the transcript grows, or is compacted
    | Pass                        // `run`
    | Record(ids: seq<string>)    // `record_pass` for a pass somebody else ran
    | Consume                     // `consume_pending_edits`

  predicate IsPass(a: Step) {
    a.Pass? || a.Record?
  }

  /** The ids that a pass makes pending. */
  function Reported(keepRecent: nat, s: State, a: Step): seq<string> {
    match a
    case Pass => StaleIds(s.msgs, keepRecent)
    case Record(ids) => ids
    case _ => []
  }

  function Tagged(ids: seq<string>, pass: nat): seq<Edit> {
    seq(|ids|, i requires 0 <= i < |ids| => Edit(ids[i], pass))
  }

  function Ids(edits: seq<Edit>): seq<string> {
    seq(|edits|, i requires 0 <= i < |edits| => edits[i].id)
  }

  function Next(keepRecent: nat, s: State, a: Step): State {
    var s' := s.(time := s.time + 1);
    match a
    case Rewrite(to) => s'.(msgs := to)
    case Pass =>
      s'.(msgs := Cleared(s.msgs, keepRecent), pending := Tagged(Reported(keepRecent, s, a), s.time))
    case Record(_) => s'.(pending := Tagged(Reported(keepRecent, s, a), s.time))
    case Consume => s'.(pending := [], handedOut := s.handedOut + s.pending)
  }

  ghost predicate IsRun(keepRecent: nat, states: seq<State>, steps: seq<Step>) {
    && |states| == |steps| + 1
    && states[0] == INITIAL
    && forall i {:trigger steps[i]} :: 0 <= i < |steps| ==> states[i + 1] == Next(keepRecent, states[i], steps[i])
  }

  /** Edits come from passes that have been. */
  lemma {:induction false} TagsArePast(keepRecent: nat, states: seq<State>, steps: seq<Step>, n: nat)
    requires IsRun(keepRecent, states, steps) && n < |states|
    ensures states[n].time == n
    ensures forall e <- states[n].pending :: e.pass < n
    ensures forall e <- states[n].handedOut :: e.pass < n
  {
    hide StaleIds, Cleared;
    if n > 0 {
      TagsArePast(keepRecent, states, steps, n - 1);
      assert states[n] == Next(keepRecent, states[n - 1], steps[n - 1]);
    }
  }

  /** No pass among the steps from `m` up to `n`. */
  ghost predicate NoPass(steps: seq<Step>, m: nat, n: nat)
    requires n <= |steps|
  {
    forall k {:trigger steps[k]} :: m <= k < n ==> !IsPass(steps[k])
  }

  /** A request between the pass of step `i` and step `n` comes before the next pass. */
  ghost predicate ConsumedInTime(steps: seq<Step>, i: nat, n: nat)
    requires n <= |steps|
  {
    exists j :: i < j < n && steps[j].Consume? && NoPass(steps, i + 1, j)
  }

  /**
   An id reported by a pass is handed out exactly when a request comes after that pass and
   before the next one. Until then it is pending as long as no other pass has come.
   */
  lemma {:induction false} HandedOutIff(keepRecent: nat, states: seq<State>, steps: seq<Step>,
                                        i: nat, n: nat, id: string)
    requires IsRun(keepRecent, states, steps) && i < n < |states|
    requires id in Reported(keepRecent, states[i], steps[i])
    ensures Edit(id, i) in states[n].handedOut <==> ConsumedInTime(steps, i, n)
    ensures Edit(id, i) in states[n].pending <==> NoPass(steps, i + 1, n) && !ConsumedInTime(steps, i, n)
  {
    hide StaleIds, Cleared;
    TagsArePast(keepRecent, states, steps, n - 1);
    var a := steps[n - 1];
    assert states[n] == Next(keepRecent, states[n - 1], a);
    if i == n - 1 {
      var reported := Reported(keepRecent, states[i], a);
      var k :| 0 <= k < |reported| && reported[k] == id;
      assert Tagged(reported, i)[k] == Edit(id, i);
    } else {
      HandedOutIff(keepRecent, states, steps, i, n - 1, id);
      OneMoreStep(steps, i, n);
    }
  }

  lemma OneMoreStep(steps: seq<Step>, i: nat, n: nat)
    requires i + 1 < n <= |steps|
    ensures NoPass(steps, i + 1, n) <==> NoPass(steps, i + 1, n - 1) && !IsPass(steps[n - 1])
    ensures ConsumedInTime(steps, i, n)
       <==> ConsumedInTime(steps, i, n - 1) || (steps[n - 1].Consume? && NoPass(steps, i + 1, n - 1))
  {
    if ConsumedInTime(steps, i, n - 1) {
      var j :| i < j < n - 1 && steps[j].Consume? && NoPass(steps, i + 1, j);
      assert steps[j].Consume?;
    }
  }

  /** It is lost for good otherwise: here the only id there is goes to no request. */
  lemma AnIdCanBeLost()
    ensures exists states: seq<State>, steps: seq<Step>, id: string ::
              && IsRun(0, states, steps) && |steps| == 4
              && steps[1] == Pass && id in Reported(0, states[1], steps[1])
              && steps[3] == Consume && states[4].handedOut == [] && states[4].pending == []
  {
    hide StaleIds, Cleared, Ids;
    var msgs := [Message(User, [ToolResult("t1", "body", Some(false))])];
    OneResultIsReported(msgs);
    var steps := [Rewrite(msgs), Pass, Pass, Consume];
    var s1 := Next(0, INITIAL, steps[0]);
    var s2 := Next(0, s1, Pass);
    SecondPassReportsNothing(msgs, 0);
    var s3 := Next(0, s2, Pass);
    var s4 := Next(0, s3, Consume);
    var states := [INITIAL, s1, s2, s3, s4];
    assert IsRun(0, states, steps);
    assert s3.pending == [];
    assert "t1" in Reported(0, states[1], steps[1]);
  }

  lemma OneResultIsReported(msgs: seq<Message>)
    requires msgs == [Message(User, [ToolResult("t1", "body", Some(false))])]
    ensures "t1" in StaleIds(msgs, 0)
  {
    assert msgs[0].content[0].toolUseId == "t1";
    assert IsResultAt(msgs, 0, 0);
    assert CountIn(msgs[0].content, 0) == 0 && CountIn(msgs[0].content, 1) == 1;
    assert CountFrom(msgs, 1) == 0;
    assert CountFrom(msgs, 0) == 1;
    assert Rank(msgs, 0, 0) == 0;
    ScanMeets(msgs, 0, 0);
    assert NonEmpty(ScanIds(msgs), 0, 1) == ["t1"];
  }
}
