/**
 The budget for accumulated tool results (crates/compaction/src/compact.rs,
 `enforce_tool_result_budget`): truncate single results that are too long, then empty the
 oldest ones until the rest fit.
 */
module ResultBudget {
  /**
   The pass rewrites messages in place. What it does to the bodies of the results, listed
   oldest first, is the function `Budgeted`; the promises are lemmas about that function.
   */

  import opened Transcript

  datatype Budget = Budget(maxPerResult: nat, maxTotal: nat)

  // ---------------------------------------------------------------- bodies and positions

  /** The result bodies among the first `n` blocks. */
  function ContentBodies(content: seq<Block>, n: nat): seq<string>
    requires n <= |content|
  {
    if n == 0 then []
    else if content[n - 1].ToolResult? then ContentBodies(content, n - 1) + [content[n - 1].content]
    else ContentBodies(content, n - 1)
  }

  function MessageBodies(m: Message): seq<string> {
    ContentBodies(m.content, |m.content|)
  }

  function BodiesFirst(msgs: seq<Message>, n: nat): seq<string>
    requires n <= |msgs|
  {
    if n == 0 then []
    else BodiesFirst(msgs, n - 1) + MessageBodies(msgs[n - 1])
  }

  /** The bodies of all tool results, in message order and then block order. */
  function Bodies(msgs: seq<Message>): seq<string> {
    BodiesFirst(msgs, |msgs|)
  }

  /** The positions of the results among the first `n` blocks of message `mi`. */
  function ContentPositions(content: seq<Block>, n: nat, mi: nat): seq<(nat, nat)>
    requires n <= |content|
  {
    if n == 0 then []
    else if content[n - 1].ToolResult? then ContentPositions(content, n - 1, mi) + [(mi, n - 1)]
    else ContentPositions(content, n - 1, mi)
  }

  function MessagePositions(m: Message, mi: nat): seq<(nat, nat)> {
    ContentPositions(m.content, |m.content|, mi)
  }

  function PositionsFirst(msgs: seq<Message>, n: nat): seq<(nat, nat)>
    requires n <= |msgs|
  {
    if n == 0 then []
    else PositionsFirst(msgs, n - 1) + MessagePositions(msgs[n - 1], n - 1)
  }

  /** A position that holds a tool result with the body `body`. */
  predicate HoldsBody(msgs: seq<Message>, at: (nat, nat), body: string) {
    && at.0 < |msgs| && at.1 < |msgs[at.0].content|
    && msgs[at.0].content[at.1].ToolResult? && msgs[at.0].content[at.1].content == body
  }

  lemma {:induction false} ContentPositionsHold(content: seq<Block>, n: nat, mi: nat, p: nat)
    requires n <= |content|
    ensures |ContentPositions(content, n, mi)| == |ContentBodies(content, n)|
    ensures p < |ContentBodies(content, n)| ==>
              var at := ContentPositions(content, n, mi)[p];
              && at.0 == mi && at.1 < n && content[at.1].ToolResult?
              && content[at.1].content == ContentBodies(content, n)[p]
  {
    if n > 0 {
      ContentPositionsHold(content, n - 1, mi, p);
    }
  }

  lemma {:induction false} PositionsHold(msgs: seq<Message>, n: nat, p: nat)
    requires n <= |msgs|
    ensures |PositionsFirst(msgs, n)| == |BodiesFirst(msgs, n)|
    ensures p < |BodiesFirst(msgs, n)| ==>
              var at := PositionsFirst(msgs, n)[p];
              at.0 < n && HoldsBody(msgs, at, BodiesFirst(msgs, n)[p])
  {
    if n > 0 {
      PositionsHold(msgs, n - 1, p);
      var before := |BodiesFirst(msgs, n - 1)|;
      var m := msgs[n - 1];
      var q := if p < before then 0 else p - before;
      ContentPositionsHold(m.content, |m.content|, n - 1, q);
      hide ContentPositions, ContentBodies;
      if before <= p < |BodiesFirst(msgs, n)| {
        assert PositionsFirst(msgs, n)[p] == MessagePositions(m, n - 1)[q];
        assert BodiesFirst(msgs, n)[p] == MessageBodies(m)[q];
      }
    }
  }

  /** `m` with the body of its block `b` replaced. */
  function WithBody(m: Message, b: nat, body: string): Message
    requires b < |m.content| && m.content[b].ToolResult?
  {
    m.(content := m.content[b := m.content[b].(content := body)])
  }

  lemma {:induction false} ContentUpdate(content: seq<Block>, n: nat, mi: nat, p: nat, body: string)
    requires n <= |content| && p < |ContentBodies(content, n)|
    ensures |ContentPositions(content, n, mi)| == |ContentBodies(content, n)|
    ensures var b := ContentPositions(content, n, mi)[p].1;
            && b < n && content[b].ToolResult?
            && ContentBodies(content[b := content[b].(content := body)], n) == ContentBodies(content, n)[p := body]
  {
    assert n > 0;
    ContentPositionsHold(content, n, mi, p);
    ContentPositionsHold(content, n - 1, mi, p);
    var b := ContentPositions(content, n, mi)[p].1;
    var after := content[b := content[b].(content := body)];
    if p < |ContentBodies(content, n - 1)| {
      ContentUpdate(content, n - 1, mi, p, body);
    } else {
      ContentBodiesAgree(content, after, n - 1);
    }
  }

  lemma {:induction false} ContentBodiesAgree(a: seq<Block>, b: seq<Block>, n: nat)
    requires n <= |a| && n <= |b| && a[..n] == b[..n]
    ensures ContentBodies(a, n) == ContentBodies(b, n)
  {
    if n > 0 {
      assert a[n - 1] == a[..n][n - 1] == b[n - 1];
      assert a[..n - 1] == a[..n][..n - 1];
      ContentBodiesAgree(a, b, n - 1);
    }
  }

  lemma {:induction false} BodiesAgree(a: seq<Message>, b: seq<Message>, n: nat)
    requires n <= |a| && n <= |b| && forall k :: 0 <= k < n ==> a[k] == b[k]
    ensures BodiesFirst(a, n) == BodiesFirst(b, n)
  {
    if n > 0 {
      BodiesAgree(a, b, n - 1);
    }
  }

  /** Replacing the body at the `p`-th position replaces the `p`-th body and no other. */
  lemma {:induction false} BodiesUpdate(msgs: seq<Message>, n: nat, p: nat, body: string)
    requires n <= |msgs| && p < |BodiesFirst(msgs, n)|
    ensures |PositionsFirst(msgs, n)| == |BodiesFirst(msgs, n)|
    ensures var at := PositionsFirst(msgs, n)[p];
            && HoldsBody(msgs, at, BodiesFirst(msgs, n)[p])
            && BodiesFirst(msgs[at.0 := WithBody(msgs[at.0], at.1, body)], n) == BodiesFirst(msgs, n)[p := body]
  {
    hide MessagePositions, MessageBodies;
    assert n > 0;
    PositionsHold(msgs, n, p);
    PositionsHold(msgs, n - 1, p);
    var at := PositionsFirst(msgs, n)[p];
    var after := msgs[at.0 := WithBody(msgs[at.0], at.1, body)];
    var before := |BodiesFirst(msgs, n - 1)|;
    if p < before {
      BodiesUpdate(msgs, n - 1, p, body);
      assert after[n - 1] == msgs[n - 1];
    } else {
      MessageUpdate(msgs[n - 1], n - 1, p - before, body);
      assert at == MessagePositions(msgs[n - 1], n - 1)[p - before];
      BodiesAgree(msgs, after, n - 1);
    }
  }

  lemma MessageUpdate(m: Message, mi: nat, p: nat, body: string)
    requires p < |MessageBodies(m)|
    ensures |MessagePositions(m, mi)| == |MessageBodies(m)|
    ensures var at := MessagePositions(m, mi)[p];
            && at.0 == mi && at.1 < |m.content| && m.content[at.1].ToolResult?
            && MessageBodies(WithBody(m, at.1, body)) == MessageBodies(m)[p := body]
  {
    ContentPositionsHold(m.content, |m.content|, mi, p);
    ContentUpdate(m.content, |m.content|, mi, p, body);
  }

  // ---------------------------------------------------------------- sizes

  function SumFirst(bodies: seq<string>, n: nat): nat
    requires n <= |bodies|
  {
    if n == 0 then 0 else SumFirst(bodies, n - 1) + |bodies[n - 1]|
  }

  /** What the bodies weigh together, in bytes. */
  function Size(bodies: seq<string>): nat {
    SumFirst(bodies, |bodies|)
  }

  lemma {:induction false} SumAgrees(a: seq<string>, b: seq<string>, n: nat)
    requires n <= |a| && n <= |b| && forall i :: 0 <= i < n ==> a[i] == b[i]
    ensures SumFirst(a, n) == SumFirst(b, n)
  {
    if n > 0 {
      SumAgrees(a, b, n - 1);
    }
  }

  lemma SizeSnoc(a: seq<string>, x: string)
    ensures Size(a + [x]) == Size(a) + |x|
  {
    SumAgrees(a + [x], a, |a|);
  }

  lemma {:induction false} SizeAppend(a: seq<string>, b: seq<string>, n: nat)
    requires n <= |b|
    ensures SumFirst(a + b, |a| + n) == Size(a) + SumFirst(b, n)
  {
    if n == 0 {
      SumAgrees(a + b, a, |a|);
    } else {
      SizeAppend(a, b, n - 1);
    }
  }

  lemma {:induction false} SizeUpdate(a: seq<string>, p: nat, x: string, n: nat)
    requires p < n <= |a|
    ensures SumFirst(a[p := x], n) + |a[p]| == SumFirst(a, n) + |x|
  {
    if n == p + 1 {
      SumAgrees(a[p := x], a, p);
    } else {
      SizeUpdate(a, p, x, n - 1);
    }
  }

  // ---------------------------------------------------------------- pass 1: truncation

  function Decimal(n: nat): string {
    if n < 10 then [('0' as int + n) as char] else Decimal(n / 10) + [('0' as int + n % 10) as char]
  }

  /** What replaces a result of `length` bytes that is over `maxPerResult`. */
  function Note(length: nat, maxPerResult: nat, prefix: string): string {
    "[Tool result truncated: " + Decimal(length) + " bytes > " + Decimal(maxPerResult)
    + " max; first 1000 bytes preserved]\n" + prefix + "..."
  }

  /** The number a text of digits stands for. */
  function NumberOf(digits: string): int {
    if digits == "" then 0
    else NumberOf(digits[..|digits| - 1]) * 10 + (digits[|digits| - 1] as int - '0' as int)
  }

  /** The figures of a number: digits only, that number, and no zero in front. */
  lemma {:induction false} DecimalIsTheNumber(n: nat)
    ensures Decimal(n) != "" && (forall c <- Decimal(n) :: '0' <= c <= '9') && NumberOf(Decimal(n)) == n
    ensures n > 0 ==> Decimal(n)[0] != '0'
    ensures n == 0 ==> Decimal(n) == "0"
  {
    if n < 10 {
      assert Decimal(n)[..0] == "" && NumberOf("") == 0;
    } else {
      DecimalIsTheNumber(n / 10);
      var d, last := Decimal(n / 10), ('0' as int + n % 10) as char;
      assert Decimal(n) == d + [last];
      assert Decimal(n)[..|d|] == d;
    }
  }

  function TruncatedBody(body: string, maxPerResult: nat): string {
    if |body| > maxPerResult then Note(|body|, maxPerResult, Truncated(body, 1000)) else body
  }

  /** What a reader finds in place of a result: exactly one over the limit is cut, and says so in these words. */
  lemma WhatTruncationWrites(body: string, maxPerResult: nat)
    ensures |body| <= maxPerResult ==> TruncatedBody(body, maxPerResult) == body
    ensures |body| > maxPerResult ==>
              TruncatedBody(body, maxPerResult)
              == "[Tool result truncated: " + Decimal(|body|) + " bytes > " + Decimal(maxPerResult)
                 + " max; first 1000 bytes preserved]\n" + Truncated(body, 1000) + "..."
  {
  }

  function TruncatedBlock(b: Block, maxPerResult: nat): Block {
    if b.ToolResult? then b.(content := TruncatedBody(b.content, maxPerResult)) else b
  }

  function TruncatedMessage(m: Message, maxPerResult: nat): Message {
    m.(content := seq(|m.content|, i requires 0 <= i < |m.content| => TruncatedBlock(m.content[i], maxPerResult)))
  }

  function TruncatedAll(bodies: seq<string>, maxPerResult: nat): seq<string> {
    seq(|bodies|, i requires 0 <= i < |bodies| => TruncatedBody(bodies[i], maxPerResult))
  }

  /** How many of the first `n` bodies are over the limit. */
  function Oversized(bodies: seq<string>, n: nat, maxPerResult: nat): nat
    requires n <= |bodies|
  {
    if n == 0 then 0 else Oversized(bodies, n - 1, maxPerResult) + if |bodies[n - 1]| > maxPerResult then 1 else 0
  }

  lemma {:induction false} OversizedAppend(a: seq<string>, b: seq<string>, n: nat, maxPerResult: nat)
    requires n <= |a| + |b|
    ensures Oversized(a + b, n, maxPerResult) ==
            if n <= |a| then Oversized(a, n, maxPerResult)
            else Oversized(a, |a|, maxPerResult) + Oversized(b, n - |a|, maxPerResult)
  {
    if n > 0 {
      OversizedAppend(a, b, n - 1, maxPerResult);
    }
  }

  lemma {:induction false} ContentBodiesTruncated(m: Message, n: nat, maxPerResult: nat)
    requires n <= |m.content|
    ensures ContentBodies(TruncatedMessage(m, maxPerResult).content, n)
         == TruncatedAll(ContentBodies(m.content, n), maxPerResult)
  {
    if n > 0 {
      ContentBodiesTruncated(m, n - 1, maxPerResult);
    }
  }

  /** Truncate the results of one message; also what they weigh afterwards and how many changed. */
  method TruncateMessage(m: Message, maxPerResult: nat) returns (out: Message, size: nat, modified: nat)
    ensures out == TruncatedMessage(m, maxPerResult)
    ensures size == Size(MessageBodies(out))
    ensures modified == Oversized(MessageBodies(m), |MessageBodies(m)|, maxPerResult)
  {
    hide Note, Truncated;
    out, size, modified := m, 0, 0;
    for i := 0 to |m.content|
      invariant out.role == m.role && |out.content| == |m.content|
      invariant forall k :: 0 <= k < i ==> out.content[k] == TruncatedBlock(m.content[k], maxPerResult)
      invariant forall k :: i <= k < |m.content| ==> out.content[k] == m.content[k]
      invariant size == Size(TruncatedAll(ContentBodies(m.content, i), maxPerResult))
      invariant modified == Oversized(ContentBodies(m.content, i), |ContentBodies(m.content, i)|, maxPerResult)
    {
      if m.content[i].ToolResult? {
        var body := m.content[i].content;
        ghost var seen := ContentBodies(m.content, i);
        OversizedAppend(seen, [body], |seen| + 1, maxPerResult);
        assert Oversized([body], 1, maxPerResult)
            == Oversized([body], 0, maxPerResult) + if |body| > maxPerResult then 1 else 0;
        SizeSnoc(TruncatedAll(seen, maxPerResult), TruncatedBody(body, maxPerResult));
        assert TruncatedAll(seen + [body], maxPerResult)
            == TruncatedAll(seen, maxPerResult) + [TruncatedBody(body, maxPerResult)];
        if |body| > maxPerResult {
          var prefix := TruncateAtCharBoundary(body, 1000);
          body := Note(|body|, maxPerResult, prefix);
          out := out.(content := out.content[i := m.content[i].(content := body)]);
          modified := modified + 1;
        }
        size := size + |body|;
      }
    }
    assert out.content == TruncatedMessage(m, maxPerResult).content;
    ContentBodiesTruncated(m, |m.content|, maxPerResult);
  }

  lemma TruncatedAllAppend(a: seq<string>, b: seq<string>, maxPerResult: nat)
    ensures TruncatedAll(a + b, maxPerResult) == TruncatedAll(a, maxPerResult) + TruncatedAll(b, maxPerResult)
  {
    hide TruncatedBody;
  }

  lemma {:induction false} BodiesTruncated(msgs: seq<Message>, out: seq<Message>, n: nat, maxPerResult: nat)
    requires n <= |msgs| == |out|
    requires forall i :: 0 <= i < n ==> out[i] == TruncatedMessage(msgs[i], maxPerResult)
    ensures BodiesFirst(out, n) == TruncatedAll(BodiesFirst(msgs, n), maxPerResult)
  {
    hide TruncatedBody, TruncatedMessage, MessageBodies;
    if n > 0 {
      BodiesTruncated(msgs, out, n - 1, maxPerResult);
      MessageBodiesTruncated(msgs[n - 1], maxPerResult);
      TruncatedAllAppend(BodiesFirst(msgs, n - 1), MessageBodies(msgs[n - 1]), maxPerResult);
    }
  }

  /** What the first `n` messages weigh once truncated. */
  function TruncatedSize(msgs: seq<Message>, n: nat, maxPerResult: nat): nat
    requires n <= |msgs|
  {
    if n == 0 then 0
    else TruncatedSize(msgs, n - 1, maxPerResult) + Size(MessageBodies(TruncatedMessage(msgs[n - 1], maxPerResult)))
  }

  function OversizedIn(msgs: seq<Message>, n: nat, maxPerResult: nat): nat
    requires n <= |msgs|
  {
    if n == 0 then 0
    else OversizedIn(msgs, n - 1, maxPerResult)
         + Oversized(MessageBodies(msgs[n - 1]), |MessageBodies(msgs[n - 1])|, maxPerResult)
  }

  lemma FiguresAppend(a: seq<string>, b: seq<string>, maxPerResult: nat)
    ensures Oversized(a + b, |a + b|, maxPerResult)
         == Oversized(a, |a|, maxPerResult) + Oversized(b, |b|, maxPerResult)
    ensures Size(TruncatedAll(a + b, maxPerResult))
         == Size(TruncatedAll(a, maxPerResult)) + Size(TruncatedAll(b, maxPerResult))
  {
    hide TruncatedBody;
    OversizedAppend(a, b, |a| + |b|, maxPerResult);
    var x, y := TruncatedAll(a, maxPerResult), TruncatedAll(b, maxPerResult);
    TruncatedAllAppend(a, b, maxPerResult);
    SizeAppend(x, y, |y|);
  }

  /** Counted message by message or over the list of all bodies, the figures are the same. */
  lemma {:induction false} CountedOverBodies(msgs: seq<Message>, n: nat, maxPerResult: nat)
    requires n <= |msgs|
    ensures TruncatedSize(msgs, n, maxPerResult) == Size(TruncatedAll(BodiesFirst(msgs, n), maxPerResult))
    ensures OversizedIn(msgs, n, maxPerResult) == Oversized(BodiesFirst(msgs, n), |BodiesFirst(msgs, n)|, maxPerResult)
  {
    hide TruncatedBody, MessageBodies, TruncatedAll, TruncatedMessage, Size, Oversized;
    if n == 0 {
      NothingCounted(maxPerResult);
    } else {
      CountedOverBodies(msgs, n - 1, maxPerResult);
      FiguresAppend(BodiesFirst(msgs, n - 1), MessageBodies(msgs[n - 1]), maxPerResult);
      MessageBodiesTruncated(msgs[n - 1], maxPerResult);
    }
  }

  lemma NothingCounted(maxPerResult: nat)
    ensures Size(TruncatedAll([], maxPerResult)) == 0 && Oversized([], 0, maxPerResult) == 0
  {
  }

  lemma MessageBodiesTruncated(m: Message, maxPerResult: nat)
    ensures MessageBodies(TruncatedMessage(m, maxPerResult)) == TruncatedAll(MessageBodies(m), maxPerResult)
  {
    ContentBodiesTruncated(m, |m.content|, maxPerResult);
  }

  method TruncateOversized(messages: array<Message>, maxPerResult: nat) returns (modified: nat, totalSize: nat)
    modifies messages
    ensures forall i :: 0 <= i < messages.Length ==>
              messages[i] == TruncatedMessage(old(messages[i]), maxPerResult)
    ensures Bodies(messages[..]) == TruncatedAll(old(Bodies(messages[..])), maxPerResult)
    ensures totalSize == Size(Bodies(messages[..]))
    ensures modified == old(Oversized(Bodies(messages[..]), |Bodies(messages[..])|, maxPerResult))
  {
    hide TruncatedMessage, MessageBodies, Size, Oversized, BodiesFirst, TruncatedAll;
    ghost var was := messages[..];
    modified, totalSize := 0, 0;
    for i := 0 to messages.Length
      invariant forall k :: 0 <= k < i ==> messages[k] == TruncatedMessage(was[k], maxPerResult)
      invariant forall k :: i <= k < messages.Length ==> messages[k] == was[k]
      invariant totalSize == TruncatedSize(was, i, maxPerResult)
      invariant modified == OversizedIn(was, i, maxPerResult)
    {
      var out, size, changed := TruncateMessage(messages[i], maxPerResult);
      messages[i] := out;
      totalSize := totalSize + size;
      modified := modified + changed;
    }
    CountedOverBodies(was, |was|, maxPerResult);
    BodiesTruncated(was, messages[..], messages.Length, maxPerResult);
  }

  // ---------------------------------------------------------------- pass 2: clearing

  /** The bodies with the oldest `k` emptied. */
  function ClearPrefix(bodies: seq<string>, k: nat): seq<string>
    requires k <= |bodies|
  {
    seq(|bodies|, i requires 0 <= i < |bodies| => if i < k then CLEARED else bodies[i])
  }

  /** Emptying the oldest `k` is enough. */
  predicate Enough(bodies: seq<string>, maxTotal: nat, k: nat)
    requires k <= |bodies|
  {
    Size(ClearPrefix(bodies, k)) <= maxTotal
  }

  /** How many of the oldest results are emptied: the fewest that is enough, or all. */
  function ClearCount(bodies: seq<string>, maxTotal: nat, k: nat): (n: nat)
    requires k <= |bodies|
    ensures k <= n <= |bodies|
    ensures n == |bodies| || Enough(bodies, maxTotal, n)
    ensures forall j :: k <= j < n ==> !Enough(bodies, maxTotal, j)
    decreases |bodies| - k
  {
    if k == |bodies| || Enough(bodies, maxTotal, k) then k else ClearCount(bodies, maxTotal, k + 1)
  }

  /** How many of the oldest `k` still had a body to lose. */
  function Fresh(bodies: seq<string>, k: nat): nat
    requires k <= |bodies|
  {
    if k == 0 then 0 else Fresh(bodies, k - 1) + if bodies[k - 1] == CLEARED then 0 else 1
  }

  lemma {:induction false} OversizedCounts(bodies: seq<string>, n: nat, maxPerResult: nat)
    requires n <= |bodies|
    ensures Oversized(bodies, n, maxPerResult) == |set p | 0 <= p < n && |bodies[p]| > maxPerResult|
  {
    if n > 0 {
      OversizedCounts(bodies, n - 1, maxPerResult);
      var before := set p | 0 <= p < n - 1 && |bodies[p]| > maxPerResult;
      var after := set p | 0 <= p < n && |bodies[p]| > maxPerResult;
      assert after == if |bodies[n - 1]| > maxPerResult then before + {n - 1} else before;
    }
  }

  lemma {:induction false} FreshIsNotCleared(bodies: seq<string>, n: nat)
    requires n <= |bodies|
    ensures Fresh(bodies, n) == |set p | 0 <= p < n && bodies[p] != CLEARED|
  {
    if n > 0 {
      FreshIsNotCleared(bodies, n - 1);
      var before := set p | 0 <= p < n - 1 && bodies[p] != CLEARED;
      var after := set p | 0 <= p < n && bodies[p] != CLEARED;
      assert after == if bodies[n - 1] != CLEARED then before + {n - 1} else before;
    }
  }

  lemma FreshCounts(bodies: seq<string>, k: nat)
    requires k <= |bodies|
    ensures Fresh(bodies, k) == |set p | 0 <= p < |bodies| && ClearPrefix(bodies, k)[p] != bodies[p]|
  {
    FreshIsNotCleared(bodies, k);
    assert (set p | 0 <= p < k && bodies[p] != CLEARED)
        == (set p | 0 <= p < |bodies| && ClearPrefix(bodies, k)[p] != bodies[p]);
  }

  /** Nothing but result bodies differs. */
  ghost predicate OnlyBodiesDiffer(a: seq<Message>, b: seq<Message>) {
    && |a| == |b|
    && forall i :: 0 <= i < |a| ==> OnlyBodies(a[i], b[i])
  }

  ghost predicate OnlyBodies(m: Message, m': Message) {
    && m.role == m'.role && |m.content| == |m'.content|
    && forall b :: 0 <= b < |m.content| ==>
         || m'.content[b] == m.content[b]
         || (m.content[b].ToolResult? && m'.content[b].ToolResult?
             && m'.content[b] == m.content[b].(content := m'.content[b].content))
  }

  method CollectPositions(messages: array<Message>) returns (positions: seq<(nat, nat)>)
    ensures positions == PositionsFirst(messages[..], messages.Length)
  {
    positions := [];
    for mi := 0 to messages.Length
      invariant positions == PositionsFirst(messages[..], mi)
    {
      var content := messages[mi].content;
      ghost var before := positions;
      for bi := 0 to |content|
        invariant positions == before + ContentPositions(content, bi, mi)
      {
        if content[bi].ToolResult? {
          positions := positions + [(mi, bi)];
        }
      }
    }
  }

  lemma ClearStep(bodies: seq<string>, k: nat)
    requires k < |bodies|
    ensures ClearPrefix(bodies, k + 1) == ClearPrefix(bodies, k)[k := CLEARED]
    ensures Size(ClearPrefix(bodies, k + 1)) + |bodies[k]| == Size(ClearPrefix(bodies, k)) + |CLEARED|
    ensures |bodies[k]| <= Size(ClearPrefix(bodies, k))
  {
    var c := ClearPrefix(bodies, k);
    assert ClearPrefix(bodies, k + 1) == c[k := CLEARED];
    SizeUpdate(c, k, CLEARED, |c|);
    SizeUpdate(c, k, "", |c|);
  }

  /** What two rewrites of result bodies, one after the other, leave alone. */
  lemma OnlyBodiesCompose(a: seq<Message>, b: seq<Message>, c: seq<Message>)
    requires OnlyBodiesDiffer(a, b) && OnlyBodiesDiffer(b, c)
    ensures OnlyBodiesDiffer(a, c)
  {
    forall i | 0 <= i < |a| ensures OnlyBodies(a[i], c[i]) {
      assert OnlyBodies(a[i], b[i]) && OnlyBodies(b[i], c[i]);
    }
  }

  lemma OnlyBodiesStep(a: seq<Message>, b: seq<Message>, at: (nat, nat), body: string)
    requires OnlyBodiesDiffer(a, b)
    requires at.0 < |b| && at.1 < |b[at.0].content| && b[at.0].content[at.1].ToolResult?
    ensures OnlyBodiesDiffer(a, b[at.0 := WithBody(b[at.0], at.1, body)])
  {
    assert OnlyBodies(a[at.0], b[at.0]);
    var c := b[at.0 := WithBody(b[at.0], at.1, body)];
    forall i | 0 <= i < |b| ensures OnlyBodies(b[i], c[i]) {
    }
    OnlyBodiesCompose(a, b, c);
  }

  /** Positions do not move when only bodies change. */
  lemma {:induction false} PositionsStay(a: seq<Message>, b: seq<Message>, n: nat)
    requires OnlyBodiesDiffer(a, b) && n <= |a|
    ensures PositionsFirst(a, n) == PositionsFirst(b, n)
  {
    if n > 0 {
      PositionsStay(a, b, n - 1);
      assert OnlyBodies(a[n - 1], b[n - 1]);
      ContentPositionsStay(a[n - 1].content, b[n - 1].content, |a[n - 1].content|, n - 1);
    }
  }

  lemma {:induction false} ContentPositionsStay(a: seq<Block>, b: seq<Block>, n: nat, mi: nat)
    requires n <= |a| && n <= |b| && forall k :: 0 <= k < n ==> a[k].ToolResult? == b[k].ToolResult?
    ensures ContentPositions(a, n, mi) == ContentPositions(b, n, mi)
  {
    if n > 0 {
      ContentPositionsStay(a, b, n - 1, mi);
    }
  }

  /** One turn of the loop: what emptying the result at position `p` does to bodies and total. */
  lemma ClearOneStep(was: seq<Message>, now: seq<Message>, bodies: seq<string>, p: nat)
    requires OnlyBodiesDiffer(was, now) && p < |bodies|
    requires Bodies(now) == ClearPrefix(bodies, p) && |PositionsFirst(was, |was|)| == |bodies|
    ensures var at := PositionsFirst(was, |was|)[p];
            && HoldsBody(now, at, bodies[p])
            && var after := now[at.0 := WithBody(now[at.0], at.1, CLEARED)];
            && Bodies(after) == ClearPrefix(bodies, p + 1)
            && OnlyBodiesDiffer(was, after)
    ensures bodies[p] == CLEARED ==> ClearPrefix(bodies, p + 1) == ClearPrefix(bodies, p)
    ensures Size(ClearPrefix(bodies, p + 1)) + |bodies[p]| == Size(ClearPrefix(bodies, p)) + |CLEARED|
    ensures |bodies[p]| <= Size(ClearPrefix(bodies, p))
  {
    hide BodiesFirst, PositionsFirst, Size, WithBody;
    PositionsStay(was, now, |was|);
    BodiesUpdate(now, |now|, p, CLEARED);
    ClearStep(bodies, p);
    assert bodies[p] == ClearPrefix(bodies, p)[p];
    OnlyBodiesStep(was, now, PositionsFirst(was, |was|)[p], CLEARED);
  }

  /** Pass 2, on a total that is over the budget. */
  method ClearOldest(messages: array<Message>, maxTotal: nat, size: nat) returns (modified: nat)
    requires size == Size(Bodies(messages[..]))
    modifies messages
    ensures var bodies := old(Bodies(messages[..]));
            var k := ClearCount(bodies, maxTotal, 0);
            && Bodies(messages[..]) == ClearPrefix(bodies, k)
            && modified == Fresh(bodies, k)
    ensures OnlyBodiesDiffer(old(messages[..]), messages[..])
  {
    hide BodiesFirst, PositionsFirst, OnlyBodiesDiffer, Size, WithBody, ClearPrefix;
    ghost var was := messages[..];
    ghost var bodies := Bodies(was);
    var totalSize := size;
    modified := 0;
    var positions := CollectPositions(messages);
    OnlyBodiesSelf(was);
    PositionsHold(was, |was|, 0);
    ClearNone(bodies);
    var p := 0;
    while p < |positions|
      invariant p <= |positions| == |bodies|
      invariant OnlyBodiesDiffer(was, messages[..])
      invariant Bodies(messages[..]) == ClearPrefix(bodies, p)
      invariant totalSize == Size(ClearPrefix(bodies, p))
      invariant forall j :: 0 <= j < p ==> !Enough(bodies, maxTotal, j)
      invariant modified == Fresh(bodies, p)
    {
      if totalSize <= maxTotal {
        break;
      }
      var at := positions[p];
      ClearOneStep(was, messages[..], bodies, p);
      var body := messages[at.0].content[at.1].content;
      if body != CLEARED {
        totalSize := SaturatingSub(totalSize, |body|) + |CLEARED|;
        ghost var now := messages[..];
        messages[at.0] := WithBody(messages[at.0], at.1, CLEARED);
        assert messages[..] == now[at.0 := WithBody(now[at.0], at.1, CLEARED)];
        modified := modified + 1;
      }
      p := p + 1;
    }
    ClearCountIs(bodies, maxTotal, 0, p);
  }

  lemma ClearNone(bodies: seq<string>)
    ensures ClearPrefix(bodies, 0) == bodies
  {
  }

  lemma OnlyBodiesSelf(a: seq<Message>)
    ensures OnlyBodiesDiffer(a, a)
  {
  }

  lemma {:induction false} ClearCountIs(bodies: seq<string>, maxTotal: nat, k: nat, p: nat)
    requires k <= p <= |bodies| && (p == |bodies| || Enough(bodies, maxTotal, p))
    requires forall j :: k <= j < p ==> !Enough(bodies, maxTotal, j)
    ensures ClearCount(bodies, maxTotal, k) == p
    decreases p - k
  {
    if k < p {
      ClearCountIs(bodies, maxTotal, k + 1, p);
    }
  }

  // ---------------------------------------------------------------- the whole pass

  /** The result bodies after the pass. */
  function Budgeted(bodies: seq<string>, budget: Budget): seq<string> {
    var truncated := TruncatedAll(bodies, budget.maxPerResult);
    ClearPrefix(truncated, ClearCount(truncated, budget.maxTotal, 0))
  }

  /** How many rewrites the pass counts. */
  function Rewritten(bodies: seq<string>, budget: Budget): nat {
    var truncated := TruncatedAll(bodies, budget.maxPerResult);
    Oversized(bodies, |bodies|, budget.maxPerResult) + Fresh(truncated, ClearCount(truncated, budget.maxTotal, 0))
  }

  /** That is, the bodies over the limit, and then those that clearing changes. */
  lemma RewritesAreCounted(bodies: seq<string>, budget: Budget)
    ensures var truncated := TruncatedAll(bodies, budget.maxPerResult);
            Rewritten(bodies, budget)
            == |set p | 0 <= p < |bodies| && |bodies[p]| > budget.maxPerResult|
               + |set p | 0 <= p < |bodies| && Budgeted(bodies, budget)[p] != truncated[p]|
  {
    hide Fresh, Oversized, ClearCount;
    var truncated := TruncatedAll(bodies, budget.maxPerResult);
    OversizedCounts(bodies, |bodies|, budget.maxPerResult);
    FreshCounts(truncated, ClearCount(truncated, budget.maxTotal, 0));
  }

  method EnforceToolResultBudget(messages: array<Message>, budget: Budget) returns (modified: nat)
    modifies messages
    ensures Bodies(messages[..]) == Budgeted(old(Bodies(messages[..])), budget)
    ensures OnlyBodiesDiffer(old(messages[..]), messages[..])
    ensures modified == Rewritten(old(Bodies(messages[..])), budget)
  {
    hide BodiesFirst, TruncatedAll, Size, Oversized;
    ghost var was := messages[..];
    var totalSize;
    modified, totalSize := TruncateOversized(messages, budget.maxPerResult);
    ghost var truncated := messages[..];
    if totalSize > budget.maxTotal {
      var cleared := ClearOldest(messages, budget.maxTotal, totalSize);
      OnlyBodiesCompose(was, truncated, messages[..]);
      modified := modified + cleared;
    } else {
      assert ClearPrefix(Bodies(truncated), 0) == Bodies(truncated);
      ClearCountIs(Bodies(truncated), budget.maxTotal, 0, 0);
    }
  }

  // ---------------------------------------------------------------- what it promises

  /** The pass ends at or below the total, or with every result emptied. */
  lemma EndsWithinBudgetOrEmpty(bodies: seq<string>, budget: Budget)
    ensures Size(Budgeted(bodies, budget)) <= budget.maxTotal
         || forall i :: 0 <= i < |bodies| ==> Budgeted(bodies, budget)[i] == "[Old tool result content cleared]"
  {
    hide TruncatedBody;
  }

  /**
   Only the oldest results are emptied, and no more of them than needed: with `k` results
   emptied the rest are as truncation left them, that is enough or there are no more to empty,
   and stopping earlier would not have been enough.
   */
  lemma ClearsShortestPrefix(bodies: seq<string>, budget: Budget)
    ensures var truncated := TruncatedAll(bodies, budget.maxPerResult);
            exists k :: 0 <= k <= |bodies| && Budgeted(bodies, budget) == ClearPrefix(truncated, k)
              && (k == |bodies| || Enough(truncated, budget.maxTotal, k))
              && forall j :: 0 <= j < k ==> !Enough(truncated, budget.maxTotal, j)
  {
    hide TruncatedBody;
    var truncated := TruncatedAll(bodies, budget.maxPerResult);
    var k := ClearCount(truncated, budget.maxTotal, 0);
    assert Budgeted(bodies, budget) == ClearPrefix(truncated, k);
  }

  /** The bodies a second run would find too long. */
  ghost predicate AllWithin(bodies: seq<string>, maxPerResult: nat) {
    forall i :: 0 <= i < |bodies| ==> |bodies[i]| <= maxPerResult
  }

  lemma {:induction false} OversizedIff(bodies: seq<string>, n: nat, maxPerResult: nat)
    requires n <= |bodies|
    ensures Oversized(bodies, n, maxPerResult) == 0 <==> forall i :: 0 <= i < n ==> |bodies[i]| <= maxPerResult
  {
    if n > 0 {
      OversizedIff(bodies, n - 1, maxPerResult);
    }
  }

  lemma {:induction false} FreshOfCleared(bodies: seq<string>, k: nat)
    requires k <= |bodies| && forall i :: 0 <= i < k ==> bodies[i] == CLEARED
    ensures Fresh(bodies, k) == 0
  {
    if k > 0 {
      FreshOfCleared(bodies, k - 1);
    }
  }

  lemma SecondRunFindsOversized(bodies: seq<string>, budget: Budget)
    ensures Rewritten(Budgeted(bodies, budget), budget) == 0
       <==> AllWithin(Budgeted(bodies, budget), budget.maxPerResult)
  {
    hide Note;
    var once := Budgeted(bodies, budget);
    OversizedIff(once, |once|, budget.maxPerResult);
    if AllWithin(once, budget.maxPerResult) {
      var again := TruncatedAll(once, budget.maxPerResult);
      assert again == once;
      EndsWithinBudgetOrEmpty(bodies, budget);
      if Size(once) <= budget.maxTotal {
        assert ClearPrefix(once, 0) == once;
        ClearCountIs(once, budget.maxTotal, 0, 0);
      }
      FreshOfCleared(once, ClearCount(once, budget.maxTotal, 0));
    }
  }

  /** The limit leaves room for both texts the pass itself writes. */
  ghost predicate RoomForNotes(bodies: seq<string>, maxPerResult: nat) {
    && |CLEARED| <= maxPerResult
    && forall i :: 0 <= i < |bodies| && |bodies[i]| > maxPerResult ==>
         |Note(|bodies[i]|, maxPerResult, Truncated(bodies[i], 1000))| <= maxPerResult
  }

  /** With room for its own texts the pass is idempotent: a second run rewrites nothing and changes nothing. */
  lemma SecondRunChangesNothing(bodies: seq<string>, budget: Budget)
    requires RoomForNotes(bodies, budget.maxPerResult)
    ensures Rewritten(Budgeted(bodies, budget), budget) == 0
    ensures Budgeted(Budgeted(bodies, budget), budget) == Budgeted(bodies, budget)
  {
    hide Note;
    var once := Budgeted(bodies, budget);
    SecondRunFindsOversized(bodies, budget);
    var again := TruncatedAll(once, budget.maxPerResult);
    assert again == once;
    var k := ClearCount(once, budget.maxTotal, 0);
    EndsWithinBudgetOrEmpty(bodies, budget);
    assert ClearPrefix(once, 0) == once;
    if Size(once) <= budget.maxTotal {
      ClearCountIs(once, budget.maxTotal, 0, 0);
    }
    assert ClearPrefix(once, k) == once;
  }

  /** How many of the results the first run empties. */
  function Emptied(bodies: seq<string>, budget: Budget): (k: nat)
    ensures k <= |bodies|
  {
    ClearCount(TruncatedAll(bodies, budget.maxPerResult), budget.maxTotal, 0)
  }

  /** If `body` is over the limit, so is the note that takes its place. */
  predicate StaysOver(body: string, maxPerResult: nat) {
    && |body| > maxPerResult
    && |Note(|body|, maxPerResult, Truncated(body, 1000))| > maxPerResult
  }

  /**
   A second run rewrites nothing exactly when the limit has room for the text that marks an
   emptied result, if the first run empties any, and for the note in place of each oversized
   result it does not empty.
   */
  lemma SecondRunIff(bodies: seq<string>, budget: Budget)
    ensures Rewritten(Budgeted(bodies, budget), budget) == 0
       <==> && (Emptied(bodies, budget) > 0 ==> |CLEARED| <= budget.maxPerResult)
            && (forall i :: Emptied(bodies, budget) <= i < |bodies| ==> !StaysOver(bodies[i], budget.maxPerResult))
  {
    hide Note;
    SecondRunFindsOversized(bodies, budget);
    var once, k := Budgeted(bodies, budget), Emptied(bodies, budget);
    assert forall i :: 0 <= i < k ==> once[i] == CLEARED;
    assert forall i :: k <= i < |bodies| ==> once[i] == TruncatedBody(bodies[i], budget.maxPerResult);
    if AllWithin(once, budget.maxPerResult) {
      assert k > 0 ==> once[0] == CLEARED;
      forall i | k <= i < |bodies| ensures !StaysOver(bodies[i], budget.maxPerResult) {
        assert |once[i]| <= budget.maxPerResult;
      }
    }
  }

  /** It happens well above the length of a note's fixed text, because the note keeps up to 1000 bytes. */
  lemma ANoteCanBeOverTheLimit()
    ensures exists body: string, budget: Budget ::
              && budget.maxPerResult == 500 && |body| <= budget.maxTotal
              && Rewritten(Budgeted([body], budget), budget) > 0
  {
    var body, budget := seq(2000, _ => 'a'), Budget(500, 500_000);
    var prefix := Truncated(body, 1000);
    assert |prefix| == 1000 by {
      assert IsCharBoundary(body, 1000);
    }
    assert |Note(2000, 500, prefix)| >= 1000;
    hide Note;
    var truncated := TruncatedAll([body], 500);
    var note := Note(2000, 500, prefix);
    assert ClearPrefix(truncated, 0) == [note];
    assert Size([note]) == SumFirst([note], 0) + |note|;
    assert Emptied([body], budget) == 0;
    assert StaysOver([body][0], 500);
    SecondRunIff([body], budget);
  }

}
