/**
 The conversation a compaction pass works on: messages made of content blocks.

 A `string` here is the byte string the source holds: one `char` per byte, so `|s|` is the
 length in bytes that the source compares with its limits.
 */
module Transcript {
  import opened Wrappers

  datatype Role = User | Assistant | System

  datatype Block =
    | Text(text: string)
    | Image(mediaType: string, data: string)
    | Thinking(thought: string, signature: Option<string>, provider: Option<string>)
    | RedactedThinking(payload: string, provider: Option<string>)
    | ToolUse(id: string, name: string, input: string)
    | ToolResult(toolUseId: string, content: string, isError: Option<bool>)

  datatype Message = Message(role: Role, content: seq<Block>)

  /** What every pass leaves in place of a tool result it empties. */
  const CLEARED := "[Old tool result content cleared]"

  /** An additive token estimator: any cost per message, summed over the list. */
  type Estimator = Message -> nat

  /** The cost of the first `n` messages. */
  function TokensFirst(cost: Estimator, msgs: seq<Message>, n: nat): nat
    requires n <= |msgs|
  {
    if n == 0 then 0 else TokensFirst(cost, msgs, n - 1) + cost(msgs[n - 1])
  }

  function Tokens(cost: Estimator, msgs: seq<Message>): nat {
    TokensFirst(cost, msgs, |msgs|)
  }

  lemma {:induction false} TokensFirstAppend(cost: Estimator, a: seq<Message>, b: seq<Message>, n: nat)
    requires n <= |a| + |b|
    ensures TokensFirst(cost, a + b, n) ==
            if n <= |a| then TokensFirst(cost, a, n) else Tokens(cost, a) + TokensFirst(cost, b, n - |a|)
  {
    if n > 0 {
      TokensFirstAppend(cost, a, b, n - 1);
    }
  }

  lemma TokensAppend(cost: Estimator, a: seq<Message>, b: seq<Message>)
    ensures Tokens(cost, a + b) == Tokens(cost, a) + Tokens(cost, b)
  {
    TokensFirstAppend(cost, a, b, |a| + |b|);
  }

  /** Subtraction that stops at zero, as the source's `saturating_sub`. */
  function SaturatingSub(a: nat, b: nat): nat {
    if a < b then 0 else a - b
  }

  /** A byte at which a UTF-8 character can begin: anything but a continuation byte. */
  predicate StartsChar(c: char) {
    !(0x80 <= c as int < 0xC0)
  }

  /** `n` is a place where `s` may be cut without splitting a character. */
  predicate IsCharBoundary(s: string, n: nat)
    requires n <= |s|
  {
    n == 0 || n == |s| || StartsChar(s[n])
  }

  /** The cut `TruncateAtCharBoundary` makes: the last boundary at or before `n`. */
  function BoundaryAtOrBefore(s: string, n: nat): (end: nat)
    requires n <= |s|
    ensures end <= n && IsCharBoundary(s, end)
    ensures forall k :: end < k <= n ==> !IsCharBoundary(s, k)
  {
    if IsCharBoundary(s, n) then n else BoundaryAtOrBefore(s, n - 1)
  }

  function Truncated(s: string, maxBytes: nat): (r: string)
    ensures |r| <= maxBytes && r <= s
  {
    if |s| <= maxBytes then s else s[..BoundaryAtOrBefore(s, maxBytes)]
  }

  method TruncateAtCharBoundary(s: string, maxBytes: nat) returns (r: string)
    ensures r <= s && |r| <= maxBytes
    ensures IsCharBoundary(s, |r|)
    ensures forall k :: |r| < k <= maxBytes && k <= |s| ==> !IsCharBoundary(s, k)
    ensures r == Truncated(s, maxBytes)
  {
    if |s| <= maxBytes {
      return s;
    }
    var end := maxBytes;
    while end > 0 && !IsCharBoundary(s, end)
      invariant 0 <= end <= maxBytes
      invariant forall k :: end < k <= maxBytes ==> !IsCharBoundary(s, k)
      invariant BoundaryAtOrBefore(s, end) == BoundaryAtOrBefore(s, maxBytes)
    {
      end := end - 1;
    }
    r := s[..end];
  }
}
