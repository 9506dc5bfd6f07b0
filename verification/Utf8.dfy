/**
 Truncation at a character boundary, for text in UTF-8 (`truncate_at_char_boundary` in
 crates/core/src/text.rs).
 */
module Utf8 {
  /**
   `Transcript` cuts byte strings where a byte that is not a continuation byte follows. Here the
   byte strings are those of section 3 of RFC 3629, and what is cut off is whole characters.
   */

  import opened Wrappers
  import opened Transcript

  type CodePoint = n: nat | n < 0x11_0000

  function Tail(n: nat): char {
    (0x80 + n % 64) as char
  }

  /** The bytes of a character. */
  function Encoded(c: CodePoint): (bytes: string)
    ensures bytes != []
  {
    if c < 0x80 then [c as char]
    else if c < 0x800 then [(0xC0 + c / 64) as char, Tail(c)]
    else if c < 0x1_0000 then [(0xE0 + c / 0x1000) as char, Tail(c / 64), Tail(c)]
    else [(0xF0 + c / 0x4_0000) as char, Tail(c / 0x1000), Tail(c / 64), Tail(c)]
  }

  /** The bytes of the first `n` characters. */
  function EncodedFirst(text: seq<CodePoint>, n: nat): string
    requires n <= |text|
  {
    if n == 0 then [] else EncodedFirst(text, n - 1) + Encoded(text[n - 1])
  }

  function EncodedText(text: seq<CodePoint>): string {
    EncodedFirst(text, |text|)
  }

  /** Only the first byte of a character can begin one. */
  lemma OnlyTheFirstStarts(c: CodePoint, j: nat)
    requires j < |Encoded(c)|
    ensures StartsChar(Encoded(c)[j]) <==> j == 0
  {
  }

  lemma {:induction false} OffsetsGrow(text: seq<CodePoint>, k: nat, n: nat)
    requires k <= n <= |text|
    ensures |EncodedFirst(text, k)| <= |EncodedFirst(text, n)| && EncodedFirst(text, k) <= EncodedFirst(text, n)
    ensures k < n ==> |EncodedFirst(text, k)| < |EncodedFirst(text, n)|
  {
    if k < n {
      OffsetsGrow(text, k, n - 1);
    }
  }

  /** Byte `i` begins a character exactly if some number of whole characters stands before it. */
  lemma {:induction false} StartsIffOffset(text: seq<CodePoint>, n: nat, i: nat)
    requires n <= |text| && i < |EncodedFirst(text, n)|
    ensures StartsChar(EncodedFirst(text, n)[i]) <==> exists k :: 0 <= k < n && |EncodedFirst(text, k)| == i
  {
    hide Encoded, StartsChar;
    var before := |EncodedFirst(text, n - 1)|;
    if i < before {
      StartsIffOffset(text, n - 1, i);
    } else {
      OnlyTheFirstStarts(text[n - 1], i - before);
      forall k | 0 <= k < n ensures |EncodedFirst(text, k)| <= before {
        OffsetsGrow(text, k, n - 1);
      }
      assert i == before ==> |EncodedFirst(text, n - 1)| == i;
    }
  }

  lemma BoundaryIffOffset(text: seq<CodePoint>, i: nat)
    requires i <= |EncodedText(text)|
    ensures IsCharBoundary(EncodedText(text), i) <==> exists k :: 0 <= k <= |text| && |EncodedFirst(text, k)| == i
  {
    hide Encoded, StartsChar;
    if i == |EncodedText(text)| {
      assert |EncodedFirst(text, |text|)| == i;
    } else {
      StartsIffOffset(text, |text|, i);
      assert i == 0 ==> |EncodedFirst(text, 0)| == i;
    }
  }

  /** What is left is the longest run of whole characters that fits. */
  lemma TruncatedKeepsWholeCharacters(text: seq<CodePoint>, maxBytes: nat) returns (k: nat)
    ensures k <= |text| && Truncated(EncodedText(text), maxBytes) == EncodedFirst(text, k)
    ensures |EncodedFirst(text, k)| <= maxBytes
    ensures k < |text| ==> |EncodedFirst(text, k + 1)| > maxBytes
  {
    hide Encoded, StartsChar, IsCharBoundary, EncodedFirst;
    var s := EncodedText(text);
    if |s| <= maxBytes {
      return |text|;
    }
    var end := BoundaryAtOrBefore(s, maxBytes);
    BoundaryIffOffset(text, end);
    k :| 0 <= k <= |text| && |EncodedFirst(text, k)| == end;
    OffsetsGrow(text, k, |text|);
    if k < |text| {
      OffsetsGrow(text, k, k + 1);
      OffsetsGrow(text, k + 1, |text|);
      BoundaryIffOffset(text, |EncodedFirst(text, k + 1)|);
    }
  }
}
