/**
 The encodings of the PKCE verifier (`base64url`, `generate_verifier` and `next_rand` in
 crates/auth/src/pkce.rs): base64url without padding, section 5 of RFC 4648, which the S256
 transform of section 4.2 of RFC 7636 applies to a hash; and the generator behind the verifier.
 */
module Pkce {
  import opened Wrappers

  type Byte = b: nat | b < 256

  // ---------------------------------------------------------------- base64url

  const ALPHABET: string := "ABCDEFGHIJKLM" + "NOPQRSTUVWXYZ" + "abcdefghijklm" + "nopqrstuvwxyz" + "0123456789" + "-_"

  type Digit = d: nat | d < 64

  /** The place of a character in the alphabet of section 5 of RFC 4648. */
  function DigitOf(c: char): Option<Digit> {
    if 'A' <= c <= 'Z' then Some(c as nat - 'A' as nat)
    else if 'a' <= c <= 'z' then Some(c as nat - 'a' as nat + 26)
    else if '0' <= c <= '9' then Some(c as nat - '0' as nat + 52)
    else if c == '-' then Some(62)
    else if c == '_' then Some(63)
    else None
  }

  /** The table, run by run. */
  lemma AlphabetRuns(d: Digit)
    ensures |ALPHABET| == 64
    ensures ALPHABET[d]
         == if d < 26 then 'A' + d as char
            else if d < 52 then 'a' + (d - 26) as char
            else if d < 62 then '0' + (d - 52) as char
            else if d == 62 then '-' else '_'
  {
  }

  function Symbol(d: Digit): (c: char)
    ensures DigitOf(c) == Some(d)
  {
    hide ALPHABET;
    AlphabetRuns(d);
    ALPHABET[d]
  }

  lemma SymbolOfDigit(c: char)
    requires DigitOf(c).Some?
    ensures Symbol(DigitOf(c).value) == c
  {
    assert DigitOf(Symbol(DigitOf(c).value)) == DigitOf(c);
  }

  /** The digits of up to three bytes, in the source's shifts and masks written as arithmetic. */
  function Group(bytes: seq<Byte>): (text: string)
    requires 1 <= |bytes| <= 3
    ensures |text| == |bytes| + 1
  {
    var b0 := bytes[0];
    var first := Symbol(b0 / 4);
    if |bytes| == 1 then [first, Symbol(b0 % 4 * 16)]
    else
      var b1 := bytes[1];
      var second := Symbol(b0 % 4 * 16 + b1 / 16);
      if |bytes| == 2 then [first, second, Symbol(b1 % 16 * 4)]
      else [first, second, Symbol(b1 % 16 * 4 + bytes[2] / 64), Symbol(bytes[2] % 64)]
  }

  function Encoded(bytes: seq<Byte>): string {
    if bytes == [] then ""
    else if |bytes| <= 3 then Group(bytes)
    else Group(bytes[..3]) + Encoded(bytes[3..])
  }

  method Base64Url(bytes: seq<Byte>) returns (out: string)
    ensures out == Encoded(bytes)
    ensures |out| == (4 * |bytes| + 2) / 3
    ensures forall c <- out :: DigitOf(c).Some?
  {
    hide Group;
    out := "";
    var i := 0;
    while i < |bytes|
      invariant 0 <= i <= |bytes|
      invariant out + Encoded(bytes[i..]) == Encoded(bytes)
    {
      ghost var rest := bytes[i..];
      ghost var before := out;
      var chunk := bytes[i..if i + 3 <= |bytes| then i + 3 else |bytes|];
      var text := EncodeGroup(chunk);
      out := out + text;
      i := i + |chunk|;
      assert chunk == if |rest| <= 3 then rest else rest[..3];
      assert bytes[i..] == if |rest| <= 3 then [] else rest[3..];
      EncodedOneMore(before, rest);
    }
    LengthOfEncoded(bytes);
    AlphabetOnly(bytes);
  }

  lemma EncodedOneMore(out: string, rest: seq<Byte>)
    requires rest != []
    ensures |rest| <= 3 ==> out + Encoded(rest) == out + Group(rest) + Encoded([])
    ensures |rest| > 3 ==> out + Encoded(rest) == out + Group(rest[..3]) + Encoded(rest[3..])
  {
    hide Group;
    if |rest| > 3 {
      Associate(out, Group(rest[..3]), Encoded(rest[3..]));
    } else {
      Associate(out, Group(rest), Encoded([]));
      assert Encoded([]) == [];
      assert Group(rest) + [] == Group(rest);
    }
  }

  lemma Associate(a: string, b: string, c: string)
    ensures a + (b + c) == a + b + c
  {
  }

  /** One chunk: its second and third byte may be missing. */
  method EncodeGroup(chunk: seq<Byte>) returns (out: string)
    requires 1 <= |chunk| <= 3
    ensures out == Group(chunk)
    // Nothing of the chunk is lost, however many of its bytes are missing.
    ensures DecodedGroup(out) == Some(chunk)
  {
    GroupRoundTrip(chunk);
    var b0 := chunk[0];
    out := [Symbol(b0 / 4)];
    if |chunk| == 3 {
      out := out + [Symbol(b0 % 4 * 16 + chunk[1] / 16)];
      out := out + [Symbol(chunk[1] % 16 * 4 + chunk[2] / 64)];
      out := out + [Symbol(chunk[2] % 64)];
    } else if |chunk| == 2 {
      out := out + [Symbol(b0 % 4 * 16 + chunk[1] / 16)];
      out := out + [Symbol(chunk[1] % 16 * 4)];
    } else {
      out := out + [Symbol(b0 % 4 * 16)];
    }
  }

  /** Four characters for three bytes, rounded up, and no padding. */
  lemma {:induction false} LengthOfEncoded(bytes: seq<Byte>)
    ensures |Encoded(bytes)| == (4 * |bytes| + 2) / 3
  {
    hide Group;
    if |bytes| > 3 {
      LengthOfEncoded(bytes[3..]);
    }
  }

  lemma GroupAlphabet(bytes: seq<Byte>)
    requires 1 <= |bytes| <= 3
    ensures forall c <- Group(bytes) :: DigitOf(c).Some?
  {
    hide Symbol, DigitOf;
  }

  lemma {:induction false} AlphabetOnly(bytes: seq<Byte>)
    ensures forall c <- Encoded(bytes) :: DigitOf(c).Some?
  {
    hide Group, DigitOf;
    if bytes != [] {
      GroupAlphabet(if |bytes| <= 3 then bytes else bytes[..3]);
      if |bytes| > 3 {
        AlphabetOnly(bytes[3..]);
      }
    }
  }

  // ---------------------------------------------------------------- a decoder

  function Digits(text: string): Option<seq<Digit>> {
    if text == "" then Some([])
    else
      var d := DigitOf(text[0]);
      var rest := Digits(text[1..]);
      if d.None? || rest.None? then None else Some([d.value] + rest.value)
  }

  /** A group of two, three or four digits; left-over bits have to be zero. */
  function Ungroup(d: seq<nat>): Option<seq<Byte>>
    requires 1 <= |d| <= 4 && forall i :: 0 <= i < |d| ==> d[i] < 64
  {
    if |d| == 1 then None
    else if |d| == 2 then
      if d[1] % 16 == 0 then Some([d[0] * 4 + d[1] / 16]) else None
    else if |d| == 3 then
      if d[2] % 4 == 0 then Some([d[0] * 4 + d[1] / 16, d[1] % 16 * 16 + d[2] / 4]) else None
    else Some([d[0] * 4 + d[1] / 16, d[1] % 16 * 16 + d[2] / 4, d[2] % 4 * 64 + d[3]])
  }

  function DecodedGroup(text: string): Option<seq<Byte>>
    requires 1 <= |text| <= 4
  {
    var d := Digits(text);
    if d.None? || |d.value| != |text| then None else Ungroup(d.value)
  }

  function Decoded(text: string): Option<seq<Byte>> {
    if text == "" then Some([])
    else if |text| <= 4 then DecodedGroup(text)
    else
      var first := DecodedGroup(text[..4]);
      var rest := Decoded(text[4..]);
      if first.None? || rest.None? then None else Some(first.value + rest.value)
  }

  lemma {:induction false} DigitsPointwise(text: string)
    ensures Digits(text).Some? <==> forall c <- text :: DigitOf(c).Some?
    ensures Digits(text).Some? ==>
              && |Digits(text).value| == |text|
              && forall i :: 0 <= i < |text| ==> DigitOf(text[i]) == Some(Digits(text).value[i])
  {
    hide DigitOf;
    if text != "" {
      DigitsPointwise(text[1..]);
      assert text == [text[0]] + text[1..];
    }
  }

  lemma BitsOfGroup(b0: Byte, b1: Byte, b2: Byte)
    ensures b0 / 4 * 4 + b0 % 4 * 16 / 16 == b0 && b0 % 4 * 16 % 16 == 0
    ensures b0 / 4 * 4 + (b0 % 4 * 16 + b1 / 16) / 16 == b0 && (b0 % 4 * 16 + b1 / 16) % 16 == b1 / 16
    ensures b1 / 16 * 16 + b1 % 16 * 4 / 4 == b1 && b1 % 16 * 4 % 4 == 0
    ensures b1 / 16 * 16 + (b1 % 16 * 4 + b2 / 64) / 4 == b1 && (b1 % 16 * 4 + b2 / 64) % 4 == b2 / 64
    ensures b2 / 64 * 64 + b2 % 64 == b2
  {
  }

  lemma GroupRoundTrip(bytes: seq<Byte>)
    requires 1 <= |bytes| <= 3
    ensures DecodedGroup(Group(bytes)) == Some(bytes)
  {
    hide Symbol, DigitOf, Digits;
    var text := Group(bytes);
    DigitsPointwise(text);
    GroupAlphabet(bytes);
    var d := Digits(text).value;
    assert forall i :: 0 <= i < |text| ==> DigitOf(text[i]) == Some(d[i]);
    BitsOfGroup(bytes[0], if |bytes| > 1 then bytes[1] else 0, if |bytes| > 2 then bytes[2] else 0);
    assert d[0] == bytes[0] / 4;
    var decoded := Ungroup(d);
    if |bytes| == 1 {
      assert d[1] == bytes[0] % 4 * 16;
    } else {
      assert d[1] == bytes[0] % 4 * 16 + bytes[1] / 16;
      assert |bytes| == 2 ==> d[2] == bytes[1] % 16 * 4;
      assert |bytes| == 3 ==> d[2] == bytes[1] % 16 * 4 + bytes[2] / 64 && d[3] == bytes[2] % 64;
    }
    assert decoded.Some? && decoded.value == bytes;
  }

  lemma DigitsOfUngroup(d0: nat, d1: nat, d2: nat, d3: nat)
    requires d0 < 64 && d1 < 64 && d2 < 64 && d3 < 64
    ensures (d0 * 4 + d1 / 16) / 4 == d0
    ensures (d0 * 4 + d1 / 16) % 4 * 16 + (d1 % 16 * 16 + d2 / 4) / 16 == d1
    ensures (d1 % 16 * 16 + d2 / 4) % 16 * 4 + (d2 % 4 * 64 + d3) / 64 == d2
    ensures (d2 % 4 * 64 + d3) % 64 == d3
    ensures d1 % 16 == 0 ==> (d0 * 4 + d1 / 16) % 4 * 16 == d1
    ensures d2 % 4 == 0 ==> (d1 % 16 * 16 + d2 / 4) % 16 * 4 == d2
  {
  }

  lemma UngroupRoundTrip(text: string)
    requires 1 <= |text| <= 4 && DecodedGroup(text).Some?
    ensures 1 <= |DecodedGroup(text).value| <= 3 && |DecodedGroup(text).value| == |text| - 1
    ensures Group(DecodedGroup(text).value) == text
  {
    hide Symbol, DigitOf, Digits;
    DigitsPointwise(text);
    var d := Digits(text).value;
    forall i | 0 <= i < |text| ensures Symbol(d[i]) == text[i] {
      SymbolOfDigit(text[i]);
    }
    DigitsOfUngroup(d[0], d[1], if |d| > 2 then d[2] else 0, if |d| > 3 then d[3] else 0);
    UngroupSymbols(d);
    assert Group(DecodedGroup(text).value) == text;
  }

  lemma UngroupSymbols(d: seq<Digit>)
    requires 2 <= |d| <= 4 && Ungroup(d).Some?
    ensures |Ungroup(d).value| == |d| - 1
    ensures Group(Ungroup(d).value) == seq(|d|, i requires 0 <= i < |d| => Symbol(d[i]))
  {
    hide Symbol, DigitOf;
    DigitsOfUngroup(d[0], d[1], if |d| > 2 then d[2] else 0, if |d| > 3 then d[3] else 0);
  }

  /** Decoding recovers every byte sequence: the encoding loses nothing. */
  lemma {:induction false} DecodeUndoesEncode(bytes: seq<Byte>)
    ensures Decoded(Encoded(bytes)) == Some(bytes)
  {
    hide Group, DecodedGroup;
    if bytes != [] {
      if |bytes| <= 3 {
        GroupRoundTrip(bytes);
      } else {
        GroupRoundTrip(bytes[..3]);
        DecodeUndoesEncode(bytes[3..]);
        var text := Encoded(bytes);
        LengthOfEncoded(bytes[3..]);
        assert text[..4] == Group(bytes[..3]) && text[4..] == Encoded(bytes[3..]);
        assert bytes == bytes[..3] + bytes[3..];
      }
    }
  }

  /** And every text the decoder accepts is the encoding of what it returns. */
  lemma {:induction false} EncodeUndoesDecode(text: string)
    requires Decoded(text).Some?
    ensures Encoded(Decoded(text).value) == text
    decreases |text|
  {
    hide Group, DecodedGroup;
    if text != "" {
      if |text| <= 4 {
        UngroupRoundTrip(text);
      } else {
        UngroupRoundTrip(text[..4]);
        EncodeUndoesDecode(text[4..]);
        var first, rest := DecodedGroup(text[..4]).value, Decoded(text[4..]).value;
        assert (first + rest)[..3] == first && (first + rest)[3..] == rest;
        assert text == text[..4] + text[4..];
      }
    }
  }

  // ---------------------------------------------------------------- the verifier

  // The operations of `next_rand`, each beside its inverse. Multiplication of 64-bit words wraps
  // around; the multipliers are odd, so each has an inverse.

  function Advanced(state: bv64): bv64 { state + 0x9E37_79B9_7F4A_7C15 }

  function Times1(x: bv64): bv64 { x * 0xBF58_476D_1CE4_E5B9 }

  function Over1(x: bv64): bv64 { x * 0x96DE_1B17_3F11_9089 }

  function Times2(x: bv64): bv64 { x * 0x94D0_49BB_1331_11EB }

  function Over2(x: bv64): bv64 { x * 0x3196_42B2_D24D_8EC3 }

  function Fold30(x: bv64): bv64 { x ^ (x >> 30) }

  function Unfold30(x: bv64): bv64 { x ^ (x >> 30) ^ (x >> 60) }

  function Fold27(x: bv64): bv64 { x ^ (x >> 27) }

  function Unfold27(x: bv64): bv64 { x ^ (x >> 27) ^ (x >> 54) }

  function Fold31(x: bv64): bv64 { x ^ (x >> 31) }

  function Unfold31(x: bv64): bv64 { x ^ (x >> 31) ^ (x >> 62) }

  function Mixed(state: bv64): bv64 {
    Fold31(Times2(Fold27(Times1(Fold30(state)))))
  }

  function Unmixed(r: bv64): bv64 {
    Unfold30(Over1(Unfold27(Over2(Unfold31(r)))))
  }

  lemma Over1OfTimes1(x: bv64)
    ensures Over1(Times1(x)) == x
  {
    hide Over1;
    Over1OfTerm(x);
  }

  lemma Over1OfTerm(x: bv64)
    ensures Over1(x * 0xBF58_476D_1CE4_E5B9) == x
  {
  }

  lemma Times1OfOver1(x: bv64)
    ensures Times1(Over1(x)) == x
  {
    hide Times1;
    Times1OfTerm(x);
  }

  lemma Times1OfTerm(x: bv64)
    ensures Times1(x * 0x96DE_1B17_3F11_9089) == x
  {
  }

  lemma Over2OfTimes2(x: bv64)
    ensures Over2(Times2(x)) == x
  {
    hide Over2;
    Over2OfTerm(x);
  }

  lemma Over2OfTerm(x: bv64)
    ensures Over2(x * 0x94D0_49BB_1331_11EB) == x
  {
  }

  lemma Times2OfOver2(x: bv64)
    ensures Times2(Over2(x)) == x
  {
    hide Times2;
    Times2OfTerm(x);
  }

  lemma Times2OfTerm(x: bv64)
    ensures Times2(x * 0x3196_42B2_D24D_8EC3) == x
  {
  }

  lemma Unfold30OfFold30(x: bv64)
    ensures Unfold30(Fold30(x)) == x
  {
    hide Unfold30;
    Unfold30OfTerm(x);
  }

  lemma Unfold30OfTerm(x: bv64)
    ensures Unfold30(x ^ (x >> 30)) == x
  {
  }

  lemma Fold30OfUnfold30(x: bv64)
    ensures Fold30(Unfold30(x)) == x
  {
    hide Fold30;
    Fold30OfTerm(x);
  }

  lemma Fold30OfTerm(x: bv64)
    ensures Fold30(x ^ (x >> 30) ^ (x >> 60)) == x
  {
  }

  lemma Unfold27OfFold27(x: bv64)
    ensures Unfold27(Fold27(x)) == x
  {
    hide Unfold27;
    Unfold27OfTerm(x);
  }

  lemma Unfold27OfTerm(x: bv64)
    ensures Unfold27(x ^ (x >> 27)) == x
  {
  }

  lemma Fold27OfUnfold27(x: bv64)
    ensures Fold27(Unfold27(x)) == x
  {
    hide Fold27;
    Fold27OfTerm(x);
  }

  lemma Fold27OfTerm(x: bv64)
    ensures Fold27(x ^ (x >> 27) ^ (x >> 54)) == x
  {
  }

  lemma Unfold31OfFold31(x: bv64)
    ensures Unfold31(Fold31(x)) == x
  {
    hide Unfold31;
    Unfold31OfTerm(x);
  }

  lemma Unfold31OfTerm(x: bv64)
    ensures Unfold31(x ^ (x >> 31)) == x
  {
  }

  lemma Fold31OfUnfold31(x: bv64)
    ensures Fold31(Unfold31(x)) == x
  {
    hide Fold31;
    Fold31OfTerm(x);
  }

  lemma Fold31OfTerm(x: bv64)
    ensures Fold31(x ^ (x >> 31) ^ (x >> 62)) == x
  {
  }

  lemma MixedIsABijection(x: bv64)
    ensures Unmixed(Mixed(x)) == x && Mixed(Unmixed(x)) == x
  {
    hide Times1, Over1, Times2, Over2, Fold30, Unfold30, Fold27, Unfold27, Fold31, Unfold31;
    var a := Times1(Fold30(x));
    var b := Times2(Fold27(a));
    Unfold31OfFold31(b);
    Over2OfTimes2(Fold27(a));
    Unfold27OfFold27(a);
    Over1OfTimes1(Fold30(x));
    Unfold30OfFold30(x);

    var c := Over2(Unfold31(x));
    var d := Over1(Unfold27(c));
    Fold30OfUnfold30(d);
    Times1OfOver1(Unfold27(c));
    Fold27OfUnfold27(c);
    Times2OfOver2(Unfold31(x));
    Fold31OfUnfold31(x);
  }

  /** Updates the state and returns a number drawn from it. */
  method NextRand(state: bv64) returns (next: bv64, r: bv64)
    ensures next == Advanced(state) && r == Mixed(next)
    // The number says which state it was drawn from.
    ensures Unmixed(r) == next
  {
    hide Times1, Times2, Fold30, Fold27, Fold31, Advanced, Unmixed;
    next := Advanced(state);
    var z := next;
    z := Times1(Fold30(z));
    z := Times2(Fold27(z));
    r := Fold31(z);
    MixedIsABijection(next);
  }

  /** The state after `n` calls from `seed`. */
  function StateAfter(seed: bv64, n: bv64): bv64 {
    seed + n * 0x9E37_79B9_7F4A_7C15
  }

  lemma OneMoreCall(seed: bv64, n: bv64)
    ensures StateAfter(seed, n + 1) == Advanced(StateAfter(seed, n))
  {
    hide Advanced;
    AdvancedTerm(seed, n);
  }

  lemma AdvancedTerm(seed: bv64, n: bv64)
    ensures StateAfter(seed, n + 1) == Advanced(seed + n * 0x9E37_79B9_7F4A_7C15)
  {
  }

  /** The number of the call that leaves `state`. */
  function CallsTo(seed: bv64, state: bv64): bv64 {
    (state - seed) * 0xF1DE_83E1_9937_733D
  }

  lemma CallsToStateAfter(seed: bv64, n: bv64)
    ensures CallsTo(seed, StateAfter(seed, n)) == n
  {
    hide CallsTo;
    CallsToTerm(seed, n);
  }

  lemma CallsToTerm(seed: bv64, n: bv64)
    ensures CallsTo(seed, seed + n * 0x9E37_79B9_7F4A_7C15) == n
  {
  }

  lemma StateAfterCallsTo(seed: bv64, state: bv64)
    ensures StateAfter(seed, CallsTo(seed, state)) == state
  {
    hide StateAfter;
    StateAfterTerm(seed, state);
  }

  lemma StateAfterTerm(seed: bv64, state: bv64)
    ensures StateAfter(seed, (state - seed) * 0xF1DE_83E1_9937_733D) == state
  {
  }

  /**
   From every seed the generator runs through all 64-bit numbers before it repeats one: each is
   the output of exactly one call in 2^64.
   */
  lemma FullPeriod(seed: bv64, n: bv64, r: bv64)
    ensures Mixed(StateAfter(seed, n)) == r <==> n == CallsTo(seed, Unmixed(r))
  {
    hide Mixed, Unmixed, StateAfter, CallsTo;
    MixedIsABijection(r);
    MixedIsABijection(StateAfter(seed, n));
    CallsToStateAfter(seed, n);
    StateAfterCallsTo(seed, Unmixed(r));
  }

  const UNRESERVED: string :=
    "ABCDEFGHIJKLM" + "NOPQRSTUVWXYZ" + "abcdefghijklm" + "nopqrstuvwxyz" + "0123456789" + "-._~"

  /** The characters section 4.1 of RFC 7636 allows in a verifier. */
  predicate IsUnreserved(c: char) {
    'A' <= c <= 'Z' || 'a' <= c <= 'z' || '0' <= c <= '9' || c in "-._~"
  }

  /** The table, run by run. */
  lemma UnreservedTable(i: nat)
    requires i < 66
    ensures |UNRESERVED| == 66
    ensures UNRESERVED[i]
         == if i < 26 then 'A' + i as char
            else if i < 52 then 'a' + (i - 26) as char
            else if i < 62 then '0' + (i - 52) as char
            else "-._~"[i - 62]
  {
  }

  lemma TableIsUnreserved(i: nat)
    requires i < 66
    ensures |UNRESERVED| == 66 && IsUnreserved(UNRESERVED[i])
  {
    hide UNRESERVED;
    UnreservedTable(i);
  }

  /** The state after `n` calls, counted without bound. */
  function StateAt(seed: bv64, n: nat): bv64 {
    if n == 0 then seed else Advanced(StateAt(seed, n - 1))
  }

  /** Character `i` is the one that the number of call `i + 1` picks, counted around the table. */
  method GenerateVerifier(len: nat, seed: bv64) returns (out: string)
    ensures |out| == len && forall c <- out :: IsUnreserved(c)
    ensures |UNRESERVED| == 66
    ensures forall i :: 0 <= i < len ==> out[i] == UNRESERVED[Mixed(StateAt(seed, i + 1)) as nat % 66]
  {
    hide UNRESERVED, IsUnreserved, Mixed, Unmixed, Advanced;
    var state := seed;
    out := "";
    TableIsUnreserved(0);
    while |out| < len
      invariant |out| <= len && forall c <- out :: IsUnreserved(c)
      invariant state == StateAt(seed, |out|)
      invariant forall i :: 0 <= i < |out| ==> out[i] == UNRESERVED[Mixed(StateAt(seed, i + 1)) as nat % 66]
    {
      var r: bv64;
      state, r := NextRand(state);
      TableIsUnreserved(r as nat % |UNRESERVED|);
      out := out + [UNRESERVED[r as nat % |UNRESERVED|]];
    }
  }

  lemma GroupsOfOne()
    ensures Group([98]) == "Yg" && Group([102]) == "Zg"
  {
  }

  lemma GroupOfTwo()
    ensures Group([102, 111]) == "Zm8"
  {
  }

  lemma GroupOfThree()
    ensures Group([102, 111, 111]) == "Zm9v"
  {
  }

  /** Test vectors of section 10 of RFC 4648, without the padding. */
  lemma TestVectors()
    ensures Encoded([]) == ""
    ensures Encoded([102]) == "Zg" && Encoded([102, 111]) == "Zm8" && Encoded([102, 111, 111]) == "Zm9v"
    ensures Encoded([102, 111, 111, 98]) == "Zm9vYg"
  {
    hide Group;
    GroupsOfOne();
    GroupOfTwo();
    GroupOfThree();
    assert [102, 111, 111, 98][..3] == [102, 111, 111] && [102, 111, 111, 98][3..] == [98];
    assert Encoded([98]) == Group([98]);
  }

  /** `n`, counted in 64 bits. */
  function Word(n: nat): bv64 {
    if n == 0 then 0 else Word(n - 1) + 1
  }

  /** The state after `n` calls in the closed form, which `FullPeriod` is about. */
  lemma {:induction false} StateAtIsStateAfter(seed: bv64, n: nat)
    ensures StateAt(seed, n) == StateAfter(seed, Word(n))
  {
    hide StateAfter, Advanced;
    if n == 0 {
      NoCall(seed);
    } else {
      StateAtIsStateAfter(seed, n - 1);
      OneMoreCall(seed, Word(n - 1));
    }
  }

  lemma NoCall(seed: bv64)
    ensures StateAfter(seed, 0) == seed
  {
  }

  /** The first numbers from seed 0, as published with the generator. */
  lemma FirstOfZero()
    ensures Mixed(StateAt(0, 1)) == 0xE220_A839_7B1D_CDAF
    ensures Mixed(StateAt(0, 2)) == 0x6E78_9E6A_A1B9_65F4
  {
  }
}
