/**
 The query string of the authorization callback (`url_decode` and `parse_query` in
 crates/auth/src/callback.rs), against the serializer of section 5.2 of the WHATWG URL Standard.

 Texts are bytes. The source turns decoded bytes into text with a lossy UTF-8 conversion, which
 is the parameter `lossy` here: any function at all, so every statement holds for it in particular.
 */
module FormCodec {
  type Byte = b: nat | b < 256

  const SPACE: Byte := 0x20
  const PERCENT: Byte := 0x25
  const AMPERSAND: Byte := 0x26
  const PLUS: Byte := 0x2B
  const EQUALS: Byte := 0x3D

  // ---------------------------------------------------------------- decoding

  predicate IsHexDigit(c: Byte) {
    0x30 <= c <= 0x39 || 0x41 <= c <= 0x46 || 0x61 <= c <= 0x66
  }

  function HexValue(c: Byte): (d: nat)
    requires IsHexDigit(c)
    ensures d < 16
  {
    if c <= 0x39 then c - 0x30 else if c <= 0x46 then c - 0x41 + 10 else c - 0x61 + 10
  }

  /** An escape is a percent sign and two hex digits; anything else stands for itself. */
  predicate StartsEscape(s: seq<Byte>) {
    |s| > 2 && s[0] == PERCENT && IsHexDigit(s[1]) && IsHexDigit(s[2])
  }

  function Decoded(s: seq<Byte>): seq<Byte> {
    if s == [] then []
    else if s[0] == PLUS then [SPACE] + Decoded(s[1..])
    else if StartsEscape(s) then [HexValue(s[1]) * 16 + HexValue(s[2])] + Decoded(s[3..])
    else [s[0]] + Decoded(s[1..])
  }

  method UrlDecode(s: seq<Byte>) returns (out: seq<Byte>)
    ensures out == Decoded(s)
    ensures |out| <= |s|
  {
    hide Decoded, HexValue, IsHexDigit;
    out := [];
    var i := 0;
    assert s[0..] == s;
    while i < |s|
      invariant 0 <= i <= |s| && |out| <= i
      invariant out + Decoded(s[i..]) == Decoded(s)
    {
      ghost var rest := s[i..];
      DecodedOneMore(out, rest);
      assert s[i + 1..] == rest[1..] && (i + 2 < |s| ==> s[i + 3..] == rest[3..]);
      if s[i] == PLUS {
        out := out + [SPACE];
        i := i + 1;
      } else if s[i] == PERCENT && i + 2 < |s| {
        if IsHexDigit(s[i + 1]) && IsHexDigit(s[i + 2]) {
          out := out + [HexValue(s[i + 1]) * 16 + HexValue(s[i + 2])];
          i := i + 3;
        } else {
          out := out + [s[i]];
          i := i + 1;
        }
      } else {
        out := out + [s[i]];
        i := i + 1;
      }
    }
    assert s[i..] == [];
    assert Decoded(s[i..]) == [] by {
      DecodedOfNothing();
    }
  }

  lemma DecodedOfNothing()
    ensures Decoded([]) == []
  {
  }

  /** One turn of the loop moves one decoded byte from the rest to the output. */
  lemma DecodedOneMore(out: seq<Byte>, rest: seq<Byte>)
    requires rest != []
    ensures rest[0] == PLUS ==> out + Decoded(rest) == out + [SPACE] + Decoded(rest[1..])
    ensures StartsEscape(rest) ==>
              out + Decoded(rest) == out + [HexValue(rest[1]) * 16 + HexValue(rest[2])] + Decoded(rest[3..])
    ensures rest[0] != PLUS && !StartsEscape(rest) ==> out + Decoded(rest) == out + [rest[0]] + Decoded(rest[1..])
  {
  }

  // ---------------------------------------------------------------- the standard's serializer

  /** Written as itself: letters, digits and `*-._`. */
  predicate IsPlain(b: Byte) {
    || 0x30 <= b <= 0x39 || 0x41 <= b <= 0x5A || 0x61 <= b <= 0x7A
    || b == 0x2A || b == 0x2D || b == 0x2E || b == 0x5F
  }

  function UpperHexDigit(d: nat): (c: Byte)
    requires d < 16
    ensures IsHexDigit(c) && HexValue(c) == d
  {
    if d < 10 then 0x30 + d else 0x41 + d - 10
  }

  function EncodedByte(b: Byte): (s: seq<Byte>)
    ensures s != [] && AMPERSAND !in s && EQUALS !in s
  {
    if b == SPACE then [PLUS]
    else if IsPlain(b) then [b]
    else [PERCENT, UpperHexDigit(b / 16), UpperHexDigit(b % 16)]
  }

  function Encoded(bytes: seq<Byte>): seq<Byte> {
    if bytes == [] then [] else EncodedByte(bytes[0]) + Encoded(bytes[1..])
  }

  type Pair = (seq<Byte>, seq<Byte>)

  function EncodedPair(p: Pair): seq<Byte> {
    Encoded(p.0) + [EQUALS] + Encoded(p.1)
  }

  function Serialized(pairs: seq<Pair>): seq<Byte> {
    if pairs == [] then []
    else if |pairs| == 1 then EncodedPair(pairs[0])
    else EncodedPair(pairs[0]) + [AMPERSAND] + Serialized(pairs[1..])
  }

  lemma DecodeEncodedByte(b: Byte, rest: seq<Byte>)
    ensures Decoded(EncodedByte(b) + rest) == [b] + Decoded(rest)
  {
    var s := EncodedByte(b) + rest;
    assert s[|EncodedByte(b)|..] == rest;
    assert s[0] == EncodedByte(b)[0];
    if b != SPACE && !IsPlain(b) {
      assert s[1] == UpperHexDigit(b / 16) && s[2] == UpperHexDigit(b % 16);
    }
  }

  /** Decoding undoes the encoding of every byte string. */
  lemma {:induction false} DecodeUndoesEncode(bytes: seq<Byte>)
    ensures Decoded(Encoded(bytes)) == bytes
  {
    if bytes != [] {
      DecodeEncodedByte(bytes[0], Encoded(bytes[1..]));
      DecodeUndoesEncode(bytes[1..]);
    }
  }

  /** What contains neither a plus nor a percent sign is decoded to itself. */
  lemma {:induction false} PlainTextIsKept(s: seq<Byte>)
    requires PLUS !in s && PERCENT !in s
    ensures Decoded(s) == s
  {
    if s != [] {
      PlainTextIsKept(s[1..]);
    }
  }

  // ---------------------------------------------------------------- every text, piece by piece

  /** The sixteen hexadecimal digits, `0` to `9` and `A` to `F`. */
  const UPPER_DIGITS: seq<Byte> :=
    [0x30, 0x31, 0x32, 0x33, 0x34, 0x35, 0x36, 0x37, 0x38, 0x39, 0x41, 0x42, 0x43, 0x44, 0x45, 0x46]

  /** And with `a` to `f`. */
  const LOWER_DIGITS: seq<Byte> :=
    [0x30, 0x31, 0x32, 0x33, 0x34, 0x35, 0x36, 0x37, 0x38, 0x39, 0x61, 0x62, 0x63, 0x64, 0x65, 0x66]

  /** A digit of value `value`, written in either case. */
  datatype Digit = Digit(value: nat, lower: bool)

  predicate IsDigit(d: Digit) {
    d.value < 16
  }

  function DigitWritten(d: Digit): Byte
    requires IsDigit(d)
  {
    if d.lower then LOWER_DIGITS[d.value] else UPPER_DIGITS[d.value]
  }

  /** What a text is made of: plus signs, escapes, and bytes that stand for themselves. */
  datatype Piece = Blank | Escape(hi: Digit, lo: Digit) | Itself(b: Byte)

  predicate IsPiece(x: Piece) {
    match x
    case Blank => true
    case Escape(hi, lo) => IsDigit(hi) && IsDigit(lo)
    case Itself(b) => b != PLUS
  }

  function PieceWritten(x: Piece): (s: seq<Byte>)
    requires IsPiece(x)
    ensures s != []
  {
    match x
    case Blank => [PLUS]
    case Escape(hi, lo) => [PERCENT, DigitWritten(hi), DigitWritten(lo)]
    case Itself(b) => [b]
  }

  function PieceValue(x: Piece): Byte
    requires IsPiece(x)
  {
    match x
    case Blank => SPACE
    case Escape(hi, lo) => hi.value * 16 + lo.value
    case Itself(b) => b
  }

  function Written(xs: seq<Piece>): seq<Byte>
    requires forall x <- xs :: IsPiece(x)
  {
    if xs == [] then [] else PieceWritten(xs[0]) + Written(xs[1..])
  }

  function Values(xs: seq<Piece>): seq<Byte>
    requires forall x <- xs :: IsPiece(x)
  {
    if xs == [] then [] else [PieceValue(xs[0])] + Values(xs[1..])
  }

  predicate BeginsWithTwoDigits(s: seq<Byte>) {
    && |s| >= 2 && (s[0] in UPPER_DIGITS || s[0] in LOWER_DIGITS)
    && (s[1] in UPPER_DIGITS || s[1] in LOWER_DIGITS)
  }

  /** A percent sign stands for itself only if no two digits follow it. */
  predicate Fits(xs: seq<Piece>) {
    && (forall x <- xs :: IsPiece(x))
    && (xs != [] ==> Fits(xs[1..]) && (xs[0] == Itself(PERCENT) ==> !BeginsWithTwoDigits(Written(xs[1..]))))
  }

  lemma DigitIsRead(d: Digit)
    requires IsDigit(d)
    ensures IsHexDigit(DigitWritten(d)) && HexValue(DigitWritten(d)) == d.value
  {
  }

  lemma DigitsAreTheTables(c: Byte)
    ensures IsHexDigit(c) <==> c in UPPER_DIGITS || c in LOWER_DIGITS
  {
    if IsHexDigit(c) {
      assert c == UPPER_DIGITS[HexValue(c)] || c == LOWER_DIGITS[HexValue(c)];
    }
  }

  lemma FirstPieceIsRead(x: Piece, rest: seq<Byte>)
    requires IsPiece(x) && (x == Itself(PERCENT) ==> !BeginsWithTwoDigits(rest))
    ensures Decoded(PieceWritten(x) + rest) == [PieceValue(x)] + Decoded(rest)
  {
    var s := PieceWritten(x) + rest;
    assert s[|PieceWritten(x)|..] == rest;
    if x.Escape? {
      DigitIsRead(x.hi);
      DigitIsRead(x.lo);
    } else if x == Itself(PERCENT) && |s| > 2 {
      assert s[1] == rest[0] && s[2] == rest[1];
      DigitsAreTheTables(s[1]);
      DigitsAreTheTables(s[2]);
    }
  }

  /**
   Whatever the pieces, the decoding is their values: an escape of either case gives its byte, a
   plus a space, and everything else itself, a percent sign without two digits after it included.
   */
  lemma {:induction false} DecodedIsTheValues(xs: seq<Piece>)
    requires Fits(xs)
    ensures Decoded(Written(xs)) == Values(xs)
  {
    if xs != [] {
      DecodedIsTheValues(xs[1..]);
      FirstPieceIsRead(xs[0], Written(xs[1..]));
    }
  }

  lemma DigitOf(c: Byte) returns (d: Digit)
    requires c in UPPER_DIGITS || c in LOWER_DIGITS
    ensures IsDigit(d) && DigitWritten(d) == c
  {
    if c in UPPER_DIGITS {
      var v :| 0 <= v < 16 && UPPER_DIGITS[v] == c;
      d := Digit(v, false);
    } else {
      var v :| 0 <= v < 16 && LOWER_DIGITS[v] == c;
      d := Digit(v, true);
    }
  }

  /** And every text is made of such pieces, so this says what every text is decoded to. */
  lemma {:induction false} EveryTextIsPieces(s: seq<Byte>) returns (xs: seq<Piece>)
    ensures Fits(xs) && Written(xs) == s
    decreases |s|
  {
    if s == [] {
      return [];
    }
    var x := Itself(s[0]);
    if s[0] == PLUS {
      x := Blank;
    } else if s[0] == PERCENT && BeginsWithTwoDigits(s[1..]) {
      var hi := DigitOf(s[1]);
      var lo := DigitOf(s[2]);
      x := Escape(hi, lo);
    }
    assert s == PieceWritten(x) + s[|PieceWritten(x)|..];
    var rest := EveryTextIsPieces(s[|PieceWritten(x)|..]);
    xs := [x] + rest;
    assert xs[1..] == rest;
  }

  function EscapesOf(bytes: seq<Byte>, lower: seq<(bool, bool)>): seq<Piece>
    requires |lower| == |bytes|
  {
    if bytes == [] then []
    else [Escape(Digit(bytes[0] / 16, lower[0].0), Digit(bytes[0] % 16, lower[0].1))]
         + EscapesOf(bytes[1..], lower[1..])
  }

  lemma {:induction false} EscapesFit(bytes: seq<Byte>, lower: seq<(bool, bool)>)
    requires |lower| == |bytes|
    ensures Fits(EscapesOf(bytes, lower)) && Values(EscapesOf(bytes, lower)) == bytes
  {
    hide Written, BeginsWithTwoDigits;
    if bytes != [] {
      EscapesFit(bytes[1..], lower[1..]);
      assert EscapesOf(bytes, lower)[1..] == EscapesOf(bytes[1..], lower[1..]);
    }
  }

  /** The case of the digits does not matter: every byte string written in escapes is recovered. */
  lemma EscapesOfEitherCase(bytes: seq<Byte>, lower: seq<(bool, bool)>)
    requires |lower| == |bytes|
    ensures Fits(EscapesOf(bytes, lower)) && Decoded(Written(EscapesOf(bytes, lower))) == bytes
  {
    EscapesFit(bytes, lower);
    DecodedIsTheValues(EscapesOf(bytes, lower));
  }

  lemma {:induction false} EncodedHasNoSeparator(bytes: seq<Byte>)
    ensures AMPERSAND !in Encoded(bytes) && EQUALS !in Encoded(bytes)
  {
    if bytes != [] {
      EncodedHasNoSeparator(bytes[1..]);
    }
  }

  // ---------------------------------------------------------------- parsing

  function Position(s: seq<Byte>, b: Byte, from: nat): (i: nat)
    requires from <= |s|
    ensures from <= i <= |s|
    ensures i < |s| ==> s[i] == b
    ensures forall j :: from <= j < i ==> s[j] != b
    decreases |s| - from
  {
    if from == |s| || s[from] == b then from else Position(s, b, from + 1)
  }

  /** The pieces between the separators; an empty text is one empty piece. */
  function Split(s: seq<Byte>, b: Byte): (pieces: seq<seq<Byte>>)
    ensures pieces != []
    decreases |s|
  {
    var i := Position(s, b, 0);
    if i == |s| then [s] else [s[..i]] + Split(s[i + 1..], b)
  }

  /** Key and value of a piece: what stands before and after its first equals sign. */
  function PairOf(piece: seq<Byte>): Pair {
    var i := Position(piece, EQUALS, 0);
    (Decoded(piece[..i]), if i < |piece| then Decoded(piece[i + 1..]) else [])
  }

  function PairsOf(pieces: seq<seq<Byte>>): (pairs: seq<Pair>)
    ensures |pairs| == |pieces|
  {
    if pieces == [] then [] else [PairOf(pieces[0])] + PairsOf(pieces[1..])
  }

  /** The pairs of a query, in order. */
  function QueryPairs(q: seq<Byte>): seq<Pair> {
    if q == [] then [] else PairsOf(Split(q, AMPERSAND))
  }

  /** The pairs put into a map one after the other, so that the last of equal keys stays. */
  function MapOf(pairs: seq<Pair>, n: nat, lossy: seq<Byte> -> seq<Byte>): map<seq<Byte>, seq<Byte>>
    requires n <= |pairs|
  {
    if n == 0 then map[]
    else MapOf(pairs, n - 1, lossy)[lossy(pairs[n - 1].0) := lossy(pairs[n - 1].1)]
  }

  method ParseQuery(q: seq<Byte>, lossy: seq<Byte> -> seq<Byte>) returns (out: map<seq<Byte>, seq<Byte>>)
    ensures out == MapOf(QueryPairs(q), |QueryPairs(q)|, lossy)
  {
    out := map[];
    if q == [] {
      MapOfNone([], lossy);
      return;
    }
    hide Decoded, PairOf, Split, PairsOf, MapOf;
    var pieces := Split(q, AMPERSAND);
    ghost var pairs := PairsOf(pieces);
    MapOfNone(pairs, lossy);
    var n := 0;
    while n < |pieces|
      invariant 0 <= n <= |pieces|
      invariant out == MapOf(pairs, n, lossy)
    {
      var pair := SplitPair(pieces[n]);
      PairsOfAt(pieces, n);
      MapOfOneMore(pairs, n, lossy);
      out := out[lossy(pair.0) := lossy(pair.1)];
      n := n + 1;
    }
  }

  lemma MapOfNone(pairs: seq<Pair>, lossy: seq<Byte> -> seq<Byte>)
    ensures MapOf(pairs, 0, lossy) == map[]
  {
  }

  lemma MapOfOneMore(pairs: seq<Pair>, n: nat, lossy: seq<Byte> -> seq<Byte>)
    requires n < |pairs|
    ensures MapOf(pairs, n + 1, lossy) == MapOf(pairs, n, lossy)[lossy(pairs[n].0) := lossy(pairs[n].1)]
  {
  }

  method SplitPair(piece: seq<Byte>) returns (pair: Pair)
    ensures pair == PairOf(piece)
  {
    hide Decoded;
    var i := Position(piece, EQUALS, 0);
    var k := UrlDecode(piece[..i]);
    var v: seq<Byte> := [];
    if i < |piece| {
      v := UrlDecode(piece[i + 1..]);
    }
    pair := (k, v);
  }

  lemma {:induction false} PairsOfAt(pieces: seq<seq<Byte>>, n: nat)
    requires n < |pieces|
    ensures PairsOf(pieces)[n] == PairOf(pieces[n])
    decreases n
  {
    hide PairOf;
    if n > 0 {
      PairsOfAt(pieces[1..], n - 1);
    }
  }

  // ---------------------------------------------------------------- the round trip

  lemma PositionAfter(a: seq<Byte>, b: Byte, rest: seq<Byte>)
    requires b !in a
    ensures Position(a + [b] + rest, b, 0) == |a|
    ensures Position(a, b, 0) == |a|
  {
    hide Position;
    var s := a + [b] + rest;
    forall j | 0 <= j < |a| ensures s[j] != b {
      assert s[j] == a[j];
    }
    assert s[|a|] == b;
    assert forall j :: 0 <= j < |a| ==> a[j] != b;
  }

  lemma PairOfEncoded(p: Pair)
    ensures PairOf(EncodedPair(p)) == p
  {
    hide Decoded, Encoded;
    EncodedHasNoSeparator(p.0);
    PositionAfter(Encoded(p.0), EQUALS, Encoded(p.1));
    var piece := EncodedPair(p);
    assert piece[..|Encoded(p.0)|] == Encoded(p.0);
    assert piece[|Encoded(p.0)| + 1..] == Encoded(p.1);
    DecodeUndoesEncode(p.0);
    DecodeUndoesEncode(p.1);
  }

  lemma EncodedPairHasNoAmpersand(p: Pair)
    ensures AMPERSAND !in EncodedPair(p)
  {
    EncodedHasNoSeparator(p.0);
    EncodedHasNoSeparator(p.1);
  }

  lemma {:induction false} SplitSerialized(pairs: seq<Pair>)
    requires pairs != []
    ensures PairsOf(Split(Serialized(pairs), AMPERSAND)) == pairs
    decreases |pairs|
  {
    hide PairOf, EncodedPair, Position;
    var first := EncodedPair(pairs[0]);
    EncodedPairHasNoAmpersand(pairs[0]);
    PairOfEncoded(pairs[0]);
    if |pairs| == 1 {
      PositionAfter(first, AMPERSAND, []);
      assert pairs == [pairs[0]];
      assert Split(first, AMPERSAND) == [first];
      assert PairsOf([first]) == [PairOf(first)] + PairsOf([]);
    } else {
      var rest := Serialized(pairs[1..]);
      var s := Serialized(pairs);
      assert s == first + [AMPERSAND] + rest;
      PositionAfter(first, AMPERSAND, rest);
      assert s[..|first|] == first && s[|first| + 1..] == rest;
      var later := Split(rest, AMPERSAND);
      assert Split(s, AMPERSAND) == [first] + later;
      SplitSerialized(pairs[1..]);
      assert ([first] + later)[1..] == later;
      assert pairs == [pairs[0]] + pairs[1..];
    }
  }

  /** Every list of pairs survives being serialized and parsed, in order and with its duplicates. */
  lemma QueryPairsOfSerialized(pairs: seq<Pair>)
    ensures QueryPairs(Serialized(pairs)) == pairs
  {
    if pairs != [] {
      SplitSerialized(pairs);
      SerializedIsNotEmpty(pairs);
    }
  }

  lemma SerializedIsNotEmpty(pairs: seq<Pair>)
    requires pairs != []
    ensures Serialized(pairs) != []
  {
  }

  // ---------------------------------------------------------------- any query at all

  function Joined(pieces: seq<seq<Byte>>, b: Byte): seq<Byte> {
    if pieces == [] then []
    else if |pieces| == 1 then pieces[0]
    else pieces[0] + [b] + Joined(pieces[1..], b)
  }

  /** The pieces put together again are the text, and no piece has a separator. */
  lemma {:induction false} SplitThenJoin(s: seq<Byte>, b: Byte)
    ensures Joined(Split(s, b), b) == s
    ensures forall piece <- Split(s, b) :: b !in piece
    decreases |s|
  {
    var i := Position(s, b, 0);
    if i < |s| {
      SplitThenJoin(s[i + 1..], b);
      var later := Split(s[i + 1..], b);
      assert ([s[..i]] + later)[1..] == later;
      assert s == s[..i] + [b] + s[i + 1..];
    }
  }

  /** Only one list of pieces does that. */
  lemma {:induction false} JoinThenSplit(pieces: seq<seq<Byte>>, b: Byte)
    requires pieces != [] && forall piece <- pieces :: b !in piece
    ensures Split(Joined(pieces, b), b) == pieces
    decreases |pieces|
  {
    hide Position;
    var first := pieces[0];
    if |pieces| == 1 {
      PositionAfter(first, b, []);
    } else {
      var rest := Joined(pieces[1..], b);
      var s := Joined(pieces, b);
      assert s == first + [b] + rest;
      PositionAfter(first, b, rest);
      assert s[..|first|] == first && s[|first| + 1..] == rest;
      JoinThenSplit(pieces[1..], b);
      assert pieces == [first] + pieces[1..];
    }
  }

  /** The first equals sign ends the key, further ones belong to the value, and without one there is no value. */
  lemma WhatAPieceMeans(key: seq<Byte>, value: seq<Byte>)
    requires EQUALS !in key
    ensures PairOf(key + [EQUALS] + value) == (Decoded(key), Decoded(value))
    ensures PairOf(key) == (Decoded(key), [])
  {
    hide Position, Decoded;
    PositionAfter(key, EQUALS, value);
    PositionAfter(key, EQUALS, []);
    var piece := key + [EQUALS] + value;
    assert piece[..|key|] == key && piece[|key| + 1..] == value && key[..|key|] == key;
  }

  /** A query that is not empty has one pair for each piece, empty pieces included; an empty one has none. */
  lemma WhatAQueryMeans(pieces: seq<seq<Byte>>)
    requires pieces != [] && forall piece <- pieces :: AMPERSAND !in piece
    ensures pieces == [[]] ==> QueryPairs(Joined(pieces, AMPERSAND)) == []
    ensures pieces != [[]] ==>
              QueryPairs(Joined(pieces, AMPERSAND)) == seq(|pieces|, i requires 0 <= i < |pieces| => PairOf(pieces[i]))
  {
    hide PairOf, Split;
    JoinThenSplit(pieces, AMPERSAND);
    forall i | 0 <= i < |pieces| ensures PairsOf(pieces)[i] == PairOf(pieces[i]) {
      PairsOfAt(pieces, i);
    }
  }

  function BytesOf(s: string): (bytes: seq<Byte>)
    requires forall i :: 0 <= i < |s| ==> s[i] as nat < 256
    ensures |bytes| == |s| && forall i :: 0 <= i < |s| ==> bytes[i] == s[i] as nat
  {
    seq(|s|, i requires 0 <= i < |s| => var b: Byte := s[i] as nat; b)
  }

  lemma ADecoding()
    ensures Decoded(BytesOf("%2fb+c")) == BytesOf("/b c")
  {
    var v, c := BytesOf("%2fb+c"), BytesOf("c");
    assert v[5..] == c && v[3..][1..] == v[4..] && v[4..][1..] == c;
    PlainTextIsKept(c);
    assert Decoded(v[4..]) == [0x20] + c;
    assert Decoded(v[3..]) == [0x62] + ([0x20] + c);
    assert Decoded(v) == [0x2F] + ([0x62] + ([0x20] + c));
  }

  /** For instance. */
  lemma AQuery()
    ensures QueryPairs(BytesOf("k=%2fb+c&x")) == [(BytesOf("k"), BytesOf("/b c")), (BytesOf("x"), [])]
  {
    hide Decoded, PairOf, QueryPairs;
    var k, v, x := BytesOf("k"), BytesOf("%2fb+c"), BytesOf("x");
    ADecoding();
    PlainTextIsKept(k);
    PlainTextIsKept(x);
    WhatAPieceMeans(k, v);
    WhatAPieceMeans(x, []);
    var first := k + [EQUALS] + v;
    var pieces := [first, x];
    WhatAQueryMeans(pieces);
    assert pieces[1..] == [x];
    assert BytesOf("k=%2fb+c&x") == first + [AMPERSAND] + x;
  }

  /** The map holds, for each key, the value of its last pair, and no other key. */
  lemma {:induction false} LastDuplicateWins(pairs: seq<Pair>, n: nat, lossy: seq<Byte> -> seq<Byte>, key: seq<Byte>)
    requires n <= |pairs|
    ensures key in MapOf(pairs, n, lossy) <==> exists i :: 0 <= i < n && lossy(pairs[i].0) == key
    ensures key in MapOf(pairs, n, lossy) ==>
              exists i :: 0 <= i < n && lossy(pairs[i].0) == key && lossy(pairs[i].1) == MapOf(pairs, n, lossy)[key]
                       && forall j :: i < j < n ==> lossy(pairs[j].0) != key
  {
    if n > 0 {
      LastDuplicateWins(pairs, n - 1, lossy, key);
      if lossy(pairs[n - 1].0) != key && key in MapOf(pairs, n - 1, lossy) {
        var i :| 0 <= i < n - 1 && lossy(pairs[i].0) == key && lossy(pairs[i].1) == MapOf(pairs, n - 1, lossy)[key]
                 && forall j :: i < j < n - 1 ==> lossy(pairs[j].0) != key;
        assert forall j :: i < j < n ==> lossy(pairs[j].0) != key;
      }
    }
  }

  /** Serializing pairs and parsing the result gives the map of those pairs, the last duplicate winning. */
  method SerializeThenParse(pairs: seq<Pair>, lossy: seq<Byte> -> seq<Byte>) returns (out: map<seq<Byte>, seq<Byte>>)
    ensures out == MapOf(pairs, |pairs|, lossy)
  {
    out := ParseQuery(Serialized(pairs), lossy);
    QueryPairsOfSerialized(pairs);
  }
}
