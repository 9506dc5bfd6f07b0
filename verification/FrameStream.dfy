/**
 Newline-delimited frames over a byte stream (`FrameReader` and `LineSink` in daemon/src/server.rs).

 The reader sees the stream in whatever pieces the transport delivers. It is proved against the
 stream as a whole: how it was cut does not matter. Frames are bytes here; the source decodes each
 one to text on its own.
 */
module FrameStream {
  import opened Wrappers

  type Byte = b: nat | b < 256

  const NEWLINE: Byte := 10

  const MAX_FRAME_BYTES: nat := 16 * 1024 * 1024

  // ---------------------------------------------------------------- the stream as a whole

  /** The position of the first newline, or the length. */
  function LineEnd(s: seq<Byte>, from: nat): (i: nat)
    requires from <= |s|
    ensures from <= i <= |s|
    ensures i < |s| ==> s[i] == NEWLINE
    ensures forall j :: from <= j < i ==> s[j] != NEWLINE
    decreases |s| - from
  {
    if from == |s| || s[from] == NEWLINE then from else LineEnd(s, from + 1)
  }

  predicate IsLine(s: seq<Byte>) {
    forall j :: 0 <= j < |s| ==> s[j] != NEWLINE
  }

  /** How a stream ends: `failed` is an error in place of an orderly end. */
  function FirstFrame(s: seq<Byte>, failed: bool): Option<seq<Byte>> {
    var i := LineEnd(s, 0);
    if i > MAX_FRAME_BYTES then None
    else if i < |s| then Some(s[..i])
    else if s == [] || failed then None
    else Some(s)
  }

  function AfterFirst(s: seq<Byte>): seq<Byte> {
    var i := LineEnd(s, 0);
    if i < |s| then s[i + 1..] else []
  }

  /** All the frames up to the first that is refused. */
  function Frames(s: seq<Byte>, failed: bool): seq<seq<Byte>>
    decreases |s|
  {
    var f := FirstFrame(s, failed);
    if f.None? then [] else [f.value] + Frames(AfterFirst(s), failed)
  }

  lemma LineEndOfLine(line: seq<Byte>, rest: seq<Byte>)
    requires IsLine(line)
    ensures LineEnd(line + rest, 0) >= |line|
    ensures rest == [] || rest[0] == NEWLINE ==> LineEnd(line + rest, 0) == |line|
  {
    var s := line + rest;
    forall j | 0 <= j < |line| ensures s[j] != NEWLINE {
      assert s[j] == line[j];
    }
    assert rest != [] ==> s[|line|] == rest[0];
  }

  /** A line and its newline are the first frame. */
  lemma FirstIsLine(line: seq<Byte>, rest: seq<Byte>, failed: bool)
    requires IsLine(line) && |line| <= MAX_FRAME_BYTES
    ensures FirstFrame(line + [NEWLINE] + rest, failed) == Some(line)
    ensures AfterFirst(line + [NEWLINE] + rest) == rest
  {
    hide LineEnd;
    assert line + [NEWLINE] + rest == line + ([NEWLINE] + rest);
    LineEndOfLine(line, [NEWLINE] + rest);
  }

  /** A stream without a newline is a frame if it is not empty and ends in order. */
  lemma FirstIsTail(tail: seq<Byte>, failed: bool)
    requires IsLine(tail) && |tail| <= MAX_FRAME_BYTES
    ensures FirstFrame(tail, failed) == if tail == [] || failed then None else Some(tail)
    ensures AfterFirst(tail) == []
  {
    hide LineEnd;
    LineEndOfLine(tail, []);
    assert tail + [] == tail;
  }

  /** A line of up to 16 MiB is a frame; one byte more, and nothing after it is read. */
  lemma FrameLimit(line: seq<Byte>, rest: seq<Byte>, failed: bool)
    requires 10 !in line
    ensures |line| <= 16_777_216 ==> Frames(line + [10] + rest, failed) == [line] + Frames(rest, failed)
    ensures |line| > 16_777_216 ==> Frames(line + [10] + rest, failed) == []
  {
    hide LineEnd;
    assert IsLine(line);
    if |line| <= MAX_FRAME_BYTES {
      FirstIsLine(line, rest, failed);
    } else {
      assert line + [10] + rest == line + ([10] + rest);
      FirstIsTooLong(line, [10] + rest, failed);
    }
  }

  lemma FirstIsTooLong(line: seq<Byte>, rest: seq<Byte>, failed: bool)
    requires IsLine(line) && |line| > MAX_FRAME_BYTES
    ensures FirstFrame(line + rest, failed) == None
  {
    hide LineEnd;
    LineEndOfLine(line, rest);
  }

  /** The other way round: what the first frame says about the stream. */
  lemma FirstSplits(s: seq<Byte>, failed: bool)
    ensures FirstFrame(s, failed).Some? ==>
              var f := FirstFrame(s, failed).value;
              && IsLine(f) && |f| <= MAX_FRAME_BYTES && |AfterFirst(s)| < |s|
              && (s == f + [NEWLINE] + AfterFirst(s) || (s == f && AfterFirst(s) == [] && !failed))
    ensures FirstFrame(s, failed).None? ==> Stops(s, failed)
  {
    hide LineEnd;
  }

  /** Reading stops here: at the end, at a frame over the limit, or at an unfinished one when the stream fails. */
  ghost predicate Stops(rest: seq<Byte>, failed: bool) {
    rest == [] || LineEnd(rest, 0) > MAX_FRAME_BYTES || (failed && IsLine(rest))
  }

  // ---------------------------------------------------------------- reading it in pieces

  function Concat(chunks: seq<seq<Byte>>): seq<Byte> {
    if chunks == [] then [] else chunks[0] + Concat(chunks[1..])
  }

  lemma BeforeLineEnd(s: seq<Byte>)
    ensures IsLine(s[..LineEnd(s, 0)])
    ensures LineEnd(s, 0) < |s| ==> s == s[..LineEnd(s, 0)] + [NEWLINE] + s[LineEnd(s, 0) + 1..]
  {
    hide LineEnd;
  }

  /** Moving a line into the buffer, with its newline or, when the piece has none, all of it. */
  lemma TakenLine(buf: seq<Byte>, line: seq<Byte>, rest: seq<Byte>, later: seq<Byte>)
    ensures buf + (line + [NEWLINE] + rest + later) == buf + line + [NEWLINE] + (rest + later)
    ensures buf + (line + [NEWLINE] + rest + later) == buf + line + ([NEWLINE] + (rest + later))
  {
    Regroup(buf, line, [NEWLINE], rest, later);
  }

  lemma TakenPiece(buf: seq<Byte>, piece: seq<Byte>, later: seq<Byte>)
    ensures buf + (piece + later) == buf + piece + ([] + later)
  {
  }

  lemma LinesConcat(a: seq<Byte>, b: seq<Byte>)
    requires IsLine(a) && IsLine(b)
    ensures IsLine(a + b)
  {
  }

  lemma Regroup<T>(a: seq<T>, b: seq<T>, c: seq<T>, d: seq<T>, e: seq<T>)
    ensures a + ((b + c + d) + e) == a + b + c + (d + e) == a + b + (c + (d + e))
  {
  }

  /** `available` is what the last read left over, `chunks` are the reads to come. */
  class FrameReader {
    var buf: seq<Byte>
    var available: seq<Byte>
    var chunks: seq<seq<Byte>>
    const failed: bool

    /** A read of no bytes is the end of the stream, so no other read is empty. */
    ghost predicate Valid()
      reads this
    {
      [] !in chunks
    }

    ghost function Stream(): seq<Byte>
      reads this
    {
      available + Concat(chunks)
    }

    constructor (chunks: seq<seq<Byte>>, failed: bool)
      requires [] !in chunks
      ensures Valid() && Stream() == Concat(chunks) && this.failed == failed
    {
      this.chunks := chunks;
      this.failed := failed;
      buf, available := [], [];
    }

    /** What there is to look at now; nothing only at the end. */
    method FillBuf()
      requires Valid()
      modifies this
      ensures Valid() && Stream() == old(Stream()) && buf == old(buf)
      ensures available == [] ==> Stream() == []
    {
      if available == [] && chunks != [] {
        available := chunks[0];
        chunks := chunks[1..];
        assert old(chunks)[0] in old(chunks);
      }
    }

    method NextFrame() returns (frame: Option<seq<Byte>>)
      requires Valid()
      modifies this
      ensures Valid()
      ensures frame == FirstFrame(old(Stream()), failed)
      ensures frame.Some? ==> Stream() == AfterFirst(old(Stream()))
    {
      hide LineEnd, FirstFrame, AfterFirst, Concat, IsLine;
      ghost var whole := Stream();
      buf := [];
      EmptyIsALine();
      while true
        invariant Valid()
        invariant whole == buf + Stream()
        invariant IsLine(buf) && |buf| <= MAX_FRAME_BYTES
        decreases |Stream()|
      {
        FillBuf();
        if available == [] {
          assert whole == buf;
          FirstIsTail(buf, failed);
          return if failed || buf == [] then None else Some(buf);
        }
        var i := LineEnd(available, 0);
        var complete := i < |available|;
        var consumed := if complete then i + 1 else i;
        BeforeLineEnd(available);
        LinesConcat(buf, available[..i]);
        if complete {
          TakenLine(buf, available[..i], available[i + 1..], Concat(chunks));
        } else {
          assert available[..i] == available && available[i..] == [];
          TakenPiece(buf, available, Concat(chunks));
        }
        buf := buf + available[..i];
        available := available[consumed..];
        if |buf| > MAX_FRAME_BYTES {
          FirstIsTooLong(buf, if complete then [NEWLINE] + Stream() else Stream(), failed);
          return None;
        }
        if complete {
          FirstIsLine(buf, Stream(), failed);
          return Some(buf);
        }
      }
    }

    /** The connection's read loop. */
    method ReadAll() returns (frames: seq<seq<Byte>>)
      requires Valid()
      modifies this
      ensures frames == Frames(old(Stream()), failed)
    {
      hide FirstFrame, AfterFirst, Concat;
      frames := [];
      ghost var rest := Stream();
      var next := NextFrame();
      while next.Some?
        invariant Valid()
        invariant next == FirstFrame(rest, failed)
        invariant next.Some? ==> Stream() == AfterFirst(rest)
        invariant frames + Frames(rest, failed) == Frames(old(Stream()), failed)
        decreases |rest|
      {
        FirstSplits(rest, failed);
        assert frames + ([next.value] + Frames(AfterFirst(rest), failed))
            == frames + [next.value] + Frames(AfterFirst(rest), failed);
        frames := frames + [next.value];
        rest := Stream();
        next := NextFrame();
      }
    }
  }

  /** Two deliveries of the same bytes are read as the same frames, however they were cut. */
  method ReadTwice(chunks: seq<seq<Byte>>, chunks': seq<seq<Byte>>, failed: bool)
    returns (frames: seq<seq<Byte>>, frames': seq<seq<Byte>>)
    requires [] !in chunks && [] !in chunks'
    requires Concat(chunks) == Concat(chunks')
    ensures frames == frames' == Frames(Concat(chunks), failed)
  {
    var a := new FrameReader(chunks, failed);
    var b := new FrameReader(chunks', failed);
    frames := a.ReadAll();
    frames' := b.ReadAll();
  }

  // ---------------------------------------------------------------- writing

  /** The texts one after the other, each followed by a newline. */
  function Written(texts: seq<seq<Byte>>): seq<Byte> {
    if texts == [] then [] else texts[0] + [NEWLINE] + Written(texts[1..])
  }

  class LineSink {
    var out: seq<Byte>

    constructor ()
      ensures out == []
    {
      out := [];
    }

    /**
     `room` is how many bytes the peer still takes, and `flushes` whether the flush succeeds. A
     write that fails may have written a part; a flush that fails has the whole line before it.
     */
    method SendJson(json: seq<Byte>, room: nat, flushes: bool) returns (ok: bool)
      modifies this
      ensures ok <==> room > |json| && flushes
      ensures out == old(out) + if room > |json| then json + [NEWLINE] else json[..room]
      // Accepted texts pile up one per line.
      ensures forall texts :: room > |json| && old(out) == Written(texts) ==> out == Written(texts + [json])
    {
      var line := json + [NEWLINE];
      if |line| > room {
        out := out + line[..room];
        assert line[..room] == json[..room];
        return false;
      }
      forall texts | out == Written(texts) ensures out + line == Written(texts + [json]) {
        WrittenConcat(texts, [json]);
        assert Written([json]) == json + [NEWLINE] + Written([]);
      }
      out := out + line;
      return flushes;
    }
  }

  lemma {:induction false} WrittenConcat(a: seq<seq<Byte>>, b: seq<seq<Byte>>)
    ensures Written(a + b) == Written(a) + Written(b)
  {
    if a == [] {
      assert a + b == b;
    } else {
      assert (a + b)[1..] == a[1..] + b;
      WrittenConcat(a[1..], b);
      assert (a[0] + [NEWLINE] + Written(a[1..])) + Written(b) == a[0] + [NEWLINE] + (Written(a[1..]) + Written(b));
    }
  }

  // ---------------------------------------------------------------- what the frames are

  /**
   The frames are the newline split of the stream up to where reading stops: newline-free, within
   the limit, and written one per line they give the stream back, but for the newline that an
   unterminated last frame, which is not empty, lacks.
   */
  ghost predicate IsSplit(s: seq<Byte>, failed: bool, frames: seq<seq<Byte>>) {
    && (forall f <- frames :: IsLine(f) && |f| <= MAX_FRAME_BYTES)
    && (|| (!failed && Written(frames) == s + [NEWLINE] && frames[|frames| - 1] != [])
        || (Written(frames) <= s && Stops(s[|Written(frames)|..], failed)))
  }

  lemma {:induction false} FramesAreTheSplit(s: seq<Byte>, failed: bool)
    ensures IsSplit(s, failed, Frames(s, failed))
    decreases |s|
  {
    hide FirstFrame, AfterFirst, LineEnd, Stops, IsLine;
    FirstSplits(s, failed);
    var first := FirstFrame(s, failed);
    if first.Some? {
      var f, rest := first.value, AfterFirst(s);
      FramesAreTheSplit(rest, failed);
      if s == f + [NEWLINE] + rest {
        SplitCons(f, rest, failed, Frames(rest, failed));
      } else {
        EmptyIsALine();
        FirstIsTail([], failed);
        assert Written([f]) == f + [NEWLINE] + Written([]);
      }
    }
  }

  lemma SplitCons(f: seq<Byte>, rest: seq<Byte>, failed: bool, frames: seq<seq<Byte>>)
    requires IsLine(f) && |f| <= MAX_FRAME_BYTES && IsSplit(rest, failed, frames)
    ensures IsSplit(f + [NEWLINE] + rest, failed, [f] + frames)
  {
    hide Stops, IsLine;
    var s := f + [NEWLINE] + rest;
    var written := Written(frames);
    assert ([f] + frames)[1..] == frames;
    assert Written([f] + frames) == f + [NEWLINE] + written;
    if written <= rest {
      assert s[|f + [NEWLINE] + written|..] == rest[|written|..];
      assert f + [NEWLINE] + written <= s;
    } else {
      assert f + [NEWLINE] + (rest + [NEWLINE]) == s + [NEWLINE];
    }
  }

  lemma NothingWhenStopped(s: seq<Byte>, failed: bool)
    requires Stops(s, failed)
    ensures FirstFrame(s, failed) == None
  {
    if IsLine(s) {
      LineEndOfLine(s, []);
      assert s + [] == s;
    }
  }

  /** Taking the first frame off a split leaves a split of what follows, unless it was all. */
  lemma SplitTail(s: seq<Byte>, failed: bool, frames: seq<seq<Byte>>)
    requires IsSplit(s, failed, frames) && frames != []
    ensures || (s == frames[0] && frames == [s] && s != [] && !failed)
            || (|s| > |frames[0]| && s == frames[0] + [NEWLINE] + s[|frames[0]| + 1..]
                && IsSplit(s[|frames[0]| + 1..], failed, frames[1..]))
  {
    hide Stops, IsLine;
    var f, written := frames[0], Written(frames[1..]);
    assert Written(frames) == f + [NEWLINE] + written;
    if Written(frames) <= s {
      assert s == f + [NEWLINE] + s[|f| + 1..];
      assert s[|f| + 1..][|written|..] == s[|Written(frames)|..];
    } else if written == [] {
      assert frames[1..] == [];
      assert s == Written(frames)[..|f|] == f;
    } else {
      assert s == Written(frames)[..|s|] == f + [NEWLINE] + written[..|written| - 1];
      assert s[|f| + 1..] == written[..|written| - 1];
      assert (s + [NEWLINE])[|f| + 1..] == written;
      assert frames[1..][|frames| - 2] == frames[|frames| - 1];
    }
  }

  /** And no other sequence of frames is one. */
  lemma {:induction false} SplitIsUnique(s: seq<Byte>, failed: bool, frames: seq<seq<Byte>>)
    requires IsSplit(s, failed, frames)
    ensures frames == Frames(s, failed)
    decreases |frames|
  {
    hide FirstFrame, AfterFirst, Stops, IsLine;
    if frames == [] {
      NothingWhenStopped(s, failed);
    } else {
      SplitTail(s, failed, frames);
      if s == frames[0] {
        FirstIsTail(s, failed);
        EmptyIsALine();
        FirstIsTail([], failed);
      } else {
        var rest := s[|frames[0]| + 1..];
        SplitIsUnique(rest, failed, frames[1..]);
        FirstIsLine(frames[0], rest, failed);
      }
    }
  }

  /**
   Reading back what was written returns the texts; a last line cut off before its newline comes
   back as a shorter frame, or not at all when the stream failed.
   */
  lemma {:induction false} FramesOfWritten(texts: seq<seq<Byte>>, tail: seq<Byte>, failed: bool)
    requires forall t <- texts :: IsLine(t) && |t| <= MAX_FRAME_BYTES
    requires IsLine(tail) && |tail| <= MAX_FRAME_BYTES
    ensures Frames(Written(texts) + tail, failed) == texts + if tail != [] && !failed then [tail] else []
    decreases |texts|
  {
    hide FirstFrame, AfterFirst, LineEnd, IsLine;
    var s := Written(texts) + tail;
    if texts == [] {
      assert s == tail;
      FirstIsTail(tail, failed);
      EmptyIsALine();
      FirstIsTail([], failed);
    } else {
      var rest := Written(texts[1..]) + tail;
      assert texts[0] in texts;
      FirstIsLine(texts[0], rest, failed);
      assert s == texts[0] + [NEWLINE] + rest;
      FramesOfWritten(texts[1..], tail, failed);
      assert texts == [texts[0]] + texts[1..];
    }
  }

  lemma EmptyIsALine()
    ensures IsLine([])
  {
  }

  /** Everything the sink accepted arrives, over any cut of the bytes into reads. */
  method WriteThenRead(texts: seq<seq<Byte>>, chunks: seq<seq<Byte>>) returns (frames: seq<seq<Byte>>)
    requires forall t <- texts :: IsLine(t) && |t| <= MAX_FRAME_BYTES
    requires [] !in chunks && Concat(chunks) == Written(texts)
    ensures frames == texts
  {
    var reader := new FrameReader(chunks, false);
    frames := reader.ReadAll();
    FramesOfWritten(texts, [], false);
    assert Written(texts) + [] == Written(texts);
  }
}
