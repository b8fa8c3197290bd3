/**
 The frame format of the relay, and the streaming parser of FrameRestruct.cpp as a function on byte
 sequences.  A frame is HEAD, a two-byte big-endian length of the whole frame, a code byte, data, TAIL.
 */
module FrameParser {

  type byte = x: int | 0 <= x < 0x100

  const HEAD: byte := 0x7E
  const TAIL: byte := 0xA5
  const LEN_MIN := 5
  const LEN_MAX := 1024 + 100

  /** The size of a pool block, which has room for any frame. */
  const BLOCK_SIZE := 1024 + 128

  function DeclaredLen(s: seq<byte>): nat
    requires |s| >= 3
  {
    s[1] as int * 256 + s[2] as int
  }

  /** A head whose frame cannot be judged before more bytes arrive. */
  predicate Undecided(s: seq<byte>) {
    && s != [] && s[0] == HEAD
    && (|s| < LEN_MIN || (LEN_MIN <= DeclaredLen(s) <= LEN_MAX && |s| < DeclaredLen(s)))
  }

  /** A complete well-formed frame stands at the front. */
  predicate StartsFrame(s: seq<byte>) {
    && |s| >= LEN_MIN && s[0] == HEAD
    && LEN_MIN <= DeclaredLen(s) <= LEN_MAX && DeclaredLen(s) <= |s|
    && s[DeclaredLen(s) - 1] == TAIL
  }

  predicate IsFrame(f: seq<byte>) {
    StartsFrame(f) && DeclaredLen(f) == |f|
  }

  predicate AllFrames(fs: seq<seq<byte>>) {
    forall f :: f in fs ==> IsFrame(f)
  }

  datatype Parsed = Parsed(frames: seq<seq<byte>>, rest: seq<byte>)

  /** The frames found from left to right, and the bytes kept for the next call. */
  function Parse(s: seq<byte>): Parsed {
    if s == [] || Undecided(s) then Parsed([], s)
    else if StartsFrame(s) then
      var n := DeclaredLen(s);
      var p := Parse(s[n..]);
      Parsed([s[..n]] + p.frames, p.rest)
    else Parse(s[1..])
  }

  function Flatten(bs: seq<seq<byte>>): seq<byte> {
    if bs == [] then [] else bs[0] + Flatten(bs[1..])
  }

  // ----- what the parser yields -----

  /** The kept bytes are empty or an unfinished frame of at most 1123 bytes, which alone yield nothing. */
  lemma {:induction false} RestIsPending(s: seq<byte>)
    ensures Parse(s).rest == [] || Undecided(Parse(s).rest)
    ensures |Parse(s).rest| <= |s| && |Parse(s).rest| < LEN_MAX
    ensures Parse(Parse(s).rest) == Parsed([], Parse(s).rest)
    ensures AllFrames(Parse(s).frames)
    decreases |s|
  {
    if s != [] && !Undecided(s) {
      RestIsPending(if StartsFrame(s) then s[DeclaredLen(s)..] else s[1..]);
    }
  }

  /** Parsing what was kept together with the next bytes is parsing the whole. */
  lemma {:induction false} ParseAppend(a: seq<byte>, b: seq<byte>)
    ensures Parse(a + b) == Parsed(Parse(a).frames + Parse(Parse(a).rest + b).frames, Parse(Parse(a).rest + b).rest)
    decreases |a|
  {
    if a == [] {
      assert a + b == b;
    } else if Undecided(a) {
    } else if StartsFrame(a) {
      var n := DeclaredLen(a);
      assert (a + b)[..n] == a[..n] && (a + b)[n..] == a[n..] + b;
      ParseAppend(a[n..], b);
    } else {
      assert (a + b)[1..] == a[1..] + b;
      ParseAppend(a[1..], b);
    }
  }

  /** Successive calls, one per received chunk, with the carry in between. */
  function Feed(carry: seq<byte>, chunks: seq<seq<byte>>): Parsed
    decreases chunks
  {
    if chunks == [] then Parsed([], carry)
    else
      var p := Parse(carry + chunks[0]);
      var q := Feed(p.rest, chunks[1..]);
      Parsed(p.frames + q.frames, q.rest)
  }

  /** However a stream is cut into chunks, the frames and the final carry are those of one call on all of it. */
  lemma {:induction false} ChunkingInvariance(carry: seq<byte>, chunks: seq<seq<byte>>)
    requires Parse(carry) == Parsed([], carry)
    ensures Feed(carry, chunks) == Parse(carry + Flatten(chunks))
    decreases chunks
  {
    if chunks == [] {
      assert carry + Flatten(chunks) == carry;
    } else {
      var s, more := carry + chunks[0], Flatten(chunks[1..]);
      RestIsPending(s);
      ChunkingInvariance(Parse(s).rest, chunks[1..]);
      ParseAppend(s, more);
      assert carry + Flatten(chunks) == s + more;
    }
  }

  // ----- the greedy reading -----

  ghost predicate StartsAt(s: seq<byte>, i: int) {
    0 <= i <= |s| && StartsFrame(s[i..])
  }

  function EndAt(s: seq<byte>, i: nat): nat
    requires i <= |s| && StartsFrame(s[i..])
  {
    i + DeclaredLen(s[i..])
  }

  /** Position `j` holds neither a complete frame nor the start of one that might still complete. */
  ghost predicate Noise(s: seq<byte>, j: int) {
    0 <= j < |s| && !StartsFrame(s[j..]) && !Undecided(s[j..])
  }

  /**
   `starts` are the leftmost non-overlapping frames of `s[from..pending]`: each is a frame, every position
   outside them is noise, and `pending` is the end of `s` or the first head that cannot be judged yet.
   */
  ghost predicate Greedy(s: seq<byte>, from: nat, starts: seq<nat>, pending: nat)
    decreases starts
  {
    && from <= pending <= |s|
    && if starts == [] then
         (pending == |s| || Undecided(s[pending..])) && forall j :: from <= j < pending ==> Noise(s, j)
       else
         && from <= starts[0] && StartsAt(s, starts[0])
         && (forall j :: from <= j < starts[0] ==> Noise(s, j))
         && Greedy(s, EndAt(s, starts[0]), starts[1..], pending)
  }

  ghost predicate FrameStarts(s: seq<byte>, starts: seq<nat>) {
    forall k :: 0 <= k < |starts| ==> StartsAt(s, starts[k])
  }

  ghost function Windows(s: seq<byte>, starts: seq<nat>): seq<seq<byte>>
    requires FrameStarts(s, starts)
  {
    if starts == [] then []
    else [s[starts[0]..EndAt(s, starts[0])]] + Windows(s, starts[1..])
  }

  lemma {:induction false} GreedyStarts(s: seq<byte>, from: nat, starts: seq<nat>, pending: nat)
    requires Greedy(s, from, starts, pending)
    ensures FrameStarts(s, starts)
    decreases starts
  {
    if starts != [] {
      GreedyStarts(s, EndAt(s, starts[0]), starts[1..], pending);
    }
  }

  /** Skipping noise in front changes nothing. */
  lemma {:induction false} SkipNoise(s: seq<byte>, from: nat, stop: nat)
    requires from <= stop <= |s| && forall j :: from <= j < stop ==> Noise(s, j)
    ensures Parse(s[from..]) == Parse(s[stop..])
    decreases stop - from
  {
    if from < stop {
      assert Noise(s, from);
      assert s[from..][1..] == s[from + 1..];
      SkipNoise(s, from + 1, stop);
    }
  }

  lemma ParseAt(s: seq<byte>, i: nat)
    requires StartsAt(s, i)
    ensures var p := Parse(s[EndAt(s, i)..]); Parse(s[i..]) == Parsed([s[i..EndAt(s, i)]] + p.frames, p.rest)
  {
    var tail := s[i..];
    assert tail[DeclaredLen(tail)..] == s[EndAt(s, i)..] && tail[..DeclaredLen(tail)] == s[i..EndAt(s, i)];
  }

  /** Any greedy reading of a stream is the one the parser takes. */
  lemma {:induction false} GreedyIsParse(s: seq<byte>, from: nat, starts: seq<nat>, pending: nat)
    requires Greedy(s, from, starts, pending)
    ensures FrameStarts(s, starts)
    ensures Parse(s[from..]) == Parsed(Windows(s, starts), s[pending..])
    decreases starts
  {
    GreedyStarts(s, from, starts, pending);
    if starts == [] {
      SkipNoise(s, from, pending);
    } else {
      SkipNoise(s, from, starts[0]);
      GreedyIsParse(s, EndAt(s, starts[0]), starts[1..], pending);
      ParseAt(s, starts[0]);
    }
  }

  /** Every stream has a greedy reading. */
  lemma {:induction false} GreedyExists(s: seq<byte>, from: nat) returns (starts: seq<nat>, pending: nat)
    requires from <= |s|
    ensures Greedy(s, from, starts, pending)
    decreases |s| - from
  {
    if from == |s| || Undecided(s[from..]) {
      return [], from;
    } else if StartsFrame(s[from..]) {
      var later;
      later, pending := GreedyExists(s, EndAt(s, from));
      starts := [from] + later;
      assert starts[1..] == later;
    } else {
      starts, pending := GreedyExists(s, from + 1);
      NoiseInFront(s, from, starts, pending);
    }
  }

  /** A stream has only one greedy reading. */
  lemma {:induction false} GreedyUnique(
    s: seq<byte>, from: nat, starts: seq<nat>, pending: nat, starts': seq<nat>, pending': nat)
    requires Greedy(s, from, starts, pending) && Greedy(s, from, starts', pending')
    ensures starts == starts' && pending == pending'
    decreases starts
  {
    var first := if starts == [] then pending else starts[0];
    var first' := if starts' == [] then pending' else starts'[0];
    assert first < first' ==> Noise(s, first);
    assert first' < first ==> Noise(s, first');
    if starts != [] && starts' != [] {
      GreedyUnique(s, EndAt(s, starts[0]), starts[1..], pending, starts'[1..], pending');
      assert starts == [starts[0]] + starts[1..] && starts' == [starts'[0]] + starts'[1..];
    }
  }

  lemma NoiseInFront(s: seq<byte>, from: nat, starts: seq<nat>, pending: nat)
    requires Noise(s, from) && Greedy(s, from + 1, starts, pending)
    ensures Greedy(s, from, starts, pending)
  {
  }

  /**
   Every complete frame in the stream is emitted, is overlapped by an emitted frame that starts earlier,
   or lies at or after the pending head.
   */
  lemma {:induction false} EveryWindowAccountedFor(s: seq<byte>, from: nat, starts: seq<nat>, pending: nat, i: nat)
    requires Greedy(s, from, starts, pending) && from <= i && StartsAt(s, i)
    ensures FrameStarts(s, starts)
    ensures i in starts || i >= pending || exists k :: 0 <= k < |starts| && starts[k] < i < EndAt(s, starts[k])
    decreases starts
  {
    GreedyStarts(s, from, starts, pending);
    assert i < (if starts == [] then pending else starts[0]) ==> Noise(s, i);
    if starts != [] && i >= EndAt(s, starts[0]) {
      EveryWindowAccountedFor(s, EndAt(s, starts[0]), starts[1..], pending, i);
      if i !in starts[1..] && i < pending {
        var k :| 0 <= k < |starts[1..]| && starts[1..][k] < i < EndAt(s, starts[1..][k]);
        assert starts[k + 1] == starts[1..][k];
      }
    }
  }

  // ----- printing and parsing -----

  /** What `FrameInit` writes around a payload. */
  function Print(code: byte, payload: seq<byte>): seq<byte> {
    var n := |payload| + 5;
    [HEAD, (n / 256 % 256) as byte, (n % 256) as byte, code] + payload + [TAIL]
  }

  lemma PrintIsFrame(code: byte, payload: seq<byte>)
    requires |payload| + 5 <= LEN_MAX
    ensures IsFrame(Print(code, payload))
  {
  }

  /** Frames one after the other, with `noise[k]` before frame `k` and the rest of the noise at the end. */
  function Interleave(noise: seq<seq<byte>>, frames: seq<seq<byte>>): seq<byte>
    requires |noise| == |frames| + 1
    decreases frames
  {
    if frames == [] then noise[0] else noise[0] + frames[0] + Interleave(noise[1..], frames[1..])
  }

  lemma {:induction false} ParseNoise(noise: seq<byte>, s: seq<byte>)
    requires HEAD !in noise
    ensures Parse(noise + s) == Parse(s)
    decreases |noise|
  {
    if noise == [] {
      assert noise + s == s;
    } else {
      assert noise[0] != HEAD;
      assert (noise + s)[1..] == noise[1..] + s;
      ParseNoise(noise[1..], s);
    }
  }

  lemma ParseFrame(f: seq<byte>, s: seq<byte>)
    requires IsFrame(f)
    ensures Parse(f + s) == Parsed([f] + Parse(s).frames, Parse(s).rest)
  {
    assert (f + s)[..|f|] == f && (f + s)[|f|..] == s;
  }

  /**
   The parser returns exactly the frames that were sent, whatever bytes they carry and whatever noise lies between.
   */
  lemma {:induction false} RoundTrip(noise: seq<seq<byte>>, frames: seq<seq<byte>>)
    requires |noise| == |frames| + 1
    requires AllFrames(frames) && forall k :: 0 <= k < |noise| ==> HEAD !in noise[k]
    ensures Parse(Interleave(noise, frames)) == Parsed(frames, [])
    decreases frames
  {
    if frames == [] {
      ParseNoise(noise[0], []);
      assert noise[0] + [] == noise[0];
    } else {
      var more := Interleave(noise[1..], frames[1..]);
      assert frames[0] in frames;
      RoundTrip(noise[1..], frames[1..]);
      ParseFrame(frames[0], more);
      ParseNoise(noise[0], frames[0] + more);
      assert Interleave(noise, frames) == noise[0] + (frames[0] + more);
      assert [frames[0]] + frames[1..] == frames;
    }
  }

  /** The round trip through any chunking, for frames printed from codes and payloads. */
  lemma ChunkedRoundTrip(noise: seq<seq<byte>>, frames: seq<seq<byte>>, chunks: seq<seq<byte>>)
    requires |noise| == |frames| + 1
    requires AllFrames(frames) && forall k :: 0 <= k < |noise| ==> HEAD !in noise[k]
    requires Flatten(chunks) == Interleave(noise, frames)
    ensures Feed([], chunks) == Parsed(frames, [])
  {
    RoundTrip(noise, frames);
    ChunkingInvariance([], chunks);
    assert [] + Flatten(chunks) == Flatten(chunks);
  }

  // ----- a stream of frames that stops anywhere -----

  /** How many of the frames lie wholly within the first `k` bytes. */
  function Whole(frames: seq<seq<byte>>, k: nat): (n: nat)
    ensures n <= |frames|
    decreases frames
  {
    if frames == [] || k < |frames[0]| then 0 else 1 + Whole(frames[1..], k - |frames[0]|)
  }

  lemma FramePrefix(f: seq<byte>, k: nat)
    requires IsFrame(f) && k < |f|
    ensures Parse(f[..k]) == Parsed([], f[..k])
  {
    assert k > 0 ==> Undecided(f[..k]);
  }

  /** Cut anywhere, a concatenation of frames parses to the frames wholly received, and nothing else. */
  lemma {:induction false} CutStream(frames: seq<seq<byte>>, k: nat)
    requires AllFrames(frames) && k <= |Flatten(frames)|
    ensures Parse(Flatten(frames)[..k]).frames == frames[..Whole(frames, k)]
    decreases frames
  {
    if frames != [] {
      var f := frames[0];
      assert f in frames;
      if k < |f| {
        FramePrefix(f, k);
        assert Flatten(frames)[..k] == f[..k];
      } else {
        var more := Flatten(frames[1..]);
        CutStream(frames[1..], k - |f|);
        ParseFrame(f, more[..k - |f|]);
        assert Flatten(frames)[..k] == f + more[..k - |f|];
        assert frames[..Whole(frames, k)] == [f] + frames[1..][..Whole(frames[1..], k - |f|)];
      }
    }
  }
}
