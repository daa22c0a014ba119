/** Line framing over a byte stream (src/jsonl.rs read_bounded_frame). A read may
    be abandoned at any byte: the partial frame stays with the reader, and the
    next read goes on at the exact byte. */
module Framing {

  const MAX_FRAME_LEN := 1048576
  const NEWLINE: Byte := 10

  type Byte = x: int | 0 <= x < 256

  predicate NewlineFree(s: seq<Byte>) {
    NEWLINE !in s
  }

  // ---------------------------------------------------------------------------
  // What the stream holds from a line start on.

  /** The number of bytes before the first newline, or to the end. */
  function Run(s: seq<Byte>): (n: nat)
    ensures n <= |s|
  {
    if s == [] || s[0] == NEWLINE then 0 else 1 + Run(s[1..])
  }

  lemma {:induction false} RunStops(s: seq<Byte>)
    ensures NewlineFree(s[..Run(s)])
    ensures Run(s) < |s| ==> s[Run(s)] == NEWLINE
  {
    if s != [] && s[0] != NEWLINE {
      RunStops(s[1..]);
      assert s[..Run(s)] == [s[0]] + s[1..][..Run(s[1..])];
    }
  }

  lemma {:induction false} RunIs(s: seq<Byte>, n: nat)
    requires n <= |s| && NewlineFree(s[..n])
    ensures n <= Run(s)
    ensures n < |s| && s[n] == NEWLINE ==> Run(s) == n
    ensures n == |s| ==> Run(s) == n
  {
    if n > 0 {
      assert s[..n][0] == s[0];
      assert s[1..][..n - 1] == s[..n][1..];
      RunIs(s[1..], n - 1);
    }
  }

  datatype Result = Frame(bytes: seq<Byte>) | End | Oversized | Abandoned

  /** The next result from a line start on, and where reading stops. */
  function Next(s: seq<Byte>): (Result, nat) {
    var n := Run(s);
    if n >= MAX_FRAME_LEN then (Oversized, if MAX_FRAME_LEN < |s| then MAX_FRAME_LEN + 1 else MAX_FRAME_LEN)
    else if n < |s| then (Frame(s[..n + 1]), n + 1)
    else if n == 0 then (End, 0)
    else (Frame(s), n)
  }

  // ---------------------------------------------------------------------------
  // All frames of a stream.

  datatype Reading = Reading(frames: seq<seq<Byte>>, oversized: bool)

  function Frames(s: seq<Byte>): Reading
    decreases |s|
  {
    match Next(s)
    case (Frame(bytes), n) =>
      var rest := Frames(s[n..]);
      Reading([bytes] + rest.frames, rest.oversized)
    case (r, _) => Reading([], r.Oversized?)
  }

  function Flatten(frames: seq<seq<Byte>>): seq<Byte> {
    if frames == [] then [] else frames[0] + Flatten(frames[1..])
  }

  /** A non-empty piece with a newline at its end, and nowhere else. */
  ghost predicate IsLine(l: seq<Byte>) {
    l != [] && l[|l| - 1] == NEWLINE && NewlineFree(l[..|l| - 1])
  }

  /** The lines of a text: each ends with its newline, except possibly the last. */
  ghost predicate IsLines(lines: seq<seq<Byte>>) {
    if lines == [] then true
    else if |lines| == 1 then IsLine(lines[0]) || (lines[0] != [] && NewlineFree(lines[0]))
    else IsLine(lines[0]) && IsLines(lines[1..])
  }

  lemma FirstLine(lines: seq<seq<Byte>>)
    requires IsLines(lines) && lines != []
    ensures var s := Flatten(lines);
            && s != []
            && lines[0] == (if Run(s) < |s| then s[..Run(s) + 1] else s)
            && Flatten(lines[1..]) == s[|lines[0]|..] && IsLines(lines[1..])
  {
    var s, l := Flatten(lines), lines[0];
    if IsLine(l) {
      assert s[..|l| - 1] == l[..|l| - 1] && s[|l| - 1] == l[|l| - 1];
      RunIs(s, |l| - 1);
      assert s[..|l|] == l;
    } else {
      assert s == l && s[..|l|] == l;
      RunIs(s, |l|);
    }
  }

  /** There is only one way to split a text into lines. */
  lemma {:induction false} LinesAreUnique(a: seq<seq<Byte>>, b: seq<seq<Byte>>)
    requires IsLines(a) && IsLines(b) && Flatten(a) == Flatten(b)
    ensures a == b
  {
    if a == [] {
      if b != [] { FirstLine(b); }
    } else {
      FirstLine(a);
      if b != [] {
        FirstLine(b);
        LinesAreUnique(a[1..], b[1..]);
        assert a == [a[0]] + a[1..] && b == [b[0]] + b[1..];
      }
    }
  }

  /** `MAX_FRAME_LEN` bytes from `i` on without a newline. */
  ghost predicate LongFrom(s: seq<Byte>, i: int) {
    0 <= i && i + MAX_FRAME_LEN <= |s| && NewlineFree(s[i..i + MAX_FRAME_LEN])
  }

  ghost predicate LongLine(s: seq<Byte>) {
    exists i :: LongFrom(s, i)
  }

  lemma NewlineInside(s: seq<Byte>, i: int, n: nat)
    requires n < |s| && s[n] == NEWLINE
    ensures LongFrom(s, i) ==> !(i <= n < i + MAX_FRAME_LEN)
  {
    if 0 <= i <= n < i + MAX_FRAME_LEN <= |s| { assert s[i..i + MAX_FRAME_LEN][n - i] == s[n]; }
  }

  lemma LongFromLater(s: seq<Byte>, n: nat, i: int)
    requires n < |s| && n < MAX_FRAME_LEN && s[n] == NEWLINE
    ensures LongFrom(s[n + 1..], i) ==> LongFrom(s, i + n + 1)
    ensures LongFrom(s, i) ==> LongFrom(s[n + 1..], i - n - 1)
  {
    if LongFrom(s[n + 1..], i) { assert s[i + n + 1..i + n + 1 + MAX_FRAME_LEN] == s[n + 1..][i..i + MAX_FRAME_LEN]; }
    if LongFrom(s, i) {
      NewlineInside(s, i, n);
      assert s[n + 1..][i - n - 1..i - n - 1 + MAX_FRAME_LEN] == s[i..i + MAX_FRAME_LEN];
    }
  }

  lemma LongLineLater(s: seq<Byte>, n: nat)
    requires n < |s| && n < MAX_FRAME_LEN && s[n] == NEWLINE
    ensures LongLine(s) <==> LongLine(s[n + 1..])
  {
    if LongLine(s) {
      var i :| LongFrom(s, i);
      LongFromLater(s, n, i);
    }
    if LongLine(s[n + 1..]) {
      var i :| LongFrom(s[n + 1..], i);
      LongFromLater(s, n, i);
    }
  }

  /** Reading a stream fails as oversized exactly if some line of it runs for
      `MAX_FRAME_LEN` bytes without a newline. */
  lemma {:induction false} OversizedExactly(s: seq<Byte>)
    ensures Frames(s).oversized <==> LongLine(s)
    decreases |s|
  {
    var n := Run(s);
    RunStops(s);
    if n >= MAX_FRAME_LEN {
      assert s[0..0 + MAX_FRAME_LEN] == s[..n][..MAX_FRAME_LEN];
      assert LongFrom(s, 0);
    } else if n < |s| {
      LongLineLater(s, n);
      OversizedExactly(s[n + 1..]);
    } else if n > 0 {
      OversizedExactly(s[n..]);
    }
  }

  /** Unless it fails, reading a stream splits it into its lines: no byte lost,
      repeated or reordered, none longer than the limit. */
  lemma {:induction false} FramesAreLines(s: seq<Byte>)
    requires !Frames(s).oversized
    ensures Flatten(Frames(s).frames) == s && IsLines(Frames(s).frames)
    ensures forall l :: l in Frames(s).frames ==> |l| <= MAX_FRAME_LEN
    decreases |s|
  {
    var n := Run(s);
    RunStops(s);
    if n < |s| {
      var rest := s[n + 1..];
      FramesAreLines(rest);
      assert s[..n + 1][..n] == s[..n];
      assert IsLine(s[..n + 1]);
      assert ([s[..n + 1]] + Frames(rest).frames)[1..] == Frames(rest).frames;
      assert s == s[..n + 1] + rest;
    } else if n > 0 {
      assert s[..n] == s && s[n..] == [];
      assert Frames(s).frames == [s];
      assert [s][1..] == [];
    }
  }

  /** Before a failure, the frames are the lines of what came before, and the
      line that fails starts right after them. */
  lemma {:induction false} FramesBeforeFailure(s: seq<Byte>)
    requires Frames(s).oversized
    ensures var done := Flatten(Frames(s).frames); done <= s && Run(s[|done|..]) >= MAX_FRAME_LEN
    ensures forall l :: l in Frames(s).frames ==> IsLine(l) && |l| <= MAX_FRAME_LEN
    decreases |s|
  {
    var n := Run(s);
    if n < MAX_FRAME_LEN {
      FramesBeforeFailure(s[n + 1..]);
      FirstFrame(s);
      var rest := Frames(s[n + 1..]).frames;
      assert ([s[..n + 1]] + rest)[1..] == rest;
      Regroup(s, n + 1, Flatten(rest));
    } else {
      assert s[0..] == s;
    }
  }

  lemma FirstFrame(s: seq<Byte>)
    requires Run(s) < |s|
    ensures IsLine(s[..Run(s) + 1])
  {
    RunStops(s);
    assert s[..Run(s) + 1][..Run(s)] == s[..Run(s)];
  }

  lemma Regroup(s: seq<Byte>, n: nat, done: seq<Byte>)
    requires n <= |s| && done <= s[n..]
    ensures s[..n] + done <= s && s[|s[..n] + done|..] == s[n..][|done|..]
  {
  }

  // ---------------------------------------------------------------------------
  // The reader.

  /** What was returned, and what is still to come, are the frames of the stream. */
  ghost predicate Tracks(stream: seq<Byte>, start: nat, returned: seq<seq<Byte>>)
    requires start <= |stream|
  {
    && Frames(stream).frames == returned + Frames(stream[start..]).frames
    && Frames(stream).oversized == Frames(stream[start..]).oversized
  }

  /** `frame` is the newline-free beginning of the line at `start`. */
  ghost predicate Partial(stream: seq<Byte>, start: int, pos: nat, frame: seq<Byte>) {
    && 0 <= start <= pos <= |stream| && frame == stream[start..pos]
    && NewlineFree(frame) && |frame| <= MAX_FRAME_LEN
  }

  lemma PartialRun(stream: seq<Byte>, start: nat, pos: nat, frame: seq<Byte>)
    requires Partial(stream, start, pos, frame)
    ensures Run(stream[start..]) >= |frame|
    ensures pos == |stream| ==> Run(stream[start..]) == |frame| == |stream[start..]|
    ensures pos < |stream| && stream[pos] == NEWLINE ==> Run(stream[start..]) == |frame|
  {
    assert stream[start..][..|frame|] == frame;
    RunIs(stream[start..], |frame|);
  }

  lemma PartialGrows(stream: seq<Byte>, start: nat, pos: nat, frame: seq<Byte>)
    requires Partial(stream, start, pos, frame) && pos < |stream| && |frame| < MAX_FRAME_LEN
    ensures stream[pos] != NEWLINE ==> Partial(stream, start, pos + 1, frame + [stream[pos]])
    ensures stream[pos] == NEWLINE ==> Next(stream[start..]) == (Frame(frame + [NEWLINE]), |frame| + 1)
  {
    PartialRun(stream, start, pos, frame);
    var rest := stream[start..];
    assert rest[..|frame|] == frame && rest[|frame|] == stream[pos];
    assert frame + [stream[pos]] == rest[..|frame| + 1];
  }

  lemma PartialOverflows(stream: seq<Byte>, start: nat, pos: nat, frame: seq<Byte>)
    requires Partial(stream, start, pos, frame) && pos < |stream| && |frame| == MAX_FRAME_LEN
    ensures Next(stream[start..]) == (Oversized, |frame| + 1)
  {
    PartialRun(stream, start, pos, frame);
  }

  lemma NextFrame(s: seq<Byte>)
    requires Next(s).0.Frame?
    ensures var (r, n) := Next(s);
            && n <= |s| && Frames(s).oversized == Frames(s[n..]).oversized
            && Frames(s).frames == [r.bytes] + Frames(s[n..]).frames
  {
  }

  lemma TracksNext(stream: seq<Byte>, start: nat, returned: seq<seq<Byte>>, bytes: seq<Byte>)
    requires start + |bytes| <= |stream| && Tracks(stream, start, returned)
    requires Next(stream[start..]) == (Frame(bytes), |bytes|)
    ensures Tracks(stream, start + |bytes|, returned + [bytes])
  {
    NextFrame(stream[start..]);
    assert stream[start..][|bytes|..] == stream[start + |bytes|..];
    var later := Frames(stream[start + |bytes|..]).frames;
    assert returned + ([bytes] + later) == returned + [bytes] + later;
  }

  class Reader {
    const stream: seq<Byte>
    var pos: nat
    var frame: seq<Byte>
    ghost var returned: seq<seq<Byte>>
    ghost var failed: bool

    /** Where the line being read starts. */
    ghost function Start(): int
      reads this
    {
      pos - |frame|
    }

    ghost predicate Valid()
      reads this
    {
      Partial(stream, Start(), pos, frame) && (!failed ==> Tracks(stream, Start(), returned))
    }

    constructor (stream: seq<Byte>)
      ensures Valid() && this.stream == stream && returned == [] && !failed && Start() == 0
    {
      this.stream := stream;
      pos, frame, returned, failed := 0, [], [], false;
      new;
      assert stream[0..] == stream;
    }

    /** However often reading was abandoned before, the result is the one the
        stream has from the line start on, and abandoning loses nothing. */
    method ReadBoundedFrame() returns (r: Result)
      requires Valid()
      modifies this
      ensures Valid()
      ensures r.Abandoned? ==> Start() == old(Start()) && returned == old(returned) && failed == old(failed)
      ensures !r.Abandoned? ==> (r, Start() - old(Start())) == Next(stream[old(Start())..]) && frame == []
      ensures r.Frame? ==> returned == old(returned) + [r.bytes] && failed == old(failed)
      ensures r.Oversized? ==> failed && returned == old(returned)
      ensures r.End? ==> returned == old(returned) && failed == old(failed) && (!failed ==> returned == Frames(stream).frames)
    {
      ghost var start := Start();
      while true
        invariant Partial(stream, start, pos, frame) && Start() == start
        invariant returned == old(returned) && failed == old(failed)
        decreases |stream| - pos
      {
        var abandon: bool := *;
        if abandon { return Abandoned; }
        if pos == |stream| {
          r := AtEnd(start);
          return;
        }
        var byte := stream[pos];
        pos := pos + 1;
        if |frame| == MAX_FRAME_LEN {
          PartialOverflows(stream, start, pos - 1, frame);
          frame, failed := [], true;
          return Oversized;
        }
        PartialGrows(stream, start, pos - 1, frame);
        frame := frame + [byte];
        if byte == NEWLINE {
          r := Take(start);
          return;
        }
      }
    }

    method AtEnd(ghost start: nat) returns (r: Result)
      requires Partial(stream, start, pos, frame) && pos == |stream| && start == Start()
      requires !failed ==> Tracks(stream, start, returned)
      modifies this
      ensures Valid() && frame == [] && pos == old(pos) && (r, pos - start) == Next(stream[start..])
      ensures r.Frame? ==> returned == old(returned) + [r.bytes] && failed == old(failed)
      ensures r.Oversized? ==> failed && returned == old(returned)
      ensures r.End? ==> returned == old(returned) && failed == old(failed) && (!failed ==> returned == Frames(stream).frames)
      ensures !r.Abandoned?
    {
      PartialRun(stream, start, pos, frame);
      if |frame| == MAX_FRAME_LEN {
        frame, failed := [], true;
        return Oversized;
      }
      if frame == [] { return End; }
      assert frame == stream[start..];
      r := Take(start);
    }

    /** Hands out the complete frame. */
    method Take(ghost start: nat) returns (r: Result)
      requires start <= pos <= |stream| && start + |frame| == pos
      requires !failed ==> Tracks(stream, start, returned)
      requires Next(stream[start..]) == (Frame(frame), |frame|)
      modifies this`frame, this`returned
      ensures r == Frame(old(frame)) && frame == [] && returned == old(returned) + [r.bytes] && Valid()
    {
      if !failed { TracksNext(stream, start, returned, frame); }
      r := Frame(frame);
      returned := returned + [frame];
      frame := [];
    }
  }
}
