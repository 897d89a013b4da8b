/** Newline framing of the PiP socket protocol (lcode-cua/pip-session-server.js, pip-session-node.js). */
module PipFraming {
  import opened Common

  type Byte = b: int | 0 <= b < 256

  const NEWLINE: Byte := 10
  const MAX_FRAME_BYTES: nat := 1024 * 1024

  /******* The stream as a whole *******/

  /** Index of the first newline, or the length when there is none. */
  function FirstNewline(s: seq<Byte>): (n: nat)
    ensures n <= |s|
    ensures forall i :: 0 <= i < n ==> s[i] != NEWLINE
    ensures n < |s| ==> s[n] == NEWLINE
  {
    if s == [] || s[0] == NEWLINE then 0 else 1 + FirstNewline(s[1..])
  }

  /** All newline-terminated lines of a stream, empty ones included. */
  function Lines(s: seq<Byte>): seq<seq<Byte>>
    decreases |s|
  {
    var n := FirstNewline(s);
    if n == |s| then [] else [s[..n]] + Lines(s[n + 1..])
  }

  /** What follows the last newline. */
  function Remainder(s: seq<Byte>): (r: seq<Byte>)
    ensures |r| <= |s|
    decreases |s|
  {
    var n := FirstNewline(s);
    if n == |s| then s else Remainder(s[n + 1..])
  }

  function Joined(lines: seq<seq<Byte>>): seq<Byte> {
    if lines == [] then [] else lines[0] + [NEWLINE] + Joined(lines[1..])
  }

  /** The lines before the first one that is too long. */
  function WithinLimit(lines: seq<seq<Byte>>): seq<seq<Byte>> {
    if lines == [] || |lines[0]| > MAX_FRAME_BYTES then [] else [lines[0]] + WithinLimit(lines[1..])
  }

  function NonEmpty(lines: seq<seq<Byte>>): seq<seq<Byte>> {
    if lines == [] then []
    else (if lines[0] == [] then [] else [lines[0]]) + NonEmpty(lines[1..])
  }

  /******* What the receiver extracts from its buffer *******/

  datatype Framed = Framed(frames: seq<seq<Byte>>, rest: seq<Byte>, failed: bool)

  function Extract(buffer: seq<Byte>): Framed
    decreases |buffer|
  {
    var n := FirstNewline(buffer);
    if n > MAX_FRAME_BYTES then Framed([], buffer, true)
    else if n == |buffer| then Framed([], buffer, false)
    else
      var more := Extract(buffer[n + 1..]);
      more.(frames := (if n == 0 then [] else [buffer[..n]]) + more.frames)
  }

  function Feed(state: Framed, chunk: seq<Byte>): Framed {
    if state.failed then state
    else
      var more := Extract(state.rest + chunk);
      more.(frames := state.frames + more.frames)
  }

  function FeedAll(state: Framed, chunks: seq<seq<Byte>>): Framed
    decreases |chunks|
  {
    if chunks == [] then state else FeedAll(Feed(state, chunks[0]), chunks[1..])
  }

  function Concat(chunks: seq<seq<Byte>>): seq<Byte> {
    if chunks == [] then [] else chunks[0] + Concat(chunks[1..])
  }

  /******* Implementation *******/

  class Receiver {
    var buffer: seq<Byte>
    var closed: bool

    constructor ()
      ensures buffer == [] && !closed
    {
      buffer, closed := [], false;
    }

    /** The data handler: returns the non-empty frames completed by this chunk, up to a first error. */
    method OnData(chunk: seq<Byte>) returns (frames: seq<seq<Byte>>)
      modifies this
      ensures Feed(Framed([], old(buffer), old(closed)), chunk) == Framed(frames, buffer, closed)
    {
      frames := [];
      if closed {
        return;
      }
      buffer := buffer + chunk;
      ghost var whole := Extract(buffer);
      AppendLaws(whole.frames, [], []);
      while true
        invariant !closed
        invariant whole == Extract(buffer).(frames := frames + Extract(buffer).frames)
        decreases |buffer|
      {
        var newline := IndexOfNewline(buffer);
        AppendLaws(frames, [], []);
        if newline.None? {
          if |buffer| > MAX_FRAME_BYTES {
            closed := true;
          }
          return;
        }
        if newline.value > MAX_FRAME_BYTES {
          closed := true;
          return;
        }
        var line := buffer[..newline.value];
        buffer := buffer[newline.value + 1..];
        if |line| == 0 {
          AppendLaws(Extract(buffer).frames, [], []);
          continue;
        }
        AppendLaws(frames, [line], Extract(buffer).frames);
        frames := frames + [line];
      }
    }
  }

  method IndexOfNewline(s: seq<Byte>) returns (r: Option<nat>)
    ensures r == if FirstNewline(s) == |s| then None else Some(FirstNewline(s))
  {
    for i := 0 to |s|
      invariant forall k :: 0 <= k < i ==> s[k] != NEWLINE
    {
      if s[i] == NEWLINE {
        return Some(i);
      }
    }
    return None;
  }

  /******* Results *******/

  /** Lines and remainder are the stream, cut at every newline. */
  lemma LinesPartition(s: seq<Byte>)
    ensures Joined(Lines(s)) + Remainder(s) == s
    ensures forall line :: line in Lines(s) ==> NEWLINE !in line
    ensures NEWLINE !in Remainder(s)
  {
    LinesRejoin(s);
    LinesHaveNoNewline(s);
  }

  lemma {:induction false} LinesRejoin(s: seq<Byte>)
    ensures Joined(Lines(s)) + Remainder(s) == s
    decreases |s|
  {
    var n := FirstNewline(s);
    if n < |s| {
      hide Joined, FirstNewline;
      LinesStep(s, n);
      LinesRejoin(s[n + 1..]);
      hide Lines, Remainder;
      JoinedStep(s[..n], Lines(s[n + 1..]));
      Glue(s, n, Joined(Lines(s[n + 1..])), Remainder(s[n + 1..]));
    }
  }

  lemma Glue(s: seq<Byte>, n: nat, joined: seq<Byte>, remainder: seq<Byte>)
    requires n < |s| && s[n] == NEWLINE && joined + remainder == s[n + 1..]
    ensures s[..n] + [NEWLINE] + joined + remainder == s
  {
    AppendLaws(s[..n] + [NEWLINE], joined, remainder);
  }

  lemma {:induction false} LinesHaveNoNewline(s: seq<Byte>)
    ensures forall line :: line in Lines(s) ==> NEWLINE !in line
    ensures NEWLINE !in Remainder(s)
    decreases |s|
  {
    var n := FirstNewline(s);
    if n < |s| {
      LinesHaveNoNewline(s[n + 1..]);
      LinesStep(s, n);
      hide Lines, Remainder;
      assert NEWLINE !in s[..n];
    }
  }

  lemma LinesStep(s: seq<Byte>, n: nat)
    requires n == FirstNewline(s) < |s|
    ensures Lines(s) == [s[..n]] + Lines(s[n + 1..]) && Remainder(s) == Remainder(s[n + 1..])
  {
    hide FirstNewline, Lines, Remainder;
    LinesUnfold(s, n);
    RemainderUnfold(s, n);
  }

  lemma LinesUnfold(s: seq<Byte>, n: nat)
    requires n == FirstNewline(s) && n != |s|
    ensures Lines(s) == [s[..n]] + Lines(s[n + 1..])
  {
    hide FirstNewline, Remainder;
  }

  lemma RemainderUnfold(s: seq<Byte>, n: nat)
    requires n == FirstNewline(s) && n != |s|
    ensures Remainder(s) == Remainder(s[n + 1..])
  {
    hide FirstNewline, Lines;
  }

  lemma JoinedStep(line: seq<Byte>, lines: seq<seq<Byte>>)
    ensures Joined([line] + lines) == line + [NEWLINE] + Joined(lines)
  {
    assert ([line] + lines)[1..] == lines;
  }

  /** Extraction in terms of the lines: the non-empty ones up to the first that is too long. */
  lemma {:induction false} ExtractedLines(s: seq<Byte>)
    ensures Extract(s).frames == NonEmpty(WithinLimit(Lines(s)))
    ensures Extract(s).failed <==> WithinLimit(Lines(s)) != Lines(s) || |Remainder(s)| > MAX_FRAME_BYTES
    ensures !Extract(s).failed ==> Extract(s).rest == Remainder(s)
    decreases |s|
  {
    var n := FirstNewline(s);
    if n < |s| {
      ExtractedLines(s[n + 1..]);
      LinesStep(s, n);
      var lines := Lines(s);
      assert lines[0] == s[..n] && lines[1..] == Lines(s[n + 1..]);
      if n <= MAX_FRAME_BYTES {
        var within := WithinLimit(lines[1..]);
        assert WithinLimit(lines) == [lines[0]] + within;
        assert ([lines[0]] + within)[1..] == within;
        assert lines == [lines[0]] + lines[1..];
        assert WithinLimit(lines) == lines <==> within == lines[1..];
      }
    }
  }

  lemma {:induction false} FirstNewlineOfConcat(a: seq<Byte>, b: seq<Byte>)
    ensures FirstNewline(a + b) == if FirstNewline(a) < |a| then FirstNewline(a) else |a| + FirstNewline(b)
    decreases |a|
  {
    if a == [] {
      assert a + b == b;
    } else {
      assert (a + b)[1..] == a[1..] + b;
      FirstNewlineOfConcat(a[1..], b);
    }
  }

  lemma ExtractStep(s: seq<Byte>, n: nat)
    requires n == FirstNewline(s) < |s| && n <= MAX_FRAME_BYTES
    ensures Extract(s) == Extract(s[n + 1..]).(frames := FrameOf(s[..n]) + Extract(s[n + 1..]).frames)
  {
    FrameAt(s, n);
    hide FirstNewline, FrameOf;
  }

  lemma FrameAt(s: seq<Byte>, n: nat)
    requires n < |s|
    ensures FrameOf(s[..n]) == if n == 0 then [] else [s[..n]]
  {
  }

  function FrameOf(line: seq<Byte>): seq<seq<Byte>> {
    if line == [] then [] else [line]
  }

  /** Extracting from the front first and resuming with the rest changes nothing. */
  lemma {:induction false} ExtractInTwo(a: seq<Byte>, b: seq<Byte>)
    ensures Extract(a + b).frames == Feed(Extract(a), b).frames
    ensures Extract(a + b).failed == Feed(Extract(a), b).failed
    ensures !Extract(a + b).failed ==> Extract(a + b).rest == Feed(Extract(a), b).rest
    decreases |a|
  {
    var n := FirstNewline(a);
    FirstNewlineOfConcat(a, b);
    if n < |a| && n <= MAX_FRAME_BYTES {
      hide Extract, FirstNewline;
      var tail := a[n + 1..];
      ExtractStep(a, n);
      ExtractStep(a + b, n);
      DropFront(a, b, n);
      ExtractInTwo(tail, b);
      var inner := Extract(tail);
      AppendLaws(FrameOf(a[..n]), inner.frames, Extract(inner.rest + b).frames);
    } else if n <= MAX_FRAME_BYTES {
      AppendLaws(Extract(a + b).frames, [], []);
    }
  }

  lemma DropFront(a: seq<Byte>, b: seq<Byte>, n: nat)
    requires n < |a|
    ensures (a + b)[n + 1..] == a[n + 1..] + b && (a + b)[..n] == a[..n]
  {
  }

  lemma {:induction false} FeedAllIsExtract(done: seq<Byte>, chunks: seq<seq<Byte>>, state: Framed)
    requires state.frames == Extract(done).frames && state.failed == Extract(done).failed
    requires !state.failed ==> state.rest == Extract(done).rest
    ensures
      var all, fed := Extract(done + Concat(chunks)), FeedAll(state, chunks);
      fed.frames == all.frames && fed.failed == all.failed && (!fed.failed ==> fed.rest == all.rest)
    decreases |chunks|
  {
    if chunks == [] {
      AppendLaws(done, [], []);
    } else {
      ExtractInTwo(done, chunks[0]);
      AppendLaws(done, chunks[0], Concat(chunks[1..]));
      FeedAllIsExtract(done + chunks[0], chunks[1..], Feed(state, chunks[0]));
    }
  }

  /**
   * However a stream is cut into chunks, the frames up to the first error are the non-empty lines of the
   * whole stream before the first over-long one, and the error is raised exactly when there is such a
   * line or the unfinished remainder is over-long.
   */
  lemma ChunkingIsInvisible(chunks: seq<seq<Byte>>)
    ensures
      var s, fed := Concat(chunks), FeedAll(Framed([], [], false), chunks);
      && fed.frames == NonEmpty(WithinLimit(Lines(s)))
      && (fed.failed <==> WithinLimit(Lines(s)) != Lines(s) || |Remainder(s)| > MAX_FRAME_BYTES)
      && (!fed.failed ==> fed.rest == Remainder(s))
  {
    var s := Concat(chunks);
    assert Extract([]) == Framed([], [], false);
    FeedAllIsExtract([], chunks, Framed([], [], false));
    AppendLaws(s, [], []);
    ExtractedLines(s);
  }
}
