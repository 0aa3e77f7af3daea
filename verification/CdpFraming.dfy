/** The NUL-delimited framing of the browser pipe in sidecar/browser.go: the writer and the read loop. */
module CdpFraming {
  newtype byte = n: int | 0 <= n < 256

  type Bytes = seq<byte>

  const NUL: byte := 0

  predicate NulFree(s: Bytes) {
    NUL !in s
  }

  /** What sendOnTimeout puts on the wire: every message followed by its NUL. */
  function Wire(messages: seq<Bytes>): Bytes {
    if messages == [] then [] else messages[0] + [NUL] + Wire(messages[1..])
  }

  function Flatten(chunks: seq<Bytes>): Bytes {
    if chunks == [] then [] else chunks[0] + Flatten(chunks[1..])
  }

  /** The position of the first NUL, or the length if there is none. */
  function FirstNul(s: Bytes): (i: nat)
    ensures i <= |s|
    ensures forall j :: 0 <= j < i ==> s[j] != NUL
    ensures i < |s| ==> s[i] == NUL
  {
    if s == [] || s[0] == NUL then 0 else 1 + FirstNul(s[1..])
  }

  /** One read of ReadBytes: a frame counts when something besides its delimiter was read. */
  function Keep(frame: Bytes): seq<Bytes> {
    if frame == [] then [] else [frame]
  }

  /** What is left when the pipe fails: ReadBytes returns it without a delimiter, so one byte is too short. */
  function KeepTail(tail: Bytes): seq<Bytes> {
    if |tail| > 1 then [tail] else []
  }

  /** The messages in a byte stream, by the first delimiter. */
  function Frames(s: Bytes): seq<Bytes>
    decreases |s|
  {
    var i := FirstNul(s);
    if i == |s| then KeepTail(s) else Keep(s[..i]) + Frames(s[i + 1..])
  }

  lemma {:induction false} FirstNulAt(s: Bytes, t: Bytes)
    requires NulFree(s)
    ensures FirstNul(s + [NUL] + t) == |s|
  {
    assert (s + [NUL] + t)[|s|] == NUL;
    assert forall j :: 0 <= j < |s| ==> (s + [NUL] + t)[j] == s[j];
  }

  lemma {:induction false} FramesStep(s: Bytes, t: Bytes)
    requires NulFree(s)
    ensures Frames(s + [NUL] + t) == Keep(s) + Frames(t)
  {
    FirstNulAt(s, t);
    assert (s + [NUL] + t)[..|s|] == s;
    assert (s + [NUL] + t)[|s| + 1..] == t;
  }

  function NonEmpty(messages: seq<Bytes>): seq<Bytes> {
    if messages == [] then [] else Keep(messages[0]) + NonEmpty(messages[1..])
  }

  /** Reading what was written gives the messages back in order; only empty frames, and a stub of one byte, are lost. */
  lemma {:induction false} ReadsBackWhatWasWritten(messages: seq<Bytes>, tail: Bytes)
    requires forall m :: m in messages ==> NulFree(m)
    requires NulFree(tail)
    ensures Frames(Wire(messages) + tail) == NonEmpty(messages) + KeepTail(tail)
  {
    if messages == [] {
      assert Wire(messages) + tail == tail;
      assert FirstNul(tail) == |tail|;
    } else {
      ReadsBackWhatWasWritten(messages[1..], tail);
      assert Wire(messages) + tail == messages[0] + [NUL] + (Wire(messages[1..]) + tail);
      FramesStep(messages[0], Wire(messages[1..]) + tail);
    }
  }

  /** Every message of the protocol is non-empty, so none is lost. */
  lemma {:induction false} NonEmptyKeepsMessages(messages: seq<Bytes>)
    requires [] !in messages
    ensures NonEmpty(messages) == messages
  {
    if messages != [] {
      assert messages == [messages[0]] + messages[1..];
      NonEmptyKeepsMessages(messages[1..]);
    }
  }

  /** The first byte of what is still to be read ends the frame in progress or joins it. */
  lemma {:induction false} ByteStep(part: Bytes, s: Bytes)
    requires NulFree(part) && s != []
    ensures s[0] == NUL ==> Frames(part + s) == Keep(part) + Frames([] + s[1..])
    ensures s[0] != NUL ==> Frames(part + s) == Frames((part + [s[0]]) + s[1..]) && NulFree(part + [s[0]])
  {
    assert part + s == part + [s[0]] + s[1..];
    if s[0] == NUL {
      FramesStep(part, s[1..]);
      assert [] + s[1..] == s[1..];
    }
  }

  /** What has been read, the frame in progress and what is left of the stream make up the goal. */
  ghost predicate OnTrack(frames: seq<Bytes>, part: Bytes, left: Bytes, goal: seq<Bytes>) {
    NulFree(part) && frames + Frames(part + left) == goal
  }

  lemma ByteKeepsTrack(frames: seq<Bytes>, part: Bytes, left: Bytes, goal: seq<Bytes>)
    requires OnTrack(frames, part, left, goal) && left != []
    ensures left[0] == NUL ==> OnTrack(frames + Keep(part), [], left[1..], goal)
    ensures left[0] != NUL ==> OnTrack(frames, part + [left[0]], left[1..], goal)
  {
    ByteStep(part, left);
    if left[0] == NUL {
      assert (frames + Keep(part)) + Frames([] + left[1..]) == frames + (Keep(part) + Frames([] + left[1..]));
    }
  }

  /** The frames that one chunk completes, and the unfinished frame that bufio keeps for the next read. */
  method Consume(start: Bytes, chunk: Bytes, ghost later: Bytes) returns (frames: seq<Bytes>, part: Bytes)
    requires NulFree(start)
    ensures NulFree(part)
    ensures frames + Frames(part + later) == Frames(start + (chunk + later))
  {
    frames, part := [], start;
    ghost var all, goal := chunk + later, Frames(start + (chunk + later));
    assert all[0..] == all && [] + goal == goal;
    var i := 0;
    while i < |chunk|
      invariant 0 <= i <= |chunk|
      invariant OnTrack(frames, part, all[i..], goal)
    {
      ByteKeepsTrack(frames, part, all[i..], goal);
      assert all[i..][1..] == all[i + 1..] && all[i..][0] == chunk[i];
      if chunk[i] == NUL {
        frames := frames + Keep(part);
        part := [];
      } else {
        part := part + [chunk[i]];
      }
      i := i + 1;
    }
    assert all[i..] == later;
  }

  lemma FlattenFrom(chunks: seq<Bytes>, k: nat)
    requires k <= |chunks|
    ensures Flatten(chunks[k..]) == if k < |chunks| then chunks[k] + Flatten(chunks[k + 1..]) else []
  {
    if k < |chunks| {
      assert chunks[k..][1..] == chunks[k + 1..];
    }
  }

  lemma {:induction false} ChunkKeepsTrack(
      frames: seq<Bytes>, part: Bytes, left: Bytes, more: seq<Bytes>, rest: Bytes, later: Bytes, goal: seq<Bytes>)
    requires OnTrack(frames, part, left, goal)
    requires NulFree(rest) && more + Frames(rest + later) == Frames(part + left)
    ensures OnTrack(frames + more, rest, later, goal)
  {
    assert (frames + more) + Frames(rest + later) == frames + (more + Frames(rest + later));
  }

  /** At the end of the stream an unfinished frame counts if it is longer than one byte. */
  lemma EndKeepsTrack(frames: seq<Bytes>, part: Bytes, goal: seq<Bytes>)
    requires OnTrack(frames, part, [], goal)
    ensures frames + (if |part| > 1 then [part] else []) == goal
  {
    assert part + [] == part && FirstNul(part) == |part|;
  }

  /**
   * The read loop over a pipe that delivers its bytes in arbitrary chunks. Whatever the chunking,
   * the messages are those of the stream.
   */
  method ReadLoop(chunks: seq<Bytes>) returns (frames: seq<Bytes>)
    ensures frames == Frames(Flatten(chunks))
  {
    frames := [];
    var part: Bytes := [];
    ghost var left, goal := Flatten(chunks), Frames(Flatten(chunks));
    assert [] + left == left && chunks[0..] == chunks;
    var k := 0;
    while k < |chunks|
      invariant 0 <= k <= |chunks| && left == Flatten(chunks[k..])
      invariant OnTrack(frames, part, left, goal)
    {
      ghost var later := Flatten(chunks[k + 1..]);
      FlattenFrom(chunks, k);
      var more, rest := Consume(part, chunks[k], later);
      ChunkKeepsTrack(frames, part, left, more, rest, later, goal);
      frames, part, left := frames + more, rest, later;
      k := k + 1;
    }
    FlattenFrom(chunks, k);
    EndKeepsTrack(frames, part, goal);
    frames := frames + (if |part| > 1 then [part] else []);
  }

  /** What the reader recovers from a writer's stream, cut into chunks in any way. */
  lemma {:induction false} AnyChunkingRecoversTheMessages(messages: seq<Bytes>, chunks: seq<Bytes>)
    requires forall m :: m in messages ==> m != [] && NulFree(m)
    requires Flatten(chunks) == Wire(messages)
    ensures Frames(Flatten(chunks)) == messages
  {
    ReadsBackWhatWasWritten(messages, []);
    NonEmptyKeepsMessages(messages);
    assert Wire(messages) + [] == Wire(messages);
  }
}
