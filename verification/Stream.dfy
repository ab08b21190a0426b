/** Frames as pieces of one byte stream. */
module Stream {
  import opened Words
  import opened Terminal

  /** The frame is a piece of the stream. */
  ghost predicate Holds(stream: Bytes, frame: Frame) {
    && frame.End() <= |stream|
    && stream[frame.offset..frame.End()] == frame.data
  }

  function Front<T>(s: seq<T>): seq<T>
    requires s != []
  {
    s[..|s| - 1]
  }

  function Last<T>(s: seq<T>): T
    requires s != []
  {
    s[|s| - 1]
  }

  /** The frames carry stream[start..end] in order, each byte once. */
  ghost predicate Carries(stream: Bytes, frames: seq<Frame>, start: nat, end: nat) {
    if frames == [] then start == end <= |stream|
    else
      && Holds(stream, Last(frames)) && Last(frames).End() == end
      && Carries(stream, Front(frames), start, Last(frames).offset)
  }

  function Payload(frames: seq<Frame>): Bytes {
    if frames == [] then [] else Payload(Front(frames)) + Last(frames).data
  }

  lemma CarriesAppend(stream: Bytes, frames: seq<Frame>, start: nat, frame: Frame)
    requires Carries(stream, frames, start, frame.offset) && Holds(stream, frame)
    ensures Carries(stream, frames + [frame], start, frame.End())
  {
  }

  lemma {:induction false} CarriesBounds(stream: Bytes, frames: seq<Frame>, start: nat, end: nat)
    requires Carries(stream, frames, start, end)
    ensures start <= end <= |stream|
    decreases |frames|
  {
    if frames != [] {
      CarriesBounds(stream, Front(frames), start, Last(frames).offset);
    }
  }

  /** Taking the first frame leaves the frames that follow it. */
  lemma {:induction false} CarriesTail(stream: Bytes, frames: seq<Frame>, start: nat, end: nat)
    requires Carries(stream, frames, start, end) && frames != []
    ensures frames[0].offset == start && Holds(stream, frames[0])
    ensures Carries(stream, frames[1..], frames[0].End(), end)
    decreases |frames|
  {
    if |frames| > 1 {
      CarriesTail(stream, Front(frames), start, Last(frames).offset);
      assert Front(frames[1..]) == Front(frames)[1..];
    }
  }

  /** Where a run of frames that starts at start ends. */
  function Reach(frames: seq<Frame>, start: nat): nat {
    if frames == [] then start else Last(frames).End()
  }

  /** The first n frames carry the stream up to the next one. */
  lemma {:induction false} CarriesPrefix(stream: Bytes, frames: seq<Frame>, start: nat, end: nat, n: nat)
    requires Carries(stream, frames, start, end) && n <= |frames|
    ensures Carries(stream, frames[..n], start, Reach(frames[..n], start))
    ensures Reach(frames[..n], start) <= end
    ensures n < |frames| ==> Holds(stream, frames[n]) && frames[n].offset == Reach(frames[..n], start)
    decreases |frames|
  {
    if n < |frames| {
      var mid := Last(frames).offset;
      CarriesPrefix(stream, Front(frames), start, mid, n);
      assert Front(frames)[..n] == frames[..n];
    } else {
      assert frames[..n] == frames;
      CarriesBounds(stream, frames, start, end);
    }
  }

  lemma {:induction false} CarriesConcat(stream: Bytes, a: seq<Frame>, b: seq<Frame>, start: nat, mid: nat, end: nat)
    requires Carries(stream, a, start, mid) && Carries(stream, b, mid, end)
    ensures Carries(stream, a + b, start, end)
    decreases |b|
  {
    if b == [] {
      assert a + b == a;
    } else {
      CarriesConcat(stream, a, Front(b), start, mid, Last(b).offset);
      assert Front(a + b) == a + Front(b);
    }
  }

  lemma {:induction false} CarriesMonotone(stream: Bytes, more: Bytes, frames: seq<Frame>, start: nat, end: nat)
    requires Carries(stream, frames, start, end) && stream <= more
    ensures Carries(more, frames, start, end)
    decreases |frames|
  {
    if frames != [] {
      var f := Last(frames);
      CarriesMonotone(stream, more, Front(frames), start, f.offset);
      assert more[f.offset..f.End()] == stream[f.offset..f.End()];
    }
  }

  /** Frame by frame agreement is agreement of the concatenated payloads with the slice. */
  lemma {:induction false} PayloadIsSlice(stream: Bytes, frames: seq<Frame>, start: nat, end: nat)
    requires Carries(stream, frames, start, end)
    ensures start <= end <= |stream| && Payload(frames) == stream[start..end]
    decreases |frames|
  {
    if frames != [] {
      PayloadIsSlice(stream, Front(frames), start, Last(frames).offset);
    }
  }
}
