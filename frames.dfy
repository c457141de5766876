/** Frame sampling on the server: read frames until a read fails, keeping
    those whose position is a multiple of the interval. */
module Frames {

  /** A decoded video frame. */
  datatype Frame = Frame(pixels: seq<bv8>)

  /** A kept frame and its position in the video (it is written to `frame_<index>.jpg`). */
  datatype Extracted = Extracted(index: nat, frame: Frame)

  /** The frames kept from `video` (the frames read before the first failed read). */
  function Sampled(video: seq<Frame>, interval: int): (kept: seq<Extracted>)
    requires interval != 0
    ensures |kept| <= |video|
    ensures forall j :: 0 <= j < |kept| ==>
              kept[j].index < |video| && kept[j].index % interval == 0 && kept[j].frame == video[kept[j].index]
    decreases |video|
  {
    if video == [] then []
    else
      var last := |video| - 1;
      Sampled(video[..last], interval)
        + (if last % interval == 0 then [Extracted(last, video[last])] else [])
  }

  /** The read loop: a counter walks the frames and every frame at a multiple
      of the interval is appended to the kept list. */
  method ExtractFrames(video: seq<Frame>, interval: int) returns (extracted: seq<Extracted>)
    requires interval != 0
    ensures extracted == Sampled(video, interval)
  {
    var count := 0;
    extracted := [];
    while count < |video|
      invariant 0 <= count <= |video|
      invariant extracted == Sampled(video[..count], interval)
    {
      var frame := video[count];
      if count % interval == 0 {
        extracted := extracted + [Extracted(count, frame)];
      }
      assert video[..count + 1][..count] == video[..count];
      count := count + 1;
    }
    assert video[..count] == video;
  }

  /** The kept frames are in strictly ascending position order. */
  lemma {:induction false} SampledAscending(video: seq<Frame>, interval: int)
    requires interval != 0
    ensures forall j, k :: 0 <= j < k < |Sampled(video, interval)| ==>
              Sampled(video, interval)[j].index < Sampled(video, interval)[k].index
    decreases |video|
  {
    if video != [] {
      SampledAscending(video[..|video| - 1], interval);
    }
  }

  /** A frame is kept exactly when its position is a multiple of the interval. */
  lemma {:induction false} SampledExactly(video: seq<Frame>, interval: int, i: nat)
    requires interval != 0
    ensures (exists j :: 0 <= j < |Sampled(video, interval)| && Sampled(video, interval)[j].index == i)
            <==> i < |video| && i % interval == 0
    decreases |video|
  {
    var kept := Sampled(video, interval);
    if video != [] {
      var last := |video| - 1;
      var front := Sampled(video[..last], interval);
      SampledExactly(video[..last], interval, i);
      if i < last && i % interval == 0 {
        var j :| 0 <= j < |front| && front[j].index == i;
        assert kept[j] == front[j];
      }
      if i == last && i % interval == 0 {
        assert kept[|kept| - 1].index == i;
      }
      if exists j :: 0 <= j < |kept| && kept[j].index == i {
        var j :| 0 <= j < |kept| && kept[j].index == i;
        assert i < |video| && i % interval == 0;
      }
    }
  }

  /** With the default interval 1 every frame read is kept, in order. */
  lemma {:induction false} SampledEveryFrame(video: seq<Frame>)
    ensures Sampled(video, 1) == seq(|video|, i requires 0 <= i < |video| => Extracted(i, video[i]))
    decreases |video|
  {
    if video != [] {
      var last := |video| - 1;
      SampledEveryFrame(video[..last]);
    }
  }
}
