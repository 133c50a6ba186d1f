/**
 * The browser-module glue: a process-wide streamer slot, installed without
 * validation, and a call that streams a batch and flattens it into an
 * interleaved left/right array.
 *
 * The narrowing of each sample to 32-bit float at the host boundary is the
 * parameter `narrow`; nothing is assumed about it beyond being a function.
 */
module Wasm {
  import opened BrownNoise

  /**
   * Interleaves frames into one flat sequence: left then right of frame 0,
   * left then right of frame 1, and so on, each value narrowed.
   */
  function Interleave(frames: seq<Frame>, narrow: real -> real): (flat: seq<real>)
    ensures |flat| == 2 * |frames|
    ensures forall i :: 0 <= i < |frames| ==>
              flat[2 * i] == narrow(frames[i].0) && flat[2 * i + 1] == narrow(frames[i].1)
  {
    if frames == [] then []
    else
      var rest := Interleave(frames[1..], narrow);
      var flat := [narrow(frames[0].0), narrow(frames[0].1)] + rest;
      assert forall i :: 1 <= i < |frames| ==>
               flat[2 * i] == rest[2 * (i - 1)] && flat[2 * i + 1] == rest[2 * (i - 1) + 1];
      flat
  }

  /** Interleaving mono frames gives equal neighbours at positions 2i and 2i + 1. */
  lemma InterleaveMono(frames: seq<Frame>, narrow: real -> real)
    requires forall i :: 0 <= i < |frames| ==> frames[i].0 == frames[i].1
    ensures var flat := Interleave(frames, narrow);
      forall i :: 0 <= i < |frames| ==> flat[2 * i] == flat[2 * i + 1]
  {
  }

  /**
   * The flat output of one batch, with `count == |draws|` frames streamed
   * from accumulator `acc`, is the interleaving of the walk's frames: its
   * length is twice the frame count and both entries of each pair are equal.
   */
  lemma {:induction false} BatchOutput(acc: real, damping: real, gain: real, stepSize: real,
                                       draws: seq<real>, narrow: real -> real)
    ensures var flat := Interleave(Frames(Walk(acc, damping, stepSize, draws), gain), narrow);
      |flat| == 2 * |draws| &&
      forall i :: 0 <= i < |draws| ==>
        flat[2 * i] == flat[2 * i + 1] == narrow(Output(Walk(acc, damping, stepSize, draws)[i], gain).0)
  {
    var frames := Frames(Walk(acc, damping, stepSize, draws), gain);
    FramesOfWalk(acc, damping, gain, stepSize, draws);
    InterleaveMono(frames, narrow);
  }

  /**
   * Copies the frames of `buf` into a fresh array of twice its length,
   * left sample of frame i at 2i and right sample at 2i + 1, each narrowed.
   */
  method Flatten(buf: array<Frame>, narrow: real -> real) returns (flat: array<real>)
    ensures fresh(flat) && flat[..] == Interleave(buf[..], narrow)
  {
    var count := buf.Length;
    flat := new real[count * 2];
    var i := 0;
    while i < count
      invariant 0 <= i <= count
      invariant forall k :: 0 <= k < i ==>
                  flat[2 * k] == narrow(buf[k].0) && flat[2 * k + 1] == narrow(buf[k].1)
    {
      flat[i * 2] := narrow(buf[i].0);
      flat[i * 2 + 1] := narrow(buf[i].1);
      i := i + 1;
    }
    ghost var expected := Interleave(buf[..], narrow);
    forall j | 0 <= j < 2 * count
      ensures flat[j] == expected[j]
    {
      var k := j / 2;
      assert buf[..][k] == buf[k];
      if j == 2 * k {
        assert flat[2 * k] == narrow(buf[k].0) == expected[2 * k];
      } else {
        assert j == 2 * k + 1;
        assert flat[2 * k + 1] == narrow(buf[k].1) == expected[2 * k + 1];
      }
    }
    assert flat[..] == expected;
  }

  /** The host module's single global slot. */
  class Host {
    /** The process-wide streamer; null until the first initialisation. */
    var streamer: Streamer?

    constructor ()
      ensures streamer == null
    {
      streamer := null;
    }

    /**
     * Installs a new streamer at rest with the given parameters, replacing
     * any previous one; the parameters are not checked.
     */
    method InitStreamer(damping: real, gain: real, stepSize: real)
      modifies this
      ensures streamer != null && fresh(streamer)
      ensures streamer.accumulator == 0.0
      ensures streamer.damping == damping && streamer.gain == gain && streamer.stepSize == stepSize
    {
      streamer := new Streamer.Raw(damping, gain, stepSize);
    }

    /**
     * Streams `count` frames (one draw each) from the global streamer into a
     * fresh buffer and returns them flattened: entry 2i is the left and 2i + 1
     * the right sample of frame i. With no streamer installed only an empty
     * request can be served: the streaming loop then touches no field.
     */
    method NextSamples(count: nat, draws: seq<real>, narrow: real -> real) returns (flat: array<real>)
      requires |draws| == count
      requires count > 0 ==> streamer != null
      modifies streamer
      ensures fresh(flat) && flat.Length == 2 * count
      ensures streamer == old(streamer)
      ensures streamer != null ==>
                && streamer.damping == old(streamer.damping)
                && streamer.gain == old(streamer.gain)
                && streamer.stepSize == old(streamer.stepSize)
                && streamer.accumulator
                   == Final(old(streamer.accumulator), streamer.damping, streamer.stepSize, draws)
                && flat[..] == Interleave(
                     Frames(Walk(old(streamer.accumulator), streamer.damping, streamer.stepSize, draws),
                            streamer.gain),
                     narrow)
      ensures forall i :: 0 <= i < count ==> flat[2 * i] == flat[2 * i + 1]
    {
      var buf := new Frame[count];
      if streamer != null {
        var _, _ := streamer.Stream(buf, draws);
      }
      flat := Flatten(buf, narrow);
      if streamer != null {
        BatchOutput(old(streamer.accumulator), streamer.damping, streamer.gain, streamer.stepSize,
                    draws, narrow);
      }
    }
  }
}
