/**
 * Brown noise as a damped, clamped random walk.
 *
 * Randomness is an explicit input: each frame consumes one draw `r`, standing
 * for one call of the uniform generator (a value in [0, 1)). Given the draws,
 * the walk is a deterministic function of the starting accumulator, so the
 * streamer's in-place loop is specified by the pure functions below.
 */
module BrownNoise {

  datatype Option<+T> = None | Some(value: T)

  /** The three ways construction can be rejected, each carrying the rejected value. */
  datatype ConfigError =
    | InvalidDamping(damping: real)
    | InvalidGain(gain: real)
    | InvalidStepSize(stepSize: real)

  /** One stereo frame: (left, right). */
  type Frame = (real, real)

  // ---------------------------------------------------------------------------
  // Validation
  // ---------------------------------------------------------------------------

  predicate DampingOk(damping: real) { 0.0 < damping <= 1.0 }
  predicate GainOk(gain: real) { 0.0 <= gain <= 1.0 }
  predicate StepSizeOk(stepSize: real) { stepSize > 0.0 }

  /** The parameter ranges a validated streamer is guaranteed to have. */
  predicate ValidParams(damping: real, gain: real, stepSize: real)
  {
    DampingOk(damping) && GainOk(gain) && StepSizeOk(stepSize)
  }

  /**
   * The checks of the validated constructor, in their fixed order: damping,
   * then gain, then step size; the first failure is the one reported.
   */
  function CheckParams(damping: real, gain: real, stepSize: real): (err: Option<ConfigError>)
    ensures err == None <==> ValidParams(damping, gain, stepSize)
    ensures !DampingOk(damping) ==> err == Some(InvalidDamping(damping))
    ensures DampingOk(damping) && !GainOk(gain) ==> err == Some(InvalidGain(gain))
    ensures DampingOk(damping) && GainOk(gain) && !StepSizeOk(stepSize) ==>
              err == Some(InvalidStepSize(stepSize))
  {
    if damping <= 0.0 || damping > 1.0 then Some(InvalidDamping(damping))
    else if gain < 0.0 || gain > 1.0 then Some(InvalidGain(gain))
    else if stepSize <= 0.0 then Some(InvalidStepSize(stepSize))
    else None
  }

  /** The table of constructor cases exercised by the unit tests. */
  lemma CheckParamsExamples()
    ensures CheckParams(0.9, 0.5, 0.02) == None
    ensures CheckParams(0.0, 0.5, 0.02) == Some(InvalidDamping(0.0))
    ensures CheckParams(1.1, 0.5, 0.02) == Some(InvalidDamping(1.1))
    ensures CheckParams(0.9, -0.1, 0.02) == Some(InvalidGain(-0.1))
    ensures CheckParams(0.9, 0.5, -0.01) == Some(InvalidStepSize(-0.01))
    // damping and gain both bad: the damping error wins
    ensures CheckParams(0.0, 2.0, 0.02) == Some(InvalidDamping(0.0))
  {
  }

  // ---------------------------------------------------------------------------
  // The per-frame step and the walk it generates
  // ---------------------------------------------------------------------------

  /** The white increment drawn for one frame: a draw in [0, 1) mapped to [-1, 1), scaled. */
  function White(r: real, stepSize: real): (w: real)
    ensures w == 0.0 <==> r == 0.5 || stepSize == 0.0
    ensures stepSize > 0.0 ==> (w < 0.0 <==> r < 0.5)
  {
    (r * 2.0 - 1.0) * stepSize
  }

  lemma WhiteBounded(r: real, stepSize: real)
    requires 0.0 <= r < 1.0 && stepSize > 0.0
    ensures -stepSize <= White(r, stepSize) < stepSize
  {
  }

  /** Clamping into [-1, 1]; values already in range are kept. */
  function Clamp(x: real): (c: real)
    ensures -1.0 <= c <= 1.0
    ensures -1.0 <= x <= 1.0 ==> c == x
    ensures x > 1.0 ==> c == 1.0
    ensures x < -1.0 ==> c == -1.0
  {
    if x > 1.0 then 1.0 else if x < -1.0 then -1.0 else x
  }

  /** One update of the accumulator: damp, add the white increment, clamp. */
  function Step(acc: real, damping: real, stepSize: real, r: real): (a: real)
    ensures -1.0 <= a <= 1.0
  {
    Clamp(acc * damping + White(r, stepSize))
  }

  /**
   * The accumulator values after each of the draws in turn, starting from
   * `acc`; entry i is the value after consuming draws[i].
   */
  function Walk(acc: real, damping: real, stepSize: real, draws: seq<real>): (w: seq<real>)
    ensures |w| == |draws|
    ensures forall i :: 0 <= i < |w| ==> -1.0 <= w[i] <= 1.0
    decreases |draws|
  {
    if draws == [] then []
    else
      var a := Step(acc, damping, stepSize, draws[0]);
      [a] + Walk(a, damping, stepSize, draws[1..])
  }

  /** The accumulator once all draws are consumed: the last value of the walk, or `acc` if none. */
  function Final(acc: real, damping: real, stepSize: real, draws: seq<real>): (a: real)
    ensures draws == [] ==> a == acc
    ensures draws != [] || -1.0 <= acc <= 1.0 ==> -1.0 <= a <= 1.0
  {
    if draws == [] then acc else Walk(acc, damping, stepSize, draws)[|draws| - 1]
  }

  /** The frame written for one accumulator value: the same scaled value on both channels. */
  function Output(a: real, gain: real): (f: Frame)
    ensures f.0 == f.1
    ensures -1.0 <= a <= 1.0 ==> Abs(f.0) <= Abs(gain)
  {
    if -1.0 <= a <= 1.0 then
      ScaledBounded(a, gain);
      (a * gain, a * gain)
    else
      (a * gain, a * gain)
  }

  /** The frames written for a trajectory of accumulator values. */
  function Frames(w: seq<real>, gain: real): (f: seq<Frame>)
    ensures |f| == |w|
    ensures forall i :: 0 <= i < |f| ==> f[i].0 == f[i].1
    ensures forall i :: 0 <= i < |f| && -1.0 <= w[i] <= 1.0 ==> Abs(f[i].0) <= Abs(gain)
  {
    seq(|w|, i requires 0 <= i < |w| => Output(w[i], gain))
  }

  function Abs(x: real): real { if x < 0.0 then -x else x }

  // ---------------------------------------------------------------------------
  // Properties of the walk
  // ---------------------------------------------------------------------------

  /** The walk over a concatenation continues from where the first part ended. */
  lemma {:induction false} WalkAppend(acc: real, damping: real, stepSize: real, d1: seq<real>, d2: seq<real>)
    ensures Walk(acc, damping, stepSize, d1 + d2)
         == Walk(acc, damping, stepSize, d1) + Walk(Final(acc, damping, stepSize, d1), damping, stepSize, d2)
    decreases |d1|
  {
    if d1 == [] {
      assert d1 + d2 == d2;
    } else {
      var a := Step(acc, damping, stepSize, d1[0]);
      assert (d1 + d2)[0] == d1[0];
      assert (d1 + d2)[1..] == d1[1..] + d2;
      WalkAppend(a, damping, stepSize, d1[1..], d2);
      FinalCons(acc, damping, stepSize, d1);
    }
  }

  /** Final of a non-empty batch is Final of its tail started from the first step. */
  lemma FinalCons(acc: real, damping: real, stepSize: real, d: seq<real>)
    requires d != []
    ensures Final(acc, damping, stepSize, d)
         == Final(Step(acc, damping, stepSize, d[0]), damping, stepSize, d[1..])
  {
    var a := Step(acc, damping, stepSize, d[0]);
    assert Walk(acc, damping, stepSize, d) == [a] + Walk(a, damping, stepSize, d[1..]);
  }

  /** The accumulator after a concatenation is the second part's, started from the first's result. */
  lemma FinalAppend(acc: real, damping: real, stepSize: real, d1: seq<real>, d2: seq<real>)
    ensures Final(acc, damping, stepSize, d1 + d2)
         == Final(Final(acc, damping, stepSize, d1), damping, stepSize, d2)
  {
    if d2 == [] {
      assert d1 + d2 == d1;
    } else {
      WalkAppend(acc, damping, stepSize, d1, d2);
    }
  }

  /**
   * The step recurrence: the i-th accumulator value is one Step from the
   * value after the first i draws.
   */
  lemma WalkAt(acc: real, damping: real, stepSize: real, draws: seq<real>, i: nat)
    requires i < |draws|
    ensures Walk(acc, damping, stepSize, draws)[i]
         == Step(Final(acc, damping, stepSize, draws[..i]), damping, stepSize, draws[i])
    ensures Final(acc, damping, stepSize, draws[..i + 1]) == Walk(acc, damping, stepSize, draws)[i]
  {
    var pre := draws[..i];
    assert draws == pre + draws[i..];
    WalkAppend(acc, damping, stepSize, pre, draws[i..]);
    var p := Final(acc, damping, stepSize, pre);
    assert Walk(acc, damping, stepSize, draws)[i] == Walk(p, damping, stepSize, draws[i..])[0];
    assert draws[..i + 1] == pre + [draws[i]];
    FinalAppend(acc, damping, stepSize, pre, [draws[i]]);
  }

  /** Frames of a concatenated trajectory are the concatenated frames. */
  lemma FramesAppend(w1: seq<real>, w2: seq<real>, gain: real)
    ensures Frames(w1 + w2, gain) == Frames(w1, gain) + Frames(w2, gain)
  {
  }

  lemma MulNonNegative(x: real, y: real)
    requires x >= 0.0 && y >= 0.0
    ensures x * y >= 0.0
  {
  }

  /** A value in [-1, 1] scaled by the gain has magnitude at most |gain|. */
  lemma ScaledBounded(a: real, gain: real)
    requires -1.0 <= a <= 1.0
    ensures Abs(a * gain) <= Abs(gain)
  {
    var g := Abs(gain);
    MulNonNegative(1.0 - a, g);
    MulNonNegative(1.0 + a, g);
    assert Abs(a * gain) == Abs(a * g);
  }

  /**
   * Every frame of a walk is the accumulator value scaled by the gain on both
   * channels (identical left and right), bounded by |gain| (so by gain when
   * gain >= 0).
   */
  lemma {:induction false} FramesOfWalk(acc: real, damping: real, gain: real, stepSize: real, draws: seq<real>)
    ensures var w := Walk(acc, damping, stepSize, draws);
      var f := Frames(w, gain);
      |f| == |draws| &&
      forall i :: 0 <= i < |f| ==> f[i] == Output(w[i], gain) && f[i].0 == f[i].1 && Abs(f[i].0) <= Abs(gain)
  {
    var w := Walk(acc, damping, stepSize, draws);
    var f := Frames(w, gain);
    forall i | 0 <= i < |f|
      ensures f[i] == Output(w[i], gain) && f[i].0 == f[i].1 && Abs(f[i].0) <= Abs(gain)
    {
      ScaledBounded(w[i], gain);
    }
  }

  /**
   * Batching equivalence: streaming d1 and then d2 leaves the same accumulator
   * and writes the same frames, in order, as streaming d1 + d2 at once.
   */
  lemma BatchSplit(acc: real, damping: real, gain: real, stepSize: real, d1: seq<real>, d2: seq<real>)
    ensures var mid := Final(acc, damping, stepSize, d1);
      Final(mid, damping, stepSize, d2) == Final(acc, damping, stepSize, d1 + d2) &&
      Frames(Walk(acc, damping, stepSize, d1), gain) + Frames(Walk(mid, damping, stepSize, d2), gain)
        == Frames(Walk(acc, damping, stepSize, d1 + d2), gain)
  {
    var mid := Final(acc, damping, stepSize, d1);
    FinalAppend(acc, damping, stepSize, d1, d2);
    WalkAppend(acc, damping, stepSize, d1, d2);
    FramesAppend(Walk(acc, damping, stepSize, d1), Walk(mid, damping, stepSize, d2), gain);
  }

  /**
   * From a zero accumulator, with positive gain and step size, the first frame
   * is silent only for the draw 1/2 (the one draw whose white increment is zero).
   */
  lemma FirstFrameNonZero(damping: real, gain: real, stepSize: real, draws: seq<real>)
    requires draws != [] && draws[0] != 0.5
    requires gain > 0.0 && stepSize > 0.0
    ensures Frames(Walk(0.0, damping, stepSize, draws), gain)[0].0 != 0.0
  {
    var a := Step(0.0, damping, stepSize, draws[0]);
    assert White(draws[0], stepSize) != 0.0 by {
      assert draws[0] * 2.0 - 1.0 != 0.0;
    }
    assert a != 0.0;
    assert Walk(0.0, damping, stepSize, draws)[0] == a;
  }

  // ---------------------------------------------------------------------------
  // The streamer
  // ---------------------------------------------------------------------------

  /** A brown-noise streamer: the walk's current position and its three parameters. */
  class Streamer {
    /** Current position of the random walk. */
    var accumulator: real
    /** Multiplicative factor applied to the accumulator before each increment. */
    var damping: real
    /** Output scaling. */
    var gain: real
    /** Scale of each white increment. */
    var stepSize: real

    /** The accumulator is within the clamp range. */
    predicate InRange()
      reads this
    {
      -1.0 <= accumulator <= 1.0
    }

    /** The parameters lie in the ranges the validated constructor enforces. */
    predicate HasValidParams()
      reads this
    {
      ValidParams(damping, gain, stepSize)
    }

    /** Raw construction: the fields are set as given, with no validation. */
    constructor Raw(damping: real, gain: real, stepSize: real)
      ensures accumulator == 0.0 && InRange()
      ensures this.damping == damping && this.gain == gain && this.stepSize == stepSize
    {
      accumulator := 0.0;
      this.damping := damping;
      this.gain := gain;
      this.stepSize := stepSize;
    }

    /**
     * One frame's update of the accumulator: draw the white increment, damp
     * and add, then clamp into [-1, 1].
     */
    method Advance(r: real)
      modifies this`accumulator
      ensures accumulator == Step(old(accumulator), damping, stepSize, r)
    {
      var white := (r * 2.0 - 1.0) * stepSize;
      accumulator := accumulator * damping + white;
      if accumulator > 1.0 {
        accumulator := 1.0;
      } else if accumulator < -1.0 {
        accumulator := -1.0;
      }
    }

    /**
     * Fills `samples` in place, one frame per draw: each frame advances the
     * accumulator by one Step and writes it, scaled by the gain, to both
     * channels. Reports every frame written and that streaming continues.
     */
    method Stream(samples: array<Frame>, draws: seq<real>) returns (n: int, ok: bool)
      requires |draws| == samples.Length
      modifies this, samples
      ensures n == samples.Length && ok
      ensures damping == old(damping) && gain == old(gain) && stepSize == old(stepSize)
      ensures accumulator == Final(old(accumulator), damping, stepSize, draws)
      ensures samples[..] == Frames(Walk(old(accumulator), damping, stepSize, draws), gain)
      ensures samples.Length > 0 || old(InRange()) ==> InRange()
      ensures samples.Length == 0 ==> accumulator == old(accumulator)
    {
      ghost var start := accumulator;
      ghost var w := Walk(start, damping, stepSize, draws);
      var i := 0;
      while i < samples.Length
        invariant 0 <= i <= samples.Length
        invariant damping == old(damping) && gain == old(gain) && stepSize == old(stepSize)
        invariant accumulator == Final(start, damping, stepSize, draws[..i])
        invariant forall k :: 0 <= k < i ==> samples[k] == Output(w[k], gain)
      {
        Advance(draws[i]);
        WalkAt(start, damping, stepSize, draws, i);
        assert accumulator == w[i];
        samples[i] := Output(accumulator, gain);
        i := i + 1;
      }
      assert draws[..i] == draws;
      assert samples[..] == Frames(w, gain);
      n, ok := samples.Length, true;
    }

    /**
     * The error accessor: streaming never fails. Its result type is a plain
     * message, not a construction error, which only the constructor reports.
     */
    function Err(): (e: Option<string>)
      ensures e.None?
    {
      None
    }
  }

  /**
   * The validated constructor: either a fresh streamer at rest with exactly
   * the given parameters, or no streamer and the first failed check.
   */
  method NewBrownNoiseStreamer(damping: real, gain: real, stepSize: real)
    returns (s: Streamer?, err: Option<ConfigError>)
    ensures err == CheckParams(damping, gain, stepSize)
    ensures s == null <==> err.Some?
    ensures s != null ==>
              && fresh(s) && s.accumulator == 0.0
              && s.damping == damping && s.gain == gain && s.stepSize == stepSize
              && s.HasValidParams() && s.InRange()
  {
    if damping <= 0.0 || damping > 1.0 {
      return null, Some(InvalidDamping(damping));
    }
    if gain < 0.0 || gain > 1.0 {
      return null, Some(InvalidGain(gain));
    }
    if stepSize <= 0.0 {
      return null, Some(InvalidStepSize(stepSize));
    }
    s := new Streamer.Raw(damping, gain, stepSize);
    err := None;
  }
}
