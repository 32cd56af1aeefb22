/** The frame-time sampler of `fps_limiter.rs`: a five-slot ring buffer of
    per-frame durations in microseconds with a cursor that wraps around. */
module FpsLimiterModel {
  /** `SAMPLE_COUNT`: how many frame times are averaged. */
  const SAMPLE_COUNT: nat := 5

  const NANOS_PER_MICRO: nat := 1000
  const MICROS_PER_SECOND: nat := 1_000_000
  const NANOS_PER_SECOND: nat := 1_000_000_000

  /** One more than the largest `u32`. */
  const U32_LIMIT: nat := 0x1_0000_0000

  /** `Duration::subsec_micros` of a duration of `elapsedNanos` nanoseconds:
      the whole microseconds of its fractional second. */
  function SubsecMicros(elapsedNanos: nat): (r: nat)
    ensures r < MICROS_PER_SECOND
    ensures r * NANOS_PER_MICRO <= elapsedNanos % NANOS_PER_SECOND < (r + 1) * NANOS_PER_MICRO
    ensures elapsedNanos < NANOS_PER_SECOND ==> r * NANOS_PER_MICRO <= elapsedNanos < (r + 1) * NANOS_PER_MICRO
  {
    (elapsedNanos % NANOS_PER_SECOND) / NANOS_PER_MICRO
  }

  /** The whole seconds of a duration do not show in its sub-second
      microseconds. */
  lemma {:induction false} WholeSecondsDropped(seconds: nat, nanos: nat)
    requires nanos < NANOS_PER_SECOND
    ensures SubsecMicros(seconds * NANOS_PER_SECOND + nanos) == SubsecMicros(nanos)
    ensures SubsecMicros(seconds * NANOS_PER_SECOND + nanos) == nanos / NANOS_PER_MICRO
    decreases seconds
  {
    if seconds > 0 {
      var rest := (seconds - 1) * NANOS_PER_SECOND + nanos;
      WholeSecondsDropped(seconds - 1, nanos);
      assert seconds * NANOS_PER_SECOND + nanos == rest + NANOS_PER_SECOND;
      assert (rest + NANOS_PER_SECOND) % NANOS_PER_SECOND == rest % NANOS_PER_SECOND;
    }
  }

  /** The sum of the samples, added from the first to the last. */
  function Sum(s: seq<nat>): nat
    decreases |s|
  {
    if s == [] then 0 else Sum(s[..|s| - 1]) + s[|s| - 1]
  }

  /** A sum of values below `bound` is at most `|s| * (bound - 1)`. */
  lemma {:induction false} SumBelow(s: seq<nat>, bound: nat)
    requires forall i :: 0 <= i < |s| ==> s[i] < bound
    ensures Sum(s) + |s| <= |s| * bound
    decreases |s|
  {
    if s != [] {
      var init := s[..|s| - 1];
      SumBelow(init, bound);
      assert |s| * bound == |init| * bound + bound;
    }
  }

  /** Every prefix of `s` sums to at most the whole. */
  lemma {:induction false} PrefixSumAtMost(s: seq<nat>, k: nat)
    requires k <= |s|
    ensures Sum(s[..k]) <= Sum(s)
    decreases |s|
  {
    if k < |s| {
      var init := s[..|s| - 1];
      assert s[..k] == init[..k];
      PrefixSumAtMost(init, k);
    } else {
      assert s[..k] == s;
    }
  }

  class FpsLimiter {
    /** `samples`: the last five frame times in microseconds. */
    const samples: array<nat>
    /** `current_frame`: the slot the next frame time goes into. */
    var currentFrame: nat
    /** `delta_frame`: the last frame time in microseconds. */
    var deltaFrame: nat
    /** How many frames have been ticked since `new`. */
    ghost var ticks: nat

    ghost predicate Valid()
      reads this, samples
    {
      && samples.Length == SAMPLE_COUNT
      && currentFrame == ticks % SAMPLE_COUNT
      && deltaFrame < MICROS_PER_SECOND
      && forall i :: 0 <= i < SAMPLE_COUNT ==> samples[i] < MICROS_PER_SECOND
    }

    /** `FPSLimiter::new`: all samples zero, the cursor at slot 0. */
    constructor ()
      ensures Valid() && fresh(samples)
      ensures samples[..] == [0, 0, 0, 0, 0]
      ensures currentFrame == 0 && deltaFrame == 0 && ticks == 0
    {
      samples := new nat[SAMPLE_COUNT](_ => 0);
      currentFrame, deltaFrame, ticks := 0, 0, 0;
    }

    /** `tick_frame`, given the time since the previous tick: the frame time
        goes into the cursor's slot, the other slots keep their samples, and
        the cursor moves one slot on, wrapping after the last. */
    method TickFrame(elapsedNanos: nat)
      requires Valid()
      modifies this, samples
      ensures Valid()
      ensures deltaFrame == SubsecMicros(elapsedNanos)
      ensures samples[..] == old(samples[..])[old(currentFrame) := deltaFrame]
      ensures currentFrame == (old(currentFrame) + 1) % SAMPLE_COUNT
      ensures ticks == old(ticks) + 1
    {
      deltaFrame := SubsecMicros(elapsedNanos);
      samples[currentFrame] := deltaFrame;
      currentFrame := (currentFrame + 1) % SAMPLE_COUNT;
      ticks := ticks + 1;
    }

    /** The summing loop of `fps`, over `u32`: every partial sum fits, so the
        addition never overflows, and the result is the sum of the samples. */
    method SampleSum() returns (sum: nat)
      requires Valid()
      ensures sum == Sum(samples[..])
      ensures sum <= SAMPLE_COUNT * (MICROS_PER_SECOND - 1) < U32_LIMIT
    {
      SumBelow(samples[..], MICROS_PER_SECOND);
      sum := 0;
      for i := 0 to SAMPLE_COUNT
        invariant sum == Sum(samples[..i])
        invariant sum < U32_LIMIT
      {
        assert samples[..i + 1][..i] == samples[..i];
        PrefixSumAtMost(samples[..], i + 1);
        sum := sum + samples[i];
      }
      assert samples[..SAMPLE_COUNT] == samples[..];
    }
  }
}
