/** Post-processing of measured waveforms: the generic offset and smoothing
    steps, and the May 2022 chain built from them. */

module Preprocess {
  import opened Wrappers
  import opened Numeric

  /** `signal[time < cutoff]`: the samples taken before the cutoff. */
  function Before(time: seq<real>, signal: seq<real>, cutoff: real): (r: seq<real>)
    requires |time| == |signal|
    ensures |r| <= |signal|
    decreases |signal|
  {
    if signal == [] then []
    else
      var n := |signal| - 1;
      Before(time[..n], signal[..n], cutoff) + (if time[n] < cutoff then [signal[n]] else [])
  }

  /** `signal - c`. */
  function Shift(signal: seq<real>, c: real): (r: seq<real>)
    ensures |r| == |signal| && forall i :: 0 <= i < |signal| ==> r[i] == signal[i] - c
  {
    seq(|signal|, i requires 0 <= i < |signal| => signal[i] - c)
  }

  /** `OffsetMean(time, signal, cutoff)`: the signal less the mean of its
      samples before the cutoff; a mask of another length raises, and no
      sample before the cutoff leaves the mean undefined. An empty signal
      stays empty: the undefined mean is subtracted from no sample. */
  function OffsetMean(time: seq<real>, signal: seq<real>, cutoff: real): (r: Result<seq<real>>)
    ensures |time| != |signal| ==> r == Err(IndexError)
    ensures |time| == |signal| && signal == [] ==> r == Ok([])
    ensures r.Ok? ==> |r.value| == |signal|
  {
    if |time| != |signal| then Err(IndexError)
    else if signal == [] then Ok([])
    else
      var offset :- Mean(Before(time, signal, cutoff));
      Ok(Shift(signal, offset))
  }

  /** Selecting the early samples commutes with the shift. */
  lemma {:induction false} BeforeShift(time: seq<real>, signal: seq<real>, cutoff: real, c: real)
    requires |time| == |signal|
    ensures Before(time, Shift(signal, c), cutoff) == Shift(Before(time, signal, cutoff), c)
    decreases |signal|
  {
    if signal != [] {
      var n := |signal| - 1;
      assert Shift(signal, c)[..n] == Shift(signal[..n], c);
      BeforeShift(time[..n], signal[..n], cutoff, c);
    }
  }

  /** Shifting every sample by `c` shifts the sum by `|s|·c`. */
  lemma {:induction false} SumShift(s: seq<real>, c: real)
    ensures Sum(Shift(s, c)) == Sum(s) - |s| as real * c
    decreases |s|
  {
    if s != [] {
      var n := |s| - 1;
      assert Shift(s, c)[..n] == Shift(s[..n], c);
      SumShift(s[..n], c);
    }
  }

  /** The offset step fails exactly when the mask does not fit, or when it
      selects nothing from a non-empty signal. */
  lemma OffsetMeanFails(time: seq<real>, signal: seq<real>, cutoff: real)
    ensures var r := OffsetMean(time, signal, cutoff);
      (r.Err? <==> |time| != |signal| || (signal != [] && Before(time, signal, cutoff) == [])) &&
      (r.Err? ==> r.error == (if |time| != |signal| then IndexError else NotANumber))
  {
  }

  /** Samples summing to 0 have mean 0. */
  lemma ZeroMean(s: seq<real>)
    requires |s| > 0 && Sum(s) == 0.0
    ensures Mean(s) == Ok(0.0)
  {
    var n := |s| as real;
    assert Mean(s) == Ok(0.0 / n);
  }

  /** Subtracting the mean leaves samples whose mean is 0. */
  lemma ShiftByMean(s: seq<real>)
    requires |s| > 0
    ensures Mean(Shift(s, Sum(s) / |s| as real)) == Ok(0.0)
  {
    var n := |s| as real;
    var offset := Sum(s) / n;
    ScaleBack(Sum(s), n);
    ShiftBy(s, offset);
    ZeroMean(Shift(s, offset));
  }

  /** Shifting by `c` with `|s|·c` the sum leaves samples summing to 0. */
  lemma ShiftBy(s: seq<real>, c: real)
    requires c * |s| as real == Sum(s)
    ensures Sum(Shift(s, c)) == 0.0
  {
    SumShift(s, c);
  }

  /** Otherwise it keeps the length and leaves the early samples with mean 0. */
  lemma OffsetMeanZero(time: seq<real>, signal: seq<real>, cutoff: real)
    requires |time| == |signal| && Before(time, signal, cutoff) != []
    ensures var r := OffsetMean(time, signal, cutoff);
      r.Ok? && |r.value| == |signal| &&
      Before(time, r.value, cutoff) != [] &&
      Mean(Before(time, r.value, cutoff)) == Ok(0.0)
  {
    var early := Before(time, signal, cutoff);
    var offset := Sum(early) / |early| as real;
    assert OffsetMean(time, signal, cutoff) == Ok(Shift(signal, offset));
    BeforeShift(time, signal, cutoff, offset);
    ShiftByMean(early);
  }

  /** `np.convolve(signal, kernel, 'same')` for the constant kernel of
      `m` taps of `1/m`: output `i` is the sum of the signal over the taps'
      window, zero outside the signal, divided by `m`. */
  function WindowSum(s: seq<real>, lo: int, hi: int): real
    decreases hi - lo
  {
    if hi < lo then 0.0
    else WindowSum(s, lo, hi - 1) + (if 0 <= hi < |s| then s[hi] else 0.0)
  }

  /** The offset of the 'same' window: half the shorter operand. */
  function SameShift(n: nat, m: nat): int {
    if n >= m then (m - 1) / 2 else (n - 1) / 2
  }

  /** `MovingAvg(signal, Navg)`: `1/Navg` raises for 0 taps, and
      `np.convolve` refuses an empty operand. */
  function MovingAvg(signal: seq<real>, navg: int): (r: Result<seq<real>>)
    ensures navg == 0 ==> r == Err(ZeroDivisionError)
    ensures r.Ok? <==> navg > 0 && |signal| > 0
    ensures r.Ok? ==> |r.value| == if |signal| >= navg then |signal| else navg
  {
    if navg == 0 then Err(ZeroDivisionError)
    else if navg < 0 || |signal| == 0 then Err(ValueError)
    else
      var m := navg;
      var len := if |signal| >= m then |signal| else m;
      var s := SameShift(|signal|, m);
      Ok(seq(len, i requires 0 <= i < len => WindowSum(signal, i + s - m + 1, i + s) / m as real))
  }

  /** A window that lies inside the signal sums its samples. */
  lemma {:induction false} WindowSumInside(s: seq<real>, lo: int, hi: int)
    requires 0 <= lo && hi < |s| && lo <= hi + 1
    ensures WindowSum(s, lo, hi) == Sum(s[lo..hi + 1])
    decreases hi - lo
  {
    if hi >= lo {
      WindowSumInside(s, lo, hi - 1);
      assert s[lo..hi + 1] == s[lo..hi] + [s[hi]];
      SumAppend(s[lo..hi], [s[hi]]);
    } else {
      assert s[lo..hi + 1] == [];
    }
  }

  /** The moving average of a signal at least `Navg` long keeps its length,
      and where the window fits, each output is the mean of the `Navg`
      samples around it. */
  lemma MovingAvgSpec(signal: seq<real>, navg: int, i: nat)
    requires navg >= 1 && |signal| >= navg
    ensures var r := MovingAvg(signal, navg);
      r.Ok? && |r.value| == |signal| &&
      (var lo := i - navg / 2;
       0 <= lo && lo + navg <= |signal| ==>
         r.value[i] == Sum(signal[lo..lo + navg]) / navg as real)
  {
    var lo := i - navg / 2;
    if 0 <= lo && lo + navg <= |signal| {
      var s := SameShift(|signal|, navg);
      assert i + s - navg + 1 == lo;
      WindowSumInside(signal, lo, lo + navg - 1);
    }
  }

  /** A one-tap moving average changes nothing. */
  lemma MovingAvgOne(signal: seq<real>)
    requires |signal| > 0
    ensures MovingAvg(signal, 1) == Ok(signal)
  {
    assert MovingAvg(signal, 1).Ok?;
    var r := MovingAvg(signal, 1).value;
    assert |r| == |signal|;
    forall i | 0 <= i < |signal| ensures r[i] == signal[i] {
      assert SameShift(|signal|, 1) == 0;
      assert WindowSum(signal, i, i - 1) == 0.0;
      assert WindowSum(signal, i, i) == signal[i];
      assert r[i] == WindowSum(signal, i, i) / 1.0;
    }
    assert r == signal;
  }

  /** The 9 ns cutoff of the May 2022 offset. */
  const OFFSET_CUTOFF: real := 9e-9
  /** The empirical delay of the cable reflection. */
  const REFLECTION_TIME: real := 21.9e-9
  /** The empirical ratio of pulse to reflection. */
  const REFLECTION_RATIO: real := 2.7

  /** `Pre_May22.Offset(time, signal)`. */
  function Offset(time: seq<real>, signal: seq<real>): Result<seq<real>> {
    OffsetMean(time, signal, OFFSET_CUTOFF)
  }

  /** `int(np.rint(refl_time/dt))` with `dt = time[1] - time[0]`; a zero
      step makes the quotient infinite, which `int` refuses. */
  function ReflectionSamples(time: seq<real>): Result<int> {
    if |time| < 2 then Err(IndexError)
    else
      var dt := time[1] - time[0];
      if dt == 0.0 then Err(OverflowError) else Ok(RoundHalfEven(REFLECTION_TIME / dt))
  }

  /** `signal[k:] -= factor*signal[:-k]` on a copy: the target slice
      starts at `start` and is reduced by the samples from the start of the
      original. */
  function Subtracted(s: seq<real>, start: nat, factor: real): (r: seq<real>)
    requires start <= |s|
    ensures |r| == |s|
  {
    seq(|s|, i requires 0 <= i < |s| => if i < start then s[i] else s[i] - factor * s[i - start])
  }

  /** Samples before `start` are kept, each later one loses `factor` times
      the sample `start` before it. */
  lemma SubtractedSpec(s: seq<real>, start: nat, factor: real)
    requires start <= |s|
    ensures var r := Subtracted(s, start, factor);
      (forall i :: 0 <= i < start ==> r[i] == s[i]) &&
      (forall i :: start <= i < |s| ==> r[i] == s[i] - factor * s[i - start])
  {
  }

  /** Where Python's slices `signal[k:]` and `signal[:-k]` meet, for
      `k != 0`: at `min(k, n)` for `k > 0`, at `max(n + k, 0)` for `k < 0`. */
  function SliceStart(n: nat, k: int): (r: nat)
    requires k != 0
    ensures r <= n
    ensures k > 0 ==> r == if k < n then k else n
  {
    if k > 0 then (if k < n then k else n) else (if n + k > 0 then n + k else 0)
  }

  /** `np.max(signal)/2.7`. */
  function Factor(signal: seq<real>): real
    requires |signal| > 0
  {
    Max(signal) / REFLECTION_RATIO
  }

  /** The signal less its reflection `k` samples later, for `k != 0`. */
  function Reflected(signal: seq<real>, k: int, factor: real): (r: seq<real>)
    requires k != 0
    ensures |r| == |signal|
  {
    Subtracted(signal, SliceStart(|signal|, k), factor)
  }

  /** `RemoveReflection(time, signal)` as written: `np.max` of no samples
      raises, and a delay that rounds to 0 samples pairs the whole signal
      with the empty `signal[:-0]`, which raises. */
  function RemoveReflectionAsWritten(time: seq<real>, signal: seq<real>): Result<seq<real>> {
    if |signal| == 0 then Err(ValueError)
    else
      var k :- ReflectionSamples(time);
      if k == 0 then Err(ValueError) else Ok(Reflected(signal, k, Factor(signal)))
  }

  /** A sampling step of 100 ns makes the delay round to 0 samples, and the
      filter fails on a signal sampled that coarsely. */
  lemma RemoveReflectionCoarseFails()
    ensures RemoveReflectionAsWritten([0.0, 1e-7], [1.0, 1.0]) == Err(ValueError)
  {
    var t := [0.0, 1e-7];
    var dt := t[1] - t[0];
    assert dt == 1e-7;
    assert REFLECTION_TIME / dt == 0.219;
    assert ReflectionSamples(t) == Ok(RoundHalfEven(0.219));
    assert Floor(0.219) == 0;
    assert RoundHalfEven(0.219) == 0;
  }

  /** The signal less its reflection `k` samples later, for any `k`, the
      reflection of a delay of 0 samples being the signal itself. */
  function Delayed(signal: seq<real>, k: int, factor: real): (r: seq<real>)
    ensures |r| == |signal|
  {
    if k == 0 then Subtracted(signal, 0, factor) else Reflected(signal, k, factor)
  }

  /** `RemoveReflection` with `signal[:n-k]` for `signal[:-k]`, so that a
      delay of 0 samples subtracts the scaled signal from itself. */
  function RemoveReflection(time: seq<real>, signal: seq<real>): (r: Result<seq<real>>)
    ensures |signal| == 0 ==> r == Err(ValueError)
    ensures r.Ok? ==> |r.value| == |signal|
  {
    if |signal| == 0 then Err(ValueError)
    else
      var k :- ReflectionSamples(time);
      Ok(Delayed(signal, k, Factor(signal)))
  }

  /** For a delay of `k >= 0` samples the first `k` samples are kept and
      each later one loses `max/2.7` times the original sample `k` before. */
  lemma DelayedSpec(signal: seq<real>, k: nat, factor: real)
    ensures var r := Delayed(signal, k, factor);
      |r| == |signal| &&
      (forall i :: 0 <= i < |signal| && i < k ==> r[i] == signal[i]) &&
      (forall i :: k <= i < |signal| ==> r[i] == signal[i] - factor * signal[i - k])
  {
    var start := if k == 0 then 0 else SliceStart(|signal|, k);
    SubtractedSpec(signal, start, factor);
  }

  /** For a positive sampling step the delay is `k >= 0` samples, and the
      filter returns the signal less its reflection `k` samples later. */
  lemma RemoveReflectionSpec(time: seq<real>, signal: seq<real>)
    requires |signal| > 0 && |time| >= 2 && time[1] - time[0] > 0.0
    ensures var k := RoundHalfEven(REFLECTION_TIME / (time[1] - time[0]));
      k >= 0 && ReflectionSamples(time) == Ok(k) &&
      RemoveReflection(time, signal) == Ok(Delayed(signal, k, Factor(signal)))
  {
    var q := REFLECTION_TIME / (time[1] - time[0]);
    assert q > 0.0;
  }

  /** The corrected filter fails exactly where the source fails for every
      delay, agrees with the source wherever the source succeeds, and
      succeeds where the source does not only at a delay of 0 samples. */
  lemma RemoveReflectionAgrees(time: seq<real>, signal: seq<real>)
    ensures RemoveReflection(time, signal).Err? <==>
      |signal| == 0 || ReflectionSamples(time).Err?
    ensures RemoveReflectionAsWritten(time, signal).Ok? ==>
      RemoveReflection(time, signal) == RemoveReflectionAsWritten(time, signal)
    ensures RemoveReflectionAsWritten(time, signal).Err? && RemoveReflection(time, signal).Ok? ==>
      ReflectionSamples(time) == Ok(0)
  {
  }
}
