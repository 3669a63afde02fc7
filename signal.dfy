/** The sampled signals of the charge-transport simulation: a plain signal
    of times and values, one that grows sample by sample, and one on an even
    time grid. */

module Signals {
  import opened Wrappers
  import opened Numeric

  const DIFFERENT_SAMPLING: string := "Can not add two signals with different time sampling!"

  /** `Signal(time, signal)`: two arrays, not checked against each other. */
  datatype Signal = Signal(time: seq<real>, signal: seq<real>)

  /** `a + b` on two one-dimensional numpy arrays: element by element, a
      one-element array broadcast against the other, and a shape mismatch
      otherwise. */
  function AddValues(x: seq<real>, y: seq<real>): (r: Result<seq<real>>)
    ensures r.Ok? <==> |x| == |y| || |x| == 1 || |y| == 1
    ensures r.Err? ==> r.error == ValueError
  {
    if |x| == |y| then Ok(seq(|x|, i requires 0 <= i < |x| => x[i] + y[i]))
    else if |x| == 1 then Ok(seq(|y|, i requires 0 <= i < |y| => x[0] + y[i]))
    else if |y| == 1 then Ok(seq(|x|, i requires 0 <= i < |x| => x[i] + y[0]))
    else Err(ValueError)
  }

  /** Arrays of one length add element by element. */
  lemma AddValuesPointwise(x: seq<real>, y: seq<real>)
    requires |x| == |y|
    ensures AddValues(x, y).Ok? && |AddValues(x, y).value| == |x|
    ensures forall i :: 0 <= i < |x| ==> AddValues(x, y).value[i] == x[i] + y[i]
  {
  }

  /** Array addition does not depend on the order of the operands. */
  lemma AddValuesCommutes(x: seq<real>, y: seq<real>)
    ensures AddValues(x, y) == AddValues(y, x)
  {
    if AddValues(x, y).Ok? {
      var a, b := AddValues(x, y).value, AddValues(y, x).value;
      assert |a| == |b|;
      forall i | 0 <= i < |a| ensures a[i] == b[i] {
      }
      assert a == b;
    }
  }

  /** `Signal.__add__`: the time arrays must be equal; the values add. */
  function Add(a: Signal, b: Signal): (r: Result<Signal>)
    ensures a.time != b.time ==> r == Err(Raised(DIFFERENT_SAMPLING))
    ensures r.Ok? ==> r.value.time == a.time == b.time
  {
    if a.time != b.time then Err(Raised(DIFFERENT_SAMPLING))
    else
      var values :- AddValues(a.signal, b.signal);
      Ok(Signal(a.time, values))
  }

  /** Two signals sampled at the same times, each with one value per time,
      add without failing: the sum keeps the times and adds pointwise. */
  lemma AddSpec(a: Signal, b: Signal)
    requires a.time == b.time && |a.signal| == |a.time| && |b.signal| == |b.time|
    ensures Add(a, b).Ok?
    ensures var s := Add(a, b).value;
      |s.signal| == |a.time| && forall i :: 0 <= i < |s.signal| ==> s.signal[i] == a.signal[i] + b.signal[i]
  {
  }

  /** Adding signals commutes, failures included. */
  lemma AddCommutes(a: Signal, b: Signal)
    ensures Add(a, b) == Add(b, a)
  {
    AddValuesCommutes(a.signal, b.signal);
  }

  /** The zero signal on the same times is a unit of addition. */
  lemma AddZero(a: Signal)
    requires |a.signal| == |a.time|
    ensures Add(a, Signal(a.time, seq(|a.time|, _ => 0.0))) == Ok(a)
  {
    var z := seq(|a.time|, _ => 0.0);
    AddValuesPointwise(a.signal, z);
    assert AddValues(a.signal, z).value == a.signal;
  }

  /** `SignalExtensible`: a signal built by appending samples. */
  class SignalExtensible {
    var times: seq<real>
    var values: seq<real>

    ghost predicate Valid()
      reads this
    {
      |times| == |values|
    }

    constructor ()
      ensures Valid() && times == [] && values == []
    {
      times, values := [], [];
    }

    /** `add(time, signal)`: one more sample at the end. */
    method Add(t: real, v: real)
      requires Valid()
      modifies this
      ensures Valid()
      ensures times == old(times) + [t] && values == old(values) + [v]
    {
      times := times + [t];
      values := values + [v];
    }

    /** `samples()`: one per call of `add`. */
    function Samples(): (n: nat)
      requires Valid()
      reads this
      ensures n == |times| == |values|
    {
      |times|
    }

    /** The signal as the base class's methods see it. */
    function AsSignal(): (s: Signal)
      reads this
    {
      Signal(times, values)
    }
  }

  /** `SignalEven(tstart, dt, signal)`: values on an even grid. */
  datatype SignalEven = SignalEven(tstart: real, dt: real, signal: seq<real>)

  /** `np.linspace(tstart, tstart + n*dt, n, endpoint=False)`. */
  function EvenTimes(tstart: real, dt: real, n: nat): (r: seq<real>)
    ensures |r| == n
  {
    var step := if n == 0 then 0.0 else ((tstart + n as real * dt) - tstart) / n as real;
    seq(n, i => tstart + i as real * step)
  }

  /** The grid has its points at `tstart + i*dt`. */
  lemma EvenTimesSpec(tstart: real, dt: real, n: nat)
    ensures forall i :: 0 <= i < n ==> EvenTimes(tstart, dt, n)[i] == tstart + i as real * dt
  {
    if n > 0 {
      assert ((tstart + n as real * dt) - tstart) / n as real == dt;
    }
  }

  /** For a positive step the grid strictly increases. */
  lemma EvenTimesIncreasing(tstart: real, dt: real, n: nat)
    requires dt > 0.0
    ensures StrictlyIncreasing(EvenTimes(tstart, dt, n))
  {
    EvenTimesSpec(tstart, dt, n);
    var r := EvenTimes(tstart, dt, n);
    forall i, j | 0 <= i < j < n ensures r[i] < r[j] {
      assert (j - i) as real * dt > 0.0;
    }
  }

  /** The times and values a `SignalEven` holds as a `Signal`. */
  function AsSignal(s: SignalEven): (r: Signal)
    ensures |r.time| == |r.signal| == |s.signal|
  {
    Signal(EvenTimes(s.tstart, s.dt, |s.signal|), s.signal)
  }

  /** The right operand of `SignalEven.__add__`. */
  datatype Operand = Even(even: SignalEven) | Plain(plain: Signal)

  /** `SignalEven.__add__` as written: with a matching `SignalEven` it
      names the undefined `SignalEvent`, and for any other signal it calls
      the base addition but drops its result. */
  function EvenAddAsWritten(a: SignalEven, o: Operand): (r: Result<Option<Signal>>)
  {
    match o
    case Even(b) =>
      if a.tstart != b.tstart || a.dt != b.dt then Err(Raised(DIFFERENT_SAMPLING))
      else Err(NameError)
    case Plain(b) =>
      var sum :- Add(AsSignal(a), b);
      Ok(None)
  }

  /** As written, `SignalEven.__add__` never returns a sum. */
  lemma EvenAddAsWrittenNoSum(a: SignalEven, o: Operand)
    ensures EvenAddAsWritten(a, o) == Ok(None) || EvenAddAsWritten(a, o).Err?
    ensures o.Even? && o.even.tstart == a.tstart && o.even.dt == a.dt ==>
      EvenAddAsWritten(a, o) == Err(NameError)
  {
  }

  /** `SignalEven.__add__` as intended: the pointwise sum on the shared
      grid, and the base addition for any other signal. */
  function EvenAdd(a: SignalEven, o: Operand): (r: Result<Operand>)
    ensures o.Even? && (a.tstart != o.even.tstart || a.dt != o.even.dt) ==> r == Err(Raised(DIFFERENT_SAMPLING))
    ensures r.Ok? && o.Even? ==> r.value.Even? && r.value.even.tstart == a.tstart && r.value.even.dt == a.dt
    ensures o.Plain? ==> r == (var s := Add(AsSignal(a), o.plain); if s.Ok? then Ok(Plain(s.value)) else Err(s.error))
  {
    match o
    case Even(b) =>
      if a.tstart != b.tstart || a.dt != b.dt then Err(Raised(DIFFERENT_SAMPLING))
      else
        var values :- AddValues(a.signal, b.signal);
        Ok(Even(SignalEven(a.tstart, a.dt, values)))
    case Plain(b) =>
      var s :- Add(AsSignal(a), b);
      Ok(Plain(s))
  }

  /** The intended even addition agrees with the base addition of the two
      signals on their shared grid. */
  lemma EvenAddAgrees(a: SignalEven, b: SignalEven)
    requires a.tstart == b.tstart && a.dt == b.dt && |a.signal| == |b.signal|
    ensures EvenAdd(a, Even(b)).Ok? && Add(AsSignal(a), AsSignal(b)).Ok?
    ensures AsSignal(EvenAdd(a, Even(b)).value.even) == Add(AsSignal(a), AsSignal(b)).value
  {
    AddValuesPointwise(a.signal, b.signal);
  }

  /** The linear interpolant of a table, at a table point, is that point's
      value. */
  lemma InterpAtKnot(xs: seq<real>, ys: seq<real>, j: nat)
    requires |xs| == |ys| >= 1 && StrictlyIncreasing(xs) && j < |xs|
    ensures Interp(xs[j], xs, ys) == ys[j]
  {
    if j + 1 < |xs| {
      InterpOnSegment(xs[j], xs, ys, j);
    }
  }

  /** `resample(dt)` for samples taken at strictly increasing times: the
      linear interpolant on `arange(min(t), max(t), dt)`. */
  function Resample(s: Signal, dt: real): (r: Result<SignalEven>)
    requires StrictlyIncreasing(s.time)
    ensures |s.time| != |s.signal| || |s.time| < 2 ==> r == Err(ValueError)
    ensures r.Ok? ==> r.value.tstart == s.time[0] && r.value.dt == dt
  {
    if |s.time| != |s.signal| || |s.time| < 2 then Err(ValueError)
    else
      var lo, hi := Min(s.time), Max(s.time);
      var grid :- Arange(lo, hi, dt);
      if |grid| == 0 then Err(IndexError)
      else
        assert lo == s.time[0] && hi == s.time[|s.time| - 1];
        Ok(SignalEven(grid[0], dt, Sampled(s.time, s.signal, grid)))
  }

  /** The linear interpolant of the table `(xs, ys)` at each grid point. */
  function Sampled(xs: seq<real>, ys: seq<real>, grid: seq<real>): (r: seq<real>)
    requires |xs| == |ys| >= 1 && StrictlyIncreasing(xs)
    ensures |r| == |grid|
  {
    seq(|grid|, i requires 0 <= i < |grid| => Interp(grid[i], xs, ys))
  }

  /** With a positive step, resampling succeeds; the new grid covers
      `[min(t), max(t))` and holds the linear interpolant. */
  lemma ResampleSpec(s: Signal, dt: real)
    requires StrictlyIncreasing(s.time) && |s.time| == |s.signal| >= 2 && dt > 0.0
    ensures Resample(s, dt).Ok?
    ensures var e := Resample(s, dt).value;
      var t := EvenTimes(e.tstart, e.dt, |e.signal|);
      (forall i :: 0 <= i < |t| ==>
         (s.time[0] <= t[i] < s.time[|s.time| - 1] && e.signal[i] == Interp(t[i], s.time, s.signal))) &&
      s.time[0] + |t| as real * dt >= s.time[|s.time| - 1]
  {
    var lo, hi := s.time[0], s.time[|s.time| - 1];
    var grid := ResampleGrid(s, dt);
    GridTimes(lo, hi, dt, grid);
    var values := Sampled(s.time, s.signal, grid);
    assert Resample(s, dt).value == SignalEven(lo, dt, values);
    forall i | 0 <= i < |grid| ensures values[i] == Interp(grid[i], s.time, s.signal) {
    }
  }

  /** The points of `arange(lo, hi, dt)` for a positive step are the even
      grid from `lo` with step `dt`, and they lie in `[lo, hi)`. */
  lemma GridTimes(lo: real, hi: real, dt: real, grid: seq<real>)
    requires dt > 0.0 && grid == Arange(lo, hi, dt).value
    ensures EvenTimes(lo, dt, |grid|) == grid
    ensures forall i :: 0 <= i < |grid| ==> lo <= grid[i] < hi
    ensures lo + |grid| as real * dt >= hi
  {
    ArangeSpec(lo, hi, dt);
    EvenTimesSpec(lo, dt, |grid|);
    forall i | 0 <= i < |grid| ensures lo <= grid[i] {
      assert i as real * dt >= 0.0;
    }
  }

  /** With a positive step the grid is `arange(t[0], t[-1], dt)` and is
      not empty. */
  lemma ResampleGrid(s: Signal, dt: real) returns (grid: seq<real>)
    requires StrictlyIncreasing(s.time) && |s.time| == |s.signal| >= 2 && dt > 0.0
    ensures grid == Arange(s.time[0], s.time[|s.time| - 1], dt).value && |grid| >= 1
    ensures Resample(s, dt) == Ok(SignalEven(s.time[0], dt, Sampled(s.time, s.signal, grid)))
  {
    var lo, hi := s.time[0], s.time[|s.time| - 1];
    ArangeSpec(lo, hi, dt);
    grid := Arange(lo, hi, dt).value;
    assert lo < hi;
    assert Min(s.time) == lo && Max(s.time) == hi;
  }

  /** Resampling an even signal on its own step gives back every sample
      but the last: `arange` stops short of the last time. */
  lemma ResampleEven(e: SignalEven)
    requires e.dt > 0.0 && |e.signal| >= 2
    ensures var s := AsSignal(e);
      StrictlyIncreasing(s.time) &&
      Resample(s, e.dt) == Ok(SignalEven(e.tstart, e.dt, e.signal[..|e.signal| - 1]))
  {
    var n := |e.signal|;
    var s := AsSignal(e);
    EvenTimesSpec(e.tstart, e.dt, n);
    EvenTimesIncreasing(e.tstart, e.dt, n);
    var lo, hi := s.time[0], s.time[n - 1];
    assert hi - lo == (n - 1) as real * e.dt;
    assert (hi - lo) / e.dt == (n - 1) as real;
    assert ArangeLength(lo, hi, e.dt) == n - 1;
    var grid := Arange(lo, hi, e.dt).value;
    assert forall i :: 0 <= i < n - 1 ==> grid[i] == s.time[i];
    var r := Resample(s, e.dt).value;
    forall i | 0 <= i < n - 1 ensures r.signal[i] == e.signal[i] {
      InterpAtKnot(s.time, s.signal, i);
    }
    assert r.signal == e.signal[..n - 1];
  }

  /** `filterLowPass(fc, gain)`: the filter's output, scaled by `gain`, on
      the same grid. The sampling rate `fs = 1/dt` raises for a zero step;
      the Butterworth filter itself is the parameter `sosfilt`. */
  function FilterLowPass(s: SignalEven, sosfilt: seq<real> -> seq<real>, gain: real): (r: Result<SignalEven>)
    ensures r.Err? <==> s.dt == 0.0
    ensures r.Err? ==> r.error == ZeroDivisionError
    ensures r.Ok? ==> r.value.tstart == s.tstart && r.value.dt == s.dt
  {
    if s.dt == 0.0 then Err(ZeroDivisionError)
    else
      var filtered := sosfilt(s.signal);
      Ok(SignalEven(s.tstart, s.dt, seq(|filtered|, i requires 0 <= i < |filtered| => filtered[i] * gain)))
  }

  /** A filter that keeps the sample count keeps the whole time grid. */
  lemma FilterKeepsGrid(s: SignalEven, sosfilt: seq<real> -> seq<real>, gain: real)
    requires s.dt != 0.0 && |sosfilt(s.signal)| == |s.signal|
    ensures AsSignal(FilterLowPass(s, sosfilt, gain).value).time == AsSignal(s).time
    ensures forall i :: 0 <= i < |s.signal| ==> FilterLowPass(s, sosfilt, gain).value.signal[i] == gain * sosfilt(s.signal)[i]
  {
  }
}
