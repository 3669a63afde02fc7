/** The LeCroy WaveRunner 8104 oscilloscope: the volts-per-division scale
    finder and the guards of two of its commands. */

module Scope {
  import opened Wrappers
  import opened Numeric
  import Text

  /** `SCALE.all`: the selectable volts per division, ascending. */
  const SCALES: seq<real> := [0.001, 0.002, 0.005, 0.01, 0.02, 0.05, 0.1, 0.2, 0.5, 1.0, 2.0, 5.0, 10.0]

  /** `MEASURE.all`: the names of the measurement slots. */
  const MEASURES: seq<string> := ["p1", "p2", "p3", "p4", "p5", "p6", "p7", "p8"]

  lemma ScalesIncreasing()
    ensures |SCALES| == 13 && SCALES[12] == 10.0
    ensures StrictlyIncreasing(SCALES)
  {
    forall i | 0 <= i < 12 ensures SCALES[i] < SCALES[i + 1] {
      assert i == 0 || i == 1 || i == 2 || i == 3 || i == 4 || i == 5 || i == 6 ||
             i == 7 || i == 8 || i == 9 || i == 10 || i == 11;
    }
    StepsIncreasing(SCALES);
  }

  /** The index of the first entry of `s` above `v`, or the last index
      when no entry is above `v`. */
  function FirstAbove(s: seq<real>, v: real): (k: nat)
    requires |s| > 0
    ensures k < |s|
    ensures forall j :: 0 <= j < k ==> s[j] <= v
    ensures k < |s| - 1 ==> s[k] > v
    decreases |s|
  {
    if |s| == 1 || s[0] > v then 0
    else
      var k := FirstAbove(s[1..], v);
      assert forall j :: 1 <= j < k + 1 ==> s[j] == s[1..][j - 1];
      k + 1
  }

  /** In an ascending list the first entry above `v` is the smallest entry
      above it, and the result grows with `v`. */
  lemma FirstAboveMonotone(s: seq<real>, v: real, w: real)
    requires |s| > 0 && StrictlyIncreasing(s) && v <= w
    ensures FirstAbove(s, v) <= FirstAbove(s, w)
    ensures s[FirstAbove(s, v)] <= s[FirstAbove(s, w)]
  {
  }

  /** `SCALE.find(value)`: walks the list from the top and keeps the last
      scale still above `value`, starting from the largest. */
  method Find(value: real) returns (scale: real)
    ensures scale == SCALES[FirstAbove(SCALES, value)]
  {
    ScalesIncreasing();
    scale := FindIn(SCALES, value);
  }

  /** The loop of `find` over an ascending list `s`. */
  method FindIn(s: seq<real>, value: real) returns (scale: real)
    requires |s| > 0 && StrictlyIncreasing(s)
    ensures scale == s[FirstAbove(s, value)]
  {
    scale := s[|s| - 1];
    var i := |s| - 1;
    while i >= 0
      invariant -1 <= i < |s|
      invariant forall j :: i < j < |s| ==> s[j] > value
      invariant scale == if i == |s| - 1 then s[|s| - 1] else s[i + 1]
    {
      if s[i] > value {
        scale := s[i];
      } else {
        break;
      }
      i := i - 1;
    }
    if i >= 0 {
      assert forall j :: 0 <= j <= i ==> s[j] <= s[i];
    }
  }

  /** What `find` promises: an entry of the list; for a value below 10 the
      smallest scale above it; for 10 and more the largest scale, 10,
      which is then not above the value. */
  lemma FindSpec(value: real)
    ensures SCALES[FirstAbove(SCALES, value)] in SCALES
    ensures value < 10.0 ==> var r := SCALES[FirstAbove(SCALES, value)];
      r > value && forall j :: 0 <= j < |SCALES| && SCALES[j] > value ==> r <= SCALES[j]
    ensures value >= 10.0 ==> SCALES[FirstAbove(SCALES, value)] == 10.0
  {
    ScalesIncreasing();
    var k := FirstAbove(SCALES, value);
    if value < 10.0 {
      forall j | 0 <= j < |SCALES| && SCALES[j] > value ensures SCALES[k] <= SCALES[j] {
        assert k <= j;
      }
    }
  }

  /** `find` never picks a smaller scale for a larger value. */
  lemma FindMonotone(v: real, w: real)
    requires v <= w
    ensures SCALES[FirstAbove(SCALES, v)] <= SCALES[FirstAbove(SCALES, w)]
  {
    ScalesIncreasing();
    FirstAboveMonotone(SCALES, v, w);
  }

  /** The commands the control sent, as the VBS text passed to `vbs`. */
  class WaveRunner {
    var sent: seq<string>

    constructor ()
      ensures sent == []
    {
      sent := [];
    }

    /** `Average(channel, num)`: refused for fewer than one sweep with
        nothing sent; otherwise `AverageSweeps` set to `int(num)`. The
        result `true` stands for the source's `None` from `_vbsCMD`. */
    method Average(channel: string, num: real) returns (ok: bool)
      modifies this
      ensures ok == (num >= 1.0)
      ensures !ok ==> sent == old(sent)
      ensures ok ==> (Trunc(num) >= 1 &&
        sent == old(sent) + ["app.Acquisition." + channel + ".AverageSweeps = " + Text.NatToString(Trunc(num))])
    {
      if num < 1.0 {
        return false;
      }
      var n := Trunc(num);
      sent := sent + ["app.Acquisition." + channel + ".AverageSweeps = " + Text.NatToString(n)];
      return true;
    }
  }

  /** `MeasureValue(msr)` as written, with `reading` the scope's answer:
      the plain class `MEASURE` has no `values()`, so every call raises. */
  function MeasureValueAsWritten(msr: string, reading: string): Result<Option<real>> {
    Err(AttributeError)
  }

  /** `MeasureValue(msr)` as evidently intended: `None` for a name that is
      not a measurement slot, else `float` of the reading. */
  function MeasureValue(msr: string, reading: string): (r: Result<Option<real>>)
    ensures msr !in MEASURES ==> r == Ok(None)
    ensures msr in MEASURES ==> (r.Ok? <==> Text.ParseFloat(reading).Some?)
    ensures r.Ok? && r.value.Some? ==> msr in MEASURES && Some(r.value.value) == Text.ParseFloat(reading)
  {
    if msr !in MEASURES then Ok(None)
    else if Text.ParseFloat(reading).None? then Err(ValueError)
    else Ok(Some(Text.ParseFloat(reading).value))
  }

  /** A valid slot whose reading converts yields a value, yet the written
      guard raises for it; an unknown name gives `None` only in the
      corrected one. */
  lemma MeasureValueFinding(reading: string)
    requires Text.ParseFloat(reading).Some?
    ensures MeasureValueAsWritten("p1", reading).Err?
    ensures MeasureValue("p1", reading) == Ok(Some(Text.ParseFloat(reading).value))
    ensures MeasureValueAsWritten("q", reading).Err? && MeasureValue("q", reading) == Ok(None)
  {
    assert MEASURES[0] == "p1";
    assert forall i :: 0 <= i < |MEASURES| ==> MEASURES[i][0] == 'p';
  }
}
