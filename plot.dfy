/** The reductions an online plot applies to a recorded curve (`min()`,
    `max()`, `integral()` after removing the pre-trigger offset) and the
    axis scaling, labels and legends it takes from the display metadata. */
module Plot {
  import opened Wrappers
  import opened Numeric
  import opened AnalysisDefinition

  /** The samples of `amp` whose time is `>= 0` (`keep`) or `< 0` (`!keep`),
      in order: numpy's boolean selection `amp[time >= 0]` / `amp[time < 0]`. */
  function Where(amp: seq<real>, time: seq<real>, keep: bool): (r: seq<real>)
    requires |amp| == |time|
    ensures |r| == WhereCount(time, keep)
    decreases |amp|
  {
    if amp == [] then []
    else
      var n := |amp| - 1;
      var rest := Where(amp[..n], time[..n], keep);
      if (time[n] >= 0.0) == keep then rest + [amp[n]] else rest
  }

  /** How many times are `>= 0` (`keep`) or `< 0` (`!keep`). */
  function WhereCount(time: seq<real>, keep: bool): nat
    decreases |time|
  {
    if time == [] then 0
    else WhereCount(time[..|time| - 1], keep) + (if (time[|time| - 1] >= 0.0) == keep then 1 else 0)
  }

  /** Every sample on the chosen side of zero is selected. */
  lemma {:induction false} WhereIncludes(amp: seq<real>, time: seq<real>, keep: bool, i: nat)
    requires |amp| == |time| && i < |amp| && (time[i] >= 0.0) == keep
    ensures amp[i] in Where(amp, time, keep)
    decreases |amp|
  {
    var n := |amp| - 1;
    if i < n {
      WhereIncludes(amp[..n], time[..n], keep, i);
    }
  }

  /** Every selected sample comes from the chosen side of zero. */
  lemma {:induction false} WhereFrom(amp: seq<real>, time: seq<real>, keep: bool, x: real) returns (i: nat)
    requires |amp| == |time| && x in Where(amp, time, keep)
    ensures i < |amp| && (time[i] >= 0.0) == keep && amp[i] == x
    decreases |amp|
  {
    var n := |amp| - 1;
    if x in Where(amp[..n], time[..n], keep) {
      i := WhereFrom(amp[..n], time[..n], keep, x);
    } else {
      i := n;
    }
  }

  /** Every sample lands on exactly one side of zero. */
  lemma {:induction false} WhereSplit(time: seq<real>)
    ensures WhereCount(time, true) + WhereCount(time, false) == |time|
    decreases |time|
  {
    if time != [] {
      WhereSplit(time[..|time| - 1]);
    }
  }

  /** `s + c`, element by element. */
  function Shift(s: seq<real>, c: real): (r: seq<real>)
    ensures |r| == |s| && forall i :: 0 <= i < |s| ==> r[i] == s[i] + c
  {
    seq(|s|, i requires 0 <= i < |s| => s[i] + c)
  }

  /** `np.mean(amplitude[time < 0])`: NaN when no sample precedes the
      trigger. */
  function Offset(time: seq<real>, amp: seq<real>): (r: Result<real>)
    requires |amp| == |time|
    ensures r.Ok? <==> WhereCount(time, false) > 0
    ensures r.Ok? ==> r.value * WhereCount(time, false) as real == Sum(Where(amp, time, false))
  {
    Mean(Where(amp, time, false))
  }

  /** `apply(fct, time, amplitude)`: the offset-corrected samples at
      `time >= 0` reduced by `fct`. A length mismatch fails the boolean
      selection; `min`/`max` of no samples raises; a NaN offset makes the
      result NaN, except that the trapezoid rule over fewer than two
      samples is an empty sum. */
  function Apply(fct: string, time: seq<real>, amp: seq<real>): (r: Result<real>)
    ensures |time| != |amp| ==> r == Err(IndexError)
    ensures |time| == |amp| && fct != PLOT_MIN && fct != PLOT_MAX && fct != PLOT_INTEGRAL ==>
      r == Err(Raised("Unknwon plot function [" + fct + "]!"))
    ensures |time| == |amp| && (fct == PLOT_MIN || fct == PLOT_MAX) ==>
      (WhereCount(time, true) == 0 ==> r == Err(ValueError)) &&
      (WhereCount(time, true) > 0 && WhereCount(time, false) == 0 ==> r == Err(NotANumber)) &&
      (r.Ok? <==> WhereCount(time, true) > 0 && WhereCount(time, false) > 0)
    ensures |time| == |amp| && fct == PLOT_INTEGRAL ==>
      (WhereCount(time, true) < 2 ==> r == Ok(0.0)) &&
      (r.Err? <==> WhereCount(time, true) >= 2 && WhereCount(time, false) == 0) &&
      (r.Err? ==> r == Err(NotANumber))
  {
    if |time| != |amp| then Err(IndexError)
    else Reduce(fct, Where(amp, time, true), Where(time, time, true), Offset(time, amp))
  }

  /** The reduction `apply` makes of the samples `kept` at `time >= 0`,
      taken at `keptTime`, given the offset. */
  function Reduce(fct: string, kept: seq<real>, keptTime: seq<real>, offset: Result<real>): Result<real>
    requires |kept| == |keptTime|
  {
    if fct == PLOT_MIN || fct == PLOT_MAX then
      if kept == [] then Err(ValueError)
      else if offset.Err? then Err(NotANumber)
      else
        var corrected := Shift(kept, -offset.value);
        Ok(if fct == PLOT_MIN then Min(corrected) else Max(corrected))
    else if fct == PLOT_INTEGRAL then
      if |kept| < 2 then Ok(0.0)
      else if offset.Err? then Err(NotANumber)
      else Ok(Trapz(Shift(kept, -offset.value), keptTime))
    else Err(Raised("Unknwon plot function [" + fct + "]!"))
  }

  /** `max()` is the largest corrected sample after the trigger and `min()`
      the smallest: each is reached by some sample at `time >= 0` and bounds
      all of them, where the offset is the mean before the trigger. */
  lemma ApplyExtremes(fct: string, time: seq<real>, amp: seq<real>)
    requires |time| == |amp| && (fct == PLOT_MIN || fct == PLOT_MAX)
    requires Apply(fct, time, amp).Ok?
    ensures var r := Apply(fct, time, amp).value;
      var off := Offset(time, amp).value;
      (exists i :: 0 <= i < |amp| && time[i] >= 0.0 && r == amp[i] - off) &&
      (fct == PLOT_MAX ==> forall i :: 0 <= i < |amp| && time[i] >= 0.0 ==> amp[i] - off <= r) &&
      (fct == PLOT_MIN ==> forall i :: 0 <= i < |amp| && time[i] >= 0.0 ==> r <= amp[i] - off)
  {
    var off := Offset(time, amp).value;
    var kept := Where(amp, time, true);
    var corrected := Shift(kept, -off);
    var r := Apply(fct, time, amp).value;
    assert exists j :: 0 <= j < |corrected| && corrected[j] == r;
    var j :| 0 <= j < |corrected| && corrected[j] == r;
    var i := WhereFrom(amp, time, true, kept[j]);
    assert r == amp[i] - off;
    forall i | 0 <= i < |amp| && time[i] >= 0.0
      ensures exists k :: 0 <= k < |corrected| && corrected[k] == amp[i] - off
    {
      WhereIncludes(amp, time, true, i);
      var k :| 0 <= k < |kept| && kept[k] == amp[i];
      assert corrected[k] == amp[i] - off;
    }
  }

  /** The integral is the trapezoid rule of the corrected samples against
      their own times. */
  lemma ApplyIntegral(time: seq<real>, amp: seq<real>)
    requires |time| == |amp| && WhereCount(time, true) >= 2 && WhereCount(time, false) > 0
    ensures Apply(PLOT_INTEGRAL, time, amp) ==
      Ok(Trapz(Shift(Where(amp, time, true), -Offset(time, amp).value), Where(time, time, true)))
  {
    var kept, keptTime, offset := Where(amp, time, true), Where(time, time, true), Offset(time, amp);
    assert Apply(PLOT_INTEGRAL, time, amp) == Reduce(PLOT_INTEGRAL, kept, keptTime, offset);
    assert |kept| >= 2 && offset.Ok?;
  }

  lemma {:induction false} WhereShift(amp: seq<real>, time: seq<real>, keep: bool, c: real)
    requires |amp| == |time|
    ensures Where(Shift(amp, c), time, keep) == Shift(Where(amp, time, keep), c)
    decreases |amp|
  {
    if amp != [] {
      var n := |amp| - 1;
      assert Shift(amp, c)[..n] == Shift(amp[..n], c);
      WhereShift(amp[..n], time[..n], keep, c);
    }
  }

  lemma {:induction false} SumShift(s: seq<real>, c: real)
    ensures Sum(Shift(s, c)) == Sum(s) + |s| as real * c
    decreases |s|
  {
    if s != [] {
      var n := |s| - 1;
      assert Shift(s, c)[..n] == Shift(s[..n], c);
      SumShift(s[..n], c);
    }
  }

  /** Adding a constant baseline to every amplitude changes none of the
      reductions: the offset absorbs it. */
  lemma ApplyBaselineFree(fct: string, time: seq<real>, amp: seq<real>, c: real)
    requires |time| == |amp|
    ensures Apply(fct, time, Shift(amp, c)) == Apply(fct, time, amp)
  {
    var kept := Where(amp, time, true);
    var keptTime := Where(time, time, true);
    WhereShift(amp, time, true, c);
    OffsetShift(time, amp, c);
    ReduceShift(fct, kept, keptTime, Offset(time, amp), Offset(time, Shift(amp, c)), c);
  }

  /** The reduction of samples shifted by `c` against an offset shifted by
      `c` is the reduction of the unshifted ones. */
  lemma ReduceShift(fct: string, kept: seq<real>, keptTime: seq<real>, offset: Result<real>, offset': Result<real>, c: real)
    requires |kept| == |keptTime|
    requires offset'.Ok? == offset.Ok? && (offset.Ok? ==> offset'.value == offset.value + c)
    ensures Reduce(fct, Shift(kept, c), keptTime, offset') == Reduce(fct, kept, keptTime, offset)
  {
    if offset.Ok? {
      ShiftTwice(kept, c, offset.value, offset'.value);
      ReduceSame(fct, Shift(kept, c), kept, keptTime, offset', offset);
    }
  }

  /** Two sets of samples whose corrected values agree reduce alike. */
  lemma ReduceSame(fct: string, kept: seq<real>, kept': seq<real>, keptTime: seq<real>, offset: Result<real>, offset': Result<real>)
    requires |kept| == |kept'| == |keptTime| && offset.Ok? && offset'.Ok?
    requires Shift(kept, -offset.value) == Shift(kept', -offset'.value)
    ensures Reduce(fct, kept, keptTime, offset) == Reduce(fct, kept', keptTime, offset')
  {
  }

  /** Shifting by `c` and then back by `off + c` is shifting by `-off`. */
  lemma ShiftTwice(s: seq<real>, c: real, off: real, off': real)
    requires off' == off + c
    ensures Shift(Shift(s, c), -off') == Shift(s, -off)
  {
  }

  /** The offset of a shifted curve is shifted by the same amount. */
  lemma OffsetShift(time: seq<real>, amp: seq<real>, c: real)
    requires |time| == |amp|
    ensures Offset(time, Shift(amp, c)).Ok? == Offset(time, amp).Ok?
    ensures Offset(time, amp).Ok? ==> Offset(time, Shift(amp, c)).value == Offset(time, amp).value + c
  {
    WhereShift(amp, time, false, c);
    MeanShift(Where(amp, time, false), c);
  }

  /** The mean of a shifted sequence is shifted by the same amount. */
  lemma MeanShift(s: seq<real>, c: real)
    ensures Mean(Shift(s, c)).Ok? == Mean(s).Ok?
    ensures Mean(s).Ok? ==> Mean(Shift(s, c)).value == Mean(s).value + c
  {
    if s != [] {
      var n := |s| as real;
      SumShift(s, c);
      assert Mean(Shift(s, c)).value == (Sum(s) + n * c) / n;
      DivShift(Sum(s), n, c);
    }
  }

  lemma DivShift(total: real, n: real, c: real)
    requires n > 0.0
    ensures (total + n * c) / n == total / n + c
  {
  }

  // ---------------------------------------------------------------------
  // Scaling, labels and legends.
  // ---------------------------------------------------------------------

  /** `transform(key, values)`: values scaled by the key's display factor. */
  function Transform(key: string, values: seq<real>): (r: seq<real>)
    ensures |r| == |values| && forall i :: 0 <= i < |values| ==> r[i] == values[i] * GetMeta(key).factor
  {
    seq(|values|, i requires 0 <= i < |values| => values[i] * GetMeta(key).factor)
  }

  /** Every display factor is positive, so scaling keeps the order of the
      values and can be undone. */
  lemma FactorPositive(key: string)
    ensures GetMeta(key).factor > 0.0
  {
  }

  lemma TransformOrder(key: string, values: seq<real>, i: nat, j: nat)
    requires i < |values| && j < |values|
    ensures values[i] < values[j] <==> Transform(key, values)[i] < Transform(key, values)[j]
  {
    FactorPositive(key);
    var f := GetMeta(key).factor;
    if values[i] < values[j] {
      assert values[i] * f < values[j] * f;
    }
    if values[i] * f < values[j] * f {
      assert (values[j] - values[i]) * f > 0.0;
    }
  }

  /** `label(key)`: `'{name} [{unit}]'`. */
  function Label(key: string): (r: string)
    ensures key !in META ==> r == key + " [na]"
  {
    var m := GetMeta(key);
    m.name + " [" + m.unit + "]"
  }

  /** `legend(key, value)`: `'{short}: {value * factor} {unit}'`, the
      number printed by `show`. */
  function Legend(key: string, value: real, show: real -> string): (r: string)
    ensures key !in META ==> r == key + ": " + show(value) + " na"
  {
    LegendOf(GetMeta(key), Shown(show, value * GetMeta(key).factor))
  }

  /** The text `show` prints for the number `x`. */
  function Shown(show: real -> string, x: real): string {
    show(x)
  }

  /** The legend text of one metadata entry, with the number as printed. */
  function LegendOf(m: MetaEntry, number: string): string {
    m.short + ": " + number + " " + m.unit
  }

  /** `label(key)` on the table as written: unpacking the metadata tuple
      comes first. */
  function LabelAsWritten(key: string): (r: Result<string>)
  {
    var m :- Unpack(GetMetaAsWritten(key));
    Ok(m.name + " [" + m.unit + "]")
  }

  /** `transform(key, values)` on the table as written. */
  function TransformAsWritten(key: string, values: seq<real>): (r: Result<seq<real>>)
  {
    var m :- Unpack(GetMetaAsWritten(key));
    Ok(seq(|values|, i requires 0 <= i < |values| => values[i] * m.factor))
  }

  /** `legend(key, value)` on the table as written. */
  function LegendAsWritten(key: string, value: real, show: real -> string): (r: Result<string>)
  {
    var m :- Unpack(GetMetaAsWritten(key));
    Ok(LegendOf(m, Shown(show, value * m.factor)))
  }

  /** As written, scaling values for `max()` raises while every other key
      is scaled by its corrected factor. */
  lemma TransformFinding(key: string, values: seq<real>)
    ensures TransformAsWritten(PLOT_MAX, values) == Err(ValueError)
    ensures key != PLOT_MAX ==> TransformAsWritten(key, values) == Ok(Transform(key, values))
  {
    MaxMetaUnpackFails();
    GetMetaCorrected(key);
  }

  /** As written, the legend of `max()` raises while every other key gets
      the corrected legend. */
  lemma LegendFinding(key: string, value: real, show: real -> string)
    ensures LegendAsWritten(PLOT_MAX, value, show) == Err(ValueError)
    ensures Legend(PLOT_MAX, value, show) == "min(): " + show(value * 1000.0) + " mV"
    ensures key != PLOT_MAX ==> LegendAsWritten(key, value, show) == Ok(Legend(key, value, show))
  {
    MaxMetaUnpackFails();
    GetMetaCorrected(key);
    if key != PLOT_MAX {
      LegendUnpacked(key, value, show);
    }
  }

  lemma LegendUnpacked(key: string, value: real, show: real -> string)
    requires Unpack(GetMetaAsWritten(key)) == Ok(GetMeta(key))
    ensures LegendAsWritten(key, value, show) == Ok(Legend(key, value, show))
  {
  }

  /** The number a legend prints is the value as `transform` scales it. */
  lemma LegendShowsTransform(key: string, value: real, show: real -> string)
    ensures var m := GetMeta(key);
      Legend(key, value, show) == m.short + ": " + Shown(show, Transform(key, [value])[0]) + " " + m.unit
  {
    assert Transform(key, [value])[0] == value * GetMeta(key).factor;
  }

  /** A legend ends with the unit its label names in brackets. */
  lemma LegendLabelUnit(key: string, value: real, show: real -> string)
    ensures var u := GetMeta(key).unit; var l := Label(key); var g := Legend(key, value, show);
      |l| >= |u| + 3 && |g| >= |u| + 1 &&
      l[|l| - |u| - 3..] == " [" + u + "]" && g[|g| - |u| - 1..] == " " + u
  {
    var m := GetMeta(key);
    LabelUnit(m.name, m.unit, Label(key));
    LegendOfUnit(m, Shown(show, value * m.factor));
  }

  lemma LabelUnit(name: string, unit: string, l: string)
    requires l == name + " [" + unit + "]"
    ensures |l| >= |unit| + 3 && l[|l| - |unit| - 3..] == " [" + unit + "]"
  {
    assert l == name + (" [" + unit + "]");
    EndsWithPart(name, " [" + unit + "]");
  }

  lemma LegendOfUnit(m: MetaEntry, number: string)
    ensures var g := LegendOf(m, number);
      |g| >= |m.unit| + 1 && g[|g| - |m.unit| - 1..] == " " + m.unit
  {
    assert LegendOf(m, number) == (m.short + ": " + number) + (" " + m.unit);
    EndsWithPart(m.short + ": " + number, " " + m.unit);
  }

  lemma EndsWithPart(p: string, q: string)
    ensures |p + q| >= |q| && (p + q)[|p + q| - |q|..] == q
  {
  }

  /** As written, the label of `max()` raises while every other key gets
      the corrected label. */
  lemma LabelFinding(key: string)
    ensures LabelAsWritten(PLOT_MAX) == Err(ValueError)
    ensures Label(PLOT_MAX) == "Maximum Amplitude [mV]"
    ensures key != PLOT_MAX ==> LabelAsWritten(key) == Ok(Label(key))
  {
    MaxMetaUnpackFails();
    GetMetaCorrected(key);
  }
}

/** The line style a two-dimensional plot picks for its x series. */
module Plot2D {
  /** `isMonothonic(values)`: all consecutive differences are positive, or
      all are negative. */
  predicate IsMonotonic(v: seq<real>) {
    (forall i :: 0 <= i < |v| - 1 ==> v[i + 1] - v[i] > 0.0) ||
    (forall i :: 0 <= i < |v| - 1 ==> v[i + 1] - v[i] < 0.0)
  }

  predicate Increasing(v: seq<real>) {
    forall i, j :: 0 <= i < j < |v| ==> v[i] < v[j]
  }

  predicate Decreasing(v: seq<real>) {
    forall i, j :: 0 <= i < j < |v| ==> v[i] > v[j]
  }

  lemma {:induction false} StepsIncrease(v: seq<real>, i: nat, j: nat)
    requires forall k :: 0 <= k < |v| - 1 ==> v[k + 1] - v[k] > 0.0
    requires i < j < |v|
    ensures v[i] < v[j]
    decreases j - i
  {
    if i + 1 < j {
      StepsIncrease(v, i + 1, j);
    }
  }

  lemma {:induction false} StepsDecrease(v: seq<real>, i: nat, j: nat)
    requires forall k :: 0 <= k < |v| - 1 ==> v[k + 1] - v[k] < 0.0
    requires i < j < |v|
    ensures v[i] > v[j]
    decreases j - i
  {
    if i + 1 < j {
      StepsDecrease(v, i + 1, j);
    }
  }

  /** Consecutive differences of one sign mean the whole series is strictly
      ordered, and back: the check is monotonicity in the usual sense. */
  lemma MonotonicIff(v: seq<real>)
    ensures IsMonotonic(v) <==> Increasing(v) || Decreasing(v)
  {
    if forall i :: 0 <= i < |v| - 1 ==> v[i + 1] - v[i] > 0.0 {
      forall i, j | 0 <= i < j < |v| ensures v[i] < v[j] { StepsIncrease(v, i, j); }
    }
    if forall i :: 0 <= i < |v| - 1 ==> v[i + 1] - v[i] < 0.0 {
      forall i, j | 0 <= i < j < |v| ensures v[i] > v[j] { StepsDecrease(v, i, j); }
    }
    if Increasing(v) {
      assert forall i :: 0 <= i < |v| - 1 ==> v[i] < v[i + 1];
    }
    if Decreasing(v) {
      assert forall i :: 0 <= i < |v| - 1 ==> v[i] > v[i + 1];
    }
  }

  /** Two equal neighbours, or a rise next to a fall, make a series
      non-monotonic. */
  lemma NotMonotonic(v: seq<real>, i: nat)
    requires i + 1 < |v|
    ensures v[i] == v[i + 1] ==> !IsMonotonic(v)
    ensures i + 2 < |v| && (v[i + 1] - v[i]) * (v[i + 2] - v[i + 1]) <= 0.0 ==> !IsMonotonic(v)
  {
    if i + 2 < |v| && (v[i + 1] - v[i]) * (v[i + 2] - v[i + 1]) <= 0.0 {
      if v[i + 1] - v[i] > 0.0 {
        assert v[i + 2] - v[i + 1] <= 0.0;
      } else if v[i + 1] - v[i] < 0.0 {
        assert v[i + 2] - v[i + 1] >= 0.0;
      }
    }
  }

  /** A series of fewer than two values has no differences to check. */
  lemma ShortMonotonic(v: seq<real>)
    requires |v| <= 1
    ensures IsMonotonic(v)
  {
  }

  /** The line style and marker of a curve: a non-monotonic x series is
      drawn as markers only. */
  function Style(x: seq<real>): (r: (string, string))
    ensures r.0 == "-" <==> IsMonotonic(x)
    ensures r.1 == "o" <==> !IsMonotonic(x)
  {
    if !IsMonotonic(x) then ("", "o") else ("-", ".")
  }
}
