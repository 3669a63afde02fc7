/** The bias supply: a source-measure unit driven through its setpoint, with
    the voltage ramped at 20 V/s while the output is on. */

module BiasSupply {
  import opened Wrappers
  import opened Numeric

  /** The ranges of the unit, in the order its table lists them. */
  const VOLTAGE_RANGES: seq<real> := [0.21, 2.1, 21.0, 1100.0]
  const CURRENT_RANGES: seq<real> := [0.00000105, 0.0000105, 0.000105, 0.00105, 0.021, 0.105, 1.05]

  /** The ramp rate, in V/s. */
  const VOLTAGE_RAMP: real := 20.0
  /** The pause of each ramp step, in s. */
  const RAMP_PAUSE: real := 0.2

  datatype SourceMode = Voltage | Current
  datatype VoltageMode = Fixed | Sweep

  /** What the control reads back from the unit. */
  datatype SmuState = SmuState(
    on: bool, voltage: real, sourceMode: SourceMode, voltageMode: VoltageMode,
    currentProtection: real, voltageRange: real, currentRange: real, currentSense: bool)

  /** The commands the control sends to the unit. */
  datatype Command =
    | SetVoltage(v: real)
    | TurnOn
    | TurnOff
    | SetSourceMode(mode: SourceMode)
    | SetVoltageMode(vmode: VoltageMode)
    | SetCurrentProtection(limit: real)
    | SetVoltageRange(range: real)
    | SetCurrentSenseRange(range: real)
    | EnableCurrentSense
    | SetArmCount(count: nat)
    | Initiate

  /** The effect of a command on the unit. */
  function Apply(s: SmuState, c: Command): SmuState {
    match c
    case SetVoltage(v) => s.(voltage := v)
    case TurnOn => s.(on := true)
    case TurnOff => s.(on := false)
    case SetSourceMode(m) => s.(sourceMode := m)
    case SetVoltageMode(m) => s.(voltageMode := m)
    case SetCurrentProtection(l) => s.(currentProtection := l)
    case SetVoltageRange(r) => s.(voltageRange := r)
    case SetCurrentSenseRange(r) => s.(currentRange := r)
    case EnableCurrentSense => s.(currentSense := true)
    case SetArmCount(_) => s
    case Initiate => s
  }

  /** The unit as the control sees it: its state and the commands sent. */
  class Smu {
    var state: SmuState
    var sent: seq<Command>

    constructor (initial: SmuState)
      ensures state == initial && sent == []
    {
      state, sent := initial, [];
    }

    method Send(c: Command)
      modifies this
      ensures state == Apply(old(state), c) && sent == old(sent) + [c]
    {
      state := Apply(state, c);
      sent := sent + [c];
    }
  }

  /** The first range in table order that covers `x`. */
  function FirstAtLeast(table: seq<real>, x: real): (r: Option<real>)
    ensures r.Some? ==> r.value in table && r.value >= x
  {
    if table == [] then None
    else if table[0] >= x then Some(table[0])
    else FirstAtLeast(table[1..], x)
  }

  /** The range found is listed, covers `x`, and no earlier one does; no
      range is found exactly when none covers `x`. */
  lemma {:induction false} FirstAtLeastSpec(table: seq<real>, x: real)
    ensures var r := FirstAtLeast(table, x);
      (r.None? <==> forall k :: 0 <= k < |table| ==> table[k] < x) &&
      (r.Some? ==> exists j :: 0 <= j < |table| && table[j] == r.value && r.value >= x &&
                     forall k :: 0 <= k < j ==> table[k] < x)
  {
    if table != [] && table[0] < x {
      FirstAtLeastSpec(table[1..], x);
      var r := FirstAtLeast(table, x);
      if r.Some? {
        var j :| 0 <= j < |table[1..]| && table[1..][j] == r.value && r.value >= x &&
                 forall k :: 0 <= k < j ==> table[1..][k] < x;
        assert table[j + 1] == r.value;
        assert forall k :: 0 <= k < j + 1 ==> table[k] < x by {
          forall k | 0 < k < j + 1 ensures table[k] < x {
            assert table[k] == table[1..][k - 1];
          }
        }
      } else {
        forall k | 0 < k < |table| ensures table[k] < x {
          assert table[k] == table[1..][k - 1];
        }
      }
    }
  }

  /** The range-selection loop of the constructor: the first table entry
      not below `|limit|`, or none. */
  method SelectRange(table: seq<real>, limit: real) returns (r: Option<real>)
    ensures r == FirstAtLeast(table, Abs(limit))
  {
    var x := Abs(limit);
    var i := 0;
    while i < |table|
      invariant 0 <= i <= |table|
      invariant FirstAtLeast(table, x) == FirstAtLeast(table[i..], x)
    {
      assert table[i..][1..] == table[i + 1..];
      if table[i] >= x {
        return Some(table[i]);
      }
      i := i + 1;
    }
    return None;
  }

  /** The default limits of 1000 V and 0.02 A select the 1100 V and the
      21 mA range. */
  lemma DefaultRanges()
    ensures FirstAtLeast(VOLTAGE_RANGES, Abs(1000.0)) == Some(1100.0)
    ensures FirstAtLeast(CURRENT_RANGES, Abs(0.02)) == Some(0.021)
  {
    assert VOLTAGE_RANGES[1..][1..][1..] == [1100.0];
    assert CURRENT_RANGES[1..][1..][1..][1..] == [0.021, 0.105, 1.05];
  }

  /** `np.sign`. */
  function Sign(x: real): real {
    if x > 0.0 then 1.0 else if x < 0.0 then -1.0 else 0.0
  }

  /** `(time.time() - prev)*VOLTAGE_RAMP*np.sign(voltage - current)`. */
  function Delta(current: real, target: real, e: real): real {
    e * VOLTAGE_RAMP * Sign(target - current)
  }

  /** The step is `e·20 V` up toward a higher target and down toward a
      lower one. */
  lemma DeltaValue(current: real, target: real, e: real)
    ensures Delta(current, target, e) ==
      if target > current then e * VOLTAGE_RAMP else if target < current then -(e * VOLTAGE_RAMP) else 0.0
  {
  }

  /** One pass of the ramp loop, `e` seconds after the previous one: the
      branches of the source with the step written out, reaching the
      target where the step would reach or pass it. */
  function RampStep(current: real, target: real, e: real): (r: real)
    ensures e >= 0.0 ==> Between(r, current, target)
  {
    var delta := if target > current then e * VOLTAGE_RAMP else if target < current then -(e * VOLTAGE_RAMP) else 0.0;
    if current + delta <= target && target <= current then target
    else if current + delta >= target && target >= current then target
    else current + delta
  }

  /** The number of full 4 V steps left, which each pass reduces. */
  function RampMeasure(current: real, target: real): nat {
    Ceil(Abs(target - current) / (RAMP_PAUSE * VOLTAGE_RAMP))
  }

  /** `v` lies between `a` and `b`, both included. */
  predicate Between(v: real, a: real, b: real) {
    (a <= v <= b) || (b <= v <= a)
  }

  /** A pass that lasted at least the pause either reaches the target or
      moves toward it by at least 4 V; either way it gets strictly closer
      and stays between the setpoint and the target. */
  lemma RampStepSpec(current: real, target: real, e: real)
    requires e >= RAMP_PAUSE && current != target
    ensures var next := RampStep(current, target, e);
      Between(next, current, target) &&
      Abs(target - next) < Abs(target - current) &&
      (next == target || Abs(target - next) <= Abs(target - current) - RAMP_PAUSE * VOLTAGE_RAMP) &&
      RampMeasure(next, target) < RampMeasure(current, target)
  {
    var next := RampStep(current, target, e);
    var d := Abs(target - current);
    var step := RAMP_PAUSE * VOLTAGE_RAMP;
    if next != target {
      assert Abs(target - next) == d - e * VOLTAGE_RAMP;
    }
    assert step == 4.0;
    MeasureDecreases(Abs(target - next), d);
  }

  /** Ceilings of `d'/4` and `d/4` for `d' <= d - 4`, or for `d' = 0 < d`. */
  lemma MeasureDecreases(d': real, d: real)
    requires 0.0 <= d' && 0.0 < d
    requires d' == 0.0 || d' <= d - 4.0
    ensures Ceil(d' / 4.0) < Ceil(d / 4.0)
  {
  }

  /** Every pass of the ramp lasts at least its pause. */
  ghost predicate Clocked(elapsed: nat -> real) {
    forall i: nat :: elapsed(i) >= RAMP_PAUSE
  }

  /** The setpoints the ramp writes from `current` to `target`, pass `i`
      having lasted `elapsed(i)` seconds. */
  function Ramp(current: real, target: real, elapsed: nat -> real, i: nat): (r: seq<real>)
    requires Clocked(elapsed)
    ensures r == [] <==> current == target
    decreases RampMeasure(current, target)
  {
    if current == target then []
    else
      var next := RampStep(current, target, elapsed(i));
      RampStepSpec(current, target, elapsed(i));
      [next] + Ramp(next, target, elapsed, i + 1)
  }

  /** The ramp writes nothing at the target; otherwise it ends exactly at
      the target, every setpoint lies between start and target, and each
      one is strictly closer to the target than the one before. */
  lemma {:induction false} RampSpec(current: real, target: real, elapsed: nat -> real, i: nat)
    requires Clocked(elapsed)
    ensures var r := Ramp(current, target, elapsed, i);
      (r == [] <==> current == target) &&
      (r != [] ==> r[|r| - 1] == target && Abs(target - r[0]) < Abs(target - current)) &&
      (forall k :: 0 <= k < |r| ==> Between(r[k], current, target)) &&
      (forall k :: 0 < k < |r| ==> Abs(target - r[k]) < Abs(target - r[k - 1]))
    decreases RampMeasure(current, target)
  {
    if current != target {
      var next := RampStep(current, target, elapsed(i));
      RampStepSpec(current, target, elapsed(i));
      RampSpec(next, target, elapsed, i + 1);
      var r := Ramp(current, target, elapsed, i);
      var rest := Ramp(next, target, elapsed, i + 1);
      assert r == [next] + rest;
      forall k | 0 < k < |r| ensures Between(r[k], current, target) {
        assert r[k] == rest[k - 1];
        BetweenNarrows(r[k], next, current, target);
      }
      forall k | 1 < k < |r| ensures Abs(target - r[k]) < Abs(target - r[k - 1]) {
        assert r[k] == rest[k - 1] && r[k - 1] == rest[k - 2];
      }
    }
  }

  /** A value between a setpoint and the target, the setpoint itself lying
      between the start and the target, lies between the start and the
      target. */
  lemma BetweenNarrows(v: real, next: real, current: real, target: real)
    requires Between(next, current, target) && Between(v, next, target)
    ensures Between(v, current, target)
  {
  }

  /** One pass of the ramp, unfolded. */
  lemma RampUnfold(current: real, target: real, elapsed: nat -> real, i: nat)
    requires Clocked(elapsed) && current != target
    ensures Ramp(current, target, elapsed, i) ==
      [RampStep(current, target, elapsed(i))] + Ramp(RampStep(current, target, elapsed(i)), target, elapsed, i + 1)
  {
  }

  /** The commands that write a sequence of setpoints. */
  function Writes(vs: seq<real>): (r: seq<Command>)
    ensures |r| == |vs| && forall k :: 0 <= k < |vs| ==> r[k] == SetVoltage(vs[k])
  {
    seq(|vs|, k requires 0 <= k < |vs| => SetVoltage(vs[k]))
  }

  lemma WritesAppend(vs: seq<real>, v: real)
    ensures Writes(vs + [v]) == Writes(vs) + [SetVoltage(v)]
  {
  }

  lemma AppendAssoc(a: seq<real>, x: real, b: seq<real>)
    ensures a + ([x] + b) == (a + [x]) + b
  {
  }

  /** The commands `SMUOff()` sends to a unit in state `s`. */
  function OffCommands(s: SmuState, elapsed: nat -> real): seq<Command>
    requires Clocked(elapsed)
  {
    if s.on then Writes(Ramp(s.voltage, 0.0, elapsed, 0)) + [TurnOff] else []
  }

  /** The configuration `setup` sends after switching the unit off, up to
      the first range that is unset. */
  function SetupCommands(voltageRange: Option<real>, currentRange: Option<real>, currentLimit: real): seq<Command> {
    [SetVoltage(0.0), SetSourceMode(Voltage), SetVoltageMode(Fixed), SetCurrentProtection(currentLimit)] +
    (if voltageRange.None? then [] else [SetVoltageRange(voltageRange.value)] + RangeCommands(currentRange))
  }

  function RangeCommands(currentRange: Option<real>): seq<Command> {
    if currentRange.None? then [] else [SetCurrentSenseRange(currentRange.value), EnableCurrentSense]
  }

  /** The bias control over one unit. */
  class BiasSupplyControl {
    const smu: Smu
    const voltageLimit: real
    const currentLimit: real
    /** The ranges found for the limits; a limit no range covers leaves its
        attribute unset. */
    const voltageRange: Option<real>
    const currentRange: Option<real>

    /** `BiasSupplyControl(VLimit, ILimit)` up to the state check: the
        limits and the ranges covering them. */
    constructor (smu: Smu, vLimit: real, iLimit: real)
      ensures this.smu == smu && voltageLimit == vLimit && currentLimit == iLimit
      ensures voltageRange == FirstAtLeast(VOLTAGE_RANGES, Abs(vLimit))
      ensures currentRange == FirstAtLeast(CURRENT_RANGES, Abs(iLimit))
    {
      var vr := SelectRange(VOLTAGE_RANGES, vLimit);
      var cr := SelectRange(CURRENT_RANGES, iLimit);
      this.smu := smu;
      voltageLimit, currentLimit := vLimit, iLimit;
      voltageRange, currentRange := vr, cr;
    }

    /** Voltages between 0 and the limit, whichever its sign. */
    predicate InRange(v: real) {
      (if 0.0 <= voltageLimit then 0.0 else voltageLimit) <= v <=
      (if 0.0 <= voltageLimit then voltageLimit else 0.0)
    }

    /** `check()`: the unit is configured as the limits demand; reading an
        unset range raises. */
    function Check(): (r: Result<bool>)
      reads this, smu
      ensures r.Err? ==> r.error == AttributeError && (voltageRange.None? || currentRange.None?)
    {
      var s := smu.state;
      if s.sourceMode != Voltage || s.voltageMode != Fixed || s.currentProtection != currentLimit then Ok(false)
      else if voltageRange.None? then Err(AttributeError)
      else if s.voltageRange != voltageRange.value then Ok(false)
      else if currentRange.None? then Err(AttributeError)
      else if s.currentRange != currentRange.value then Ok(false)
      else Ok(s.currentSense)
    }

    /** `SMURampVoltage(voltage)`: a target outside the limits is refused
        and nothing is sent; with the output off the setpoint is written
        once, if it differs; with the output on it is ramped. */
    method RampVoltage(target: real, elapsed: nat -> real) returns (ok: bool)
      requires Clocked(elapsed)
      modifies smu
      ensures ok == InRange(target)
      ensures !ok ==> smu.state == old(smu.state) && smu.sent == old(smu.sent)
      ensures ok ==> smu.state == old(smu.state).(voltage := target)
      ensures ok && !old(smu.state.on) ==>
        smu.sent == old(smu.sent) + (if target != old(smu.state.voltage) then [SetVoltage(target)] else [])
      ensures ok && old(smu.state.on) ==>
        smu.sent == old(smu.sent) + Writes(Ramp(old(smu.state.voltage), target, elapsed, 0))
    {
      if !InRange(target) {
        return false;
      }
      if !smu.state.on {
        if target != smu.state.voltage {
          smu.Send(SetVoltage(target));
        }
      } else {
        RampOn(target, elapsed);
      }
      return true;
    }

    /** The ramp loop of `SMURampVoltage`, with the output on. */
    method RampOn(target: real, elapsed: nat -> real)
      requires Clocked(elapsed) && smu.state.on
      modifies smu
      ensures smu.state == old(smu.state).(voltage := target)
      ensures smu.sent == old(smu.sent) + Writes(Ramp(old(smu.state.voltage), target, elapsed, 0))
    {
      var current := smu.state.voltage;
      ghost var start := current;
      var i: nat := 0;
      ghost var written: seq<real> := [];
      while current != target
        invariant Ramp(start, target, elapsed, 0) == written + Ramp(current, target, elapsed, i)
        invariant smu.state == old(smu.state).(voltage := current)
        invariant smu.sent == old(smu.sent) + Writes(written)
        decreases RampMeasure(current, target)
      {
        RampUnfold(current, target, elapsed, i);
        RampStepSpec(current, target, elapsed(i));
        current := RampPass(current, target, elapsed(i));
        smu.Send(SetVoltage(current));
        WritesAppend(written, current);
        AppendAssoc(written, current, Ramp(current, target, elapsed, i + 1));
        written := written + [current];
        i := i + 1;
      }
    }

    /** The setpoint computed by one pass of the ramp loop. */
    static method RampPass(current: real, target: real, e: real) returns (next: real)
      ensures next == RampStep(current, target, e)
    {
      var delta := Delta(current, target, e);
      DeltaValue(current, target, e);
      if current + delta <= target && target <= current {
        next := target;
      } else if current + delta >= target && target >= current {
        next := target;
      } else {
        next := current + delta;
      }
    }

    /** `SMUOn()`: an off unit has its setpoint saved and zeroed, is
        switched on and ramped back to the saved setpoint; an on unit is
        left alone. */
    method On(elapsed: nat -> real) returns (ok: bool)
      requires Clocked(elapsed)
      modifies smu
      ensures old(smu.state.on) ==> ok && smu.state == old(smu.state) && smu.sent == old(smu.sent)
      ensures !old(smu.state.on) ==>
        var v := old(smu.state.voltage);
        ok == InRange(v) && smu.state.on &&
        smu.state == old(smu.state).(on := true, voltage := if ok then v else 0.0) &&
        smu.sent == old(smu.sent) + [SetVoltage(0.0), TurnOn] +
          (if ok then Writes(Ramp(0.0, v, elapsed, 0)) else [])
    {
      if !smu.state.on {
        var v := smu.state.voltage;
        smu.Send(SetVoltage(0.0));
        smu.Send(TurnOn);
        ok := RampVoltage(v, elapsed);
        return;
      }
      return true;
    }

    /** `SMUOff()`: an on unit is ramped down to 0 V and then switched off;
        an off unit is left alone. */
    method Off(elapsed: nat -> real) returns (ok: bool)
      requires Clocked(elapsed)
      modifies smu
      ensures ok && !smu.state.on
      ensures old(smu.state.on) ==>
        smu.state == old(smu.state).(on := false, voltage := 0.0) &&
        smu.sent == old(smu.sent) + Writes(Ramp(old(smu.state.voltage), 0.0, elapsed, 0)) + [TurnOff]
      ensures !old(smu.state.on) ==> smu.state == old(smu.state) && smu.sent == old(smu.sent)
    {
      if smu.state.on {
        var _ := RampVoltage(0.0, elapsed);
        smu.Send(TurnOff);
      }
      return true;
    }

    /** `SMUCurrent()`: nothing is measured while the output is off;
        otherwise one measurement is triggered and `reading`, what the unit
        answers, is returned. */
    method MeasureCurrent(reading: real) returns (r: Option<real>)
      modifies smu
      ensures !old(smu.state.on) ==> r.None? && smu.state == old(smu.state) && smu.sent == old(smu.sent)
      ensures old(smu.state.on) ==>
        r == Some(reading) && smu.state == old(smu.state) &&
        smu.sent == old(smu.sent) + [SetArmCount(1), Initiate]
    {
      if !smu.state.on {
        return None;
      }
      smu.Send(SetArmCount(1));
      smu.Send(Initiate);
      return Some(reading);
    }

    /** `setup()`: the unit is switched off and configured for the limits;
        an unset range raises at the command that needs it. Once it
        succeeds, `check` passes. */
    method Setup(elapsed: nat -> real) returns (r: Result<()>)
      requires Clocked(elapsed)
      modifies smu
      ensures r.Err? <==> voltageRange.None? || currentRange.None?
      ensures r.Err? ==> r.error == AttributeError
      ensures !smu.state.on && smu.state.voltage == 0.0
      ensures r.Ok? ==> Check() == Ok(true)
      ensures smu.sent == old(smu.sent) + OffCommands(old(smu.state), elapsed) +
        SetupCommands(voltageRange, currentRange, currentLimit)
    {
      var _ := Off(elapsed);
      r := Configure();
    }

    /** The commands of `setup` after the unit is off, in order. */
    method Configure() returns (r: Result<()>)
      requires !smu.state.on
      modifies smu
      ensures r.Err? <==> voltageRange.None? || currentRange.None?
      ensures r.Err? ==> r.error == AttributeError
      ensures !smu.state.on && smu.state.voltage == 0.0
      ensures r.Ok? ==> Check() == Ok(true)
      ensures smu.sent == old(smu.sent) + SetupCommands(voltageRange, currentRange, currentLimit)
    {
      ghost var before := smu.sent;
      smu.Send(SetVoltage(0.0));
      smu.Send(SetSourceMode(Voltage));
      smu.Send(SetVoltageMode(Fixed));
      smu.Send(SetCurrentProtection(currentLimit));
      ghost var common := [SetVoltage(0.0), SetSourceMode(Voltage), SetVoltageMode(Fixed), SetCurrentProtection(currentLimit)];
      assert smu.sent == before + common;
      if voltageRange.None? {
        return Err(AttributeError);
      }
      smu.Send(SetVoltageRange(voltageRange.value));
      if currentRange.None? {
        assert smu.sent == before + (common + [SetVoltageRange(voltageRange.value)]);
        return Err(AttributeError);
      }
      smu.Send(SetCurrentSenseRange(currentRange.value));
      smu.Send(EnableCurrentSense);
      assert smu.sent == before + (common + ([SetVoltageRange(voltageRange.value)] + RangeCommands(currentRange)));
      return Ok(());
    }

    /** The end of the constructor: `setup` runs exactly when `check`
        reports a mismatch, and afterwards the unit is configured. */
    method Start(elapsed: nat -> real) returns (r: Result<()>)
      requires Clocked(elapsed)
      modifies smu
      ensures old(Check()).Err? ==> r == Err(AttributeError) && smu.state == old(smu.state) && smu.sent == old(smu.sent)
      ensures old(Check()) == Ok(true) ==> r.Ok? && smu.state == old(smu.state) && smu.sent == old(smu.sent)
      ensures old(Check()) == Ok(false) ==>
        (r.Err? <==> voltageRange.None? || currentRange.None?) && (r.Err? ==> r.error == AttributeError) &&
        !smu.state.on && smu.state.voltage == 0.0 &&
        smu.sent == old(smu.sent) + OffCommands(old(smu.state), elapsed) +
          SetupCommands(voltageRange, currentRange, currentLimit)
      ensures r.Ok? ==> Check() == Ok(true)
    {
      var c := Check();
      if c.Err? {
        return Err(c.error);
      }
      if !c.value {
        r := Setup(elapsed);
        return;
      }
      return Ok(());
    }
  }
}
