/** The Particulars amplifier, driven through the voltage of its power
    supply: the gain table, its two interpolations and the supply checks. */

module Amplifier {
  import opened Numeric

  /** `Amp_Current`: the current limit the supply must be set to, in A. */
  const AMP_CURRENT: real := 0.250
  /** `Amp_Limit`: the highest supply voltage allowed, in V. */
  const AMP_LIMIT: real := 15.0

  /** The voltage column of `Gain_Points`. */
  const VOLTAGES: seq<real> := [5.930294906166219, 6.1876675603217155, 7.10455764075067, 7.8083109919571045,
                                9.151474530831099, 10.595174262734584, 12.002680965147452]
  /** The relative-gain column of `Gain_Points`. */
  const GAINS: seq<real> := [0.0, 0.14888178913738015, 0.5105431309904154, 0.6958466453674121,
                             0.9437699680511182, 0.9853035143769969, 1.0]

  /** Both columns of the gain table are strictly increasing, so each
      interpolation is invertible. */
  lemma TableIncreasing()
    ensures |VOLTAGES| == |GAINS| == 7
    ensures StrictlyIncreasing(VOLTAGES) && StrictlyIncreasing(GAINS)
  {
    forall i | 0 <= i < 6 ensures VOLTAGES[i] < VOLTAGES[i + 1] && GAINS[i] < GAINS[i + 1] {
      assert i == 0 || i == 1 || i == 2 || i == 3 || i == 4 || i == 5;
    }
    StepsIncreasing(VOLTAGES);
    StepsIncreasing(GAINS);
  }

  /** The supply voltage `AmpSet(percentage)` asks for. */
  function VoltageFor(percentage: real): (v: real)
    ensures 0.0 <= percentage <= 100.0 ==> VOLTAGES[0] <= v <= VOLTAGES[6]
  {
    TableIncreasing();
    Interp(percentage / 100.0, GAINS, VOLTAGES)
  }

  /** The gain in percent `AmpGet` reports for a supply voltage. */
  function GainOf(voltage: real): (g: real)
    ensures 0.0 <= g <= 100.0
    ensures voltage <= VOLTAGES[0] ==> g == 0.0
    ensures voltage >= VOLTAGES[6] ==> g == 100.0
  {
    TableIncreasing();
    100.0 * Interp(voltage, VOLTAGES, GAINS)
  }

  /** Every accepted percentage asks for between about 5.93 V and 12.00 V,
      so it always passes the [0, 15] V check. */
  lemma VoltageForBounds(percentage: real)
    requires 0.0 <= percentage <= 100.0
    ensures 5.93 <= VoltageFor(percentage) <= 12.01
    ensures 0.0 <= VoltageFor(percentage) <= AMP_LIMIT
  {
  }

  /** Reading the gain back after setting a percentage returns it. */
  lemma GainOfVoltageFor(percentage: real)
    requires 0.0 <= percentage <= 100.0
    ensures GainOf(VoltageFor(percentage)) == percentage
  {
    TableIncreasing();
    InterpInverse(percentage / 100.0, GAINS, VOLTAGES);
  }

  /** And setting the gain read at a voltage within the table returns
      that voltage. */
  lemma VoltageForGainOf(voltage: real)
    requires VOLTAGES[0] <= voltage <= VOLTAGES[6]
    ensures VoltageFor(GainOf(voltage)) == voltage
  {
    TableIncreasing();
    InterpInverse(voltage, VOLTAGES, GAINS);
  }

  datatype PsuCommand = Output(on: bool) | SetVoltage(voltage: real) | SetCurrent(current: real) | SetCurrentRangeLow(low: bool)

  /** The supply's output flag, setpoints and current range, and the
      commands it was sent. */
  class Psu {
    var on: bool
    var voltage: real
    var current: real
    var rangeLow: bool
    var sent: seq<PsuCommand>

    constructor (on: bool, voltage: real, current: real, rangeLow: bool)
      ensures this.on == on && this.voltage == voltage && this.current == current && this.rangeLow == rangeLow
      ensures sent == []
    {
      this.on, this.voltage, this.current, this.rangeLow := on, voltage, current, rangeLow;
      sent := [];
    }

    method Send(c: PsuCommand)
      modifies this
      ensures sent == old(sent) + [c]
      ensures on == (if c.Output? then c.on else old(on))
      ensures voltage == (if c.SetVoltage? then c.voltage else old(voltage))
      ensures current == (if c.SetCurrent? then c.current else old(current))
      ensures rangeLow == (if c.SetCurrentRangeLow? then c.low else old(rangeLow))
    {
      sent := sent + [c];
      match c
      case Output(b) => on := b;
      case SetVoltage(v) => voltage := v;
      case SetCurrent(i) => current := i;
      case SetCurrentRangeLow(b) => rangeLow := b;
    }
  }

  /** The commands `setup` sends. */
  const SETUP_COMMANDS: seq<PsuCommand> :=
    [Output(false), SetCurrentRangeLow(false), SetVoltage(0.0), SetCurrent(AMP_CURRENT)]

  /** The amplifier control over one supply. */
  class AmplifierControl {
    const psu: Psu

    /** `check()`: the high current range, a current limit of exactly
        0.25 A, and a voltage of at most 15 V. */
    predicate Check()
      reads psu
      ensures Check() ==> psu.voltage <= AMP_LIMIT && psu.current == AMP_CURRENT
    {
      !psu.rangeLow && psu.current == AMP_CURRENT && psu.voltage <= AMP_LIMIT
    }

    /** `AmpGet()`. */
    function AmpGet(): (r: real)
      reads psu
      ensures 0.0 <= r <= 100.0
    {
      GainOf(psu.voltage)
    }

    /** Construction sets the supply up unless it already passes the
        check; either way the supply passes it afterwards. */
    constructor (psu: Psu)
      modifies psu
      ensures this.psu == psu && Check()
      ensures old(!psu.rangeLow && psu.current == AMP_CURRENT && psu.voltage <= AMP_LIMIT) ==>
        (psu.sent == old(psu.sent) && psu.on == old(psu.on) && psu.voltage == old(psu.voltage))
      ensures !old(!psu.rangeLow && psu.current == AMP_CURRENT && psu.voltage <= AMP_LIMIT) ==>
        (psu.sent == old(psu.sent) + SETUP_COMMANDS && !psu.on && psu.voltage == 0.0)
    {
      this.psu := psu;
      new;
      if !Check() {
        Setup();
      }
    }

    /** `setup()`: output off, high range, 0 V, 0.25 A. */
    method Setup()
      modifies psu
      ensures psu.sent == old(psu.sent) + SETUP_COMMANDS
      ensures !psu.on && !psu.rangeLow && psu.voltage == 0.0 && psu.current == AMP_CURRENT
      ensures Check()
    {
      psu.Send(Output(false));
      psu.Send(SetCurrentRangeLow(false));
      psu.Send(SetVoltage(0.0));
      psu.Send(SetCurrent(AMP_CURRENT));
    }

    /** `AmpSetVoltage(voltage)`: refused outside [0, 15] V with the supply
        untouched. */
    method AmpSetVoltage(voltage: real) returns (ok: bool)
      modifies psu
      ensures ok == (0.0 <= voltage <= AMP_LIMIT)
      ensures ok ==> psu.sent == old(psu.sent) + [SetVoltage(voltage)] && psu.voltage == voltage
      ensures !ok ==> psu.sent == old(psu.sent) && psu.voltage == old(psu.voltage)
      ensures psu.on == old(psu.on) && psu.current == old(psu.current) && psu.rangeLow == old(psu.rangeLow)
    {
      if voltage > AMP_LIMIT || voltage < 0.0 {
        return false;
      }
      psu.Send(SetVoltage(voltage));
      return true;
    }

    /** `AmpSet(percentage)`: refused outside [0, 100]; otherwise the supply
        is set to the interpolated voltage, and `AmpGet` then reads the
        percentage back. */
    method AmpSet(percentage: real) returns (ok: bool)
      modifies psu
      ensures ok == (0.0 <= percentage <= 100.0)
      ensures ok ==> (psu.sent == old(psu.sent) + [SetVoltage(VoltageFor(percentage))] &&
        psu.voltage == VoltageFor(percentage) && AmpGet() == percentage)
      ensures !ok ==> psu.sent == old(psu.sent) && psu.voltage == old(psu.voltage)
      ensures psu.on == old(psu.on) && psu.current == old(psu.current) && psu.rangeLow == old(psu.rangeLow)
    {
      if percentage > 100.0 || percentage < 0.0 {
        return false;
      }
      var voltage := Interp(percentage / 100.0, GAINS, VOLTAGES);
      VoltageForBounds(percentage);
      GainOfVoltageFor(percentage);
      var _ := AmpSetVoltage(voltage);
      return true;
    }

    /** `AmpOn()`. */
    method AmpOn()
      modifies psu
      ensures psu.on && psu.sent == old(psu.sent) + [Output(true)]
      ensures psu.voltage == old(psu.voltage) && psu.current == old(psu.current) && psu.rangeLow == old(psu.rangeLow)
    {
      psu.Send(Output(true));
    }

    /** `AmpOff()`. */
    method AmpOff()
      modifies psu
      ensures !psu.on && psu.sent == old(psu.sent) + [Output(false)]
      ensures psu.voltage == old(psu.voltage) && psu.current == old(psu.current) && psu.rangeLow == old(psu.rangeLow)
    {
      psu.Send(Output(false));
    }
  }
}
