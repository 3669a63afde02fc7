/** The Particulars LA-01 pulsed laser: the driver that encodes its USB
    frames and keeps the only copy of its settings, and the control that
    validates settings and sequences the driver. */

module Laser {
  import opened Wrappers
  import opened Numeric

  type Byte = b: int | 0 <= b < 256

  /** One command as handed to the USB report, before padding. */
  type Frame = seq<Byte>

  /** The lowest and highest accepted repetition rate, in Hz. */
  const MIN_FREQUENCY: real := 50.0
  const MAX_FREQUENCY: real := 100000.0
  /** The DAC takes values in [0, 1024). */
  const DAC_LIMIT: real := 1024.0
  /** `STATUS_BYTE`: where the report says whether the laser is on. */
  const STATUS_BYTE: nat := 6

  predicate FrequencyOk(f: real) {
    MIN_FREQUENCY <= f <= MAX_FREQUENCY
  }

  predicate DacOk(v: real) {
    0.0 <= v < DAC_LIMIT
  }

  /** `int.to_bytes(2, 'little')`: raises for values that do not fit. */
  function ToBytes2(v: int): Result<seq<Byte>> {
    if 0 <= v < 65536 then Ok([v % 256, v / 256]) else Err(OverflowError)
  }

  /** The little-endian value of two bytes. */
  function FromBytes2(b: seq<Byte>): int
    requires |b| == 2
  {
    b[0] as int + 256 * b[1] as int
  }

  /** Two bytes hold exactly the values in [0, 65536), and decoding undoes
      encoding. */
  lemma Bytes2RoundTrip(v: int)
    ensures ToBytes2(v).Ok? <==> 0 <= v < 65536
    ensures ToBytes2(v).Ok? ==> FromBytes2(ToBytes2(v).value) == v
  {
  }

  /** The word `_sendFrequency` sends: `int((5e8/f - 440)/180 + 1)`. */
  function FrequencyWord(f: real): Result<int> {
    if f == 0.0 then Err(ZeroDivisionError) else Ok(Trunc((500000000.0 / f - 440.0) / 180.0 + 1.0))
  }

  /** The frame `_sendFrequency` sends: byte 99 and the word. */
  function FrequencyFrame(f: real): Result<Frame> {
    var w :- FrequencyWord(f);
    var b :- ToBytes2(w);
    Ok([99] + b)
  }

  /** The frame `_sendDAC` sends: byte 94 and `int(dac)`. */
  function DacFrame(dac: real): Result<Frame> {
    var b :- ToBytes2(Trunc(dac));
    Ok([94] + b)
  }

  lemma PeriodBounds(f: real)
    requires FrequencyOk(f)
    ensures 5000.0 <= 500000000.0 / f <= 10000000.0
  {
    var q := 500000000.0 / f;
    assert q * f == 500000000.0;
  }

  /** For every accepted frequency the word lies in [26, 55554], so the
      frequency frame always encodes, and it decodes back to the word. */
  lemma FrequencyFrameSpec(f: real)
    requires FrequencyOk(f)
    ensures FrequencyWord(f).Ok?
    ensures 26 <= FrequencyWord(f).value <= 55554
    ensures FrequencyFrame(f).Ok? && |FrequencyFrame(f).value| == 3
    ensures FrequencyFrame(f).value[0] == 99
    ensures FromBytes2(FrequencyFrame(f).value[1..]) == FrequencyWord(f).value
  {
    PeriodBounds(f);
    var x := (500000000.0 / f - 440.0) / 180.0 + 1.0;
    assert 26.0 < x < 55555.0;
    var w := FrequencyWord(f).value;
    assert [99] + ToBytes2(w).value == [99, w % 256, w / 256];
  }

  /** For every accepted DAC value the frame encodes `int(dac)`, which lies
      in [0, 1023]. */
  lemma DacFrameSpec(dac: real)
    requires DacOk(dac)
    ensures 0 <= Trunc(dac) <= 1023
    ensures DacFrame(dac).Ok? && |DacFrame(dac).value| == 3
    ensures DacFrame(dac).value[0] == 94
    ensures FromBytes2(DacFrame(dac).value[1..]) == Trunc(dac)
  {
    var d := Trunc(dac);
    assert [94] + ToBytes2(d).value == [94, d % 256, d / 256];
  }

  /** The frames `on()` sends for valid settings: the DAC frame, the
      frequency frame and `Hardware Sequence Enable`. */
  function OnFrames(f: real, dac: real): (r: seq<Frame>)
    requires FrequencyOk(f) && DacOk(dac)
    ensures |r| == 3 && |r[0]| == 3 && |r[1]| == 3 && r[2] == [91]
    ensures r[0][0] == 94 && FromBytes2(r[0][1..]) == Trunc(dac)
    ensures r[1][0] == 99 && FromBytes2(r[1][1..]) == FrequencyWord(f).value
  {
    FrequencyFrameSpec(f);
    DacFrameSpec(dac);
    [DacFrame(dac).value, FrequencyFrame(f).value, [91]]
  }

  /** `Hardware Sequence Disable`, then byte 4. */
  const OFF_FRAMES: seq<Frame> := [[90], [4]]

  /** `state()`: whether the status byte of a read report is 1. */
  function Status(report: seq<Byte>): (r: Result<bool>)
    ensures r.Err? <==> |report| <= STATUS_BYTE
    ensures r.Ok? ==> (r.value <==> report[STATUS_BYTE] == 1)
  {
    if |report| > STATUS_BYTE then Ok(report[STATUS_BYTE] == 1) else Err(IndexError)
  }

  /** `send` pads every frame to the 64-byte report with ASCII `'0'`. */
  function Padded(frame: Frame): (r: seq<Byte>)
    requires |frame| <= 64
    ensures |r| == 64 && r[..|frame|] == frame
    ensures forall i :: |frame| <= i < 64 ==> r[i] == 48
  {
    frame + seq(64 - |frame|, _ => 48)
  }

  /** The driver: the settings it remembers and the frames it sent. */
  class LaserLA01 {
    var frequency: Option<real>
    var dac: Option<real>
    var sent: seq<Frame>

    /** Only accepted settings are ever stored. */
    ghost predicate Valid()
      reads this
    {
      (frequency.Some? ==> FrequencyOk(frequency.value)) && (dac.Some? ==> DacOk(dac.value))
    }

    constructor ()
      ensures frequency == None && dac == None && sent == [] && Valid()
    {
      frequency, dac, sent := None, None, [];
    }

    /** `setFrequency(f)`: stored only within [50, 100e3]. */
    method SetFrequency(f: real) returns (ok: bool)
      requires Valid()
      modifies this
      ensures Valid()
      ensures ok == FrequencyOk(f)
      ensures frequency == if ok then Some(f) else old(frequency)
      ensures dac == old(dac) && sent == old(sent)
    {
      if f < MIN_FREQUENCY || f > MAX_FREQUENCY {
        return false;
      }
      frequency := Some(f);
      return true;
    }

    /** `setDAC(v)`: stored only within [0, 1024). */
    method SetDac(v: real) returns (ok: bool)
      requires Valid()
      modifies this
      ensures Valid()
      ensures ok == DacOk(v)
      ensures dac == if ok then Some(v) else old(dac)
      ensures frequency == old(frequency) && sent == old(sent)
    {
      if v < 0.0 || v >= DAC_LIMIT {
        return false;
      }
      dac := Some(v);
      return true;
    }

    /** `_sendDAC(dac)`. */
    method SendDac(d: real)
      requires DacOk(d)
      modifies this
      ensures sent == old(sent) + [DacFrame(d).value]
      ensures frequency == old(frequency) && dac == old(dac)
    {
      DacFrameSpec(d);
      var value := Trunc(d);
      var bytes := ToBytes2(value);
      sent := sent + [[94] + bytes.value];
    }

    /** `_sendFrequency(f)`. */
    method SendFrequency(f: real)
      requires FrequencyOk(f)
      modifies this
      ensures sent == old(sent) + [FrequencyFrame(f).value]
      ensures frequency == old(frequency) && dac == old(dac)
    {
      FrequencyFrameSpec(f);
      var value := 500000000.0 / f - 440.0;
      var word := Trunc(value / 180.0 + 1.0);
      var bytes := ToBytes2(word);
      sent := sent + [[99] + bytes.value];
    }

    /** `on()`: nothing is sent while a setting is missing. */
    method On() returns (ok: bool)
      requires Valid()
      modifies this
      ensures Valid() && frequency == old(frequency) && dac == old(dac)
      ensures ok == (frequency.Some? && dac.Some?)
      ensures ok ==> sent == old(sent) + OnFrames(frequency.value, dac.value)
      ensures !ok ==> sent == old(sent)
    {
      if frequency.None? || dac.None? {
        return false;
      }
      SendDac(dac.value);
      SendFrequency(frequency.value);
      sent := sent + [[91]];
      return true;
    }

    /** `off()`: the settings are kept. */
    method Off() returns (ok: bool)
      modifies this
      ensures ok && sent == old(sent) + OFF_FRAMES
      ensures frequency == old(frequency) && dac == old(dac)
    {
      sent := sent + [[90]];
      sent := sent + [[4]];
      return true;
    }

    /** `enableDAC()`. */
    method EnableDac()
      modifies this
      ensures sent == old(sent) + [[92]]
      ensures frequency == old(frequency) && dac == old(dac)
    {
      sent := sent + [[92]];
    }

    /** `disableDAC()`. */
    method DisableDac()
      modifies this
      ensures sent == old(sent) + [[93]]
      ensures frequency == old(frequency) && dac == old(dac)
    {
      sent := sent + [[93]];
    }
  }

  /** The default repetition rate `setup` falls back to. */
  const DEFAULT_FREQUENCY: real := 1000.0
  /** The default DAC value `setup` falls back to. */
  const DEFAULT_DAC: real := 300.0

  function SetupFrequency(f: real): real {
    if f < MIN_FREQUENCY || f > MAX_FREQUENCY then DEFAULT_FREQUENCY else f
  }

  function SetupDac(v: real): real {
    if v < 0.0 || v >= DAC_LIMIT then DEFAULT_DAC else v
  }

  /** `setup` always ends with settings the driver accepts, and keeps
      settings that are already acceptable. */
  lemma SetupSettings(f: real, v: real)
    ensures FrequencyOk(SetupFrequency(f)) && DacOk(SetupDac(v))
    ensures FrequencyOk(f) <==> SetupFrequency(f) == f
    ensures DacOk(v) <==> SetupDac(v) == v
    ensures !FrequencyOk(f) ==> SetupFrequency(f) == 1000.0
    ensures !DacOk(v) ==> SetupDac(v) == 300.0
  {
  }

  /** `LaserState` as written reads the attribute `laster`, which does
      not exist, so it raises for every report. */
  function LaserStateAsWritten(report: seq<Byte>): Result<bool> {
    Err(AttributeError)
  }

  /** `LaserState` as evidently intended: the driver's `state()`. */
  function LaserState(report: seq<Byte>): (r: Result<bool>)
    ensures r.Err? <==> |report| <= STATUS_BYTE
    ensures r.Ok? ==> (r.value <==> report[STATUS_BYTE] == 1)
  {
    Status(report)
  }

  /** A report with the status byte set shows the laser on, yet the
      written `LaserState` raises. */
  lemma LaserStateFinding(report: seq<Byte>)
    requires |report| > STATUS_BYTE
    ensures LaserStateAsWritten(report) == Err(AttributeError)
    ensures LaserState(report) == Ok(report[STATUS_BYTE] == 1)
    ensures var lit := report[STATUS_BYTE := 1]; LaserState(lit) == Ok(true) && LaserStateAsWritten(lit).Err?
  {
  }

  /** The laser control over one driver. */
  class LaserControl {
    const laser: LaserLA01

    /** Construction always runs `setup`. */
    constructor (frequency: real, dac: real)
      ensures fresh(laser) && laser.Valid()
      ensures laser.frequency == Some(SetupFrequency(frequency)) && laser.dac == Some(SetupDac(dac))
      ensures laser.sent == OFF_FRAMES
    {
      laser := new LaserLA01();
      new;
      Setup(frequency, dac);
    }

    /** `setup(frequency, dac)`: falls back to the defaults for values
        out of range, switches the laser off and stores both. */
    method Setup(frequency: real, dac: real)
      requires laser.Valid()
      modifies laser
      ensures laser.Valid()
      ensures laser.frequency == Some(SetupFrequency(frequency)) && laser.dac == Some(SetupDac(dac))
      ensures laser.sent == old(laser.sent) + OFF_FRAMES
    {
      var v := dac;
      if v < 0.0 || v >= DAC_LIMIT {
        v := DEFAULT_DAC;
      }
      var f := frequency;
      if f < MIN_FREQUENCY || f > MAX_FREQUENCY {
        f := DEFAULT_FREQUENCY;
      }
      var _ := laser.Off();
      var _ := laser.SetFrequency(f);
      var _ := laser.SetDac(v);
    }

    /** `LaserOn()`. */
    method LaserOn()
      requires laser.Valid()
      modifies laser
      ensures laser.Valid() && laser.frequency == old(laser.frequency) && laser.dac == old(laser.dac)
      ensures laser.frequency.Some? && laser.dac.Some? ==>
        laser.sent == old(laser.sent) + OnFrames(laser.frequency.value, laser.dac.value)
      ensures laser.frequency.None? || laser.dac.None? ==> laser.sent == old(laser.sent)
    {
      var _ := laser.On();
    }

    /** `LaserOff()`. */
    method LaserOff()
      modifies laser
      ensures laser.frequency == old(laser.frequency) && laser.dac == old(laser.dac)
      ensures laser.sent == old(laser.sent) + OFF_FRAMES
    {
      var _ := laser.Off();
    }

    /** `LaserSetFrequency(f)`, with `report` the report `state()` reads:
        `False` for a rate out of range, with nothing touched; otherwise
        the rate is stored and `on()` re-issued if the laser is on. The
        result `Ok(true)` stands for the source's implicit `None`. */
    method LaserSetFrequency(frequency: real, report: seq<Byte>) returns (r: Result<bool>)
      requires laser.Valid()
      modifies laser
      ensures laser.Valid() && laser.dac == old(laser.dac)
      ensures !FrequencyOk(frequency) ==> (r == Ok(false) &&
        laser.frequency == old(laser.frequency) && laser.sent == old(laser.sent))
      ensures FrequencyOk(frequency) ==> (laser.frequency == Some(frequency) &&
        (r.Err? <==> Status(report).Err?) && (r.Ok? ==> r.value) &&
        laser.sent == old(laser.sent) +
          (if Status(report) == Ok(true) && laser.dac.Some? then OnFrames(frequency, laser.dac.value) else []))
    {
      if frequency < MIN_FREQUENCY || frequency > MAX_FREQUENCY {
        return Ok(false);
      }
      var _ := laser.SetFrequency(frequency);
      var state := Status(report);
      if state.Err? {
        return Err(state.error);
      }
      if state.value {
        var _ := laser.On();
      }
      return Ok(true);
    }

    /** `LaserSetDAC(dac)`, with `report` the report `state()` reads:
        `False` for a value out of range; otherwise the laser is switched
        off, the DAC enabled and set to `int(dac)`, and the laser switched
        back on only if it was on. */
    method LaserSetDac(dac: real, report: seq<Byte>) returns (r: Result<bool>)
      requires laser.Valid()
      modifies laser
      ensures laser.Valid() && laser.frequency == old(laser.frequency)
      ensures !DacOk(dac) || Status(report).Err? ==>
        laser.dac == old(laser.dac) && laser.sent == old(laser.sent)
      ensures !DacOk(dac) ==> r == Ok(false)
      ensures DacOk(dac) ==> (r.Err? <==> Status(report).Err?)
      ensures DacOk(dac) && Status(report).Ok? ==> (r == Ok(true) &&
        laser.dac == Some(Trunc(dac) as real) &&
        laser.sent == old(laser.sent) + OFF_FRAMES + [[92]] +
          (if Status(report).value && laser.frequency.Some? then OnFrames(laser.frequency.value, Trunc(dac) as real) else []))
    {
      if dac < 0.0 || dac >= DAC_LIMIT {
        return Ok(false);
      }
      var state := Status(report);
      if state.Err? {
        return Err(state.error);
      }
      var _ := laser.Off();
      laser.EnableDac();
      var _ := laser.SetDac(Trunc(dac) as real);
      if state.value {
        var _ := laser.On();
      }
      return Ok(true);
    }
  }
}
