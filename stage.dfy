/** The X-Y-Z translation stage: three motors addressed in steps of
    2.5 µm, positions and limits in mm. */

module Stage {
  import opened Wrappers
  import opened Values
  import Text

  /** `MMPERSTEP`. */
  const MM_PER_STEP: real := 2.5e-3

  /** `MM2STEPS(pos)`. */
  function MmToSteps(pos: real): real {
    pos / MM_PER_STEP
  }

  /** `STEPS2MM(steps)`. */
  function StepsToMm(steps: real): real {
    steps * MM_PER_STEP
  }

  /** The two conversions are inverse to each other, 400 steps to the mm. */
  lemma ConversionsInverse(mm: real, steps: real)
    ensures StepsToMm(MmToSteps(mm)) == mm && MmToSteps(StepsToMm(steps)) == steps
    ensures MmToSteps(mm) == 400.0 * mm
  {
    assert MmToSteps(mm) == 400.0 * mm;
  }

  datatype Ax = X | Y | Z

  /** The inclusive movement range of an axis, in mm. */
  datatype Bounds = Bounds(lo: real, hi: real)

  /** The movement ranges of the three axes. */
  datatype Limits = Limits(x: Bounds, y: Bounds, z: Bounds) {
    function Of(ax: Ax): Bounds {
      match ax
      case X => x
      case Y => y
      case Z => z
    }
  }

  /** `DEFAULT_LIMITS`. */
  const DEFAULT_LIMITS: Limits := Limits(Bounds(-45.0, 45.0), Bounds(-45.0, 45.0), Bounds(0.0, 95.0))

  /** `KEY_MAP`: where an axis position is kept in a measurement state. */
  function KeyOf(ax: Ax): string {
    match ax
    case X => "stage.x"
    case Y => "stage.y"
    case Z => "stage.focus"
  }

  /** The lower-case axis name. */
  function NameOf(ax: Ax): string {
    match ax
    case X => "x"
    case Y => "y"
    case Z => "z"
  }

  datatype AxisCommand = Move(steps: real, blocking: bool) | WaitForStop

  /** One motor as the control sees it: whether it is homed, its position
      in steps, its status fields and the commands it was sent. A move
      takes the motor to the commanded position. */
  class Motor {
    var homed: bool
    var position: real
    var status: Entries
    var sent: seq<AxisCommand>

    constructor (homed: bool, position: real, status: Entries)
      ensures this.homed == homed && this.position == position && this.status == status && sent == []
    {
      this.homed, this.position, this.status := homed, position, status;
      sent := [];
    }

    method Send(c: AxisCommand)
      modifies this
      ensures sent == old(sent) + [c]
      ensures position == if c.Move? then c.steps else old(position)
      ensures homed == old(homed) && status == old(status)
    {
      sent := sent + [c];
      if c.Move? {
        position := c.steps;
      }
    }
  }

  /** The commands one axis gets from a `MoveTo` that passes it `p`:
      a non-blocking move when `p` is given and within the bounds. */
  function Moves(p: Option<real>, b: Bounds): seq<AxisCommand> {
    if p.Some? && b.lo <= p.value <= b.hi then [Move(MmToSteps(p.value), false)] else []
  }

  /** `_waitForStop`, run on every axis once any axis was given. */
  function Waits(any: bool): seq<AxisCommand> {
    if any then [WaitForStop] else []
  }

  /** The position an axis ends at after `Moves(p, b)`. */
  function MovedTo(p: Option<real>, b: Bounds, position: real): real {
    if p.Some? && b.lo <= p.value <= b.hi then MmToSteps(p.value) else position
  }

  /** The targets `MoveTo` logs: each given axis under its upper-case name. */
  function Targets(x: Option<real>, y: Option<real>, z: Option<real>): seq<(string, real)> {
    (if x.Some? then [("X", x.value)] else []) +
    (if y.Some? then [("Y", y.value)] else []) +
    (if z.Some? then [("Z", z.value)] else [])
  }

  /** `PositionMoveTo` as written logs a y move under `X`, with the value
      given for x. */
  function PositionTargetsAsWritten(x: Option<real>, y: Option<real>): Entries {
    var t := if x.Some? then SetKey([], "X", Num(x.value)) else [];
    if y.Some? then SetKey(t, "X", if x.Some? then Num(x.value) else Null) else t
  }

  /** The targets `PositionMoveTo` evidently means to log: x under `X`
      and y under `Y`. */
  function PositionTargets(x: Option<real>, y: Option<real>): (r: Entries)
    ensures HasKey(r, "X") <==> x.Some?
    ensures HasKey(r, "Y") <==> y.Some?
  {
    var t := if x.Some? then SetKey([], "X", Num(x.value)) else [];
    assert !HasKey(t, "Y");
    if y.Some? then SetKeySpec(t, "Y", Num(y.value)); SetKey(t, "Y", Num(y.value)) else t
  }

  /** A y-only move is logged as `X = None` and the y target is lost. */
  lemma PositionTargetsFinding()
    ensures PositionTargetsAsWritten(None, Some(10.0)) == [("X", Null)]
    ensures Get(PositionTargetsAsWritten(None, Some(10.0)), "Y") == None
  {
  }

  /** The corrected log records exactly the axes given, with their values. */
  lemma PositionTargetsSpec(x: Option<real>, y: Option<real>)
    ensures Get(PositionTargets(x, y), "X") == if x.Some? then Some(Num(x.value)) else None
    ensures Get(PositionTargets(x, y), "Y") == if y.Some? then Some(Num(y.value)) else None
    ensures |PositionTargets(x, y)| == (if x.Some? then 1 else 0) + (if y.Some? then 1 else 0)
  {
    var t := if x.Some? then SetKey([], "X", Num(x.value)) else [];
    if x.Some? {
      assert t == [("X", Num(x.value))];
    }
    if y.Some? {
      SetKeyGet(t, "Y", Num(y.value));
    }
  }

  /** Python's `float(v)` of a value read from a state. */
  function AsFloat(v: Value): Result<real> {
    match v
    case Num(r) => Ok(r)
    case Bool(b) => Ok(if b then 1.0 else 0.0)
    case Str(s) => if Text.ParseFloat(s).Some? then Ok(Text.ParseFloat(s).value) else Err(ValueError)
    case _ => Err(TypeError)
  }

  /** The position a state requests for the axis kept under `key`. */
  function Coordinate(state: Entries, key: string): Result<Option<real>> {
    match Get(state, key)
    case None => Ok(None)
    case Some(v) =>
      var f :- AsFloat(v);
      Ok(Some(f))
  }

  /** The positions `FromState` passes to `MoveTo`, converted in the order
      x, y, focus. */
  function Requested(state: Entries): Result<(Option<real>, Option<real>, Option<real>)> {
    var x :- Coordinate(state, KeyOf(X));
    var y :- Coordinate(state, KeyOf(Y));
    var z :- Coordinate(state, KeyOf(Z));
    Ok((x, y, z))
  }

  /** An axis is moved exactly when its key is present, to the value
      stored there; a value `float` cannot convert raises. */
  lemma RequestedSpec(state: Entries, ax: Ax)
    ensures var r := Requested(state);
      var c := Coordinate(state, KeyOf(ax));
      (r.Ok? ==> c.Ok? && c.value == (match ax case X => r.value.0 case Y => r.value.1 case Z => r.value.2)) &&
      (c.Err? ==> r.Err?) &&
      (c.Ok? ==> (c.value.Some? <==> HasKey(state, KeyOf(ax)))) &&
      (HasKey(state, KeyOf(ax)) ==>
         var f := AsFloat(Get(state, KeyOf(ax)).value);
         (f.Ok? ==> c == Ok(Some(f.value))) && (f.Err? ==> c == Err(f.error)))
  {
  }

  /** The status entries of one axis, as written by `ToState`. */
  function StatusKey(name: string, key: string): string {
    "stage.status." + name + "." + key
  }

  function StatusEntries(name: string, status: Entries): (r: Entries)
    ensures |r| == |status|
    ensures forall i :: 0 <= i < |status| ==> r[i] == (StatusKey(name, status[i].0), status[i].1)
  {
    seq(|status|, i requires 0 <= i < |status| => (StatusKey(name, status[i].0), status[i].1))
  }

  /** The positions, in mm, under their state keys. */
  function Positions(px: real, py: real, pz: real): Entries {
    [(KeyOf(X), Num(StepsToMm(px))), (KeyOf(Y), Num(StepsToMm(py))), (KeyOf(Z), Num(StepsToMm(pz)))]
  }

  /** The state `ToState` returns for motors at `px, py, pz` steps with
      status fields `sx, sy, sz`. */
  function StateOf(state: Entries, px: real, py: real, pz: real, sx: Entries, sy: Entries, sz: Entries): Entries {
    Update(Update(Update(Update(state, Positions(px, py, pz)), StatusEntries("x", sx)), StatusEntries("y", sy)), StatusEntries("z", sz))
  }

  /** Status keys of one axis are distinct for distinct fields. */
  lemma StatusKeyInjective(name: string, a: string, b: string)
    ensures StatusKey(name, a) == StatusKey(name, b) <==> a == b
  {
    var p := "stage.status." + name + ".";
    if StatusKey(name, a) == StatusKey(name, b) {
      assert StatusKey(name, a) == p + a && StatusKey(name, b) == p + b;
      assert (p + a)[|p|..] == a && (p + b)[|p|..] == b;
    }
  }

  /** The status entries of an axis hold each field under its status key
      and nothing that is not a status key of that axis. */
  lemma StatusEntriesGet(name: string, status: Entries, key: string)
    requires UniqueKeys(status)
    ensures UniqueKeys(StatusEntries(name, status))
    ensures Get(StatusEntries(name, status), StatusKey(name, key)) == Get(status, key)
    ensures (|key| < |name| + 14 || key[..13] != "stage.status." || key[13..13 + |name|] != name) ==>
      !HasKey(StatusEntries(name, status), key)
  {
    var r := StatusEntries(name, status);
    forall i, j | 0 <= i < j < |r| ensures r[i].0 != r[j].0 {
      StatusKeyInjective(name, status[i].0, status[j].0);
    }
    var f := Find(status, key);
    forall m | 0 <= m < f ensures r[m].0 != StatusKey(name, key) {
      StatusKeyInjective(name, status[m].0, key);
    }
    if f == |status| {
      forall m | 0 <= m < |r| ensures r[m].0 != StatusKey(name, key) {
        StatusKeyInjective(name, status[m].0, key);
      }
    }
    FindIsFirst(r, StatusKey(name, key), f);
    if HasKey(r, key) {
      var i := Find(r, key);
      assert key == "stage.status." + name + "." + status[i].0;
    }
  }

  /** Whether `key` cannot be a status key of the axis called `name`. */
  predicate NotStatusOf(name: string, key: string) {
    |key| < |name| + 14 || key[..13] != "stage.status." || key[13..13 + |name|] != name
  }

  /** Writing the status entries of an axis changes no other key. */
  lemma SkipStatus(d: Entries, name: string, status: Entries, key: string)
    requires UniqueKeys(status) && NotStatusOf(name, key)
    ensures Get(Update(d, StatusEntries(name, status)), key) == Get(d, key)
  {
    StatusEntriesGet(name, status, key);
    UpdateGet(d, StatusEntries(name, status), key);
  }

  /** Writing the status entries of an axis stores each of its fields. */
  lemma HitStatus(d: Entries, name: string, status: Entries, field: string)
    requires UniqueKeys(status) && HasKey(status, field)
    ensures Get(Update(d, StatusEntries(name, status)), StatusKey(name, field)) == Get(status, field)
  {
    StatusEntriesGet(name, status, field);
    UpdateGet(d, StatusEntries(name, status), StatusKey(name, field));
  }

  /** A key that is not a status key passes all three status layers. */
  lemma SkipAllStatus(d: Entries, sx: Entries, sy: Entries, sz: Entries, key: string)
    requires UniqueKeys(sx) && UniqueKeys(sy) && UniqueKeys(sz)
    requires NotStatusOf("x", key) && NotStatusOf("y", key) && NotStatusOf("z", key)
    ensures Get(Update(Update(Update(d, StatusEntries("x", sx)), StatusEntries("y", sy)), StatusEntries("z", sz)), key) == Get(d, key)
  {
    var d1 := Update(d, StatusEntries("x", sx));
    var d2 := Update(d1, StatusEntries("y", sy));
    SkipStatus(d2, "z", sz, key);
    SkipStatus(d1, "y", sy, key);
    SkipStatus(d, "x", sx, key);
  }

  /** `ToState` reports every axis position in mm under its key. */
  lemma StateOfPositions(state: Entries, px: real, py: real, pz: real, sx: Entries, sy: Entries, sz: Entries, ax: Ax)
    requires UniqueKeys(sx) && UniqueKeys(sy) && UniqueKeys(sz)
    ensures Get(StateOf(state, px, py, pz, sx, sy, sz), KeyOf(ax)) ==
      Some(Num(StepsToMm(match ax case X => px case Y => py case Z => pz)))
  {
    var ps := Positions(px, py, pz);
    SkipAllStatus(Update(state, ps), sx, sy, sz, KeyOf(ax));
    UpdateGet(state, ps, KeyOf(ax));
  }

  /** `ToState` leaves every key outside `stage.` as it was. */
  lemma StateOfOther(state: Entries, px: real, py: real, pz: real, sx: Entries, sy: Entries, sz: Entries, other: string)
    requires UniqueKeys(sx) && UniqueKeys(sy) && UniqueKeys(sz)
    requires |other| < 6 || other[..6] != "stage."
    ensures Get(StateOf(state, px, py, pz, sx, sy, sz), other) == Get(state, other)
  {
    var ps := Positions(px, py, pz);
    if |other| >= 13 {
      assert other[..13][..6] == other[..6];
    }
    SkipAllStatus(Update(state, ps), sx, sy, sz, other);
    UpdateGet(state, ps, other);
  }

  /** `ToState` reports every status field of the x axis under
      `stage.status.x.{field}`. */
  lemma StateOfStatusX(state: Entries, px: real, py: real, pz: real, sx: Entries, sy: Entries, sz: Entries, field: string)
    requires UniqueKeys(sx) && UniqueKeys(sy) && UniqueKeys(sz) && HasKey(sx, field)
    ensures Get(StateOf(state, px, py, pz, sx, sy, sz), StatusKey("x", field)) == Get(sx, field)
  {
    var k := StatusKey("x", field);
    assert k[13..14] == "x";
    var d1 := Update(Update(state, Positions(px, py, pz)), StatusEntries("x", sx));
    var d2 := Update(d1, StatusEntries("y", sy));
    SkipStatus(d2, "z", sz, k);
    SkipStatus(d1, "y", sy, k);
    HitStatus(Update(state, Positions(px, py, pz)), "x", sx, field);
  }

  /** The same for the y axis. */
  lemma StateOfStatusY(state: Entries, px: real, py: real, pz: real, sx: Entries, sy: Entries, sz: Entries, field: string)
    requires UniqueKeys(sx) && UniqueKeys(sy) && UniqueKeys(sz) && HasKey(sy, field)
    ensures Get(StateOf(state, px, py, pz, sx, sy, sz), StatusKey("y", field)) == Get(sy, field)
  {
    var k := StatusKey("y", field);
    assert k[13..14] == "y";
    var d1 := Update(Update(state, Positions(px, py, pz)), StatusEntries("x", sx));
    var d2 := Update(d1, StatusEntries("y", sy));
    SkipStatus(d2, "z", sz, k);
    HitStatus(d1, "y", sy, field);
  }

  /** The same for the focus axis. */
  lemma StateOfStatusZ(state: Entries, px: real, py: real, pz: real, sx: Entries, sy: Entries, sz: Entries, field: string)
    requires UniqueKeys(sx) && UniqueKeys(sy) && UniqueKeys(sz) && HasKey(sz, field)
    ensures Get(StateOf(state, px, py, pz, sx, sy, sz), StatusKey("z", field)) == Get(sz, field)
  {
    var d2 := Update(Update(Update(state, Positions(px, py, pz)), StatusEntries("x", sx)), StatusEntries("y", sy));
    HitStatus(d2, "z", sz, field);
  }
  /** The loop `for key, value in e.items(): d[key] = value`. */
  method WriteEntries(d: Entries, e: Entries) returns (r: Entries)
    ensures r == Update(d, e)
  {
    r := d;
    var i := 0;
    while i < |e|
      invariant 0 <= i <= |e|
      invariant r == Update(d, e[..i])
    {
      assert e[..i + 1][..i] == e[..i];
      r := SetKey(r, e[i].0, e[i].1);
      i := i + 1;
    }
    assert e[..|e|] == e;
  }

  /** The stage control over three motors. */
  class StageControl {
    const xStage: Motor
    const yStage: Motor
    const zStage: Motor
    const limits: Limits
    /** Whether every axis was homed when the control was built. */
    var valid: bool

    /** The motor of an axis. */
    function MotorOf(ax: Ax): Motor {
      match ax
      case X => xStage
      case Y => yStage
      case Z => zStage
    }

    ghost predicate Distinct() {
      xStage != yStage && yStage != zStage && xStage != zStage
    }

    /** `StageControl(limits)`: the default limits when none are given,
        and `check`'s verdict on the homing of every axis. */
    constructor (x: Motor, y: Motor, z: Motor, given: Option<Limits>)
      requires x != y && y != z && x != z
      ensures xStage == x && yStage == y && zStage == z && Distinct()
      ensures limits == if given.Some? then given.value else DEFAULT_LIMITS
      ensures valid == (x.homed && y.homed && z.homed)
    {
      xStage, yStage, zStage := x, y, z;
      limits := if given.Some? then given.value else DEFAULT_LIMITS;
      valid := x.homed && y.homed && z.homed;
    }

    /** `_moveTo(ax, pos, blocking, nolimit)`: a target outside the inclusive
        bounds is refused and nothing is sent, unless limits are off; an
        accepted one commands the axis to `MM2STEPS(pos)`. */
    method MoveAxis(ax: Ax, pos: real, blocking: bool, nolimit: bool) returns (ok: bool)
      modifies MotorOf(ax)
      ensures ok == (nolimit || limits.Of(ax).lo <= pos <= limits.Of(ax).hi)
      ensures var m := MotorOf(ax);
        m.homed == old(m.homed) && m.status == old(m.status) &&
        (ok ==> m.position == MmToSteps(pos) &&
                m.sent == old(m.sent) + [Move(MmToSteps(pos), blocking)] + (if blocking then [WaitForStop] else [])) &&
        (!ok ==> m.position == old(m.position) && m.sent == old(m.sent))
    {
      if !nolimit {
        var lim := limits.Of(ax);
        if pos < lim.lo || pos > lim.hi {
          return false;
        }
      }
      var m := MotorOf(ax);
      m.Send(Move(MmToSteps(pos), blocking));
      if blocking {
        m.Send(WaitForStop);
      }
      return true;
    }

    /** `_waitForStop()`. */
    method WaitAll()
      requires Distinct()
      modifies xStage, yStage, zStage
      ensures xStage.sent == old(xStage.sent) + [WaitForStop] && xStage.position == old(xStage.position)
      ensures yStage.sent == old(yStage.sent) + [WaitForStop] && yStage.position == old(yStage.position)
      ensures zStage.sent == old(zStage.sent) + [WaitForStop] && zStage.position == old(zStage.position)
    {
      xStage.Send(WaitForStop);
      yStage.Send(WaitForStop);
      zStage.Send(WaitForStop);
    }

    /** `MoveTo(x, y, z)`: with no axis given nothing is sent; otherwise
        each given axis is attempted, refused targets are skipped, every
        axis is waited for, and `True` is returned either way. */
    method MoveTo(x: Option<real>, y: Option<real>, z: Option<real>) returns (ok: bool, targets: seq<(string, real)>)
      requires Distinct()
      modifies xStage, yStage, zStage
      ensures ok && targets == Targets(x, y, z)
      ensures var any := x.Some? || y.Some? || z.Some?;
        xStage.sent == old(xStage.sent) + Moves(x, limits.x) + Waits(any) &&
        yStage.sent == old(yStage.sent) + Moves(y, limits.y) + Waits(any) &&
        zStage.sent == old(zStage.sent) + Moves(z, limits.z) + Waits(any)
      ensures xStage.position == MovedTo(x, limits.x, old(xStage.position)) &&
              yStage.position == MovedTo(y, limits.y, old(yStage.position)) &&
              zStage.position == MovedTo(z, limits.z, old(zStage.position))
    {
      if x.None? && y.None? && z.None? {
        return true, [];
      }
      targets := [];
      if x.Some? {
        var _ := MoveAxis(X, x.value, false, false);
        targets := targets + [("X", x.value)];
      }
      if y.Some? {
        var _ := MoveAxis(Y, y.value, false, false);
        targets := targets + [("Y", y.value)];
      }
      if z.Some? {
        var _ := MoveAxis(Z, z.value, false, false);
        targets := targets + [("Z", z.value)];
      }
      WaitAll();
      ok := true;
    }

    /** `PositionMoveTo(x, y)`, logging the corrected targets: the x and y
        axes are moved as `MoveTo` moves them, and focus is only waited for. */
    method PositionMoveTo(x: Option<real>, y: Option<real>) returns (ok: bool, targets: Entries)
      requires Distinct()
      modifies xStage, yStage, zStage
      ensures ok
      ensures x.None? && y.None? ==> (targets == [] &&
        xStage.sent == old(xStage.sent) && yStage.sent == old(yStage.sent) && zStage.sent == old(zStage.sent))
      ensures x.Some? || y.Some? ==> (targets == PositionTargets(x, y) &&
        xStage.sent == old(xStage.sent) + Moves(x, limits.x) + [WaitForStop] &&
        yStage.sent == old(yStage.sent) + Moves(y, limits.y) + [WaitForStop] &&
        zStage.sent == old(zStage.sent) + [WaitForStop])
    {
      if x.None? && y.None? {
        return true, [];
      }
      targets := [];
      if x.Some? {
        var _ := MoveAxis(X, x.value, false, false);
        targets := SetKey(targets, "X", Num(x.value));
      }
      if y.Some? {
        var _ := MoveAxis(Y, y.value, false, false);
        targets := SetKey(targets, "Y", Num(y.value));
      }
      WaitAll();
      ok := true;
    }

    /** `FocusMoveTo(z)`: a blocking focus move whose verdict is returned. */
    method FocusMoveTo(z: real) returns (ok: bool, targets: seq<(string, real)>)
      modifies zStage
      ensures targets == [("Z", z)]
      ensures ok == (limits.z.lo <= z <= limits.z.hi)
      ensures ok ==> zStage.sent == old(zStage.sent) + [Move(MmToSteps(z), true), WaitForStop]
      ensures !ok ==> zStage.sent == old(zStage.sent)
    {
      ok := MoveAxis(Z, z, true, false);
      targets := [("Z", z)];
    }

    /** `FromState(state)`: moves the axes whose keys the state holds; a
        value that does not convert raises before anything moves. */
    method FromState(state: Entries) returns (r: Result<()>)
      requires Distinct()
      modifies xStage, yStage, zStage
      ensures r.Err? <==> Requested(state).Err?
      ensures r.Err? ==> (r.error == Requested(state).error &&
        xStage.sent == old(xStage.sent) && yStage.sent == old(yStage.sent) && zStage.sent == old(zStage.sent))
      ensures r.Ok? ==>
        var (x, y, z) := Requested(state).value;
        var any := x.Some? || y.Some? || z.Some?;
        xStage.sent == old(xStage.sent) + Moves(x, limits.x) + Waits(any) &&
        yStage.sent == old(yStage.sent) + Moves(y, limits.y) + Waits(any) &&
        zStage.sent == old(zStage.sent) + Moves(z, limits.z) + Waits(any)
    {
      var req := Requested(state);
      if req.Err? {
        return Err(req.error);
      }
      var (x, y, z) := req.value;
      var _, _ := MoveTo(x, y, z);
      return Ok(());
    }

    /** `ToState(state)`: the state with every axis position and status
        field written into it. */
    method ToState(state: Entries) returns (r: Entries)
      ensures r == StateOf(state, xStage.position, yStage.position, zStage.position,
                           xStage.status, yStage.status, zStage.status)
    {
      r := WriteEntries(state, Positions(xStage.position, yStage.position, zStage.position));
      r := WriteEntries(r, StatusEntries("x", xStage.status));
      r := WriteEntries(r, StatusEntries("y", yStage.status));
      r := WriteEntries(r, StatusEntries("z", zStage.status));
    }
  }

  /** After an accepted move the state reports the target back: the
      conversion to steps and back is exact. */
  lemma MoveThenReport(x: real, b: Bounds, position: real)
    requires b.lo <= x <= b.hi
    ensures StepsToMm(MovedTo(Some(x), b, position)) == x
  {
    ConversionsInverse(x, 0.0);
  }
}
