/** The one-dimensional charge-transport integrator: carriers drift in the
    field of a device model with an adaptive time step, and the currents
    they induce on the electrode are sampled into an electron and a hole
    signal. */

module ChargePropagation {
  import opened Wrappers
  import opened Numeric
  import opened Signals

  /** A device model: the drift velocity of a carrier of charge `q` at `x`,
      and the weighting field at `x`. */
  datatype FieldModel = FieldModel(v: (real, real) -> real, ew: real -> real)

  /** The integrator's settings. */
  datatype Params = Params(dtMin: real, dtMax: real, dx: real, xLo: real, xHi: real, tEnd: real, tPre: real)

  const DEFAULT_DT_MIN: real := 5e-12
  const DEFAULT_DT_MAX: real := 100e-12
  const DEFAULT_DX: real := 0.5e-6
  const DEFAULT_X_RANGE: (real, real) := (-503e-6, 0.0)
  const DEFAULT_T_END: real := 150e-9
  const NO_MODEL: string := "No valid model set!"

  /** Settings whose steps are positive. */
  predicate Stepping(p: Params) {
    p.dtMin > 0.0 && p.dtMax > 0.0
  }

  /** The time step: `dx / max|v|`, raised to `dt_min`, then lowered to
      `dt_max`. */
  function Clamp(dt: real, lo: real, hi: real): real {
    var raised := if dt < lo then lo else dt;
    if raised > hi then hi else raised
  }

  /** The step lies between the two bounds when they are ordered, and is
      never below the smaller one. */
  lemma ClampBounds(dt: real, lo: real, hi: real)
    ensures lo <= hi ==> lo <= Clamp(dt, lo, hi) <= hi
    ensures Clamp(dt, lo, hi) >= (if lo <= hi then lo else hi)
    ensures Clamp(dt, lo, hi) <= hi
  {
  }

  /** The smallest step the integrator can take. */
  function MinStep(p: Params): real {
    if p.dtMin <= p.dtMax then p.dtMin else p.dtMax
  }

  /** `self._model.v(charge_pos, charge_q)`, carrier by carrier. */
  function Velocities(m: FieldModel, pos: seq<real>, q: seq<real>): (r: seq<real>)
    requires |pos| == |q|
    ensures |r| == |pos|
  {
    seq(|pos|, i requires 0 <= i < |pos| => m.v(pos[i], q[i]))
  }

  /** `np.max(np.abs(charge_v))`. */
  function MaxSpeed(vs: seq<real>): (r: real)
    requires |vs| > 0
    ensures r >= 0.0
    ensures forall i :: 0 <= i < |vs| ==> Abs(vs[i]) <= r
    ensures exists i :: 0 <= i < |vs| && Abs(vs[i]) == r
  {
    var speeds := seq(|vs|, i requires 0 <= i < |vs| => Abs(vs[i]));
    var r := Max(speeds);
    assert forall i :: 0 <= i < |vs| ==> speeds[i] == Abs(vs[i]);
    r
  }

  /** The fastest carrier is at rest exactly when all of them are. */
  lemma MaxSpeedZero(vs: seq<real>)
    requires |vs| > 0
    ensures MaxSpeed(vs) == 0.0 <==> forall i :: 0 <= i < |vs| ==> vs[i] == 0.0
  {
    var r := MaxSpeed(vs);
    if r == 0.0 {
      forall i | 0 <= i < |vs| ensures vs[i] == 0.0 {
        assert Abs(vs[i]) <= 0.0;
      }
    } else {
      var k :| 0 <= k < |vs| && Abs(vs[k]) == r;
      assert vs[k] != 0.0;
    }
  }

  /** `charge_q*charge_v*self._model.Ew(charge_pos)`. */
  function Induced(m: FieldModel, pos: seq<real>, q: seq<real>, vs: seq<real>): (r: seq<real>)
    requires |pos| == |q| == |vs|
    ensures |r| == |pos|
  {
    seq(|pos|, i requires 0 <= i < |pos| => q[i] * vs[i] * m.ew(pos[i]))
  }

  /** `np.sum(x[charge_q < 0])` for electrons, `np.sum(x[charge_q > 0])`
      for holes. */
  function SumWhere(xs: seq<real>, q: seq<real>, electrons: bool): real
    requires |xs| == |q|
    decreases |xs|
  {
    if xs == [] then 0.0
    else
      var n := |xs| - 1;
      var counted := if electrons then q[n] < 0.0 else q[n] > 0.0;
      SumWhere(xs[..n], q[..n], electrons) + (if counted then xs[n] else 0.0)
  }

  /** A carrier of zero charge adds nothing to either sum, whatever its
      current. */
  lemma {:induction false} SumWhereIgnoresNeutral(xs: seq<real>, q: seq<real>, electrons: bool, k: nat, y: real)
    requires |xs| == |q| && k < |q| && q[k] == 0.0
    ensures SumWhere(xs[k := y], q, electrons) == SumWhere(xs, q, electrons)
    decreases |xs|
  {
    var n := |xs| - 1;
    if k < n {
      assert xs[k := y][..n] == xs[..n][k := y];
      SumWhereIgnoresNeutral(xs[..n], q[..n], electrons, k, y);
    } else {
      assert xs[k := y][..n] == xs[..n];
    }
  }

  /** `charge_pos + charge_v*dt`. */
  function Moved(pos: seq<real>, vs: seq<real>, dt: real): (r: seq<real>)
    requires |pos| == |vs|
    ensures |r| == |pos|
  {
    seq(|pos|, i requires 0 <= i < |pos| => pos[i] + vs[i] * dt)
  }

  /** `charge_q[outside] = 0` for the carriers that left `(x_lo, x_hi)`. */
  function Frozen(q: seq<real>, pos: seq<real>, lo: real, hi: real): (r: seq<real>)
    requires |q| == |pos|
    ensures |r| == |q|
  {
    seq(|q|, i requires 0 <= i < |q| => if pos[i] >= hi || pos[i] <= lo then 0.0 else q[i])
  }

  /** Freezing keeps the ensemble's size, zeroes exactly the carriers
      outside the domain, and never revives a frozen one. */
  lemma FrozenSpec(q: seq<real>, pos: seq<real>, lo: real, hi: real)
    requires |q| == |pos|
    ensures forall i :: 0 <= i < |q| ==>
      (Frozen(q, pos, lo, hi)[i] == if pos[i] >= hi || pos[i] <= lo then 0.0 else q[i])
    ensures forall i :: 0 <= i < |q| && q[i] == 0.0 ==> Frozen(q, pos, lo, hi)[i] == 0.0
  {
  }

  /** The samples the main loop adds, and the time it ends at. */
  datatype Trace = Trace(times: seq<real>, e: seq<real>, h: seq<real>, tFinal: real)

  /** The number of steps left is at most this. */
  function StepsLeft(p: Params, t: real): nat
    requires Stepping(p)
  {
    if t > p.tEnd then 0 else Floor((p.tEnd - t) / MinStep(p)) + 1
  }

  /** One more step of at least the smallest step leaves fewer steps. */
  lemma StepsLeftDecrease(p: Params, t: real, dt: real)
    requires Stepping(p) && t <= p.tEnd && dt >= MinStep(p)
    ensures StepsLeft(p, t + dt) < StepsLeft(p, t)
  {
    var s := MinStep(p);
    if t + dt <= p.tEnd {
      DivideStep(p.tEnd - (t + dt), p.tEnd - t, s);
      FloorGap((p.tEnd - (t + dt)) / s, (p.tEnd - t) / s);
    } else {
      Quotient(p.tEnd - t, s);
    }
  }

  /** Numbers at least one apart have floors at least one apart. */
  lemma FloorGap(x: real, y: real)
    requires x <= y - 1.0
    ensures Floor(x) < Floor(y)
  {
  }

  /** A non-negative quotient by a positive step has a non-negative floor. */
  lemma Quotient(a: real, s: real)
    requires a >= 0.0 && s > 0.0
    ensures Floor(a / s) >= 0
  {
  }

  lemma ProductSign(g: real, s: real)
    requires s > 0.0 && g * s <= 0.0
    ensures g <= 0.0
  {
  }

  /** Dividing by a positive step keeps a gap of one step a gap of one. */
  lemma DivideStep(a: real, b: real, s: real)
    requires s > 0.0 && a <= b - s
    ensures a / s <= b / s - 1.0
  {
    var x, y := a / s, b / s;
    ScaleBack(a, s);
    ScaleBack(b, s);
    assert x * s == a && y * s == b;
    var g := x - (y - 1.0);
    assert g * s == x * s - y * s + s;
    ProductSign(g, s);
  }

  /** One pass of the loop body once the carriers move: the step, the new
      positions and charges, and the two samples taken before moving. */
  datatype Step = Step(dt: real, pos: seq<real>, q: seq<real>, e: real, h: real)

  function StepOf(m: FieldModel, p: Params, pos: seq<real>, q: seq<real>, vs: seq<real>, top: real): (r: Step)
    requires |pos| == |q| == |vs| && top > 0.0
    ensures |r.pos| == |r.q| == |pos|
    ensures r.dt == Clamp(p.dx / top, p.dtMin, p.dtMax) && r.dt >= MinStep(p)
  {
    var dt := Clamp(p.dx / top, p.dtMin, p.dtMax);
    ClampBounds(p.dx / top, p.dtMin, p.dtMax);
    var current := Induced(m, pos, q, vs);
    var moved := Moved(pos, vs, dt);
    Step(dt, moved, Frozen(q, moved, p.xLo, p.xHi), SumWhere(current, q, true), SumWhere(current, q, false))
  }

  /** The main `while t_curr <= t_end` loop from time `t` with carriers at
      `pos` of charges `q`; `np.max` of no velocities raises. */
  function Loop(m: FieldModel, p: Params, t: real, pos: seq<real>, q: seq<real>): (r: Result<Trace>)
    requires Stepping(p) && |pos| == |q|
    ensures r.Ok? ==> r.value.tFinal >= t
    decreases StepsLeft(p, t)
  {
    if t > p.tEnd then Ok(Trace([], [], [], t))
    else if |pos| == 0 then Err(ValueError)
    else
      var vs := Velocities(m, pos, q);
      var top := MaxSpeed(vs);
      if top == 0.0 then Ok(Trace([t], [0.0], [0.0], t))
      else
        var st := StepOf(m, p, pos, q, vs, top);
        StepsLeftDecrease(p, t, st.dt);
        var rest :- Loop(m, p, t + st.dt, st.pos, st.q);
        Ok(Trace([t] + rest.times, [st.e] + rest.e, [st.h] + rest.h, rest.tFinal))
  }

  /** The loop fails only when it starts with no carriers. */
  lemma LoopFails(m: FieldModel, p: Params, t: real, pos: seq<real>, q: seq<real>)
    requires Stepping(p) && |pos| == |q|
    ensures Loop(m, p, t, pos, q).Err? <==> t <= p.tEnd && |pos| == 0
    ensures Loop(m, p, t, pos, q).Err? ==> Loop(m, p, t, pos, q).error == ValueError
  {
    if t <= p.tEnd && |pos| > 0 {
      LoopSucceeds(m, p, t, pos, q);
    }
  }

  lemma {:induction false} LoopSucceeds(m: FieldModel, p: Params, t: real, pos: seq<real>, q: seq<real>)
    requires Stepping(p) && |pos| == |q| && |pos| > 0
    ensures Loop(m, p, t, pos, q).Ok?
    decreases StepsLeft(p, t)
  {
    if t <= p.tEnd {
      var vs := Velocities(m, pos, q);
      var top := MaxSpeed(vs);
      if top != 0.0 {
        var st := StepOf(m, p, pos, q, vs, top);
        StepsLeftDecrease(p, t, st.dt);
        LoopSucceeds(m, p, t + st.dt, st.pos, st.q);
      }
    }
  }

  /** What the loop's samples look like: one time per sample in both
      signals, strictly increasing and within `[t, t_end]`, all before the
      final time; a final time not past `t_end` means the carriers all
      stopped, which leaves a zero sample at that time. */
  predicate TraceShape(tr: Trace, t: real, tEnd: real) {
    |tr.times| == |tr.e| == |tr.h| &&
    StrictlyIncreasing(tr.times) &&
    (forall i :: 0 <= i < |tr.times| ==> t <= tr.times[i] <= tEnd && tr.times[i] <= tr.tFinal) &&
    tr.tFinal >= t &&
    (tr.tFinal <= tEnd ==>
       |tr.times| > 0 && tr.times[|tr.times| - 1] == tr.tFinal &&
       tr.e[|tr.e| - 1] == 0.0 && tr.h[|tr.h| - 1] == 0.0)
  }

  lemma {:induction false} LoopShape(m: FieldModel, p: Params, t: real, pos: seq<real>, q: seq<real>)
    requires Stepping(p) && |pos| == |q|
    ensures Loop(m, p, t, pos, q).Ok? ==> TraceShape(Loop(m, p, t, pos, q).value, t, p.tEnd)
    decreases StepsLeft(p, t)
  {
    if t > p.tEnd {
      assert Loop(m, p, t, pos, q) == Ok(Trace([], [], [], t));
    } else if |pos| > 0 {
      var vs := Velocities(m, pos, q);
      var top := MaxSpeed(vs);
      if top == 0.0 {
        assert Loop(m, p, t, pos, q) == Ok(Trace([t], [0.0], [0.0], t));
      } else {
        var st := StepOf(m, p, pos, q, vs, top);
        StepsLeftDecrease(p, t, st.dt);
        LoopShape(m, p, t + st.dt, st.pos, st.q);
        var rest := Loop(m, p, t + st.dt, st.pos, st.q);
        if rest.Ok? {
          var r := rest.value;
          assert Loop(m, p, t, pos, q) == Ok(Trace([t] + r.times, [st.e] + r.e, [st.h] + r.h, r.tFinal));
          PrependShape(r, t, st.dt, p.tEnd, st.e, st.h);
        }
      }
    }
  }

  /** One sample at `t` in front of the samples from `t + dt`. */
  lemma PrependShape(rest: Trace, t: real, dt: real, tEnd: real, e: real, h: real)
    requires dt > 0.0 && t <= tEnd && TraceShape(rest, t + dt, tEnd)
    ensures TraceShape(Trace([t] + rest.times, [e] + rest.e, [h] + rest.h, rest.tFinal), t, tEnd)
  {
    var ts := [t] + rest.times;
    forall i, j | 0 <= i < j < |ts| ensures ts[i] < ts[j] {
      if i > 0 {
        assert ts[i] == rest.times[i - 1] && ts[j] == rest.times[j - 1];
      } else {
        assert ts[j] == rest.times[j - 1];
      }
    }
    if rest.tFinal <= tEnd {
      assert ts[|ts| - 1] == rest.times[|rest.times| - 1];
    }
  }

  /** The pre-trigger samples: at `-t_pre` when `t_pre > dt_min`, then at
      `-dt_min`. */
  function PreTimes(p: Params): (r: seq<real>)
    ensures |r| >= 1 && r[|r| - 1] == -p.dtMin
  {
    (if p.tPre > p.dtMin then [-p.tPre] else []) + [-p.dtMin]
  }

  /** The end sample at `t_end`, added only when the loop ends before it. */
  function EndTimes(p: Params, tr: Trace): seq<real> {
    if tr.tFinal < p.tEnd then [p.tEnd] else []
  }

  function Zeros(n: nat): (r: seq<real>)
    ensures |r| == n && forall i :: 0 <= i < n ==> r[i] == 0.0
  {
    seq(n, _ => 0.0)
  }

  /** The electron and hole signals `run` returns for a loop trace. */
  function Outputs(p: Params, tr: Trace): (Signal, Signal) {
    var pre, post := PreTimes(p), EndTimes(p, tr);
    var times := pre + tr.times + post;
    (Signal(times, Zeros(|pre|) + tr.e + Zeros(|post|)), Signal(times, Zeros(|pre|) + tr.h + Zeros(|post|)))
  }

  /** `run(charges)`: the electron and hole signals, or why it fails. */
  function RunOf(model: Option<FieldModel>, p: Params, charges: seq<(real, real)>): (r: Result<(Signal, Signal)>)
    requires Stepping(p)
    ensures model.None? ==> r == Err(Raised(NO_MODEL))
  {
    if model.None? then Err(Raised(NO_MODEL))
    else
      var tr :- Loop(model.value, p, 0.0, Positions(charges), Charges(charges));
      Ok(Outputs(p, tr))
  }

  /** The two signals share strictly increasing sample times, so the two
      can be added; the pre-trigger samples and the end sample are zero. */
  lemma SignalsShape(p: Params, tr: Trace)
    requires Stepping(p) && TraceShape(tr, 0.0, p.tEnd)
    ensures var (e, h) := Outputs(p, tr);
      e.time == h.time && |e.time| == |e.signal| == |h.signal| &&
      StrictlyIncreasing(e.time) &&
      e.time[0] == (if p.tPre > p.dtMin then -p.tPre else -p.dtMin) &&
      (forall i :: 0 <= i < |e.time| ==> e.time[i] <= (if tr.tFinal < p.tEnd then p.tEnd else tr.tFinal)) &&
      Add(e, h).Ok?
  {
    var pre, post := PreTimes(p), EndTimes(p, tr);
    var times := pre + tr.times + post;
    var (e, h) := Outputs(p, tr);
    forall i, j | 0 <= i < j < |times| ensures times[i] < times[j] {
      TimesOrdered(p, tr, i, j);
    }
    var bound := if tr.tFinal < p.tEnd then p.tEnd else tr.tFinal;
    forall i | 0 <= i < |times| ensures times[i] <= bound {
      if i < |pre| {
        assert times[i] == pre[i];
      } else if i < |pre| + |tr.times| {
        assert times[i] == tr.times[i - |pre|];
      } else {
        assert times[i] == p.tEnd;
      }
    }
    AddSpec(e, h);
  }

  /** Any two samples of the combined time axis are in order. */
  lemma TimesOrdered(p: Params, tr: Trace, i: nat, j: nat)
    requires Stepping(p) && TraceShape(tr, 0.0, p.tEnd)
    requires i < j < |PreTimes(p) + tr.times + EndTimes(p, tr)|
    ensures var ts := PreTimes(p) + tr.times + EndTimes(p, tr); ts[i] < ts[j]
  {
    var pre, post := PreTimes(p), EndTimes(p, tr);
    var ts := pre + tr.times + post;
    var a, b := |pre|, |pre| + |tr.times|;
    if j < a {
      assert pre[0] == -p.tPre && pre[1] == -p.dtMin;
    } else if i < a && j < b {
      assert ts[i] <= -p.dtMin < 0.0 <= tr.times[j - a];
    } else if i < a {
      assert ts[j] == p.tEnd && p.tEnd > tr.tFinal >= 0.0;
    } else if j < b {
      assert ts[i] == tr.times[i - a] && ts[j] == tr.times[j - a];
    } else {
      assert ts[j] == p.tEnd && ts[i] == tr.times[i - a] && tr.tFinal < p.tEnd;
    }
  }

  /** The output of `run`: the total alone, or with its two parts. */
  datatype Output = Total(total: Signal) | Parts(total: Signal, e: Signal, h: Signal)

  /** `ChargePropagation_1D`: the settings and the model of one simulation. */
  class Simulation {
    var dtMin: real
    var dtMax: real
    var dx: real
    var xLo: real
    var xHi: real
    var tEnd: real
    var tPre: real
    var model: Option<FieldModel>

    function Settings(): Params
      reads this
    {
      Params(dtMin, dtMax, dx, xLo, xHi, tEnd, tPre)
    }

    /** `ChargePropagation_1D()`: the default settings and no model. */
    constructor ()
      ensures Settings() == Params(DEFAULT_DT_MIN, DEFAULT_DT_MAX, DEFAULT_DX,
                                   DEFAULT_X_RANGE.0, DEFAULT_X_RANGE.1, DEFAULT_T_END, 20.0 * DEFAULT_DT_MAX)
      ensures model.None? && Stepping(Settings())
    {
      dtMin, dtMax, dx := DEFAULT_DT_MIN, DEFAULT_DT_MAX, DEFAULT_DX;
      xLo, xHi := DEFAULT_X_RANGE.0, DEFAULT_X_RANGE.1;
      tEnd := DEFAULT_T_END;
      tPre := 20.0 * DEFAULT_DT_MAX;
      model := None;
    }

    /** `setModel(model)`. */
    method SetModel(m: FieldModel)
      modifies this
      ensures model == Some(m) && Settings() == old(Settings())
    {
      model := Some(m);
    }

    /** `run(charges, retEH)`. */
    method Run(charges: seq<(real, real)>, retEH: bool) returns (r: Result<Output>)
      requires Stepping(Settings())
      ensures var spec := RunOf(model, Settings(), charges);
        (spec.Err? ==> r == Err(spec.error)) &&
        (spec.Ok? ==> (r.Ok? &&
           var (e, h) := spec.value;
           Add(e, h).Ok? &&
           r.value == if retEH then Parts(Add(e, h).value, e, h) else Total(Add(e, h).value)))
    {
      if model.None? {
        return Err(Raised(NO_MODEL));
      }
      var m, p := model.value, Settings();
      var pos, q := Positions(charges), Charges(charges);
      var eSignal, hSignal := PreTrigger(p);
      var ok, t := Propagate(m, p, pos, q, eSignal, hSignal);
      if !ok {
        LoopFails(m, p, 0.0, pos, q);
        return Err(ValueError);
      }
      ghost var tr := Loop(m, p, 0.0, pos, q).value;
      LoopShape(m, p, 0.0, pos, q);
      RunOfTrace(model, p, charges, tr);
      if t < p.tEnd {
        Sample(eSignal, hSignal, p.tEnd, 0.0, 0.0);
      }
      var e, h := eSignal.AsSignal(), hSignal.AsSignal();
      OutputsOf(p, tr, e, h);
      AddSpec(e, h);
      var total := Add(e, h).value;
      if retEH {
        return Ok(Parts(total, e, h));
      }
      return Ok(Total(total));
    }
  }

  /** `charge_pos`, the first column of the charges. */
  function Positions(charges: seq<(real, real)>): (r: seq<real>)
    ensures |r| == |charges| && forall i :: 0 <= i < |charges| ==> r[i] == charges[i].0
  {
    seq(|charges|, i requires 0 <= i < |charges| => charges[i].0)
  }

  /** `charge_q`, the second column of the charges. */
  function Charges(charges: seq<(real, real)>): (r: seq<real>)
    ensures |r| == |charges| && forall i :: 0 <= i < |charges| ==> r[i] == charges[i].1
  {
    seq(|charges|, i requires 0 <= i < |charges| => charges[i].1)
  }

  /** The two signals before the first step: zero samples at the
      pre-trigger times. */
  method PreTrigger(p: Params) returns (eSignal: SignalExtensible, hSignal: SignalExtensible)
    ensures fresh(eSignal) && fresh(hSignal) && eSignal != hSignal
    ensures eSignal.Valid() && hSignal.Valid()
    ensures eSignal.times == hSignal.times == PreTimes(p)
    ensures eSignal.values == hSignal.values == Zeros(|PreTimes(p)|)
  {
    eSignal := new SignalExtensible();
    hSignal := new SignalExtensible();
    if p.tPre > p.dtMin {
      Sample(eSignal, hSignal, -p.tPre, 0.0, 0.0);
    }
    Sample(eSignal, hSignal, -p.dtMin, 0.0, 0.0);
  }

  /** `e.add(t, …)` and `h.add(t, …)`: one sample on each signal. */
  method Sample(eSignal: SignalExtensible, hSignal: SignalExtensible, t: real, e: real, h: real)
    requires eSignal != hSignal && eSignal.Valid() && hSignal.Valid()
    modifies eSignal, hSignal
    ensures eSignal.Valid() && hSignal.Valid()
    ensures eSignal.times == old(eSignal.times) + [t] && eSignal.values == old(eSignal.values) + [e]
    ensures hSignal.times == old(hSignal.times) + [t] && hSignal.values == old(hSignal.values) + [h]
  {
    eSignal.Add(t, e);
    hSignal.Add(t, h);
  }

  /** The main loop of `run`, from `t_curr = 0`: it appends the trace of
      `Loop` to both signals, or fails as `Loop` does. */
  method Propagate(m: FieldModel, p: Params, pos0: seq<real>, q0: seq<real>,
                   eSignal: SignalExtensible, hSignal: SignalExtensible) returns (ok: bool, t: real)
    requires Stepping(p) && |pos0| == |q0|
    requires eSignal != hSignal && eSignal.Valid() && hSignal.Valid()
    modifies eSignal, hSignal
    ensures eSignal.Valid() && hSignal.Valid()
    ensures ok <==> Loop(m, p, 0.0, pos0, q0).Ok?
    ensures ok ==> var tr := Loop(m, p, 0.0, pos0, q0).value;
      t == tr.tFinal &&
      eSignal.times == old(eSignal.times) + tr.times && eSignal.values == old(eSignal.values) + tr.e &&
      hSignal.times == old(hSignal.times) + tr.times && hSignal.values == old(hSignal.values) + tr.h
  {
    ghost var spec := Loop(m, p, 0.0, pos0, q0);
    ghost var times: seq<real>, es: seq<real>, hs: seq<real> := [], [], [];
    var pos, q := pos0, q0;
    t := 0.0;
    var stopped := false;
    ResumeNothing(spec);
    while t <= p.tEnd && !stopped
      invariant |pos| == |q|
      invariant eSignal.Valid() && hSignal.Valid()
      invariant eSignal.times == old(eSignal.times) + times && eSignal.values == old(eSignal.values) + es
      invariant hSignal.times == old(hSignal.times) + times && hSignal.values == old(hSignal.values) + hs
      invariant !stopped ==> spec == Resume(times, es, hs, Loop(m, p, t, pos, q))
      invariant stopped ==> spec == Ok(Trace(times, es, hs, t))
      decreases StepsLeft(p, t) + (if stopped then 0 else 1)
    {
      if |pos| == 0 {
        return false, t;
      }
      ghost var before := StepsLeft(p, t);
      var e, h, next, pos', q';
      stopped, e, h, next, pos', q' := Pass(m, p, t, pos, q, eSignal, hSignal, times, es, hs);
      AppendAssoc(old(eSignal.times), times, t);
      AppendAssoc(old(eSignal.values), es, e);
      AppendAssoc(old(hSignal.values), hs, h);
      times, es, hs := times + [t], es + [e], hs + [h];
      if !stopped {
        t, pos, q := next, pos', q';
      }
      assert StepsLeft(p, t) + (if stopped then 0 else 1) < before + 1;
    }
    return true, t;
  }

  /** One pass of the loop body from time `t`: sample both signals, then
      stop if no carrier moves, or else step the carriers forward. */
  method Pass(m: FieldModel, p: Params, t: real, pos: seq<real>, q: seq<real>,
              eSignal: SignalExtensible, hSignal: SignalExtensible,
              ghost times: seq<real>, ghost es: seq<real>, ghost hs: seq<real>)
    returns (stop: bool, e: real, h: real, next: real, pos': seq<real>, q': seq<real>)
    requires Stepping(p) && |pos| == |q| && t <= p.tEnd && |pos| > 0
    requires eSignal != hSignal && eSignal.Valid() && hSignal.Valid()
    modifies eSignal, hSignal
    ensures eSignal.Valid() && hSignal.Valid()
    ensures eSignal.times == old(eSignal.times) + [t] && eSignal.values == old(eSignal.values) + [e]
    ensures hSignal.times == old(hSignal.times) + [t] && hSignal.values == old(hSignal.values) + [h]
    ensures stop ==> Resume(times, es, hs, Loop(m, p, t, pos, q)) == Ok(Trace(times + [t], es + [e], hs + [h], t))
    ensures !stop ==> (|pos'| == |q'| && StepsLeft(p, next) < StepsLeft(p, t) &&
      Resume(times, es, hs, Loop(m, p, t, pos, q)) == Resume(times + [t], es + [e], hs + [h], Loop(m, p, next, pos', q')))
  {
    var vs := Velocities(m, pos, q);
    var top := MaxSpeed(vs);
    if top == 0.0 {
      Sample(eSignal, hSignal, t, 0.0, 0.0);
      LoopStops(m, p, t, pos, q, times, es, hs);
      return true, 0.0, 0.0, t, pos, q;
    }
    var dt := p.dx / top;
    if dt < p.dtMin {
      dt := p.dtMin;
    }
    if dt > p.dtMax {
      dt := p.dtMax;
    }
    var current := Induced(m, pos, q, vs);
    e, h := SumWhere(current, q, true), SumWhere(current, q, false);
    Sample(eSignal, hSignal, t, e, h);
    pos' := Moved(pos, vs, dt);
    q' := Frozen(q, pos', p.xLo, p.xHi);
    LoopAdvance(m, p, t, pos, q, Step(dt, pos', q', e, h), times, es, hs);
    stop, next := false, t + dt;
  }

  /** The loop's first pass, when the carriers move. */
  lemma LoopUnfold(m: FieldModel, p: Params, t: real, pos: seq<real>, q: seq<real>, st: Step)
    requires Stepping(p) && |pos| == |q| && t <= p.tEnd && |pos| > 0
    requires MaxSpeed(Velocities(m, pos, q)) > 0.0
    requires st == StepOf(m, p, pos, q, Velocities(m, pos, q), MaxSpeed(Velocities(m, pos, q)))
    ensures StepsLeft(p, t + st.dt) < StepsLeft(p, t)
    ensures |st.pos| == |st.q| == |pos|
    ensures var rest := Loop(m, p, t + st.dt, st.pos, st.q);
      Loop(m, p, t, pos, q) ==
        if rest.Err? then rest else
        Ok(Trace([t] + rest.value.times, [st.e] + rest.value.e, [st.h] + rest.value.h, rest.value.tFinal))
  {
    StepsLeftDecrease(p, t, st.dt);
  }

  /** After the samples already taken, the loop's first pass moves one
      sample from what is left to what is done. */
  lemma LoopAdvance(m: FieldModel, p: Params, t: real, pos: seq<real>, q: seq<real>, st: Step,
                    times: seq<real>, es: seq<real>, hs: seq<real>)
    requires Stepping(p) && |pos| == |q| && t <= p.tEnd && |pos| > 0
    requires MaxSpeed(Velocities(m, pos, q)) > 0.0
    requires st == StepOf(m, p, pos, q, Velocities(m, pos, q), MaxSpeed(Velocities(m, pos, q)))
    ensures StepsLeft(p, t + st.dt) < StepsLeft(p, t)
    ensures |st.pos| == |st.q| == |pos|
    ensures Resume(times, es, hs, Loop(m, p, t, pos, q)) ==
            Resume(times + [t], es + [st.e], hs + [st.h], Loop(m, p, t + st.dt, st.pos, st.q))
  {
    LoopUnfold(m, p, t, pos, q, st);
    ResumeStep(times, es, hs, t, st.e, st.h, Loop(m, p, t + st.dt, st.pos, st.q));
  }

  /** When no carrier moves, the loop takes one zero sample and stops. */
  lemma LoopStops(m: FieldModel, p: Params, t: real, pos: seq<real>, q: seq<real>,
                  times: seq<real>, es: seq<real>, hs: seq<real>)
    requires Stepping(p) && |pos| == |q| && t <= p.tEnd && |pos| > 0
    requires MaxSpeed(Velocities(m, pos, q)) == 0.0
    ensures Resume(times, es, hs, Loop(m, p, t, pos, q)) == Ok(Trace(times + [t], es + [0.0], hs + [0.0], t))
  {
  }

  lemma AppendAssoc(a: seq<real>, b: seq<real>, x: real)
    ensures a + b + [x] == a + (b + [x])
  {
  }

  lemma ResumeNothing(r: Result<Trace>)
    ensures Resume([], [], [], r) == r
  {
    if r.Ok? {
      assert [] + r.value.times == r.value.times;
      assert [] + r.value.e == r.value.e;
      assert [] + r.value.h == r.value.h;
    }
  }

  /** `run` succeeds with the signals of the loop's trace. */
  lemma RunOfTrace(model: Option<FieldModel>, p: Params, charges: seq<(real, real)>, tr: Trace)
    requires Stepping(p) && model.Some?
    requires Loop(model.value, p, 0.0, Positions(charges), Charges(charges)) == Ok(tr)
    ensures RunOf(model, p, charges) == Ok(Outputs(p, tr))
  {
  }

  /** The signals the method builds are those of its trace. */
  lemma OutputsOf(p: Params, tr: Trace, e: Signal, h: Signal)
    requires |tr.times| == |tr.e| == |tr.h|
    requires e.time == h.time == PreTimes(p) + tr.times + EndTimes(p, tr)
    requires e.signal == Zeros(|PreTimes(p)|) + tr.e + Zeros(|EndTimes(p, tr)|)
    requires h.signal == Zeros(|PreTimes(p)|) + tr.h + Zeros(|EndTimes(p, tr)|)
    ensures (e, h) == Outputs(p, tr)
    ensures e.time == h.time && |e.signal| == |e.time| && |h.signal| == |h.time|
  {
  }

  /** The loop's result after the samples `times` already taken. */
  function Resume(times: seq<real>, es: seq<real>, hs: seq<real>, rest: Result<Trace>): Result<Trace> {
    if rest.Err? then rest else Ok(Trace(times + rest.value.times, es + rest.value.e, hs + rest.value.h, rest.value.tFinal))
  }

  lemma ResumeStep(times: seq<real>, es: seq<real>, hs: seq<real>, t: real, e: real, h: real, rest: Result<Trace>)
    ensures Resume(times, es, hs,
                   if rest.Err? then rest else
                   Ok(Trace([t] + rest.value.times, [e] + rest.value.e, [h] + rest.value.h, rest.value.tFinal))) ==
            Resume(times + [t], es + [e], hs + [h], rest)
  {
    if rest.Ok? {
      assert times + ([t] + rest.value.times) == (times + [t]) + rest.value.times;
      assert es + ([e] + rest.value.e) == (es + [e]) + rest.value.e;
      assert hs + ([h] + rest.value.h) == (hs + [h]) + rest.value.h;
    }
  }
}
