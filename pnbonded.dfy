/** The field model of a bonded p-n silicon sensor (run 2): a p-layer of
    thickness `Wp` on an n-layer of thickness `Wn`, the junction at x = 0,
    depleted from the junction into the p-layer as the bias grows. */

module PNBonded {
  import opened Wrappers
  import opened Numeric
  import opened Physics
  import opened ChargePropagation

  /** The defaults of `createChargePropagationSimulation`. */
  const DEFAULT_T: real := T0C + 26.0
  const DEFAULT_NA: real := 4.5e17
  const DEFAULT_WP: real := 503e-6
  const DEFAULT_WN: real := 490e-6

  /** A saturating mobility law: the mobility at a temperature and a field
      strength. */
  type MobilityLaw = (real, real) -> real

  /** `Run2_PNNModel`: the device, its depletion and its mobility laws. */
  datatype PNModel = PNModel(w: real, vbias: real, t: real, na: real, wp: real,
                             vdep: real, wdep: real, partial: bool,
                             eSat: MobilityLaw, hSat: MobilityLaw)

  /** A device with positive thickness and doping. */
  predicate Device(na: real, wp: real, wn: real) {
    na > 0.0 && wp > 0.0 && wn >= 0.0
  }

  /** `e0·Na/eps`, the slope of the field in the depleted p-layer. */
  function Slope(na: real): real {
    E0 * na / SI_EPS
  }

  /** `0.5·Na·e0/eps·Wp²`, the bias that depletes the whole p-layer. */
  function DepletionVoltage(na: real, wp: real): real {
    0.5 * na * E0 / SI_EPS * wp * wp
  }

  /** `2·Vbias·eps/(e0·Na)`, the square of the depletion width. */
  function WidthSquared(vbias: real, na: real): real
    requires na > 0.0
  {
    ConstantsPositive();
    PositiveProduct(E0, na);
    2.0 * vbias * SI_EPS / (E0 * na)
  }

  lemma PositiveProduct(a: real, b: real)
    requires a > 0.0 && b > 0.0
    ensures a * b > 0.0
  {
  }

  /** `sqrt` returns the non-negative square root of a non-negative number. */
  ghost predicate IsSqrt(sqrt: real -> real) {
    forall y :: y >= 0.0 ==> sqrt(y) >= 0.0 && sqrt(y) * sqrt(y) == y
  }

  /** `Run2_PNNModel(Vbias, T, Na, Wp, Wn)` with the square root `sqrt`;
      the square root of a negative number is not a number. */
  function NewModel(vbias: real, t: real, na: real, wp: real, wn: real,
                    sqrt: real -> real, eSat: MobilityLaw, hSat: MobilityLaw): (r: Result<PNModel>)
    requires Device(na, wp, wn)
    ensures r.Err? ==> r == Err(NotANumber) && vbias < DepletionVoltage(na, wp)
    ensures r.Ok? ==> Valid(r.value) && r.value.vbias == vbias && r.value.w == wp + wn
  {
    var vdep := DepletionVoltage(na, wp);
    if vbias < vdep then
      var arg := WidthSquared(vbias, na);
      if arg < 0.0 then Err(NotANumber)
      else Ok(PNModel(wp + wn, vbias, t, na, wp, vdep, -1.0 * sqrt(arg), true, eSat, hSat))
    else Ok(PNModel(wp + wn, vbias, t, na, wp, vdep, -wp, false, eSat, hSat))
  }

  /** The squared width has the sign of the bias. */
  lemma WidthSign(vbias: real, na: real, e: real, eps: real)
    requires na > 0.0 && e > 0.0 && eps > 0.0
    ensures 2.0 * vbias * eps / (e * na) < 0.0 <==> vbias < 0.0
  {
    var d := e * na;
    assert d > 0.0;
    var n := 2.0 * vbias * eps;
    assert n < 0.0 <==> vbias < 0.0;
    assert n / d < 0.0 <==> n < 0.0;
  }

  /** Below the depletion voltage the squared width is below `Wp²`. */
  lemma WidthBelowLayer(vbias: real, na: real, wp: real, e: real, eps: real)
    requires na > 0.0 && e > 0.0 && eps > 0.0
    requires vbias < 0.5 * na * e / eps * wp * wp
    ensures 2.0 * vbias * eps / (e * na) < wp * wp
  {
    var k := e * na / eps;
    var w := wp * wp;
    assert 0.5 * na * e / eps * wp * wp == 0.5 * k * w;
    var n := 2.0 * vbias;
    assert n < k * w;
    assert n / k < w;
    assert 2.0 * vbias * eps / (e * na) == n / k;
  }

  lemma ProductPositive(g: real, k: real)
    requires k > 0.0 && g * k > 0.0
    ensures g > 0.0
  {
  }

  /** A root whose square is below `Wp²` is below `Wp`. */
  lemma RootBelow(s: real, wp: real)
    requires s >= 0.0 && wp > 0.0 && s * s < wp * wp
    ensures s < wp
  {
    assert (wp - s) * (wp + s) == wp * wp - s * s;
    ProductPositive(wp - s, wp + s);
  }

  /** The model's branch and depletion width: a bias below `Vdep` depletes
      the p-layer partly, to a width `Wdep ≤ 0` inside it with
      `Wdep² = 2·Vbias·eps/(e0·Na)`; any other bias depletes it fully, to
      `-Wp`; a negative bias has no real depletion width. */
  lemma NewModelSpec(vbias: real, t: real, na: real, wp: real, wn: real,
                     sqrt: real -> real, eSat: MobilityLaw, hSat: MobilityLaw)
    requires Device(na, wp, wn) && IsSqrt(sqrt)
    ensures var r := NewModel(vbias, t, na, wp, wn, sqrt, eSat, hSat);
      (r.Err? <==> vbias < 0.0) &&
      (r.Ok? ==> (
        var m := r.value;
        Valid(m) && m.w == wp + wn && m.wp == wp && m.na == na && m.vbias == vbias && m.t == t &&
        m.vdep == DepletionVoltage(na, wp) && m.vdep > 0.0 &&
        (m.partial <==> vbias < m.vdep) &&
        (m.partial ==> -wp < m.wdep <= 0.0 && m.wdep * m.wdep == WidthSquared(vbias, na)) &&
        (!m.partial ==> m.wdep == -wp)))
  {
    DepletionFacts(vbias, na, wp);
    if 0.0 <= vbias < DepletionVoltage(na, wp) {
      RootBelow(sqrt(WidthSquared(vbias, na)), wp);
    }
  }

  /** The depletion voltage is positive, the squared width has the sign of
      the bias, and is below `Wp²` for a bias below the depletion voltage. */
  lemma DepletionFacts(vbias: real, na: real, wp: real)
    requires na > 0.0 && wp > 0.0
    ensures DepletionVoltage(na, wp) > 0.0
    ensures WidthSquared(vbias, na) < 0.0 <==> vbias < 0.0
    ensures vbias < DepletionVoltage(na, wp) ==> WidthSquared(vbias, na) < wp * wp
  {
    ConstantsPositive();
    var c := 0.5 * na * E0 / SI_EPS;
    assert c > 0.0;
    PositiveProduct(c, wp);
    PositiveProduct(c * wp, wp);
    WidthSign(vbias, na, E0, SI_EPS);
    if vbias < DepletionVoltage(na, wp) {
      WidthBelowLayer(vbias, na, wp, E0, SI_EPS);
    }
  }

  /** A model of a device with positive thickness and doping. */
  predicate Valid(m: PNModel) {
    m.w > 0.0 && m.wp > 0.0 && m.na > 0.0
  }

  /** `self._E(x)`. */
  function Efield(m: PNModel, x: real): (r: real)
    requires Valid(m)
    ensures m.partial ==> r <= 0.0
  {
    if m.partial then
      (if x <= m.wdep then 0.0 else Slope(m.na) * (m.wdep - x))
    else -1.0 * (m.vbias - m.vdep) / m.wp + Slope(m.na) * (-1.0 * m.wp - x)
  }

  /** Partial depletion: no field in the undepleted part `x ≤ Wdep`, and a
      negative field growing linearly towards the junction beyond it. */
  lemma PartialField(m: PNModel, x: real)
    requires Valid(m) && m.partial
    ensures x <= m.wdep ==> Efield(m, x) == 0.0
    ensures x > m.wdep ==> Efield(m, x) == Slope(m.na) * (m.wdep - x) && Efield(m, x) < 0.0
  {
    ConstantsPositive();
    PositiveSlope(m.na);
    if x > m.wdep {
      NegativeProduct(Slope(m.na), m.wdep - x);
    }
  }

  lemma PositiveSlope(na: real)
    requires na > 0.0
    ensures Slope(na) > 0.0
  {
    ConstantsPositive();
    var p := E0 * na;
    assert p > 0.0;
  }

  lemma NegativeProduct(k: real, d: real)
    requires k > 0.0 && d < 0.0
    ensures k * d < 0.0
  {
  }

  /** Full depletion: the field is linear in x with slope `-e0·Na/eps`,
      and `-(Vbias-Vdep)/Wp` at the back plane x = -Wp. */
  lemma FullField(m: PNModel, x: real, y: real)
    requires Valid(m) && !m.partial
    ensures Efield(m, -m.wp) == -1.0 * (m.vbias - m.vdep) / m.wp
    ensures Efield(m, y) - Efield(m, x) == -Slope(m.na) * (y - x)
  {
    var k := Slope(m.na);
    assert k * (-1.0 * m.wp - y) - k * (-1.0 * m.wp - x) == -k * (y - x);
  }

  /** At the depletion voltage the two branches meet: the fully depleted
      field is the partial one with `Wdep = -Wp`. */
  lemma BranchesMeet(m: PNModel, x: real)
    requires Valid(m) && !m.partial && m.vbias == m.vdep
    ensures Efield(m, x) == Slope(m.na) * (-m.wp - x)
  {
  }

  /** `Ew(x)`: the weighting field `1/(Wp+Wn)`, the same everywhere. */
  function Ew(m: PNModel, x: real): (r: real)
    requires m.w > 0.0
    ensures r > 0.0 && r * m.w == 1.0
  {
    1.0 / m.w
  }

  lemma EwConstant(m: PNModel, x: real, y: real)
    requires m.w > 0.0
    ensures Ew(m, x) == Ew(m, y)
  {
  }

  /** `np.sign(q)`. */
  function Sign(q: real): real {
    if q > 0.0 then 1.0 else if q < 0.0 then -1.0 else 0.0
  }

  /** `v(x, charge)` for one carrier: the field times the mobility of its
      kind at the field strength, signed by the charge. */
  function Velocity(m: PNModel, x: real, q: real): (r: real)
    requires Valid(m)
    ensures q == 0.0 ==> r == 0.0
  {
    var e := Efield(m, x);
    var mu := if q > 0.0 then m.hSat(m.t, Abs(e)) else if q < 0.0 then m.eSat(m.t, Abs(e)) else 0.0;
    e * mu * Sign(q)
  }

  /** Holes drift with the hole mobility along the field, electrons with
      the electron mobility against it, and a neutral carrier rests. */
  lemma VelocitySpec(m: PNModel, x: real, q: real)
    requires Valid(m)
    ensures var e := Efield(m, x);
      (q == 0.0 ==> Velocity(m, x, q) == 0.0) &&
      (q > 0.0 ==> Velocity(m, x, q) == e * m.hSat(m.t, Abs(e))) &&
      (q < 0.0 ==> Velocity(m, x, q) == -e * m.eSat(m.t, Abs(e)))
  {
  }

  /** With positive mobilities, a hole moves in the field's direction and
      an electron opposite to it. */
  lemma DriftDirection(m: PNModel, x: real, q: real)
    requires Valid(m)
    requires var e := Efield(m, x); m.hSat(m.t, Abs(e)) > 0.0 && m.eSat(m.t, Abs(e)) > 0.0
    ensures q > 0.0 ==> Velocity(m, x, q) * Efield(m, x) >= 0.0
    ensures q < 0.0 ==> Velocity(m, x, q) * Efield(m, x) <= 0.0
  {
    var e := Efield(m, x);
    VelocitySpec(m, x, q);
    if q > 0.0 {
      SquareScaled(e, m.hSat(m.t, Abs(e)));
    } else if q < 0.0 {
      SquareScaled(e, m.eSat(m.t, Abs(e)));
    }
  }

  lemma SquareScaled(e: real, mu: real)
    requires mu > 0.0
    ensures e * mu * e >= 0.0 && -e * mu * e <= 0.0
  {
    assert e * mu * e == mu * (e * e);
  }

  /** The model as the integrator sees it. */
  function AsField(m: PNModel): (f: FieldModel)
    requires Valid(m)
    ensures forall x, q :: f.v(x, q) == Velocity(m, x, q)
    ensures forall x :: f.ew(x) == Ew(m, x)
  {
    FieldModel((x, q) requires Valid(m) => Velocity(m, x, q), x requires Valid(m) => Ew(m, x))
  }

  /** `createChargePropagationSimulation(Vbias, T, Na, Wp, Wn)`: the
      default integrator on the p-layer `(-Wp, 0)` with this model. */
  method CreateSimulation(vbias: real, t: real, na: real, wp: real, wn: real,
                          sqrt: real -> real, eSat: MobilityLaw, hSat: MobilityLaw)
    returns (r: Result<Simulation>)
    requires Device(na, wp, wn) && IsSqrt(sqrt)
    ensures var model := NewModel(vbias, t, na, wp, wn, sqrt, eSat, hSat);
      (model.Err? ==> r == Err(model.error)) &&
      (model.Ok? ==> (r.Ok? && fresh(r.value) &&
         r.value.Settings() == Params(DEFAULT_DT_MIN, DEFAULT_DT_MAX, DEFAULT_DX, -wp, 0.0,
                                      DEFAULT_T_END, 20.0 * DEFAULT_DT_MAX) &&
         r.value.model == Some(AsField(model.value)) && Stepping(r.value.Settings())))
  {
    NewModelSpec(vbias, t, na, wp, wn, sqrt, eSat, hSat);
    var model := NewModel(vbias, t, na, wp, wn, sqrt, eSat, hSat);
    if model.Err? {
      return Err(model.error);
    }
    var sim := new Simulation();
    sim.xLo, sim.xHi := -wp, 0.0;
    sim.SetModel(AsField(model.value));
    return Ok(sim);
  }
}
