/** The charge ensembles the simulation starts from: electron–hole pairs at
    one point, along a normal profile, or along an exponential profile. */

module Charge {
  import opened Wrappers
  import opened Numeric
  import opened Physics

  /** A carrier: its position and its charge. */
  type Carrier = (real, real)

  const NORMAL_NSIGMA: real := 3.0
  const NORMAL_POINTS: int := 31
  const EXPONENTIAL_NLBDA: real := 5.0
  const EXPONENTIAL_POINTS: int := 26

  /** The carriers of weight `w` at `x`: the electron first, then the hole. */
  function PairAt(x: real, w: real, e: bool, h: bool): (r: seq<Carrier>)
    ensures |r| == (if e then 1 else 0) + (if h then 1 else 0)
  {
    (if e then [(x, -E0 * w)] else []) + (if h then [(x, E0 * w)] else [])
  }

  /** `point(Neh, position, e, h)`. */
  function Point(neh: real, position: real, e: bool, h: bool): (r: seq<Carrier>)
    ensures |r| == (if e then 1 else 0) + (if h then 1 else 0)
  {
    PairAt(position, neh, e, h)
  }

  /** The carriers of the first `n` sample positions, in order. */
  function PairsOf(xs: seq<real>, ws: seq<real>, e: bool, h: bool, n: nat): (r: seq<Carrier>)
    requires n <= |xs| && n <= |ws|
    ensures |r| == (if e then n else 0) + (if h then n else 0)
  {
    if n == 0 then [] else PairsOf(xs, ws, e, h, n - 1) + PairAt(xs[n - 1], ws[n - 1], e, h)
  }

  /** The loop over `zip(positions, weights)` that appends the pairs. */
  method Collect(xs: seq<real>, ws: seq<real>, e: bool, h: bool) returns (charges: seq<Carrier>)
    ensures var n := if |xs| <= |ws| then |xs| else |ws|;
      charges == PairsOf(xs, ws, e, h, n)
  {
    var n := if |xs| <= |ws| then |xs| else |ws|;
    charges := [];
    for i := 0 to n
      invariant charges == PairsOf(xs, ws, e, h, i)
    {
      if e {
        charges := charges + [(xs[i], -E0 * ws[i])];
      }
      if h {
        charges := charges + [(xs[i], E0 * ws[i])];
      }
    }
  }

  /** With both kinds requested, the electron of sample `i` sits at `2i`
      and its hole at `2i + 1`. */
  lemma {:induction false} PairsOrder(xs: seq<real>, ws: seq<real>, n: nat, i: nat)
    requires n <= |xs| && n <= |ws| && i < n
    ensures PairsOf(xs, ws, true, true, n)[2 * i] == (xs[i], -E0 * ws[i])
    ensures PairsOf(xs, ws, true, true, n)[2 * i + 1] == (xs[i], E0 * ws[i])
    decreases n
  {
    if i < n - 1 {
      PairsOrder(xs, ws, n - 1, i);
    }
  }

  /** The total charge of an ensemble. */
  function TotalCharge(cs: seq<Carrier>): real
    decreases |cs|
  {
    if cs == [] then 0.0 else TotalCharge(cs[..|cs| - 1]) + cs[|cs| - 1].1
  }

  lemma {:induction false} TotalChargeAppend(a: seq<Carrier>, b: seq<Carrier>)
    ensures TotalCharge(a + b) == TotalCharge(a) + TotalCharge(b)
    decreases |b|
  {
    if b == [] {
      assert a + b == a;
    } else {
      assert (a + b)[..|a + b| - 1] == a + b[..|b| - 1];
      TotalChargeAppend(a, b[..|b| - 1]);
    }
  }

  /** The net charge of the carriers of total weight `w`: `-e0·w` for
      the electrons, `+e0·w` for the holes. */
  function NetCharge(w: real, e: bool, h: bool): real {
    (if h then E0 * w else 0.0) - (if e then E0 * w else 0.0)
  }

  lemma PairCharge(x: real, w: real, e: bool, h: bool)
    ensures TotalCharge(PairAt(x, w, e, h)) == NetCharge(w, e, h)
  {
    var p := PairAt(x, w, e, h);
    if e && h {
      assert p[..1] == [(x, -E0 * w)];
      assert p[..1][..0] == [];
      assert TotalCharge(p[..1]) == -E0 * w;
      assert TotalCharge(p) == -E0 * w + E0 * w;
    } else if e || h {
      assert p[..0] == [];
    }
  }

  /** The ensemble's charge is the net charge of its total weight. */
  lemma {:induction false} PairsCharge(xs: seq<real>, ws: seq<real>, e: bool, h: bool, n: nat)
    requires n <= |xs| && n <= |ws|
    ensures TotalCharge(PairsOf(xs, ws, e, h, n)) == NetCharge(Sum(ws[..n]), e, h)
    decreases n
  {
    if n > 0 {
      PairsCharge(xs, ws, e, h, n - 1);
      TotalChargeAppend(PairsOf(xs, ws, e, h, n - 1), PairAt(xs[n - 1], ws[n - 1], e, h));
      PairCharge(xs[n - 1], ws[n - 1], e, h);
      assert ws[..n][..n - 1] == ws[..n - 1];
    }
  }

  /** `Neh*pdf/np.sum(pdf)`: weights rescaled to sum to `Neh`; a zero
      total over some samples gives NaN weights. Over the reals
      `Neh*p/total` is `(Neh/total)*p`, the form the weights take here. */
  function Normalise(neh: real, p: seq<real>): (r: Result<seq<real>>)
    ensures r.Ok? <==> |p| == 0 || Sum(p) != 0.0
    ensures r.Ok? ==> |r.value| == |p|
  {
    var total := Sum(p);
    if |p| > 0 && total == 0.0 then Err(NotANumber) else Ok(Scaled(if total == 0.0 then 0.0 else neh / total, p))
  }

  /** `c*p`, element by element. */
  function Scaled(c: real, p: seq<real>): (r: seq<real>)
    ensures |r| == |p| && forall i :: 0 <= i < |p| ==> r[i] == c * p[i]
  {
    seq(|p|, i requires 0 <= i < |p| => c * p[i])
  }

  /** Normalised weights sum to `Neh`. */
  lemma NormaliseSum(neh: real, p: seq<real>)
    requires |p| > 0 && Sum(p) != 0.0
    ensures Sum(Normalise(neh, p).value) == neh
  {
    assert Normalise(neh, p) == Ok(Scaled(neh / Sum(p), p));
    ScaledSum(neh, p, neh / Sum(p));
  }

  /** Weights `(neh/total)*p[i]` sum to `neh`. */
  lemma ScaledSum(neh: real, p: seq<real>, c: real)
    requires Sum(p) != 0.0 && c == neh / Sum(p)
    ensures Sum(Scaled(c, p)) == neh
  {
    SumScale(p, c, Scaled(c, p));
    Cancel(neh, Sum(p), c);
  }

  /** Normalised weights keep the proportions of the densities. */
  lemma NormaliseShares(neh: real, p: seq<real>)
    requires |p| > 0 && Sum(p) != 0.0
    ensures forall i :: 0 <= i < |p| ==> Normalise(neh, p).value[i] == (neh / Sum(p)) * p[i]
  {
    assert Normalise(neh, p).value == Scaled(neh / Sum(p), p);
  }

  /** The scale factor `neh/total` times the total gives back `neh`. */
  lemma Cancel(neh: real, total: real, c: real)
    requires total != 0.0 && c == neh / total
    ensures c * total == neh
  {
  }

  /** All positive weights have a positive sum. */
  lemma {:induction false} SumPositive(p: seq<real>)
    requires |p| > 0 && forall i :: 0 <= i < |p| ==> p[i] > 0.0
    ensures Sum(p) > 0.0
    decreases |p|
  {
    if |p| > 1 {
      SumPositive(p[..|p| - 1]);
    }
  }

  /** The values of a probability density on a grid. */
  function Densities(pdf: real -> real, xs: seq<real>): (r: seq<real>)
    ensures |r| == |xs|
  {
    seq(|xs|, i requires 0 <= i < |xs| => pdf(xs[i]))
  }

  /** `normal(Neh, position, sigma, Nsigma, points, e, h)`; `pdf` stands
      for `scipy.stats.norm.pdf(·, position, sigma)`. */
  function NormalOf(neh: real, position: real, sigma: real, nsigma: real, points: int,
                    e: bool, h: bool, pdf: real -> real): Result<seq<Carrier>>
  {
    var xs :- Linspace(position - nsigma * sigma, position + nsigma * sigma, points);
    var ws :- Normalise(neh, Densities(pdf, xs));
    Ok(PairsOf(xs, ws, e, h, |xs|))
  }

  /** `normal(...)` as the source runs it: weights, then the append loop. */
  method Normal(neh: real, position: real, sigma: real, nsigma: real, points: int,
                e: bool, h: bool, pdf: real -> real) returns (r: Result<seq<Carrier>>)
    ensures r == NormalOf(neh, position, sigma, nsigma, points, e, h, pdf)
  {
    var grid := Linspace(position - nsigma * sigma, position + nsigma * sigma, points);
    if grid.Err? {
      return Err(grid.error);
    }
    var weights := Normalise(neh, Densities(pdf, grid.value));
    if weights.Err? {
      return Err(weights.error);
    }
    var charges := Collect(grid.value, weights.value, e, h);
    return Ok(charges);
  }

  /** For a positive density, `normal` spreads `points` pairs evenly over
      `position ± Nsigma·sigma`, and the charge adds up to the net
      charge of `Neh`: zero when both carriers are requested. */
  lemma NormalSpec(neh: real, position: real, sigma: real, nsigma: real, points: int,
                   e: bool, h: bool, pdf: real -> real)
    requires points >= 1 && forall x :: pdf(x) > 0.0
    ensures var r := NormalOf(neh, position, sigma, nsigma, points, e, h, pdf);
      r.Ok? &&
      |r.value| == (if e then points else 0) + (if h then points else 0) &&
      TotalCharge(r.value) == NetCharge(neh, e, h)
  {
    var xs := Linspace(position - nsigma * sigma, position + nsigma * sigma, points).value;
    EnsembleCharge(neh, xs, xs, e, h, pdf);
  }

  /** Carriers at `xs` weighted by the normalised density at `grid` carry
      the net charge of `Neh`. */
  lemma EnsembleCharge(neh: real, xs: seq<real>, grid: seq<real>, e: bool, h: bool, pdf: real -> real)
    requires |xs| == |grid| >= 1 && forall x :: pdf(x) > 0.0
    ensures Normalise(neh, Densities(pdf, grid)).Ok?
    ensures var ws := Normalise(neh, Densities(pdf, grid)).value;
      TotalCharge(PairsOf(xs, ws, e, h, |xs|)) == NetCharge(neh, e, h)
  {
    DensitiesNormalise(neh, grid, pdf);
    WeightedCharge(neh, xs, Normalise(neh, Densities(pdf, grid)).value, e, h);
  }

  /** A positive density normalises to weights that sum to `Neh`. */
  lemma DensitiesNormalise(neh: real, grid: seq<real>, pdf: real -> real)
    requires |grid| >= 1 && forall x :: pdf(x) > 0.0
    ensures Normalise(neh, Densities(pdf, grid)).Ok?
    ensures |Normalise(neh, Densities(pdf, grid)).value| == |grid|
    ensures Sum(Normalise(neh, Densities(pdf, grid)).value) == neh
  {
    var p := Densities(pdf, grid);
    forall i | 0 <= i < |p| ensures p[i] > 0.0 {
      var x := grid[i];
      assert p[i] == pdf(x);
      assert pdf(x) > 0.0;
    }
    SumPositive(p);
    NormaliseSum(neh, p);
  }

  /** Weights that sum to `Neh` give an ensemble of the net charge of
      `Neh`. */
  lemma WeightedCharge(neh: real, xs: seq<real>, ws: seq<real>, e: bool, h: bool)
    requires |ws| == |xs| && Sum(ws) == neh
    ensures TotalCharge(PairsOf(xs, ws, e, h, |xs|)) == NetCharge(neh, e, h)
  {
    var n := |xs|;
    assert ws[..n] == ws;
    PairsCharge(xs, ws, e, h, n);
  }

  /** `exponential(Neh, position, lbda, Nlbda, points, e, h)`; `pdf`
      stands for `scipy.stats.expon.pdf(·, 0, |lbda|)`. */
  function ExponentialOf(neh: real, position: real, lbda: real, nlbda: real, points: int,
                         e: bool, h: bool, pdf: real -> real): Result<seq<Carrier>>
  {
    var depth :- Linspace(0.0, nlbda * Abs(lbda), points);
    var ws :- Normalise(neh, Densities(pdf, depth));
    var xs :- Linspace(position, position + nlbda * lbda, points);
    Ok(PairsOf(xs, ws, e, h, |xs|))
  }

  /** `exponential(...)` as the source runs it. */
  method Exponential(neh: real, position: real, lbda: real, nlbda: real, points: int,
                     e: bool, h: bool, pdf: real -> real) returns (r: Result<seq<Carrier>>)
    ensures r == ExponentialOf(neh, position, lbda, nlbda, points, e, h, pdf)
  {
    var depth := Linspace(0.0, nlbda * Abs(lbda), points);
    if depth.Err? {
      return Err(depth.error);
    }
    var weights := Normalise(neh, Densities(pdf, depth.value));
    if weights.Err? {
      return Err(weights.error);
    }
    var grid := Linspace(position, position + nlbda * lbda, points);
    var charges := Collect(grid.value, weights.value, e, h);
    return Ok(charges);
  }

  /** The charge of an exponential ensemble adds up as for `normal`. */
  lemma ExponentialCharge(neh: real, position: real, lbda: real, nlbda: real, points: int,
                          e: bool, h: bool, pdf: real -> real)
    requires points >= 1 && forall x :: pdf(x) > 0.0
    ensures var r := ExponentialOf(neh, position, lbda, nlbda, points, e, h, pdf);
      r.Ok? && |r.value| == (if e then points else 0) + (if h then points else 0) &&
      TotalCharge(r.value) == NetCharge(neh, e, h)
  {
    var depth := Linspace(0.0, nlbda * Abs(lbda), points).value;
    var xs := Linspace(position, position + nlbda * lbda, points).value;
    EnsembleCharge(neh, xs, depth, e, h, pdf);
  }

  /** The carriers sit at `position` moved by the sampled depth, toward
      larger x for a positive `lbda` and toward smaller x for a negative
      one. */
  lemma ExponentialPositions(position: real, lbda: real, nlbda: real, points: int)
    requires points >= 1
    ensures var depth := Linspace(0.0, nlbda * Abs(lbda), points).value;
      var xs := Linspace(position, position + nlbda * lbda, points).value;
      forall i :: 0 <= i < points ==> xs[i] == position + (if lbda < 0.0 then -depth[i] else depth[i])
  {
    var d := nlbda * lbda;
    if lbda < 0.0 {
      assert nlbda * Abs(lbda) == -d;
      LinspaceMirror(position, d, points);
    } else {
      assert nlbda * Abs(lbda) == d;
      LinspaceMirror(position, d, points);
    }
  }

  lemma Quotient(a: real, m: real, t: real)
    requires m != 0.0 && a == t * m
    ensures a / m == t
  {
  }

  /** `linspace(p, p + d, n)` is `p` plus `linspace(0, d, n)`, and
      `linspace(0, -d, n)` is its mirror image. */
  lemma LinspaceMirror(p: real, d: real, n: int)
    requires n >= 1
    ensures var xs, ys, zs := Linspace(p, p + d, n).value, Linspace(0.0, d, n).value, Linspace(0.0, -d, n).value;
      forall i :: 0 <= i < n ==> xs[i] == p + ys[i] && zs[i] == -ys[i]
  {
    var xs, ys, zs := Linspace(p, p + d, n).value, Linspace(0.0, d, n).value, Linspace(0.0, -d, n).value;
    if n >= 2 {
      var m := (n - 1) as real;
      var step := d / m;
      ScaleBack(d, m);
      assert step * m == d;
      assert (p + d) - p == step * m;
      Quotient((p + d) - p, m, step);
      assert -d - 0.0 == (-step) * m;
      Quotient(-d - 0.0, m, -step);
      forall i | 0 <= i < n ensures xs[i] == p + ys[i] && zs[i] == -ys[i] {
        assert xs[i] == p + i as real * step;
        assert ys[i] == 0.0 + i as real * step;
        assert zs[i] == 0.0 + i as real * -step;
      }
    }
  }

  /** The points of `linspace(a, b, n)` in closed form. */
  lemma LinspaceAt(a: real, b: real, n: int)
    requires n >= 1
    ensures var r := Linspace(a, b, n).value;
      (n == 1 ==> r[0] == a) &&
      (n >= 2 ==> forall i :: 0 <= i < n ==> r[i] == a + (i as real / (n - 1) as real) * (b - a))
  {
  }
}
