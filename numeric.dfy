/** The numpy and Python numeric primitives the modelled code calls, over
    exact reals: sums and means, `linspace`, `arange`, `int()` truncation,
    `rint`, `min`/`max`, `interp`, and the trapezoid rule. */
module Numeric {
  import opened Wrappers

  function Abs(x: real): (r: real)
    ensures r >= 0.0 && (r == x || r == -x)
  {
    if x < 0.0 then -x else x
  }

  /** `sum(s)`, accumulated from the front as Python does. */
  function Sum(s: seq<real>): real {
    if s == [] then 0.0 else Sum(s[..|s| - 1]) + s[|s| - 1]
  }

  lemma {:induction false} SumAppend(s: seq<real>, t: seq<real>)
    ensures Sum(s + t) == Sum(s) + Sum(t)
    decreases |t|
  {
    if t != [] {
      var u := s + t;
      assert u != [];
      assert u[..|u| - 1] == s + t[..|t| - 1];
      assert u[|u| - 1] == t[|t| - 1];
      SumAppend(s, t[..|t| - 1]);
      assert Sum(u) == Sum(u[..|u| - 1]) + u[|u| - 1];
    } else {
      assert s + t == s;
    }
  }

  /** The sum of `c * s[i]` is `c` times the sum. */
  lemma {:induction false} SumScale(s: seq<real>, c: real, t: seq<real>)
    requires |t| == |s| && forall i :: 0 <= i < |s| ==> t[i] == c * s[i]
    ensures Sum(t) == c * Sum(s)
    decreases |s|
  {
    if s != [] {
      SumScale(s[..|s| - 1], c, t[..|t| - 1]);
    }
  }

  /** `np.mean`: the mean of no samples is NaN. */
  function Mean(s: seq<real>): (r: Result<real>)
    ensures r.Ok? <==> |s| > 0
    ensures r.Ok? ==> r.value * |s| as real == Sum(s)
  {
    if s == [] then Err(NotANumber) else Ok(Sum(s) / |s| as real)
  }

  function Floor(x: real): (r: int)
    ensures r as real <= x < r as real + 1.0
  {
    x.Floor
  }

  function Ceil(x: real): (r: int)
    ensures r as real - 1.0 < x <= r as real
  {
    -((-x).Floor)
  }

  /** Python `int(x)` on a float: truncation toward zero. */
  function Trunc(x: real): (r: int)
    ensures x >= 0.0 ==> r as real <= x < r as real + 1.0
    ensures x < 0.0 ==> r as real - 1.0 < x <= r as real
  {
    if x >= 0.0 then Floor(x) else Ceil(x)
  }

  /** `np.rint`: the nearest integer, ties going to the even one. */
  function RoundHalfEven(x: real): (r: int)
    ensures Abs(r as real - x) <= 0.5
    ensures Abs(r as real - x) == 0.5 ==> r % 2 == 0
  {
    var f := Floor(x);
    var d := x - f as real;
    if d < 0.5 then f else if d > 0.5 then f + 1 else if f % 2 == 0 then f else f + 1
  }

  /** `np.linspace(a, b, n)` with the end point included. */
  function Linspace(a: real, b: real, n: int): (r: Result<seq<real>>)
    ensures r.Ok? <==> n >= 0
    ensures r.Ok? ==> |r.value| == n
    ensures r.Ok? && n >= 1 ==> r.value[0] == a
    ensures r.Ok? && n >= 2 ==> r.value[n - 1] == b
    ensures r.Ok? && n >= 2 ==> forall i :: 0 <= i < n - 1 ==> r.value[i + 1] - r.value[i] == (b - a) / (n - 1) as real
  {
    if n < 0 then Err(ValueError)
    else if n == 1 then Ok([a])
    else
      var step := if n >= 2 then (b - a) / (n - 1) as real else 0.0;
      var ys := seq(n, i => a + i as real * step);
      assert n >= 2 ==> ys[n - 1] == b by {
        if n >= 2 {
          assert (n - 1) as real * step == b - a;
        }
      }
      Ok(ys)
  }

  /** Number of elements of `np.arange(a, b, s)` for a non-zero step. */
  function ArangeLength(a: real, b: real, s: real): (n: nat)
    requires s != 0.0
  {
    var c := Ceil((b - a) / s);
    if c < 0 then 0 else c
  }

  /** `np.arange(a, b, s)`: `a, a + s, ...` up to but excluding `b`. */
  function Arange(a: real, b: real, s: real): (r: Result<seq<real>>)
    ensures r.Ok? <==> s != 0.0
  {
    if s == 0.0 then Err(ZeroDivisionError)
    else Ok(seq(ArangeLength(a, b, s), i => a + i as real * s))
  }

  /** What `arange` promises for a positive step: the values start at `a`,
      go up by `s`, all stay below `b`, and one more step would reach `b`. */
  lemma ArangeSpec(a: real, b: real, s: real)
    requires s > 0.0
    ensures var r := Arange(a, b, s).value;
      (forall i :: 0 <= i < |r| ==> r[i] == a + i as real * s && r[i] < b) &&
      a + |r| as real * s >= b
  {
    var q := (b - a) / s;
    var c := Ceil(q);
    var r := Arange(a, b, s).value;
    assert q * s == b - a;
    forall i | 0 <= i < |r| ensures r[i] < b {
      assert (i as real) < q;
      assert i as real * s < q * s;
    }
    if c >= 0 {
      assert c as real >= q;
      assert c as real * s >= q * s;
    } else {
      assert q < 0.0;
    }
  }

  /** The same for a negative step: the values go down and stay above `b`. */
  lemma ArangeSpecNegative(a: real, b: real, s: real)
    requires s < 0.0
    ensures var r := Arange(a, b, s).value;
      (forall i :: 0 <= i < |r| ==> r[i] == a + i as real * s && r[i] > b) &&
      a + |r| as real * s <= b
  {
    var q := (b - a) / s;
    var c := Ceil(q);
    var r := Arange(a, b, s).value;
    assert q * s == b - a;
    forall i | 0 <= i < |r| ensures r[i] > b {
      assert (i as real) < q;
      assert i as real * s > q * s;
    }
    if c >= 0 {
      assert c as real >= q;
      assert c as real * s <= q * s;
    } else {
      assert q < 0.0;
    }
  }

  function Max(s: seq<real>): (m: real)
    requires |s| > 0
    ensures (exists i :: 0 <= i < |s| && s[i] == m) && forall i :: 0 <= i < |s| ==> s[i] <= m
  {
    if |s| == 1 then s[0]
    else
      var m := Max(s[1..]);
      assert forall i :: 1 <= i < |s| ==> s[i] == s[1..][i - 1];
      if s[0] >= m then s[0] else m
  }

  function Min(s: seq<real>): (m: real)
    requires |s| > 0
    ensures (exists i :: 0 <= i < |s| && s[i] == m) && forall i :: 0 <= i < |s| ==> m <= s[i]
  {
    if |s| == 1 then s[0]
    else
      var m := Min(s[1..]);
      assert forall i :: 1 <= i < |s| ==> s[i] == s[1..][i - 1];
      if s[0] <= m then s[0] else m
  }

  predicate StrictlyIncreasing(s: seq<real>) {
    forall i, j :: 0 <= i < j < |s| ==> s[i] < s[j]
  }

  /** A sequence whose neighbours increase increases throughout. */
  lemma {:induction false} StepsIncreasing(s: seq<real>)
    requires forall i :: 0 <= i < |s| - 1 ==> s[i] < s[i + 1]
    ensures StrictlyIncreasing(s)
    decreases |s|
  {
    if |s| >= 2 {
      var t := s[1..];
      assert forall i :: 0 <= i < |t| - 1 ==> t[i] < t[i + 1] by {
        forall i | 0 <= i < |t| - 1 ensures t[i] < t[i + 1] {
          assert t[i] == s[i + 1] && t[i + 1] == s[i + 2];
        }
      }
      StepsIncreasing(t);
      forall i, j | 0 <= i < j < |s| ensures s[i] < s[j] {
        if i == 0 {
          assert s[0] < s[1];
          if j > 1 {
            assert t[0] < t[j - 1];
          }
        } else {
          assert t[i - 1] < t[j - 1];
        }
      }
    }
  }

  /** The straight line through `(x0, y0)` and `(x1, y1)`, evaluated at `x`. */
  function Line(x: real, x0: real, x1: real, y0: real, y1: real): real
    requires x0 < x1
  {
    y0 + (x - x0) / (x1 - x0) * (y1 - y0)
  }

  /** Between its end points a rising line stays between its end values. */
  lemma LineBetween(x: real, x0: real, x1: real, y0: real, y1: real)
    requires x0 <= x < x1 && y0 < y1
    ensures y0 <= Line(x, x0, x1, y0, y1) < y1
  {
    UnitFraction(x - x0, x1 - x0);
    ScaleBelow((x - x0) / (x1 - x0), y1 - y0);
  }

  /** The line through the swapped points is the inverse map. */
  lemma LineInverse(x: real, x0: real, x1: real, y0: real, y1: real)
    requires x0 < x1 && y0 < y1
    ensures Line(Line(x, x0, x1, y0, y1), y0, y1, x0, x1) == x
  {
    var t := (x - x0) / (x1 - x0);
    var y := Line(x, x0, x1, y0, y1);
    assert y - y0 == t * (y1 - y0);
    ScaleBack(t, y1 - y0);
    assert (y - y0) / (y1 - y0) == t;
    ScaleBack(x - x0, x1 - x0);
    assert t * (x1 - x0) == x - x0;
    var u := (y - y0) / (y1 - y0);
    assert Line(y, y0, y1, x0, x1) == x0 + u * (x1 - x0);
    assert u == t;
    assert u * (x1 - x0) == x - x0;
  }

  /** `np.interp(x, xs, ys)`: linear between table points, clamped to the
      first and last `ys` outside the table. */
  function Interp(x: real, xs: seq<real>, ys: seq<real>): (r: real)
    requires |xs| == |ys| >= 1 && StrictlyIncreasing(xs)
    ensures StrictlyIncreasing(ys) ==> ys[0] <= r <= ys[|ys| - 1]
    ensures x <= xs[0] ==> r == ys[0]
    ensures x >= xs[|xs| - 1] ==> r == ys[|ys| - 1]
    decreases |xs|
  {
    if |xs| == 1 || x <= xs[0] then ys[0]
    else if x < xs[1] then
      assert StrictlyIncreasing(ys) ==> ys[0] <= Line(x, xs[0], xs[1], ys[0], ys[1]) <= ys[1] by {
        if StrictlyIncreasing(ys) {
          LineBetween(x, xs[0], xs[1], ys[0], ys[1]);
        }
      }
      Line(x, xs[0], xs[1], ys[0], ys[1])
    else
      Interp(x, xs[1..], ys[1..])
  }

  /** On a segment `[xs[i], xs[i+1])` the interpolant is that segment's line. */
  lemma {:induction false} InterpOnSegment(x: real, xs: seq<real>, ys: seq<real>, i: nat)
    requires |xs| == |ys| >= 1 && StrictlyIncreasing(xs)
    requires i + 1 < |xs| && xs[i] <= x < xs[i + 1]
    ensures Interp(x, xs, ys) == Line(x, xs[i], xs[i + 1], ys[i], ys[i + 1])
    decreases i
  {
    if i > 0 {
      assert xs[1] <= xs[i];
      assert Interp(x, xs, ys) == Interp(x, xs[1..], ys[1..]);
      assert xs[1..][i - 1] == xs[i] && xs[1..][i] == xs[i + 1];
      assert ys[1..][i - 1] == ys[i] && ys[1..][i] == ys[i + 1];
      InterpOnSegment(x, xs[1..], ys[1..], i - 1);
    } else if x == xs[0] {
      assert (x - xs[0]) / (xs[1] - xs[0]) == 0.0;
      assert Line(x, xs[0], xs[1], ys[0], ys[1]) == ys[0];
    }
  }

  /** Interpolating back through the swapped table undoes the interpolation:
      for two strictly increasing columns the two maps are inverse on the
      table's range. */
  lemma InterpInverse(x: real, xs: seq<real>, ys: seq<real>)
    requires |xs| == |ys| >= 1 && StrictlyIncreasing(xs) && StrictlyIncreasing(ys)
    requires xs[0] <= x <= xs[|xs| - 1]
    ensures Interp(Interp(x, xs, ys), ys, xs) == x
  {
    var n := |xs|;
    if x == xs[n - 1] {
      assert Interp(x, xs, ys) == ys[n - 1];
    } else {
      var i := SegmentOf(x, xs);
      InterpOnSegment(x, xs, ys, i);
      var y := Interp(x, xs, ys);
      LineBetween(x, xs[i], xs[i + 1], ys[i], ys[i + 1]);
      InterpOnSegment(y, ys, xs, i);
      LineInverse(x, xs[i], xs[i + 1], ys[i], ys[i + 1]);
    }
  }

  /** A part of a positive whole is a fraction in `[0, 1)`. */
  lemma UnitFraction(p: real, w: real)
    requires 0.0 <= p < w
    ensures 0.0 <= p / w < 1.0
  {
    assert (p / w) * w == p;
  }

  /** A fraction in `[0, 1)` of a positive length is shorter than it. */
  lemma ScaleBelow(t: real, d: real)
    requires 0.0 <= t < 1.0 && d > 0.0
    ensures 0.0 <= t * d < d
  {
    assert (1.0 - t) * d > 0.0;
  }

  /** Multiplying and then dividing by the same non-zero number cancels. */
  lemma ScaleBack(t: real, d: real)
    requires d != 0.0
    ensures (t * d) / d == t && (t / d) * d == t
  {
  }

  /** The segment `[xs[i], xs[i+1])` that holds `x`. */
  lemma SegmentOf(x: real, xs: seq<real>) returns (i: nat)
    requires |xs| >= 2 && StrictlyIncreasing(xs)
    requires xs[0] <= x < xs[|xs| - 1]
    ensures i + 1 < |xs| && xs[i] <= x < xs[i + 1]
  {
    i := 0;
    while xs[i + 1] <= x
      invariant i + 1 < |xs| && xs[i] <= x
      decreases |xs| - i
    {
      i := i + 1;
    }
  }

  /** `np.trapz(y, t)`: the trapezoid rule over consecutive samples. */
  function Trapz(y: seq<real>, t: seq<real>): real
    requires |y| == |t|
    decreases |y|
  {
    if |y| < 2 then 0.0
    else Trapz(y[..|y| - 1], t[..|t| - 1]) + (t[|t| - 1] - t[|t| - 2]) * (y[|y| - 1] + y[|y| - 2]) / 2.0
  }

  /** On a constant signal the trapezoid rule gives value times duration. */
  lemma {:induction false} TrapzConstant(y: seq<real>, t: seq<real>, c: real)
    requires |y| == |t| >= 1 && forall i :: 0 <= i < |y| ==> y[i] == c
    ensures Trapz(y, t) == c * (t[|t| - 1] - t[0])
    decreases |y|
  {
    if |y| >= 2 {
      TrapzConstant(y[..|y| - 1], t[..|t| - 1], c);
    }
  }
}
