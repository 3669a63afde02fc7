/** A measurement scan: an ordered list of parameters, each with its list of
    values and a flag saying whether it is changed by hand, and an iterator
    that walks the cartesian product of the value lists like an odometer
    (the last parameter added turns fastest). */
module Scan {
  import opened Wrappers
  import opened Values

  /** One step of a scan: the parameter whose change produced it (`None` for
      the first entry), the value of every parameter, and whether the step
      needs a manual change. */
  datatype Entry = Entry(changed: Option<string>, state: Entries, manual: bool)

  // ---------------------------------------------------------------------
  // Index vectors: position k holds the index into parameter k's values.
  // ---------------------------------------------------------------------

  /** Product of the value-list lengths. */
  function Product(lens: seq<nat>): nat {
    if lens == [] then 1 else Product(lens[..|lens| - 1]) * lens[|lens| - 1]
  }

  predicate InRange(idx: seq<nat>, lens: seq<nat>) {
    |idx| == |lens| && forall k :: 0 <= k < |idx| ==> idx[k] < lens[k]
  }

  /** The number of entries before the one at `idx`, reading the index
      vector as a mixed-radix numeral whose last digit is least significant. */
  function Rank(idx: seq<nat>, lens: seq<nat>): nat
    requires |idx| == |lens|
  {
    if idx == [] then 0
    else Rank(idx[..|idx| - 1], lens[..|lens| - 1]) * lens[|lens| - 1] + idx[|idx| - 1]
  }

  /** The odometer advance of `Iterator.__next__`. Scanning from the last
      position to the first, indices at their last value are reset to 0 and
      the first one that can grow is incremented; its position is returned.
      When none can grow, every index is reset and no position is returned. */
  function Step(idx: seq<nat>, lens: seq<nat>): (r: (seq<nat>, Option<nat>))
    requires |idx| == |lens|
    ensures |r.0| == |idx|
    ensures r.1.Some? ==>
      var j := r.1.value;
      j < |idx| && idx[j] + 1 < lens[j] && r.0[j] == idx[j] + 1 &&
      (forall k :: 0 <= k < j ==> r.0[k] == idx[k]) &&
      (forall k :: j < k < |idx| ==> idx[k] + 1 >= lens[k] && r.0[k] == 0)
    ensures r.1.None? ==> forall k :: 0 <= k < |idx| ==> idx[k] + 1 >= lens[k] && r.0[k] == 0
    decreases |idx|
  {
    if idx == [] then ([], None)
    else
      var n := |idx| - 1;
      if idx[n] + 1 < lens[n] then (idx[..n] + [idx[n] + 1], Some(n))
      else
        var (p, c) := Step(idx[..n], lens[..n]);
        (p + [0], c)
  }

  lemma MulMono(a: int, b: int, c: int)
    requires a <= b && c >= 0
    ensures a * c <= b * c
  {
  }

  /** Every in-range index vector has a rank below the number of entries. */
  lemma {:induction false} RankBound(idx: seq<nat>, lens: seq<nat>)
    requires InRange(idx, lens)
    ensures Rank(idx, lens) < Product(lens)
    decreases |idx|
  {
    if idx != [] {
      var n := |idx| - 1;
      var r', p' := Rank(idx[..n], lens[..n]), Product(lens[..n]);
      RankBound(idx[..n], lens[..n]);
      MulMono(r', p' - 1, lens[n]);
      assert (p' - 1) * lens[n] == p' * lens[n] - lens[n];
    }
  }

  lemma RankZeros(idx: seq<nat>, lens: seq<nat>)
    requires |idx| == |lens| && forall k :: 0 <= k < |idx| ==> idx[k] == 0
    ensures Rank(idx, lens) == 0
    decreases |idx|
  {
    if idx != [] {
      RankZeros(idx[..|idx| - 1], lens[..|lens| - 1]);
    }
  }

  /** One advance moves to the next rank; only the last entry has no
      successor, and from it the odometer wraps to all zeros. */
  lemma {:induction false} StepRank(idx: seq<nat>, lens: seq<nat>)
    requires InRange(idx, lens)
    ensures InRange(Step(idx, lens).0, lens)
    ensures Step(idx, lens).1.Some? ==> Rank(Step(idx, lens).0, lens) == Rank(idx, lens) + 1
    ensures Step(idx, lens).1.None? ==> Rank(idx, lens) + 1 == Product(lens)
    decreases |idx|
  {
    if idx != [] {
      var n := |idx| - 1;
      if idx[n] + 1 < lens[n] {
        StepRankIncrement(idx, lens);
      } else {
        StepRank(idx[..n], lens[..n]);
        StepRankCarry(idx, lens);
      }
    }
  }

  /** The last index can grow: it alone is incremented. */
  lemma StepRankIncrement(idx: seq<nat>, lens: seq<nat>)
    requires InRange(idx, lens) && idx != []
    requires idx[|idx| - 1] + 1 < lens[|lens| - 1]
    ensures InRange(Step(idx, lens).0, lens)
    ensures Step(idx, lens).1.Some? && Rank(Step(idx, lens).0, lens) == Rank(idx, lens) + 1
  {
    var n := |idx| - 1;
    var s := idx[..n] + [idx[n] + 1];
    assert Step(idx, lens).0 == s;
    assert s[..n] == idx[..n];
  }

  /** The last index is at its end: it is reset and the carry goes left. */
  lemma StepRankCarry(idx: seq<nat>, lens: seq<nat>)
    requires InRange(idx, lens) && idx != []
    requires idx[|idx| - 1] + 1 >= lens[|lens| - 1]
    requires var n := |idx| - 1; var st := Step(idx[..n], lens[..n]);
      InRange(st.0, lens[..n]) &&
      (st.1.Some? ==> Rank(st.0, lens[..n]) == Rank(idx[..n], lens[..n]) + 1) &&
      (st.1.None? ==> Rank(idx[..n], lens[..n]) + 1 == Product(lens[..n]))
    ensures InRange(Step(idx, lens).0, lens)
    ensures Step(idx, lens).1.Some? ==> Rank(Step(idx, lens).0, lens) == Rank(idx, lens) + 1
    ensures Step(idx, lens).1.None? ==> Rank(idx, lens) + 1 == Product(lens)
  {
    var n := |idx| - 1;
    var st := Step(idx[..n], lens[..n]);
    var s := st.0 + [0];
    assert Step(idx, lens) == (s, st.1);
    assert s[..n] == st.0;
    var r := Rank(idx[..n], lens[..n]);
    assert idx[n] == lens[n] - 1;
    assert Rank(idx, lens) == r * lens[n] + idx[n];
    assert Rank(s, lens) == Rank(st.0, lens[..n]) * lens[n];
    assert Product(lens) == Product(lens[..n]) * lens[n];
    if st.1.Some? {
      CarryArith(r, Rank(st.0, lens[..n]), lens[n]);
    } else {
      CarryArith(r, Product(lens[..n]), lens[n]);
    }
  }

  /** A carry into the left part adds one whole block of the last digit. */
  lemma CarryArith(r: nat, q: nat, m: nat)
    requires q == r + 1
    ensures q * m == r * m + (m - 1) + 1
  {
  }

  /** Dividing with remainder has one answer. */
  lemma DivUnique(x: nat, r: nat, y: nat, s: nat, m: nat)
    requires r < m && s < m && x * m + r == y * m + s
    ensures x == y && r == s
  {
    if x < y {
      MulMono(x + 1, y, m);
    } else if y < x {
      MulMono(y + 1, x, m);
    }
  }

  /** Distinct in-range index vectors have distinct ranks, so no entry is
      produced twice, and the entry produced as number `Rank(v)` is `v`. */
  lemma {:induction false} RankInjective(a: seq<nat>, b: seq<nat>, lens: seq<nat>)
    requires InRange(a, lens) && InRange(b, lens)
    requires Rank(a, lens) == Rank(b, lens)
    ensures a == b
    decreases |a|
  {
    if a != [] {
      var n := |a| - 1;
      DivUnique(Rank(a[..n], lens[..n]), a[n], Rank(b[..n], lens[..n]), b[n], lens[n]);
      RankInjective(a[..n], b[..n], lens[..n]);
      assert a == a[..n] + [a[n]] && b == b[..n] + [b[n]];
    }
  }

  /** Rank order is lexicographic order: the entries appear in lexicographic
      order of their index vectors. */
  lemma {:induction false} RankLex(a: seq<nat>, b: seq<nat>, lens: seq<nat>, j: nat)
    requires InRange(a, lens) && InRange(b, lens)
    requires j < |a| && a[..j] == b[..j] && a[j] < b[j]
    ensures Rank(a, lens) < Rank(b, lens)
    decreases |a|
  {
    var n := |a| - 1;
    var ra, rb := Rank(a[..n], lens[..n]), Rank(b[..n], lens[..n]);
    assert Rank(a, lens) == ra * lens[n] + a[n];
    assert Rank(b, lens) == rb * lens[n] + b[n];
    if j == n {
      assert a[..n] == b[..n];
    } else {
      assert a[..n][..j] == a[..j] && b[..n][..j] == b[..j];
      RankLex(a[..n], b[..n], lens[..n], j);
      DigitStep(ra, rb, a[n], b[n], lens[n]);
    }
  }

  /** A smaller leading part outweighs any last digit. */
  lemma DigitStep(ra: nat, rb: nat, x: nat, y: nat, m: nat)
    requires ra < rb && x < m
    ensures ra * m + x < rb * m + y
  {
    MulMono(ra + 1, rb, m);
    assert (ra + 1) * m == ra * m + m;
  }

  // ---------------------------------------------------------------------
  // The scan and its iterator.
  // ---------------------------------------------------------------------

  /** `len(values[p])` for every parameter, in order. */
  function Lengths(ps: seq<string>, vals: map<string, seq<Value>>): (lens: seq<nat>)
    requires forall p :: p in ps ==> p in vals
    ensures |lens| == |ps|
  {
    seq(|ps|, k requires 0 <= k < |ps| => |vals[ps[k]]|)
  }

  /** The number of entries `count()` reports. */
  function CountOf(ps: seq<string>, vals: map<string, seq<Value>>): nat
    requires forall p :: p in ps ==> p in vals
  {
    if ps == [] then 0 else Product(Lengths(ps, vals))
  }

  /** The state of the entry at index vector `idx`: every parameter mapped
      to its value at that index, in parameter order. */
  function StateAt(ps: seq<string>, vals: map<string, seq<Value>>, idx: seq<nat>): (r: Entries)
    requires forall p :: p in ps ==> p in vals
    requires InRange(idx, Lengths(ps, vals))
    ensures |r| == |ps|
    ensures forall k :: 0 <= k < |ps| ==> r[k] == (ps[k], vals[ps[k]][idx[k]])
  {
    seq(|ps|, k requires 0 <= k < |ps| => (ps[k], vals[ps[k]][idx[k]]))
  }

  predicate Distinct(ps: seq<string>) {
    forall i, j :: 0 <= i < j < |ps| ==> ps[i] != ps[j]
  }

  class Scan {
    var parameters: seq<string>
    var values: map<string, seq<Value>>
    var manual: map<string, bool>

    ghost predicate Valid()
      reads this
    {
      Distinct(parameters) &&
      (forall p :: p in values <==> p in parameters) &&
      (forall p :: p in manual <==> p in parameters) &&
      (forall p :: p in values ==> |values[p]| >= 1)
    }

    constructor ()
      ensures Valid() && parameters == [] && values == map[] && manual == map[]
    {
      parameters, values, manual := [], map[], map[];
    }

    /** `count()`. */
    method Count() returns (total: nat)
      requires Valid()
      ensures total == CountOf(parameters, values)
    {
      if |parameters| == 0 {
        return 0;
      }
      total := 1;
      var i := 0;
      while i < |parameters|
        invariant 0 <= i <= |parameters|
        invariant total == Product(Lengths(parameters[..i], values))
      {
        assert Lengths(parameters[..i + 1], values)[..i] == Lengths(parameters[..i], values);
        total := total * |values[parameters[i]]|;
        i := i + 1;
      }
      assert parameters[..i] == parameters;
    }

    /** `addParameter(param, values, manual)`. */
    method AddParameter(param: string, vals: seq<Value>, isManual: bool) returns (r: Outcome)
      requires Valid()
      modifies this
      ensures Valid()
      ensures param in old(parameters) ==>
        r == Fail(Raised("Trying to add parameter [" + param + "] a second time to scan!"))
      ensures param !in old(parameters) && |vals| < 1 ==>
        r == Fail(Raised("No values specified for scan paramter [" + param + "]!"))
      ensures r.Fail? ==> parameters == old(parameters) && values == old(values) && manual == old(manual)
      ensures r.Pass? <==> param !in old(parameters) && |vals| >= 1
      ensures r.Pass? ==>
        parameters == old(parameters) + [param] &&
        values == old(values)[param := vals] &&
        manual == old(manual)[param := isManual]
    {
      if param in parameters {
        return Fail(Raised("Trying to add parameter [" + param + "] a second time to scan!"));
      }
      if |vals| < 1 {
        return Fail(Raised("No values specified for scan paramter [" + param + "]!"));
      }
      parameters := parameters + [param];
      values := values[param := vals];
      manual := manual[param := isManual];
      return Pass;
    }
  }

  /** A scan has entries exactly when it has a parameter. */
  lemma CountZeroIffEmpty(ps: seq<string>, vals: map<string, seq<Value>>)
    requires forall p :: p in ps ==> p in vals && |vals[p]| >= 1
    ensures CountOf(ps, vals) == 0 <==> ps == []
  {
    if ps != [] {
      ProductPositive(Lengths(ps, vals));
    }
  }

  lemma {:induction false} ProductPositive(lens: seq<nat>)
    requires forall k :: 0 <= k < |lens| ==> lens[k] >= 1
    ensures Product(lens) >= 1
    decreases |lens|
  {
    if lens != [] {
      ProductPositive(lens[..|lens| - 1]);
      MulMono(1, Product(lens[..|lens| - 1]), lens[|lens| - 1]);
    }
  }

  /** `any(manual.values())`. */
  predicate AnyManual(ps: seq<string>, manual: map<string, bool>)
    requires forall p :: p in ps ==> p in manual
  {
    exists k :: 0 <= k < |ps| && manual[ps[k]]
  }

  /** Whether an entry needs a manual change: the first entry does if any
      parameter is manual, a later one if the parameter that changed is. */
  function NeedsManual(ps: seq<string>, manual: map<string, bool>, changed: Option<string>): (r: bool)
    requires forall p :: p in ps ==> p in manual
    requires changed.Some? ==> changed.value in manual
    ensures changed.None? ==> (r <==> AnyManual(ps, manual))
    ensures changed.Some? ==> r == manual[changed.value]
  {
    match changed
    case None => exists k | 0 <= k < |ps| :: manual[ps[k]]
    case Some(p) => manual[p]
  }

  /** The iterator. Its index dictionary has the scan's parameters as keys,
      in parameter order, so it is held as the sequence `index` with
      `index[k]` the index of parameter `k`. */
  class Iterator {
    const scan: Scan
    var index: seq<nat>
    var valid: bool
    var lastChange: Option<string>
    /** How many entries have been produced so far. */
    ghost var emitted: nat

    ghost function Lens(): seq<nat>
      reads scan
      requires scan.Valid()
    {
      Lengths(scan.parameters, scan.values)
    }

    ghost predicate Valid()
      reads this, scan
    {
      scan.Valid() &&
      InRange(index, Lens()) &&
      (valid <==> emitted < CountOf(scan.parameters, scan.values)) &&
      (!valid ==> emitted == CountOf(scan.parameters, scan.values)) &&
      (valid ==> Rank(index, Lens()) == emitted) &&
      (emitted == 0 ==> lastChange.None?) &&
      (valid && emitted > 0 ==> lastChange.Some?) &&
      (lastChange.Some? ==> lastChange.value in scan.parameters)
    }

    /** `Scan.Iterator(scan)`: every index at 0, valid iff the scan has entries. */
    constructor (s: Scan)
      requires s.Valid()
      ensures Valid() && scan == s && emitted == 0 && lastChange.None?
      ensures valid == (CountOf(s.parameters, s.values) > 0)
      ensures index == seq(|s.parameters|, _ => 0)
    {
      var c := s.Count();
      scan := s;
      index := seq(|s.parameters|, _ => 0);
      valid := c > 0;
      lastChange := None;
      emitted := 0;
      new;
      RankZeros(index, Lens());
    }

    /** The second loop of `__next__`, with the bookkeeping of the entry
        count: the odometer moves on one place, `lastChange` names the
        parameter that grew, and the iterator is exhausted when none could. */
    method Advance()
      requires Valid() && valid
      modifies this`index, this`lastChange, this`valid, this`emitted
      ensures Valid()
      ensures var step := Step(old(index), Lens());
        index == step.0 &&
        valid == step.1.Some? &&
        lastChange == (if step.1.Some? then Some(scan.parameters[step.1.value]) else old(lastChange)) &&
        emitted == old(emitted) + 1
    {
      var ps := scan.parameters;
      NextRank(index, Lens(), emitted, CountOf(ps, scan.values));
      var lengths := Lengths(ps, scan.values);
      var after, grown := Increment(index, lengths);
      index := after;
      valid := grown.Some?;
      if grown.Some? {
        lastChange := Some(ps[grown.value]);
      }
      emitted := emitted + 1;
      assert InRange(index, Lens());
      assert valid ==> Rank(index, Lens()) == emitted;
    }

    /** `__next__`: `None` stands for `StopIteration`. */
    method Next() returns (e: Option<Entry>)
      requires Valid()
      modifies this`index, this`lastChange, this`valid, this`emitted
      ensures Valid()
      ensures !old(valid) ==> (e.None? && index == old(index) && valid == old(valid) &&
        lastChange == old(lastChange) && emitted == old(emitted))
      ensures old(valid) ==>
        var ps, step := scan.parameters, Step(old(index), Lens());
        e == Some(Entry(old(lastChange), StateAt(ps, scan.values, old(index)),
                        NeedsManual(ps, scan.manual, old(lastChange)))) &&
        index == step.0 &&
        valid == step.1.Some? &&
        lastChange == (if step.1.Some? then Some(ps[step.1.value]) else old(lastChange)) &&
        emitted == old(emitted) + 1
    {
      if !valid {
        return None;
      }
      var ps := scan.parameters;
      var result := CurrentState(ps, scan.values, index);
      var changed := lastChange;
      var isManual := NeedsManual(ps, scan.manual, changed);
      Advance();
      return Some(Entry(changed, result, isManual));
    }
  }

  /** The first loop of `__next__`: `{param: values[param][idx]}` for every
      parameter and its index, in parameter order. */
  method CurrentState(ps: seq<string>, vals: map<string, seq<Value>>, idx: seq<nat>) returns (result: Entries)
    requires forall p :: p in ps ==> p in vals
    requires InRange(idx, Lengths(ps, vals))
    ensures result == StateAt(ps, vals, idx)
  {
    assert forall k :: 0 <= k < |ps| ==> idx[k] < |vals[ps[k]]|;
    result := [];
    var i := 0;
    while i < |ps|
      invariant 0 <= i <= |ps|
      invariant |result| == i
      invariant forall k :: 0 <= k < i ==> result[k] == (ps[k], vals[ps[k]][idx[k]])
    {
      result := result + [(ps[i], vals[ps[i]][idx[i]])];
      i := i + 1;
    }
  }

  /** The reversed loop of `__next__` on the index vector alone: reset the
      indices at their last value, from the last position backwards, until
      one can grow; `changed` is the position that grew. */
  method Increment(idx: seq<nat>, lens: seq<nat>) returns (after: seq<nat>, changed: Option<nat>)
    requires InRange(idx, lens)
    ensures (after, changed) == Step(idx, lens)
  {
    after := idx;
    var j := |idx|;
    var grew := false;
    while j > 0 && !grew
      invariant 0 <= j <= |idx| && |after| == |idx|
      invariant grew ==> (j > 0 && idx[j - 1] + 1 < lens[j - 1] && after[j - 1] == idx[j - 1] + 1)
      invariant forall k :: 0 <= k < j && !(grew && k == j - 1) ==> after[k] == idx[k]
      invariant forall k :: j <= k < |idx| ==> idx[k] + 1 >= lens[k] && after[k] == 0
      decreases j, if grew then 0 else 1
    {
      if after[j - 1] + 1 < lens[j - 1] {
        after := after[j - 1 := after[j - 1] + 1];
        grew := true;
      } else {
        after := after[j - 1 := 0];
        j := j - 1;
      }
    }
    OdometerIsStep(idx, after, lens, j, grew);
    changed := if grew then Some(j - 1) else None;
  }

  /** What one advance does to the count of entries produced: from the
      entry of rank `emitted` the odometer moves to rank `emitted + 1`,
      unless that entry was the last one. */
  lemma NextRank(idx: seq<nat>, lens: seq<nat>, emitted: nat, count: nat)
    requires InRange(idx, lens) && Rank(idx, lens) == emitted
    requires emitted < count && count == Product(lens)
    ensures InRange(Step(idx, lens).0, lens)
    ensures Step(idx, lens).1.Some? ==> Rank(Step(idx, lens).0, lens) == emitted + 1 < count
    ensures Step(idx, lens).1.None? ==> emitted + 1 == count
  {
    StepRank(idx, lens);
    RankBound(Step(idx, lens).0, lens);
  }

  lemma OdometerIsStep(before: seq<nat>, after: seq<nat>, lens: seq<nat>, j: nat, grew: bool)
    requires InRange(before, lens) && |after| == |before| && j <= |before|
    requires grew ==> j > 0 && before[j - 1] + 1 < lens[j - 1] && after[j - 1] == before[j - 1] + 1
    requires !grew ==> j == 0
    requires forall k :: 0 <= k < j && !(grew && k == j - 1) ==> after[k] == before[k]
    requires forall k :: j <= k < |before| ==> before[k] + 1 >= lens[k] && after[k] == 0
    ensures Step(before, lens) == (after, if grew then Some(j - 1) else None)
  {
    var st := Step(before, lens);
    if st.1.Some? {
      var m := st.1.value;
      if grew {
        assert !(m > j - 1);
        assert !(m < j - 1);
      }
    }
    assert st.0 == after;
  }
}
