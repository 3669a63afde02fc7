/** The values a YAML configuration, a record or a measurement state can hold,
    with the parts of Python's data model the modelled code relies on:
    insertion-ordered dictionaries, `dict.get`, item assignment, and `==`. */
module Values {
  import opened Wrappers

  /** A Python value as loaded from YAML. Integers and floats are both
      numbers; a dictionary keeps its entries in insertion order. */
  datatype Value =
    | Null
    | Bool(b: bool)
    | Num(r: real)
    | Str(s: string)
    | List(items: seq<Value>)
    | Dict(entries: seq<(string, Value)>)

  /** The entries of a Python dictionary, in insertion order. */
  type Entries = seq<(string, Value)>

  /** A dictionary never holds the same key twice. */
  predicate UniqueKeys(d: Entries) {
    forall i, j :: 0 <= i < j < |d| ==> d[i].0 != d[j].0
  }

  /** `list(d.keys())`. */
  function Keys(d: Entries): (r: seq<string>)
    ensures |r| == |d| && forall i :: 0 <= i < |d| ==> r[i] == d[i].0
  {
    if d == [] then [] else [d[0].0] + Keys(d[1..])
  }

  /** Position of key `k` in `d`, or `|d|` when it is absent. */
  function Find(d: Entries, k: string): (i: nat)
    ensures i <= |d|
    ensures i < |d| ==> d[i].0 == k
    ensures forall j :: 0 <= j < i ==> d[j].0 != k
  {
    if d == [] then 0 else if d[0].0 == k then 0 else 1 + Find(d[1..], k)
  }

  /** `k in d`. */
  predicate HasKey(d: Entries, k: string) {
    Find(d, k) < |d|
  }

  lemma HasKeyIff(d: Entries, k: string)
    ensures HasKey(d, k) <==> k in Keys(d)
  {
    if k in Keys(d) {
      var j :| 0 <= j < |d| && Keys(d)[j] == k;
      assert Find(d, k) <= j;
    }
  }

  /** `d.get(k)`: the value stored under `k`, or `None`. */
  function Get(d: Entries, k: string): (r: Option<Value>)
    ensures r.Some? <==> HasKey(d, k)
  {
    var i := Find(d, k);
    if i < |d| then Some(d[i].1) else None
  }

  /** `d[k] = v`: an existing key keeps its place, a new one goes last. */
  function SetKey(d: Entries, k: string, v: Value): (r: Entries)
  {
    var i := Find(d, k);
    if i < |d| then d[i := (k, v)] else d + [(k, v)]
  }

  /** What item assignment promises: the key now maps to `v`, every other
      key keeps its value, no key is lost, and keys stay unique. */
  lemma SetKeySpec(d: Entries, k: string, v: Value)
    ensures Get(SetKey(d, k, v), k) == Some(v)
    ensures forall k' :: k' != k ==> Get(SetKey(d, k, v), k') == Get(d, k')
    ensures HasKey(d, k) ==> Keys(SetKey(d, k, v)) == Keys(d)
    ensures !HasKey(d, k) ==> Keys(SetKey(d, k, v)) == Keys(d) + [k]
    ensures UniqueKeys(d) ==> UniqueKeys(SetKey(d, k, v))
  {
    SetKeyGet(d, k, v);
    SetKeyKeys(d, k, v);
  }

  /** Item assignment as seen through lookups. */
  lemma SetKeyGet(d: Entries, k: string, v: Value)
    ensures Get(SetKey(d, k, v), k) == Some(v)
    ensures forall k' :: k' != k ==> Get(SetKey(d, k, v), k') == Get(d, k')
  {
    var r := SetKey(d, k, v);
    var i := Find(d, k);
    if i < |d| {
      forall k' ensures Find(r, k') == Find(d, k') {
        FindIsFirst(r, k', Find(d, k'));
      }
    } else {
      FindIsFirst(r, k, i);
      forall k' | k' != k ensures Get(r, k') == Get(d, k') {
        var j := Find(d, k');
        FindIsFirst(r, k', if j < |d| then j else |r|);
      }
    }
  }

  /** Item assignment as seen through the key order. */
  lemma SetKeyKeys(d: Entries, k: string, v: Value)
    ensures HasKey(d, k) ==> Keys(SetKey(d, k, v)) == Keys(d)
    ensures !HasKey(d, k) ==> Keys(SetKey(d, k, v)) == Keys(d) + [k]
    ensures UniqueKeys(d) ==> UniqueKeys(SetKey(d, k, v))
  {
    SetKeyGet(d, k, v);
  }

  lemma FindIsFirst(d: Entries, k: string, j: nat)
    requires j <= |d|
    requires j < |d| ==> d[j].0 == k
    requires j == |d| ==> forall m :: 0 <= m < |d| ==> d[m].0 != k
    requires forall m :: 0 <= m < j ==> d[m].0 != k
    ensures Find(d, k) == j
  {
  }

  /** Python's `==` on values: `True == 1`, lists compare element-wise and
      dictionaries compare by key, regardless of insertion order. */
  predicate PyEq(a: Value, b: Value)
    decreases a
  {
    match a
    case Null => b.Null?
    case Bool(x) => (b.Bool? && b.b == x) || (b.Num? && b.r == (if x then 1.0 else 0.0))
    case Num(x) => (b.Num? && b.r == x) || (b.Bool? && x == (if b.b then 1.0 else 0.0))
    case Str(s) => b.Str? && b.s == s
    case List(xs) =>
      b.List? && |xs| == |b.items| && forall i :: 0 <= i < |xs| ==> PyEq(xs[i], b.items[i])
    case Dict(xs) =>
      b.Dict? &&
      (forall j :: 0 <= j < |b.entries| ==> HasKey(xs, b.entries[j].0)) &&
      (forall i :: 0 <= i < |xs| ==>
         HasKey(b.entries, xs[i].0) && PyEq(xs[i].1, GetOrNull(b.entries, xs[i].0)))
  }

  /** Every dictionary inside the value has unique keys, as Python's do. */
  predicate WellFormed(v: Value)
    decreases v
  {
    match v
    case List(xs) => forall i :: 0 <= i < |xs| ==> WellFormed(xs[i])
    case Dict(xs) => UniqueKeys(xs) && forall i :: 0 <= i < |xs| ==> WellFormed(xs[i].1)
    case _ => true
  }

  /** Every well-formed value equals itself. */
  lemma {:induction false} PyEqRefl(a: Value)
    requires WellFormed(a)
    ensures PyEq(a, a)
    decreases a
  {
    match a
    case List(xs) =>
      forall i | 0 <= i < |xs| ensures PyEq(xs[i], xs[i]) { PyEqRefl(xs[i]); }
    case Dict(xs) =>
      forall i | 0 <= i < |xs|
        ensures HasKey(xs, xs[i].0) && PyEq(xs[i].1, GetOrNull(xs, xs[i].0))
      {
        FindIsFirst(xs, xs[i].0, i);
        PyEqRefl(xs[i].1);
      }
      forall j | 0 <= j < |xs| ensures HasKey(xs, xs[j].0) {
        FindIsFirst(xs, xs[j].0, j);
      }
    case _ =>
  }

  /** `d.get(k)` with a missing key read as `None`, as it enters a comparison. */
  function GetOrNull(d: Entries, k: string): (r: Value)
    ensures HasKey(d, k) ==> Some(r) == Get(d, k)
    ensures !HasKey(d, k) ==> r == Null
  {
    match Get(d, k)
    case Some(v) => v
    case None => Null
  }

  /** `d[k]`: the value stored under `k`, or `KeyError`. */
  function Item(d: Entries, key: string): (r: Result<Value>)
    ensures r.Ok? <==> HasKey(d, key)
    ensures r.Ok? ==> Get(d, key) == Some(r.value)
    ensures r.Err? ==> r.error == KeyError
  {
    match Get(d, key)
    case Some(v) => Ok(v)
    case None => Err(KeyError)
  }

  /** `d.update(e)`: each entry of `e` in turn, as an item assignment. */
  function Update(d: Entries, e: Entries): Entries
    decreases |e|
  {
    if e == [] then d else SetKey(Update(d, e[..|e| - 1]), e[|e| - 1].0, e[|e| - 1].1)
  }

  /** Looking up a key after appending one entry. */
  lemma GetAppend(d: Entries, k: string, v: Value, key: string)
    ensures Get(d + [(k, v)], key) ==
      if HasKey(d, key) then Get(d, key) else if key == k then Some(v) else None
  {
    var j := Find(d, key);
    if j < |d| {
      FindIsFirst(d + [(k, v)], key, j);
    } else if key == k {
      FindIsFirst(d + [(k, v)], key, |d|);
    } else {
      FindIsFirst(d + [(k, v)], key, |d| + 1);
    }
  }

  /** After `d.update(e)` a key holds its value in `e` when `e` has it and
      its value in `d` otherwise. */
  lemma {:induction false} UpdateGet(d: Entries, e: Entries, key: string)
    requires UniqueKeys(e)
    ensures Get(Update(d, e), key) == if HasKey(e, key) then Get(e, key) else Get(d, key)
    decreases |e|
  {
    if e != [] {
      var e', last := e[..|e| - 1], e[|e| - 1];
      assert e == e' + [last];
      UpdateGet(d, e', key);
      SetKeyGet(Update(d, e'), last.0, last.1);
      GetAppend(e', last.0, last.1, key);
      if key == last.0 {
        assert e[|e| - 1].0 == key;
        assert !HasKey(e', key) by {
          FindIsFirst(e', key, |e'|);
        }
      }
    }
  }

  /** `d.update(e)` keeps the keys of `d` where they were. */
  lemma {:induction false} UpdateKeepsOrder(d: Entries, e: Entries)
    ensures |Update(d, e)| >= |d|
    ensures forall i :: 0 <= i < |d| ==> Update(d, e)[i].0 == d[i].0
    decreases |e|
  {
    if e != [] {
      UpdateKeepsOrder(d, e[..|e| - 1]);
    }
  }

  /** A value that is not a list stands for a one-element list, as scan
      definitions and analysis groups are read. */
  function AsList(v: Value): (r: seq<Value>)
    ensures v.List? ==> r == v.items
    ensures !v.List? ==> r == [v]
  {
    if v.List? then v.items else [v]
  }

  /** `acc` extended by the keys of `ks` it does not hold yet, in order:
      `dict.fromkeys` and `dict.update` used as an ordered set. */
  function AddNew(acc: seq<string>, ks: seq<string>): (r: seq<string>)
    ensures |acc| <= |r| && r[..|acc|] == acc
    ensures forall k :: k in r <==> k in acc || k in ks
    decreases |ks|
  {
    if ks == [] then acc
    else
      var m := |ks| - 1;
      var before := AddNew(acc, ks[..m]);
      assert forall k :: k in ks <==> k in ks[..m] || k == ks[m];
      if ks[m] in before then before else before + [ks[m]]
  }
}
