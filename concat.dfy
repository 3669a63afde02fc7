/** The recursive merge of configuration dictionaries used to unite several
    configuration files: keys that agree are kept once, nested dictionaries
    are merged, and anything else is kept side by side under
    `key-concat[i]` names. */
module Concat {
  import opened Wrappers
  import opened Values
  import opened Text

  // ---------------------------------------------------------------------
  // The key order: `dict.fromkeys` used as an ordered set.
  // ---------------------------------------------------------------------

  predicate NoDuplicates(s: seq<string>) {
    forall i, j :: 0 <= i < j < |s| ==> s[i] != s[j]
  }

  lemma {:induction false} AddNewNoDuplicates(acc: seq<string>, ks: seq<string>)
    requires NoDuplicates(acc)
    ensures NoDuplicates(AddNew(acc, ks))
    decreases |ks|
  {
    if ks != [] {
      AddNewNoDuplicates(acc, ks[..|ks| - 1]);
    }
  }

  /** Adding keys that are already distinct to nothing keeps them as they are. */
  lemma {:induction false} AddNewDistinct(ks: seq<string>)
    requires NoDuplicates(ks)
    ensures AddNew([], ks) == ks
    decreases |ks|
  {
    if ks != [] {
      var m := |ks| - 1;
      AddNewDistinct(ks[..m]);
      assert ks[m] !in ks[..m];
      assert ks[..m] + [ks[m]] == ks;
    }
  }

  /** The keys of `base`, then the new keys of each dictionary to merge. */
  function KeyOrder(base: Entries, tomerge: seq<Entries>): (r: seq<string>)
    decreases |tomerge|
  {
    if tomerge == [] then AddNew([], Keys(base))
    else
      var n := |tomerge| - 1;
      AddNew(KeyOrder(base, tomerge[..n]), Keys(tomerge[n]))
  }

  /** Some dictionary to merge holds `k`. */
  predicate InSome(tomerge: seq<Entries>, k: string) {
    exists i :: 0 <= i < |tomerge| && HasKey(tomerge[i], k)
  }

  /** The key order holds no key twice. */
  lemma {:induction false} KeyOrderNoDuplicates(base: Entries, tomerge: seq<Entries>)
    ensures NoDuplicates(KeyOrder(base, tomerge))
    decreases |tomerge|
  {
    if tomerge == [] {
      AddNewNoDuplicates([], Keys(base));
    } else {
      var n := |tomerge| - 1;
      KeyOrderNoDuplicates(base, tomerge[..n]);
      AddNewNoDuplicates(KeyOrder(base, tomerge[..n]), Keys(tomerge[n]));
    }
  }

  /** The key order holds exactly the keys of `base` and of the other
      dictionaries. */
  lemma {:induction false} KeyOrderMembers(base: Entries, tomerge: seq<Entries>)
    ensures forall k :: k in KeyOrder(base, tomerge) <==> HasKey(base, k) || InSome(tomerge, k)
    decreases |tomerge|
  {
    var r := KeyOrder(base, tomerge);
    if tomerge == [] {
      forall k ensures k in r <==> HasKey(base, k) { HasKeyIff(base, k); }
    } else {
      var n := |tomerge| - 1;
      KeyOrderMembers(base, tomerge[..n]);
      forall k ensures k in r <==> HasKey(base, k) || InSome(tomerge, k) {
        HasKeyIff(tomerge[n], k);
        if InSome(tomerge, k) {
          var i :| 0 <= i < |tomerge| && HasKey(tomerge[i], k);
          if i < n {
            assert tomerge[..n][i] == tomerge[i];
          }
        }
        if InSome(tomerge[..n], k) {
          var i :| 0 <= i < n && HasKey(tomerge[..n][i], k);
          assert tomerge[i] == tomerge[..n][i];
        }
      }
    }
  }

  /** Keys are listed in the order they are first seen: what the order holds
      after the first `j` dictionaries stays in front. */
  lemma {:induction false} KeyOrderPrefix(base: Entries, tomerge: seq<Entries>, j: nat)
    requires j <= |tomerge|
    ensures var before := KeyOrder(base, tomerge[..j]);
      |before| <= |KeyOrder(base, tomerge)| && KeyOrder(base, tomerge)[..|before|] == before
    decreases |tomerge|
  {
    if j == |tomerge| {
      assert tomerge[..j] == tomerge;
    } else {
      var n := |tomerge| - 1;
      KeyOrderPrefix(base, tomerge[..n], j);
      assert tomerge[..n][..j] == tomerge[..j];
    }
  }

  /** The keys of `base` come first, in their own order. */
  lemma KeyOrderBase(base: Entries, tomerge: seq<Entries>)
    requires UniqueKeys(base)
    ensures |base| <= |KeyOrder(base, tomerge)| && KeyOrder(base, tomerge)[..|base|] == Keys(base)
  {
    KeyOrderPrefix(base, tomerge, 0);
    assert tomerge[..0] == [];
    AddNewDistinct(Keys(base));
  }

  // ---------------------------------------------------------------------
  // The merge.
  // ---------------------------------------------------------------------

  /** `base.get(key) == other.get(key)` for every other dictionary. */
  predicate Same(base: Entries, tomerge: seq<Entries>, key: string) {
    forall i :: 0 <= i < |tomerge| ==> PyEq(GetOrNull(base, key), GetOrNull(tomerge[i], key))
  }

  /** `type(d.get(key)) is dict` for `base` and every other dictionary. */
  predicate AllDict(base: Entries, tomerge: seq<Entries>, key: string) {
    GetOrNull(base, key).Dict? && forall i :: 0 <= i < |tomerge| ==> GetOrNull(tomerge[i], key).Dict?
  }

  /** `[other[key] for other in tomerge]` when every one is a dictionary. */
  function Subs(tomerge: seq<Entries>, key: string): (r: seq<Entries>)
    requires forall i :: 0 <= i < |tomerge| ==> GetOrNull(tomerge[i], key).Dict?
    ensures |r| == |tomerge| && forall i :: 0 <= i < |tomerge| ==> Dict(r[i]) == GetOrNull(tomerge[i], key)
  {
    seq(|tomerge|, i requires 0 <= i < |tomerge| && GetOrNull(tomerge[i], key).Dict? =>
      GetOrNull(tomerge[i], key).entries)
  }

  /** `f'{key}-concat[{n}]'`. */
  function ConcatKey(key: string, n: nat): string {
    key + "-concat[" + NatToString(n) + "]"
  }

  /** The fallback for `key`: `output['{key}-concat[{i}]'] = other[key]` for
      the first `n` other dictionaries, in order. */
  function ConcatFrom(out: Entries, key: string, tomerge: seq<Entries>, n: nat): (r: Result<Entries>)
    requires n <= |tomerge|
    ensures r.Ok? <==> forall i :: 0 <= i < n ==> HasKey(tomerge[i], key)
    ensures r.Err? ==> r.error == KeyError
  {
    if n == 0 then Ok(out)
    else
      var before :- ConcatFrom(out, key, tomerge, n - 1);
      var v :- Item(tomerge[n - 1], key);
      Ok(SetKey(before, ConcatKey(key, n), v))
  }

  /** What the loop body does for one key. */
  function MergeKey(base: Entries, tomerge: seq<Entries>, out: Entries, key: string): (r: Result<Entries>)
    ensures r.Err? ==> r.error == KeyError
    decreases Dict(base), 0
  {
    if Same(base, tomerge, key) then Ok(SetKey(out, key, GetOrNull(base, key)))
    else if AllDict(base, tomerge, key) then
      var i := Find(base, key);
      assert base[i].1 == GetOrNull(base, key);
      var sub :- Merge(base[i].1.entries, Subs(tomerge, key));
      Ok(SetKey(out, key, Dict(sub)))
    else ConcatFrom(SetKey(out, key, GetOrNull(base, key)), key, tomerge, |tomerge|)
  }

  /** The output after the loop has handled `keys`. */
  function MergeKeys(base: Entries, tomerge: seq<Entries>, keys: seq<string>): (r: Result<Entries>)
    ensures r.Err? ==> r.error == KeyError
    decreases Dict(base), 1, |keys|
  {
    if keys == [] then Ok([])
    else
      var out :- MergeKeys(base, tomerge, keys[..|keys| - 1]);
      MergeKey(base, tomerge, out, keys[|keys| - 1])
  }

  /** `mergeDict(base, tomerge)`: a missing key in the fallback case is the
      only way it fails. */
  function Merge(base: Entries, tomerge: seq<Entries>): (r: Result<Entries>)
    ensures r.Err? ==> r.error == KeyError
    decreases Dict(base), 2
  {
    MergeKeys(base, tomerge, KeyOrder(base, tomerge))
  }

  /** `mergeDict` as the source runs it: collect the keys, then handle
      each key in turn. */
  method MergeDict(base: Entries, tomerge: seq<Entries>) returns (r: Result<Entries>)
    ensures r == Merge(base, tomerge)
    decreases Dict(base), 1
  {
    var keys := CollectKeys(base, tomerge);
    var output: Entries := [];
    for n := 0 to |keys|
      invariant MergeKeys(base, tomerge, keys[..n]) == Ok(output)
    {
      MergeKeysNext(base, tomerge, keys, n, output);
      var next := MergeOne(base, tomerge, output, keys[n]);
      if next.Err? {
        MergeKeysErrorStops(base, tomerge, keys, n + 1);
        assert keys[..|keys|] == keys;
        return Err(KeyError);
      }
      output := next.value;
    }
    assert keys[..|keys|] == keys;
    return Ok(output);
  }

  /** `key_dict`: the keys of `base`, updated with those of each other
      dictionary. */
  method CollectKeys(base: Entries, tomerge: seq<Entries>) returns (keys: seq<string>)
    ensures keys == KeyOrder(base, tomerge)
  {
    keys := AddNew([], Keys(base));
    for j := 0 to |tomerge|
      invariant keys == KeyOrder(base, tomerge[..j])
    {
      assert tomerge[..j + 1][..j] == tomerge[..j];
      keys := AddNew(keys, Keys(tomerge[j]));
    }
    assert tomerge[..|tomerge|] == tomerge;
  }

  /** The `same` and `all_dict` flags for one key. */
  method Flags(base: Entries, tomerge: seq<Entries>, key: string) returns (same: bool, allDict: bool)
    ensures same == Same(base, tomerge, key)
    ensures allDict == AllDict(base, tomerge, key)
  {
    same := true;
    allDict := GetOrNull(base, key).Dict?;
    for i := 0 to |tomerge|
      invariant same == forall j :: 0 <= j < i ==> PyEq(GetOrNull(base, key), GetOrNull(tomerge[j], key))
      invariant allDict == (GetOrNull(base, key).Dict? && forall j :: 0 <= j < i ==> GetOrNull(tomerge[j], key).Dict?)
    {
      if !PyEq(GetOrNull(base, key), GetOrNull(tomerge[i], key)) {
        same := false;
      }
      if !GetOrNull(tomerge[i], key).Dict? {
        allDict := false;
      }
    }
  }

  /** The loop body for one key: copy, recurse or concatenate. */
  method MergeOne(base: Entries, tomerge: seq<Entries>, output: Entries, key: string) returns (r: Result<Entries>)
    ensures r == MergeKey(base, tomerge, output, key)
    decreases Dict(base), 0
  {
    var same, allDict := Flags(base, tomerge, key);
    if same {
      return Ok(SetKey(output, key, GetOrNull(base, key)));
    } else if allDict {
      var k := Find(base, key);
      assert base[k].1 == GetOrNull(base, key);
      var sub := MergeDict(base[k].1.entries, Subs(tomerge, key));
      if sub.Err? {
        return Err(KeyError);
      }
      return Ok(SetKey(output, key, Dict(sub.value)));
    } else {
      r := AppendConcat(SetKey(output, key, GetOrNull(base, key)), key, tomerge);
    }
  }

  /** `output[f'{key}-concat[{oo+1}]'] = other[key]` for each other dictionary. */
  method AppendConcat(start: Entries, key: string, tomerge: seq<Entries>) returns (r: Result<Entries>)
    ensures r == ConcatFrom(start, key, tomerge, |tomerge|)
  {
    var output := start;
    for oo := 0 to |tomerge|
      invariant ConcatFrom(start, key, tomerge, oo) == Ok(output)
    {
      var v := Item(tomerge[oo], key);
      if v.Err? {
        ConcatErrorStops(start, key, tomerge, oo + 1);
        return Err(KeyError);
      }
      output := SetKey(output, ConcatKey(key, oo + 1), v.value);
    }
    return Ok(output);
  }

  lemma {:induction false} ConcatErrorStops(out: Entries, key: string, tomerge: seq<Entries>, n: nat)
    requires n <= |tomerge| && ConcatFrom(out, key, tomerge, n).Err?
    ensures ConcatFrom(out, key, tomerge, |tomerge|) == Err(KeyError)
  {
  }

  /** Handling one more key continues from the output so far. */
  lemma MergeKeysNext(base: Entries, tomerge: seq<Entries>, keys: seq<string>, n: nat, output: Entries)
    requires n < |keys| && MergeKeys(base, tomerge, keys[..n]) == Ok(output)
    ensures MergeKeys(base, tomerge, keys[..n + 1]) == MergeKey(base, tomerge, output, keys[n])
  {
    assert keys[..n + 1][..n] == keys[..n];
  }

  /** Once the loop has failed on a key, the whole merge fails. */
  lemma {:induction false} MergeKeysErrorStops(base: Entries, tomerge: seq<Entries>, keys: seq<string>, n: nat)
    requires n <= |keys| && MergeKeys(base, tomerge, keys[..n]).Err?
    ensures MergeKeys(base, tomerge, keys) == Err(KeyError)
    decreases |keys| - n
  {
    if n < |keys| {
      assert keys[..n + 1][..n] == keys[..n];
      MergeKeysErrorStops(base, tomerge, keys, n + 1);
    } else {
      assert keys[..n] == keys;
    }
  }

  // ---------------------------------------------------------------------
  // What the merge promises.
  // ---------------------------------------------------------------------

  /** A `-concat[n]` name ends with a bracket, and distinct keys or indices
      give distinct names. */
  lemma ConcatKeyInjective(k1: string, n1: nat, k2: string, n2: nat)
    ensures EndsWith(ConcatKey(k1, n1), "]")
    ensures ConcatKey(k1, n1) == ConcatKey(k2, n2) <==> k1 == k2 && n1 == n2
  {
    var s1 := ConcatKey(k1, n1);
    var d1, d2 := NatToString(n1), NatToString(n2);
    var p1, p2 := k1 + "-concat[", k2 + "-concat[";
    assert s1 == p1 + (d1 + "]");
    assert s1[|s1| - 1..] == "]";
    if s1 == ConcatKey(k2, n2) {
      var s2 := ConcatKey(k2, n2);
      assert s2 == p2 + (d2 + "]");
      if |d1| == |d2| {
        assert p1 == s1[..|p1|] == s2[..|p2|] == p2;
        assert k1 == p1[..|k1|] == p2[..|k2|] == k2;
        assert d1 == s1[|p1|..|p1| + |d1|] == s2[|p2|..|p2| + |d2|] == d2;
        NatToStringInjective(n1, n2);
      } else if |d1| < |d2| {
        LongerIndexDiffers(k1, n1, k2, n2);
      } else {
        LongerIndexDiffers(k2, n2, k1, n1);
      }
    }
  }

  lemma LongerIndexDiffers(k1: string, n1: nat, k2: string, n2: nat)
    requires |NatToString(n1)| < |NatToString(n2)|
    ensures ConcatKey(k1, n1) != ConcatKey(k2, n2)
  {
    var s1, s2 := ConcatKey(k1, n1), ConcatKey(k2, n2);
    var d1, d2 := NatToString(n1), NatToString(n2);
    var p1, p2 := k1 + "-concat[", k2 + "-concat[";
    assert s1 == p1 + (d1 + "]");
    assert s2 == p2 + (d2 + "]");
    assert s1[|p1| - 1] == '[';
    assert forall j :: |p2| <= j < |p2| + |d2| ==> s2[j] == d2[j - |p2|];
  }

  /** `t` is neither `key` nor one of its `-concat` names. */
  predicate Untouched(key: string, t: string, n: nat) {
    key != t && forall j :: 1 <= j <= n ==> ConcatKey(key, j) != t
  }

  lemma SetKeyKeeps(d: Entries, k: string, v: Value, t: string)
    ensures Get(SetKey(d, k, v), k) == Some(v)
    ensures HasKey(d, t) ==> HasKey(SetKey(d, k, v), t)
    ensures t != k ==> Get(SetKey(d, k, v), t) == Get(d, t)
  {
    SetKeySpec(d, k, v);
  }

  /** The fallback keeps every key it finds and writes nothing but
      `-concat` names of its key. */
  lemma {:induction false} ConcatFromKeeps(out: Entries, key: string, tomerge: seq<Entries>, n: nat, t: string)
    requires n <= |tomerge| && ConcatFrom(out, key, tomerge, n).Ok?
    ensures HasKey(out, t) ==> HasKey(ConcatFrom(out, key, tomerge, n).value, t)
    ensures (forall j :: 1 <= j <= n ==> ConcatKey(key, j) != t) ==>
      Get(ConcatFrom(out, key, tomerge, n).value, t) == Get(out, t)
  {
    if n > 0 {
      ConcatFromKeeps(out, key, tomerge, n - 1, t);
      var before := ConcatFrom(out, key, tomerge, n - 1).value;
      SetKeyKeeps(before, ConcatKey(key, n), Item(tomerge[n - 1], key).value, t);
    }
  }

  /** The fallback stores the i-th other dictionary's value under
      `key-concat[i]`. */
  lemma {:induction false} ConcatFromValues(out: Entries, key: string, tomerge: seq<Entries>, n: nat, i: nat)
    requires i < n <= |tomerge| && ConcatFrom(out, key, tomerge, n).Ok?
    ensures Get(ConcatFrom(out, key, tomerge, n).value, ConcatKey(key, i + 1)) == Get(tomerge[i], key)
  {
    var before := ConcatFrom(out, key, tomerge, n - 1).value;
    var v := Item(tomerge[n - 1], key).value;
    assert ConcatFrom(out, key, tomerge, n).value == SetKey(before, ConcatKey(key, n), v);
    ConcatKeyInjective(key, n, key, i + 1);
    SetKeyKeeps(before, ConcatKey(key, n), v, ConcatKey(key, i + 1));
    if i < n - 1 {
      ConcatFromValues(out, key, tomerge, n - 1, i);
    }
  }

  /** Handling one key adds that key, keeps every key already there, and
      leaves alone what it does not write. */
  lemma MergeKeySpec(base: Entries, tomerge: seq<Entries>, out: Entries, key: string, t: string)
    requires MergeKey(base, tomerge, out, key).Ok?
    ensures var r := MergeKey(base, tomerge, out, key).value;
      HasKey(r, key) && (HasKey(out, t) ==> HasKey(r, t)) &&
      (Untouched(key, t, |tomerge|) ==> Get(r, t) == Get(out, t))
  {
    var bv := GetOrNull(base, key);
    SetKeyKeeps(out, key, bv, t);
    if !Same(base, tomerge, key) {
      if AllDict(base, tomerge, key) {
        var i := Find(base, key);
        var sub := Merge(base[i].1.entries, Subs(tomerge, key)).value;
        SetKeyKeeps(out, key, Dict(sub), t);
      } else {
        SetKeyKeeps(out, key, bv, key);
        ConcatFromKeeps(SetKey(out, key, bv), key, tomerge, |tomerge|, t);
        ConcatFromKeeps(SetKey(out, key, bv), key, tomerge, |tomerge|, key);
        forall j | 1 <= j <= |tomerge| ensures ConcatKey(key, j) != key {
          assert |ConcatKey(key, j)| > |key|;
        }
      }
    }
  }

  /** Handling one key adds it and keeps every key already there. */
  lemma MergeKeyHas(base: Entries, tomerge: seq<Entries>, out: Entries, key: string, t: string)
    requires MergeKey(base, tomerge, out, key).Ok?
    ensures var r := MergeKey(base, tomerge, out, key).value;
      HasKey(r, key) && (HasKey(out, t) ==> HasKey(r, t))
  {
    MergeKeySpec(base, tomerge, out, key, t);
  }

  /** A merge that succeeds has every key of the key order. */
  lemma {:induction false} MergeKeysCover(base: Entries, tomerge: seq<Entries>, keys: seq<string>)
    requires MergeKeys(base, tomerge, keys).Ok?
    ensures forall i :: 0 <= i < |keys| ==> HasKey(MergeKeys(base, tomerge, keys).value, keys[i])
    decreases |keys|
  {
    if keys != [] {
      var n := |keys| - 1;
      assert MergeKeys(base, tomerge, keys[..n]).Ok?;
      MergeKeysCover(base, tomerge, keys[..n]);
      var out := MergeKeys(base, tomerge, keys[..n]).value;
      assert MergeKeys(base, tomerge, keys) == MergeKey(base, tomerge, out, keys[n]);
      var r := MergeKey(base, tomerge, out, keys[n]).value;
      forall i | 0 <= i < |keys| ensures HasKey(r, keys[i]) {
        MergeKeyHas(base, tomerge, out, keys[n], keys[i]);
        if i < n {
          assert keys[..n][i] == keys[i];
        }
      }
    }
  }

  /** The output covers every key of `base` and of every other dictionary. */
  lemma MergeCovers(base: Entries, tomerge: seq<Entries>, k: string)
    requires Merge(base, tomerge).Ok?
    requires HasKey(base, k) || InSome(tomerge, k)
    ensures HasKey(Merge(base, tomerge).value, k)
  {
    KeyOrderMembers(base, tomerge);
    MergeKeysCover(base, tomerge, KeyOrder(base, tomerge));
  }

  /** The names of a key list that are no `-concat` names, in order. */
  function Plain(ks: seq<string>): (r: seq<string>)
    ensures forall k :: k in r ==> k in ks && !EndsWith(k, "]")
  {
    if ks == [] then []
    else
      var m := |ks| - 1;
      Plain(ks[..m]) + (if EndsWith(ks[m], "]") then [] else [ks[m]])
  }

  lemma PlainAppend(ks: seq<string>, t: string)
    ensures Plain(ks + [t]) == Plain(ks) + (if EndsWith(t, "]") then [] else [t])
  {
    assert (ks + [t])[..|ks|] == ks;
  }

  lemma {:induction false} PlainHas(ks: seq<string>, t: string)
    requires t in ks && !EndsWith(t, "]")
    ensures t in Plain(ks)
  {
    var m := |ks| - 1;
    if ks[m] != t {
      assert t in ks[..m];
      PlainHas(ks[..m], t);
    }
  }

  /** `d[t] = v` adds `t` to the plain keys if it is a new plain key, and
      keeps them otherwise. */
  lemma SetKeyPlain(d: Entries, t: string, v: Value)
    ensures Plain(Keys(SetKey(d, t, v))) ==
      Plain(Keys(d)) + (if HasKey(d, t) || EndsWith(t, "]") then [] else [t])
  {
    SetKeySpec(d, t, v);
    if !HasKey(d, t) {
      PlainAppend(Keys(d), t);
    }
  }

  /** The fallback writes `-concat` names only, so the plain keys stay. */
  lemma {:induction false} ConcatFromPlain(out: Entries, key: string, tomerge: seq<Entries>, n: nat)
    requires n <= |tomerge| && ConcatFrom(out, key, tomerge, n).Ok?
    ensures Plain(Keys(ConcatFrom(out, key, tomerge, n).value)) == Plain(Keys(out))
  {
    if n > 0 {
      ConcatFromPlain(out, key, tomerge, n - 1);
      var before := ConcatFrom(out, key, tomerge, n - 1).value;
      var v := Item(tomerge[n - 1], key).value;
      assert ConcatFrom(out, key, tomerge, n).value == SetKey(before, ConcatKey(key, n), v);
      ConcatKeyInjective(key, n, key, n);
      SetKeyPlain(before, ConcatKey(key, n), v);
    }
  }

  /** Handling a new plain key appends it to the plain keys. */
  lemma MergeKeyPlain(base: Entries, tomerge: seq<Entries>, out: Entries, key: string)
    requires MergeKey(base, tomerge, out, key).Ok? && !HasKey(out, key) && !EndsWith(key, "]")
    ensures Plain(Keys(MergeKey(base, tomerge, out, key).value)) == Plain(Keys(out)) + [key]
  {
    var bv := GetOrNull(base, key);
    SetKeyPlain(out, key, bv);
    if !Same(base, tomerge, key) {
      if AllDict(base, tomerge, key) {
        var i := Find(base, key);
        SetKeyPlain(out, key, Dict(Merge(base[i].1.entries, Subs(tomerge, key)).value));
      } else {
        ConcatFromPlain(SetKey(out, key, bv), key, tomerge, |tomerge|);
      }
    }
  }

  /** In a list without duplicates the last key is not among the others. */
  lemma LastNotBefore(keys: seq<string>)
    requires keys != [] && NoDuplicates(keys)
    ensures keys[|keys| - 1] !in keys[..|keys| - 1]
  {
  }

  /** A non-empty list is its front followed by its last key. */
  lemma SplitLast(keys: seq<string>)
    requires keys != []
    ensures keys[..|keys| - 1] + [keys[|keys| - 1]] == keys
  {
  }

  /** A plain key missing from the plain keys of `d` is not in `d`. */
  lemma NewPlainKey(d: Entries, t: string, plain: seq<string>)
    requires Plain(Keys(d)) == plain && t !in plain && !EndsWith(t, "]")
    ensures !HasKey(d, t)
  {
    HasKeyIff(d, t);
    if t in Keys(d) {
      PlainHas(Keys(d), t);
    }
  }

  /** After the loop over distinct plain keys the output's plain keys are
      those keys, in loop order. */
  lemma {:induction false} MergeKeysPlain(base: Entries, tomerge: seq<Entries>, keys: seq<string>)
    requires MergeKeys(base, tomerge, keys).Ok? && NoDuplicates(keys) && NoBracketKeys(keys)
    ensures Plain(Keys(MergeKeys(base, tomerge, keys).value)) == keys
    decreases |keys|
  {
    if keys != [] {
      var n := |keys| - 1;
      var pre := keys[..n];
      assert MergeKeys(base, tomerge, pre).Ok?;
      assert NoDuplicates(pre) && NoBracketKeys(pre);
      MergeKeysPlain(base, tomerge, pre);
      var out := MergeKeys(base, tomerge, pre).value;
      assert MergeKeys(base, tomerge, keys) == MergeKey(base, tomerge, out, keys[n]);
      LastNotBefore(keys);
      NewPlainKey(out, keys[n], pre);
      MergeKeyPlain(base, tomerge, out, keys[n]);
      SplitLast(keys);
    }
  }

  /** The output lists the keys in the order they are first seen, the keys
      of `base` first in their own order; besides them it holds only
      `-concat` names. */
  lemma MergeKeyOrder(base: Entries, tomerge: seq<Entries>)
    requires Merge(base, tomerge).Ok? && NoBracketKeys(KeyOrder(base, tomerge))
    ensures Plain(Keys(Merge(base, tomerge).value)) == KeyOrder(base, tomerge)
    ensures UniqueKeys(base) ==>
      (|base| <= |KeyOrder(base, tomerge)| && Plain(Keys(Merge(base, tomerge).value))[..|base|] == Keys(base))
  {
    KeyOrderNoDuplicates(base, tomerge);
    MergeKeysPlain(base, tomerge, KeyOrder(base, tomerge));
    if UniqueKeys(base) {
      KeyOrderBase(base, tomerge);
    }
  }

  /** What the output holds under a name `t` is fixed once key `keys[m]` is
      handled, if no later key writes `t`. */
  lemma MergeKeysSettled(base: Entries, tomerge: seq<Entries>, keys: seq<string>, m: nat, t: string)
    requires m < |keys| && MergeKeys(base, tomerge, keys).Ok?
    requires forall j :: m < j < |keys| ==> Untouched(keys[j], t, |tomerge|)
    ensures MergeKeys(base, tomerge, keys[..m + 1]).Ok?
    ensures Get(MergeKeys(base, tomerge, keys).value, t) == Get(MergeKeys(base, tomerge, keys[..m + 1]).value, t)
  {
    var k := |keys|;
    assert keys[..k] == keys;
    while k > m + 1
      invariant m + 1 <= k <= |keys|
      invariant MergeKeys(base, tomerge, keys[..k]).Ok?
      invariant Get(MergeKeys(base, tomerge, keys).value, t) == Get(MergeKeys(base, tomerge, keys[..k]).value, t)
    {
      var pre := keys[..k];
      assert pre[..k - 1] == keys[..k - 1] && pre[k - 1] == keys[k - 1];
      SettledStep(base, tomerge, pre, t);
      k := k - 1;
    }
  }

  /** The last key, if it does not write `t`, leaves `t` as it was. */
  lemma SettledStep(base: Entries, tomerge: seq<Entries>, keys: seq<string>, t: string)
    requires |keys| > 0 && MergeKeys(base, tomerge, keys).Ok?
    requires Untouched(keys[|keys| - 1], t, |tomerge|)
    ensures MergeKeys(base, tomerge, keys[..|keys| - 1]).Ok?
    ensures Get(MergeKeys(base, tomerge, keys).value, t) == Get(MergeKeys(base, tomerge, keys[..|keys| - 1]).value, t)
  {
    var n := |keys| - 1;
    var out := MergeKeys(base, tomerge, keys[..n]).value;
    assert MergeKeys(base, tomerge, keys) == MergeKey(base, tomerge, out, keys[n]);
    MergeKeyKeeps(base, tomerge, out, keys[n], t);
  }

  /** Handling one key leaves alone every name it does not write. */
  lemma MergeKeyKeeps(base: Entries, tomerge: seq<Entries>, out: Entries, key: string, t: string)
    requires MergeKey(base, tomerge, out, key).Ok? && Untouched(key, t, |tomerge|)
    ensures Get(MergeKey(base, tomerge, out, key).value, t) == Get(out, t)
  {
    MergeKeySpec(base, tomerge, out, key, t);
  }

  /** The keys a name must avoid: no key of any dictionary ends with `]`,
      so no key is mistaken for a `-concat` name. */
  predicate NoBracketKeys(keys: seq<string>) {
    forall i :: 0 <= i < |keys| ==> !EndsWith(keys[i], "]")
  }

  /** The value the merge gives each key: `base`'s value when all
      dictionaries agree; the recursive merge when they differ and all are
      dictionaries; and `base`'s value again otherwise. */
  lemma MergeValue(base: Entries, tomerge: seq<Entries>, k: string)
    requires Merge(base, tomerge).Ok?
    requires k in KeyOrder(base, tomerge) && NoBracketKeys(KeyOrder(base, tomerge))
    ensures var r := Merge(base, tomerge).value;
      (Same(base, tomerge, k) ==> Get(r, k) == Some(GetOrNull(base, k))) &&
      (!Same(base, tomerge, k) && AllDict(base, tomerge, k) ==>
         Merge(GetOrNull(base, k).entries, Subs(tomerge, k)).Ok? &&
         Get(r, k) == Some(Dict(Merge(GetOrNull(base, k).entries, Subs(tomerge, k)).value))) &&
      (!Same(base, tomerge, k) && !AllDict(base, tomerge, k) ==> Get(r, k) == Some(GetOrNull(base, k)))
  {
    var keys := KeyOrder(base, tomerge);
    var m := SettledAt(base, tomerge, k, k, 0);
    MergeKeyValue(base, tomerge, MergeKeys(base, tomerge, keys[..m]).value, k);
  }

  /** The value handling one key stores under that key. */
  lemma MergeKeyValue(base: Entries, tomerge: seq<Entries>, out: Entries, k: string)
    requires MergeKey(base, tomerge, out, k).Ok?
    ensures var r := MergeKey(base, tomerge, out, k).value;
      (Same(base, tomerge, k) ==> Get(r, k) == Some(GetOrNull(base, k))) &&
      (!Same(base, tomerge, k) && AllDict(base, tomerge, k) ==>
         Merge(GetOrNull(base, k).entries, Subs(tomerge, k)).Ok? &&
         Get(r, k) == Some(Dict(Merge(GetOrNull(base, k).entries, Subs(tomerge, k)).value))) &&
      (!Same(base, tomerge, k) && !AllDict(base, tomerge, k) ==> Get(r, k) == Some(GetOrNull(base, k)))
  {
    var bv := GetOrNull(base, k);
    SetKeyKeeps(out, k, bv, k);
    if !Same(base, tomerge, k) {
      if AllDict(base, tomerge, k) {
        var i := Find(base, k);
        assert base[i].1 == bv;
        var sub := Merge(base[i].1.entries, Subs(tomerge, k)).value;
        SetKeyKeeps(out, k, Dict(sub), k);
      } else {
        forall n: nat | 1 <= n <= |tomerge| ensures ConcatKey(k, n) != k {
          assert |ConcatKey(k, n)| > |k|;
        }
        ConcatFromKeeps(SetKey(out, k, bv), k, tomerge, |tomerge|, k);
      }
    }
  }

  /** Where `k` is handled, and that the name `t` — `k` itself or one of its
      `-concat` names — is not written after it. */
  lemma SettledAt(base: Entries, tomerge: seq<Entries>, k: string, t: string, i: nat) returns (m: nat)
    requires Merge(base, tomerge).Ok?
    requires k in KeyOrder(base, tomerge) && NoBracketKeys(KeyOrder(base, tomerge))
    requires t == k || (i < |tomerge| && t == ConcatKey(k, i + 1))
    ensures var keys := KeyOrder(base, tomerge);
      m < |keys| && keys[m] == k && keys[..m + 1][..m] == keys[..m] &&
      MergeKeys(base, tomerge, keys[..m + 1]).Ok? &&
      MergeKeys(base, tomerge, keys[..m + 1]) ==
        MergeKey(base, tomerge, MergeKeys(base, tomerge, keys[..m]).value, k) &&
      Get(Merge(base, tomerge).value, t) == Get(MergeKeys(base, tomerge, keys[..m + 1]).value, t)
  {
    var keys := KeyOrder(base, tomerge);
    KeyOrderNoDuplicates(base, tomerge);
    m :| 0 <= m < |keys| && keys[m] == k;
    forall j | m < j < |keys| ensures Untouched(keys[j], t, |tomerge|) {
      assert !EndsWith(keys[j], "]");
      if t == k {
        forall n: nat | 1 <= n <= |tomerge| ensures ConcatKey(keys[j], n) != t {
          assert |ConcatKey(keys[j], n)| > |keys[j]|;
          if ConcatKey(keys[j], n) == t {
            ConcatKeyInjective(keys[j], n, keys[j], n);
          }
        }
      } else {
        ConcatKeyInjective(k, i + 1, k, i + 1);
        forall n: nat | 1 <= n <= |tomerge| ensures ConcatKey(keys[j], n) != t {
          ConcatKeyInjective(keys[j], n, k, i + 1);
        }
      }
    }
    MergeKeysSettled(base, tomerge, keys, m, t);
    assert keys[..m + 1][..m] == keys[..m];
  }

  /** In the fallback case the i-th other dictionary's value is kept under
      `key-concat[i]`. */
  lemma MergeConcatValues(base: Entries, tomerge: seq<Entries>, k: string, i: nat)
    requires Merge(base, tomerge).Ok? && i < |tomerge|
    requires k in KeyOrder(base, tomerge) && NoBracketKeys(KeyOrder(base, tomerge))
    requires !Same(base, tomerge, k) && !AllDict(base, tomerge, k)
    ensures HasKey(tomerge[i], k)
    ensures Get(Merge(base, tomerge).value, ConcatKey(k, i + 1)) == Get(tomerge[i], k)
  {
    var keys := KeyOrder(base, tomerge);
    var m := SettledAt(base, tomerge, k, ConcatKey(k, i + 1), i);
    var out := MergeKeys(base, tomerge, keys[..m]).value;
    ConcatFromValues(SetKey(out, k, GetOrNull(base, k)), k, tomerge, |tomerge|, i);
  }

  /** The two dictionaries of `MergeKeyCollision`. */
  const COLLIDING_BASE: Entries := [("x-concat[1]", Num(5.0)), ("x", Num(1.0))]
  const COLLIDING_OTHER: Entries := [("x", Num(2.0)), ("x-concat[1]", Num(5.0))]

  /** Both dictionaries hold the same two keys, `base`'s order first. */
  lemma CollidingOrder()
    ensures KeyOrder(COLLIDING_BASE, [COLLIDING_OTHER]) == ["x-concat[1]", "x"]
  {
    var ks := ["x-concat[1]", "x"];
    assert Keys(COLLIDING_BASE) == ks;
    assert Keys(COLLIDING_OTHER) == ["x", "x-concat[1]"];
    assert ks[..1] == ["x-concat[1]"];
    assert AddNew([], ks[..1]) == ["x-concat[1]"];
    assert AddNew([], ks) == ks;
    assert [COLLIDING_OTHER][..0] == [];
    assert ["x", "x-concat[1]"][..1] == ["x"];
    assert AddNew(ks, ["x"]) == ks;
    assert AddNew(ks, ["x", "x-concat[1]"]) == ks;
  }

  /** What `get` finds in either dictionary. */
  lemma CollidingLookups()
    ensures GetOrNull(COLLIDING_BASE, "x-concat[1]") == Num(5.0) && GetOrNull(COLLIDING_BASE, "x") == Num(1.0)
    ensures GetOrNull(COLLIDING_OTHER, "x-concat[1]") == Num(5.0) && GetOrNull(COLLIDING_OTHER, "x") == Num(2.0)
    ensures Get(COLLIDING_OTHER, "x") == Some(Num(2.0))
  {
    assert "x-concat[1]" != "x" by { assert |"x-concat[1]"| != |"x"|; }
    assert Find(COLLIDING_BASE, "x-concat[1]") == 0;
    assert Find(COLLIDING_BASE[1..], "x") == 0;
    assert Find(COLLIDING_OTHER, "x") == 0;
    assert Find(COLLIDING_OTHER[1..], "x-concat[1]") == 0;
  }

  /** The first key agrees, so its value is stored as it is. */
  lemma CollidingFirst()
    ensures MergeKeys(COLLIDING_BASE, [COLLIDING_OTHER], ["x-concat[1]"]) == Ok([("x-concat[1]", Num(5.0))])
  {
    CollidingLookups();
    assert [COLLIDING_OTHER][0] == COLLIDING_OTHER;
    assert Same(COLLIDING_BASE, [COLLIDING_OTHER], "x-concat[1]");
    assert ["x-concat[1]"][..0] == [];
    assert SetKey([], "x-concat[1]", Num(5.0)) == [("x-concat[1]", Num(5.0))];
  }

  /** The second key differs, so the fallback stores the other value under
      the name the first key already has. */
  lemma CollidingSecond()
    ensures var out := [("x-concat[1]", Num(5.0))];
      MergeKey(COLLIDING_BASE, [COLLIDING_OTHER], out, "x") ==
        Ok([("x-concat[1]", Num(2.0)), ("x", Num(1.0))])
  {
    var out := [("x-concat[1]", Num(5.0))];
    CollidingLookups();
    assert [COLLIDING_OTHER][0] == COLLIDING_OTHER;
    assert !PyEq(GetOrNull(COLLIDING_BASE, "x"), GetOrNull([COLLIDING_OTHER][0], "x"));
    assert !Same(COLLIDING_BASE, [COLLIDING_OTHER], "x");
    assert !AllDict(COLLIDING_BASE, [COLLIDING_OTHER], "x");
    var out1 := SetKey(out, "x", Num(1.0));
    assert out1 == [("x-concat[1]", Num(5.0)), ("x", Num(1.0))];
    assert ConcatKey("x", 1) == "x-concat[1]";
    assert Item(COLLIDING_OTHER, "x") == Ok(Num(2.0));
    assert ConcatFrom(out1, "x", [COLLIDING_OTHER], 1) == Ok(SetKey(out1, "x-concat[1]", Num(2.0)));
    assert Find(out1, "x-concat[1]") == 0;
    assert SetKey(out1, "x-concat[1]", Num(2.0)) == [("x-concat[1]", Num(2.0)), ("x", Num(1.0))];
  }

  /** Why the value laws need `NoBracketKeys`: a key that already reads
      `x-concat[1]` and agrees everywhere is stored first, and the fallback
      for `x` then overwrites it with the other dictionary's `x`. */
  lemma MergeKeyCollision()
    ensures Same(COLLIDING_BASE, [COLLIDING_OTHER], "x-concat[1]")
    ensures GetOrNull(COLLIDING_BASE, "x-concat[1]") == Num(5.0)
    ensures Merge(COLLIDING_BASE, [COLLIDING_OTHER]) == Ok([("x-concat[1]", Num(2.0)), ("x", Num(1.0))])
    ensures Get(Merge(COLLIDING_BASE, [COLLIDING_OTHER]).value, "x-concat[1]") == Some(Num(2.0))
  {
    var ks := ["x-concat[1]", "x"];
    CollidingLookups();
    CollidingOrder();
    CollidingFirst();
    CollidingSecond();
    assert ks[..1] == ["x-concat[1]"];
    assert MergeKeys(COLLIDING_BASE, [COLLIDING_OTHER], ks) ==
      MergeKey(COLLIDING_BASE, [COLLIDING_OTHER], [("x-concat[1]", Num(5.0))], "x");
  }

  /** Adding keys that are all there already changes nothing. */
  lemma {:induction false} AddNewKnown(acc: seq<string>, ks: seq<string>)
    requires forall i :: 0 <= i < |ks| ==> ks[i] in acc
    ensures AddNew(acc, ks) == acc
    decreases |ks|
  {
    if ks != [] {
      AddNewKnown(acc, ks[..|ks| - 1]);
    }
  }

  /** When the other dictionaries bring no new key, the key order is that
      of `base`. */
  lemma {:induction false} KeyOrderKnown(base: Entries, tomerge: seq<Entries>)
    requires forall i, j :: 0 <= i < |tomerge| && 0 <= j < |tomerge[i]| ==> HasKey(base, tomerge[i][j].0)
    ensures KeyOrder(base, tomerge) == AddNew([], Keys(base))
    decreases |tomerge|
  {
    if tomerge != [] {
      var n := |tomerge| - 1;
      KeyOrderKnown(base, tomerge[..n]);
      forall j | 0 <= j < |tomerge[n]| ensures Keys(tomerge[n])[j] in AddNew([], Keys(base)) {
        HasKeyIff(base, tomerge[n][j].0);
      }
      AddNewKnown(AddNew([], Keys(base)), Keys(tomerge[n]));
    }
  }

  /** With every other dictionary equal to `base`, each key agrees. */
  lemma SameWhenEqual(base: Entries, tomerge: seq<Entries>, j: nat)
    requires UniqueKeys(base) && j < |base|
    requires forall i :: 0 <= i < |tomerge| ==> PyEq(Dict(base), Dict(tomerge[i]))
    ensures Same(base, tomerge, base[j].0)
  {
    FindIsFirst(base, base[j].0, j);
    forall i | 0 <= i < |tomerge| ensures PyEq(GetOrNull(base, base[j].0), GetOrNull(tomerge[i], base[j].0)) {
      assert PyEq(Dict(base), Dict(tomerge[i]));
    }
  }

  /** When every key agrees, the loop copies `base` entry by entry. */
  lemma {:induction false} MergeKeysCopy(base: Entries, tomerge: seq<Entries>, m: nat)
    requires UniqueKeys(base) && m <= |base|
    requires forall j :: 0 <= j < |base| ==> Same(base, tomerge, base[j].0)
    ensures MergeKeys(base, tomerge, Keys(base)[..m]) == Ok(base[..m])
  {
    if m > 0 {
      var keys := Keys(base)[..m];
      assert keys[..m - 1] == Keys(base)[..m - 1];
      MergeKeysCopy(base, tomerge, m - 1);
      assert keys[m - 1] == base[m - 1].0;
      CopyStep(base, tomerge, m - 1);
    }
  }

  lemma CopyStep(base: Entries, tomerge: seq<Entries>, j: nat)
    requires UniqueKeys(base) && j < |base| && Same(base, tomerge, base[j].0)
    ensures MergeKey(base, tomerge, base[..j], base[j].0) == Ok(base[..j + 1])
  {
    var key := base[j].0;
    FindIsFirst(base, key, j);
    FindIsFirst(base[..j], key, j);
    assert GetOrNull(base, key) == base[j].1;
    assert SetKey(base[..j], key, base[j].1) == base[..j + 1];
  }

  /** Dictionaries equal to `base` have no key `base` lacks. */
  lemma EqualKeysKnown(base: Entries, tomerge: seq<Entries>)
    requires forall i :: 0 <= i < |tomerge| ==> PyEq(Dict(base), Dict(tomerge[i]))
    ensures forall i, j :: 0 <= i < |tomerge| && 0 <= j < |tomerge[i]| ==> HasKey(base, tomerge[i][j].0)
  {
    forall i, j | 0 <= i < |tomerge| && 0 <= j < |tomerge[i]| ensures HasKey(base, tomerge[i][j].0) {
      assert PyEq(Dict(base), Dict(tomerge[i]));
    }
  }

  /** With every other dictionary equal to `base`, every key agrees. */
  lemma AllSameWhenEqual(base: Entries, tomerge: seq<Entries>)
    requires UniqueKeys(base)
    requires forall i :: 0 <= i < |tomerge| ==> PyEq(Dict(base), Dict(tomerge[i]))
    ensures forall j :: 0 <= j < |base| ==> Same(base, tomerge, base[j].0)
  {
    forall j | 0 <= j < |base| ensures Same(base, tomerge, base[j].0) {
      SameWhenEqual(base, tomerge, j);
    }
  }

  /** When every other dictionary equals `base` (in particular when there
      are none), the merge gives `base` back. */
  lemma MergeAllEqual(base: Entries, tomerge: seq<Entries>)
    requires UniqueKeys(base)
    requires forall i :: 0 <= i < |tomerge| ==> PyEq(Dict(base), Dict(tomerge[i]))
    ensures Merge(base, tomerge) == Ok(base)
  {
    OrderWhenEqual(base, tomerge);
    AllSameWhenEqual(base, tomerge);
    MergeKeysCopy(base, tomerge, |base|);
    assert Keys(base)[..|base|] == Keys(base);
    assert base[..|base|] == base;
    assert Merge(base, tomerge) == MergeKeys(base, tomerge, Keys(base)[..|base|]);
  }

  /** When every other dictionary equals `base`, the keys are collected in
      the order of `base`. */
  lemma OrderWhenEqual(base: Entries, tomerge: seq<Entries>)
    requires UniqueKeys(base)
    requires forall i :: 0 <= i < |tomerge| ==> PyEq(Dict(base), Dict(tomerge[i]))
    ensures KeyOrder(base, tomerge) == Keys(base)
  {
    EqualKeysKnown(base, tomerge);
    KeyOrderKnown(base, tomerge);
    AddNewDistinct(Keys(base));
  }

  /** Merging nothing into `base` gives `base`. */
  lemma MergeNothing(base: Entries)
    requires UniqueKeys(base)
    ensures Merge(base, []) == Ok(base)
  {
    MergeAllEqual(base, []);
  }
}
