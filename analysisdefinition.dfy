/** The definition of one online analysis plot: which state key goes on
    each axis, what is plotted, how curves are grouped and fitted, the
    display metadata of each key, and the name and title of the plot. */
module AnalysisDefinition {
  import opened Wrappers
  import opened Values
  import opened Text
  import Definition

  const TYPE_2D: string := "2D"
  const TYPE_3D: string := "3D"

  const PLOT_MAX: string := "max()"
  const PLOT_MIN: string := "min()"
  const PLOT_INTEGRAL: string := "integral()"

  /** The reductions an analysis can plot. */
  const FUNCTIONS: seq<string> := [PLOT_MAX, PLOT_MIN, PLOT_INTEGRAL]

  const FIT_ERF: string := "erf()"

  // ---------------------------------------------------------------------
  // Display metadata.
  // ---------------------------------------------------------------------

  /** A metadata entry: long name, short name, unit and display factor. */
  datatype MetaEntry = MetaEntry(name: string, short: string, unit: string, factor: real)

  /** The `META` table as written, as positional tuples. In the `max()`
      entry a missing comma joins the short name and the unit into one
      string, so that tuple has three fields. */
  const META_AS_WRITTEN: map<string, seq<Value>> := map[
    "stage.x" := [Str("x-Position"), Str("x"), Str("mm"), Num(1.0)],
    "stage.y" := [Str("y-Position"), Str("y"), Str("mm"), Num(1.0)],
    "stage.focus" := [Str("Focus"), Str("Focus"), Str("mm"), Num(1.0)],
    "bias.hv" := [Str("Bias-Voltage"), Str("HV"), Str("V"), Num(1.0)],
    "bias.current" := [Str("Bias-Current"), Str("Leakage"), Str("uA"), Num(1000000.0)],
    "laser.dac" := [Str("Laser Threshold (DAC)"), Str("DAC"), Str("-"), Num(1.0)],
    "laser.frequency" := [Str("Laser Rate"), Str("Rate"), Str("kHz"), Num(0.001)],
    "amp.gain" := [Str("Amplifier Gain"), Str("Gain"), Str("%"), Num(1.0)],
    "min()" := [Str("Minimum Amplitude"), Str("max()"), Str("mV"), Num(1000.0)],
    "max()" := [Str("Maximum Amplitude"), Str("min(), mV"), Num(1000.0)],
    "integral()" := [Str("Pulse Integral"), Str("integral()"), Str("arb"), Num(1000000000.0)]
  ]

  /** `getMeta(key)` as written: a key without an entry describes itself. */
  function GetMetaAsWritten(key: string): (r: seq<Value>)
    ensures key !in META_AS_WRITTEN ==> r == [Str(key), Str(key), Str("na"), Num(1.0)]
    ensures key in META_AS_WRITTEN ==> r == META_AS_WRITTEN[key]
  {
    if key !in META_AS_WRITTEN then [Str(key), Str(key), Str("na"), Num(1.0)]
    else META_AS_WRITTEN[key]
  }

  /** Unpacking a metadata tuple into four names, as `transform`, `label`
      and `legend` do: any other number of fields raises `ValueError`. */
  function Unpack(t: seq<Value>): (r: Result<MetaEntry>)
    ensures |t| != 4 ==> r == Err(ValueError)
    ensures r.Ok? ==> t == [Str(r.value.name), Str(r.value.short), Str(r.value.unit), Num(r.value.factor)]
  {
    if |t| != 4 then Err(ValueError)
    else if t[0].Str? && t[1].Str? && t[2].Str? && t[3].Num? then
      Ok(MetaEntry(t[0].s, t[1].s, t[2].s, t[3].r))
    else Err(TypeError)
  }

  /** The `max()` tuple cannot be unpacked, so a plot of `max()` fails as
      soon as it asks for its label, legend or scale factor. */
  lemma MaxMetaUnpackFails()
    ensures |GetMetaAsWritten(PLOT_MAX)| == 3
    ensures Unpack(GetMetaAsWritten(PLOT_MAX)) == Err(ValueError)
  {
  }

  /** `META` with the comma restored in the `max()` entry. */
  const META: map<string, MetaEntry> := map[
    "stage.x" := MetaEntry("x-Position", "x", "mm", 1.0),
    "stage.y" := MetaEntry("y-Position", "y", "mm", 1.0),
    "stage.focus" := MetaEntry("Focus", "Focus", "mm", 1.0),
    "bias.hv" := MetaEntry("Bias-Voltage", "HV", "V", 1.0),
    "bias.current" := MetaEntry("Bias-Current", "Leakage", "uA", 1000000.0),
    "laser.dac" := MetaEntry("Laser Threshold (DAC)", "DAC", "-", 1.0),
    "laser.frequency" := MetaEntry("Laser Rate", "Rate", "kHz", 0.001),
    "amp.gain" := MetaEntry("Amplifier Gain", "Gain", "%", 1.0),
    "min()" := MetaEntry("Minimum Amplitude", "max()", "mV", 1000.0),
    "max()" := MetaEntry("Maximum Amplitude", "min()", "mV", 1000.0),
    "integral()" := MetaEntry("Pulse Integral", "integral()", "arb", 1000000000.0)
  ]

  /** `getMeta(key)` with the table corrected. */
  function GetMeta(key: string): MetaEntry {
    if key !in META then MetaEntry(key, key, "na", 1.0) else META[key]
  }

  /** The corrected table differs from the written one only at `max()`:
      every other key unpacks to the same entry, and `max()` now unpacks
      too, with the two joined strings split apart again. */
  lemma GetMetaCorrected(key: string)
    ensures key != PLOT_MAX ==> Unpack(GetMetaAsWritten(key)) == Ok(GetMeta(key))
    ensures GetMeta(PLOT_MAX).short + ", " + GetMeta(PLOT_MAX).unit == GetMetaAsWritten(PLOT_MAX)[1].s
    ensures GetMeta(PLOT_MAX).name == GetMetaAsWritten(PLOT_MAX)[0].s
    ensures GetMeta(PLOT_MAX).factor == GetMetaAsWritten(PLOT_MAX)[2].r
    ensures |GetMetaAsWritten(key)| == 4 ==> Unpack(GetMetaAsWritten(key)).Ok?
  {
  }

  // ---------------------------------------------------------------------
  // Construction.
  // ---------------------------------------------------------------------

  /** `mapKey(key)`: a configuration key is turned into its state key;
      anything else is kept. A list or dictionary is not hashable, so the
      membership test raises. */
  function MapKey(key: Value): (r: Result<Value>)
    ensures key.Str? && key.s in Definition.KEY_MAP ==> r == Ok(Str(Definition.KEY_MAP[key.s]))
    ensures key.Str? && key.s !in Definition.KEY_MAP ==> r == Ok(key)
    ensures (key.List? || key.Dict?) <==> r == Err(TypeError)
    ensures !key.Str? && !key.List? && !key.Dict? ==> r == Ok(key)
  {
    match key
    case Str(s) => if s in Definition.KEY_MAP then Ok(Str(Definition.KEY_MAP[s])) else Ok(key)
    case List(_) => Err(TypeError)
    case Dict(_) => Err(TypeError)
    case _ => Ok(key)
  }

  /** The mapped group keys, or the first error. */
  function MapAll(groups: seq<Value>): (r: Result<seq<Value>>)
    ensures r.Ok? <==> forall i :: 0 <= i < |groups| ==> MapKey(groups[i]).Ok?
    ensures r.Ok? ==> |r.value| == |groups|
    ensures r.Ok? ==> forall i :: 0 <= i < |groups| ==> MapKey(groups[i]) == Ok(r.value[i])
    ensures r.Err? ==> r == Err(TypeError)
    decreases |groups|
  {
    if groups == [] then Ok([])
    else
      var n := |groups| - 1;
      var before :- MapAll(groups[..n]);
      var last :- MapKey(groups[n]);
      assert forall i :: 0 <= i < n ==> groups[..n][i] == groups[i];
      Ok(before + [last])
  }

  /** A constructed analysis. `y` is only set for a 3D analysis, and a
      `fit` of `Null` stands for `None`. */
  datatype Analysis = Analysis(
    x: Value, y: Option<Value>, kind: string, plot: Value, group: seq<Value>, fit: Value)

  /** `AnalysisDefinition(definition)`. */
  function AnalysisOf(definition: Value): Result<Analysis> {
    if !definition.Dict? then Err(TypeError)
    else
      var d := definition.entries;
      var xk :- Item(d, "x");
      var x :- MapKey(xk);
      var y :- if HasKey(d, "y") then
                 var yk := Get(d, "y").value;
                 var y :- MapKey(yk);
                 Ok(Some(y))
               else Ok(None);
      var plotk :- Item(d, "plot");
      var plot :- MapKey(plotk);
      var group :- if HasKey(d, "group") then MapAll(AsList(Get(d, "group").value)) else Ok([]);
      Ok(Analysis(x, y, if y.Some? then TYPE_3D else TYPE_2D, plot, group,
                  if HasKey(d, "fit") then Get(d, "fit").value else Null))
  }

  /** What a constructed analysis holds: 3D exactly when `y` is given, the
      axes and the plotted key mapped, the groups mapped one by one in
      order (none when absent, one for a scalar), and `fit` only when
      given. */
  lemma AnalysisFields(definition: Value)
    requires AnalysisOf(definition).Ok?
    ensures definition.Dict?
    ensures var d := definition.entries; var a := AnalysisOf(definition).value;
      (a.kind == TYPE_3D <==> HasKey(d, "y")) &&
      (a.kind == TYPE_2D <==> !HasKey(d, "y")) &&
      (a.y.Some? <==> HasKey(d, "y")) &&
      (a.y.Some? ==> MapKey(Get(d, "y").value) == Ok(a.y.value)) &&
      HasKey(d, "x") && MapKey(Get(d, "x").value) == Ok(a.x) &&
      HasKey(d, "plot") && MapKey(Get(d, "plot").value) == Ok(a.plot) &&
      (!HasKey(d, "group") ==> a.group == []) &&
      (HasKey(d, "group") ==>
         var gs := AsList(Get(d, "group").value);
         |a.group| == |gs| && forall i :: 0 <= i < |gs| ==> MapKey(gs[i]) == Ok(a.group[i])) &&
      (a.fit != Null ==> HasKey(d, "fit") && Get(d, "fit") == Some(a.fit))
  {
  }

  /** Construction fails on a missing axis or plot key, and on an
      unhashable key. */
  lemma AnalysisErrors(definition: Value)
    ensures !definition.Dict? ==> AnalysisOf(definition) == Err(TypeError)
    ensures definition.Dict? && !HasKey(definition.entries, "x") ==> AnalysisOf(definition) == Err(KeyError)
    ensures AnalysisOf(definition).Err? ==> AnalysisOf(definition).error in {TypeError, KeyError}
  {
  }

  /** `__init__`: the fields are assigned in order and `group` is built
      with an append loop. */
  method NewAnalysis(definition: Value) returns (r: Result<Analysis>)
    ensures r == AnalysisOf(definition)
  {
    if !definition.Dict? {
      return Err(TypeError);
    }
    var d := definition.entries;
    var xk := Item(d, "x");
    if xk.Err? {
      return Err(xk.error);
    }
    var x := MapKey(xk.value);
    if x.Err? {
      return Err(x.error);
    }
    var y: Option<Value> := None;
    var kind := TYPE_2D;
    if HasKey(d, "y") {
      var yv := MapKey(Get(d, "y").value);
      if yv.Err? {
        return Err(yv.error);
      }
      y, kind := Some(yv.value), TYPE_3D;
    }
    var plotk := Item(d, "plot");
    if plotk.Err? {
      return Err(plotk.error);
    }
    var plot := MapKey(plotk.value);
    if plot.Err? {
      return Err(plot.error);
    }
    var group: seq<Value> := [];
    if HasKey(d, "group") {
      var g := MapGroups(AsList(Get(d, "group").value));
      if g.Err? {
        return Err(g.error);
      }
      group := g.value;
    }
    var fit := Null;
    if HasKey(d, "fit") {
      fit := Get(d, "fit").value;
    }
    return Ok(Analysis(x.value, y, kind, plot.value, group, fit));
  }

  /** The append loop over the groups: each key mapped in turn, the first
      unmappable one failing the whole loop. */
  method MapGroups(groups: seq<Value>) returns (r: Result<seq<Value>>)
    ensures r == MapAll(groups)
  {
    var group: seq<Value> := [];
    var i := 0;
    while i < |groups|
      invariant 0 <= i <= |groups|
      invariant MapAll(groups[..i]) == Ok(group)
    {
      assert groups[..i + 1][..i] == groups[..i];
      assert groups[..i + 1][i] == groups[i];
      var g := MapKey(groups[i]);
      if g.Err? {
        MapAllFails(groups, i);
        return Err(g.error);
      }
      group := group + [g.value];
      i := i + 1;
    }
    assert groups[..i] == groups;
    return Ok(group);
  }

  /** A group key that cannot be mapped fails the whole group. */
  lemma MapAllFails(groups: seq<Value>, i: nat)
    requires i < |groups| && MapKey(groups[i]).Err?
    ensures MapAll(groups).Err?
  {
  }

  // ---------------------------------------------------------------------
  // Name and title.
  // ---------------------------------------------------------------------

  /** An f-string field: a string as it is, any other value through `show`
      (Python's `str`). */
  function Format(v: Value, show: Value -> string): string {
    if v.Str? then v.s else show(v)
  }

  /** `'-'.join(group)`: every group must be a string. */
  function JoinGroups(group: seq<Value>): (r: Result<string>)
    ensures r.Ok? <==> forall i :: 0 <= i < |group| ==> group[i].Str?
    ensures r.Err? ==> r.error == TypeError
  {
    if forall i :: 0 <= i < |group| ==> group[i].Str? then
      Ok(Join("-", seq(|group|, i requires 0 <= i < |group| && group[i].Str? => group[i].s)))
    else Err(TypeError)
  }

  /** `name()`: the group list is joined first, so a non-string group fails
      even for a 3D analysis; a 3D analysis without `y` has no attribute. */
  function Name(a: Analysis, show: Value -> string): (r: Result<string>)
    ensures !(forall i :: 0 <= i < |a.group| ==> a.group[i].Str?) ==> r == Err(TypeError)
    ensures (forall i :: 0 <= i < |a.group| ==> a.group[i].Str?) && a.kind == TYPE_3D && a.y.None? ==> r == Err(AttributeError)
    ensures r.Ok? <==> (forall i :: 0 <= i < |a.group| ==> a.group[i].Str?) && (a.kind == TYPE_3D ==> a.y.Some?)
  {
    var groups :- JoinGroups(a.group);
    var fit := if a.fit == Null then "None" else Format(a.fit, show);
    if a.kind == TYPE_3D then
      if a.y.None? then Err(AttributeError)
      else Ok("Plot3D_" + (Format(a.x, show) + "-" + Format(a.y.value, show) + "VS" + Format(a.plot, show)))
    else Ok("Plot2D_" + (Format(a.x, show) + "VS" + Format(a.plot, show) + "[" + groups + "]") + ("_" + fit))
  }

  lemma PrefixOfConcat(p: string, rest: string)
    ensures StartsWith(p + rest, p)
  {
    assert (p + rest)[..|p|] == p;
  }

  lemma SuffixOfConcat(rest: string, q: string)
    ensures EndsWith(rest + q, q)
  {
    assert (rest + q)[|rest + q| - |q|..] == q;
  }

  /** The name tells an analysis' kind: `Plot3D_` for 3D and `Plot2D_`
      otherwise; it exists exactly when every group is a string (and a 3D
      analysis has its `y`, as constructed ones do); and a 2D name ends
      with the fit, `None` when there is none. */
  lemma NameKind(a: Analysis, show: Value -> string)
    requires a.kind == TYPE_3D ==> a.y.Some?
    ensures var r := Name(a, show);
      (r.Ok? <==> forall i :: 0 <= i < |a.group| ==> a.group[i].Str?) &&
      (r.Ok? && a.kind == TYPE_3D ==> StartsWith(r.value, "Plot3D_")) &&
      (r.Ok? && a.kind != TYPE_3D ==> StartsWith(r.value, "Plot2D_")) &&
      (r.Ok? && a.kind != TYPE_3D ==>
         EndsWith(r.value, "_" + (if a.fit == Null then "None" else Format(a.fit, show))))
  {
    var r := Name(a, show);
    if r.Ok? {
      var fit := if a.fit == Null then "None" else Format(a.fit, show);
      if a.kind == TYPE_3D {
        PrefixOfConcat("Plot3D_", Format(a.x, show) + "-" + Format(a.y.value, show) + "VS" + Format(a.plot, show));
      } else {
        var mid := Format(a.x, show) + "VS" + Format(a.plot, show) + "[" + JoinGroups(a.group).value + "]";
        PrefixOfConcat("Plot2D_", mid + ("_" + fit));
        assert "Plot2D_" + mid + ("_" + fit) == "Plot2D_" + (mid + ("_" + fit));
        SuffixOfConcat("Plot2D_" + mid, "_" + fit);
      }
    }
  }

  /** `title()`. */
  function Title(a: Analysis, show: Value -> string): (r: Result<string>)
    ensures r.Err? <==> a.kind == TYPE_3D && a.y.None?
    ensures r.Err? ==> r.error == AttributeError
  {
    var head := Format(a.plot, show) + " in function of " + Format(a.x, show);
    if a.kind == TYPE_3D then
      if a.y.None? then Err(AttributeError) else Ok(head + " and " + Format(a.y.value, show))
    else Ok(head)
  }

  /** Every title reads `plot in function of x`; a 3D title adds ` and y`. */
  lemma TitleShape(a: Analysis, show: Value -> string)
    requires a.kind == TYPE_3D ==> a.y.Some?
    ensures var r := Title(a, show);
      var head := Format(a.plot, show) + " in function of " + Format(a.x, show);
      r.Ok? && StartsWith(r.value, head) &&
      (a.kind != TYPE_3D ==> r.value == head) &&
      (a.kind == TYPE_3D ==> r.value[|head|..] == " and " + Format(a.y.value, show))
  {
    var head := Format(a.plot, show) + " in function of " + Format(a.x, show);
    if a.kind == TYPE_3D {
      var t := head + " and " + Format(a.y.value, show);
      assert t[..|head|] == head;
      assert t[|head|..] == " and " + Format(a.y.value, show);
    }
  }
}
