/** A scan file: the sweep definition of a measurement (the `scan` list,
    whose value strings `lin(a,b,n)`, `log(a,b,n)` and `range(a,b,s)` are
    expanded), and the `meta`, `limits`, `setup` and `end` sections. */
module ScanFile {
  import opened Wrappers
  import opened Values
  import opened Text
  import Numeric
  import Definition
  import opened ConfigFile
  import Scan

  /** The keys every `meta` section must give, in order. */
  const META_KEYS: seq<string> :=
    ["name", "description", "operator", "laser", "aperture", "sample", "wafer", "side"]

  // ---------------------------------------------------------------------
  // The patterns LIN_REG, LOG_REG and RANGE_REG:
  //   ^\s*NAME\(\s*TOKEN\s*,\s*TOKEN\s*,\s*TOKEN\s*\)\s*$
  // with TOKEN = [+\-0-9Ee.]+ .
  // ---------------------------------------------------------------------

  predicate IsTokenChar(c: char) {
    c == '+' || c == '-' || ('0' <= c <= '9') || c == 'E' || c == 'e' || c == '.'
  }

  predicate IsToken(t: string) {
    |t| > 0 && forall i :: 0 <= i < |t| ==> IsTokenChar(t[i])
  }

  /** `s` without its leading spaces (what `\s*` consumes). */
  function SkipSpace(s: string): (r: string)
    ensures |r| <= |s|
  {
    if |s| > 0 && IsSpace(s[0]) then SkipSpace(s[1..]) else s
  }

  /** Length of the longest prefix of token characters. A token is followed
      by a space, a comma or a parenthesis, none of which is a token
      character, so the greedy match of the pattern ends exactly here. */
  function TokenLength(s: string): (n: nat)
    ensures n <= |s|
  {
    if |s| > 0 && IsTokenChar(s[0]) then 1 + TokenLength(s[1..]) else 0
  }

  /** `\s*(TOKEN)\s*` followed by `sep`: the token and the text after `sep`. */
  function Argument(s: string, sep: char): (r: Option<(string, string)>) {
    var t := SkipSpace(s);
    var n := TokenLength(t);
    var u := SkipSpace(t[n..]);
    if n > 0 && |u| > 0 && u[0] == sep then Some((t[..n], u[1..])) else None
  }

  /** `re.search` of the pattern for `name` in `s`: the three tokens. */
  function MatchCall(name: string, s: string): (r: Option<(string, string, string)>) {
    var t := SkipSpace(s);
    if !StartsWith(t, name + "(") then None
    else
      var a :- Argument(t[|name| + 1..], ',');
      var b :- Argument(a.1, ',');
      var c :- Argument(b.1, ')');
      if SkipSpace(c.1) == [] then Some((a.0, b.0, c.0)) else None
  }

  /** The canonical spelling `name(a,b,c)` of a pattern call. */
  function Render(name: string, toks: (string, string, string)): string {
    name + "(" + (toks.0 + [','] + (toks.1 + [','] + (toks.2 + [')'])))
  }

  lemma {:induction false} TokenLengthOf(tok: string, rest: string)
    requires forall i :: 0 <= i < |tok| ==> IsTokenChar(tok[i])
    requires rest == [] || !IsTokenChar(rest[0])
    ensures TokenLength(tok + rest) == |tok|
    decreases |tok|
  {
    if tok != [] {
      assert (tok + rest)[1..] == tok[1..] + rest;
      TokenLengthOf(tok[1..], rest);
    } else {
      assert tok + rest == rest;
    }
  }

  lemma {:induction false} TokenPrefix(s: string)
    ensures forall i :: 0 <= i < TokenLength(s) ==> IsTokenChar(s[i])
    decreases |s|
  {
    if |s| > 0 && IsTokenChar(s[0]) {
      TokenPrefix(s[1..]);
    }
  }

  /** What the patterns capture are tokens: non-empty runs of `+-0-9Ee.`. */
  lemma MatchTokens(name: string, s: string)
    ensures MatchCall(name, s).Some? ==>
      IsToken(MatchCall(name, s).value.0) && IsToken(MatchCall(name, s).value.1) &&
      IsToken(MatchCall(name, s).value.2)
  {
    var t := SkipSpace(s);
    if StartsWith(t, name + "(") {
      ArgumentToken(t[|name| + 1..], ',');
      var a := Argument(t[|name| + 1..], ',');
      if a.Some? {
        ArgumentToken(a.value.1, ',');
        var b := Argument(a.value.1, ',');
        if b.Some? {
          ArgumentToken(b.value.1, ')');
        }
      }
    }
  }

  lemma ArgumentToken(s: string, sep: char)
    ensures Argument(s, sep).Some? ==> IsToken(Argument(s, sep).value.0)
  {
    TokenPrefix(SkipSpace(s));
  }

  /** A token followed by `sep` is read back as that token. */
  lemma ArgumentOfToken(tok: string, sep: char, rest: string)
    requires IsToken(tok) && !IsTokenChar(sep) && !IsSpace(sep)
    ensures Argument(tok + [sep] + rest, sep) == Some((tok, rest))
  {
    var s := tok + [sep] + rest;
    assert s[0] == tok[0];
    assert SkipSpace(s) == s;
    assert s == tok + ([sep] + rest);
    TokenLengthOf(tok, [sep] + rest);
    assert s[|tok|..] == [sep] + rest;
    assert SkipSpace([sep] + rest) == [sep] + rest;
    assert s[..|tok|] == tok;
    assert ([sep] + rest)[1..] == rest;
  }

  /** The canonical spelling starts with `name`, with no space before it. */
  lemma RenderStart(name: string, toks: (string, string, string))
    requires name != [] && !IsSpace(name[0])
    ensures var s := Render(name, toks); SkipSpace(s) == s && s[0] == name[0]
  {
  }

  /** A string that starts with another letter than `name` matches no call of it. */
  lemma NoMatch(name: string, s: string)
    requires name != [] && s != [] && SkipSpace(s) == s && s[0] != name[0]
    ensures MatchCall(name, s) == None
  {
    assert (name + "(")[0] == name[0];
  }

  /** The patterns read the canonical spelling of a call back: for a name
      that does not start with a space, `MatchCall(name, Render(name, t))`
      gives the tokens `t`. */
  lemma MatchRender(name: string, toks: (string, string, string))
    requires IsToken(toks.0) && IsToken(toks.1) && IsToken(toks.2)
    requires name == [] || !IsSpace(name[0])
    ensures MatchCall(name, Render(name, toks)) == Some(toks)
  {
    var (t0, t1, t2) := toks;
    var r2 := t2 + [')'];
    var r1 := t1 + [','] + r2;
    var r0 := t0 + [','] + r1;
    var s := Render(name, toks);
    assert s == name + "(" + r0;
    assert SkipSpace(s) == s by {
      if name != [] {
        assert s[0] == name[0];
      } else {
        assert s[0] == '(';
      }
    }
    assert s[..|name + "("|] == name + "(";
    assert s[|name| + 1..] == r0;
    ArgumentOfToken(t0, ',', r1);
    ArgumentOfToken(t1, ',', r2);
    assert r2 == t2 + [')'] + [];
    ArgumentOfToken(t2, ')', []);
  }

  // ---------------------------------------------------------------------
  // Expanding the value definitions of one scan line.
  // ---------------------------------------------------------------------

  /** `np.geomspace(a, b, n)`, which needs logarithms and powers. */
  type Geomspace = (real, real, int) -> Result<seq<real>>

  /** `float(token)`: a token without a real value raises `ValueError`. */
  function FloatOf(t: string): (r: Result<real>)
    ensures r.Ok? <==> ParseFloat(t).Some?
    ensures r.Ok? ==> r.value == ParseFloat(t).value
  {
    match ParseFloat(t)
    case Some(x) => Ok(x)
    case None => Err(ValueError)
  }

  /** numpy values entering the list of scan values. */
  function Nums(xs: seq<real>): (r: seq<Value>)
    ensures |r| == |xs| && forall i :: 0 <= i < |xs| ==> r[i] == Num(xs[i])
  {
    seq(|xs|, i requires 0 <= i < |xs| => Num(xs[i]))
  }

  /** The values one definition string stands for; a string matching none
      of the three patterns raises. */
  function Generate(s: string, geom: Geomspace): Result<seq<Value>> {
    match MatchCall("lin", s)
    case Some(t) =>
      var a :- FloatOf(t.0);
      var b :- FloatOf(t.1);
      var n :- ParseInt(t.2);
      var xs :- Numeric.Linspace(a, b, n);
      Ok(Nums(xs))
    case None =>
      match MatchCall("log", s)
      case Some(t) =>
        var a :- FloatOf(t.0);
        var b :- FloatOf(t.1);
        var n :- ParseInt(t.2);
        var xs :- geom(a, b, n);
        Ok(Nums(xs))
      case None =>
        match MatchCall("range", s)
        case Some(t) =>
          var a :- FloatOf(t.0);
          var b :- FloatOf(t.1);
          var st :- FloatOf(t.2);
          var xs :- Numeric.Arange(a, b, st);
          Ok(Nums(xs))
        case None => Err(Raised(""))
  }

  /** The canonical `lin(a,b,n)` string contributes the `n` evenly spaced
      values from `a` to `b`. */
  lemma GenerateLin(toks: (string, string, string), geom: Geomspace, a: real, b: real, n: nat)
    requires IsToken(toks.0) && IsToken(toks.1) && IsToken(toks.2)
    requires ParseFloat(toks.0) == Some(a) && ParseFloat(toks.1) == Some(b)
    requires ParseInt(toks.2) == Ok(n)
    ensures Generate(Render("lin", toks), geom) == Ok(Nums(Numeric.Linspace(a, b, n).value))
  {
    MatchRender("lin", toks);
  }

  /** The canonical `range(a,b,s)` string with a non-zero step contributes
      `np.arange(a, b, s)`; with a zero step it raises. */
  lemma GenerateRange(toks: (string, string, string), geom: Geomspace, a: real, b: real, s: real)
    requires IsToken(toks.0) && IsToken(toks.1) && IsToken(toks.2)
    requires ParseFloat(toks.0) == Some(a) && ParseFloat(toks.1) == Some(b)
    requires ParseFloat(toks.2) == Some(s)
    ensures s != 0.0 ==> Generate(Render("range", toks), geom) == Ok(Nums(Numeric.Arange(a, b, s).value))
    ensures s == 0.0 ==> Generate(Render("range", toks), geom).Err?
  {
    MatchRender("range", toks);
    var str := Render("range", toks);
    RenderStart("range", toks);
    NoMatch("lin", str);
    NoMatch("log", str);
  }

  /** What a definition string stands for. */
  type Generator = string -> Result<seq<Value>>

  /** The generator of `_parseScanValues`: the three patterns. */
  function Patterns(geom: Geomspace): Generator {
    s => Generate(s, geom)
  }

  /** What `_parseScanValues(definition)` accumulates: nested lists are
      flattened depth-first, strings are expanded, any other value is kept. */
  function Expand(definition: seq<Value>, gen: Generator): Result<seq<Value>>
    decreases definition
  {
    if definition == [] then Ok([])
    else
      var n := |definition| - 1;
      var before :- Expand(definition[..n], gen);
      match definition[n]
      case List(items) =>
        var more :- Expand(items, gen);
        Ok(before + more)
      case _ =>
        var more :- Scalar(definition[n], gen);
        Ok(before + more)
  }

  /** What one entry that is not a list contributes: a string is expanded,
      any other value is kept. */
  function Scalar(v: Value, gen: Generator): (r: Result<seq<Value>>)
    ensures !v.Str? ==> r == Ok([v])
  {
    if v.Str? then gen(v.s) else Ok([v])
  }

  /** `_parseScanValues(definition, values)`: the expansion is appended to
      the shared accumulator `values`, and an error ends the whole parse. */
  method ParseScanValues(definition: seq<Value>, values: seq<Value>, geom: Geomspace)
    returns (r: Result<seq<Value>>)
    ensures Expand(definition, Patterns(geom)).Ok? ==> r == Ok(values + Expand(definition, Patterns(geom)).value)
    ensures Expand(definition, Patterns(geom)).Err? ==> r == Err(Expand(definition, Patterns(geom)).error)
    decreases definition
  {
    var acc := values;
    var i := 0;
    while i < |definition|
      invariant 0 <= i <= |definition|
      invariant Expand(definition[..i], Patterns(geom)).Ok?
      invariant acc == values + Expand(definition[..i], Patterns(geom)).value
    {
      ExpandSnoc(definition, i, Patterns(geom));
      ghost var done := Expand(definition[..i], Patterns(geom)).value;
      var entry := definition[i];
      var more: Result<seq<Value>>;
      match entry {
        case Str(s) =>
          more := Generate(s, geom);
          assert Scalar(entry, Patterns(geom)) == more;
          if more.Err? {
            ExpandErrorStops(definition, i + 1, Patterns(geom));
            return Err(more.error);
          }
          acc := acc + more.value;
        case List(items) =>
          var inner := ParseScanValues(items, acc, geom);
          if inner.Err? {
            ExpandErrorStops(definition, i + 1, Patterns(geom));
            return inner;
          }
          more := Expand(items, Patterns(geom));
          acc := inner.value;
        case _ =>
          more := Ok([entry]);
          acc := acc + [entry];
      }
      Assoc(values, done, more.value);
      i := i + 1;
    }
    assert definition[..i] == definition;
    return Ok(acc);
  }

  lemma Assoc(a: seq<Value>, b: seq<Value>, c: seq<Value>)
    ensures (a + b) + c == a + (b + c)
  {
  }

  /** Expanding one more entry: its contribution is appended, or its error
      is the error of the whole prefix. */
  lemma ExpandSnoc(d: seq<Value>, i: nat, gen: Generator)
    requires i < |d| && Expand(d[..i], gen).Ok?
    ensures var more := if d[i].List? then Expand(d[i].items, gen) else Scalar(d[i], gen);
      (more.Err? ==> Expand(d[..i + 1], gen) == Err(more.error)) &&
      (more.Ok? ==> Expand(d[..i + 1], gen) == Ok(Expand(d[..i], gen).value + more.value))
  {
    assert d[..i + 1][..i] == d[..i];
    assert d[..i + 1][i] == d[i];
  }

  /** Once a prefix of the definition fails, the whole definition fails
      with the same error. */
  lemma {:induction false} ExpandErrorStops(definition: seq<Value>, i: nat, gen: Generator)
    requires i <= |definition| && Expand(definition[..i], gen).Err?
    ensures Expand(definition, gen) == Expand(definition[..i], gen)
    decreases |definition| - i
  {
    if i < |definition| {
      var n := |definition| - 1;
      assert definition[..n][..i] == definition[..i];
      ExpandErrorStops(definition[..n], i, gen);
      assert Expand(definition[..n], gen).Err?;
    } else {
      assert definition[..i] == definition;
    }
  }

  /** The expansion of two definitions one after the other is the
      expansion of the first followed by that of the second. */
  lemma {:induction false} ExpandAppend(d1: seq<Value>, d2: seq<Value>, gen: Generator)
    requires Expand(d1, gen).Ok? && Expand(d2, gen).Ok?
    ensures Expand(d1 + d2, gen) == Ok(Expand(d1, gen).value + Expand(d2, gen).value)
    decreases |d2|
  {
    if d2 == [] {
      assert d1 + d2 == d1;
      assert Expand(d1, gen).value + [] == Expand(d1, gen).value;
    } else {
      var n := |d2| - 1;
      var d := d1 + d2;
      assert d[..|d| - 1] == d1 + d2[..n];
      assert d[|d| - 1] == d2[n];
      ExpandAppend(d1, d2[..n], gen);
      var e1, e2 := Expand(d1, gen).value, Expand(d2[..n], gen).value;
      var more := if d2[n].List? then Expand(d2[n].items, gen) else Scalar(d2[n], gen);
      assert more.Ok?;
      assert Expand(d2, gen).value == e2 + more.value;
      assert Expand(d, gen).value == (e1 + e2) + more.value;
      assert (e1 + e2) + more.value == e1 + (e2 + more.value);
    }
  }

  /** A definition made only of scalars (no string, no list) is kept as it is. */
  lemma {:induction false} ExpandScalars(definition: seq<Value>, gen: Generator)
    requires forall i :: 0 <= i < |definition| ==> !definition[i].Str? && !definition[i].List?
    ensures Expand(definition, gen) == Ok(definition)
    decreases |definition|
  {
    if definition != [] {
      var n := |definition| - 1;
      ExpandScalars(definition[..n], gen);
      assert definition[..n] + [definition[n]] == definition;
    }
  }

  // ---------------------------------------------------------------------
  // The scan section: one parameter per line.
  // ---------------------------------------------------------------------

  /** A parameter as one scan line defines it. */
  datatype Param = Param(name: string, values: seq<Value>, manual: bool)

  const MANUAL_PREFIX: string := "manual-"

  /** The parameter name of a line key and whether it is iterated by hand:
      `manual-` keys are kept as they are, any other key is translated. */
  function ParamName(key: string): (r: Result<(string, bool)>)
    ensures StartsWith(key, MANUAL_PREFIX) ==> r == Ok((key, true))
    ensures !StartsWith(key, MANUAL_PREFIX) ==>
      (r.Ok? <==> key in Definition.KEY_MAP) &&
      (r.Ok? ==> r.value == (Definition.KEY_MAP[key], false))
  {
    if StartsWith(key, MANUAL_PREFIX) then Ok((key, true))
    else
      var name :- Translate(key, true);
      Ok((name, false))
  }

  /** What one scan line defines: its first key names the parameter and
      that key's value gives the values. A line that is not a mapping has
      no `keys()`, and an empty one has no first key. */
  function LineParam(line: Value, gen: Generator): Result<Param> {
    if !line.Dict? then Err(AttributeError)
    else if line.entries == [] then Err(IndexError)
    else
      var nm :- ParamName(line.entries[0].0);
      var vals :- Expand(AsList(line.entries[0].1), gen);
      Ok(Param(nm.0, vals, nm.1))
  }

  function Names(ps: seq<Param>): (r: seq<string>)
    ensures |r| == |ps| && forall i :: 0 <= i < |ps| ==> r[i] == ps[i].name
  {
    seq(|ps|, i requires 0 <= i < |ps| => ps[i].name)
  }

  /** `addParameter` accepts a new name with at least one value. */
  predicate Accepts(ps: seq<Param>, p: Param) {
    p.name !in Names(ps) && |p.values| >= 1
  }

  /** The error any failure inside a scan line turns into; `show` is
      Python's `str` of the line. */
  function EntryError(line: Value, show: Value -> string): Error {
    ConfigError(Some("Error while parsing scan entry [" + show(line) + "]"))
  }

  /** How one scan line is read into a parameter. */
  type LineReader = Value -> Result<Param>

  /** The reader of `getScan`. */
  function Lines(gen: Generator): LineReader {
    line => LineParam(line, gen)
  }

  /** The parameters the lines add, or the error of the first line that
      fails. */
  function ScanLines(lines: seq<Value>, read: LineReader, show: Value -> string): Result<seq<Param>>
    decreases |lines|
  {
    if lines == [] then Ok([])
    else
      var n := |lines| - 1;
      var before :- ScanLines(lines[..n], read, show);
      var p := read(lines[n]);
      if p.Ok? && Accepts(before, p.value) then Ok(before + [p.value])
      else Err(EntryError(lines[n], show))
  }

  /** `getScan()`: the parameters of the `scan` list. */
  function ScanSpec(cfg: Config, read: LineReader, show: Value -> string): Result<seq<Param>> {
    var data :- Walk(cfg.data, [], ["scan"], true);
    if !data.List? then Err(ConfigError(Some("[scan] needs to be a list of parameter with values!")))
    else ScanLines(data.items, read, show)
  }

  /** Each line adds exactly the parameter it defines, in line order; the
      names are distinct and every parameter has a value. */
  lemma {:induction false} ScanLinesParams(lines: seq<Value>, read: LineReader, show: Value -> string)
    requires ScanLines(lines, read, show).Ok?
    ensures var ps := ScanLines(lines, read, show).value;
      |ps| == |lines| &&
      Scan.Distinct(Names(ps)) &&
      forall i :: 0 <= i < |lines| ==> read(lines[i]) == Ok(ps[i]) && |ps[i].values| >= 1
    decreases |lines|
  {
    if lines != [] {
      var n := |lines| - 1;
      ScanLinesParams(lines[..n], read, show);
      var before := ScanLines(lines[..n], read, show).value;
      var ps := ScanLines(lines, read, show).value;
      assert ps == before + [read(lines[n]).value];
      assert Names(ps) == Names(before) + [ps[n].name];
      forall i | 0 <= i < |lines|
        ensures read(lines[i]) == Ok(ps[i]) && |ps[i].values| >= 1
      {
        if i < n {
          assert lines[..n][i] == lines[i];
        }
      }
    }
  }

  /** A scan fails only with a configuration error or a lookup error of
      the `scan` key itself. */
  lemma {:induction false} ScanLinesError(lines: seq<Value>, read: LineReader, show: Value -> string)
    requires ScanLines(lines, read, show).Err?
    ensures exists i :: 0 <= i < |lines| && ScanLines(lines, read, show).error == EntryError(lines[i], show)
    decreases |lines|
  {
    var n := |lines| - 1;
    if ScanLines(lines[..n], read, show).Err? {
      ScanLinesError(lines[..n], read, show);
      var i :| 0 <= i < n && ScanLines(lines[..n], read, show).error == EntryError(lines[..n][i], show);
      assert lines[..n][i] == lines[i];
    } else {
      assert ScanLines(lines, read, show).error == EntryError(lines[n], show);
    }
  }

  /** For the lines of a scan: a line fails when, and only when, it defines
      no parameter, repeats an earlier name or gives no value. */
  lemma {:induction false} ScanLinesOk(lines: seq<Value>, read: LineReader, show: Value -> string)
    ensures ScanLines(lines, read, show).Ok? <==>
      (forall i :: 0 <= i < |lines| ==> read(lines[i]).Ok? && |read(lines[i]).value.values| >= 1) &&
      (forall i, j :: 0 <= i < j < |lines| ==> read(lines[i]).value.name != read(lines[j]).value.name)
    decreases |lines|
  {
    if lines != [] {
      var n := |lines| - 1;
      ScanLinesOk(lines[..n], read, show);
      forall i | 0 <= i < n ensures lines[..n][i] == lines[i] { }
      if ScanLines(lines[..n], read, show).Ok? {
        ScanLinesParams(lines[..n], read, show);
        var before := ScanLines(lines[..n], read, show).value;
        if read(lines[n]).Ok? && read(lines[n]).value.name in Names(before) {
          var i :| 0 <= i < n && Names(before)[i] == read(lines[n]).value.name;
          assert read(lines[i]).value.name == read(lines[n]).value.name;
        }
      }
    }
  }

  /** The names of the parameters a line can add: `manual-` keys as they
      are and flagged manual, other keys through `KEY_MAP`, not manual. */
  lemma LineParamName(line: Value, gen: Generator)
    requires LineParam(line, gen).Ok?
    ensures line.Dict? && line.entries != []
    ensures var key := line.entries[0].0; var p := LineParam(line, gen).value;
      (StartsWith(key, MANUAL_PREFIX) ==> p.name == key && p.manual) &&
      (!StartsWith(key, MANUAL_PREFIX) ==> key in Definition.KEY_MAP && p.name == Definition.KEY_MAP[key] && !p.manual)
    ensures LineParam(line, gen).value.values == Expand(AsList(line.entries[0].1), gen).value
  {
  }

  /** A line whose value is a single number, boolean or `None` defines a
      parameter with exactly that one value. */
  lemma LineParamScalar(key: string, v: Value, gen: Generator)
    requires !v.Str? && !v.List? && !v.Dict?
    requires StartsWith(key, MANUAL_PREFIX) || key in Definition.KEY_MAP
    ensures LineParam(Dict([(key, v)]), gen).Ok?
    ensures LineParam(Dict([(key, v)]), gen).value.values == [v]
  {
    ExpandScalars([v], gen);
  }

  /** `getScan()`: builds a `Scan` with one parameter per line of `scan`. */
  method GetScan(cfg: Config, geom: Geomspace, show: Value -> string) returns (r: Result<Scan.Scan>)
    ensures ScanSpec(cfg, Lines(Patterns(geom)), show).Err? ==> r == Err(ScanSpec(cfg, Lines(Patterns(geom)), show).error)
    ensures ScanSpec(cfg, Lines(Patterns(geom)), show).Ok? ==>
      r.Ok? && fresh(r.value) && r.value.Valid() &&
      r.value.parameters == Names(ScanSpec(cfg, Lines(Patterns(geom)), show).value) &&
      r.value.values == ValuesOf(ScanSpec(cfg, Lines(Patterns(geom)), show).value) &&
      r.value.manual == ManualOf(ScanSpec(cfg, Lines(Patterns(geom)), show).value)
  {
    var scan := new Scan.Scan();
    var data := GetPath(cfg, Many(["scan"]), true);
    if data.Err? {
      return Err(data.error);
    }
    if !data.value.List? {
      return Err(ConfigError(Some("[scan] needs to be a list of parameter with values!")));
    }
    var lines := data.value.items;
    ghost var read := Lines(Patterns(geom));
    assert ScanSpec(cfg, read, show) == ScanLines(lines, read, show);
    var i := 0;
    while i < |lines|
      invariant 0 <= i <= |lines|
      invariant ScanLines(lines[..i], read, show).Ok?
      invariant fresh(scan) && scan.Valid()
      invariant scan.parameters == Names(ScanLines(lines[..i], read, show).value)
      invariant scan.values == ValuesOf(ScanLines(lines[..i], read, show).value)
      invariant scan.manual == ManualOf(ScanLines(lines[..i], read, show).value)
    {
      var line := lines[i];
      ScanLinesSnoc(lines, i, read, show);
      ghost var before := ScanLines(lines[..i], read, show).value;
      var p := ReadLine(line, geom);
      assert p == read(line);
      if p.Err? {
        ScanLinesErrorStops(lines, i + 1, read, show);
        return Err(EntryError(line, show));
      }
      var added := scan.AddParameter(p.value.name, p.value.values, p.value.manual);
      if added.Fail? {
        ScanLinesErrorStops(lines, i + 1, read, show);
        return Err(EntryError(line, show));
      }
      RecordSnoc(before, p.value);
      i := i + 1;
    }
    assert lines[..i] == lines;
    return Ok(scan);
  }

  /** The body of the `try` block for one line, up to `addParameter`. */
  method ReadLine(line: Value, geom: Geomspace) returns (r: Result<Param>)
    ensures r == LineParam(line, Patterns(geom))
  {
    if !line.Dict? {
      return Err(AttributeError);
    }
    if line.entries == [] {
      return Err(IndexError);
    }
    var key := line.entries[0].0;
    var definition := line.entries[0].1;
    var nm := ParamName(key);
    if nm.Err? {
      return Err(nm.error);
    }
    var vals := ParseScanValues(AsList(definition), [], geom);
    if vals.Err? {
      return Err(vals.error);
    }
    assert [] + Expand(AsList(definition), Patterns(geom)).value == Expand(AsList(definition), Patterns(geom)).value;
    return Ok(Param(nm.value.0, vals.value, nm.value.1));
  }

  /** Reading one more line of a scan whose earlier lines were accepted. */
  lemma ScanLinesSnoc(lines: seq<Value>, i: nat, read: LineReader, show: Value -> string)
    requires i < |lines| && ScanLines(lines[..i], read, show).Ok?
    ensures var before := ScanLines(lines[..i], read, show).value; var p := read(lines[i]);
      ScanLines(lines[..i + 1], read, show) ==
        if p.Ok? && Accepts(before, p.value) then Ok(before + [p.value]) else Err(EntryError(lines[i], show))
  {
    assert lines[..i + 1][..i] == lines[..i];
    assert lines[..i + 1][i] == lines[i];
  }

  /** Once a line fails, the scan fails with that line's error. */
  lemma {:induction false} ScanLinesErrorStops(lines: seq<Value>, i: nat, read: LineReader, show: Value -> string)
    requires i <= |lines| && ScanLines(lines[..i], read, show).Err?
    ensures ScanLines(lines, read, show) == ScanLines(lines[..i], read, show)
    decreases |lines| - i
  {
    if i < |lines| {
      var n := |lines| - 1;
      assert lines[..n][..i] == lines[..i];
      ScanLinesErrorStops(lines[..n], i, read, show);
    } else {
      assert lines[..i] == lines;
    }
  }

  /** Adding one parameter extends the names, the values and the flags. */
  lemma RecordSnoc(ps: seq<Param>, p: Param)
    ensures Names(ps + [p]) == Names(ps) + [p.name]
    ensures ValuesOf(ps + [p]) == ValuesOf(ps)[p.name := p.values]
    ensures ManualOf(ps + [p]) == ManualOf(ps)[p.name := p.manual]
  {
    assert (ps + [p])[..|ps|] == ps;
  }

  /** The value lists recorded by `addParameter` for `ps`. */
  function ValuesOf(ps: seq<Param>): (m: map<string, seq<Value>>)
    ensures forall p :: p in m <==> p in Names(ps)
    decreases |ps|
  {
    if ps == [] then map[]
    else
      var n := |ps| - 1;
      assert Names(ps) == Names(ps[..n]) + [ps[n].name];
      ValuesOf(ps[..n])[ps[n].name := ps[n].values]
  }

  /** The manual flags recorded by `addParameter` for `ps`. */
  function ManualOf(ps: seq<Param>): (m: map<string, bool>)
    ensures forall p :: p in m <==> p in Names(ps)
    decreases |ps|
  {
    if ps == [] then map[]
    else
      var n := |ps| - 1;
      assert Names(ps) == Names(ps[..n]) + [ps[n].name];
      ManualOf(ps[..n])[ps[n].name := ps[n].manual]
  }

  /** With distinct names, each parameter's own values and flag are the
      ones recorded. */
  lemma {:induction false} RecordedOf(ps: seq<Param>)
    requires Scan.Distinct(Names(ps))
    ensures forall i :: 0 <= i < |ps| ==>
      ValuesOf(ps)[ps[i].name] == ps[i].values && ManualOf(ps)[ps[i].name] == ps[i].manual
    decreases |ps|
  {
    if ps != [] {
      var n := |ps| - 1;
      assert Names(ps[..n]) == Names(ps)[..n];
      RecordedOf(ps[..n]);
      forall i | 0 <= i < n
        ensures ValuesOf(ps)[ps[i].name] == ps[i].values && ManualOf(ps)[ps[i].name] == ps[i].manual
      {
        assert Names(ps)[i] != Names(ps)[n];
        assert ps[..n][i] == ps[i];
      }
    }
  }

  // ---------------------------------------------------------------------
  // The meta, limits, setup and end sections.
  // ---------------------------------------------------------------------

  /** The value of `key` in an end mapping when it is given and not `None`. */
  function Present(d: Entries, key: string): (r: Option<Value>)
    ensures r.Some? <==> HasKey(d, key) && Get(d, key).value != Null
    ensures r.Some? ==> Get(d, key) == r
  {
    if GetOrNull(d, key) == Null then None else Some(GetOrNull(d, key))
  }

  /** The state keys of those of the first `i` setup keys `keys` that an
      end mapping gives a value for, in the order of `keys`. */
  function PresentNames(end: Entries, keys: seq<string>, names: seq<string>, i: nat): (r: seq<string>)
    requires i <= |keys| == |names|
    ensures |r| <= i
  {
    if i == 0 then []
    else
      PresentNames(end, keys, names, i - 1) +
        (if Present(end, keys[i - 1]).Some? then [names[i - 1]] else [])
  }

  /** An end state holds, under its state key, each setup key the end
      mapping gives a value for, and nothing else, in `SETUP_KEYS` order. */
  ghost predicate EndOf(end: Entries, state: Entries) {
    (forall i :: 0 <= i < |Definition.SETUP_KEYS| ==>
       Get(state, Definition.SETUP_STATE_KEYS[i]) == Present(end, Definition.SETUP_KEYS[i])) &&
    (forall j :: 0 <= j < |state| ==> state[j].0 in Definition.SETUP_STATE_KEYS) &&
    Keys(state) == PresentNames(end, Definition.SETUP_KEYS, Definition.SETUP_STATE_KEYS, |Definition.SETUP_KEYS|)
  }

  /** `_getEnd()`: `{}` for `on` or `True`, the present setup keys of a
      mapping, and `False` for anything else, a missing `end` included. */
  method GetEnd(cfg: Config) returns (r: Result<Value>)
    ensures var e := Walk(cfg.data, [], ["end"], false);
      (e.Err? ==> r == e) &&
      (e.Ok? && (e.value == Str("on") || e.value == Bool(true)) ==> r == Ok(Dict([]))) &&
      (e.Ok? && e.value.Dict? ==> r.Ok? && r.value.Dict? && EndOf(e.value.entries, r.value.entries)) &&
      (e.Ok? && !(e.value == Str("on") || e.value == Bool(true) || e.value.Dict?) ==> r == Ok(Bool(false)))
  {
    var e := GetPath(cfg, One("end"), false);
    if e.Err? {
      return e;
    }
    var end := e.value;
    if end == Str("on") || end == Bool(true) {
      return Ok(Dict([]));
    }
    if !end.Dict? {
      return Ok(Bool(false));
    }
    Definition.SetupStateKeys();
    var state: Entries := [];
    var i := 0;
    while i < |Definition.SETUP_KEYS|
      invariant 0 <= i <= |Definition.SETUP_KEYS|
      invariant EndPrefix(end.entries, state, Definition.SETUP_KEYS, Definition.SETUP_STATE_KEYS, i)
    {
      var key := Definition.SETUP_KEYS[i];
      WalkTwo(cfg.data, "end", key, false);
      var value := GetPath(cfg, Many(["end", key]), false);
      var v := value.value;
      assert v == GetOrNull(end.entries, key);
      assert forall m :: 0 <= m < |Definition.SETUP_STATE_KEYS| && m != i ==>
        Definition.SETUP_STATE_KEYS[m] != Definition.SETUP_STATE_KEYS[i];
      EndStep(end.entries, state, Definition.SETUP_KEYS, Definition.SETUP_STATE_KEYS, i);
      if v != Null {
        var name := Translate(key, true).value;
        state := SetKey(state, name, v);
      }
      i := i + 1;
    }
    return Ok(Dict(state));
  }

  /** The end state after the first `i` of the setup keys `keys`, whose
      state keys are `names`. */
  ghost predicate EndPrefix(end: Entries, state: Entries, keys: seq<string>, names: seq<string>, i: nat)
    requires i <= |keys| == |names|
  {
    (forall m :: 0 <= m < i ==> Get(state, names[m]) == Present(end, keys[m])) &&
    (forall m :: i <= m < |keys| ==> Get(state, names[m]) == None) &&
    (forall j :: 0 <= j < |state| ==> state[j].0 in names) &&
    Keys(state) == PresentNames(end, keys, names, i)
  }

  /** One step of the loop of `_getEnd()`. */
  lemma EndStep(end: Entries, state: Entries, keys: seq<string>, names: seq<string>, i: nat)
    requires i < |keys| == |names|
    requires forall m :: 0 <= m < |names| && m != i ==> names[m] != names[i]
    requires EndPrefix(end, state, keys, names, i)
    ensures var v := GetOrNull(end, keys[i]);
      EndPrefix(end, if v != Null then SetKey(state, names[i], v) else state, keys, names, i + 1)
  {
    var v := GetOrNull(end, keys[i]);
    if v == Null {
      assert Present(end, keys[i]) == None;
    } else {
      var after := SetKey(state, names[i], v);
      SetKeyGet(state, names[i], v);
      assert Present(end, keys[i]) == Some(v);
      forall m | 0 <= m <= i ensures Get(after, names[m]) == Present(end, keys[m]) {
        if m < i {
          assert names[m] != names[i];
        }
      }
      forall m | i + 1 <= m < |keys| ensures Get(after, names[m]) == None {
        assert names[m] != names[i];
      }
      SetKeyWithin(state, names[i], v, names);
    }
    EndNamesStep(end, state, keys, names, i);
  }

  /** A value for setup key `i` appends its state key, which the end state
      does not hold yet. */
  lemma EndNamesStep(end: Entries, state: Entries, keys: seq<string>, names: seq<string>, i: nat)
    requires i < |keys| == |names|
    requires Keys(state) == PresentNames(end, keys, names, i) && Get(state, names[i]) == None
    ensures var v := GetOrNull(end, keys[i]);
      Keys(if v != Null then SetKey(state, names[i], v) else state) == PresentNames(end, keys, names, i + 1)
  {
    var v := GetOrNull(end, keys[i]);
    if v != Null {
      SetKeyKeys(state, names[i], v);
    }
  }

  /** Setting one of the names keeps every key among the names. */
  lemma SetKeyWithin(state: Entries, k: string, v: Value, names: seq<string>)
    requires k in names && forall j :: 0 <= j < |state| ==> state[j].0 in names
    ensures var after := SetKey(state, k, v);
      forall j :: 0 <= j < |after| ==> after[j].0 in names
  {
    var after := SetKey(state, k, v);
    SetKeyKeys(state, k, v);
    forall j | 0 <= j < |after| ensures after[j].0 in names {
      assert after[j].0 == Keys(after)[j];
      if j < |state| {
        assert Keys(state)[j] == state[j].0;
      }
    }
  }

  /** The three device states every setup switches on. */
  const SETUP_ON: Entries := [("amp.state", Bool(true)), ("laser.state", Bool(true)), ("bias.state", Bool(true))]

  /** The setup state after the first `i` setup keys: the three states,
      then each key's value under its state key, in `SETUP_KEYS` order. */
  function SetupPrefix(setup: Entries, i: nat): (r: Entries)
    requires i <= |Definition.SETUP_KEYS|
    requires forall m :: 0 <= m < i ==> HasKey(setup, Definition.SETUP_KEYS[m])
    ensures |r| == |SETUP_ON| + i
  {
    SETUP_ON + seq(i, m requires 0 <= m < i =>
      (Definition.SETUP_STATE_KEYS[m], Get(setup, Definition.SETUP_KEYS[m]).value))
  }

  /** The setup of a `setup` mapping that gives every setup key. */
  function SetupOf(setup: Entries): (r: Entries)
    requires forall k :: k in Definition.SETUP_KEYS ==> HasKey(setup, k)
  {
    SetupPrefix(setup, |Definition.SETUP_KEYS|)
  }

  /** Setting the next state key appends it: it is none of the keys
      already set. */
  lemma SetupNext(setup: Entries, i: nat, v: Value)
    requires i < |Definition.SETUP_KEYS|
    requires forall m :: 0 <= m < i ==> HasKey(setup, Definition.SETUP_KEYS[m])
    requires Get(setup, Definition.SETUP_KEYS[i]) == Some(v)
    ensures SetKey(SetupPrefix(setup, i), Definition.SETUP_STATE_KEYS[i], v) == SetupPrefix(setup, i + 1)
  {
    SetupKeyFresh(setup, i);
    var d := SetupPrefix(setup, i);
    var k := Definition.SETUP_STATE_KEYS[i];
    FindIsFirst(d, k, |d|);
    assert SetKey(d, k, v) == d + [(k, v)];
    SetupPrefixStep(setup, i, v);
  }

  /** The state key of setup key `i` is none of the keys set before it. */
  lemma SetupKeyFresh(setup: Entries, i: nat)
    requires i < |Definition.SETUP_KEYS|
    requires forall m :: 0 <= m < i ==> HasKey(setup, Definition.SETUP_KEYS[m])
    ensures var d := SetupPrefix(setup, i);
      forall m :: 0 <= m < |d| ==> d[m].0 != Definition.SETUP_STATE_KEYS[i]
  {
    Definition.SetupStateKeys();
    var d := SetupPrefix(setup, i);
    var k := Definition.SETUP_STATE_KEYS[i];
    forall m | 0 <= m < |d| ensures d[m].0 != k {
      if m >= |SETUP_ON| {
        assert d[m].0 == Definition.SETUP_STATE_KEYS[m - |SETUP_ON|];
      }
    }
  }

  /** One more setup key appends one entry to the prefix. */
  lemma SetupPrefixStep(setup: Entries, i: nat, v: Value)
    requires i < |Definition.SETUP_KEYS|
    requires forall m :: 0 <= m < i ==> HasKey(setup, Definition.SETUP_KEYS[m])
    requires Get(setup, Definition.SETUP_KEYS[i]) == Some(v)
    ensures SetupPrefix(setup, i + 1) == SetupPrefix(setup, i) + [(Definition.SETUP_STATE_KEYS[i], v)]
  {
    var d := SetupPrefix(setup, i);
    var e := SetupPrefix(setup, i + 1);
    var k := Definition.SETUP_STATE_KEYS[i];
    forall m | 0 <= m < |e| ensures e[m] == (d + [(k, v)])[m] {
      if m < |SETUP_ON| {
      } else if m < |d| {
      }
    }
  }

  /** `_getSetup()`: every setup key is required. */
  method GetSetup(cfg: Config) returns (r: Result<Entries>)
    ensures var w := Walk(cfg.data, [], ["setup"], true);
      (w.Err? ==> r == Err(w.error)) &&
      (w.Ok? && !w.value.Dict? ==>
         var first := Walk(cfg.data, [], ["setup", Definition.SETUP_KEYS[0]], true);
         first.Err? && r == Err(first.error)) &&
      (w.Ok? && w.value.Dict? ==>
         (r.Ok? <==> forall k :: k in Definition.SETUP_KEYS ==> HasKey(w.value.entries, k)) &&
         (r.Ok? ==> r.value == SetupOf(w.value.entries)) &&
         (r.Err? ==> exists i :: 0 <= i < |Definition.SETUP_KEYS| &&
                       FirstMissing(w.value.entries, Definition.SETUP_KEYS, i) &&
                       r.error == MissingError(["setup", Definition.SETUP_KEYS[i]])))
  {
    Definition.SetupStateKeys();
    var state := SETUP_ON;
    ghost var w := Walk(cfg.data, [], ["setup"], true);
    var i := 0;
    while i < |Definition.SETUP_KEYS|
      invariant 0 <= i <= |Definition.SETUP_KEYS|
      invariant i == 0 ==> state == SETUP_ON
      invariant i > 0 ==> w.Ok? && w.value.Dict?
      invariant i > 0 ==> forall m :: 0 <= m < i ==> HasKey(w.value.entries, Definition.SETUP_KEYS[m])
      invariant i > 0 ==> state == SetupPrefix(w.value.entries, i)
    {
      var key := Definition.SETUP_KEYS[i];
      WalkTwo(cfg.data, "setup", key, true);
      var value := GetPath(cfg, Many(["setup", key]), true);
      if value.Err? {
        if w.Ok? && w.value.Dict? {
          assert FirstMissing(w.value.entries, Definition.SETUP_KEYS, i);
        }
        return Err(value.error);
      }
      var name := Translate(key, true).value;
      SetupNext(w.value.entries, i, value.value);
      state := SetKey(state, name, value.value);
      i := i + 1;
    }
    return Ok(state);
  }

  lemma MetaKeysDistinct()
    ensures Scan.Distinct(META_KEYS) && |META_KEYS| > 0
  {
  }

  /** `_getMeta()`: every `META_KEYS` key is required; the result is the
      `meta` mapping itself, reordered so that the `META_KEYS` come first. */
  method GetMeta(cfg: Config) returns (r: Result<Entries>)
    ensures var w := Walk(cfg.data, [], ["meta"], true);
      (w.Err? ==> r == Err(w.error)) &&
      (w.Ok? && !w.value.Dict? ==>
         var first := Walk(cfg.data, [], ["meta", META_KEYS[0]], true);
         first.Err? && r == Err(first.error)) &&
      (w.Ok? && w.value.Dict? ==>
         (r.Ok? <==> forall k :: k in META_KEYS ==> HasKey(w.value.entries, k)) &&
         (r.Ok? ==> (forall k :: Get(r.value, k) == Get(w.value.entries, k)) &&
                    Keys(r.value) == AddNew(META_KEYS, Keys(w.value.entries))) &&
         (r.Err? ==> exists i :: 0 <= i < |META_KEYS| && FirstMissing(w.value.entries, META_KEYS, i) &&
                       r.error == MissingError(["meta", META_KEYS[i]])))
  {
    MetaKeysDistinct();
    r := ReadMeta(cfg, META_KEYS);
  }

  /** `_getMeta()` for the list `req` of required keys. */
  method ReadMeta(cfg: Config, req: seq<string>) returns (r: Result<Entries>)
    requires Scan.Distinct(req) && |req| > 0
    ensures var w := Walk(cfg.data, [], ["meta"], true);
      (w.Err? ==> r == Err(w.error)) &&
      (w.Ok? && !w.value.Dict? ==>
         var first := Walk(cfg.data, [], ["meta", req[0]], true);
         first.Err? && r == Err(first.error)) &&
      (w.Ok? && w.value.Dict? ==>
         (r.Ok? <==> forall k :: k in req ==> HasKey(w.value.entries, k)) &&
         (r.Ok? ==> (forall k :: Get(r.value, k) == Get(w.value.entries, k)) &&
                    Keys(r.value) == AddNew(req, Keys(w.value.entries))) &&
         (r.Err? ==> exists i :: 0 <= i < |req| && FirstMissing(w.value.entries, req, i) &&
                       r.error == MissingError(["meta", req[i]])))
  {
    var meta := GetPath(cfg, Many(["meta"]), true);
    if meta.Err? {
      return Err(meta.error);
    }
    if !meta.value.Dict? {
      WalkTwo(cfg.data, "meta", req[0], true);
      var value := GetPath(cfg, Many(["meta", req[0]]), true);
      return Err(value.error);
    }
    var es := meta.value.entries;
    var required := MetaRequired(cfg, es, req);
    if required.Err? {
      return Err(required.error);
    }
    WalkOptional(cfg.data, [], ["meta"]);
    var values := MetaExtras(cfg, es, req, required.value);
    return Ok(values);
  }

  /** The first loop of `_getMeta()`: the required keys, in order. */
  method MetaRequired(cfg: Config, es: Entries, req: seq<string>) returns (r: Result<Entries>)
    requires Scan.Distinct(req)
    requires Walk(cfg.data, [], ["meta"], true) == Ok(Dict(es))
    ensures r.Ok? <==> forall k :: k in req ==> HasKey(es, k)
    ensures r.Ok? ==> Keys(r.value) == req && forall k :: Get(r.value, k) == (if k in req then Get(es, k) else None)
    ensures r.Err? ==> exists i :: 0 <= i < |req| && FirstMissing(es, req, i) && r.error == MissingError(["meta", req[i]])
  {
    var values: Entries := [];
    var i := 0;
    while i < |req|
      invariant 0 <= i <= |req|
      invariant forall m :: 0 <= m < i ==> HasKey(es, req[m])
      invariant |values| == i && forall m :: 0 <= m < i ==> values[m].0 == req[m]
      invariant forall k :: Get(values, k) == (if k in req[..i] then Get(es, k) else None)
    {
      var key := req[i];
      MetaKey(cfg, es, key);
      var value := GetPath(cfg, Many(["meta", key]), true);
      if value.Err? {
        assert FirstMissing(es, req, i);
        return Err(value.error);
      }
      RequiredStep(values, es, req, i, value.value);
      values := SetKey(values, key, value.value);
      i := i + 1;
    }
    assert req[..i] == req;
    assert Keys(values) == req;
    return Ok(values);
  }

  /** `req[i]` is the first required key the `meta` mapping lacks. */
  predicate FirstMissing(es: Entries, req: seq<string>, i: nat)
    requires i < |req|
  {
    !HasKey(es, req[i]) && forall m :: 0 <= m < i ==> HasKey(es, req[m])
  }

  /** Reading one required key of a `meta` mapping `es`. */
  lemma MetaKey(cfg: Config, es: Entries, key: string)
    requires Walk(cfg.data, [], ["meta"], true) == Ok(Dict(es))
    ensures Walk(cfg.data, [], ["meta", key], true) ==
      if HasKey(es, key) then Ok(Get(es, key).value) else Err(MissingError(["meta", key]))
  {
    WalkTwo(cfg.data, "meta", key, true);
  }

  /** One step of the first loop of `_getMeta()`. */
  lemma RequiredStep(values: Entries, es: Entries, req: seq<string>, i: nat, v: Value)
    requires Scan.Distinct(req) && i < |req|
    requires |values| == i && forall m :: 0 <= m < i ==> values[m].0 == req[m]
    requires forall k :: Get(values, k) == (if k in req[..i] then Get(es, k) else None)
    requires Get(es, req[i]) == Some(v)
    ensures var after := SetKey(values, req[i], v);
      |after| == i + 1 && (forall m :: 0 <= m <= i ==> after[m].0 == req[m]) &&
      forall k :: Get(after, k) == (if k in req[..i + 1] then Get(es, k) else None)
  {
    var key := req[i];
    assert key !in req[..i];
    assert Get(values, key) == None;
    SetKeySpec(values, key, v);
    assert req[..i + 1] == req[..i] + [key];
  }

  /** The keys `req` come first, in order. */
  predicate KeysFirst(values: Entries, req: seq<string>) {
    |values| >= |req| && forall m :: 0 <= m < |req| ==> values[m].0 == req[m]
  }

  /** One step of the second loop of `_getMeta()`. */
  lemma ExtraStep(values: Entries, es: Entries, req: seq<string>, keys: seq<string>, j: nat, v: Value)
    requires j < |keys|
    requires forall k :: Get(values, k) == (if k in req || k in keys[..j] then Get(es, k) else None)
    requires keys[j] !in req ==> Get(es, keys[j]) == Some(v)
    ensures var after := if keys[j] in req then values else SetKey(values, keys[j], v);
      forall k :: Get(after, k) == (if k in req || k in keys[..j + 1] then Get(es, k) else None)
  {
    assert keys[..j + 1] == keys[..j] + [keys[j]];
    if keys[j] !in req {
      SetKeySpec(values, keys[j], v);
    }
  }

  /** The second loop of `_getMeta()` adds the keys it meets to the
      required ones as an ordered set. */
  lemma ExtraOrder(values: Entries, req: seq<string>, keys: seq<string>, j: nat, v: Value)
    requires j < |keys| && Keys(values) == AddNew(req, keys[..j])
    ensures Keys(if keys[j] in req then values else SetKey(values, keys[j], v)) == AddNew(req, keys[..j + 1])
  {
    assert keys[..j + 1][..j] == keys[..j] && keys[..j + 1][j] == keys[j];
    HasKeyIff(values, keys[j]);
    SetKeySpec(values, keys[j], v);
  }

  /** One pass of the second loop of `_getMeta()`. */
  method ExtraPass(cfg: Config, es: Entries, req: seq<string>, j: nat, values: Entries) returns (next: Entries)
    requires Walk(cfg.data, [], ["meta"], false) == Ok(Dict(es))
    requires j < |Keys(es)|
    requires Keys(values) == AddNew(req, Keys(es)[..j])
    requires forall k :: Get(values, k) == (if k in req || k in Keys(es)[..j] then Get(es, k) else None)
    ensures Keys(next) == AddNew(req, Keys(es)[..j + 1])
    ensures forall k :: Get(next, k) == (if k in req || k in Keys(es)[..j + 1] then Get(es, k) else None)
  {
    var keys := Keys(es);
    var key := keys[j];
    if key !in req {
      HasKeyIff(es, key);
      WalkTwo(cfg.data, "meta", key, false);
      var value := GetPath(cfg, Many(["meta", key]), false);
      ExtraStep(values, es, req, keys, j, value.value);
      ExtraOrder(values, req, keys, j, value.value);
      next := SetKey(values, key, value.value);
    } else {
      ExtraStep(values, es, req, keys, j, Null);
      ExtraOrder(values, req, keys, j, Null);
      next := values;
    }
  }

  /** The second loop of `_getMeta()`: every other key of the `meta`
      mapping is copied after the required keys. */
  method MetaExtras(cfg: Config, es: Entries, req: seq<string>, required: Entries) returns (values: Entries)
    requires Walk(cfg.data, [], ["meta"], false) == Ok(Dict(es))
    requires forall k :: k in req ==> HasKey(es, k)
    requires Keys(required) == req
    requires forall k :: Get(required, k) == (if k in req then Get(es, k) else None)
    ensures forall k :: Get(values, k) == Get(es, k)
    ensures KeysFirst(values, req)
    ensures Keys(values) == AddNew(req, Keys(es))
  {
    values := required;
    var keys := Keys(es);
    var j := 0;
    assert keys[..0] == [] && AddNew(req, []) == req;
    while j < |keys|
      invariant 0 <= j <= |keys|
      invariant Keys(values) == AddNew(req, keys[..j])
      invariant forall k :: Get(values, k) == (if k in req || k in keys[..j] then Get(es, k) else None)
    {
      values := ExtraPass(cfg, es, req, j, values);
      j := j + 1;
    }
    assert keys[..j] == keys;
    forall k ensures Get(values, k) == Get(es, k) {
      HasKeyIff(es, k);
    }
    assert Keys(values)[..|req|] == req;
  }

  /** `_getLimits()`: the two required limits. */
  function GetLimits(cfg: Config): (r: Result<Entries>)
    ensures r.Ok? ==> |r.value| == 2 && r.value[0].0 == "vlimit" && r.value[1].0 == "ilimit"
  {
    var v :- Walk(cfg.data, [], ["limits", "voltage"], true);
    var c :- Walk(cfg.data, [], ["limits", "current"], true);
    Ok([("vlimit", v), ("ilimit", c)])
  }

  /** With both limits given, they are returned under `vlimit` and
      `ilimit`; a missing one raises a `MissingError` naming it. */
  lemma LimitsFound(cfg: Config, limits: Entries)
    requires Walk(cfg.data, [], ["limits"], true) == Ok(Dict(limits))
    ensures HasKey(limits, "voltage") && HasKey(limits, "current") ==>
      GetLimits(cfg) == Ok([("vlimit", Get(limits, "voltage").value), ("ilimit", Get(limits, "current").value)])
    ensures !HasKey(limits, "voltage") ==> GetLimits(cfg) == Err(MissingError(["limits", "voltage"]))
    ensures HasKey(limits, "voltage") && !HasKey(limits, "current") ==>
      GetLimits(cfg) == Err(MissingError(["limits", "current"]))
  {
    WalkTwo(cfg.data, "limits", "voltage", true);
    WalkTwo(cfg.data, "limits", "current", true);
  }
}
