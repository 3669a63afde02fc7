/** A loaded configuration file: nested lookup along a key path, key
    translation through `KEY_MAP`, and the text of the two configuration
    errors. */
module ConfigFile {
  import opened Wrappers
  import opened Values
  import opened Text
  import Definition

  /** A configuration: the file it came from and its parsed YAML data. */
  datatype Config = Config(file: string, data: Value)

  /** A key argument of `_get`: one key, or a list of keys. */
  datatype KeyArg = One(key: string) | Many(keys: seq<string>)

  /** `_get` turns a single key into a one-element path. */
  function PathOf(k: KeyArg): (p: seq<string>)
    ensures k.One? ==> p == [k.key]
    ensures k.Many? ==> p == k.keys
  {
    match k
    case One(key) => [key]
    case Many(keys) => keys
  }

  /** `sub in s` for strings. */
  predicate IsSubstring(sub: string, s: string) {
    StartsWith(s, sub) || (|s| > 0 && IsSubstring(sub, s[1..]))
  }

  /** One step of the walk: `key in root` and, when it holds, `root[key]`.
      A list or a string answers `in` but cannot be indexed by a string;
      a number, a boolean or `None` cannot answer `in` at all. */
  function Member(root: Value, key: string): (r: Result<Option<Value>>)
    ensures root.Dict? ==> r.Ok? && (r.value.Some? <==> HasKey(root.entries, key))
    ensures root.Dict? && HasKey(root.entries, key) ==> Some(r.value.value) == Get(root.entries, key)
    ensures !root.Dict? && r.Ok? ==> r.value.None?
    ensures (root.Null? || root.Bool? || root.Num?) ==> r == Err(TypeError)
  {
    match root
    case Dict(es) => Ok(Get(es, key))
    case List(xs) => if Str(key) in xs then Err(TypeError) else Ok(None)
    case Str(s) => if IsSubstring(key, s) then Err(TypeError) else Ok(None)
    case _ => Err(TypeError)
  }

  /** The value `_get` reaches from `root` along `rest`, having already
      walked through `done`. */
  function Walk(root: Value, done: seq<string>, rest: seq<string>, required: bool): Result<Value>
    decreases |rest|
  {
    if rest == [] then Ok(root)
    else
      match Member(root, rest[0])
      case Err(e) => Err(e)
      case Ok(None) => if required then Err(MissingError(done + [rest[0]])) else Ok(Null)
      case Ok(Some(v)) => Walk(v, done + [rest[0]], rest[1..], required)
  }

  /** `_get(keys, required)`. */
  method GetPath(cfg: Config, key: KeyArg, required: bool) returns (r: Result<Value>)
    ensures r == Walk(cfg.data, [], PathOf(key), required)
  {
    var keys := PathOf(key);
    var root := cfg.data;
    var kk := 0;
    while kk < |keys|
      invariant 0 <= kk <= |keys|
      invariant Walk(cfg.data, [], keys, required) == Walk(root, keys[..kk], keys[kk..], required)
    {
      assert keys[kk..][1..] == keys[kk + 1..];
      assert keys[..kk] + [keys[kk]] == keys[..kk + 1];
      var m := Member(root, keys[kk]);
      match m {
        case Err(e) =>
          return Err(e);
        case Ok(None) =>
          if required {
            return Err(MissingError(keys[..kk + 1]));
          } else {
            return Ok(Null);
          }
        case Ok(Some(v)) =>
          root := v;
      }
      kk := kk + 1;
    }
    return Ok(root);
  }

  /** The value along a path of nested dictionaries, if every key is there. */
  function DictPath(root: Value, keys: seq<string>): Option<Value>
    decreases |keys|
  {
    if keys == [] then Some(root)
    else if root.Dict? && HasKey(root.entries, keys[0]) then
      DictPath(Get(root.entries, keys[0]).value, keys[1..])
    else None
  }

  /** When every key is present, `_get` returns the value reached by
      indexing successively, whether or not the keys are required. */
  lemma {:induction false} WalkFound(root: Value, done: seq<string>, rest: seq<string>, required: bool)
    requires DictPath(root, rest).Some?
    ensures Walk(root, done, rest, required) == Ok(DictPath(root, rest).value)
    decreases |rest|
  {
    if rest != [] {
      WalkFound(Get(root.entries, rest[0]).value, done + [rest[0]], rest[1..], required);
    }
  }

  /** The two modes of `_get` differ only at a missing key: the required
      lookup raises `MissingError`, the optional one returns `None`. */
  lemma {:induction false} WalkOptional(root: Value, done: seq<string>, rest: seq<string>)
    ensures Walk(root, done, rest, true).Err? && Walk(root, done, rest, true).error.MissingError?
      ==> Walk(root, done, rest, false) == Ok(Null)
    ensures !(Walk(root, done, rest, true).Err? && Walk(root, done, rest, true).error.MissingError?)
      ==> Walk(root, done, rest, false) == Walk(root, done, rest, true)
    decreases |rest|
  {
    if rest != [] {
      match Member(root, rest[0])
      case Err(e) =>
      case Ok(None) =>
      case Ok(Some(v)) => WalkOptional(v, done + [rest[0]], rest[1..]);
    }
  }

  /** A `MissingError` names the path walked so far plus the first key that
      was not found: the walk up to that key succeeds and the key is absent. */
  lemma {:induction false} WalkMissing(root: Value, done: seq<string>, rest: seq<string>) returns (j: nat, w: Value)
    requires Walk(root, done, rest, true).Err? && Walk(root, done, rest, true).error.MissingError?
    ensures j < |rest|
    ensures Walk(root, done, rest, true).error.keys == done + rest[..j + 1]
    ensures Walk(root, done, rest[..j], true) == Ok(w)
    ensures Member(w, rest[j]) == Ok(None)
    decreases |rest|
  {
    match Member(root, rest[0])
    case Ok(None) =>
      j, w := 0, root;
    case Ok(Some(v)) =>
      var j', w' := WalkMissing(v, done + [rest[0]], rest[1..]);
      j, w := j' + 1, w';
      assert rest[..j][1..] == rest[1..][..j'];
      assert done + rest[..j + 1] == done + [rest[0]] + rest[1..][..j' + 1];
  }

  /** A two-key lookup `_get([name, key])` in terms of the one-key lookup
      `_get([name])`: its error is repeated, a dictionary is indexed with
      `key`, and any other value cannot hold a required key. */
  lemma WalkTwo(root: Value, name: string, key: string, required: bool)
    ensures var w := Walk(root, [], [name], required);
      (w.Err? ==> Walk(root, [], [name, key], required) == w) &&
      (w.Ok? && w.value.Dict? && HasKey(w.value.entries, key) ==>
         Walk(root, [], [name, key], required) == Ok(Get(w.value.entries, key).value)) &&
      (w.Ok? && w.value.Dict? && !HasKey(w.value.entries, key) ==>
         Walk(root, [], [name, key], required) ==
           (if required then Err(MissingError([name, key])) else Ok(Null))) &&
      (w.Ok? && !w.value.Dict? && required ==> Walk(root, [], [name, key], required).Err?)
  {
    assert [name, key][1..] == [key];
    assert [name][1..] == [];
    assert [] + [name] == [name];
    assert [name] + [key] == [name, key];
    match Member(root, name)
    case Ok(Some(v)) =>
      assert Walk(root, [], [name], required) == Ok(v);
      if v.Dict? && HasKey(v.entries, key) {
        var x := Get(v.entries, key).value;
        assert Walk(v, [name], [key], required) == Walk(x, [name, key], [], required);
      }
    case _ =>
  }

  /** `translate(key, strict)`. */
  function Translate(key: string, strict: bool): (r: Result<string>)
    ensures key in Definition.KEY_MAP ==> r == Ok(Definition.KEY_MAP[key])
    ensures key !in Definition.KEY_MAP && !strict ==> r == Ok(key)
    ensures key !in Definition.KEY_MAP && strict ==> r.Err? && r.error.ConfigError?
  {
    if key !in Definition.KEY_MAP then
      if strict then Err(ConfigError(Some("Key [" + key + "] is not valid!"))) else Ok(key)
    else Ok(Definition.KEY_MAP[key])
  }

  /** Strict translation of the setup keys never fails. */
  lemma TranslateSetupKeys()
    ensures forall k :: k in Definition.SETUP_KEYS ==> Translate(k, true).Ok?
  {
    Definition.SetupStateKeys();
  }

  /** The message a `MissingError` carries. */
  function MissingMessage(keys: seq<string>): string {
    "Missing key [" + Join(".", keys) + "]!"
  }

  /** `str(error)` for a `ConfigError` or `MissingError` raised for `file`. */
  function ErrorText(file: string, e: Error): (r: string)
    requires e.ConfigError? || e.MissingError?
    ensures StartsWith(r, "Config Error [" + file + "]")
    ensures e.ConfigError? && e.msg.None? ==> r == "Config Error [" + file + "]"
    ensures e.ConfigError? && e.msg.Some? ==> r == "Config Error [" + file + "]: " + e.msg.value
    ensures e.MissingError? ==> r == "Config Error [" + file + "]: " + MissingMessage(e.keys)
    ensures e.MissingError? ==> r[|"Config Error [" + file + "]"|..] == ": " + MissingMessage(e.keys)
  {
    var msg := if e.MissingError? then Some(MissingMessage(e.keys)) else e.msg;
    var head := "Config Error [" + file + "]";
    var r := head + (match msg case Some(m) => ": " + m case None => "");
    assert r[..|head|] == head;
    r
  }

  /** The text of an error tells which message it carries: two errors of the
      same file with different messages never print alike, and a message is
      never confused with a bare error. */
  lemma ErrorTextMessage(file: string, m1: Option<string>, m2: Option<string>)
    ensures ErrorText(file, ConfigError(m1)) == ErrorText(file, ConfigError(m2)) <==> m1 == m2
  {
    var head := "Config Error [" + file + "]: ";
    if ErrorText(file, ConfigError(m1)) == ErrorText(file, ConfigError(m2)) {
      match (m1, m2)
      case (Some(a), Some(b)) =>
        assert (head + a)[|head|..] == a;
        assert (head + b)[|head|..] == b;
      case _ =>
    }
  }
}
