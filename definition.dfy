/** The configuration vocabulary: the short keys a scan file may use and the
    state keys they stand for, the keys every setup must give, and the
    measurement mode. */
module Definition {
  import opened Wrappers
  import opened Text

  /** Short configuration key to full state key. */
  const KEY_MAP: map<string, string> := map[
    "gain" := "amp.gain",
    "hv" := "bias.hv",
    "x" := "stage.x",
    "y" := "stage.y",
    "focus" := "stage.focus",
    "frequency" := "laser.frequency",
    "dac" := "laser.dac",
    "average" := "scope.average",
    "amplitude" := "scope.amplitude",
    "repeat" := "count"
  ]

  /** The keys a setup (and an end state) is built from, in order. */
  const SETUP_KEYS: seq<string> :=
    ["gain", "hv", "x", "y", "focus", "frequency", "dac", "average", "amplitude"]

  /** The state keys the setup keys translate to, in the same order. */
  const SETUP_STATE_KEYS: seq<string> :=
    ["amp.gain", "bias.hv", "stage.x", "stage.y", "stage.focus",
     "laser.frequency", "laser.dac", "scope.average", "scope.amplitude"]

  /** Every setup key has a translation, and no two of them translate to
      the same state key. */
  lemma SetupStateKeys()
    ensures |SETUP_STATE_KEYS| == |SETUP_KEYS|
    ensures forall i :: 0 <= i < |SETUP_KEYS| ==>
      SETUP_KEYS[i] in KEY_MAP && KEY_MAP[SETUP_KEYS[i]] == SETUP_STATE_KEYS[i]
    ensures forall i, j :: 0 <= i < j < |SETUP_STATE_KEYS| ==> SETUP_STATE_KEYS[i] != SETUP_STATE_KEYS[j]
  {
  }

  const LASER: string := "laser"
  const SOURCE: string := "source"

  /** A constructed mode; `mode` is one of `LASER` and `SOURCE`. */
  datatype Mode = Mode(mode: string)

  /** `MODE(config)`: no configuration means laser mode; a string is
      stripped and lower-cased and must then name one of the two modes. */
  function NewMode(config: Option<string>): (r: Result<Mode>)
    ensures config.None? ==> r == Ok(Mode(LASER))
    ensures config.Some? ==> (r.Ok? <==> Lower(Strip(config.value)) in [LASER, SOURCE])
    ensures r.Ok? && config.Some? ==> r.value.mode == Lower(Strip(config.value))
  {
    match config
    case None => Ok(Mode(LASER))
    case Some(s) =>
      var c := Lower(Strip(s));
      if c in [LASER, SOURCE] then Ok(Mode(c))
      else Err(Raised("Mode [" + c + "] is not supported!"))
  }

  predicate IsLaser(m: Mode) { m.mode == LASER }

  predicate IsSource(m: Mode) { m.mode == SOURCE }

  /** A constructed mode is exactly one of laser and source. */
  lemma ExactlyOneMode(config: Option<string>)
    requires NewMode(config).Ok?
    ensures IsLaser(NewMode(config).value) != IsSource(NewMode(config).value)
  {
  }

  /** `str(mode)`. */
  function ModeText(m: Mode): string {
    "Mode [" + m.mode + "]"
  }

  /** A constructed mode prints as `Mode [laser]` or `Mode [source]`, the
      first exactly in laser mode. */
  lemma ModeTextOf(config: Option<string>)
    requires NewMode(config).Ok?
    ensures var t := ModeText(NewMode(config).value);
      (t == "Mode [laser]" || t == "Mode [source]") && (IsLaser(NewMode(config).value) <==> t == "Mode [laser]")
  {
    var m := NewMode(config).value;
    assert m.mode == LASER || m.mode == SOURCE;
    if m.mode == SOURCE {
      assert ModeText(m)[6] == 's';
    }
  }
}
