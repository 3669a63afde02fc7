/** The reader of the text files written by the CERN SSD TPA set-up: a
    separator line, a two-line header, sample parameters (`:name` followed by
    a value line), setup parameters (`name: value`) and scanned vectors (five
    `aspect: value` lines each).  A file is a sequence of lines read one at a
    time; the readers check what they read and raise on anything unexpected. */
module CernTpa {
  import opened Wrappers
  import opened Text

  const SEPARATOR: string := "================"
  const FILE_TITLE: string := "SSD measurement file"
  const FILE_VERSION: string := "version: 1.4"

  /** The line at `pos`, or `""` past the end of the file (what `readline` returns there). */
  function LineAt(lines: seq<string>, pos: nat): string {
    if pos < |lines| then lines[pos] else ""
  }

  /** The position after one `readline` at `pos`. */
  function Advance(lines: seq<string>, pos: nat): nat {
    if pos < |lines| then pos + 1 else pos
  }

  /** An open text file: its lines and the position of the next line. */
  class Stream {
    const lines: seq<string>
    var pos: nat

    constructor (lines: seq<string>)
      ensures this.lines == lines && pos == 0
    {
      this.lines := lines;
      pos := 0;
    }

    /** `readline()`: the next line, or `""` at the end of the file. */
    method ReadLine() returns (line: string)
      modifies this
      ensures line == LineAt(lines, old(pos)) && pos == Advance(lines, old(pos))
    {
      if pos < |lines| {
        line := lines[pos];
        pos := pos + 1;
      } else {
        line := "";
      }
    }
  }

  // ---------------------------------------------------------------------
  // Separator and header
  // ---------------------------------------------------------------------

  function Separator(line: string): Outcome {
    if Strip(line) != SEPARATOR then Fail(Raised("Expected separator [================]")) else Pass
  }

  method ReadSeparator(s: Stream) returns (r: Outcome)
    modifies s
    ensures (r, s.pos) == (Separator(LineAt(s.lines, old(s.pos))), Advance(s.lines, old(s.pos)))
  {
    var line := s.ReadLine();
    r := Separator(line);
  }

  /** `str(header)` for the list of the two header lines: each printed by
      `repr`, separated by a comma and a space. */
  function HeaderRepr(first: string, second: string): string {
    "[" + Repr(first) + ", " + Repr(second) + "]"
  }

  /** Lines without quotes, backslashes or unprintable characters are
      printed as they are, between single quotes. */
  lemma HeaderReprPlain(first: string, second: string)
    requires PlainText(first) && PlainText(second)
    ensures HeaderRepr(first, second) == "['" + first + "', '" + second + "']"
  {
    ReprPlain(first);
    ReprPlain(second);
  }

  lemma HeaderReprShape(first: string, second: string)
    ensures HeaderRepr(first, second) == "[" + (Repr(first) + (", " + (Repr(second) + "]")))
  {
  }

  lemma CancelPrefix(p: string, x: string, y: string)
    requires p + x == p + y
    ensures x == y
  {
    assert x == (p + x)[|p|..] && y == (p + y)[|p|..];
  }

  /** The printed list tells both lines back. */
  lemma HeaderReprInjective(a1: string, a2: string, b1: string, b2: string)
    requires HeaderRepr(a1, a2) == HeaderRepr(b1, b2)
    ensures a1 == b1 && a2 == b2
  {
    var ta, tb := ", " + (Repr(a2) + "]"), ", " + (Repr(b2) + "]");
    HeaderReprShape(a1, a2);
    HeaderReprShape(b1, b2);
    CancelPrefix("[", Repr(a1) + ta, Repr(b1) + tb);
    ReprPrefix(a1, b1, ta, tb);
    CancelPrefix(", ", Repr(a2) + "]", Repr(b2) + "]");
    ReprPrefix(a2, b2, "]", "]");
  }

  function Header(first: string, second: string): Outcome {
    var h0 := Strip(first);
    var h1 := Strip(second);
    if h0 != FILE_TITLE || h1 != FILE_VERSION then Fail(Raised("Unknown header found: " + HeaderRepr(h0, h1)))
    else Pass
  }

  /** A refused header names both stripped lines, so two files refused with
      the same message had the same header. */
  lemma HeaderRefused(first: string, second: string, first': string, second': string)
    requires Header(first, second).Fail? && Header(first, second) == Header(first', second')
    ensures Strip(first) == Strip(first') && Strip(second) == Strip(second')
  {
    var head := "Unknown header found: ";
    var m := head + HeaderRepr(Strip(first), Strip(second));
    var m' := head + HeaderRepr(Strip(first'), Strip(second'));
    assert m[|head|..] == HeaderRepr(Strip(first), Strip(second));
    assert m'[|head|..] == HeaderRepr(Strip(first'), Strip(second'));
    HeaderReprInjective(Strip(first), Strip(second), Strip(first'), Strip(second'));
  }

  /** Both header lines are read before either is checked. */
  method ReadHeader(s: Stream) returns (r: Outcome)
    modifies s
    ensures var p1 := Advance(s.lines, old(s.pos));
            r == Header(LineAt(s.lines, old(s.pos)), LineAt(s.lines, p1)) && s.pos == Advance(s.lines, p1)
  {
    var first := s.ReadLine();
    var second := s.ReadLine();
    r := Header(first, second);
  }

  /** Whitespace, such as the line break `readline` keeps. */
  predicate Blank(t: string) {
    forall i :: 0 <= i < |t| ==> IsSpace(t[i])
  }

  /** Text that `strip()` leaves as it is: no whitespace at either end. */
  predicate Trimmed(t: string) {
    t != [] && !IsSpace(t[0]) && !IsSpace(t[|t| - 1])
  }

  /** The opening of a file, separator, header and separator, each line
      followed by any whitespace, passes all three checks. */
  lemma PreambleAccepted(lines: seq<string>, pos: nat, ends: seq<string>)
    requires |ends| == 4 && forall j :: 0 <= j < 4 ==> Blank(ends[j])
    requires pos + 4 <= |lines|
    requires lines[pos] == SEPARATOR + ends[0] && lines[pos + 3] == SEPARATOR + ends[3]
    requires lines[pos + 1] == FILE_TITLE + ends[1] && lines[pos + 2] == FILE_VERSION + ends[2]
    ensures Separator(LineAt(lines, pos)) == Pass
    ensures Header(LineAt(lines, pos + 1), LineAt(lines, pos + 2)) == Pass
    ensures Separator(LineAt(lines, pos + 3)) == Pass
  {
    assert SEPARATOR + ends[0] == [] + SEPARATOR + ends[0];
    StripPadded([], SEPARATOR, ends[0]);
    assert SEPARATOR + ends[3] == [] + SEPARATOR + ends[3];
    StripPadded([], SEPARATOR, ends[3]);
    assert FILE_TITLE + ends[1] == [] + FILE_TITLE + ends[1];
    StripPadded([], FILE_TITLE, ends[1]);
    assert FILE_VERSION + ends[2] == [] + FILE_VERSION + ends[2];
    StripPadded([], FILE_VERSION, ends[2]);
  }

  /** A separator line that is anything else is refused, with the message of the source. */
  lemma SeparatorRefused(line: string)
    requires Strip(line) != SEPARATOR
    ensures Separator(line) == Fail(Raised("Expected separator [================]"))
  {
  }

  // ---------------------------------------------------------------------
  // Sample parameters: a line `:name`, then (except for the irradiation
  // and annealing histories) a line holding the value
  // ---------------------------------------------------------------------

  /** The parameters whose name line is not followed by a value line. */
  predicate Unvalued(param: string) {
    StartsWith(param, "Irradiation") || StartsWith(param, "Annealing_history")
  }

  function SampleName(line: string, param: string): (r: Outcome)
    ensures r == Pass <==> Strip(line) == ":" + param
  {
    var name := Strip(line);
    if name != ":" + param then Fail(Raised("Unexpected parameter [" + name + "], expecting [" + param + "]!"))
    else Pass
  }

  /** The value of sample parameter `param` read at `pos`, and the position after it. */
  function SampleParamAt(lines: seq<string>, pos: nat, param: string): (r: (Result<string>, nat))
    ensures r.0.Ok? <==> SampleName(LineAt(lines, pos), param) == Pass
    ensures r.0.Err? ==> r.1 == Advance(lines, pos)
    ensures r.0.Ok? && Unvalued(param) ==> r == (Ok(""), Advance(lines, pos))
  {
    var p1 := Advance(lines, pos);
    match SampleName(LineAt(lines, pos), param)
    case Fail(e) => (Err(e), p1)
    case Pass =>
      if Unvalued(param) then (Ok(""), p1)
      else (Ok(Strip(LineAt(lines, p1))), Advance(lines, p1))
  }

  method ReadSampleParam(s: Stream, param: string) returns (r: Result<string>)
    modifies s
    ensures (r, s.pos) == SampleParamAt(s.lines, old(s.pos), param)
  {
    var line := s.ReadLine();
    var name := Strip(line);
    if name != ":" + param {
      return Err(Raised("Unexpected parameter [" + name + "], expecting [" + param + "]!"));
    }
    if StartsWith(param, "Irradiation") || StartsWith(param, "Annealing_history") {
      return Ok("");
    }
    var value := s.ReadLine();
    r := Ok(Strip(value));
  }

  /** A parameter written as `:name` and then its value, each line followed
      by whitespace, reads back as that value and consumes both lines. */
  lemma SampleParamRoundTrip(lines: seq<string>, pos: nat, param: string, value: string, e0: string, e1: string)
    requires Trimmed(param) && Trimmed(value) && Blank(e0) && Blank(e1) && !Unvalued(param)
    requires pos + 2 <= |lines| && lines[pos] == ":" + param + e0 && lines[pos + 1] == value + e1
    ensures SampleParamAt(lines, pos, param) == (Ok(value), pos + 2)
  {
    var name := ":" + param;
    assert name[0] == ':' && name[|name| - 1] == param[|param| - 1];
    assert lines[pos] == [] + name + e0;
    StripPadded([], name, e0);
    assert lines[pos + 1] == [] + value + e1;
    StripPadded([], value, e1);
  }

  /** The histories are a name line alone: the line after it is not read. */
  lemma SampleHistoryOneLine(lines: seq<string>, pos: nat, param: string, e0: string)
    requires Trimmed(param) && Blank(e0) && Unvalued(param)
    requires pos < |lines| && lines[pos] == ":" + param + e0
    ensures SampleParamAt(lines, pos, param) == (Ok(""), pos + 1)
  {
    var name := ":" + param;
    assert name[0] == ':' && name[|name| - 1] == param[|param| - 1];
    assert lines[pos] == [] + name + e0;
    StripPadded([], name, e0);
  }

  // ---------------------------------------------------------------------
  // Setup parameters: `name: value`
  // ---------------------------------------------------------------------

  /** Text without colons. */
  predicate NoColon(t: string) {
    forall i :: 0 <= i < |t| ==> t[i] != ':'
  }

  /** `name, value = line.strip().split(':', 2)` as the reader is written:
      the unpacking needs exactly two parts, so a value holding a colon of
      its own gives three parts and a `ValueError`. */
  function SetupParamAsWritten(line: string, param: string): (r: Result<string>)
    ensures r.Ok? ==> Occurrences(Strip(line), ':') == 1
  {
    var parts := SplitMax(Strip(line), ':', 2);
    if |parts| != 2 then Err(ValueError)
    else if parts[0] != param then Err(Raised("Unexpected parameter [" + parts[0] + "], expecting [" + param + "]!"))
    else Ok(Strip(parts[1]))
  }

  /** The same with the first colon alone separating name and value
      (`split(':', 1)`), what the file format asks for. */
  function SetupParam(line: string, param: string): (r: Result<string>)
    ensures r.Ok? ==> Occurrences(Strip(line), ':') >= 1
    ensures r.Err? ==> (r.error == ValueError <==> Occurrences(Strip(line), ':') == 0)
  {
    var parts := SplitMax(Strip(line), ':', 1);
    if |parts| != 2 then Err(ValueError)
    else if parts[0] != param then Err(Raised("Unexpected parameter [" + parts[0] + "], expecting [" + param + "]!"))
    else Ok(Strip(parts[1]))
  }

  method ReadSetupParam(s: Stream, param: string) returns (r: Result<string>)
    modifies s
    ensures r == SetupParam(LineAt(s.lines, old(s.pos)), param) && s.pos == Advance(s.lines, old(s.pos))
  {
    var line := s.ReadLine();
    r := SetupParam(line, param);
  }

  /** With at most one colon on the line, splitting at most twice or at
      most once cuts it the same way. */
  lemma SplitOnceOrTwice(t: string)
    requires Occurrences(t, ':') <= 1
    ensures SplitMax(t, ':', 2) == SplitMax(t, ':', 1)
  {
    var k := IndexOf(t, ':');
    if k < |t| {
      OccurrencesSplit(t, ':', k);
      var rest := t[k + 1..];
      assert |SplitMax(rest, ':', 1)| == 1;
    }
  }

  /** The corrected reader differs from the one as written only on lines
      with two colons or more: wherever the reader as written returns a
      value or raises, on a line with at most one colon, the corrected one
      does the same. */
  lemma SetupParamAgrees(line: string, param: string)
    ensures Occurrences(Strip(line), ':') <= 1 ==> SetupParam(line, param) == SetupParamAsWritten(line, param)
    ensures SetupParamAsWritten(line, param).Ok? ==> SetupParam(line, param) == SetupParamAsWritten(line, param)
  {
    if Occurrences(Strip(line), ':') <= 1 {
      SplitOnceOrTwice(Strip(line));
    }
  }

  lemma IndexOfAbsent(t: string, c: char)
    requires forall i :: 0 <= i < |t| ==> t[i] != c
    ensures IndexOf(t, c) == |t|
  {
  }

  /** `name: value` splits at the colon after the name. */
  lemma SplitAtName(name: string, rest: string, maxsplit: nat)
    requires NoColon(name) && maxsplit > 0
    ensures SplitMax(name + ":" + rest, ':', maxsplit) == [name] + SplitMax(rest, ':', maxsplit - 1)
  {
    var line := name + ":" + rest;
    assert forall i :: 0 <= i < |name| ==> line[i] != ':';
    assert line[|name|] == ':';
    assert IndexOf(line, ':') == |name|;
    assert line[..|name|] == name;
    assert line[|name| + 1..] == rest;
  }

  /** The line `name: value` as the set-up writes it. */
  function Entry(name: string, value: string): string {
    name + ":" + (" " + value)
  }

  lemma StripEntry(name: string, value: string, e: string)
    requires Trimmed(name) && Trimmed(value) && Blank(e)
    ensures Strip(Entry(name, value) + e) == Entry(name, value)
  {
    var line := Entry(name, value);
    assert line[0] == name[0] && line[|line| - 1] == value[|value| - 1];
    assert line + e == [] + line + e;
    StripPadded([], line, e);
  }

  lemma StripSpaceBefore(value: string)
    requires Trimmed(value)
    ensures Strip(" " + value) == value
  {
    assert " " + value == " " + value + [];
    StripPadded(" ", value, []);
  }

  /** `name: value` with a trimmed name and value, followed by whitespace,
      reads back as the value: by the corrected reader whatever colons the
      value holds, and by the reader as written whenever it holds none. */
  lemma SetupParamRoundTrip(param: string, value: string, e: string)
    requires Trimmed(param) && NoColon(param) && Trimmed(value) && Blank(e)
    ensures SetupParam(Entry(param, value) + e, param) == Ok(value)
    ensures NoColon(value) ==> SetupParamAsWritten(Entry(param, value) + e, param) == Ok(value)
  {
    StripEntry(param, value, e);
    SplitAtName(param, " " + value, 1);
    assert SplitMax(" " + value, ':', 0) == [" " + value];
    StripSpaceBefore(value);
    if NoColon(value) {
      SplitAtName(param, " " + value, 2);
      assert NoColon(" " + value);
      IndexOfAbsent(" " + value, ':');
      assert SplitMax(" " + value, ':', 1) == [" " + value];
    }
  }

  lemma SetupParamColonAsWritten(param: string, a: string, b: string)
    requires Trimmed(param) && NoColon(param) && Trimmed(a) && Trimmed(b) && NoColon(a) && NoColon(b)
    ensures SetupParamAsWritten(Entry(param, a + ":" + b), param) == Err(ValueError)
  {
    ColonEntryStripped(param, a, b);
    ColonEntryParts(param, a, b);
  }

  lemma ColonEntryStripped(param: string, a: string, b: string)
    requires Trimmed(param) && Trimmed(a) && Trimmed(b)
    ensures Strip(Entry(param, a + ":" + b)) == Entry(param, a + ":" + b)
  {
    var value := a + ":" + b;
    assert value[0] == a[0] && value[|value| - 1] == b[|b| - 1];
    assert Entry(param, value) + [] == Entry(param, value);
    StripEntry(param, value, []);
  }

  /** Split at most twice, `name: a:b` falls into three parts. */
  lemma ColonEntryParts(param: string, a: string, b: string)
    requires NoColon(param) && NoColon(a)
    ensures |SplitMax(Entry(param, a + ":" + b), ':', 2)| == 3
  {
    var tail := " " + (a + ":" + b);
    assert Entry(param, a + ":" + b) == param + ":" + tail;
    SplitAtName(param, tail, 2);
    TailParts(a, b);
  }

  lemma TailParts(a: string, b: string)
    requires NoColon(a)
    ensures |SplitMax(" " + (a + ":" + b), ':', 1)| == 2
  {
    assert " " + (a + ":" + b) == (" " + a) + ":" + b;
    assert NoColon(" " + a);
    SplitAtName(" " + a, b, 1);
  }

  /** The reader as written refuses a value with a colon in it (a time of
      day, say), which the corrected split reads back whole. */
  lemma SetupParamColonFinding(param: string, a: string, b: string)
    requires Trimmed(param) && NoColon(param) && Trimmed(a) && Trimmed(b) && NoColon(a) && NoColon(b)
    ensures SetupParamAsWritten(Entry(param, a + ":" + b), param) == Err(ValueError)
    ensures SetupParam(Entry(param, a + ":" + b), param) == Ok(a + ":" + b)
  {
    SetupParamColonAsWritten(param, a, b);
    var value := a + ":" + b;
    assert value[0] == a[0] && value[|value| - 1] == b[|b| - 1];
    assert Entry(param, value) + [] == Entry(param, value);
    SetupParamRoundTrip(param, value, []);
  }

  /** A line written as a sample parameter, by the same name, is no setup parameter. */
  lemma SampleLineIsNoSetupLine(param: string)
    requires Trimmed(param) && NoColon(param)
    ensures SetupParam(":" + param, param).Err?
  {
    var line := ":" + param;
    assert line[0] == ':' && line[|line| - 1] == param[|param| - 1];
    assert line == [] + line + [];
    StripPadded([], line, []);
    SplitAtName([], param, 1);
    assert [] + ":" + param == line;
  }

  // ---------------------------------------------------------------------
  // Vectors: `<p>Min`, `<p>Max`, `delta<p>`, `n<p>` and `<p>Vector` lines
  // ---------------------------------------------------------------------

  function VectorAspects(param: string): (r: seq<string>)
    ensures |r| == 5
  {
    [param + "Min", param + "Max", "delta" + param, "n" + param, param + "Vector"]
  }

  /** The five aspect names are five different dictionary keys. */
  lemma VectorAspectsDistinct(param: string)
    ensures forall i, j :: 0 <= i < j < 5 ==> VectorAspects(param)[i] != VectorAspects(param)[j]
  {
    var a := VectorAspects(param);
    assert a[0][|param| + 1] == 'i' && a[1][|param| + 1] == 'a';
  }

  /** One aspect line: `name: value`, with `name` (stripped) the aspect. */
  function AspectValue(line: string, aspect: string): (r: Result<string>)
  {
    var parts := SplitMax(Strip(line), ':', 2);
    if |parts| != 2 then Err(ValueError)
    else if Strip(parts[0]) != aspect then Err(Raised("Unexpected vector aspect [" + parts[0] + "], expecting [" + aspect + "]"))
    else Ok(Strip(parts[1]))
  }

  /** Lines that hold no `name: value` pair are refused, in particular the
      empty string `readline` gives at the end of the file. */
  lemma AspectValueNeedsColon(line: string, aspect: string)
    requires Occurrences(Strip(line), ':') == 0
    ensures AspectValue(line, aspect) == Err(ValueError)
  {
  }

  lemma EmptyAspectRefused()
    ensures forall aspect :: AspectValue("", aspect) == Err(ValueError)
  {
    assert Strip("") == "";
  }

  /** The values of `keys`, read with `read` one line each from `pos`, and
      the position after the last line read; the first refused line stops
      the reading. */
  function ReadEach(lines: seq<string>, pos: nat, keys: seq<string>, read: (string, string) -> Result<string>): (r: (Result<seq<string>>, nat))
    ensures r.0.Ok? ==> |r.0.value| == |keys|
    decreases |keys|
  {
    if keys == [] then (Ok([]), pos)
    else
      var n := |keys| - 1;
      var (prev, p) := ReadEach(lines, pos, keys[..n], read);
      if prev.Err? then (prev, p)
      else
        match read(LineAt(lines, p), keys[n])
        case Err(e) => (Err(e), Advance(lines, p))
        case Ok(v) => (Ok(prev.value + [v]), Advance(lines, p))
  }

  /** The values of the aspects of a vector, read from `pos`. */
  function AspectsAt(lines: seq<string>, pos: nat, aspects: seq<string>): (r: (Result<seq<string>>, nat)) {
    ReadEach(lines, pos, aspects, AspectValue)
  }

  /** When the empty line is refused, a read that succeeds stays inside the
      file, consumes one line per key, and each value read is what the line
      of its key holds. */
  lemma {:induction false} ReadEachValues(lines: seq<string>, pos: nat, keys: seq<string>, read: (string, string) -> Result<string>)
    requires forall k :: read("", k).Err?
    requires ReadEach(lines, pos, keys, read).0.Ok?
    ensures ReadEach(lines, pos, keys, read).1 == pos + |keys|
    ensures keys != [] ==> pos + |keys| <= |lines|
    ensures forall j :: 0 <= j < |keys| ==>
              pos + j < |lines| && read(lines[pos + j], keys[j]) == Ok(ReadEach(lines, pos, keys, read).0.value[j])
    decreases |keys|
  {
    if keys != [] {
      var n := |keys| - 1;
      var (prev, p) := ReadEach(lines, pos, keys[..n], read);
      ReadEachValues(lines, pos, keys[..n], read);
      var v := read(LineAt(lines, p), keys[n]);
      assert v.Ok?;
      assert p < |lines|;
      var all := ReadEach(lines, pos, keys, read).0.value;
      assert all == prev.value + [v.value];
      forall j | 0 <= j < |keys|
        ensures pos + j < |lines| && read(lines[pos + j], keys[j]) == Ok(all[j])
      {
        if j < n {
          assert keys[..n][j] == keys[j] && all[j] == prev.value[j];
        }
      }
    }
  }

  /** A vector read that gets all five aspects consumes exactly their five
      lines, and each value is what its aspect line holds. */
  lemma AspectsValues(lines: seq<string>, pos: nat, aspects: seq<string>)
    requires AspectsAt(lines, pos, aspects).0.Ok?
    ensures AspectsAt(lines, pos, aspects).1 == pos + |aspects|
    ensures aspects != [] ==> pos + |aspects| <= |lines|
    ensures forall j :: 0 <= j < |aspects| ==>
              pos + j < |lines| && AspectValue(lines[pos + j], aspects[j]) == Ok(AspectsAt(lines, pos, aspects).0.value[j])
  {
    EmptyAspectRefused();
    ReadEachValues(lines, pos, aspects, AspectValue);
  }

  /** Once a key is refused, the later keys are not read. */
  lemma {:induction false} ReadEachErrorStops(lines: seq<string>, pos: nat, keys: seq<string>, read: (string, string) -> Result<string>, k: nat)
    requires k <= |keys| && ReadEach(lines, pos, keys[..k], read).0.Err?
    ensures ReadEach(lines, pos, keys, read) == ReadEach(lines, pos, keys[..k], read)
    decreases |keys| - k
  {
    if k < |keys| {
      var n := |keys| - 1;
      assert keys[..n][..k] == keys[..k];
      ReadEachErrorStops(lines, pos, keys[..n], read, k);
      assert keys[..|keys|] == keys;
    } else {
      assert keys[..k] == keys;
    }
  }

  /** Lines that each hold their key are all read. */
  lemma {:induction false} ReadEachAll(lines: seq<string>, pos: nat, keys: seq<string>, read: (string, string) -> Result<string>, texts: seq<string>)
    requires |texts| == |keys| && pos + |keys| <= |lines|
    requires forall j :: 0 <= j < |keys| ==> read(lines[pos + j], keys[j]) == Ok(texts[j])
    ensures ReadEach(lines, pos, keys, read) == (Ok(texts), pos + |keys|)
    decreases |keys|
  {
    if keys != [] {
      var n := |keys| - 1;
      ReadEachAll(lines, pos, keys[..n], read, texts[..n]);
      assert texts == texts[..n] + [texts[n]];
    }
  }

  /** Converting every token with `parse`, failing with a `ValueError` on
      the first token that is refused. */
  function ConvertAll(tokens: seq<string>, parse: string -> Option<real>): (r: Result<seq<real>>)
    ensures r.Ok? <==> forall i :: 0 <= i < |tokens| ==> parse(tokens[i]).Some?
    ensures r.Ok? ==> |r.value| == |tokens| && forall i :: 0 <= i < |tokens| ==> r.value[i] == parse(tokens[i]).value
    ensures r.Err? ==> r.error == ValueError
    decreases |tokens|
  {
    if tokens == [] then Ok([])
    else
      var n := |tokens| - 1;
      var prev := ConvertAll(tokens[..n], parse);
      var x := parse(tokens[n]);
      assert forall i :: 0 <= i < n ==> tokens[..n][i] == tokens[i];
      if prev.Err? then Err(ValueError)
      else if x.None? then Err(ValueError)
      else
        var values := prev.value + [x.value];
        assert values[n] == x.value && forall i :: 0 <= i < n ==> values[i] == prev.value[i];
        Ok(values)
  }

  /** `np.array(tokens, dtype=np.float64)` on strings: each token must be a number. */
  function ParseFloats(tokens: seq<string>): Result<seq<real>> {
    ConvertAll(tokens, ParseFloat)
  }

  /** `N = int(...)`, then the values, then the comparison of their number with `N`. */
  function Counted(n: Result<int>, values: Result<seq<real>>, param: string): (r: Result<seq<real>>)
    ensures r.Ok? <==> n.Ok? && values.Ok? && |values.value| == n.value
    ensures r.Ok? ==> r == values
    ensures n.Err? ==> r == Err(n.error)
    ensures n.Ok? && values.Err? ==> r == Err(values.error)
  {
    var count :- n;
    var xs :- values;
    if |xs| != count then
      Err(Raised("Unexpected number of vector values [" + IntToString(|xs|) + "] for vector [" + param
                 + "], expecting [" + IntToString(count) + "] values!"))
    else Ok(xs)
  }

  /** The vector from its count text and its space-separated values. */
  function VectorOf(count: string, vector: string, param: string): Result<seq<real>> {
    Counted(ParseInt(count), ParseFloats(Split(vector, ' ')), param)
  }

  /** The vector `param` read at `pos`, and the position after it. */
  function VectorAt(lines: seq<string>, pos: nat, param: string): (r: (Result<seq<real>>, nat))
  {
    var (data, p) := AspectsAt(lines, pos, VectorAspects(param));
    if data.Err? then (Err(data.error), p) else (VectorOf(data.value[3], data.value[4], param), p)
  }

  method ReadVector(s: Stream, param: string) returns (r: Result<seq<real>>)
    modifies s
    ensures (r, s.pos) == VectorAt(s.lines, old(s.pos), param)
  {
    var aspects := VectorAspects(param);
    VectorAspectsDistinct(param);
    var data: map<string, string> := map[];
    ghost var start := s.pos;
    ghost var read: seq<string> := [];
    for i := 0 to |aspects|
      invariant ReadEach(s.lines, start, aspects[..i], AspectValue) == (Ok(read), s.pos)
      invariant |read| == i
      invariant forall j :: 0 <= j < i ==> aspects[j] in data && data[aspects[j]] == read[j]
    {
      var line := s.ReadLine();
      var v := AspectValue(line, aspects[i]);
      assert aspects[..i + 1][..i] == aspects[..i];
      if v.Err? {
        ReadEachErrorStops(s.lines, start, aspects, AspectValue, i + 1);
        return Err(v.error);
      }
      data := data[aspects[i] := v.value];
      read := read + [v.value];
    }
    assert aspects[..|aspects|] == aspects;
    r := VectorOf(data["n" + param], data[param + "Vector"], param);
  }

  /** Text that is one vector token: no spaces and no colons. */
  predicate Token(t: string) {
    t != [] && forall i :: 0 <= i < |t| ==> !IsSpace(t[i]) && t[i] != ':'
  }

  lemma {:induction false} JoinTokens(ts: seq<string>)
    requires ts != [] && forall j :: 0 <= j < |ts| ==> Token(ts[j])
    ensures Trimmed(Join(" ", ts)) && NoColon(Join(" ", ts))
    ensures Join(" ", ts)[0] == ts[0][0]
  {
    if |ts| > 1 {
      JoinTokens(ts[1..]);
      var rest := Join(" ", ts[1..]);
      assert Join(" ", ts) == ts[0] + " " + rest;
    }
  }

  lemma AspectLineRoundTrip(aspect: string, value: string)
    requires Trimmed(aspect) && NoColon(aspect) && Trimmed(value) && NoColon(value)
    ensures AspectValue(Entry(aspect, value), aspect) == Ok(value)
  {
    assert Entry(aspect, value) + [] == Entry(aspect, value);
    StripEntry(aspect, value, []);
    SplitAtName(aspect, " " + value, 2);
    assert NoColon(" " + value);
    IndexOfAbsent(" " + value, ':');
    assert aspect == [] + aspect + [];
    StripPadded([], aspect, []);
    StripSpaceBefore(value);
  }

  lemma AspectNames(param: string)
    requires Trimmed(param) && NoColon(param)
    ensures forall j :: 0 <= j < 5 ==> Trimmed(VectorAspects(param)[j]) && NoColon(VectorAspects(param)[j])
  {
    var a := VectorAspects(param);
    assert a[0][0] == param[0] && a[1][0] == param[0] && a[4][0] == param[0];
    assert a[2][|a[2]| - 1] == param[|param| - 1] && a[3][|a[3]| - 1] == param[|param| - 1];
  }

  lemma NumberTrimmed(n: nat)
    ensures Trimmed(NatToString(n)) && NoColon(NatToString(n))
  {
    var d := NatToString(n);
    assert IsDigit(d[0]) && IsDigit(d[|d| - 1]);
  }

  /** The count and the values of a vector written out read back as its numbers. */
  lemma VectorOfTokens(tokens: seq<string>, param: string)
    requires tokens != [] && forall j :: 0 <= j < |tokens| ==> Token(tokens[j]) && ParseFloat(tokens[j]).Some?
    ensures VectorOf(NatToString(|tokens|), Join(" ", tokens), param) == ParseFloats(tokens)
  {
    ParseIntRoundTrip(|tokens|);
    assert forall j, i :: 0 <= j < |tokens| && 0 <= i < |tokens[j]| ==> tokens[j][i] != ' ';
    SplitJoin(tokens, ' ');
    var values := ParseFloats(tokens);
    assert values.Ok? && |values.value| == |tokens|;
  }

  /** Each of the five lines of a vector written out holds its aspect. */
  lemma VectorLinesHold(lines: seq<string>, pos: nat, param: string, texts: seq<string>)
    requires Trimmed(param) && NoColon(param)
    requires |texts| == 5 && forall j :: 0 <= j < 5 ==> Trimmed(texts[j]) && NoColon(texts[j])
    requires pos + 5 <= |lines| && forall j :: 0 <= j < 5 ==> lines[pos + j] == Entry(VectorAspects(param)[j], texts[j])
    ensures forall j :: 0 <= j < 5 ==> AspectValue(lines[pos + j], VectorAspects(param)[j]) == Ok(texts[j])
  {
    AspectNames(param);
    forall j | 0 <= j < 5
      ensures AspectValue(lines[pos + j], VectorAspects(param)[j]) == Ok(texts[j])
    {
      AspectLineRoundTrip(VectorAspects(param)[j], texts[j]);
    }
  }

  /** The five lines of a vector are read when each holds its aspect. */
  lemma VectorLinesRead(lines: seq<string>, pos: nat, param: string, texts: seq<string>)
    requires |texts| == 5 && pos + 5 <= |lines|
    requires forall j :: 0 <= j < 5 ==> AspectValue(lines[pos + j], VectorAspects(param)[j]) == Ok(texts[j])
    ensures AspectsAt(lines, pos, VectorAspects(param)) == (Ok(texts), pos + 5)
  {
    ReadEachAll(lines, pos, VectorAspects(param), AspectValue, texts);
  }

  /** A vector written as its five lines `Min`, `Max`, `delta`, `n` and
      `Vector`, each `aspect: value`, is read as the vector of its count and
      values lines and consumes exactly those five lines. */
  lemma VectorRead(lines: seq<string>, pos: nat, param: string, texts: seq<string>)
    requires Trimmed(param) && NoColon(param)
    requires |texts| == 5 && forall j :: 0 <= j < 5 ==> Trimmed(texts[j]) && NoColon(texts[j])
    requires pos + 5 <= |lines| && forall j :: 0 <= j < 5 ==> lines[pos + j] == Entry(VectorAspects(param)[j], texts[j])
    ensures VectorAt(lines, pos, param) == (VectorOf(texts[3], texts[4], param), pos + 5)
  {
    VectorLinesHold(lines, pos, param, texts);
    VectorLinesRead(lines, pos, param, texts);
  }

  /** The vector of `tokens`, written with their count, reads back as their numbers. */
  lemma VectorRoundTrip(param: string, tokens: seq<string>)
    requires tokens != [] && forall j :: 0 <= j < |tokens| ==> Token(tokens[j]) && ParseFloat(tokens[j]).Some?
    ensures Trimmed(NatToString(|tokens|)) && NoColon(NatToString(|tokens|))
    ensures Trimmed(Join(" ", tokens)) && NoColon(Join(" ", tokens))
    ensures VectorOf(NatToString(|tokens|), Join(" ", tokens), param) == ParseFloats(tokens) && ParseFloats(tokens).Ok?
  {
    NumberTrimmed(|tokens|);
    JoinTokens(tokens);
    VectorOfTokens(tokens, param);
  }

  /** An empty vector line is never read: it splits into one empty token,
      which is no number. */
  lemma EmptyVectorRefused(count: string, param: string)
    requires ParseInt(count).Ok?
    ensures VectorOf(count, "", param) == Err(ValueError)
  {
    assert Split("", ' ') == [""];
    assert Strip("") == "";
    assert ExponentAt("") == 0;
    assert IndexOf("", '.') == 0;
  }
}
