/** Python string operations the modelled code relies on: `str.strip`,
    `str.lower`, `str.startswith`, `str.join`, `str.split` with a
    one-character separator, `str(n)` for integers, `repr` of a string, and
    the `int(...)` and `float(...)` conversions of decimal text. */
module Text {
  import opened Wrappers

  /** `str.isspace` for one character (the Unicode whitespace set). */
  predicate IsSpace(c: char) {
    c == ' ' || ('\t' <= c <= '\r') || ('\U{1C}' <= c <= '\U{1F}') ||
    c == '\U{85}' || c == '\U{A0}' || c == '\U{1680}' || ('\U{2000}' <= c <= '\U{200A}') ||
    c == '\U{2028}' || c == '\U{2029}' || c == '\U{202F}' || c == '\U{205F}' || c == '\U{3000}'
  }

  /** `str.lstrip()`: drops the leading whitespace. */
  function LStrip(s: string): string {
    if |s| > 0 && IsSpace(s[0]) then LStrip(s[1..]) else s
  }

  /** `str.rstrip()`: drops the trailing whitespace. */
  function RStrip(s: string): string {
    if |s| > 0 && IsSpace(s[|s| - 1]) then RStrip(s[..|s| - 1]) else s
  }

  /** `lstrip` leaves a suffix of its input, cut only at whitespace, that
      does not start with whitespace. */
  lemma {:induction false} LStripSpec(s: string)
    ensures var r := LStrip(s); |r| <= |s| && r == s[|s| - |r|..]
    ensures var r := LStrip(s); r == [] || !IsSpace(r[0])
    ensures var r := LStrip(s); forall i :: 0 <= i < |s| - |r| ==> IsSpace(s[i])
  {
    if |s| > 0 && IsSpace(s[0]) {
      LStripSpec(s[1..]);
    }
  }

  /** `rstrip` leaves a prefix of its input, cut only at whitespace, that
      does not end with whitespace. */
  lemma {:induction false} RStripSpec(s: string)
    ensures var r := RStrip(s); |r| <= |s| && r == s[..|r|]
    ensures var r := RStrip(s); r == [] || !IsSpace(r[|r| - 1])
    ensures var r := RStrip(s); forall i :: |r| <= i < |s| ==> IsSpace(s[i])
  {
    if |s| > 0 && IsSpace(s[|s| - 1]) {
      RStripSpec(s[..|s| - 1]);
    }
  }

  /** `str.strip()` with no argument. */
  function Strip(s: string): (r: string)
  {
    RStrip(LStrip(s))
  }

  /** What `str.strip()` promises: a contiguous piece of the input, with only
      whitespace cut off on either side and none left at the ends. */
  lemma StripSpec(s: string)
    ensures var i := |s| - |LStrip(s)|; 0 <= i <= |s| - |Strip(s)| && Strip(s) == s[i..i + |Strip(s)|]
    ensures Strip(s) == [] || (!IsSpace(Strip(s)[0]) && !IsSpace(Strip(s)[|Strip(s)| - 1]))
  {
    var l := LStrip(s);
    var r := RStrip(l);
    LStripSpec(s);
    RStripSpec(l);
    var i := |s| - |l|;
    var m := |r|;
    assert l == s[i..];
    assert r == l[..m];
    SliceOfSuffix(s, i, m);
    if r != [] {
      assert r[0] == l[0];
    }
  }

  lemma SliceOfSuffix(s: string, i: nat, m: nat)
    requires i + m <= |s|
    ensures s[i..][..m] == s[i..i + m]
  {
  }

  /** Stripping twice is the same as stripping once. */
  lemma StripIdempotent(s: string)
    ensures Strip(Strip(s)) == Strip(s)
  {
    var r := Strip(s);
    StripSpec(s);
    if r != [] {
      assert !IsSpace(r[0]) && !IsSpace(r[|r| - 1]);
      assert LStrip(r) == r;
      assert RStrip(r) == r;
    }
  }

  /** A string whose first and last characters are not spaces is what
      `strip()` leaves of it padded with whitespace on both sides. */
  lemma {:induction false} StripPadded(pre: string, s: string, post: string)
    requires s != [] && !IsSpace(s[0]) && !IsSpace(s[|s| - 1])
    requires forall i :: 0 <= i < |pre| ==> IsSpace(pre[i])
    requires forall i :: 0 <= i < |post| ==> IsSpace(post[i])
    ensures Strip(pre + s + post) == s
  {
    assert pre + s + post == pre + (s + post);
    assert (s + post)[0] == s[0];
    LStripPadded(pre, s + post);
    RStripPadded(s, post);
  }

  lemma {:induction false} LStripPadded(pre: string, s: string)
    requires s != [] && !IsSpace(s[0])
    requires forall i :: 0 <= i < |pre| ==> IsSpace(pre[i])
    ensures LStrip(pre + s) == s
    decreases |pre|
  {
    if pre != [] {
      assert (pre + s)[1..] == pre[1..] + s;
      LStripPadded(pre[1..], s);
    } else {
      assert pre + s == s;
    }
  }

  lemma {:induction false} RStripPadded(s: string, post: string)
    requires s != [] && !IsSpace(s[|s| - 1])
    requires forall i :: 0 <= i < |post| ==> IsSpace(post[i])
    ensures RStrip(s + post) == s
    decreases |post|
  {
    if post != [] {
      var n := |post| - 1;
      assert (s + post)[..|s + post| - 1] == s + post[..n];
      RStripPadded(s, post[..n]);
    } else {
      assert s + post == s;
    }
  }

  /** `str.lower()` on ASCII letters; other characters are kept. */
  function Lower(s: string): (r: string)
    ensures |r| == |s|
    ensures forall i :: 0 <= i < |s| ==> r[i] == (if 'A' <= s[i] <= 'Z' then (s[i] as int + 32) as char else s[i])
  {
    if s == [] then [] else
      [if 'A' <= s[0] <= 'Z' then (s[0] as int + 32) as char else s[0]] + Lower(s[1..])
  }

  predicate StartsWith(s: string, prefix: string) {
    |prefix| <= |s| && s[..|prefix|] == prefix
  }

  predicate EndsWith(s: string, suffix: string) {
    |suffix| <= |s| && s[|s| - |suffix|..] == suffix
  }

  /** `sep.join(parts)`. */
  function Join(sep: string, parts: seq<string>): (r: string)
    ensures |parts| == 1 ==> r == parts[0]
  {
    if parts == [] then "" else if |parts| == 1 then parts[0] else parts[0] + sep + Join(sep, parts[1..])
  }

  /** Number of occurrences of `c` in `s`. */
  function Occurrences(s: string, c: char): nat {
    if s == [] then 0 else (if s[0] == c then 1 else 0) + Occurrences(s[1..], c)
  }

  /** Index of the first `c` in `s`, or `|s|` when there is none. */
  function IndexOf(s: string, c: char): (k: nat)
    ensures k <= |s|
    ensures k < |s| ==> s[k] == c
    ensures forall i :: 0 <= i < k ==> s[i] != c
  {
    if s == [] then 0 else if s[0] == c then 0 else 1 + IndexOf(s[1..], c)
  }

  /** `s.split(sep)` for a one-character separator: every occurrence cuts. */
  function Split(s: string, sep: char): (r: seq<string>)
    ensures |r| == Occurrences(s, sep) + 1
    decreases |s|
  {
    var k := IndexOf(s, sep);
    if k == |s| then
      assert Occurrences(s, sep) == 0 by { NoOccurrences(s, sep); }
      [s]
    else
      OccurrencesSplit(s, sep, k);
      [s[..k]] + Split(s[k + 1..], sep)
  }

  /** `s.split(sep, maxsplit)`: at most `maxsplit` cuts, the rest stays whole. */
  function SplitMax(s: string, sep: char, maxsplit: nat): (r: seq<string>)
    ensures |r| == (if Occurrences(s, sep) < maxsplit then Occurrences(s, sep) else maxsplit) + 1
    decreases |s|
  {
    var k := IndexOf(s, sep);
    if maxsplit == 0 || k == |s| then
      assert k == |s| ==> Occurrences(s, sep) == 0 by { if k == |s| { NoOccurrences(s, sep); } }
      assert k < |s| ==> Occurrences(s, sep) > 0 by { if k < |s| { OccurrencesSplit(s, sep, k); } }
      [s]
    else
      OccurrencesSplit(s, sep, k);
      [s[..k]] + SplitMax(s[k + 1..], sep, maxsplit - 1)
  }

  /** Splitting what `join` glued together gives the parts back, when no
      part holds the separator. */
  lemma {:induction false} SplitJoin(parts: seq<string>, c: char)
    requires parts != []
    requires forall j, i :: 0 <= j < |parts| && 0 <= i < |parts[j]| ==> parts[j][i] != c
    ensures Split(Join([c], parts), c) == parts
  {
    var s := Join([c], parts);
    if |parts| == 1 {
      assert IndexOf(s, c) == |s|;
    } else {
      var p := parts[0];
      var rest := Join([c], parts[1..]);
      assert s == p + [c] + rest;
      assert forall i :: 0 <= i < |p| ==> p[i] != c;
      SplitHead(p, rest, c);
      SplitJoin(parts[1..], c);
      assert parts == [p] + parts[1..];
    }
  }

  /** A first part free of the separator is split off whole. */
  lemma SplitHead(p: string, rest: string, c: char)
    requires forall i :: 0 <= i < |p| ==> p[i] != c
    ensures Split(p + [c] + rest, c) == [p] + Split(rest, c)
  {
    var s := p + [c] + rest;
    assert forall i :: 0 <= i < |p| ==> s[i] != c;
    assert s[|p|] == c;
    assert IndexOf(s, c) == |p|;
    assert s[..|p|] == p;
    assert s[|p| + 1..] == rest;
  }

  lemma NoOccurrences(s: string, c: char)
    requires forall i :: 0 <= i < |s| ==> s[i] != c
    ensures Occurrences(s, c) == 0
  {
    if s != [] { NoOccurrences(s[1..], c); }
  }

  lemma OccurrencesSplit(s: string, c: char, k: nat)
    requires k < |s| && s[k] == c
    requires forall i :: 0 <= i < k ==> s[i] != c
    ensures Occurrences(s, c) == 1 + Occurrences(s[k + 1..], c)
  {
    if k > 0 {
      OccurrencesSplit(s[1..], c, k - 1);
      assert s[1..][k..] == s[k + 1..];
    }
  }

  function DigitChar(d: nat): char
    requires d < 10
  {
    ('0' as int + d) as char
  }

  /** `str(n)` for a natural number. */
  function NatToString(n: nat): (r: string)
    ensures |r| > 0
    ensures forall i :: 0 <= i < |r| ==> '0' <= r[i] <= '9'
    decreases n
  {
    if n < 10 then [DigitChar(n)] else NatToString(n / 10) + [DigitChar(n % 10)]
  }

  /** `str(i)` for an integer. */
  function IntToString(i: int): string {
    if i < 0 then "-" + NatToString(-i) else NatToString(i)
  }

  /** `f'{n:0{width}d}'`: decimal digits padded with leading zeros. */
  function ZeroPad(n: nat, width: nat): (r: string)
    ensures |r| >= width
  {
    var d := NatToString(n);
    if |d| >= width then d else seq(width - |d|, _ => '0') + d
  }

  predicate IsDigit(c: char) { '0' <= c <= '9' }

  /** Python's digit part: digits, with single underscores allowed between two digits. */
  predicate IsDigitPart(s: string) {
    |s| > 0 && IsDigit(s[0]) && IsDigit(s[|s| - 1]) &&
    forall i :: 0 < i < |s| - 1 ==> IsDigit(s[i]) || (s[i] == '_' && IsDigit(s[i - 1]) && IsDigit(s[i + 1]))
  }

  /** The digits of `s` with underscores dropped. */
  function DigitsOnly(s: string): string {
    if s == [] then [] else (if s[0] == '_' then [] else [s[0]]) + DigitsOnly(s[1..])
  }

  /** The number written by a string of decimal digits (0 for the empty string). */
  function DecimalValue(s: string): nat {
    if s == [] then 0
    else DecimalValue(s[..|s| - 1]) * 10 + (if IsDigit(s[|s| - 1]) then s[|s| - 1] as int - '0' as int else 0)
  }

  function Pow10(n: nat): (r: nat)
    ensures r >= 1
  {
    if n == 0 then 1 else 10 * Pow10(n - 1)
  }

  /** Reading the decimal digits of `str(n)` gives `n` back, so distinct
      numbers are printed differently. */
  lemma {:induction false} NatToStringRoundTrip(n: nat)
    ensures DecimalValue(NatToString(n)) == n
    decreases n
  {
    var s := NatToString(n);
    if n < 10 {
      assert s[..0] == [];
    } else {
      NatToStringRoundTrip(n / 10);
      assert s[..|s| - 1] == NatToString(n / 10);
    }
  }

  lemma NatToStringInjective(a: nat, b: nat)
    ensures NatToString(a) == NatToString(b) <==> a == b
  {
    NatToStringRoundTrip(a);
    NatToStringRoundTrip(b);
  }

  lemma {:induction false} DigitsOnlyOfDigits(s: string)
    requires forall i :: 0 <= i < |s| ==> IsDigit(s[i])
    ensures DigitsOnly(s) == s
  {
    if s != [] {
      DigitsOnlyOfDigits(s[1..]);
    }
  }

  lemma StripDigits(d: string)
    requires d != [] && forall i :: 0 <= i < |d| ==> IsDigit(d[i])
    ensures Strip(d) == d
  {
    assert !IsSpace(d[0]) && !IsSpace(d[|d| - 1]);
    assert [] + d + [] == d;
    StripPadded([], d, []);
  }

  /** `int(d)` for a string of plain decimal digits. */
  lemma ParseDigits(d: string)
    requires d != [] && forall i :: 0 <= i < |d| ==> IsDigit(d[i])
    ensures ParseInt(d) == Ok(DecimalValue(d))
  {
    StripDigits(d);
    assert SignOf(d) == (false, d);
    assert IsDigitPart(d);
    DigitsOnlyOfDigits(d);
  }

  /** `int(str(n)) == n`. */
  lemma ParseIntRoundTrip(n: nat)
    ensures ParseInt(NatToString(n)) == Ok(n)
  {
    ParseDigits(NatToString(n));
    NatToStringRoundTrip(n);
  }

  /** The digits of `a + b` read as `a` shifted past the digits of `b`. */
  lemma {:induction false} DecimalValueConcat(a: string, b: string)
    ensures DecimalValue(a + b) == DecimalValue(a) * Pow10(|b|) + DecimalValue(b)
    decreases |b|
  {
    if b == [] {
      assert a + b == a;
    } else {
      var b' := b[..|b| - 1];
      var last := if IsDigit(b[|b| - 1]) then b[|b| - 1] as int - '0' as int else 0;
      assert (a + b)[..|a + b| - 1] == a + b';
      assert (a + b)[|a + b| - 1] == b[|b| - 1];
      DecimalValueConcat(a, b');
      var x, p, y := DecimalValue(a), Pow10(|b'|), DecimalValue(b');
      assert DecimalValue(a + b) == (x * p + y) * 10 + last;
      ShiftDigit(x, p, y, last);
    }
  }

  lemma ShiftDigit(x: int, p: int, y: int, d: int)
    ensures (x * p + y) * 10 + d == x * (10 * p) + (y * 10 + d)
  {
  }

  /** A run of zeros reads as 0. */
  lemma {:induction false} DecimalValueZeros(k: nat)
    ensures DecimalValue(seq(k, _ => '0')) == 0
  {
    if k > 0 {
      assert seq(k, _ => '0')[..k - 1] == seq(k - 1, _ => '0');
      DecimalValueZeros(k - 1);
    }
  }

  /** A number below `10^w` has at most `w` digits. */
  lemma {:induction false} NatToStringLength(n: nat, w: nat)
    requires w >= 1 && n < Pow10(w)
    ensures |NatToString(n)| <= w
    decreases n
  {
    if n >= 10 {
      assert w >= 2;
      assert n / 10 < Pow10(w - 1);
      NatToStringLength(n / 10, w - 1);
    }
  }

  /** Zero padding to `w` digits is exactly `w` long below `10^w`, and it
      reads back as the number. */
  lemma ZeroPadSpec(n: nat, w: nat)
    requires w >= 1 && n < Pow10(w)
    ensures |ZeroPad(n, w)| == w
    ensures DecimalValue(ZeroPad(n, w)) == n
    ensures forall i :: 0 <= i < |ZeroPad(n, w)| ==> IsDigit(ZeroPad(n, w)[i])
  {
    NatToStringLength(n, w);
    NatToStringRoundTrip(n);
    var d := NatToString(n);
    if |d| < w {
      var zeros := seq(w - |d|, _ => '0');
      assert ZeroPad(n, w) == zeros + d;
      DecimalValueConcat(zeros, d);
      DecimalValueZeros(w - |d|);
      assert DecimalValue(zeros + d) == 0 * Pow10(|d|) + n;
    }
  }

  /** Removes one leading `+` or `-`; the flag says whether it was a minus. */
  function SignOf(s: string): (bool, string) {
    if |s| > 0 && (s[0] == '+' || s[0] == '-') then (s[0] == '-', s[1..]) else (false, s)
  }

  /** `int(s)` for base-10 text. */
  function ParseInt(s: string): Result<int> {
    var (neg, body) := SignOf(Strip(s));
    if !IsDigitPart(body) then Err(ValueError)
    else
      var n: int := DecimalValue(DigitsOnly(body));
      Ok(if neg then -n else n)
  }

  /** Index of the first exponent marker `e` or `E`, or `|s|`. */
  function ExponentAt(s: string): (k: nat)
    ensures k <= |s|
  {
    var a := IndexOf(s, 'e');
    var b := IndexOf(s, 'E');
    if a < b then a else b
  }

  /** The value of an unsigned decimal mantissa `ddd`, `ddd.`, `ddd.ddd` or `.ddd`. */
  function MantissaValue(m: string): Option<real> {
    var p := IndexOf(m, '.');
    var whole := m[..p];
    var frac := if p < |m| then m[p + 1..] else "";
    if p == |m| then
      (if IsDigitPart(m) then Some(DecimalValue(DigitsOnly(m)) as real) else None)
    else if (whole == [] || IsDigitPart(whole)) && (frac == [] || IsDigitPart(frac)) && (whole != [] || frac != []) then
      var fd := DigitsOnly(frac);
      Some(DecimalValue(DigitsOnly(whole)) as real + DecimalValue(fd) as real / Pow10(|fd|) as real)
    else None
  }

  /** `float(s)` for decimal text with an optional exponent.  The spellings
      `inf`, `infinity` and `nan` have no real value and give `None`. */
  function ParseFloat(s: string): Option<real> {
    var (neg, body) := SignOf(Strip(s));
    var k := ExponentAt(body);
    var mant :- MantissaValue(body[..k]);
    var exp: int :- if k == |body| then Some(0)
                    else
                      var (eneg, edigits) := SignOf(body[k + 1..]);
                      if IsDigitPart(edigits) then
                        var e: int := DecimalValue(DigitsOnly(edigits));
                        Some(if eneg then -e else e)
                      else None;
    var mag := if exp >= 0 then mant * Pow10(exp) as real else mant / Pow10(-exp) as real;
    Some(if neg then -mag else mag)
  }

  // ---------------------------------------------------------------------
  // `repr` of a string, as `str()` of a list prints each item
  // ---------------------------------------------------------------------

  /** The quote `repr` picks: a double quote for text holding a single
      quote and no double quote, a single quote otherwise. */
  function ReprQuote(s: string): (q: char)
    ensures q == '\'' || q == '"'
  {
    if '\'' in s && '"' !in s then '"' else '\''
  }

  /** A lower-case hexadecimal digit. */
  function HexDigit(d: nat): char
    requires d < 16
  {
    if d < 10 then ('0' as int + d) as char else ('a' as int + d - 10) as char
  }

  /** The characters up to U+00FF printed as `\xhh`: the controls other
      than tab, line feed and carriage return, delete, the C1 controls,
      the no-break space and the soft hyphen, which `str.isprintable`
      refuses. */
  predicate HexEscaped(c: char) {
    c < ' ' || ('\U{7F}' <= c <= '\U{A0}') || c == '\U{AD}'
  }

  /** One character inside quotes `q`: the quote and the backslash behind
      a backslash, tab, line feed and carriage return by their letters,
      the other unprintable ones in hexadecimal, and the rest as they are. */
  function EscapeChar(c: char, q: char): (r: string)
    ensures |r| >= 1 && (r[0] == '\\' || (r == [c] && c != q))
  {
    if c == q || c == '\\' then ['\\', c]
    else if c == '\t' then "\\t"
    else if c == '\n' then "\\n"
    else if c == '\r' then "\\r"
    else if HexEscaped(c) then ['\\', 'x', HexDigit(c as int / 16), HexDigit(c as int % 16)]
    else [c]
  }

  /** The characters of `s` escaped one after the other. */
  function Escaped(s: string, q: char): string
    decreases |s|
  {
    if s == [] then [] else EscapeChar(s[0], q) + Escaped(s[1..], q)
  }

  /** `repr(s)`; characters above U+00FF are kept as they are. */
  function Repr(s: string): (r: string)
    ensures |r| >= 2 && r[0] == ReprQuote(s)
  {
    var q := ReprQuote(s);
    [q] + Escaped(s, q) + [q]
  }

  /** Text without quotes, backslashes or unprintable characters. */
  predicate PlainText(s: string) {
    forall i :: 0 <= i < |s| ==>
      s[i] != '\'' && s[i] != '"' && s[i] != '\\' && !('\t' <= s[i] <= '\r') && !HexEscaped(s[i])
  }

  lemma {:induction false} EscapedPlain(s: string, q: char)
    requires PlainText(s) && (q == '\'' || q == '"')
    ensures Escaped(s, q) == s
    decreases |s|
  {
    if s != [] {
      assert PlainText(s[1..]) by {
        forall i | 0 <= i < |s[1..]| ensures s[1..][i] == s[i + 1] { }
      }
      EscapedPlain(s[1..], q);
    }
  }

  /** Plain text is printed between single quotes unchanged. */
  lemma ReprPlain(s: string)
    requires PlainText(s)
    ensures Repr(s) == "'" + s + "'"
  {
    EscapedPlain(s, '\'');
  }

  /** A single quote in the text switches to double quotes. */
  lemma ReprApostrophe()
    ensures Repr("it's") == "\"it's\""
  {
    assert '"' !in "it's";
    assert Escaped("it's", '"') == "it's";
  }

  lemma HexDigitInjective(a: nat, b: nat)
    requires a < 16 && b < 16 && HexDigit(a) == HexDigit(b)
    ensures a == b
  {
  }

  /** No escape is the beginning of another: the first characters of an
      escape tell which character it stands for. */
  lemma EscapeCharPrefix(c1: char, c2: char, q: char, x: string, y: string)
    requires q == '\'' || q == '"'
    requires EscapeChar(c1, q) + x == EscapeChar(c2, q) + y
    ensures c1 == c2 && x == y
  {
    var e1, e2 := EscapeChar(c1, q), EscapeChar(c2, q);
    assert (e1 + x)[0] == e1[0] && (e2 + y)[0] == e2[0];
    if e1[0] == '\\' {
      assert |e1| >= 2 && |e2| >= 2;
      assert (e1 + x)[1] == e1[1] && (e2 + y)[1] == e2[1];
      if e1[1] == 'x' {
        assert |e1| == 4 && |e2| == 4;
        assert (e1 + x)[2] == e1[2] && (e2 + y)[2] == e2[2];
        assert (e1 + x)[3] == e1[3] && (e2 + y)[3] == e2[3];
        HexDigitInjective(c1 as int / 16, c2 as int / 16);
        HexDigitInjective(c1 as int % 16, c2 as int % 16);
      }
    }
    assert e1 == e2;
    assert x == (e1 + x)[|e1|..] && y == (e2 + y)[|e2|..];
  }

  /** Escaped text followed by the quote starts with the quote exactly
      when there is no text. */
  lemma EscapedFirst(a: string, q: char, x: string)
    requires q == '\'' || q == '"'
    ensures (Escaped(a, q) + ([q] + x))[0] == q <==> a == []
  {
    if a != [] {
      var e := EscapeChar(a[0], q);
      assert Escaped(a, q) + ([q] + x) == e + (Escaped(a[1..], q) + ([q] + x));
    }
  }

  /** Escaping the first character, then the rest. */
  lemma EscapedCons(a: string, q: char, x: string)
    requires a != []
    ensures Escaped(a, q) + x == EscapeChar(a[0], q) + (Escaped(a[1..], q) + x)
  {
  }

  /** The escaped text ends at the first unescaped quote, so it can be
      read back from whatever follows it. */
  lemma {:induction false} EscapedPrefix(a: string, b: string, q: char, x: string, y: string)
    requires q == '\'' || q == '"'
    requires Escaped(a, q) + ([q] + x) == Escaped(b, q) + ([q] + y)
    ensures a == b && x == y
    decreases |a|
  {
    EscapedFirst(a, q, x);
    EscapedFirst(b, q, y);
    if a == [] {
      assert Escaped(a, q) == [] && Escaped(b, q) == [];
      assert [] + ([q] + x) == [q] + x && [] + ([q] + y) == [q] + y;
      assert [q] + x == [q] + y;
      assert x == ([q] + x)[1..] && y == ([q] + y)[1..];
    } else {
      EscapedCons(a, q, [q] + x);
      EscapedCons(b, q, [q] + y);
      EscapeCharPrefix(a[0], b[0], q, Escaped(a[1..], q) + ([q] + x), Escaped(b[1..], q) + ([q] + y));
      EscapedPrefix(a[1..], b[1..], q, x, y);
    }
  }

  /** `repr` tells its text back, and what follows it. */
  lemma ReprPrefix(a: string, b: string, x: string, y: string)
    requires Repr(a) + x == Repr(b) + y
    ensures a == b && x == y
  {
    var qa, qb := ReprQuote(a), ReprQuote(b);
    assert (Repr(a) + x)[0] == qa && (Repr(b) + y)[0] == qb;
    var q := qa;
    var ra := Escaped(a, q) + ([q] + x);
    var rb := Escaped(b, q) + ([q] + y);
    assert Repr(a) + x == [q] + ra;
    assert Repr(b) + y == [q] + rb;
    assert ra == ([q] + ra)[1..];
    EscapedPrefix(a, b, q, x, y);
  }
}
