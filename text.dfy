/** The string and number conversions the system performs: JavaScript's
    `String(n)`, `parseInt`, `parseFloat`, `toLowerCase` and `replace(' ', '-')`,
    the ISO dates `toISOString().split('T')[0]` produces, and the text parsing
    pydantic applies to decimals and dates. */
module Text {
  import opened Common

  // ---------------------------------------------------------------------
  // Digits

  /** The value of `c` as a digit in bases up to 36 (`0`-`9`, then letters of
      either case); 36 when `c` is no digit at all. */
  function DigitValue(c: char): (v: nat)
    ensures v <= 36
  {
    if '0' <= c <= '9' then c as int - '0' as int
    else if 'a' <= c <= 'z' then c as int - 'a' as int + 10
    else if 'A' <= c <= 'Z' then c as int - 'A' as int + 10
    else 36
  }

  predicate IsDigitIn(c: char, radix: nat) {
    DigitValue(c) < radix
  }

  predicate AllDigitsIn(s: string, radix: nat) {
    forall i :: 0 <= i < |s| ==> IsDigitIn(s[i], radix)
  }

  /** The number a string of digits denotes, most significant digit first. */
  function ValueIn(ds: string, radix: nat): nat
    requires AllDigitsIn(ds, radix)
  {
    if ds == [] then 0
    else radix * ValueIn(ds[..|ds| - 1], radix) + DigitValue(ds[|ds| - 1])
  }

  /** The length of the longest prefix of `s` made of digits in `radix`. */
  function PrefixLength(s: string, radix: nat): (n: nat)
    ensures n <= |s| && AllDigitsIn(s[..n], radix)
    ensures n < |s| ==> !IsDigitIn(s[n], radix)
  {
    if s != [] && IsDigitIn(s[0], radix) then
      var n := 1 + PrefixLength(s[1..], radix);
      assert s[..n] == [s[0]] + s[1..][..n - 1];
      n
    else 0
  }

  lemma PrefixLengthAll(s: string, radix: nat)
    requires AllDigitsIn(s, radix)
    ensures PrefixLength(s, radix) == |s|
  {
    if s != [] {
      PrefixLengthAll(s[1..], radix);
    }
  }

  function DigitChar(d: nat): (c: char)
    requires d < 10
    ensures IsDigitIn(c, 10) && DigitValue(c) == d
  {
    ('0' as int + d) as char
  }

  function Pow10(k: nat): (p: nat)
    ensures p >= 1
  {
    if k == 0 then 1 else 10 * Pow10(k - 1)
  }

  // ---------------------------------------------------------------------
  // Number to text

  /** The decimal digits of `n`, as `String(n)` writes a non-negative integer. */
  function NatToString(n: nat): (s: string)
    ensures 1 <= |s| && AllDigitsIn(s, 10) && ValueIn(s, 10) == n
  {
    if n < 10 then [DigitChar(n)]
    else
      var p := NatToString(n / 10);
      var s := p + [DigitChar(n % 10)];
      assert s[..|s| - 1] == p;
      s
  }

  /** `String(i)` for an integer. */
  function IntToString(i: int): (s: string)
    ensures s != [] && (s[0] == '-' || IsDigitIn(s[0], 10))
    ensures IsDigitIn(s[|s| - 1], 10) && AllDigitsIn(s[1..], 10)
  {
    if i < 0 then "-" + NatToString(-i) else NatToString(i)
  }

  lemma {:induction false} NatToStringLength(n: nat, w: nat)
    requires n < Pow10(w) && 1 <= w
    ensures |NatToString(n)| <= w
  {
    if n >= 10 {
      assert Pow10(1) == 10;
      assert w >= 2;
      assert n / 10 < Pow10(w - 1);
      NatToStringLength(n / 10, w - 1);
    }
  }

  function Zeros(k: nat): (z: string)
    ensures |z| == k && AllDigitsIn(z, 10)
    ensures forall j :: 0 <= j < k ==> z[j] == '0'
  {
    if k == 0 then [] else "0" + Zeros(k - 1)
  }

  lemma {:induction false} ZerosValue(k: nat)
    ensures ValueIn(Zeros(k), 10) == 0
  {
    if k > 0 {
      assert Zeros(k) == Zeros(k - 1) + "0" by { ZerosSnoc(k); }
      assert Zeros(k)[..k - 1] == Zeros(k - 1);
      ZerosValue(k - 1);
    }
  }

  lemma {:induction false} ZerosSnoc(k: nat)
    requires k > 0
    ensures Zeros(k) == Zeros(k - 1) + "0"
  {
    if k > 1 {
      ZerosSnoc(k - 1);
    }
  }

  /** Leading zeros do not change the value of a string of digits. */
  lemma {:induction false} LeadingZerosValue(k: nat, s: string)
    requires AllDigitsIn(s, 10)
    ensures AllDigitsIn(Zeros(k) + s, 10)
    ensures ValueIn(Zeros(k) + s, 10) == ValueIn(s, 10)
  {
    if s == [] {
      assert Zeros(k) + s == Zeros(k);
      ZerosValue(k);
    } else {
      var t := Zeros(k) + s;
      assert t[..|t| - 1] == Zeros(k) + s[..|s| - 1];
      LeadingZerosValue(k, s[..|s| - 1]);
    }
  }

  /** `n` written with at least `w` digits, padded on the left with zeros. */
  function Pad(n: nat, w: nat): (s: string)
    ensures AllDigitsIn(s, 10) && ValueIn(s, 10) == n
    ensures 1 <= w && n < Pow10(w) ==> |s| == w
  {
    var d := NatToString(n);
    if |d| < w then
      LeadingZerosValue(w - |d|, d);
      Zeros(w - |d|) + d
    else
      if 1 <= w && n < Pow10(w) then NatToStringLength(n, w); d
      else d
  }

  // ---------------------------------------------------------------------
  // Text to number, as JavaScript reads it

  /** JavaScript's white space and line terminators, which `parseInt` and
      `parseFloat` skip before the number. */
  predicate IsSpace(c: char) {
    c == ' ' || c == '\t' || c == '\n' || c == '\r'
    || c == '\U{000B}' || c == '\U{000C}' || c == '\U{00A0}' || c == '\U{1680}'
    || ('\U{2000}' <= c <= '\U{200A}')
    || c == '\U{2028}' || c == '\U{2029}' || c == '\U{202F}' || c == '\U{205F}'
    || c == '\U{3000}' || c == '\U{FEFF}'
  }

  /** The number of white space characters `s` starts with. */
  function SpaceCount(s: string): (n: nat)
    ensures n <= |s|
    ensures forall i :: 0 <= i < n ==> IsSpace(s[i])
    ensures n < |s| ==> !IsSpace(s[n])
  {
    if s != [] && IsSpace(s[0]) then 1 + SpaceCount(s[1..]) else 0
  }

  /** `s` without its leading white space. */
  function TrimStart(s: string): string {
    s[SpaceCount(s)..]
  }

  lemma TrimStartNoSpace(s: string)
    requires s != [] && !IsSpace(s[0])
    ensures SpaceCount(s) == 0 && TrimStart(s) == s
  {
  }

  /** An optional leading sign: whether it was `-`, and the rest. */
  function SplitSign(s: string): (r: (bool, string))
    ensures |r.1| <= |s|
  {
    if s != [] && s[0] == '-' then (true, s[1..])
    else if s != [] && s[0] == '+' then (false, s[1..])
    else (false, s)
  }

  /** `parseInt(s)` with no radix: `None` stands for NaN. After the white space
      and an optional sign, a `0x` or `0X` prefix selects base 16; the longest
      run of digits that follows is the number. */
  function ParseInt(s: string): (r: Option<int>)
    ensures TrimStart(s) == "" ==> r == None
  {
    var (neg, body) := SplitSign(TrimStart(s));
    var (radix, digits) :=
      if |body| >= 2 && body[0] == '0' && (body[1] == 'x' || body[1] == 'X')
      then (16, body[2..]) else (10, body);
    var n := PrefixLength(digits, radix);
    if n == 0 then None
    else
      var v: int := ValueIn(digits[..n], radix);
      Some(if neg then -v else v)
  }

  /** `parseInt(String(i)) === i`: the id an `<option value={id}>` carries is the
      id a submitted form gets back. */
  lemma ParseIntRoundTrip(i: int)
    ensures ParseInt(IntToString(i)) == Some(i)
  {
    var n: nat := if i < 0 then -i else i;
    var d := NatToString(n);
    var s := IntToString(i);
    assert s == if i < 0 then "-" + d else d;
    TrimStartNoSpace(s);
    assert SplitSign(s) == (i < 0, d);
    ParseIntDecimal(s, i < 0, d);
  }

  /** A decimal numeral with no leading white space is read in radix 10. */
  lemma ParseIntDecimal(s: string, neg: bool, d: string)
    requires SpaceCount(s) == 0 && SplitSign(s) == (neg, d)
    requires d != [] && AllDigitsIn(d, 10)
    ensures ParseInt(s) == Some(if neg then -(ValueIn(d, 10) as int) else ValueIn(d, 10))
  {
    assert !(|d| >= 2 && d[0] == '0' && (d[1] == 'x' || d[1] == 'X')) by {
      if |d| >= 2 { assert IsDigitIn(d[1], 10); }
    }
    PrefixLengthAll(d, 10);
    assert d[..|d|] == d;
  }

  /** The digits after a leading `.` of `rest` (none when `rest` does not
      start with `.`). */
  function Fraction(rest: string): (f: string)
    ensures AllDigitsIn(f, 10)
    ensures f != [] ==> rest != [] && rest[0] == '.' && |f| < |rest|
  {
    if rest != [] && rest[0] == '.' then rest[1..][..PrefixLength(rest[1..], 10)] else ""
  }

  /** The value of the digits `ds` written after a decimal point. */
  function FractionValue(ds: string): real
    requires AllDigitsIn(ds, 10)
  {
    if ds == [] then 0.0 else (DigitValue(ds[0]) as real + FractionValue(ds[1..])) / 10.0
  }

  /** Ten to the power `e`, a negative `e` included. */
  function Scale(e: int): (p: real)
    ensures p > 0.0
    decreases if e < 0 then -e else e
  {
    if e == 0 then 1.0 else if e > 0 then 10.0 * Scale(e - 1) else Scale(e + 1) / 10.0
  }

  /** The exponent part `e [+-] digits` (or `E ...`) at the start of `rest`,
      taken only when it has at least one digit: its value and the number of
      characters it takes. */
  function Exponent(rest: string): (r: (int, nat))
    ensures r.1 <= |rest|
    ensures r.1 == 0 ==> r.0 == 0
    ensures r.1 > 0 ==> rest[0] == 'e' || rest[0] == 'E'
  {
    if rest != [] && (rest[0] == 'e' || rest[0] == 'E') then
      var (neg, ds) := SplitSign(rest[1..]);
      var k := PrefixLength(ds, 10);
      if k == 0 then (0, 0)
      else
        var v: int := ValueIn(ds[..k], 10);
        (if neg then -v else v, (|rest| - |ds|) + k)
    else (0, 0)
  }

  /** A decimal numeral as read: the value of its whole part, the digits
      after its point and its exponent. */
  datatype Numeral = Numeral(whole: nat, decimals: string, exponent: int) {
    predicate Valid() {
      AllDigitsIn(decimals, 10)
    }

    function Value(): real
      requires Valid()
    {
      (whole as real + FractionValue(decimals)) * Scale(exponent)
    }
  }

  /** The longest prefix of `body` of the form `digits [. digits] [e [+-] digits]`
      (with at least one digit before the exponent), as a numeral, and the
      number of characters it takes. */
  function UnsignedPrefix(body: string): (r: (Option<Numeral>, nat))
    ensures r.1 <= |body|
    ensures r.0.None? <==> r.1 == 0
    ensures r.0.Some? ==> r.0.value.Valid()
  {
    var n1 := PrefixLength(body, 10);
    var rest := body[n1..];
    var dot := if rest != [] && rest[0] == '.' then 1 else 0;
    var frac := Fraction(rest);
    if n1 == 0 && frac == "" then (None, 0)
    else
      var m := n1 + dot + |frac|;
      var (e, k) := Exponent(body[m..]);
      (Some(Numeral(ValueIn(body[..n1], 10), frac, e)), m + k)
  }

  /** The longest prefix of `s` of the form `[+-] digits [. digits] [e [+-] digits]`
      (with at least one digit before the exponent), its value and the number
      of characters it takes. */
  function DecimalPrefix(s: string): (r: (Option<real>, nat))
    ensures r.1 <= |s|
    ensures r.0.None? ==> r.1 == 0
  {
    var (neg, body) := SplitSign(s);
    var (num, n) := UnsignedPrefix(body);
    match num
    case None => (None, 0)
    case Some(m) => (Some(if neg then -m.Value() else m.Value()), (|s| - |body|) + n)
  }

  /** `parseFloat(s)`: `None` stands for NaN. */
  function ParseFloat(s: string): (r: Option<real>)
    ensures TrimStart(s) == "" ==> r == None
  {
    DecimalPrefix(TrimStart(s)).0
  }

  /** Python's white space (`str.isspace`), which `Decimal` strips from both
      ends of its text. */
  predicate IsPySpace(c: char) {
    c == ' ' || ('\t' <= c <= '\r') || ('\U{001C}' <= c <= '\U{001F}')
    || c == '\U{0085}' || c == '\U{00A0}' || c == '\U{1680}'
    || ('\U{2000}' <= c <= '\U{200A}')
    || c == '\U{2028}' || c == '\U{2029}' || c == '\U{202F}' || c == '\U{205F}'
    || c == '\U{3000}'
  }

  /** `s.strip()`: `s` without the white space at either end. */
  function Strip(s: string): (t: string)
    ensures |t| <= |s|
    ensures t != [] ==> !IsPySpace(t[0]) && !IsPySpace(t[|t| - 1])
    ensures (forall i :: 0 <= i < |s| ==> IsPySpace(s[i])) ==> t == []
    decreases |s|
  {
    if s == [] then s
    else if IsPySpace(s[0]) then Strip(s[1..])
    else if IsPySpace(s[|s| - 1]) then Strip(s[..|s| - 1])
    else s
  }

  /** Text with no white space at either end is its own stripped form. */
  lemma StripNoSpace(s: string)
    requires s != [] && !IsPySpace(s[0]) && !IsPySpace(s[|s| - 1])
    ensures Strip(s) == s
  {
  }

  /** Stripping does not see a space before or after the text. */
  lemma {:induction false} StripSpaceAround(s: string)
    ensures Strip(" " + s) == Strip(s)
    ensures Strip(s + " ") == Strip(s)
    decreases |s|
  {
    assert (" " + s)[1..] == s;
    var t := s + " ";
    if s == [] {
      assert t[1..] == [];
    } else if IsPySpace(s[0]) {
      assert t[1..] == s[1..] + " ";
      StripSpaceAround(s[1..]);
    } else {
      assert t[..|t| - 1] == s;
    }
  }

  /** Unicode's White_Space property, the set Rust's `str::trim` removes:
      Python's white space without the separators U+001C to U+001F. */
  predicate IsWhiteSpace(c: char) {
    IsPySpace(c) && !('\U{001C}' <= c <= '\U{001F}')
  }

  /** Rust's `s.trim()`: `s` without the White_Space at either end. */
  function Trim(s: string): (t: string)
    ensures |t| <= |s|
    ensures t != [] ==> !IsWhiteSpace(t[0]) && !IsWhiteSpace(t[|t| - 1])
    ensures (forall i :: 0 <= i < |s| ==> IsWhiteSpace(s[i])) ==> t == []
    decreases |s|
  {
    if s == [] then s
    else if IsWhiteSpace(s[0]) then Trim(s[1..])
    else if IsWhiteSpace(s[|s| - 1]) then Trim(s[..|s| - 1])
    else s
  }

  lemma TrimNoSpace(s: string)
    requires s != [] && !IsWhiteSpace(s[0]) && !IsWhiteSpace(s[|s| - 1])
    ensures Trim(s) == s
  {
  }

  /** Trimming does not see a space before or after the text. */
  lemma {:induction false} TrimSpaceAround(s: string)
    ensures Trim(" " + s) == Trim(s)
    ensures Trim(s + " ") == Trim(s)
    decreases |s|
  {
    assert (" " + s)[1..] == s;
    var t := s + " ";
    if s == [] {
      assert t[1..] == [];
    } else if IsWhiteSpace(s[0]) {
      assert t[1..] == s[1..] + " ";
      TrimSpaceAround(s[1..]);
    } else {
      assert t[..|t| - 1] == s;
    }
  }

  /** Pydantic's reading of a JSON string as a `Decimal`: once stripped of the
      white space at either end, the whole text must be a decimal number. */
  function ParseDecimal(s: string): (r: Option<real>)
    ensures Strip(s) == "" ==> r == None
  {
    var t := Strip(s);
    var (v, k) := DecimalPrefix(t);
    if k == |t| then v else None
  }

  /** Spaces around the text do not change how pydantic reads it. */
  lemma ParseDecimalSpaceAround(s: string)
    ensures ParseDecimal(" " + s) == ParseDecimal(s)
    ensures ParseDecimal(s + " ") == ParseDecimal(s)
  {
    StripSpaceAround(s);
  }

  /** A numeral of digits alone is read in full, with no decimals and no
      exponent. */
  lemma UnsignedPrefixOfDigits(body: string)
    requires body != [] && AllDigitsIn(body, 10)
    ensures UnsignedPrefix(body) == (Some(Numeral(ValueIn(body, 10), "", 0)), |body|)
  {
    PrefixLengthAll(body, 10);
    assert body[..|body|] == body;
    assert body[|body|..] == [];
    var r := UnsignedPrefix(body);
    assert r.0.Some? && r.1 == |body|;
    assert r.0.value.decimals == "";
    assert r.0.value.exponent == 0;
    assert r.0.value.whole == ValueIn(body, 10);
    assert r.0.value == Numeral(ValueIn(body, 10), "", 0);
  }

  /** Text that is a decimal numeral in full, with no space at either end, is
      read as its value by both `parseFloat` and pydantic. */
  lemma ParseWhole(s: string, v: real)
    requires s != [] && !IsSpace(s[0]) && !IsPySpace(s[0]) && !IsPySpace(s[|s| - 1])
    requires DecimalPrefix(s).0 == Some(v) && DecimalPrefix(s).1 == |s|
    ensures ParseFloat(s) == Some(v) && ParseDecimal(s) == Some(v)
  {
    StripNoSpace(s);
  }

  lemma DecimalOfDigits(n: nat)
    ensures DecimalPrefix(NatToString(n)).0 == Some(n as real)
    ensures DecimalPrefix(NatToString(n)).1 == |NatToString(n)|
  {
    var d := NatToString(n);
    UnsignedPrefixOfDigits(d);
    assert SplitSign(d) == (false, d);
    assert Numeral(n, "", 0).Value() == n as real;
  }

  /** A string of decimal digits, such as a rent typed as `5000`, reads back
      as its value, both for `parseFloat` and for pydantic's `Decimal`. */
  lemma ParseOfDigits(n: nat)
    ensures ParseFloat(NatToString(n)) == Some(n as real)
    ensures ParseDecimal(NatToString(n)) == Some(n as real)
  {
    var d := NatToString(n);
    DecimalOfDigits(n);
    assert IsDigitIn(d[0], 10) && IsDigitIn(d[|d| - 1], 10);
    ParseWhole(d, n as real);
  }

  /** The digits of a numeral end where the first other character is. */
  lemma {:induction false} PrefixLengthStop(d: string, t: string, radix: nat)
    requires AllDigitsIn(d, radix) && (t == [] || !IsDigitIn(t[0], radix))
    ensures PrefixLength(d + t, radix) == |d|
  {
    if d != [] {
      assert (d + t)[1..] == d[1..] + t;
      PrefixLengthStop(d[1..], t, radix);
    } else {
      assert d + t == t;
    }
  }

  /** `e` followed by the text of an integer is that integer as an exponent. */
  lemma ExponentOfInt(e: int)
    ensures Exponent("e" + IntToString(e)) == (e, 1 + |IntToString(e)|)
  {
    var x := IntToString(e);
    var ds := NatToString(if e < 0 then -e else e);
    assert x == if e < 0 then "-" + ds else ds;
    PrefixLengthAll(ds, 10);
    assert ds[..|ds|] == ds;
    assert ("e" + x)[1..] == x;
    assert SplitSign(x) == (e < 0, ds) by { if e >= 0 { assert x[0] == ds[0]; } }
  }

  /** Digits followed by an exponent part are read as one numeral. */
  lemma UnsignedPrefixWithExponent(d: string, t: string, e: int)
    requires d != [] && AllDigitsIn(d, 10)
    requires t != [] && t[0] == 'e' && Exponent(t) == (e, |t|)
    ensures UnsignedPrefix(d + t).0 == Some(Numeral(ValueIn(d, 10), "", e))
    ensures UnsignedPrefix(d + t).1 == |d| + |t|
  {
    var s := d + t;
    PrefixLengthStop(d, t, 10);
    assert s[..|d|] == d && s[|d|..] == t;
    assert Fraction(t) == "";
  }

  /** A numeral that starts with a digit has no sign. */
  lemma DecimalPrefixOfDigit(s: string, m: Numeral)
    requires s != [] && IsDigitIn(s[0], 10)
    requires UnsignedPrefix(s).0 == Some(m)
    ensures m.Valid() && DecimalPrefix(s).0 == Some(m.Value())
    ensures DecimalPrefix(s).1 == UnsignedPrefix(s).1
  {
    assert SplitSign(s) == (false, s);
  }

  lemma DigitNotSpace(c: char)
    requires IsDigitIn(c, 10)
    ensures !IsSpace(c) && !IsPySpace(c)
  {
  }

  lemma NumeralValueWhole(a: nat, e: int)
    ensures Numeral(a, "", e).Value() == a as real * Scale(e)
  {
    assert FractionValue("") == 0.0;
  }

  /** The exponent form, as both readers take it: `<a>e<e>` is `a` times ten
      to the power `e`, so that `1e3` is a thousand and `25e-1` is 2.5. */
  lemma ParseExponentForm(a: nat, e: int)
    ensures ParseFloat(NatToString(a) + "e" + IntToString(e)) == Some(a as real * Scale(e))
    ensures ParseDecimal(NatToString(a) + "e" + IntToString(e)) == Some(a as real * Scale(e))
  {
    var d := NatToString(a);
    var x := IntToString(e);
    var s := d + "e" + x;
    assert s == d + ("e" + x) && s[0] == d[0];
    ExponentOfInt(e);
    UnsignedPrefixWithExponent(d, "e" + x, e);
    var m := Numeral(a, "", e);
    DecimalPrefixOfDigit(s, m);
    NumeralValueWhole(a, e);
    assert m.Value() == a as real * Scale(e);
    assert IsDigitIn(s[|s| - 1], 10) by {
      var ds := NatToString(if e < 0 then -e else e);
      assert x == if e < 0 then "-" + ds else ds;
      assert s[|s| - 1] == ds[|ds| - 1];
    }
    DigitNotSpace(s[0]);
    DigitNotSpace(s[|s| - 1]);
    var v := a as real * Scale(e);
    assert DecimalPrefix(s).0 == Some(v);
    assert DecimalPrefix(s).1 == |s|;
    assert !IsSpace(s[0]) && !IsPySpace(s[0]) && !IsPySpace(s[|s| - 1]);
    ParseWhole(s, v);
  }

  /** Pydantic reads the exponent form with spaces around it as well. */
  lemma ParseSpacedExponentForm(s: string, a: nat, e: int)
    requires s == NatToString(a) + "e" + IntToString(e)
    ensures ParseDecimal(" " + s + " ") == Some(a as real * Scale(e))
  {
    ParseExponentForm(a, e);
    ParseDecimalSpaceAround(s);
    ParseDecimalSpaceAround(" " + s);
  }

  // ---------------------------------------------------------------------
  // ISO dates

  /** `YYYY-MM-DD`, as `toISOString().split('T')[0]` writes a date. */
  function IsoDate(d: CalendarDate): (s: string)
    ensures |s| == 10
  {
    assert Pow10(2) == 100 && Pow10(4) == 10000;
    Pad(d.year, 4) + "-" + Pad(d.month, 2) + "-" + Pad(d.day, 2)
  }

  /** Pydantic's reading of a JSON string as a `date`: `YYYY-MM-DD` naming a
      real calendar day. */
  function ParseIsoDate(s: string): (r: Option<CalendarDate>)
    ensures |s| != 10 ==> r == None
  {
    if |s| == 10 && s[4] == '-' && s[7] == '-'
       && AllDigitsIn(s[..4], 10) && AllDigitsIn(s[5..7], 10) && AllDigitsIn(s[8..], 10)
    then
      var d := Date(ValueIn(s[..4], 10), ValueIn(s[5..7], 10), ValueIn(s[8..], 10));
      if ValidDate(d) then Some(d) else None
    else None
  }

  /** The date the frontend writes is the date the backend reads. */
  lemma IsoDateRoundTrip(d: CalendarDate)
    ensures ParseIsoDate(IsoDate(d)) == Some(d)
  {
    assert Pow10(2) == 100 && Pow10(4) == 10000;
    var y, m, dd := Pad(d.year, 4), Pad(d.month, 2), Pad(d.day, 2);
    var s := IsoDate(d);
    assert s == y + "-" + m + "-" + dd;
    assert s[..4] == y;
    assert s[5..7] == m;
    assert s[8..] == dd;
  }

  lemma IsoDatesRoundTrip()
    ensures forall d: CalendarDate :: ParseIsoDate(IsoDate(d)) == Some(d)
  {
    forall d: CalendarDate ensures ParseIsoDate(IsoDate(d)) == Some(d) {
      IsoDateRoundTrip(d);
    }
  }

  // ---------------------------------------------------------------------
  // Status badges

  function LowerChar(c: char): char {
    if 'A' <= c <= 'Z' then (c as int + 32) as char else c
  }

  /** `s.toLowerCase()` on the ASCII letters. */
  function ToLower(s: string): (r: string)
    ensures |r| == |s|
    ensures forall i :: 0 <= i < |s| ==> r[i] == LowerChar(s[i])
  {
    seq(|s|, i requires 0 <= i < |s| => LowerChar(s[i]))
  }

  /** Lower-casing twice is lower-casing once. */
  lemma ToLowerIdempotent(s: string)
    ensures ToLower(ToLower(s)) == ToLower(s)
  {
    assert forall i :: 0 <= i < |s| ==> ToLower(ToLower(s))[i] == ToLower(s)[i];
  }

  // ---------------------------------------------------------------------
  // UTF-8

  /** The number of bytes UTF-8 takes for `c`. */
  function Utf8Width(c: char): (w: nat)
    ensures 1 <= w <= 4
  {
    if c as int < 0x80 then 1 else if c as int < 0x800 then 2
    else if c as int < 0x1_0000 then 3 else 4
  }

  /** The number of bytes of `s` in UTF-8: at least one and at most four
      per character, exactly one per ASCII character. */
  function Utf8Length(s: string): (n: nat)
    ensures |s| <= n <= 4 * |s|
    ensures (forall i :: 0 <= i < |s| ==> s[i] as int < 0x80) ==> n == |s|
  {
    if s == [] then 0 else Utf8Width(s[0]) + Utf8Length(s[1..])
  }

  /** The position of the first `c` in `s` (`indexOf`, Rust's `find`). */
  function IndexOf(s: string, c: char): (r: Option<nat>)
    ensures r.None? <==> c !in s
    ensures r.Some? ==> r.value < |s| && s[r.value] == c && c !in s[..r.value]
  {
    if s == [] then None
    else if s[0] == c then Some(0)
    else match IndexOf(s[1..], c)
      case None => None
      case Some(k) =>
        assert s[..k + 1] == [s[0]] + s[1..][..k];
        Some(k + 1)
  }

  /** `s.replace(' ', '-')`: a string pattern replaces its first occurrence only. */
  function ReplaceFirstSpace(s: string): (r: string)
    ensures |r| == |s|
  {
    match IndexOf(s, ' ')
    case None => s
    case Some(j) => s[j := '-']
  }

  /** Every character is kept except a space with no space before it, which
      becomes `-`. */
  lemma ReplaceFirstSpaceChars(s: string)
    ensures forall k :: 0 <= k < |s| ==>
      ReplaceFirstSpace(s)[k] == (if s[k] == ' ' && ' ' !in s[..k] then '-' else s[k])
  {
    var i := IndexOf(s, ' ');
    if i.Some? {
      var j := i.value;
      assert forall k :: j < k < |s| ==> s[j] in s[..k];
    }
  }

  lemma ReplaceWithoutSpace(s: string)
    requires ' ' !in s
    ensures ReplaceFirstSpace(s) == s
  {
  }

  /** The badge class `status.toLowerCase().replace(' ', '-')`. */
  function DashedClass(status: string): (r: string)
    ensures |r| == |status|
    ensures forall k :: 0 <= k < |status| ==>
      r[k] == (if status[k] == ' ' && ' ' !in status[..k] then '-' else LowerChar(status[k]))
  {
    ReplaceFirstSpaceChars(ToLower(status));
    LowerKeepsSpaces(status);
    ReplaceFirstSpace(ToLower(status))
  }

  /** Lower-casing neither makes nor removes a space. */
  lemma LowerKeepsSpaces(s: string)
    ensures forall k :: 0 <= k <= |s| ==> (' ' in ToLower(s)[..k] <==> ' ' in s[..k])
  {
    forall k | 0 <= k <= |s|
      ensures ' ' in ToLower(s)[..k] <==> ' ' in s[..k]
    {
      if ' ' in s[..k] {
        var j :| 0 <= j < k && s[..k][j] == ' ';
        assert ToLower(s)[..k][j] == ' ';
      }
      if ' ' in ToLower(s)[..k] {
        var j :| 0 <= j < k && ToLower(s)[..k][j] == ' ';
        assert s[..k][j] == ' ';
      }
    }
  }

  /** A one-word status gets its lower-cased text. */
  lemma DashedOneWord(w: string, lower: string)
    requires ToLower(w) == lower && ' ' !in lower
    ensures DashedClass(w) == lower
  {
    ReplaceWithoutSpace(lower);
  }
}
