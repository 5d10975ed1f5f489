/** The JavaScript value operations the scripts lean on when they read
    attributes: `parseFloat`, the `||` fallback, `String.prototype.split`
    with a one-character separator and `String.prototype.trim`. */
module JsValues {
  import opened Dom

  /** A JavaScript number as `parseFloat` can produce it: NaN or a finite value. */
  datatype Num = NaN | Num(value: real)

  predicate IsDigit(c: char) { '0' <= c <= '9' }

  /** The white space and line terminators that `trim` and `parseFloat` skip:
      tab, vertical tab, form feed, the byte order mark, the space separators
      of Unicode category Zs, line feed, carriage return and the line and
      paragraph separators. */
  predicate IsSpace(c: char)
  {
    c == ' ' || c == '\t' || c == '\n' || c == '\r' || c as int == 0x0B || c as int == 0x0C
    || c as int == 0xA0 || c as int == 0x1680 || 0x2000 <= c as int <= 0x200A
    || c as int == 0x202F || c as int == 0x205F || c as int == 0x3000
    || c as int == 0xFEFF || c as int == 0x2028 || c as int == 0x2029
  }

  function DigitValue(c: char): nat
    requires IsDigit(c)
  {
    c as int - '0' as int
  }

  /** The value of a run of decimal digits (most significant first). */
  function DigitsValue(s: string): nat
    requires forall i :: 0 <= i < |s| ==> IsDigit(s[i])
  {
    if s == [] then 0 else 10 * DigitsValue(s[..|s| - 1]) + DigitValue(s[|s| - 1])
  }

  function Pow10(n: nat): (r: nat)
    ensures r >= 1
  {
    if n == 0 then 1 else 10 * Pow10(n - 1)
  }

  /** The longest prefix of `s` made of decimal digits. */
  function DigitRun(s: string): (r: string)
    ensures r <= s
    ensures forall i :: 0 <= i < |r| ==> IsDigit(r[i])
    ensures |r| < |s| ==> !IsDigit(s[|r|])
  {
    if s != [] && IsDigit(s[0]) then [s[0]] + DigitRun(s[1..]) else []
  }

  /** `trimStart`: the suffix left once the leading white space is gone. */
  function TrimStart(s: string): (r: string)
    ensures |r| <= |s| && r == s[|s| - |r|..]
    ensures forall i :: 0 <= i < |s| - |r| ==> IsSpace(s[i])
    ensures r != [] ==> !IsSpace(r[0])
  {
    if s != [] && IsSpace(s[0]) then TrimStart(s[1..]) else s
  }

  /** `trimEnd`: the prefix left once the trailing white space is gone. */
  function TrimEnd(s: string): (r: string)
    ensures r <= s
    ensures forall i :: |r| <= i < |s| ==> IsSpace(s[i])
    ensures r != [] ==> !IsSpace(r[|r| - 1])
  {
    if s != [] && IsSpace(s[|s| - 1]) then TrimEnd(s[..|s| - 1]) else s
  }

  /** `s.trim()`: white space removed from both ends, the middle untouched. */
  function Trim(s: string): (r: string)
    ensures |r| <= |s|
    ensures r != [] ==> !IsSpace(r[0]) && !IsSpace(r[|r| - 1])
  {
    TrimEnd(TrimStart(s))
  }

  /** `trim` keeps the slice of `s` that starts at its first non-space
      character and ends at its last one: only white space is removed,
      and only from the ends. */
  lemma TrimIsSlice(s: string)
    ensures var a := |s| - |TrimStart(s)|;
      a + |Trim(s)| <= |s|
      && (forall j :: 0 <= j < |Trim(s)| ==> Trim(s)[j] == s[a + j])
      && (forall i :: 0 <= i < a ==> IsSpace(s[i]))
      && (forall i :: a + |Trim(s)| <= i < |s| ==> IsSpace(s[i]))
  {
    var t := TrimStart(s);
    var a := |s| - |t|;
    var r := TrimEnd(t);
    forall j | 0 <= j < |r|
      ensures r[j] == s[a + j]
    {
      assert r[j] == t[j];
    }
    forall i | a + |r| <= i < |s|
      ensures IsSpace(s[i])
    {
      assert IsSpace(t[i - a]);
    }
  }

  /** A string is its own trim exactly when neither end is white space, so
      trimming twice changes nothing. */
  lemma TrimFixedPoints(s: string)
    ensures Trim(s) == s <==> s == [] || (!IsSpace(s[0]) && !IsSpace(s[|s| - 1]))
    ensures Trim(Trim(s)) == Trim(s)
  {
    var r := Trim(s);
    if r != [] {
      assert TrimStart(r) == r;
    }
  }

  /** The digits after a leading '.', if `rest` starts with one. */
  function FractionDigits(rest: string): (fp: string)
    ensures forall i :: 0 <= i < |fp| ==> IsDigit(fp[i])
    ensures rest == [] ==> fp == []
  {
    if rest != [] && rest[0] == '.' then DigitRun(rest[1..]) else []
  }

  /** The value of the digits after the decimal point. */
  function FractionValue(fp: string): (r: real)
    requires forall i :: 0 <= i < |fp| ==> IsDigit(fp[i])
    ensures fp == [] ==> r == 0.0
  {
    DigitsValue(fp) as real / Pow10(|fp|) as real
  }

  /** A digit run, optionally followed by '.' and a second digit run; NaN when
      both runs are empty. Scanning stops at the first character that does
      not fit, as `parseFloat` does. */
  function ParseUnsigned(t: string): Num
  {
    var ip := DigitRun(t);
    var fp := FractionDigits(t[|ip|..]);
    if ip == [] && fp == [] then NaN
    else Num(DigitsValue(ip) as real + FractionValue(fp))
  }

  /** `parseFloat(s)` without exponents and without the literal "Infinity". */
  function ParseFloat(s: string): Num
  {
    var t := TrimStart(s);
    if t != [] && t[0] == '-' then
      match ParseUnsigned(t[1..])
      case NaN => NaN
      case Num(v) => Num(-v)
    else if t != [] && t[0] == '+' then ParseUnsigned(t[1..])
    else ParseUnsigned(t)
  }

  /** `parseFloat(el.getAttribute(name))`; null reads as the string "null", hence NaN. */
  function ParseAttr(a: Option<string>): (r: Num)
    ensures a.None? ==> r.NaN?
  {
    match a
    case None => NaN
    case Some(s) => ParseFloat(s)
  }

  /** `n || d` for a number: NaN and zero are falsy. */
  function OrNumber(n: Num, d: real): (r: real)
    ensures n.Num? && n.value != 0.0 ==> r == n.value
    ensures n.NaN? || n.value == 0.0 ==> r == d
  {
    if n.Num? && n.value != 0.0 then n.value else d
  }

  /** `el.getAttribute(name) || d`: null and the empty string are falsy. */
  function OrString(a: Option<string>, d: string): (r: string)
    ensures a.Some? && a.value != "" ==> r == a.value
    ensures a.None? || a.value == "" ==> r == d
  {
    if a.Some? && a.value != "" then a.value else d
  }

  // ---------------------------------------------------------------------------
  // Decimal rendering, the partner of the digit parser.

  function DigitChar(d: nat): (c: char)
    requires d < 10
    ensures IsDigit(c) && DigitValue(c) == d
  {
    ('0' as int + d) as char
  }

  /** The decimal rendering of a natural number, without leading zeros. */
  function NatToString(n: nat): (s: string)
    ensures s != []
    ensures forall i :: 0 <= i < |s| ==> IsDigit(s[i])
  {
    if n < 10 then [DigitChar(n)] else NatToString(n / 10) + [DigitChar(n % 10)]
  }

  lemma {:induction false} DigitsValueOfNatToString(n: nat)
    ensures DigitsValue(NatToString(n)) == n
  {
    var s := NatToString(n);
    if n >= 10 {
      DigitsValueOfNatToString(n / 10);
      assert s[..|s| - 1] == NatToString(n / 10);
    }
  }

  lemma {:induction false} DigitRunOfDigits(s: string)
    requires forall i :: 0 <= i < |s| ==> IsDigit(s[i])
    ensures DigitRun(s) == s
  {
    if s != [] {
      DigitRunOfDigits(s[1..]);
    }
  }

  lemma ParseUnsignedOfDigits(s: string)
    requires s != [] && forall i :: 0 <= i < |s| ==> IsDigit(s[i])
    ensures ParseUnsigned(s) == Num(DigitsValue(s) as real)
  {
    DigitRunOfDigits(s);
    assert s[|DigitRun(s)|..] == [];
  }

  /** Round trip: parsing the decimal rendering of a natural number gives the
      number back, so every attribute such as data-stagger="250" reads as 250. */
  lemma ParseFloatOfNatToString(n: nat)
    ensures ParseFloat(NatToString(n)) == Num(n as real)
  {
    var s := NatToString(n);
    assert IsDigit(s[0]) && !IsSpace(s[0]) && s[0] != '-' && s[0] != '+';
    assert TrimStart(s) == s;
    assert ParseFloat(s) == ParseUnsigned(s);
    ParseUnsignedOfDigits(s);
    DigitsValueOfNatToString(n);
  }

  // ---------------------------------------------------------------------------
  // split with a one-character separator

  /** `s.split(sep)` for a one-character separator. */
  function Split(s: string, sep: char): (r: seq<string>)
    ensures |r| >= 1
    ensures forall i :: 0 <= i < |r| ==> sep !in r[i]
  {
    if s == [] then [""]
    else
      var rest := Split(s[1..], sep);
      if s[0] == sep then [""] + rest
      else [[s[0]] + rest[0]] + rest[1..]
  }

  /** Joining the pieces with the separator gives the original string back. */
  function Join(pieces: seq<string>, sep: char): string
  {
    if pieces == [] then "" else if |pieces| == 1 then pieces[0] else pieces[0] + [sep] + Join(pieces[1..], sep)
  }

  function Count(s: string, c: char): (n: nat)
    ensures n <= |s|
  {
    if s == [] then 0 else (if s[0] == c then 1 else 0) + Count(s[1..], c)
  }

  lemma {:induction false} SplitCount(s: string, sep: char)
    ensures |Split(s, sep)| == Count(s, sep) + 1
  {
    if s != [] {
      SplitCount(s[1..], sep);
    }
  }

  lemma {:induction false} SplitJoin(s: string, sep: char)
    ensures Join(Split(s, sep), sep) == s
  {
    if s != [] {
      SplitJoin(s[1..], sep);
      var rest := Split(s[1..], sep);
      if s[0] == sep {
        assert Split(s, sep) == [""] + rest;
        assert s == [s[0]] + s[1..];
      } else {
        var r := Split(s, sep);
        assert r[0] == [s[0]] + rest[0] && r[1..] == rest[1..];
        if |rest| > 1 {
          assert Join(rest, sep) == rest[0] + [sep] + Join(rest[1..], sep);
        }
        assert s == [s[0]] + s[1..];
      }
    }
  }
}
