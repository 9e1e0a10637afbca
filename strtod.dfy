/** The C library's `strtod` as rDock uses it: the characters it accepts as a
    floating-point number and the value they denote. */
module Strtod {
  import opened Wrappers

  /** A C `double`: a finite value (held exactly), a signed infinity, or NaN. */
  datatype Double = Finite(value: real) | Infinite(negative: bool) | NaN

  /** `isspace` in the C locale. */
  predicate IsSpace(c: char)
  {
    c == ' ' || c == '\t' || c == '\n' || c == '\U{0B}' || c == '\U{0C}' || c == '\r'
  }

  /** The value of a hexadecimal digit character, or 16 for any other character. */
  function DigitValue(c: char): (d: nat)
    ensures d <= 16
  {
    if '0' <= c <= '9' then c as nat - '0' as nat
    else if 'a' <= c <= 'f' then c as nat - 'a' as nat + 10
    else if 'A' <= c <= 'F' then c as nat - 'A' as nat + 10
    else 16
  }

  predicate IsDigitIn(c: char, base: nat)
  {
    DigitValue(c) < base
  }

  predicate AllDigitsIn(ds: string, base: nat)
  {
    forall i :: 0 <= i < |ds| ==> IsDigitIn(ds[i], base)
  }

  function Pow(b: nat, n: nat): (p: nat)
    ensures b > 0 ==> p > 0
  {
    if n == 0 then 1 else b * Pow(b, n - 1)
  }

  /** `b` raised to a possibly negative power, as a real. */
  function Scale(b: nat, e: int): real
    requires b > 0
  {
    if e >= 0 then Pow(b, e) as real else 1.0 / Pow(b, -e) as real
  }

  /** The value of a run of digits in `base`, most significant first (meaningful
      when every character is a digit in `base`). */
  function DigitsValue(ds: string, base: nat): nat
  {
    if ds == [] then 0 else DigitsValue(ds[..|ds| - 1], base) * base + DigitValue(ds[|ds| - 1])
  }

  /** The index of the first character of `s` that lies in `cs`. */
  function IndexOfAny(s: string, cs: set<char>): (r: Option<nat>)
    ensures r.Some? ==> r.value < |s| && s[r.value] in cs
    ensures r.Some? ==> forall j :: 0 <= j < r.value ==> s[j] !in cs
    ensures r.None? ==> forall j :: 0 <= j < |s| ==> s[j] !in cs
  {
    if s == [] then None
    else if s[0] in cs then Some(0)
    else match IndexOfAny(s[1..], cs)
      case None => None
      case Some(k) => Some(k + 1)
  }

  /** Digits with at most one radix point and at least one digit, e.g. `12`, `1.5`, `.5`, `5.`. */
  function Mantissa(m: string, base: nat): Option<real>
    requires base > 0
  {
    match IndexOfAny(m, {'.'})
    case None =>
      if |m| > 0 && AllDigitsIn(m, base) then Some(DigitsValue(m, base) as real) else None
    case Some(dot) =>
      var whole, frac := m[..dot], m[dot + 1..];
      if |whole| + |frac| > 0 && AllDigitsIn(whole, base) && AllDigitsIn(frac, base) then
        Some(DigitsValue(whole + frac, base) as real / Pow(base, |frac|) as real)
      else
        None
  }

  /** An exponent: an optional sign followed by at least one decimal digit. */
  function Exponent(e: string): Option<int>
  {
    var negative := |e| > 0 && e[0] == '-';
    var ds := if |e| > 0 && (e[0] == '+' || e[0] == '-') then e[1..] else e;
    if |ds| > 0 && AllDigitsIn(ds, 10) then
      Some(if negative then -(DigitsValue(ds, 10) as int) else DigitsValue(ds, 10) as int)
    else
      None
  }

  /** A mantissa in `base`, optionally followed by one of `marks` and an exponent
      that scales the value by a power of `scaleBase`. */
  function ScaledNumber(b: string, base: nat, marks: set<char>, scaleBase: nat): Option<real>
    requires base > 0 && scaleBase > 0
  {
    var mark := IndexOfAny(b, marks);
    var m := if mark.Some? then b[..mark.value] else b;
    match Mantissa(m, base)
    case None => None
    case Some(v) =>
      if mark.None? then Some(v)
      else match Exponent(b[mark.value + 1..])
        case None => None
        case Some(e) => Some(v * Scale(scaleBase, e))
  }

  function LowerChar(c: char): char
  {
    if 'A' <= c <= 'Z' then (c as int - 'A' as int + 'a' as int) as char else c
  }

  function Lower(s: string): (r: string)
    ensures |r| == |s| && forall i :: 0 <= i < |s| ==> r[i] == LowerChar(s[i])
  {
    seq(|s|, i requires 0 <= i < |s| => LowerChar(s[i]))
  }

  predicate IsNanChar(c: char)
  {
    DigitValue(c) < 10 || 'a' <= c <= 'z' || 'A' <= c <= 'Z' || c == '_'
  }

  /** `nan` or `nan(n-char-sequence)`, the letters in either case. */
  predicate IsNanText(b: string)
  {
    |b| >= 3 && Lower(b[..3]) == "nan" &&
    (|b| == 3 || (|b| >= 5 && b[3] == '(' && b[|b| - 1] == ')' &&
                  forall i :: 4 <= i < |b| - 1 ==> IsNanChar(b[i])))
  }

  /** An unsigned number: infinity, NaN, a hexadecimal or a decimal floating constant. */
  function Magnitude(b: string): Option<Double>
  {
    if Lower(b) == "inf" || Lower(b) == "infinity" then Some(Infinite(false))
    else if IsNanText(b) then Some(NaN)
    else if |b| >= 2 && b[0] == '0' && (b[1] == 'x' || b[1] == 'X') then
      match ScaledNumber(b[2..], 16, {'p', 'P'}, 2)
      case None => None
      case Some(v) => Some(Finite(v))
    else
      match ScaledNumber(b, 10, {'e', 'E'}, 10)
      case None => None
      case Some(v) => Some(Finite(v))
  }

  function Negate(d: Double): Double
  {
    match d
    case Finite(v) => Finite(-v)
    case Infinite(n) => Infinite(!n)
    case NaN => NaN
  }

  /** Leading white space, which strtod skips. */
  function SkipSpace(s: string): (t: string)
    ensures |t| <= |s| && t == s[|s| - |t|..]
    ensures t == [] || !IsSpace(t[0])
    ensures forall i :: 0 <= i < |s| - |t| ==> IsSpace(s[i])
  {
    if s != [] && IsSpace(s[0]) then SkipSpace(s[1..]) else s
  }

  /** The text after an optional sign. */
  function Unsigned(t: string): string
  {
    if |t| > 0 && (t[0] == '+' || t[0] == '-') then t[1..] else t
  }

  /** The number `s` denotes when strtod consumes ALL of it; None when strtod
      converts nothing or stops before the end. Rounding to 53 bits and the ERANGE
      range check are not part of this model. Whatever it accepts holds a numeral. */
  function ParseDouble(s: string): (r: Option<Double>)
    ensures r.Some? ==> HasNumeral(s)
  {
    var t := SkipSpace(s);
    var negative := |t| > 0 && t[0] == '-';
    match Magnitude(Unsigned(t))
    case None => None
    case Some(d) =>
      NumberHasNumeral(s);
      Some(if negative then Negate(d) else d)
  }

  // ---------------------------------------------------------------------------
  // What strtod's acceptance means

  /** A character that only a number can start from: a decimal digit, or the
      first letter of `inf`/`infinity`/`nan`. */
  predicate IsNumeralChar(c: char)
  {
    IsDigitIn(c, 10) || c in {'i', 'I', 'n', 'N'}
  }

  /** `s` holds at least one character of a number. */
  predicate HasNumeral(s: string)
  {
    exists i :: 0 <= i < |s| && IsNumeralChar(s[i])
  }

  lemma HasNumeralSuffix(s: string, k: nat)
    requires k <= |s| && HasNumeral(s[k..])
    ensures HasNumeral(s)
  {
    var i :| 0 <= i < |s[k..]| && IsNumeralChar(s[k..][i]);
    assert s[k + i] == s[k..][i];
  }

  lemma {:induction false} MantissaHasDigit(m: string, base: nat)
    requires base > 0 && Mantissa(m, base).Some?
    ensures exists i :: 0 <= i < |m| && IsDigitIn(m[i], base)
  {
    var dot := IndexOfAny(m, {'.'});
    if dot.Some? {
      var whole, frac := m[..dot.value], m[dot.value + 1..];
      if |whole| > 0 {
        assert m[0] == whole[0];
      } else {
        assert m[dot.value + 1] == frac[0];
      }
    } else {
      assert IsDigitIn(m[0], base);
    }
  }

  lemma {:induction false} ScaledNumberHasDigit(b: string, base: nat, marks: set<char>, scaleBase: nat)
    requires 0 < base <= 10 && scaleBase > 0 && ScaledNumber(b, base, marks, scaleBase).Some?
    ensures HasNumeral(b)
  {
    var mark := IndexOfAny(b, marks);
    var m := if mark.Some? then b[..mark.value] else b;
    MantissaHasDigit(m, base);
    var i :| 0 <= i < |m| && IsDigitIn(m[i], base);
    assert b[i] == m[i] && IsNumeralChar(b[i]);
  }

  lemma {:induction false} MagnitudeHasNumeral(b: string)
    requires Magnitude(b).Some?
    ensures HasNumeral(b)
  {
    if Lower(b) == "inf" || Lower(b) == "infinity" {
      assert LowerChar(b[0]) == Lower(b)[0] == 'i';
      assert IsNumeralChar(b[0]);
    } else if IsNanText(b) {
      assert LowerChar(b[0]) == Lower(b[..3])[0] == 'n';
      assert IsNumeralChar(b[0]);
    } else if |b| >= 2 && b[0] == '0' && (b[1] == 'x' || b[1] == 'X') {
      assert IsNumeralChar(b[0]);
    } else {
      ScaledNumberHasDigit(b, 10, {'e', 'E'}, 10);
    }
  }

  /** A string whose unsigned part, after the white space strtod skips, is a
      number holds a digit, or the `i` or `n` that spells an infinity or a NaN. */
  lemma {:induction false} NumberHasNumeral(s: string)
    requires Magnitude(Unsigned(SkipSpace(s))).Some?
    ensures HasNumeral(s)
  {
    var t := SkipSpace(s);
    MagnitudeHasNumeral(Unsigned(t));
    if Unsigned(t) != t {
      HasNumeralSuffix(t, 1);
    }
    HasNumeralSuffix(s, |s| - |t|);
  }

  /** The characters of `s` before its first NUL: what `s.c_str()` shows strtod. */
  function CString(s: string): (c: string)
    ensures |c| <= |s| && c == s[..|c|] && '\0' !in c
    ensures |c| < |s| ==> s[|c|] == '\0'
  {
    if s == [] || s[0] == '\0' then [] else [s[0]] + CString(s[1..])
  }

  /** strtod followed by the `!errno && !*error` test of the token classifier,
      as written: the test reads the character after the converted part of the
      C string. When strtod converts nothing it returns 0.0 and leaves that
      end position at the start, so an empty C string passes the test. On a
      token without NUL it agrees with the full-token parse; a token is cut at
      its first NUL, and one that starts with NUL reads as 0.0. */
  function StrtodAsWritten(s: string): (r: Option<Double>)
    ensures s != [] && '\0' !in s ==> r == ParseDouble(s)
    ensures s != [] && s[0] == '\0' ==> r == Some(Finite(0.0))
    ensures CString(s) != [] ==> r == ParseDouble(CString(s))
  {
    var c := CString(s);
    assert '\0' !in s ==> |c| == |s| && c == s;
    if c == [] then Some(Finite(0.0)) else ParseDouble(c)
  }

  /** The C string of a NUL-free prefix followed by a NUL is that prefix. */
  lemma {:induction false} CStringStopsAtNul(a: string, b: string)
    requires '\0' !in a
    ensures CString(a + "\0" + b) == a
  {
    var s := a + "\0" + b;
    if a == [] {
      assert s[0] == '\0';
    } else {
      assert s[0] == a[0];
      assert s[1..] == a[1..] + "\0" + b;
      CStringStopsAtNul(a[1..], b);
    }
  }

  /** Every character of an accepted mantissa is a digit or the radix point. */
  lemma {:induction false} MantissaChars(m: string, base: nat)
    requires base > 0 && Mantissa(m, base).Some?
    ensures forall i :: 0 <= i < |m| ==> m[i] == '.' || IsDigitIn(m[i], base)
  {
    match IndexOfAny(m, {'.'})
    case None =>
    case Some(dot) =>
      var whole, frac := m[..dot], m[dot + 1..];
      forall i | 0 <= i < |m|
        ensures m[i] == '.' || IsDigitIn(m[i], base)
      {
        if i < dot {
          assert m[i] == whole[i];
        } else if i > dot {
          assert m[i] == frac[i - dot - 1];
        }
      }
  }

  /** A constant is rejected when, before any exponent mark, it holds a character
      that is neither a digit nor the radix point. */
  lemma {:induction false} ScaledNumberStopsAt(b: string, base: nat, marks: set<char>, scaleBase: nat, k: nat)
    requires base > 0 && scaleBase > 0 && k < |b|
    requires b[k] != '.' && b[k] !in marks && !IsDigitIn(b[k], base)
    requires forall j :: 0 <= j < k ==> b[j] !in marks
    ensures ScaledNumber(b, base, marks, scaleBase) == None
  {
    var mark := IndexOfAny(b, marks);
    var m := if mark.Some? then b[..mark.value] else b;
    assert k < |m| && m[k] == b[k];
    if Mantissa(m, base).Some? {
      MantissaChars(m, base);
    }
  }

  /** A string that starts with no white space, sign, `i`, `n` or `0x` can only be
      accepted as a decimal constant. */
  lemma DecimalOnly(s: string)
    requires |s| > 0 && !IsSpace(s[0]) && s[0] != '+' && s[0] != '-'
    requires LowerChar(s[0]) != 'i' && LowerChar(s[0]) != 'n'
    requires !(|s| >= 2 && s[0] == '0' && (s[1] == 'x' || s[1] == 'X'))
    ensures ParseDouble(s).Some? ==> ScaledNumber(s, 10, {'e', 'E'}, 10).Some?
  {
    assert SkipSpace(s) == s && Unsigned(s) == s;
    assert Lower(s)[0] == LowerChar(s[0]);
    assert |s| >= 3 ==> Lower(s[..3])[0] == LowerChar(s[0]);
  }

  /** Such a string is rejected when it is no decimal constant either. */
  lemma DecimalRejected(s: string)
    requires |s| > 0 && !IsSpace(s[0]) && s[0] != '+' && s[0] != '-'
    requires LowerChar(s[0]) != 'i' && LowerChar(s[0]) != 'n'
    requires !(|s| >= 2 && s[0] == '0' && (s[1] == 'x' || s[1] == 'X'))
    requires ScaledNumber(s, 10, {'e', 'E'}, 10) == None
    ensures ParseDouble(s) == None
  {
    DecimalOnly(s);
  }

  /** The as-written test accepts every token that starts with NUL and reads it
      as 0.0; the intended parse rejects all of them. */
  lemma NulTokenReadAsZero(s: string)
    requires |s| > 0 && s[0] == '\0'
    ensures StrtodAsWritten(s) == Some(Finite(0.0))
    ensures ParseDouble(s) == None
  {
    ScaledNumberStopsAt(s, 10, {'e', 'E'}, 10, 0);
    DecimalRejected(s);
  }

  /** A digit run followed by a NUL is no decimal constant, whatever follows. */
  lemma {:induction false} DigitRunThenNulRejected(d: string, rest: string)
    requires |d| > 0 && AllDigitsIn(d, 10)
    ensures ParseDouble(d + "\0" + rest) == None
  {
    var s := d + "\0" + rest;
    assert ScaledNumber(s, 10, {'e', 'E'}, 10) == None by {
      assert forall j :: 0 <= j < |d| ==> s[j] == d[j] && IsDigitIn(d[j], 10);
      assert s[|d|] == '\0';
      ScaledNumberStopsAt(s, 10, {'e', 'E'}, 10, |d|);
    }
    assert s[0] == d[0] && IsDigitIn(d[0], 10);
    assert |s| >= 2 ==> s[1] == '\0' || IsDigitIn(s[1], 10);
    DecimalRejected(s);
  }

  /** The as-written test reads a digit run followed by a NUL as the digit run,
      whatever follows the NUL; the intended parse rejects the token. */
  lemma {:induction false} EmbeddedNulTruncates(d: string, rest: string)
    requires |d| > 0 && AllDigitsIn(d, 10)
    ensures StrtodAsWritten(d + "\0" + rest) == Some(Finite(DigitsValue(d, 10) as real))
    ensures ParseDouble(d + "\0" + rest) == None
  {
    assert forall j :: 0 <= j < |d| ==> d[j] != '\0' by {
      assert forall j :: 0 <= j < |d| ==> IsDigitIn(d[j], 10);
    }
    CStringStopsAtNul(d, rest);
    DigitRunValue(d);
    DigitRunThenNulRejected(d, rest);
  }

  // ---------------------------------------------------------------------------
  // Decimal rendering of naturals, and the round trip through ParseDouble

  function DigitChar(d: nat): (c: char)
    requires d < 10
    ensures DigitValue(c) == d
  {
    ('0' as int + d) as char
  }

  /** The shortest decimal text of `n`. */
  function NatText(n: nat): (s: string)
    ensures |s| > 0 && AllDigitsIn(s, 10)
  {
    if n < 10 then [DigitChar(n)] else NatText(n / 10) + [DigitChar(n % 10)]
  }

  lemma {:induction false} NatTextValue(n: nat)
    ensures DigitsValue(NatText(n), 10) == n
  {
    if n >= 10 {
      var s := NatText(n);
      assert s[..|s| - 1] == NatText(n / 10);
      NatTextValue(n / 10);
    }
  }

  /** A digit run is no infinity, no NaN and no hexadecimal constant. */
  lemma DigitRunIsDecimal(s: string)
    requires |s| > 0 && AllDigitsIn(s, 10)
    ensures Lower(s) != "inf" && Lower(s) != "infinity" && !IsNanText(s)
    ensures !(|s| >= 2 && s[0] == '0' && (s[1] == 'x' || s[1] == 'X'))
  {
    assert IsDigitIn(s[0], 10) && Lower(s)[0] == s[0];
    assert |s| >= 2 ==> IsDigitIn(s[1], 10);
  }

  /** A search for characters that are not decimal digits finds none in a digit run. */
  lemma NoMarkInDigitRun(s: string, cs: set<char>)
    requires AllDigitsIn(s, 10) && forall c :: c in cs ==> !IsDigitIn(c, 10)
    ensures IndexOfAny(s, cs) == None
  {
  }

  /** A digit run is a mantissa worth its digits. */
  lemma DigitRunMantissa(s: string)
    requires |s| > 0 && AllDigitsIn(s, 10)
    ensures Mantissa(s, 10) == Some(DigitsValue(s, 10) as real)
  {
    NoMarkInDigitRun(s, {'.'});
  }

  /** A digit run, with no point and no exponent, scales to its own value. */
  lemma DigitRunScaled(s: string)
    requires |s| > 0 && AllDigitsIn(s, 10)
    ensures ScaledNumber(s, 10, {'e', 'E'}, 10) == Some(DigitsValue(s, 10) as real)
  {
    NoMarkInDigitRun(s, {'e', 'E'});
    DigitRunMantissa(s);
  }

  /** A non-empty run of decimal digits is read by strtod as the number it spells. */
  lemma {:induction false} DigitRunValue(s: string)
    requires |s| > 0 && AllDigitsIn(s, 10)
    ensures ParseDouble(s) == Some(Finite(DigitsValue(s, 10) as real))
  {
    assert IsDigitIn(s[0], 10);
    assert SkipSpace(s) == s by {
      assert !IsSpace(s[0]);
    }
    DigitRunIsDecimal(s);
    DigitRunScaled(s);
    assert Magnitude(s) == Some(Finite(DigitsValue(s, 10) as real));
  }

  /** Every natural written in decimal is read back by strtod as itself. */
  lemma {:induction false} NatTextRoundTrip(n: nat)
    ensures ParseDouble(NatText(n)) == Some(Finite(n as real))
  {
    DigitRunValue(NatText(n));
    NatTextValue(n);
  }
}
