/**
 * The parts of Python's `str` that the validators and models rely on:
 * `strip()`, `replace(c, '')`, `upper()`/`lower()`, `isdigit()`/`isalpha()`,
 * `int()` of a digit string and `f"{n:07d}"`, plus SQLite's binary ordering
 * of text (used by `ORDER BY codigo DESC`).
 */
module Strings {

  // ---------------------------------------------------------------------------
  // Character classes
  // ---------------------------------------------------------------------------

  /** `str.isdigit()` restricted to the ASCII digits. */
  predicate IsDigit(c: char) { '0' <= c <= '9' }

  predicate IsUpperLetter(c: char) { 'A' <= c <= 'Z' }

  predicate IsLowerLetter(c: char) { 'a' <= c <= 'z' }

  /** `str.isalpha()` restricted to the ASCII letters. */
  predicate IsAlpha(c: char) { IsUpperLetter(c) || IsLowerLetter(c) }

  /** The characters for which Python's `str.isspace()` holds. */
  predicate IsSpace(c: char) {
    c == ' ' || c == '\t' || c == '\n' || c == '\r' || c == '\U{000B}' || c == '\U{000C}'
    || ('\U{001C}' <= c <= '\U{001F}') || c == '\U{0085}' || c == '\U{00A0}' || c == '\U{1680}'
    || ('\U{2000}' <= c <= '\U{200A}') || c == '\U{2028}' || c == '\U{2029}' || c == '\U{202F}'
    || c == '\U{205F}' || c == '\U{3000}'
  }

  predicate AllDigits(s: string) {
    forall i :: 0 <= i < |s| ==> IsDigit(s[i])
  }

  predicate AllAlpha(s: string) {
    forall i :: 0 <= i < |s| ==> IsAlpha(s[i])
  }

  function DigitValue(c: char): (d: nat)
    requires IsDigit(c)
    ensures d <= 9
    ensures DigitChar(d) == c
  {
    c as int - '0' as int
  }

  function DigitChar(d: nat): (c: char)
    requires d <= 9
    ensures IsDigit(c)
  {
    (d + '0' as int) as char
  }

  // ---------------------------------------------------------------------------
  // strip(), replace(c, ''), upper(), lower()
  // ---------------------------------------------------------------------------

  function StripLeft(s: string): (r: string)
    ensures |r| <= |s| && r == s[|s| - |r|..]
    ensures r != [] ==> !IsSpace(r[0])
    ensures forall x :: x in r ==> x in s
  {
    if s != [] && IsSpace(s[0]) then StripLeft(s[1..]) else s
  }

  function StripRight(s: string): (r: string)
    ensures |r| <= |s| && r == s[..|r|]
    ensures r != [] ==> !IsSpace(r[|r| - 1])
    ensures forall x :: x in r ==> x in s
  {
    if s != [] && IsSpace(s[|s| - 1]) then StripRight(s[..|s| - 1]) else s
  }

  /** `s.strip()`: leading and trailing whitespace removed. */
  function Strip(s: string): (r: string)
    ensures |r| <= |s|
    ensures r != [] ==> !IsSpace(r[0]) && !IsSpace(r[|r| - 1])
    ensures forall x :: x in r ==> x in s
  {
    StripRight(StripLeft(s))
  }

  /** One blank on each side of a trimmed text is what `strip()` removes. */
  lemma {:induction false} StripEntreBlancos(t: string)
    requires t != [] && !IsSpace(t[0]) && !IsSpace(t[|t| - 1])
    ensures Strip([' '] + t + [' ']) == t
  {
    var s, w := [' '] + t + [' '], t + [' '];
    assert StripLeft(s) == w by {
      assert s[1..] == w;
      assert StripLeft(s) == StripLeft(w);
    }
    assert StripRight(w) == t by {
      assert w[..|w| - 1] == t;
      assert StripRight(w) == StripRight(t);
    }
  }

  /** A string that begins and ends with a non-space is its own strip. */
  lemma {:induction false} StripNoop(s: string)
    requires s != [] ==> !IsSpace(s[0]) && !IsSpace(s[|s| - 1])
    ensures Strip(s) == s
  {
  }

  /** `s.replace(c, '')`. */
  function Remove(s: string, c: char): (r: string)
    ensures |r| <= |s|
    ensures c !in r
    ensures forall x :: x in r ==> x in s
    ensures c !in s ==> r == s
  {
    if s == [] then [] else (if s[0] == c then [] else [s[0]]) + Remove(s[1..], c)
  }

  lemma {:induction false} RemoveConcat(a: string, b: string, c: char)
    ensures Remove(a + b, c) == Remove(a, c) + Remove(b, c)
  {
    if a == [] {
      assert a + b == b;
    } else {
      var h := if a[0] == c then [] else [a[0]];
      RemoveConcat(a[1..], b, c);
      RemoveCons(a, c);
      ConcatCola(a, b);
      RemoveCons(a + b, c);
      ConcatAsociativa(h, Remove(a[1..], c), Remove(b, c));
    }
  }

  /** Removing `c` from a non-empty string: the first character, unless it is `c`, then the rest. */
  lemma {:induction false} RemoveCons(s: string, c: char)
    requires s != []
    ensures Remove(s, c) == (if s[0] == c then [] else [s[0]]) + Remove(s[1..], c)
  {
  }

  lemma {:induction false} ConcatCola<X>(a: seq<X>, b: seq<X>)
    requires a != []
    ensures (a + b)[0] == a[0] && (a + b)[1..] == a[1..] + b
  {
  }

  lemma {:induction false} ConcatAsociativa<X>(h: seq<X>, x: seq<X>, y: seq<X>)
    ensures h + (x + y) == (h + x) + y
  {
  }

  /** Removing `c` from `x + [c] + y` leaves what is left of `x` followed by what is left of `y`. */
  lemma {:induction false} RemoveAround(x: string, y: string, c: char)
    ensures Remove(x + [c] + y, c) == Remove(x, c) + Remove(y, c)
  {
    RemoveConcat(x + [c], y, c);
    RemoveConcat(x, [c], c);
    RemoveOnly(c);
  }

  lemma {:induction false} RemoveOnly(c: char)
    ensures Remove([c], c) == []
  {
    assert [c][1..] == [];
  }

  function UpperChar(c: char): char {
    if IsLowerLetter(c) then (c as int - 32) as char else c
  }

  function LowerChar(c: char): char {
    if IsUpperLetter(c) then (c as int + 32) as char else c
  }

  /** `s.upper()` on the ASCII letters. */
  function Upper(s: string): (r: string)
    ensures |r| == |s|
    ensures forall i :: 0 <= i < |s| ==> r[i] == UpperChar(s[i])
  {
    seq(|s|, i requires 0 <= i < |s| => UpperChar(s[i]))
  }

  /** `s.lower()` on the ASCII letters. */
  function Lower(s: string): (r: string)
    ensures |r| == |s|
    ensures forall i :: 0 <= i < |s| ==> r[i] == LowerChar(s[i])
  {
    seq(|s|, i requires 0 <= i < |s| => LowerChar(s[i]))
  }

  /** A text with no lower-case letter is its own upper case. */
  lemma {:induction false} UpperSinMinusculas(s: string)
    requires forall i :: 0 <= i < |s| ==> !IsLowerLetter(s[i])
    ensures Upper(s) == s
  {
  }

  /** What `upper().strip()` leaves has no lower-case letter. */
  lemma {:induction false} NormalizadoSinMinusculas(s: string)
    ensures forall i :: 0 <= i < |Strip(Upper(s))| ==> !IsLowerLetter(Strip(Upper(s))[i])
  {
    var u := Upper(s);
    assert forall i :: 0 <= i < |u| ==> !IsLowerLetter(u[i]);
    SinMinusculasEnParte(u, Strip(u));
  }

  /** Characters drawn from a text without lower-case letters have none either. */
  lemma {:induction false} SinMinusculasEnParte(u: string, c: string)
    requires forall i :: 0 <= i < |u| ==> !IsLowerLetter(u[i])
    requires forall x :: x in c ==> x in u
    ensures forall i :: 0 <= i < |c| ==> !IsLowerLetter(c[i])
  {
    forall i | 0 <= i < |c| ensures !IsLowerLetter(c[i]) {
      assert c[i] in c;
    }
  }

  /** What `upper().strip()` leaves is unchanged by a second `upper()`, `strip()` or both. */
  lemma {:induction false} NormalizadoFijo(codigo: string)
    ensures var c := Strip(Upper(codigo));
      Upper(c) == c && Strip(c) == c && Upper(Strip(c)) == c
  {
    var c := Strip(Upper(codigo));
    StripNoop(c);
    NormalizadoSinMinusculas(codigo);
    UpperSinMinusculas(c);
  }

  /** Upper-casing a normalised string changes nothing. */
  lemma {:induction false} NormalizadoEnMayusculas(s: string)
    ensures Upper(Strip(Upper(s))) == Strip(Upper(s))
  {
    NormalizadoSinMinusculas(s);
    UpperSinMinusculas(Strip(Upper(s)));
  }

  /** A text with no lower-case letter and no blank at either end is already normalised. */
  lemma {:induction false} YaNormalizado(s: string)
    requires forall i :: 0 <= i < |s| ==> !IsLowerLetter(s[i])
    requires s != [] ==> !IsSpace(s[0]) && !IsSpace(s[|s| - 1])
    ensures Upper(s) == s && Strip(Upper(s)) == s
  {
    UpperSinMinusculas(s);
    StripNoop(s);
  }

  // ---------------------------------------------------------------------------
  // int() of a digit string, decimal printing, zero padding
  // ---------------------------------------------------------------------------

  /** The value of a string of decimal digits, most significant first. */
  function DigitsValue(s: string): nat
    requires AllDigits(s)
  {
    if s == [] then 0 else DigitsValue(s[..|s| - 1]) * 10 + DigitValue(s[|s| - 1])
  }

  /** Python's `str(n)` for a natural number. */
  function NatToString(n: nat): (r: string)
    ensures r != [] && AllDigits(r)
    ensures DigitsValue(r) == n
    decreases n
  {
    if n < 10 then [DigitChar(n)]
    else
      var p := NatToString(n / 10);
      var r := p + [DigitChar(n % 10)];
      assert r[..|r| - 1] == p;
      r
  }

  function Zeros(k: nat): (r: string)
    ensures |r| == k && AllDigits(r) && DigitsValue(r) == 0
  {
    if k == 0 then []
    else
      var r := Zeros(k - 1) + ['0'];
      assert r[..|r| - 1] == Zeros(k - 1);
      r
  }

  lemma {:induction false} ZerosSon(k: nat)
    ensures forall i :: 0 <= i < k ==> Zeros(k)[i] == '0'
  {
    if k > 0 {
      ZerosSon(k - 1);
      assert forall i :: 0 <= i < k - 1 ==> Zeros(k)[i] == Zeros(k - 1)[i];
    }
  }

  /** Decimal digits of `n`, left-padded with zeros to `width` (`f"{n:0{width}d}"`). */
  function ZeroPad(n: nat, width: nat): (r: string)
  {
    var s := NatToString(n);
    if |s| >= width then s else Zeros(width - |s|) + s
  }

  /** `NatToString(n)` has exactly as many digits as `n` needs. */
  lemma {:induction false} NatToStringLength(n: nat, k: nat)
    requires n < Pow10(k)
    ensures |NatToString(n)| <= k || (k == 0 && |NatToString(n)| == 1)
    decreases n
  {
    if n >= 10 {
      assert Pow10(0) == 1 && Pow10(1) == 10;
      assert k >= 2;
      assert n / 10 < Pow10(k - 1);
      NatToStringLength(n / 10, k - 1);
    }
  }

  function Pow10(k: nat): (p: nat)
    ensures p >= 1
  {
    if k == 0 then 1 else 10 * Pow10(k - 1)
  }

  /** Leading zeros do not change the value of a digit string. */
  lemma {:induction false} DigitsValueLeadingZeros(k: nat, s: string)
    requires AllDigits(s)
    ensures AllDigits(Zeros(k) + s) && DigitsValue(Zeros(k) + s) == DigitsValue(s)
    decreases |s|
  {
    var z := Zeros(k) + s;
    assert AllDigits(z) by {
      forall i | 0 <= i < |z| ensures IsDigit(z[i]) {
        if i < k { assert z[i] == Zeros(k)[i]; } else { assert z[i] == s[i - k]; }
      }
    }
    if s == [] {
      assert z == Zeros(k);
    } else {
      assert z[..|z| - 1] == Zeros(k) + s[..|s| - 1];
      DigitsValueLeadingZeros(k, s[..|s| - 1]);
    }
  }

  // ---------------------------------------------------------------------------
  // Binary (code point) ordering of text, as SQLite compares TEXT by default
  // ---------------------------------------------------------------------------

  predicate TextLess(a: string, b: string) {
    if a == [] then b != []
    else if b == [] then false
    else if a[0] != b[0] then a[0] < b[0]
    else TextLess(a[1..], b[1..])
  }

  lemma {:induction false} TextLessIrreflexive(a: string)
    ensures !TextLess(a, a)
  {
    if a != [] {
      TextLessIrreflexive(a[1..]);
    }
  }

  lemma {:induction false} TextLessAsymmetric(a: string, b: string)
    ensures TextLess(a, b) ==> !TextLess(b, a)
  {
    if a != [] && b != [] && a[0] == b[0] {
      TextLessAsymmetric(a[1..], b[1..]);
    }
  }

  /** Any two different texts are ordered one way or the other. */
  lemma {:induction false} TextLessTotal(a: string, b: string)
    ensures a == b || TextLess(a, b) || TextLess(b, a)
  {
    if a != [] && b != [] && a[0] == b[0] {
      TextLessTotal(a[1..], b[1..]);
      if a[1..] == b[1..] {
        assert a == [a[0]] + a[1..] && b == [b[0]] + b[1..];
      }
    }
  }

  lemma {:induction false} TextLessTransitive(a: string, b: string, c: string)
    requires TextLess(a, b) && TextLess(b, c)
    ensures TextLess(a, c)
  {
    if a != [] && a[0] == b[0] && b[0] == c[0] {
      TextLessTransitive(a[1..], b[1..], c[1..]);
    }
  }

  /** A common prefix does not change the order. */
  lemma {:induction false} TextLessPrefijo(p: string, a: string, b: string)
    ensures TextLess(p + a, p + b) <==> TextLess(a, b)
  {
    if p == [] {
      assert p + a == a && p + b == b;
    } else {
      assert (p + a)[1..] == p[1..] + a && (p + b)[1..] == p[1..] + b;
      TextLessPrefijo(p[1..], a, b);
    }
  }

  /** A digit string is worth less than ten to the power of its length. */
  lemma {:induction false} DigitsValueBound(s: string)
    requires AllDigits(s)
    ensures DigitsValue(s) < Pow10(|s|)
  {
    if s != [] {
      DigitsValueBound(s[..|s| - 1]);
    }
  }

  /** The value of a digit string read from its first digit. */
  lemma {:induction false} DigitsValueFront(s: string)
    requires AllDigits(s) && s != []
    ensures DigitsValue(s) == DigitValue(s[0]) * Pow10(|s| - 1) + DigitsValue(s[1..])
  {
    if |s| > 1 {
      var t, u := s[..|s| - 1], s[1..];
      DigitsValueFront(t);
      assert t[0] == s[0] && u[..|u| - 1] == t[1..] && u[|u| - 1] == s[|s| - 1];
      var d := DigitValue(s[|s| - 1]);
      assert DigitsValue(s) == DigitsValue(t) * 10 + d;
      assert DigitsValue(u) == DigitsValue(t[1..]) * 10 + d;
      assert Pow10(|s| - 1) == 10 * Pow10(|t| - 1);
      DesplazarDigito(DigitValue(s[0]), Pow10(|t| - 1), DigitsValue(t[1..]), d);
    } else {
      assert s[..0] == [] && s[1..] == [];
    }
  }

  /** Appending a digit to `a * p + b` multiplies both terms by ten. */
  lemma DesplazarDigito(a: int, p: int, b: int, d: int)
    ensures (a * p + b) * 10 + d == a * (10 * p) + (b * 10 + d)
  {
  }

  /** A smaller leading digit outweighs whatever follows it. */
  lemma {:induction false} DigitoMayorPesa(x: nat, y: nat, k: nat, r: nat, r': nat)
    requires x < y && r < k
    ensures x * k + r < y * k + r'
  {
    assert (x + 1) * k == x * k + k;
    assert (x + 1) * k <= y * k;
  }

  /** With the same leading digit, the rest decides. */
  lemma MismoDigitoPesa(x: nat, k: nat, r: nat, r': nat)
    requires r < r'
    ensures x * k + r < x * k + r'
  {
  }

  /** Between digit strings of one length, text order is numeric order. */
  lemma {:induction false} TextLessDigits(a: string, b: string)
    requires AllDigits(a) && AllDigits(b) && |a| == |b|
    ensures TextLess(a, b) ==> DigitsValue(a) < DigitsValue(b)
  {
    if a != [] && TextLess(a, b) {
      var k := Pow10(|a| - 1);
      var da, db := DigitValue(a[0]), DigitValue(b[0]);
      var ra, rb := DigitsValue(a[1..]), DigitsValue(b[1..]);
      DigitsValueFront(a);
      DigitsValueFront(b);
      if a[0] == b[0] {
        TextLessDigits(a[1..], b[1..]);
        MismoDigitoPesa(da, k, ra, rb);
      } else {
        assert a[0] < b[0];
        DigitsValueBound(a[1..]);
        DigitoMayorPesa(da, db, k, ra, rb);
      }
    }
  }

  /** `f"{n:07d}"` for a number below ten million is seven digits worth `n`. */
  lemma {:induction false} ZeroPadSiete(n: nat)
    requires n < Pow10(7)
    ensures |ZeroPad(n, 7)| == 7 && AllDigits(ZeroPad(n, 7)) && DigitsValue(ZeroPad(n, 7)) == n
  {
    NatToStringLength(n, 7);
    ZeroPadAncho(n, 7);
  }

  /** Padding to a width no narrower than the number gives exactly that many digits, worth the number. */
  lemma {:induction false} ZeroPadAncho(n: nat, ancho: nat)
    requires |NatToString(n)| <= ancho
    ensures |ZeroPad(n, ancho)| == ancho && AllDigits(ZeroPad(n, ancho)) && DigitsValue(ZeroPad(n, ancho)) == n
  {
    var s := NatToString(n);
    if |s| < ancho {
      DigitsValueLeadingZeros(ancho - |s|, s);
    }
  }
}
