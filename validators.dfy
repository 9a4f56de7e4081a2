/**
 * Checksum and format validators for the identifiers that may enter the
 * payment batches: CUIT (tax identifier, modulo-11 check digit), CBU (bank
 * account code, two modulo-10 blocks) and reference codes (5 letters and
 * 7 digits), with the display formatters and the digit filter.
 *
 * The source returns `(valido, mensaje)`; here each validator returns a
 * verdict whose constructor names which check failed, in the order the
 * source performs the checks.
 */
module Validators {
  import opened Strings

  // ---------------------------------------------------------------------------
  // Weighted digit sums
  // ---------------------------------------------------------------------------

  /** Sum of `ds[j] * ws[j]` over `i <= j < |ws|`. */
  function SumaDesde(ds: string, ws: seq<nat>, i: nat): nat
    requires |ds| == |ws| && AllDigits(ds) && i <= |ws|
    decreases |ws| - i
  {
    if i == |ws| then 0 else DigitValue(ds[i]) * ws[i] + SumaDesde(ds, ws, i + 1)
  }

  /** Sum of `ds[i] * ws[i]`. */
  function SumaPonderada(ds: string, ws: seq<nat>): nat
    requires |ds| == |ws| && AllDigits(ds)
  {
    SumaDesde(ds, ws, 0)
  }

  // ---------------------------------------------------------------------------
  // CUIT
  // ---------------------------------------------------------------------------

  const TiposCuit: set<string> := {"20", "23", "24", "27", "30", "33", "34"}
  const PesosCuit: seq<nat> := [5, 4, 3, 2, 7, 6, 5, 4, 3, 2]

  datatype ResultadoCuit =
    | CuitValido
    | CuitLongitudInvalida
    | CuitNoNumerico
    | CuitTipoInvalido(tipo: string)
    | CuitVerificadorInvalido(esperado: nat)

  /** `cuit.replace('-', '').replace(' ', '').strip()`. */
  function LimpiarCuit(cuit: string): string {
    Strip(Remove(Remove(cuit, '-'), ' '))
  }

  /** The check digit derived from the weighted sum: 11 - (sum mod 11), with 11 read as 0 and 10 as 9. */
  function DigitoCuitDeSuma(suma: nat): (d: nat)
    ensures d <= 9
  {
    var v := 11 - suma % 11;
    if v == 11 then 0 else if v == 10 then 9 else v
  }

  function DigitoVerificadorCuit(c: string): (d: nat)
    requires |c| == 11 && AllDigits(c)
    ensures d <= 9
  {
    DigitoCuitDeSuma(SumaPonderada(c[..10], PesosCuit))
  }

  /**
   * The checks of `validar_cuit` on an already cleaned value: reject one that
   * is not 11 characters, then one with a non-digit, then one whose first two
   * digits are not a known type, then one whose last digit is not the check
   * digit.
   */
  function VeredictoCuit(c: string): (r: ResultadoCuit)
    ensures |c| != 11 ==> r == CuitLongitudInvalida
    ensures |c| == 11 && !AllDigits(c) ==> r == CuitNoNumerico
    ensures r.CuitTipoInvalido? ==> r.tipo !in TiposCuit && |r.tipo| == 2
    ensures r.CuitVerificadorInvalido? ==> r.esperado <= 9
    ensures r.CuitTipoInvalido? <==> |c| == 11 && AllDigits(c) && c[..2] !in TiposCuit
    ensures |c| == 11 && AllDigits(c) && c[..2] !in TiposCuit ==> r == CuitTipoInvalido(c[..2])
    ensures r.CuitVerificadorInvalido? <==>
      |c| == 11 && AllDigits(c) && c[..2] in TiposCuit && DigitValue(c[10]) != DigitoVerificadorCuit(c)
    ensures |c| == 11 && AllDigits(c) && c[..2] in TiposCuit && DigitValue(c[10]) != DigitoVerificadorCuit(c) ==>
      r == CuitVerificadorInvalido(DigitoVerificadorCuit(c))
  {
    if |c| != 11 then CuitLongitudInvalida
    else if !AllDigits(c) then CuitNoNumerico
    else if c[..2] !in TiposCuit then CuitTipoInvalido(c[..2])
    else if DigitValue(c[10]) != DigitoVerificadorCuit(c) then CuitVerificadorInvalido(DigitoVerificadorCuit(c))
    else CuitValido
  }

  /** `validar_cuit`: the checks applied to the cleaned input. */
  function ValidarCuit(cuit: string): ResultadoCuit {
    VeredictoCuit(LimpiarCuit(cuit))
  }

  /**
   * Reference definition of a valid check digit `d` for a weighted sum `s`:
   * `s + d` is a multiple of 11, or, when no digit can achieve that
   * (`s mod 11 == 1`), the digit is 9.
   */
  predicate DigitoCuitCorrecto(s: nat, d: nat) {
    (s + d) % 11 == 0 || (s % 11 == 1 && d == 9)
  }

  lemma {:induction false} DigitoCuitDeSumaCaracterizado(s: nat, d: nat)
    requires d <= 9
    ensures DigitoCuitDeSuma(s) == d <==> DigitoCuitCorrecto(s, d)
  {
    var q, r := s / 11, s % 11;
    assert s == 11 * q + r;
    if r == 0 {
      assert (s + d) % 11 == 0 <==> d % 11 == 0 by { assert s + d == 11 * q + d; }
    } else {
      assert s + d == 11 * (q + 1) + (d + r - 11);
      if d + r >= 11 {
        assert (s + d) % 11 == d + r - 11;
      } else {
        assert (s + d) % 11 == d + r by { assert s + d == 11 * q + (d + r); }
      }
    }
  }

  /** Declarative form of a valid CUIT, independent of the order of the checks. */
  predicate CuitCanonicoValido(c: string) {
    && |c| == 11 && AllDigits(c)
    && c[..2] in TiposCuit
    && DigitoCuitCorrecto(SumaPonderada(c[..10], PesosCuit), DigitValue(c[10]))
  }

  /** `validar_cuit` accepts exactly the inputs whose cleaned form is a valid CUIT. */
  lemma {:induction false} ValidarCuitCorrecto(cuit: string)
    ensures ValidarCuit(cuit) == CuitValido <==> CuitCanonicoValido(LimpiarCuit(cuit))
  {
    VeredictoCuitCorrecto(LimpiarCuit(cuit));
  }

  lemma {:induction false} VeredictoCuitCorrecto(c: string)
    ensures VeredictoCuit(c) == CuitValido <==> CuitCanonicoValido(c)
  {
    if |c| == 11 && AllDigits(c) {
      DigitoCuitDeSumaCaracterizado(SumaPonderada(c[..10], PesosCuit), DigitValue(c[10]));
    }
  }

  /** A value cleaning leaves as it is: no `-`, no space, no whitespace at either end. */
  predicate Limpio(c: string) {
    && '-' !in c && ' ' !in c
    && (c != [] ==> !IsSpace(c[0]) && !IsSpace(c[|c| - 1]))
  }

  lemma {:induction false} LimpioFijo(c: string)
    requires Limpio(c)
    ensures LimpiarCuit(c) == c && LimpiarCbu(c) == c
  {
    assert Remove(c, '-') == c;
    assert Remove(c, ' ') == c;
    StripNoop(c);
  }

  /** Both cleaners produce clean values. */
  lemma {:induction false} LimpiarEsLimpio(s: string)
    ensures Limpio(LimpiarCuit(s)) && Limpio(LimpiarCbu(s))
  {
    SinDosCaracteres(s, '-', ' ');
    SinDosCaracteres(s, ' ', '-');
  }

  /** Removing two characters in turn and stripping leaves neither of them and no blank at either end. */
  lemma {:induction false} SinDosCaracteres(s: string, a: char, b: char)
    ensures var c := Strip(Remove(Remove(s, a), b));
      a !in c && b !in c && (c != [] ==> !IsSpace(c[0]) && !IsSpace(c[|c| - 1]))
  {
    var r := Remove(s, a);
    assert a !in Remove(r, b);
  }

  lemma {:induction false} DigitosLimpios(c: string)
    requires AllDigits(c)
    ensures Limpio(c)
  {
    assert !IsDigit('-') && !IsDigit(' ');
  }

  /** Cleaning is idempotent, so validating the cleaned value gives the same verdict. */
  lemma {:induction false} ValidarCuitIdempotente(cuit: string)
    ensures LimpiarCuit(LimpiarCuit(cuit)) == LimpiarCuit(cuit)
    ensures ValidarCuit(LimpiarCuit(cuit)) == ValidarCuit(cuit)
  {
    LimpiarEsLimpio(cuit);
    LimpioFijo(LimpiarCuit(cuit));
  }

  /** The digit named in a check-digit rejection is the one that makes the CUIT valid. */
  lemma {:induction false} CuitVerificadorReparable(cuit: string)
    requires ValidarCuit(cuit).CuitVerificadorInvalido?
    ensures var c := LimpiarCuit(cuit);
      |c| == 11 && ValidarCuit(c[..10] + [DigitChar(ValidarCuit(cuit).esperado)]) == CuitValido
  {
    CuitCambiaVerificador(LimpiarCuit(cuit), ValidarCuit(cuit).esperado);
  }

  /** Changing only the check digit of a valid CUIT is always detected. */
  lemma {:induction false} CuitDetectaVerificadorCambiado(cuit: string, d: nat)
    requires ValidarCuit(cuit) == CuitValido
    requires d <= 9 && d != DigitValue(LimpiarCuit(cuit)[10])
    ensures var c := LimpiarCuit(cuit);
      ValidarCuit(c[..10] + [DigitChar(d)]) == CuitVerificadorInvalido(DigitValue(c[10]))
  {
    CuitCambiaVerificador(LimpiarCuit(cuit), d);
  }

  lemma {:induction false} CuitCambiaVerificador(c: string, d: nat)
    requires VeredictoCuit(c) == CuitValido || VeredictoCuit(c).CuitVerificadorInvalido?
    requires d <= 9
    ensures var c' := c[..10] + [DigitChar(d)];
      ValidarCuit(c') == if d == DigitoVerificadorCuit(c) then CuitValido else CuitVerificadorInvalido(DigitoVerificadorCuit(c))
  {
    var c' := c[..10] + [DigitChar(d)];
    VeredictoCuitCambiaVerificador(c, d);
    DigitosLimpios(c');
    LimpioFijo(c');
  }

  /**
   * Replacing the last digit of a CUIT that passed the type check by `d`
   * yields a valid CUIT exactly when `d` is the check digit, and otherwise a
   * rejection naming that digit.
   */
  lemma {:induction false} VeredictoCuitCambiaVerificador(c: string, d: nat)
    requires VeredictoCuit(c) == CuitValido || VeredictoCuit(c).CuitVerificadorInvalido?
    requires d <= 9
    ensures var c' := c[..10] + [DigitChar(d)];
      && AllDigits(c')
      && VeredictoCuit(c') == if d == DigitoVerificadorCuit(c) then CuitValido else CuitVerificadorInvalido(DigitoVerificadorCuit(c))
  {
    var c' := c[..10] + [DigitChar(d)];
    assert c'[..10] == c[..10] && c'[..2] == c[..2];
    assert AllDigits(c');
  }

  /** `formatear_cuit`: `XX-XXXXXXXX-X` when the cleaned value has 11 characters, else the input. */
  function FormatearCuit(cuit: string): (r: string)
    ensures |LimpiarCuit(cuit)| == 11 ==> |r| == 13 && r[2] == '-' && r[11] == '-'
    ensures |LimpiarCuit(cuit)| != 11 ==> r == cuit
  {
    var c := LimpiarCuit(cuit);
    if |c| == 11 then c[..2] + "-" + c[2..10] + "-" + [c[10]] else cuit
  }

  /** The `-` inserted by the formatter are exactly what cleaning takes out again. */
  lemma {:induction false} FormatoCuitSeLimpia(c: string)
    requires Limpio(c) && |c| == 11
    ensures LimpiarCuit(c[..2] + "-" + c[2..10] + "-" + [c[10]]) == c
  {
    var a, b, d := c[..2], c[2..10], [c[10]];
    assert c == a + b + d;
    assert '-' !in a && '-' !in b && '-' !in d;
    assert ' ' !in c;
    var f := a + ['-'] + b + ['-'] + d;
    assert c[..2] + "-" + c[2..10] + "-" + [c[10]] == f;
    RemoveAround(a + ['-'] + b, d, '-');
    RemoveAround(a, b, '-');
    assert Remove(f, '-') == c;
    StripNoop(c);
  }

  /** Formatting keeps the cleaned value, hence the verdict, and is idempotent. */
  lemma {:induction false} FormatearCuitConserva(cuit: string)
    ensures LimpiarCuit(FormatearCuit(cuit)) == LimpiarCuit(cuit)
    ensures ValidarCuit(FormatearCuit(cuit)) == ValidarCuit(cuit)
    ensures FormatearCuit(FormatearCuit(cuit)) == FormatearCuit(cuit)
  {
    var c := LimpiarCuit(cuit);
    if |c| == 11 {
      LimpiarEsLimpio(cuit);
      FormatoCuitSeLimpia(c);
    }
  }

  // ---------------------------------------------------------------------------
  // CBU
  // ---------------------------------------------------------------------------

  const PesosCbuBloque1: seq<nat> := [7, 1, 3, 9, 7, 1, 3]
  const PesosCbuBloque2: seq<nat> := [3, 9, 7, 1, 3, 9, 7, 1, 3, 9, 7, 1, 3]

  datatype ResultadoCbu =
    | CbuValido
    | CbuLongitudInvalida
    | CbuNoNumerico
    | CbuBloque1Invalido(esperado: nat)
    | CbuBloque2Invalido(esperado: nat)

  /** `cbu.replace(' ', '').replace('-', '').strip()`. */
  function LimpiarCbu(cbu: string): string {
    Strip(Remove(Remove(cbu, ' '), '-'))
  }

  /** `10 - (suma mod 10)`, with 10 read as 0. */
  function DigitoMod10(suma: nat): (d: nat)
    ensures d <= 9
  {
    var v := 10 - suma % 10;
    if v == 10 then 0 else v
  }

  /** A digit completes a modulo-10 block exactly when the block's weighted sum plus it is a multiple of 10. */
  lemma {:induction false} DigitoMod10Caracterizado(s: nat, d: nat)
    requires d <= 9
    ensures DigitoMod10(s) == d <==> (s + d) % 10 == 0
  {
    var q, r := s / 10, s % 10;
    assert s == 10 * q + r;
    if r == 0 {
      assert s + d == 10 * q + d;
    } else if d + r >= 10 {
      assert s + d == 10 * (q + 1) + (d + r - 10);
    } else {
      assert s + d == 10 * q + (d + r);
    }
  }

  function DigitoBloque1(c: string): (d: nat)
    requires |c| == 22 && AllDigits(c)
    ensures d <= 9
  {
    DigitoMod10(SumaPonderada(c[..7], PesosCbuBloque1))
  }

  function DigitoBloque2(c: string): (d: nat)
    requires |c| == 22 && AllDigits(c)
    ensures d <= 9
  {
    DigitoMod10(SumaPonderada(c[8..21], PesosCbuBloque2))
  }

  /**
   * The checks of `validar_cbu` on an already cleaned value: reject one that
   * is not 22 characters, then one with a non-digit, then a bad first block
   * (check digit at position 7), then a bad second block (position 21).
   */
  function VeredictoCbu(c: string): (r: ResultadoCbu)
    ensures |c| != 22 ==> r == CbuLongitudInvalida
    ensures |c| == 22 && !AllDigits(c) ==> r == CbuNoNumerico
    ensures r.CbuBloque1Invalido? ==> r.esperado <= 9
    ensures r.CbuBloque2Invalido? ==> r.esperado <= 9
    ensures r.CbuBloque1Invalido? <==> |c| == 22 && AllDigits(c) && DigitValue(c[7]) != DigitoBloque1(c)
    ensures |c| == 22 && AllDigits(c) && DigitValue(c[7]) != DigitoBloque1(c) ==> r == CbuBloque1Invalido(DigitoBloque1(c))
    ensures r.CbuBloque2Invalido? <==>
      |c| == 22 && AllDigits(c) && DigitValue(c[7]) == DigitoBloque1(c) && DigitValue(c[21]) != DigitoBloque2(c)
    ensures |c| == 22 && AllDigits(c) && DigitValue(c[7]) == DigitoBloque1(c) && DigitValue(c[21]) != DigitoBloque2(c) ==>
      r == CbuBloque2Invalido(DigitoBloque2(c))
  {
    if |c| != 22 then CbuLongitudInvalida
    else if !AllDigits(c) then CbuNoNumerico
    else if DigitValue(c[7]) != DigitoBloque1(c) then CbuBloque1Invalido(DigitoBloque1(c))
    else if DigitValue(c[21]) != DigitoBloque2(c) then CbuBloque2Invalido(DigitoBloque2(c))
    else CbuValido
  }

  /** `validar_cbu`: the checks applied to the cleaned input. */
  function ValidarCbu(cbu: string): ResultadoCbu {
    VeredictoCbu(LimpiarCbu(cbu))
  }

  /** Declarative form of a valid CBU: both blocks sum, with their check digit, to a multiple of 10. */
  predicate CbuCanonicoValido(c: string) {
    && |c| == 22 && AllDigits(c)
    && (SumaPonderada(c[..7], PesosCbuBloque1) + DigitValue(c[7])) % 10 == 0
    && (SumaPonderada(c[8..21], PesosCbuBloque2) + DigitValue(c[21])) % 10 == 0
  }

  /** `validar_cbu` accepts exactly the inputs whose cleaned form is a valid CBU. */
  lemma {:induction false} ValidarCbuCorrecto(cbu: string)
    ensures ValidarCbu(cbu) == CbuValido <==> CbuCanonicoValido(LimpiarCbu(cbu))
  {
    VeredictoCbuCorrecto(LimpiarCbu(cbu));
  }

  lemma {:induction false} VeredictoCbuCorrecto(c: string)
    ensures VeredictoCbu(c) == CbuValido <==> CbuCanonicoValido(c)
  {
    if |c| == 22 && AllDigits(c) {
      var s1, d1 := SumaPonderada(c[..7], PesosCbuBloque1), DigitValue(c[7]);
      var s2, d2 := SumaPonderada(c[8..21], PesosCbuBloque2), DigitValue(c[21]);
      assert VeredictoCbu(c) == CbuValido <==> d1 == DigitoBloque1(c) && d2 == DigitoBloque2(c);
      assert CbuCanonicoValido(c) <==> (s1 + d1) % 10 == 0 && (s2 + d2) % 10 == 0;
      DigitoMod10Caracterizado(s1, d1);
      DigitoMod10Caracterizado(s2, d2);
    }
  }

  /** A code bad in both blocks is reported as a block-1 failure. */
  lemma {:induction false} CbuBloque1Primero(cbu: string)
    requires var c := LimpiarCbu(cbu); |c| == 22 && AllDigits(c)
    requires var c := LimpiarCbu(cbu); DigitValue(c[7]) != DigitoBloque1(c) && DigitValue(c[21]) != DigitoBloque2(c)
    ensures ValidarCbu(cbu).CbuBloque1Invalido?
  {
  }

  /** Changing only the last digit of a valid CBU is reported as a block-2 failure. */
  lemma {:induction false} CbuDetectaUltimoDigitoCambiado(cbu: string, d: nat)
    requires ValidarCbu(cbu) == CbuValido
    requires d <= 9 && d != DigitValue(LimpiarCbu(cbu)[21])
    ensures var c := LimpiarCbu(cbu);
      ValidarCbu(c[..21] + [DigitChar(d)]) == CbuBloque2Invalido(DigitValue(c[21]))
  {
    var c := LimpiarCbu(cbu);
    var c' := c[..21] + [DigitChar(d)];
    VeredictoCbuUltimoDigito(c, d);
    DigitosLimpios(c');
    LimpioFijo(c');
  }

  lemma {:induction false} VeredictoCbuUltimoDigito(c: string, d: nat)
    requires VeredictoCbu(c) == CbuValido
    requires d <= 9 && d != DigitValue(c[21])
    ensures var c' := c[..21] + [DigitChar(d)];
      AllDigits(c') && VeredictoCbu(c') == CbuBloque2Invalido(DigitValue(c[21]))
  {
    var c' := c[..21] + [DigitChar(d)];
    assert c'[..7] == c[..7] && c'[8..21] == c[8..21] && c'[7] == c[7];
    assert AllDigits(c');
  }

  /** `formatear_cbu`: `XXX XXXX X XXXXXXXXXXXXX X` when the cleaned value has 22 characters, else the input. */
  function FormatearCbu(cbu: string): (r: string)
    ensures |LimpiarCbu(cbu)| == 22 ==> |r| == 26 && r[3] == ' ' && r[8] == ' ' && r[10] == ' ' && r[24] == ' '
    ensures |LimpiarCbu(cbu)| != 22 ==> r == cbu
  {
    var c := LimpiarCbu(cbu);
    if |c| == 22 then c[..3] + " " + c[3..7] + " " + [c[7]] + " " + c[8..21] + " " + [c[21]] else cbu
  }

  /** The spaces inserted by the formatter are exactly what cleaning takes out again. */
  lemma {:induction false} FormatoCbuSeLimpia(c: string)
    requires Limpio(c) && |c| == 22
    ensures LimpiarCbu(c[..3] + " " + c[3..7] + " " + [c[7]] + " " + c[8..21] + " " + [c[21]]) == c
  {
    var a, b, d, e, g := c[..3], c[3..7], [c[7]], c[8..21], [c[21]];
    assert c == a + b + d + e + g;
    assert ' ' !in a && ' ' !in b && ' ' !in d && ' ' !in e && ' ' !in g;
    assert '-' !in c;
    var f := a + [' '] + b + [' '] + d + [' '] + e + [' '] + g;
    assert c[..3] + " " + c[3..7] + " " + [c[7]] + " " + c[8..21] + " " + [c[21]] == f;
    RemoveAround(a + [' '] + b + [' '] + d + [' '] + e, g, ' ');
    RemoveAround(a + [' '] + b + [' '] + d, e, ' ');
    RemoveAround(a + [' '] + b, d, ' ');
    RemoveAround(a, b, ' ');
    assert Remove(f, ' ') == c;
    StripNoop(c);
  }

  /** Formatting keeps the cleaned value, hence the verdict, and is idempotent. */
  lemma {:induction false} FormatearCbuConserva(cbu: string)
    ensures LimpiarCbu(FormatearCbu(cbu)) == LimpiarCbu(cbu)
    ensures ValidarCbu(FormatearCbu(cbu)) == ValidarCbu(cbu)
    ensures FormatearCbu(FormatearCbu(cbu)) == FormatearCbu(cbu)
  {
    var c := LimpiarCbu(cbu);
    if |c| == 22 {
      LimpiarEsLimpio(cbu);
      FormatoCbuSeLimpia(c);
    }
  }

  // ---------------------------------------------------------------------------
  // Reference codes
  // ---------------------------------------------------------------------------

  datatype ResultadoReferencia =
    | ReferenciaValida
    | ReferenciaLongitudInvalida
    | ReferenciaFormatoInvalido

  /** `codigo.strip().upper()`. */
  function NormalizarReferencia(codigo: string): string {
    Upper(Strip(codigo))
  }

  /** The pattern `^[A-Z]{5}[0-9]{7}$`. */
  predicate PatronReferencia(c: string) {
    && |c| == 12
    && (forall i :: 0 <= i < 5 ==> IsUpperLetter(c[i]))
    && (forall i :: 5 <= i < 12 ==> IsDigit(c[i]))
  }

  /** `validar_referencia`: the normalized code must be 12 characters, then match the pattern. */
  function ValidarReferencia(codigo: string): (r: ResultadoReferencia)
    ensures r == ReferenciaValida <==> PatronReferencia(NormalizarReferencia(codigo))
    ensures r == ReferenciaLongitudInvalida <==> |NormalizarReferencia(codigo)| != 12
  {
    var c := NormalizarReferencia(codigo);
    if |c| != 12 then ReferenciaLongitudInvalida
    else if !PatronReferencia(c) then ReferenciaFormatoInvalido
    else ReferenciaValida
  }

  // ---------------------------------------------------------------------------
  // Digit filter
  // ---------------------------------------------------------------------------

  /** `limpiar_numero`: the digit characters of the input, in their original order. */
  function LimpiarNumero(s: string): (r: string)
    ensures AllDigits(r) && |r| <= |s|
    ensures forall x :: x in r <==> x in s && IsDigit(x)
  {
    if s == [] then [] else (if IsDigit(s[0]) then [s[0]] else []) + LimpiarNumero(s[1..])
  }

  /** Filtering distributes over concatenation, so the order of the digits is kept. */
  lemma {:induction false} LimpiarNumeroConcat(a: string, b: string)
    ensures LimpiarNumero(a + b) == LimpiarNumero(a) + LimpiarNumero(b)
  {
    if a == [] {
      assert a + b == b;
    } else {
      assert (a + b)[0] == a[0] && (a + b)[1..] == a[1..] + b;
      LimpiarNumeroConcat(a[1..], b);
    }
  }

  /** A string of digits is left as it is. */
  lemma {:induction false} LimpiarNumeroDigitos(s: string)
    requires AllDigits(s)
    ensures LimpiarNumero(s) == s
  {
    if s != [] {
      LimpiarNumeroDigitos(s[1..]);
      assert s == [s[0]] + s[1..];
    }
  }

  /** Filtering is idempotent. */
  lemma {:induction false} LimpiarNumeroIdempotente(s: string)
    ensures LimpiarNumero(LimpiarNumero(s)) == LimpiarNumero(s)
  {
    LimpiarNumeroDigitos(LimpiarNumero(s));
  }

  // ---------------------------------------------------------------------------
  // The sample values in the source's own docstrings and self-test
  // ---------------------------------------------------------------------------

  /** A CUIT written as `XX-XXXXXXXX-X` cleans to its eleven digits. */
  lemma {:induction false} CuitConGuionesSeLimpia(s: string, c: string)
    requires |c| == 11 && AllDigits(c)
    requires s == c[..2] + "-" + c[2..10] + "-" + [c[10]]
    ensures LimpiarCuit(s) == c
  {
    DigitosLimpios(c);
    FormatoCuitSeLimpia(c);
  }

  /**
   * "20-12345678-9", used by the module's own test list and by the agenda
   * self-test as a well-formed CUIT, has weighted sum 148, so its check digit
   * must be 6 and the value is rejected, while "20-12345678-6" is accepted.
   */
  lemma {:induction false} MuestraCuit20(s: string, s': string)
    requires s == "20-12345678-9" && s' == "20-12345678-6"
    ensures ValidarCuit(s) == CuitVerificadorInvalido(6)
    ensures ValidarCuit(s') == CuitValido
  {
    Muestra20ConVerificador(s, "20123456789", '9');
    Muestra20ConVerificador(s', "20123456786", '6');
  }

  /** Whatever its last digit `k`, "20-12345678-k" is valid exactly when `k` is 6. */
  lemma {:induction false} Muestra20ConVerificador(s: string, c: string, k: char)
    requires IsDigit(k) && s == "20-12345678-" + [k] && c == "2012345678" + [k]
    ensures LimpiarCuit(s) == c
    ensures VeredictoCuit(c) == if k == '6' then CuitValido else CuitVerificadorInvalido(6)
  {
    assert |c| == 11 && AllDigits(c) && c[..2] == "20" && c[2..10] == "12345678" && c[..10] == "2012345678";
    assert LimpiarCuit(s) == c by {
      CuitConGuionesSeLimpia(s, c);
    }
    assert DigitoVerificadorCuit(c) == 6 by {
      SumaMuestra20(c[..10]);
    }
  }

  lemma {:induction false} SumaMuestra20(ds: string)
    requires ds == "2012345678"
    ensures SumaPonderada(ds, PesosCuit) == 148
  {
    assert SumaDesde(ds, PesosCuit, 8) == 37;
    assert SumaDesde(ds, PesosCuit, 6) == 86;
    assert SumaDesde(ds, PesosCuit, 4) == 131;
    assert SumaDesde(ds, PesosCuit, 2) == 138;
  }

  /** "27-98765432-1", listed beside it as another valid type, has weighted sum 220, so its check digit must be 0. */
  lemma {:induction false} MuestraCuit27(s: string)
    requires s == "27-98765432-1"
    ensures ValidarCuit(s) == CuitVerificadorInvalido(0)
  {
    Muestra27Limpia(s, "27987654321");
    Muestra27Veredicto("27987654321");
  }

  lemma {:induction false} Muestra27Limpia(s: string, c: string)
    requires s == "27-98765432-1" && c == "27987654321"
    ensures LimpiarCuit(s) == c
  {
    assert c[..2] == "27" && c[2..10] == "98765432" && [c[10]] == "1";
    assert AllDigits(c);
    CuitConGuionesSeLimpia(s, c);
  }

  lemma {:induction false} Muestra27Veredicto(c: string)
    requires c == "27987654321"
    ensures VeredictoCuit(c) == CuitVerificadorInvalido(0)
  {
    assert AllDigits(c) && c[..2] == "27";
    SumaMuestra27(c[..10]);
    assert c[10] == '1';
  }

  lemma {:induction false} SumaMuestra27(ds: string)
    requires ds == "2798765432"
    ensures SumaPonderada(ds, PesosCuit) == 220
  {
    assert SumaDesde(ds, PesosCuit, 8) == 13;
    assert SumaDesde(ds, PesosCuit, 6) == 54;
    assert SumaDesde(ds, PesosCuit, 4) == 139;
    assert SumaDesde(ds, PesosCuit, 2) == 182;
  }

  /**
   * "0170099520000003912345", listed in the module's own test list as a valid
   * CBU, has first-block weighted sum 58, so its digit at position 7 must be 2
   * where it holds 5: the value is rejected at block 1.
   */
  lemma {:induction false} MuestraCbu(s: string)
    requires s == "0170099520000003912345"
    ensures ValidarCbu(s) == CbuBloque1Invalido(2)
  {
    MuestraCbuLimpia(s);
    MuestraCbuVeredicto(s);
  }

  lemma {:induction false} MuestraCbuLimpia(s: string)
    requires s == "0170099520000003912345"
    ensures LimpiarCbu(s) == s
  {
    assert AllDigits(s);
    DigitosLimpios(s);
    LimpioFijo(s);
  }

  lemma {:induction false} MuestraCbuVeredicto(c: string)
    requires c == "0170099520000003912345"
    ensures VeredictoCbu(c) == CbuBloque1Invalido(2)
  {
    assert AllDigits(c);
    SumaMuestraCbu(c[..7]);
    assert c[7] == '5';
  }

  lemma {:induction false} SumaMuestraCbu(ds: string)
    requires ds == "0170099"
    ensures SumaPonderada(ds, PesosCbuBloque1) == 58
  {
    assert SumaDesde(ds, PesosCbuBloque1, 5) == 36;
    assert SumaDesde(ds, PesosCbuBloque1, 2) == 57;
  }

  /**
   * The codes the module's own test list and docstrings call valid,
   * "LABSEM0118" (ten characters) and "LABSEM0000118" (thirteen: six
   * letters), are both rejected for their length.
   */
  lemma {:induction false} MuestraReferencia(r: string, r': string)
    requires r == "LABSEM0118" && r' == "LABSEM0000118"
    ensures ValidarReferencia(r) == ReferenciaLongitudInvalida
    ensures ValidarReferencia(r') == ReferenciaLongitudInvalida
  {
    StripNoop(r);
    StripNoop(r');
  }

  /** A five-letter code in lower case and with surrounding blanks is accepted. */
  lemma {:induction false} MuestraReferenciaNormalizada(s: string, u: string)
    requires s == " " + "labse0000118" + " " && u == "LABSE0000118"
    ensures NormalizarReferencia(s) == u && PatronReferencia(u)
  {
    StripEntreBlancos("labse0000118");
    MayusculasMuestra("labse0000118", u);
    PatronMuestra(u);
  }

  lemma {:induction false} MayusculasMuestra(t: string, u: string)
    requires t == "labse0000118" && u == "LABSE0000118"
    ensures Upper(t) == u
  {
    forall i | 0 <= i < 12 ensures Upper(t)[i] == u[i] {
      assert Upper(t)[i] == UpperChar(t[i]);
      if i == 0 {} else if i == 1 {} else if i == 2 {} else if i == 3 {} else if i == 4 {}
      else { assert t[i] == u[i] && IsDigit(t[i]); }
    }
  }

  lemma {:induction false} PatronMuestra(u: string)
    requires u == "LABSE0000118"
    ensures PatronReferencia(u)
  {
    forall i | 0 <= i < 5 ensures IsUpperLetter(u[i]) {
      if i == 0 {} else if i == 1 {} else if i == 2 {} else if i == 3 {} else {}
    }
    forall i | 5 <= i < 12 ensures IsDigit(u[i]) {
      if i == 5 {} else if i == 6 {} else if i == 7 {} else if i == 8 {} else if i == 9 {} else if i == 10 {} else {}
    }
  }
}
