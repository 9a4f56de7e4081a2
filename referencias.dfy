/**
 * `Referencia`: the codes (five letters and seven digits) that name payment
 * batches. A code is normalised and validated when created, must be new,
 * and never changes afterwards; the next code for a prefix is the greatest
 * stored code with that prefix plus one.
 */
module Referencias {

  import opened Wrappers
  import opened Strings
  import opened Tablas
  import opened Esquema
  import opened Validators

  datatype ErrorReferencia =
    | CodigoInvalido(motivo: ResultadoReferencia)
    | CodigoDuplicado
    | PrefijoInvalido
    | SufijoNoNumerico
    | SinId
    | ConPlanillas

  // ---------------------------------------------------------------------------
  // crear / existe
  // ---------------------------------------------------------------------------

  function MismoCodigo(codigo: string): Fila<ReferenciaDatos> -> bool {
    (f: Fila<ReferenciaDatos>) => f.datos.codigo == codigo
  }

  /** `Referencia.existe`: a stored code equal to the upper-cased argument (not stripped). */
  function Existe(filas: seq<Fila<ReferenciaDatos>>, codigo: string): (b: bool)
    ensures b <==> exists i :: 0 <= i < |filas| && filas[i].datos.codigo == Upper(codigo)
  {
    Hay(filas, MismoCodigo(Upper(codigo)))
  }

  /** No two references share a code. */
  predicate CodigosUnicos(filas: seq<Fila<ReferenciaDatos>>) {
    forall i, j :: 0 <= i < j < |filas| ==> filas[i].datos.codigo != filas[j].datos.codigo
  }

  /** Every stored code has the five-letters-seven-digits form. */
  predicate CodigosValidos(filas: seq<Fila<ReferenciaDatos>>) {
    forall i :: 0 <= i < |filas| ==> PatronReferencia(filas[i].datos.codigo)
  }

  /**
   * The checks of `Referencia.crear` once the code has been upper-cased and
   * stripped: it must pass `validar_referencia`, then must not be stored yet.
   */
  function AltaReferencia(filas: seq<Fila<ReferenciaDatos>>, c: string, descripcion: string)
    : Result<ReferenciaDatos, ErrorReferencia>
  {
    var v := ValidarReferencia(c);
    if v != ReferenciaValida then Err(CodigoInvalido(v))
    else if Existe(filas, c) then Err(CodigoDuplicado)
    else Ok(ReferenciaDatos(c, descripcion, true))
  }

  /** The row `Referencia.crear` inserts, or the first check it fails. */
  function NuevaReferencia(filas: seq<Fila<ReferenciaDatos>>, codigo: string, descripcion: string)
    : Result<ReferenciaDatos, ErrorReferencia>
  {
    AltaReferencia(filas, Strip(Upper(codigo)), descripcion)
  }

  /**
   * On a code already upper-cased and stripped: which check fails, and what a new
   * reference holds. Its code has the pattern, so a table built this way
   * keeps unique, valid codes.
   */
  lemma {:induction false} AltaReferenciaCorrecta(filas: seq<Fila<ReferenciaDatos>>, c: string, descripcion: string, id: nat)
    requires Upper(c) == c && Strip(c) == c
    ensures var r := AltaReferencia(filas, c, descripcion);
      && (r.Err? && r.error.CodigoInvalido? <==> !PatronReferencia(c))
      && (r == Err(CodigoDuplicado) <==> PatronReferencia(c) && exists i :: 0 <= i < |filas| && filas[i].datos.codigo == c)
      && (r.Ok? ==> r.value == ReferenciaDatos(c, descripcion, true))
      && (r.Ok? && CodigosUnicos(filas) ==> CodigosUnicos(filas + [Fila(id, r.value)]))
      && (r.Ok? && CodigosValidos(filas) ==> CodigosValidos(filas + [Fila(id, r.value)]))
  {
  }

  /**
   * The checks of `crear`, in order: the code, upper-cased and stripped,
   * must pass `validar_referencia`, then must not be stored yet; a new
   * reference holds that code, the description, and is active. Its code has
   * the pattern, so a table built by `crear` keeps unique, valid codes.
   */
  lemma {:induction false} NuevaReferenciaCorrecta(filas: seq<Fila<ReferenciaDatos>>, codigo: string, descripcion: string, id: nat)
    ensures var c := Strip(Upper(codigo));
      var r := NuevaReferencia(filas, codigo, descripcion);
      && (r.Err? && r.error.CodigoInvalido? <==> !PatronReferencia(c))
      && (r == Err(CodigoDuplicado) <==> PatronReferencia(c) && exists i :: 0 <= i < |filas| && filas[i].datos.codigo == c)
      && (r.Ok? ==> r.value == ReferenciaDatos(c, descripcion, true))
      && (r.Ok? && CodigosUnicos(filas) ==> CodigosUnicos(filas + [Fila(id, r.value)]))
      && (r.Ok? && CodigosValidos(filas) ==> CodigosValidos(filas + [Fila(id, r.value)]))
  {
    var c := Strip(Upper(codigo));
    NormalizadoFijo(codigo);
    AltaReferenciaCorrecta(filas, c, descripcion, id);
    assert NuevaReferencia(filas, codigo, descripcion) == AltaReferencia(filas, c, descripcion);
  }

  // ---------------------------------------------------------------------------
  // generar_siguiente_codigo
  // ---------------------------------------------------------------------------

  /** `codigo LIKE 'prefijo%'`: SQLite's LIKE ignores the case of ASCII letters. */
  predicate CoincidePrefijo(prefijo: string, codigo: string) {
    |prefijo| <= |codigo| && forall i :: 0 <= i < |prefijo| ==> LowerChar(codigo[i]) == LowerChar(prefijo[i])
  }

  /** `SELECT codigo ... WHERE codigo LIKE ? ORDER BY codigo DESC LIMIT 1`. */
  function MayorCodigo(filas: seq<Fila<ReferenciaDatos>>, prefijo: string): Option<string> {
    if filas == [] then None
    else
      var resto := MayorCodigo(filas[1..], prefijo);
      var c := filas[0].datos.codigo;
      if !CoincidePrefijo(prefijo, c) then resto
      else if resto.Some? && TextLess(c, resto.value) then resto
      else Some(c)
  }

  /** The query finds a code exactly when one matches, and then the greatest of them in text order. */
  lemma {:induction false} MayorCodigoCorrecto(filas: seq<Fila<ReferenciaDatos>>, prefijo: string)
    ensures MayorCodigo(filas, prefijo).Some? <==> exists i :: 0 <= i < |filas| && CoincidePrefijo(prefijo, filas[i].datos.codigo)
    ensures MayorCodigo(filas, prefijo).Some? ==>
      && (exists i :: 0 <= i < |filas| && filas[i].datos.codigo == MayorCodigo(filas, prefijo).value)
      && CoincidePrefijo(prefijo, MayorCodigo(filas, prefijo).value)
      && forall i :: 0 <= i < |filas| && CoincidePrefijo(prefijo, filas[i].datos.codigo) ==>
           !TextLess(MayorCodigo(filas, prefijo).value, filas[i].datos.codigo)
  {
    if filas != [] {
      var t := filas[1..];
      MayorCodigoCorrecto(t, prefijo);
      var resto := MayorCodigo(t, prefijo);
      var c := filas[0].datos.codigo;
      var m := MayorCodigo(filas, prefijo);
      if resto.Some? {
        var j :| 0 <= j < |t| && t[j].datos.codigo == resto.value;
        assert filas[j + 1].datos.codigo == resto.value;
      }
      if m.Some? {
        forall i | 0 <= i < |filas| && CoincidePrefijo(prefijo, filas[i].datos.codigo)
          ensures !TextLess(m.value, filas[i].datos.codigo)
        {
          var x := filas[i].datos.codigo;
          if i > 0 {
            assert x == t[i - 1].datos.codigo;
            if m.value == c && resto.Some? {
              TextLessTotal(c, resto.value);
              if TextLess(c, x) {
                TextLessTransitive(resto.value, c, x);
              }
            }
          } else {
            TextLessIrreflexive(c);
            if resto.Some? && m.value == resto.value {
              TextLessAsymmetric(c, resto.value);
            }
          }
        }
      }
      if !(exists i :: 0 <= i < |t| && CoincidePrefijo(prefijo, t[i].datos.codigo)) && !CoincidePrefijo(prefijo, c) {
        forall i | 0 <= i < |filas| ensures !CoincidePrefijo(prefijo, filas[i].datos.codigo) {
          if i > 0 {
            assert filas[i] == t[i - 1];
          }
        }
      }
    }
  }

  /** The number after the greatest stored code with the prefix, or 1 when there is none. */
  function SiguienteNumero(filas: seq<Fila<ReferenciaDatos>>, prefijo: string): Result<nat, ErrorReferencia> {
    var m := MayorCodigo(filas, prefijo);
    if m.None? then Ok(1)
    else if |m.value| < 5 then Err(SufijoNoNumerico)
    else
      var sufijo := m.value[5..];
      if sufijo == [] || !AllDigits(sufijo) then Err(SufijoNoNumerico)
      else Ok(DigitsValue(sufijo) + 1)
  }

  /** The code that follows the stored ones for a prefix that is already upper-cased and stripped. */
  function CodigoPara(filas: seq<Fila<ReferenciaDatos>>, p: string): Result<string, ErrorReferencia> {
    if |p| != 5 || !AllAlpha(p) then Err(PrefijoInvalido)
    else
      match SiguienteNumero(filas, p)
      case Err(e) => Err(e)
      case Ok(n) => Ok(p + ZeroPad(n, 7))
  }

  /**
   * `Referencia.generar_siguiente_codigo`: the prefix, upper-cased and
   * stripped, must be five letters; the result is the prefix and the next
   * number, zero-padded to seven digits.
   */
  function GenerarSiguienteCodigo(filas: seq<Fila<ReferenciaDatos>>, prefijo: string): Result<string, ErrorReferencia> {
    CodigoPara(filas, Strip(Upper(prefijo)))
  }

  /** Five capital letters and a number below ten million padded to seven digits make a valid code. */
  lemma {:induction false} CodigoCompuesto(p: string, n: nat)
    requires |p| == 5 && forall i :: 0 <= i < 5 ==> IsUpperLetter(p[i])
    requires n < Pow10(7)
    ensures var c := p + ZeroPad(n, 7);
      && |c| == 12 && c[..5] == p && c[5..] == ZeroPad(n, 7)
      && AllDigits(c[5..]) && DigitsValue(c[5..]) == n
      && PatronReferencia(c) && ValidarReferencia(c) == ReferenciaValida
  {
    ZeroPadSiete(n);
    var z := ZeroPad(n, 7);
    assert (p + z)[..5] == p && (p + z)[5..] == z;
    CodigoDePartes(p, z);
  }

  /** Five capital letters followed by seven digits are a valid code as they stand. */
  lemma {:induction false} CodigoDePartes(p: string, z: string)
    requires |p| == 5 && forall i :: 0 <= i < 5 ==> IsUpperLetter(p[i])
    requires |z| == 7 && AllDigits(z)
    ensures PatronReferencia(p + z) && ValidarReferencia(p + z) == ReferenciaValida
  {
    var c := p + z;
    forall i | 0 <= i < 12 ensures if i < 5 then IsUpperLetter(c[i]) else IsDigit(c[i]) {
      if i < 5 {
        assert c[i] == p[i];
      } else {
        assert c[i] == z[i - 5];
      }
    }
    StripNoop(c);
    UpperSinMinusculas(c);
  }

  /** A stored code with the prefix, followed by its number plus one, is greater than that code. */
  lemma {:induction false} SiguienteSuperaMayor(p: string, m: string, x: string)
    requires |p| == 5 && forall i :: 0 <= i < 5 ==> IsUpperLetter(p[i])
    requires PatronReferencia(m) && CoincidePrefijo(p, m)
    requires |x| == 12 && x[..5] == p && AllDigits(x[5..])
    requires AllDigits(m[5..]) && DigitsValue(x[5..]) == DigitsValue(m[5..]) + 1
    ensures TextLess(m, x)
  {
    assert m[..5] == p by {
      forall k | 0 <= k < 5 ensures m[k] == p[k] {
        assert LowerChar(m[k]) == LowerChar(p[k]);
      }
    }
    assert m == p + m[5..] && x == p + x[5..];
    TextLessPrefijo(p, m[5..], x[5..]);
    TextLessPrefijo(p, x[5..], m[5..]);
    TextLessTotal(m[5..], x[5..]);
    TextLessDigits(x[5..], m[5..]);
  }

  /** A code that carries the next number for its prefix is not in the table. */
  lemma {:induction false} SiguienteNoEsta(filas: seq<Fila<ReferenciaDatos>>, p: string, z: string)
    requires CodigosValidos(filas)
    requires |p| == 5 && forall i :: 0 <= i < 5 ==> IsUpperLetter(p[i])
    requires |z| == 7 && AllDigits(z)
    requires SiguienteNumero(filas, p) == Ok(DigitsValue(z))
    ensures forall i :: 0 <= i < |filas| ==> filas[i].datos.codigo != p + z
  {
    var x := p + z;
    assert x[..5] == p && x[5..] == z;
    MayorCodigoCorrecto(filas, p);
    var m := MayorCodigo(filas, p);
    forall i | 0 <= i < |filas| ensures filas[i].datos.codigo != x {
      if filas[i].datos.codigo == x {
        assert CoincidePrefijo(p, x) by {
          forall k | 0 <= k < 5 ensures x[k] == p[k] {
            assert x[..5][k] == x[k];
          }
        }
        var j :| 0 <= j < |filas| && filas[j].datos.codigo == m.value;
        var c := m.value;
        assert PatronReferencia(c);
        assert AllDigits(c[5..]) by {
          forall k | 0 <= k < |c[5..]| ensures IsDigit(c[5..][k]) {
            assert c[5..][k] == c[k + 5];
          }
        }
        SiguienteSuperaMayor(p, c, x);
      }
    }
  }

  /** How `CodigoPara` decides: a bad prefix, an unreadable stored suffix, or the prefix and the padded number. */
  lemma {:induction false} CodigoParaForma(filas: seq<Fila<ReferenciaDatos>>, p: string)
    ensures var r := CodigoPara(filas, p);
      && (r == Err(PrefijoInvalido) <==> |p| != 5 || !AllAlpha(p))
      && (r.Ok? <==> |p| == 5 && AllAlpha(p) && SiguienteNumero(filas, p).Ok?)
      && (r.Ok? ==> r.value == p + ZeroPad(SiguienteNumero(filas, p).value, 7))
  {
  }

  /** Letters that are not lower-case are capitals. */
  lemma {:induction false} LetrasMayusculas(p: string)
    requires AllAlpha(p)
    requires forall i :: 0 <= i < |p| ==> !IsLowerLetter(p[i])
    ensures forall i :: 0 <= i < |p| ==> IsUpperLetter(p[i])
  {
  }

  /**
   * For a normalised prefix: it is refused exactly when it is not five
   * letters; otherwise, while the next number is below ten million, the
   * code is the prefix and that number in seven digits, and it passes
   * `validar_referencia`.
   */
  lemma {:induction false} CodigoParaCorrecto(filas: seq<Fila<ReferenciaDatos>>, p: string)
    requires forall i :: 0 <= i < |p| ==> !IsLowerLetter(p[i])
    ensures CodigoPara(filas, p) == Err(PrefijoInvalido) <==> |p| != 5 || !AllAlpha(p)
    ensures CodigoPara(filas, p).Ok? ==> |p| == 5 && forall i :: 0 <= i < 5 ==> IsUpperLetter(p[i])
    ensures var r := CodigoPara(filas, p);
      r.Ok? && SiguienteNumero(filas, p).value < Pow10(7) ==>
        && |r.value| == 12 && r.value[..5] == p
        && AllDigits(r.value[5..]) && DigitsValue(r.value[5..]) == SiguienteNumero(filas, p).value
        && PatronReferencia(r.value) && ValidarReferencia(r.value) == ReferenciaValida
  {
    CodigoParaForma(filas, p);
    var r := CodigoPara(filas, p);
    if r.Ok? {
      LetrasMayusculas(p);
      if SiguienteNumero(filas, p).value < Pow10(7) {
        CodigoCompuesto(p, SiguienteNumero(filas, p).value);
      }
    }
  }

  /** In a table of valid codes, the code generated for a normalised prefix is not stored yet. */
  lemma {:induction false} CodigoParaNuevo(filas: seq<Fila<ReferenciaDatos>>, p: string)
    requires forall i :: 0 <= i < |p| ==> !IsLowerLetter(p[i])
    requires CodigosValidos(filas)
    ensures var r := CodigoPara(filas, p);
      r.Ok? && SiguienteNumero(filas, p).value < Pow10(7) ==>
        forall i :: 0 <= i < |filas| ==> filas[i].datos.codigo != r.value
  {
    CodigoParaForma(filas, p);
    var r := CodigoPara(filas, p);
    if r.Ok? && SiguienteNumero(filas, p).value < Pow10(7) {
      LetrasMayusculas(p);
      var n := SiguienteNumero(filas, p).value;
      ZeroPadSiete(n);
      SiguienteNoEsta(filas, p, ZeroPad(n, 7));
    }
  }

  /**
   * `generar_siguiente_codigo` for any prefix: the prefix is normalised
   * first, then the rules of `CodigoPara` apply; so the generated code
   * (while its number is below ten million) is valid and new.
   */
  lemma {:induction false} GenerarSiguienteCodigoCorrecto(filas: seq<Fila<ReferenciaDatos>>, prefijo: string)
    ensures var p := Strip(Upper(prefijo));
      GenerarSiguienteCodigo(filas, prefijo) == Err(PrefijoInvalido) <==> |p| != 5 || !AllAlpha(p)
    ensures var p := Strip(Upper(prefijo));
      var r := GenerarSiguienteCodigo(filas, prefijo);
      r.Ok? && SiguienteNumero(filas, p).Ok? && SiguienteNumero(filas, p).value < Pow10(7) ==>
        && |r.value| == 12 && r.value[..5] == p
        && AllDigits(r.value[5..]) && DigitsValue(r.value[5..]) == SiguienteNumero(filas, p).value
        && ValidarReferencia(r.value) == ReferenciaValida
        && (CodigosValidos(filas) ==> forall i :: 0 <= i < |filas| ==> filas[i].datos.codigo != r.value)
  {
    var p := Strip(Upper(prefijo));
    NormalizadoSinMinusculas(prefijo);
    CodigoParaCorrecto(filas, p);
    if CodigosValidos(filas) {
      CodigoParaNuevo(filas, p);
    }
    assert GenerarSiguienteCodigo(filas, prefijo) == CodigoPara(filas, p);
  }

  // ---------------------------------------------------------------------------
  // Worked examples of `generar_siguiente_codigo`. The lemmas about literals
  // here (TextosLiterales, TextoDe, CerosLiterales, JuntasLiterales,
  // LabseLetras, PartesDe118, PartesDe119) exist only to support PrimerCodigo
  // and CodigoSiguienteA118: each keeps one computation on literal strings
  // in a proof of its own.
  // ---------------------------------------------------------------------------

  /** Padding 1 to seven digits. */
  lemma RellenoDeUno()
    ensures ZeroPad(1, 7) == "0000001"
  {
    assert NatToString(1) == "1";
    CerosLiterales();
    JuntasLiterales();
  }

  /** Padding 119 to seven digits. */
  lemma RellenoDe119()
    ensures ZeroPad(119, 7) == "0000119"
  {
    TextosLiterales();
    CerosLiterales();
    JuntasLiterales();
  }

  /** The suffix of the documented code reads as 118. */
  lemma ValorDe118()
    ensures AllDigits("0000118") && DigitsValue("0000118") == 118
  {
    TextosLiterales();
    CerosLiterales();
    JuntasLiterales();
    DigitsValueLeadingZeros(4, NatToString(118));
  }

  /** Decimal text of the two numbers in the example (literal support only). */
  lemma TextosLiterales()
    ensures NatToString(118) == "118" && NatToString(119) == "119"
  {
    TextoDe(118, "11", '8');
    TextoDe(119, "11", '9');
  }

  /** Decimal text of a number from 110 to 119 (literal support only). */
  lemma {:induction false} TextoDe(n: nat, cabeza: string, ultimo: char)
    requires 110 <= n < 120 && cabeza == "11" && ultimo == DigitChar(n % 10)
    ensures NatToString(n) == cabeza + [ultimo]
  {
    assert NatToString(n / 10) == cabeza by {
      assert NatToString(1) == "1";
    }
  }

  /** The zero runs the padding uses in the examples (literal support only). */
  lemma CerosLiterales()
    ensures Zeros(4) == "0000" && Zeros(6) == "000000"
  {
  }

  /** Concatenations of literals in the examples (literal support only). */
  lemma JuntasLiterales()
    ensures "0000" + "118" == "0000118" && "0000" + "119" == "0000119" && "000000" + "1" == "0000001"
  {
  }

  /** The example prefix is already normalised. */
  lemma LabseNormalizado()
    ensures Strip(Upper("LABSE")) == "LABSE"
  {
    YaNormalizado("LABSE");
  }

  /** With no code for the prefix the numbering starts at one. */
  lemma {:induction false} PrimerCodigo(filas: seq<Fila<ReferenciaDatos>>)
    requires forall i :: 0 <= i < |filas| ==> !CoincidePrefijo("LABSE", filas[i].datos.codigo)
    ensures GenerarSiguienteCodigo(filas, "LABSE") == Ok("LABSE0000001")
  {
    var p := "LABSE";
    LabseNormalizado();
    CodigoParaForma(filas, p);
    MayorCodigoCorrecto(filas, p);
    assert SiguienteNumero(filas, p) == Ok(1);
    RellenoDeUno();
    assert CodigoPara(filas, p) == Ok(p + "0000001");
    assert p + "0000001" == "LABSE0000001";
  }

  /** The documented example: after `...0000118` comes `...0000119`. */
  lemma {:induction false} CodigoSiguienteA118(filas: seq<Fila<ReferenciaDatos>>)
    requires filas == [Fila(1, ReferenciaDatos("LABSE0000118", "", true))]
    ensures GenerarSiguienteCodigo(filas, "LABSE") == Ok("LABSE0000119")
  {
    var p := "LABSE";
    LabseNormalizado();
    assert SiguienteNumero(filas, p) == Ok(119) by {
      var c := "LABSE0000118";
      assert CoincidePrefijo(p, c);
      assert MayorCodigo(filas, p) == Some(c);
      PartesDe118();
    }
    assert CodigoPara(filas, p) == Ok("LABSE0000119") by {
      LabseLetras();
      CodigoParaNumero(filas, p, 119);
      RellenoDe119();
      PartesDe119();
    }
  }

  /** The example prefix is five letters (literal support only). */
  lemma LabseLetras()
    ensures |"LABSE"| == 5 && AllAlpha("LABSE")
  {
    var p := "LABSE";
    forall i | 0 <= i < 5 ensures IsAlpha(p[i]) {
      if i == 0 {} else if i == 1 {} else if i == 2 {} else if i == 3 {} else {}
    }
  }

  /** A five-letter prefix whose next number is `n` gets the prefix followed by `n` padded to seven digits. */
  lemma {:induction false} CodigoParaNumero(filas: seq<Fila<ReferenciaDatos>>, p: string, n: nat)
    requires |p| == 5 && AllAlpha(p) && SiguienteNumero(filas, p) == Ok(n)
    ensures CodigoPara(filas, p) == Ok(p + ZeroPad(n, 7))
  {
  }

  /** The documented code splits into its prefix and the number 118 (literal support only). */
  lemma PartesDe118()
    ensures "LABSE0000118"[5..] == "0000118" && AllDigits("0000118") && DigitsValue("0000118") == 118
  {
    ValorDe118();
  }

  /** The expected next code is the prefix followed by the padded 119 (literal support only). */
  lemma PartesDe119()
    ensures "LABSE" + "0000119" == "LABSE0000119"
  {
  }

  /** The documented prefix "LABSEM" has six letters and is refused. */
  lemma PrefijoDeSeisLetras()
    ensures GenerarSiguienteCodigo([], "LABSEM") == Err(PrefijoInvalido)
  {
    YaNormalizado("LABSEM");
  }

  // ---------------------------------------------------------------------------
  // Instance methods
  // ---------------------------------------------------------------------------

  /** `actualizar` writes only the description and the active flag; the code is never written. */
  function Volcar(d: ReferenciaDatos): ReferenciaDatos -> ReferenciaDatos {
    (x: ReferenciaDatos) => x.(descripcion := d.descripcion, activa := d.activa)
  }

  /** Writing a reference back never changes a stored code, so unique and valid codes stay so. */
  lemma {:induction false} VolcarConservaCodigos(filas: seq<Fila<ReferenciaDatos>>, id: nat, d: ReferenciaDatos)
    ensures var r := Modificadas(filas, id, Volcar(d));
      forall i :: 0 <= i < |filas| ==> r[i].datos.codigo == filas[i].datos.codigo
    ensures CodigosUnicos(filas) ==> CodigosUnicos(Modificadas(filas, id, Volcar(d)))
    ensures CodigosValidos(filas) ==> CodigosValidos(Modificadas(filas, id, Volcar(d)))
  {
  }

  /** Turning a reference on or off, from an object that matches its row, changes only the flag of that row. */
  lemma {:induction false} CambioDeActivaSoloActiva(fila: ReferenciaDatos, d: ReferenciaDatos, activa: bool)
    requires d.descripcion == fila.descripcion
    ensures Volcar(d.(activa := activa))(fila) == fila.(activa := activa)
  {
  }

  /** `SELECT COUNT(*) FROM planillas WHERE referencia_id = ?`, which matches nothing for a missing key. */
  function DeReferencia(id: nat): Fila<PlanillaDatos> -> bool {
    (f: Fila<PlanillaDatos>) => id != 0 && f.datos.referenciaId == id
  }

  function ConId(id: nat): Fila<ReferenciaDatos> -> bool {
    (f: Fila<ReferenciaDatos>) => f.id == id
  }

  /** Deleting by key leaves no row with that key and every other row in place. */
  lemma {:induction false} EliminarPorClave(filas: seq<Fila<ReferenciaDatos>>, id: nat, otro: nat)
    ensures Buscar(Sin(filas, ConId(id)), id).None?
    ensures otro != id ==> (Buscar(Sin(filas, ConId(id)), otro).Some? <==> Buscar(filas, otro).Some?)
  {
    var r := Sin(filas, ConId(id));
    SinCompleto(filas, ConId(id));
    forall i | 0 <= i < |r| ensures r[i].id != id {
      assert r[i] in r;
    }
    if Buscar(r, otro).Some? {
      var i :| 0 <= i < |r| && r[i].id == otro;
      assert r[i] in r;
    }
    if otro != id && Buscar(filas, otro).Some? {
      var i :| 0 <= i < |filas| && filas[i].id == otro;
      assert filas[i] in filas;
      assert filas[i] in r;
    }
  }

  class Referencia {
    var id: nat
    var datos: ReferenciaDatos

    constructor (id: nat, datos: ReferenciaDatos)
      ensures this.id == id && this.datos == datos
    {
      this.id := id;
      this.datos := datos;
    }

    /** `Referencia.crear`. */
    static method Crear(tabla: Tabla<ReferenciaDatos>, codigo: string, descripcion: string)
      returns (r: Result<Referencia, ErrorReferencia>)
      requires tabla.Valida()
      modifies tabla
      ensures tabla.Valida()
      ensures match NuevaReferencia(old(tabla.filas), codigo, descripcion)
        case Err(e) => r == Err(e) && tabla.filas == old(tabla.filas) && tabla.ultimoId == old(tabla.ultimoId)
        case Ok(d) =>
          && r.Ok? && fresh(r.value) && r.value.datos == d && r.value.id == tabla.ultimoId == old(tabla.ultimoId) + 1
          && tabla.filas == old(tabla.filas) + [Fila(r.value.id, d)]
    {
      var nueva := NuevaReferencia(tabla.filas, codigo, descripcion);
      if nueva.Err? {
        return Err(nueva.error);
      }
      var id := tabla.Insertar(nueva.value);
      var ref := new Referencia(id, nueva.value);
      return Ok(ref);
    }

    /** `actualizar`: fails without a key, else writes description and flag to the row. */
    method Actualizar(tabla: Tabla<ReferenciaDatos>) returns (r: Result<(), ErrorReferencia>)
      requires tabla.Valida()
      modifies tabla
      ensures tabla.Valida() && tabla.ultimoId == old(tabla.ultimoId)
      ensures r.Err? <==> id == 0
      ensures r.Err? ==> r.error == SinId
      ensures tabla.filas == if id == 0 then old(tabla.filas) else Modificadas(old(tabla.filas), id, Volcar(datos))
    {
      if id == 0 {
        return Err(SinId);
      }
      tabla.Modificar(id, Volcar(datos));
      return Ok(());
    }

    /** `desactivar`: a soft delete; the object's flag is cleared even if writing it back fails. */
    method Desactivar(tabla: Tabla<ReferenciaDatos>) returns (r: Result<(), ErrorReferencia>)
      requires tabla.Valida()
      modifies this, tabla
      ensures tabla.Valida() && tabla.ultimoId == old(tabla.ultimoId) && id == old(id)
      ensures datos == old(datos).(activa := false)
      ensures r.Err? <==> id == 0
      ensures tabla.filas == if id == 0 then old(tabla.filas) else Modificadas(old(tabla.filas), id, Volcar(datos))
    {
      datos := datos.(activa := false);
      r := Actualizar(tabla);
    }

    /** `activar`. */
    method Activar(tabla: Tabla<ReferenciaDatos>) returns (r: Result<(), ErrorReferencia>)
      requires tabla.Valida()
      modifies this, tabla
      ensures tabla.Valida() && tabla.ultimoId == old(tabla.ultimoId) && id == old(id)
      ensures datos == old(datos).(activa := true)
      ensures r.Err? <==> id == 0
      ensures tabla.filas == if id == 0 then old(tabla.filas) else Modificadas(old(tabla.filas), id, Volcar(datos))
    {
      datos := datos.(activa := true);
      r := Actualizar(tabla);
    }

    /** `tiene_planillas`. */
    function TienePlanillas(planillas: Tabla<PlanillaDatos>): (b: bool)
      reads this, planillas
      ensures b <==> id != 0 && exists i :: 0 <= i < |planillas.filas| && planillas.filas[i].datos.referenciaId == id
    {
      Hay(planillas.filas, DeReferencia(id))
    }

    /**
     * `eliminar_permanentemente`: refused without a key or while a batch
     * refers to the reference; otherwise the row is deleted and the object
     * loses its key.
     */
    method EliminarPermanentemente(tabla: Tabla<ReferenciaDatos>, planillas: Tabla<PlanillaDatos>)
      returns (r: Result<(), ErrorReferencia>)
      requires tabla.Valida()
      modifies this, tabla
      ensures tabla.Valida() && tabla.ultimoId == old(tabla.ultimoId) && datos == old(datos)
      ensures old(id) == 0 ==> r == Err(SinId) && id == 0 && tabla.filas == old(tabla.filas)
      ensures old(id) != 0 && old(TienePlanillas(planillas)) ==>
        r == Err(ConPlanillas) && id == old(id) && tabla.filas == old(tabla.filas)
      ensures old(id) != 0 && !old(TienePlanillas(planillas)) ==>
        r == Ok(()) && id == 0 && tabla.filas == Sin(old(tabla.filas), ConId(old(id)))
    {
      if id == 0 {
        return Err(SinId);
      }
      if TienePlanillas(planillas) {
        return Err(ConPlanillas);
      }
      tabla.Eliminar(ConId(id));
      id := 0;
      return Ok(());
    }
  }
}
