/**
 * The payee address book: `agenda_cheques`, keyed by CUIT, and
 * `agenda_transferencias`, keyed by the (CUIT, CBU) pair. New contacts are
 * gated by the CUIT and CBU validators; removal is a soft delete.
 */
module Agenda {

  import opened Wrappers
  import opened Strings
  import opened Tablas
  import opened Esquema
  import opened Validators

  datatype ErrorContacto =
    | CuitInvalido(motivoCuit: ResultadoCuit)
    | CbuInvalido(motivoCbu: ResultadoCbu)
    | ContactoDuplicado
    | SinId

  /** `actualizar` writes every column of the row from the object. */
  function Sobrescribir<T>(d: T): T -> T {
    (x: T) => d
  }

  // ---------------------------------------------------------------------------
  // ContactoCheque
  // ---------------------------------------------------------------------------

  function ConCuit(cuit: string): Fila<ContactoChequeDatos> -> bool {
    (f: Fila<ContactoChequeDatos>) => f.datos.cuit == cuit
  }

  /** `ContactoCheque.existe`: a stored CUIT equal to the upper-cased argument, compared as text. */
  function ExisteCuit(filas: seq<Fila<ContactoChequeDatos>>, cuit: string): (b: bool)
    ensures b <==> exists i :: 0 <= i < |filas| && filas[i].datos.cuit == Upper(cuit)
  {
    Hay(filas, ConCuit(Upper(cuit)))
  }

  /** No two check contacts share a CUIT string. */
  predicate CuitsUnicos(filas: seq<Fila<ContactoChequeDatos>>) {
    forall i, j :: 0 <= i < j < |filas| ==> filas[i].datos.cuit != filas[j].datos.cuit
  }

  /**
   * The checks of `ContactoCheque.crear` once the CUIT has been upper-cased
   * and stripped: it must be valid, then must not be stored yet.
   */
  function AltaCheque(filas: seq<Fila<ContactoChequeDatos>>, nombre: string, c: string, notas: string)
    : Result<ContactoChequeDatos, ErrorContacto>
  {
    var v := ValidarCuit(c);
    if v != CuitValido then Err(CuitInvalido(v))
    else if ExisteCuit(filas, c) then Err(ContactoDuplicado)
    else Ok(ContactoChequeDatos(nombre, c, notas, true))
  }

  /** The row `ContactoCheque.crear` inserts, or the first check it fails. */
  function NuevoContactoCheque(filas: seq<Fila<ContactoChequeDatos>>, nombre: string, cuit: string, notas: string)
    : Result<ContactoChequeDatos, ErrorContacto>
  {
    AltaCheque(filas, nombre, Strip(Upper(cuit)), notas)
  }

  /** On a CUIT already in upper case: which check fails, and what an accepted contact holds. */
  lemma {:induction false} AltaChequeCorrecta(filas: seq<Fila<ContactoChequeDatos>>, nombre: string, c: string, notas: string)
    requires Upper(c) == c
    ensures var r := AltaCheque(filas, nombre, c, notas);
      && (r.Err? && r.error.CuitInvalido? <==> !CuitCanonicoValido(LimpiarCuit(c)))
      && (r == Err(ContactoDuplicado) <==>
            CuitCanonicoValido(LimpiarCuit(c)) && exists i :: 0 <= i < |filas| && filas[i].datos.cuit == c)
      && (r.Ok? <==> CuitCanonicoValido(LimpiarCuit(c)) && forall i :: 0 <= i < |filas| ==> filas[i].datos.cuit != c)
      && (r.Ok? ==> r.value == ContactoChequeDatos(nombre, c, notas, true))
  {
    ValidarCuitCorrecto(c);
  }

  /**
   * The checks of `ContactoCheque.crear`, in order: the CUIT, upper-cased
   * and stripped, must be valid, then must not be stored yet; the new
   * contact holds that CUIT and is active.
   */
  lemma {:induction false} NuevoContactoChequeCorrecto(filas: seq<Fila<ContactoChequeDatos>>, nombre: string, cuit: string, notas: string)
    ensures var c := Strip(Upper(cuit));
      var r := NuevoContactoCheque(filas, nombre, cuit, notas);
      && (r.Err? && r.error.CuitInvalido? <==> !CuitCanonicoValido(LimpiarCuit(c)))
      && (r == Err(ContactoDuplicado) <==>
            CuitCanonicoValido(LimpiarCuit(c)) && exists i :: 0 <= i < |filas| && filas[i].datos.cuit == c)
      && (r.Ok? <==> CuitCanonicoValido(LimpiarCuit(c)) && forall i :: 0 <= i < |filas| ==> filas[i].datos.cuit != c)
      && (r.Ok? ==> r.value == ContactoChequeDatos(nombre, c, notas, true))
  {
    var c := Strip(Upper(cuit));
    assert NuevoContactoCheque(filas, nombre, cuit, notas) == AltaCheque(filas, nombre, c, notas);
    assert Upper(c) == c by { NormalizadoEnMayusculas(cuit); }
    AltaChequeCorrecta(filas, nombre, c, notas);
  }


  /** Appending a contact whose CUIT is not stored keeps the stored CUITs unique. */
  lemma {:induction false} AltaConservaUnicidad(filas: seq<Fila<ContactoChequeDatos>>, id: nat, d: ContactoChequeDatos)
    requires CuitsUnicos(filas)
    requires forall i :: 0 <= i < |filas| ==> filas[i].datos.cuit != d.cuit
    ensures CuitsUnicos(filas + [Fila(id, d)])
  {
  }

  /** So a table filled only by `crear` never holds a CUIT twice. */
  lemma {:induction false} CrearConservaUnicidad(filas: seq<Fila<ContactoChequeDatos>>, nombre: string, cuit: string, notas: string, id: nat)
    requires CuitsUnicos(filas)
    requires NuevoContactoCheque(filas, nombre, cuit, notas).Ok?
    ensures CuitsUnicos(filas + [Fila(id, NuevoContactoCheque(filas, nombre, cuit, notas).value)])
  {
    NuevoContactoChequeCorrecto(filas, nombre, cuit, notas);
    AltaConservaUnicidad(filas, id, NuevoContactoCheque(filas, nombre, cuit, notas).value);
  }

  /** The `XX-XXXXXXXX-X` and the plain form of one CUIT get the same verdict. */
  lemma {:induction false} GuionesMismoVeredicto(s: string, c: string)
    requires |c| == 11 && AllDigits(c) && s == c[..2] + "-" + c[2..10] + "-" + [c[10]]
    ensures ValidarCuit(s) == ValidarCuit(c)
  {
    CuitConGuionesSeLimpia(s, c);
    DigitosLimpios(c);
    LimpioFijo(c);
  }

  /** The `XX-XXXXXXXX-X` form holds only digits and hyphens. */
  lemma {:induction false} GuionesYDigitos(s: string, c: string)
    requires |c| == 11 && AllDigits(c) && s == c[..2] + "-" + c[2..10] + "-" + [c[10]]
    ensures |s| == 13 && s[0] == c[0] && s[12] == c[10]
    ensures forall i :: 0 <= i < |s| ==> IsDigit(s[i]) || s[i] == '-'
  {
    forall i | 0 <= i < |s|
      ensures IsDigit(s[i]) || s[i] == '-'
    {
      if i < 2 {
        assert s[i] == c[i];
      } else if i == 2 || i == 11 {
        assert s[i] == '-';
      } else if i < 11 {
        assert s[i] == c[i - 1];
      } else {
        assert s[i] == c[10];
      }
    }
  }

  /** Both forms of a CUIT pass through `crear`'s normalisation unchanged. */
  lemma {:induction false} GuionesNormalizados(s: string, c: string)
    requires |c| == 11 && AllDigits(c) && s == c[..2] + "-" + c[2..10] + "-" + [c[10]]
    ensures Strip(Upper(c)) == c && Strip(Upper(s)) == s && Upper(c) == c && Upper(s) == s && s != c
  {
    GuionesYDigitos(s, c);
    YaNormalizado(c);
    YaNormalizado(s);
  }

  /**
   * The CUIT is compared as stored text, not as its digits: the
   * `XX-XXXXXXXX-X` and the plain form of one CUIT get the same verdict from
   * `validar_cuit`, yet neither is found when the other is stored, so a
   * valid CUIT can be entered twice, once in each form.
   */
  lemma {:induction false} GuionesSonOtraClave(
    conGuiones: seq<Fila<ContactoChequeDatos>>, sinGuiones: seq<Fila<ContactoChequeDatos>>,
    s: string, c: string, nombre: string, notas: string)
    requires |c| == 11 && AllDigits(c) && s == c[..2] + "-" + c[2..10] + "-" + [c[10]]
    requires forall i :: 0 <= i < |conGuiones| ==> conGuiones[i].datos.cuit == s
    requires forall i :: 0 <= i < |sinGuiones| ==> sinGuiones[i].datos.cuit == c
    ensures ValidarCuit(s) == ValidarCuit(c)
    ensures !ExisteCuit(conGuiones, c) && !ExisteCuit(sinGuiones, s)
    ensures ValidarCuit(c) == CuitValido ==>
      NuevoContactoCheque(conGuiones, nombre, c, notas).Ok? && NuevoContactoCheque(sinGuiones, nombre, s, notas).Ok?
  {
    GuionesMismoVeredicto(s, c);
    assert !ExisteCuit(conGuiones, c) && !ExisteCuit(sinGuiones, s)
      && (ValidarCuit(c) == CuitValido ==> NuevoContactoCheque(conGuiones, nombre, c, notas).Ok?)
      && (ValidarCuit(s) == CuitValido ==> NuevoContactoCheque(sinGuiones, nombre, s, notas).Ok?) by {
      GuionesNormalizados(s, c);
      FormasDistintasAmbasNuevas(conGuiones, sinGuiones, s, c, nombre, notas);
    }
  }

  /** Two normalised spellings that differ are each new to a table holding only the other. */
  lemma {:induction false} FormasDistintasAmbasNuevas(
    conGuiones: seq<Fila<ContactoChequeDatos>>, sinGuiones: seq<Fila<ContactoChequeDatos>>,
    s: string, c: string, nombre: string, notas: string)
    requires Strip(Upper(c)) == c && Strip(Upper(s)) == s && Upper(c) == c && Upper(s) == s && s != c
    requires forall i :: 0 <= i < |conGuiones| ==> conGuiones[i].datos.cuit == s
    requires forall i :: 0 <= i < |sinGuiones| ==> sinGuiones[i].datos.cuit == c
    ensures !ExisteCuit(conGuiones, c) && !ExisteCuit(sinGuiones, s)
    ensures ValidarCuit(c) == CuitValido ==> NuevoContactoCheque(conGuiones, nombre, c, notas).Ok?
    ensures ValidarCuit(s) == CuitValido ==> NuevoContactoCheque(sinGuiones, nombre, s, notas).Ok?
  {
    OtraFormaEsNueva(conGuiones, nombre, notas, c, s);
    OtraFormaEsNueva(sinGuiones, nombre, notas, s, c);
    assert NuevoContactoCheque(conGuiones, nombre, c, notas) == AltaCheque(conGuiones, nombre, c, notas);
    assert NuevoContactoCheque(sinGuiones, nombre, s, notas) == AltaCheque(sinGuiones, nombre, s, notas);
  }

  /** A CUIT in upper case is not found in rows that all store a different string, and a valid one is accepted there. */
  lemma {:induction false} OtraFormaEsNueva(filas: seq<Fila<ContactoChequeDatos>>, nombre: string, notas: string, k: string, otra: string)
    requires Upper(k) == k && k != otra
    requires forall i :: 0 <= i < |filas| ==> filas[i].datos.cuit == otra
    ensures !ExisteCuit(filas, k)
    ensures ValidarCuit(k) == CuitValido ==> AltaCheque(filas, nombre, k, notas).Ok?
  {
  }

  /**
   * `desactivar` of either kind of contact: overwriting a row from an object
   * that matched it, after `apagar` cleared the object's flag, stores exactly
   * the cleared object in that row and leaves every other row as it was.
   * Both classes clear the flag with `(x) => x.(activo := false)`, so the
   * row changes in `activo` and nothing else.
   */
  lemma {:induction false} DesactivarContacto<T>(filas: seq<Fila<T>>, id: nat, d: T, apagar: T -> T, otro: nat)
    requires Buscar(filas, id) == Some(d)
    ensures Buscar(Modificadas(filas, id, Sobrescribir(apagar(d))), id) == Some(apagar(d))
    ensures otro != id ==> Buscar(Modificadas(filas, id, Sobrescribir(apagar(d))), otro) == Buscar(filas, otro)
  {
    BuscarModificadas(filas, id, Sobrescribir(apagar(d)), otro);
  }

  class ContactoCheque {
    var id: nat
    var datos: ContactoChequeDatos

    constructor (id: nat, datos: ContactoChequeDatos)
      ensures this.id == id && this.datos == datos
    {
      this.id := id;
      this.datos := datos;
    }

    /** `ContactoCheque.crear`. */
    static method Crear(tabla: Tabla<ContactoChequeDatos>, nombre: string, cuit: string, notas: string)
      returns (r: Result<ContactoCheque, ErrorContacto>)
      requires tabla.Valida()
      modifies tabla
      ensures tabla.Valida()
      ensures match NuevoContactoCheque(old(tabla.filas), nombre, cuit, notas)
        case Err(e) => r == Err(e) && tabla.filas == old(tabla.filas) && tabla.ultimoId == old(tabla.ultimoId)
        case Ok(d) =>
          && r.Ok? && fresh(r.value) && r.value.datos == d && r.value.id == tabla.ultimoId == old(tabla.ultimoId) + 1
          && tabla.filas == old(tabla.filas) + [Fila(r.value.id, d)]
    {
      var nuevo := NuevoContactoCheque(tabla.filas, nombre, cuit, notas);
      if nuevo.Err? {
        return Err(nuevo.error);
      }
      var id := tabla.Insertar(nuevo.value);
      var contacto := new ContactoCheque(id, nuevo.value);
      return Ok(contacto);
    }

    /** `actualizar`: fails without a key, else writes every column of the row. */
    method Actualizar(tabla: Tabla<ContactoChequeDatos>) returns (r: Result<(), ErrorContacto>)
      requires tabla.Valida()
      modifies tabla
      ensures tabla.Valida() && tabla.ultimoId == old(tabla.ultimoId)
      ensures r == if id == 0 then Err(SinId) else Ok(())
      ensures tabla.filas == if id == 0 then old(tabla.filas) else Modificadas(old(tabla.filas), id, Sobrescribir(datos))
    {
      if id == 0 {
        return Err(SinId);
      }
      tabla.Modificar(id, Sobrescribir(datos));
      return Ok(());
    }

    /** `desactivar`: clears the flag on the object, then writes the object back. */
    method Desactivar(tabla: Tabla<ContactoChequeDatos>) returns (r: Result<(), ErrorContacto>)
      requires tabla.Valida()
      modifies this, tabla
      ensures tabla.Valida() && tabla.ultimoId == old(tabla.ultimoId) && id == old(id)
      ensures datos == old(datos).(activo := false)
      ensures r == if id == 0 then Err(SinId) else Ok(())
      ensures tabla.filas == if id == 0 then old(tabla.filas) else Modificadas(old(tabla.filas), id, Sobrescribir(datos))
    {
      datos := datos.(activo := false);
      r := Actualizar(tabla);
    }
  }

  // ---------------------------------------------------------------------------
  // ContactoTransferencia
  // ---------------------------------------------------------------------------

  function ConPar(cuit: string, cbu: string): Fila<ContactoTransferenciaDatos> -> bool {
    (f: Fila<ContactoTransferenciaDatos>) => f.datos.cuit == cuit && f.datos.cbu == cbu
  }

  function DelCuit(cuit: string): Fila<ContactoTransferenciaDatos> -> bool {
    (f: Fila<ContactoTransferenciaDatos>) => f.datos.cuit == cuit
  }

  /** `ContactoTransferencia.existe`: a stored row with the upper-cased CUIT and the CBU as given. */
  function ExistePar(filas: seq<Fila<ContactoTransferenciaDatos>>, cuit: string, cbu: string): (b: bool)
    ensures b <==> exists i :: 0 <= i < |filas| && filas[i].datos.cuit == Upper(cuit) && filas[i].datos.cbu == cbu
  {
    Hay(filas, ConPar(Upper(cuit), cbu))
  }

  /** `ContactoTransferencia.obtener_por_cuit`: every row with the upper-cased CUIT, in table order. */
  function ObtenerPorCuit(filas: seq<Fila<ContactoTransferenciaDatos>>, cuit: string): (r: seq<Fila<ContactoTransferenciaDatos>>)
    ensures forall x :: x in r <==> x in filas && x.datos.cuit == Upper(cuit)
  {
    DondeCompleto(filas, DelCuit(Upper(cuit)));
    Donde(filas, DelCuit(Upper(cuit)))
  }

  /** No two transfer contacts share both CUIT and CBU. */
  predicate ParesUnicos(filas: seq<Fila<ContactoTransferenciaDatos>>) {
    forall i, j :: 0 <= i < j < |filas| ==>
      filas[i].datos.cuit != filas[j].datos.cuit || filas[i].datos.cbu != filas[j].datos.cbu
  }

  /**
   * The checks of `ContactoTransferencia.crear` once the CUIT has been
   * upper-cased and stripped and the CBU stripped.
   */
  function AltaTransferencia(
    filas: seq<Fila<ContactoTransferenciaDatos>>, nombre: string, c: string, b: string, notas: string)
    : Result<ContactoTransferenciaDatos, ErrorContacto>
  {
    var vc := ValidarCuit(c);
    if vc != CuitValido then Err(CuitInvalido(vc))
    else
      var vb := ValidarCbu(b);
      if vb != CbuValido then Err(CbuInvalido(vb))
      else if ExistePar(filas, c, b) then Err(ContactoDuplicado)
      else Ok(ContactoTransferenciaDatos(nombre, c, b, notas, true))
  }

  /** The row `ContactoTransferencia.crear` inserts, or the first check it fails. */
  function NuevoContactoTransferencia(
    filas: seq<Fila<ContactoTransferenciaDatos>>, nombre: string, cuit: string, cbu: string, notas: string)
    : Result<ContactoTransferenciaDatos, ErrorContacto>
  {
    AltaTransferencia(filas, nombre, Strip(Upper(cuit)), Strip(cbu), notas)
  }

  /** On a CUIT already in upper case: the CUIT is checked first, then the CBU. */
  lemma {:induction false} AltaTransferenciaValida(
    filas: seq<Fila<ContactoTransferenciaDatos>>, nombre: string, c: string, b: string, notas: string)
    ensures var r := AltaTransferencia(filas, nombre, c, b, notas);
      && (r.Err? && r.error.CuitInvalido? <==> !CuitCanonicoValido(LimpiarCuit(c)))
      && (r.Err? && r.error.CbuInvalido? <==> CuitCanonicoValido(LimpiarCuit(c)) && !CbuCanonicoValido(LimpiarCbu(b)))
  {
    ValidarCuitCorrecto(c);
    ValidarCbuCorrecto(b);
  }

  /** On a CUIT already in upper case: a valid pair is refused exactly when it is stored; else it is added, active. */
  lemma {:induction false} AltaTransferenciaUnica(
    filas: seq<Fila<ContactoTransferenciaDatos>>, nombre: string, c: string, b: string, notas: string)
    requires Upper(c) == c
    ensures var r := AltaTransferencia(filas, nombre, c, b, notas);
      && (r == Err(ContactoDuplicado) <==>
            && CuitCanonicoValido(LimpiarCuit(c)) && CbuCanonicoValido(LimpiarCbu(b))
            && exists i :: 0 <= i < |filas| && filas[i].datos.cuit == c && filas[i].datos.cbu == b)
      && (r.Ok? <==> && CuitCanonicoValido(LimpiarCuit(c)) && CbuCanonicoValido(LimpiarCbu(b))
                     && forall i :: 0 <= i < |filas| ==> filas[i].datos.cuit != c || filas[i].datos.cbu != b)
      && (r.Ok? ==> r.value == ContactoTransferenciaDatos(nombre, c, b, notas, true))
  {
    ValidarCuitCorrecto(c);
    ValidarCbuCorrecto(b);
  }

  /**
   * The checks of `ContactoTransferencia.crear`, in order: the CUIT first
   * (so a bad CUIT is reported even when the CBU is bad too), then the
   * stripped CBU, then the pair must be new; a CUIT already stored with
   * another CBU is no obstacle.
   */
  lemma {:induction false} NuevoContactoTransferenciaCorrecto(
    filas: seq<Fila<ContactoTransferenciaDatos>>, nombre: string, cuit: string, cbu: string, notas: string)
    ensures var c, b := Strip(Upper(cuit)), Strip(cbu);
      var r := NuevoContactoTransferencia(filas, nombre, cuit, cbu, notas);
      && (r.Err? && r.error.CuitInvalido? <==> !CuitCanonicoValido(LimpiarCuit(c)))
      && (r.Err? && r.error.CbuInvalido? <==> CuitCanonicoValido(LimpiarCuit(c)) && !CbuCanonicoValido(LimpiarCbu(b)))
      && (r == Err(ContactoDuplicado) <==>
            && CuitCanonicoValido(LimpiarCuit(c)) && CbuCanonicoValido(LimpiarCbu(b))
            && exists i :: 0 <= i < |filas| && filas[i].datos.cuit == c && filas[i].datos.cbu == b)
      && (r.Ok? <==> && CuitCanonicoValido(LimpiarCuit(c)) && CbuCanonicoValido(LimpiarCbu(b))
                     && forall i :: 0 <= i < |filas| ==> filas[i].datos.cuit != c || filas[i].datos.cbu != b)
      && (r.Ok? ==> r.value == ContactoTransferenciaDatos(nombre, c, b, notas, true))
  {
    var c, b := Strip(Upper(cuit)), Strip(cbu);
    NormalizadoFijo(cuit);
    AltaTransferenciaValida(filas, nombre, c, b, notas);
    AltaTransferenciaUnica(filas, nombre, c, b, notas);
  }

  /** Appending a contact whose pair is not stored keeps pairs unique. */
  lemma {:induction false} AltaConservaPares(filas: seq<Fila<ContactoTransferenciaDatos>>, id: nat, d: ContactoTransferenciaDatos)
    requires ParesUnicos(filas)
    requires forall i :: 0 <= i < |filas| ==> filas[i].datos.cuit != d.cuit || filas[i].datos.cbu != d.cbu
    ensures ParesUnicos(filas + [Fila(id, d)])
  {
  }

  /** So a table filled only by `crear` never holds a (CUIT, CBU) pair twice. */
  lemma {:induction false} CrearConservaPares(
    filas: seq<Fila<ContactoTransferenciaDatos>>, nombre: string, cuit: string, cbu: string, notas: string, id: nat)
    requires ParesUnicos(filas)
    requires NuevoContactoTransferencia(filas, nombre, cuit, cbu, notas).Ok?
    ensures ParesUnicos(filas + [Fila(id, NuevoContactoTransferencia(filas, nombre, cuit, cbu, notas).value)])
  {
    NuevoContactoTransferenciaCorrecto(filas, nombre, cuit, cbu, notas);
    AltaConservaPares(filas, id, NuevoContactoTransferencia(filas, nombre, cuit, cbu, notas).value);
  }

  /** A new transfer contact joins the end of the list for its CUIT; the contacts already there stay. */
  lemma {:induction false} ObtenerPorCuitTrasCrear(
    filas: seq<Fila<ContactoTransferenciaDatos>>, nombre: string, cuit: string, cbu: string, notas: string, id: nat)
    requires NuevoContactoTransferencia(filas, nombre, cuit, cbu, notas).Ok?
    ensures var d := NuevoContactoTransferencia(filas, nombre, cuit, cbu, notas).value;
      ObtenerPorCuit(filas + [Fila(id, d)], d.cuit) == ObtenerPorCuit(filas, d.cuit) + [Fila(id, d)]
  {
    var c, b := Strip(Upper(cuit)), Strip(cbu);
    NormalizadoFijo(cuit);
    AltaTransferenciaUnica(filas, nombre, c, b, notas);
    var d := ContactoTransferenciaDatos(nombre, c, b, notas, true);
    var p := DelCuit(c);
    DondeConcat(filas, [Fila(id, d)], p);
    assert Donde([Fila(id, d)], p) == [Fila(id, d)];
  }

  class ContactoTransferencia {
    var id: nat
    var datos: ContactoTransferenciaDatos

    constructor (id: nat, datos: ContactoTransferenciaDatos)
      ensures this.id == id && this.datos == datos
    {
      this.id := id;
      this.datos := datos;
    }

    /** `ContactoTransferencia.crear`. */
    static method Crear(tabla: Tabla<ContactoTransferenciaDatos>, nombre: string, cuit: string, cbu: string, notas: string)
      returns (r: Result<ContactoTransferencia, ErrorContacto>)
      requires tabla.Valida()
      modifies tabla
      ensures tabla.Valida()
      ensures match NuevoContactoTransferencia(old(tabla.filas), nombre, cuit, cbu, notas)
        case Err(e) => r == Err(e) && tabla.filas == old(tabla.filas) && tabla.ultimoId == old(tabla.ultimoId)
        case Ok(d) =>
          && r.Ok? && fresh(r.value) && r.value.datos == d && r.value.id == tabla.ultimoId == old(tabla.ultimoId) + 1
          && tabla.filas == old(tabla.filas) + [Fila(r.value.id, d)]
    {
      var nuevo := NuevoContactoTransferencia(tabla.filas, nombre, cuit, cbu, notas);
      if nuevo.Err? {
        return Err(nuevo.error);
      }
      var id := tabla.Insertar(nuevo.value);
      var contacto := new ContactoTransferencia(id, nuevo.value);
      return Ok(contacto);
    }

    /** `actualizar`: fails without a key, else writes every column of the row. */
    method Actualizar(tabla: Tabla<ContactoTransferenciaDatos>) returns (r: Result<(), ErrorContacto>)
      requires tabla.Valida()
      modifies tabla
      ensures tabla.Valida() && tabla.ultimoId == old(tabla.ultimoId)
      ensures r == if id == 0 then Err(SinId) else Ok(())
      ensures tabla.filas == if id == 0 then old(tabla.filas) else Modificadas(old(tabla.filas), id, Sobrescribir(datos))
    {
      if id == 0 {
        return Err(SinId);
      }
      tabla.Modificar(id, Sobrescribir(datos));
      return Ok(());
    }

    /** `desactivar`: clears the flag on the object, then writes the object back. */
    method Desactivar(tabla: Tabla<ContactoTransferenciaDatos>) returns (r: Result<(), ErrorContacto>)
      requires tabla.Valida()
      modifies this, tabla
      ensures tabla.Valida() && tabla.ultimoId == old(tabla.ultimoId) && id == old(id)
      ensures datos == old(datos).(activo := false)
      ensures r == if id == 0 then Err(SinId) else Ok(())
      ensures tabla.filas == if id == 0 then old(tabla.filas) else Modificadas(old(tabla.filas), id, Sobrescribir(datos))
    {
      datos := datos.(activo := false);
      r := Actualizar(tabla);
    }
  }
}
