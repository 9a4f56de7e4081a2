/**
 * Check-number ranges (`RangoCheque`, table `rangos_cheques`).
 *
 * A range is a block [inicial, final] of preprinted check numbers of one
 * type ('diferido' or 'comun') with a priority `orden` in 1..4 and a cursor
 * `proximo`, the next number to hand out. An unset cursor is read as
 * `inicial`.
 */
module Rangos {

  import opened Wrappers
  import opened Strings
  import opened Tablas
  import opened Esquema

  datatype ErrorRango =
    | TipoInvalido
    | OrdenInvalido
    | LimitesInvalidos
    | RangoDuplicado
    | SinId
    | RangoInactivo
    | RangoAgotado

  const Ordenes: set<int> := {1, 2, 3, 4}

  // ---------------------------------------------------------------------------
  // The cursor and the counts derived from it
  // ---------------------------------------------------------------------------

  /** The next number the range would hand out: the cursor, or `inicial` when it is unset. */
  function Cursor(d: RangoDatos): int {
    d.proximo.GetOr(d.inicial)
  }

  /** The range still has a number to hand out. */
  predicate Disponible(d: RangoDatos) {
    Cursor(d) <= d.final
  }

  /** `cantidad_total` is the number of integers in [inicial, final]. */
  predicate CantidadExacta(d: RangoDatos) {
    d.cantidad == d.final - d.inicial + 1
  }

  /** What `crear` guarantees of a range's bounds. */
  predicate BienFormado(d: RangoDatos) {
    d.inicial < d.final && CantidadExacta(d)
  }

  /** The cursor invariant: numbers before the cursor are used, the cursor stops one past `final`. */
  predicate CursorEnRango(d: RangoDatos) {
    d.inicial <= Cursor(d) <= d.final + 1
  }

  /** `numeros_usados`: 0 with no cursor, else how far the cursor moved from `inicial`. */
  function NumerosUsados(d: RangoDatos): (n: int)
    ensures CursorEnRango(d) ==> 0 <= n <= Cursor(d) - d.inicial
  {
    if d.proximo.None? then 0 else d.proximo.value - d.inicial
  }

  /** `numeros_disponibles`: `cantidad_total` as stored with no cursor, else the numbers from the cursor to `final`, never negative. */
  function NumerosDisponibles(d: RangoDatos): (n: int)
    ensures d.proximo.Some? ==> n >= 0 && (n > 0 <==> Disponible(d))
    ensures CantidadExacta(d) && Disponible(d) ==> n == d.final - Cursor(d) + 1
  {
    if d.proximo.None? then d.cantidad
    else if d.final - d.proximo.value + 1 > 0 then d.final - d.proximo.value + 1
    else 0
  }

  /** `tiene_disponibles`. */
  function TieneDisponibles(d: RangoDatos): (b: bool)
    ensures d.proximo.Some? || CantidadExacta(d) ==> (b <==> Disponible(d))
  {
    NumerosDisponibles(d) > 0
  }

  /** Used and available numbers always add up to the size of the range. */
  lemma {:induction false} CuentasCompletas(d: RangoDatos)
    requires CantidadExacta(d) && CursorEnRango(d)
    ensures NumerosUsados(d) >= 0 && NumerosDisponibles(d) >= 0
    ensures NumerosUsados(d) + NumerosDisponibles(d) == d.cantidad
  {
  }

  // ---------------------------------------------------------------------------
  // crear / existe
  // ---------------------------------------------------------------------------

  function MismaClave(t: string, orden: int): Fila<RangoDatos> -> bool {
    (f: Fila<RangoDatos>) => f.datos.tipo == t && f.datos.orden == orden
  }

  /** `RangoCheque.existe`: some stored range has the lower-cased type and that priority. */
  function Existe(filas: seq<Fila<RangoDatos>>, tipo: string, orden: int): (b: bool)
    ensures b <==> exists i :: 0 <= i < |filas| && filas[i].datos.tipo == Lower(tipo) && filas[i].datos.orden == orden
  {
    Hay(filas, MismaClave(Lower(tipo), orden))
  }

  /** No two stored ranges share a type and a priority. */
  predicate ClavesUnicas(filas: seq<Fila<RangoDatos>>) {
    forall i, j :: 0 <= i < j < |filas| ==>
      !(filas[i].datos.tipo == filas[j].datos.tipo && filas[i].datos.orden == filas[j].datos.orden)
  }

  /** The row `crear` inserts, or the first check it fails. */
  function NuevoRango(filas: seq<Fila<RangoDatos>>, tipo: string, orden: int, inicial: int, final: int): (r: Result<RangoDatos, ErrorRango>)
    ensures r == Err(TipoInvalido) <==> Strip(Lower(tipo)) !in TiposCheque
    ensures r == Err(OrdenInvalido) <==> Strip(Lower(tipo)) in TiposCheque && orden !in Ordenes
    ensures r == Err(LimitesInvalidos) <==> Strip(Lower(tipo)) in TiposCheque && orden in Ordenes && inicial >= final
    ensures r == Err(RangoDuplicado) <==>
      Strip(Lower(tipo)) in TiposCheque && orden in Ordenes && inicial < final && Existe(filas, Strip(Lower(tipo)), orden)
    ensures r.Ok? ==>
      && r.value.tipo == Strip(Lower(tipo)) && r.value.tipo in TiposCheque
      && r.value.orden == orden && r.value.inicial == inicial && r.value.final == final
      && BienFormado(r.value) && CursorEnRango(r.value) && Cursor(r.value) == inicial
      && r.value.proximo.Some? && r.value.activo
  {
    var t := Strip(Lower(tipo));
    if t !in TiposCheque then Err(TipoInvalido)
    else if orden !in Ordenes then Err(OrdenInvalido)
    else if inicial >= final then Err(LimitesInvalidos)
    else if Existe(filas, t, orden) then Err(RangoDuplicado)
    else Ok(RangoDatos(t, orden, inicial, final, final - inicial + 1, Some(inicial), true))
  }

  /** Inserting the row `crear` builds keeps (tipo, orden) unique. */
  lemma {:induction false} NuevoRangoConservaClaves(filas: seq<Fila<RangoDatos>>, tipo: string, orden: int, inicial: int, final: int, id: nat)
    requires ClavesUnicas(filas)
    requires NuevoRango(filas, tipo, orden, inicial, final).Ok?
    ensures ClavesUnicas(filas + [Fila(id, NuevoRango(filas, tipo, orden, inicial, final).value)])
  {
    var d := NuevoRango(filas, tipo, orden, inicial, final).value;
    TiposEnMinusculas(d.tipo);
    assert !Existe(filas, d.tipo, orden);
  }

  // ---------------------------------------------------------------------------
  // obtener_rango_activo: the active ranges of a type, by priority
  // ---------------------------------------------------------------------------

  function ActivoDeTipo(t: string): Fila<RangoDatos> -> bool {
    (f: Fila<RangoDatos>) => f.datos.tipo == t && f.datos.activo
  }

  predicate PorOrden(s: seq<Fila<RangoDatos>>) {
    forall i, j :: 0 <= i < j < |s| ==> s[i].datos.orden <= s[j].datos.orden
  }

  /** Inserts `x` before the first row of `s` whose priority is not smaller, so equal priorities keep their order. */
  function InsertarPorOrden(x: Fila<RangoDatos>, s: seq<Fila<RangoDatos>>): seq<Fila<RangoDatos>> {
    if s == [] then [x]
    else if x.datos.orden <= s[0].datos.orden then [x] + s
    else [s[0]] + InsertarPorOrden(x, s[1..])
  }

  lemma {:induction false} InsertarPorOrdenCorrecto(x: Fila<RangoDatos>, s: seq<Fila<RangoDatos>>)
    requires PorOrden(s)
    ensures multiset(InsertarPorOrden(x, s)) == multiset(s) + multiset{x}
    ensures PorOrden(InsertarPorOrden(x, s))
  {
    if s == [] {
    } else if x.datos.orden <= s[0].datos.orden {
      DelantePorOrden(x, s);
    } else {
      var t := InsertarPorOrden(x, s[1..]);
      ColaPorOrden(s);
      InsertarPorOrdenCorrecto(x, s[1..]);
      CabezaPorOrden(s[0], x, s[1..], t);
      assert InsertarPorOrden(x, s) == [s[0]] + t;
      assert multiset(s) == multiset{s[0]} + multiset(s[1..]) by {
        assert s == [s[0]] + s[1..];
      }
    }
  }

  /** A row no later than the head of a sorted sequence can go in front of it. */
  lemma {:induction false} DelantePorOrden(x: Fila<RangoDatos>, s: seq<Fila<RangoDatos>>)
    requires PorOrden(s) && s != [] && x.datos.orden <= s[0].datos.orden
    ensures PorOrden([x] + s)
  {
    var r := [x] + s;
    forall i, j | 0 <= i < j < |r| ensures r[i].datos.orden <= r[j].datos.orden {
      assert r[j] == s[j - 1];
      if i > 0 {
        assert r[i] == s[i - 1];
      }
    }
  }

  /** The tail of a sorted sequence is sorted, and its head is no later than any row of it. */
  lemma {:induction false} ColaPorOrden(s: seq<Fila<RangoDatos>>)
    requires PorOrden(s) && s != []
    ensures PorOrden(s[1..])
    ensures forall y :: y in s[1..] ==> s[0].datos.orden <= y.datos.orden
  {
    var c := s[1..];
    forall i, j | 0 <= i < j < |c| ensures c[i].datos.orden <= c[j].datos.orden {
      assert c[i] == s[i + 1] && c[j] == s[j + 1];
    }
    forall y | y in c ensures s[0].datos.orden <= y.datos.orden {
      var k :| 0 <= k < |c| && c[k] == y;
      assert s[k + 1] == y;
    }
  }

  /** A row no later in priority than `x` and than every row of `s` can head any sorted arrangement of `s` and `x`. */
  lemma {:induction false} CabezaPorOrden(h: Fila<RangoDatos>, x: Fila<RangoDatos>, s: seq<Fila<RangoDatos>>, t: seq<Fila<RangoDatos>>)
    requires h.datos.orden <= x.datos.orden
    requires forall y :: y in s ==> h.datos.orden <= y.datos.orden
    requires multiset(t) == multiset(s) + multiset{x} && PorOrden(t)
    ensures PorOrden([h] + t)
  {
    forall y | y in t ensures h.datos.orden <= y.datos.orden {
      assert y in multiset(t);
    }
    var r := [h] + t;
    forall i, j | 0 <= i < j < |r| ensures r[i].datos.orden <= r[j].datos.orden {
      assert r[j] == t[j - 1];
      if i > 0 {
        assert r[i] == t[i - 1];
      }
    }
  }

  /** `ORDER BY numero_orden ASC`, with ties left in table order. */
  function OrdenarPorOrden(s: seq<Fila<RangoDatos>>): seq<Fila<RangoDatos>> {
    if s == [] then [] else InsertarPorOrden(s[0], OrdenarPorOrden(s[1..]))
  }

  /** Sorting by priority yields a rearrangement of the rows in ascending priority. */
  lemma {:induction false} OrdenarPorOrdenCorrecto(s: seq<Fila<RangoDatos>>)
    ensures multiset(OrdenarPorOrden(s)) == multiset(s)
    ensures PorOrden(OrdenarPorOrden(s))
  {
    if s != [] {
      OrdenarPorOrdenCorrecto(s[1..]);
      InsertarPorOrdenCorrecto(s[0], OrdenarPorOrden(s[1..]));
      assert s == [s[0]] + s[1..];
    }
  }

  /** `SELECT * FROM rangos_cheques WHERE tipo = ? AND activo = 1 ORDER BY numero_orden ASC`. */
  function Candidatos(filas: seq<Fila<RangoDatos>>, t: string): seq<Fila<RangoDatos>> {
    OrdenarPorOrden(Donde(filas, ActivoDeTipo(t)))
  }

  /** The query returns exactly the active ranges of type `t`, in ascending priority. */
  lemma {:induction false} CandidatosCorrecto(filas: seq<Fila<RangoDatos>>, t: string)
    ensures PorOrden(Candidatos(filas, t))
    ensures forall x :: x in Candidatos(filas, t) <==> x in filas && x.datos.tipo == t && x.datos.activo
  {
    var ds := Donde(filas, ActivoDeTipo(t));
    DondeCompleto(filas, ActivoDeTipo(t));
    var cs := Candidatos(filas, t);
    OrdenarPorOrdenCorrecto(ds);
    forall x ensures x in cs <==> x in ds {
      assert x in cs <==> x in multiset(cs);
      assert x in ds <==> x in multiset(ds);
    }
  }

  /** The position of the first range in `cs` that still has a number, or `|cs|`. */
  function PrimerDisponible(cs: seq<Fila<RangoDatos>>): (k: nat)
    ensures k <= |cs|
    ensures forall j :: 0 <= j < k ==> !Disponible(cs[j].datos)
    ensures k < |cs| ==> Disponible(cs[k].datos)
  {
    if cs == [] then 0
    else if Disponible(cs[0].datos) then 0
    else 1 + PrimerDisponible(cs[1..])
  }

  /** A scan that found only exhausted ranges before position `i`, and an available one at `i` (or ran out), stopped where `PrimerDisponible` does. */
  lemma {:induction false} PrimerDisponibleEn(cs: seq<Fila<RangoDatos>>, i: nat)
    requires i <= |cs|
    requires forall j :: 0 <= j < i ==> !Disponible(cs[j].datos)
    requires i < |cs| ==> Disponible(cs[i].datos)
    ensures PrimerDisponible(cs) == i
  {
  }

  /** The row as `obtener_rango_activo` returns it: the unset cursor replaced by `inicial`. */
  function ConCursor(f: Fila<RangoDatos>): Fila<RangoDatos> {
    Fila(f.id, f.datos.(proximo := Some(Cursor(f.datos))))
  }

  /** `RangoCheque.obtener_rango_activo`. */
  function ObtenerRangoActivo(filas: seq<Fila<RangoDatos>>, tipo: string): Option<Fila<RangoDatos>> {
    var cs := Candidatos(filas, Lower(tipo));
    var k := PrimerDisponible(cs);
    if k < |cs| then Some(ConCursor(cs[k])) else None
  }

  /** The first available range of a priority-ordered list has the least priority among the available ones. */
  lemma {:induction false} PrimerDisponibleEsMinimo(cs: seq<Fila<RangoDatos>>, x: Fila<RangoDatos>)
    requires PorOrden(cs) && PrimerDisponible(cs) < |cs|
    requires x in cs && Disponible(x.datos)
    ensures cs[PrimerDisponible(cs)].datos.orden <= x.datos.orden
  {
    var k := PrimerDisponible(cs);
    var j :| 0 <= j < |cs| && cs[j] == x;
    assert k <= j;
  }

  /**
   * Among the active ranges of type `t`, the first available one in priority
   * order has a number left and the least priority of those that do; there
   * is none only when every active range of type `t` is exhausted.
   */
  lemma {:induction false} PrimerCandidatoDisponible(filas: seq<Fila<RangoDatos>>, t: string)
    ensures PrimerDisponible(Candidatos(filas, t)) == |Candidatos(filas, t)| <==>
      forall x :: x in filas && x.datos.tipo == t && x.datos.activo ==> !Disponible(x.datos)
    ensures PrimerDisponible(Candidatos(filas, t)) < |Candidatos(filas, t)| ==>
      var f := Candidatos(filas, t)[PrimerDisponible(Candidatos(filas, t))];
      && f in filas && f.datos.tipo == t && f.datos.activo && Disponible(f.datos)
      && forall x :: x in filas && x.datos.tipo == t && x.datos.activo && Disponible(x.datos) ==> f.datos.orden <= x.datos.orden
  {
    var cs := Candidatos(filas, t);
    var k := PrimerDisponible(cs);
    CandidatosCorrecto(filas, t);
    if k < |cs| {
      var f := cs[k];
      assert f in cs;
      forall x | x in filas && x.datos.tipo == t && x.datos.activo && Disponible(x.datos)
        ensures f.datos.orden <= x.datos.orden
      {
        PrimerDisponibleEsMinimo(cs, x);
      }
    } else {
      forall x | x in filas && x.datos.tipo == t && x.datos.activo
        ensures !Disponible(x.datos)
      {
        var j :| 0 <= j < |cs| && cs[j] == x;
      }
    }
  }

  /**
   * `obtener_rango_activo(tipo)` finds an active range of the lower-cased
   * type with a number left, and of those one with the least priority, with
   * its cursor filled in; it finds nothing only when every active range of
   * that type is exhausted.
   */
  lemma {:induction false} ObtenerRangoActivoCorrecto(filas: seq<Fila<RangoDatos>>, tipo: string)
    ensures ObtenerRangoActivo(filas, tipo).None? <==>
      forall x :: x in filas && x.datos.tipo == Lower(tipo) && x.datos.activo ==> !Disponible(x.datos)
    ensures ObtenerRangoActivo(filas, tipo).Some? ==>
      exists f :: f in filas && ObtenerRangoActivo(filas, tipo).value == ConCursor(f)
        && f.datos.tipo == Lower(tipo) && f.datos.activo && Disponible(f.datos)
        && forall x :: x in filas && x.datos.tipo == Lower(tipo) && x.datos.activo && Disponible(x.datos) ==>
             f.datos.orden <= x.datos.orden
  {
    PrimerCandidatoDisponible(filas, Lower(tipo));
  }

  // ---------------------------------------------------------------------------
  // obtener_siguiente_numero
  // ---------------------------------------------------------------------------

  /** The outcome of one `obtener_siguiente_numero` call and the range's fields after it. */
  datatype Paso = Paso(resultado: Result<int, ErrorRango>, despues: RangoDatos)

  /**
   * `obtener_siguiente_numero` on the object's fields: an inactive range
   * fails untouched; an unset cursor is first set to `inicial`; an exhausted
   * range fails; otherwise the cursor is handed out and advanced by one.
   */
  function SiguienteNumero(d: RangoDatos): (p: Paso)
    ensures p.despues == d.(proximo := p.despues.proximo)
    ensures p.resultado == Err(RangoInactivo) <==> !d.activo
    ensures !d.activo ==> p.despues == d
    ensures p.resultado.Ok? <==> d.activo && Disponible(d)
    ensures p.resultado == Err(RangoAgotado) <==> d.activo && !Disponible(d)
    ensures p.resultado.Ok? ==> p.resultado.value == Cursor(d) && Cursor(p.despues) == Cursor(d) + 1
    ensures p.resultado.Ok? ==> NumerosUsados(p.despues) == NumerosUsados(d) + 1
    ensures p.resultado.Err? ==> Cursor(p.despues) == Cursor(d)
    ensures CursorEnRango(d) ==> CursorEnRango(p.despues)
    ensures CursorEnRango(d) && p.resultado.Ok? ==> d.inicial <= p.resultado.value <= d.final
  {
    if !d.activo then Paso(Err(RangoInactivo), d)
    else
      var e := d.(proximo := Some(Cursor(d)));
      if Cursor(d) > d.final then Paso(Err(RangoAgotado), e)
      else Paso(Ok(Cursor(d)), d.(proximo := Some(Cursor(d) + 1)))
  }

  /** Handing a number out takes exactly one from the available count. */
  lemma {:induction false} SiguienteDescuentaDisponible(d: RangoDatos)
    requires CantidadExacta(d) && SiguienteNumero(d).resultado.Ok?
    ensures NumerosDisponibles(SiguienteNumero(d).despues) == NumerosDisponibles(d) - 1
  {
  }

  /** The outcomes of `k` successive calls on one range object. */
  function Repetir(d: RangoDatos, k: nat): (rs: seq<Result<int, ErrorRango>>)
    ensures |rs| == k
    decreases k
  {
    if k == 0 then []
    else
      var p := SiguienteNumero(d);
      [p.resultado] + Repetir(p.despues, k - 1)
  }

  /**
   * Successive calls on an active range hand out its cursor, cursor + 1, ...
   * with no gap and no repetition, up to `final`, and then fail with
   * "agotado" every time.
   */
  lemma {:induction false} RepetirConsecutivos(d: RangoDatos, k: nat)
    requires d.activo
    ensures forall i :: 0 <= i < k ==>
      Repetir(d, k)[i] == (if Cursor(d) + i <= d.final then Ok(Cursor(d) + i) else Err(RangoAgotado))
    decreases k
  {
    if k > 0 {
      var p := SiguienteNumero(d);
      RepetirConsecutivos(p.despues, k - 1);
      var rs := Repetir(d, k);
      forall i | 0 <= i < k
        ensures rs[i] == (if Cursor(d) + i <= d.final then Ok(Cursor(d) + i) else Err(RangoAgotado))
      {
        if i > 0 {
          assert rs[i] == Repetir(p.despues, k - 1)[i - 1];
        }
      }
    }
  }

  /**
   * On a range whose cursor is at `inicial`, as `crear` leaves it, the calls
   * return inicial, inicial + 1, ..., and never a number outside [inicial, final].
   */
  lemma {:induction false} RepetirRangoNuevo(d: RangoDatos, k: nat)
    requires d.activo && Cursor(d) == d.inicial
    ensures forall i :: 0 <= i < k && i <= d.final - d.inicial ==> Repetir(d, k)[i] == Ok(d.inicial + i)
    ensures forall i :: 0 <= i < k && Repetir(d, k)[i].Ok? ==> d.inicial <= Repetir(d, k)[i].value <= d.final
  {
    RepetirConsecutivos(d, k);
  }

  // ---------------------------------------------------------------------------
  // Writing the object back to its row
  // ---------------------------------------------------------------------------

  /** `UPDATE ... SET proximo_numero = ?`. */
  function ConProximo(n: int): RangoDatos -> RangoDatos {
    (x: RangoDatos) => x.(proximo := Some(n))
  }

  /** `actualizar`'s UPDATE: bounds, count, cursor and `activo` from the object; type and priority stay. */
  function Volcar(d: RangoDatos): RangoDatos -> RangoDatos {
    (x: RangoDatos) => x.(inicial := d.inicial, final := d.final, cantidad := d.cantidad, proximo := d.proximo, activo := d.activo)
  }

  /**
   * When a range's row matches its object, toggling `activo` and writing it
   * back changes only that row's `activo`.
   */
  lemma {:induction false} VolcarSoloActivo(fs: seq<Fila<RangoDatos>>, id: nat, d: RangoDatos, b: bool, otro: nat)
    requires Buscar(fs, id) == Some(d)
    ensures Buscar(Modificadas(fs, id, Volcar(d.(activo := b))), id) == Some(d.(activo := b))
    ensures otro != id ==> Buscar(Modificadas(fs, id, Volcar(d.(activo := b))), otro) == Buscar(fs, otro)
  {
    BuscarModificadas(fs, id, Volcar(d.(activo := b)), otro);
  }

  /** When a range's row matches its object, a successful call leaves them matching. */
  lemma {:induction false} SiguienteSincronizado(fs: seq<Fila<RangoDatos>>, id: nat, d: RangoDatos, otro: nat)
    requires Buscar(fs, id) == Some(d) && SiguienteNumero(d).resultado.Ok?
    ensures Buscar(Modificadas(fs, id, ConProximo(SiguienteNumero(d).resultado.value + 1)), id)
      == Some(SiguienteNumero(d).despues)
    ensures otro != id ==>
      Buscar(Modificadas(fs, id, ConProximo(SiguienteNumero(d).resultado.value + 1)), otro) == Buscar(fs, otro)
  {
    var f := ConProximo(SiguienteNumero(d).resultado.value + 1);
    assert f(d) == SiguienteNumero(d).despues by {
      assert SiguienteNumero(d) == Paso(Ok(Cursor(d)), d.(proximo := Some(Cursor(d) + 1)));
    }
    BuscarModificadas(fs, id, f, otro);
  }

  /** Rewriting rows through `actualizar` or the cursor update never touches type or priority. */
  lemma {:induction false} VolcarConservaClaves(fs: seq<Fila<RangoDatos>>, id: nat, f: RangoDatos -> RangoDatos)
    requires ClavesUnicas(fs)
    requires forall x :: f(x).tipo == x.tipo && f(x).orden == x.orden
    ensures ClavesUnicas(Modificadas(fs, id, f))
  {
  }

  class RangoCheque {
    var id: nat
    var datos: RangoDatos

    constructor (id: nat, datos: RangoDatos)
      ensures this.id == id && this.datos == datos
    {
      this.id := id;
      this.datos := datos;
    }

    /** `RangoCheque.crear`: validates, inserts the row and returns the object. */
    static method Crear(tabla: Tabla<RangoDatos>, tipo: string, orden: int, inicial: int, final: int)
      returns (r: Result<RangoCheque, ErrorRango>)
      requires tabla.Valida()
      modifies tabla
      ensures tabla.Valida()
      ensures match NuevoRango(old(tabla.filas), tipo, orden, inicial, final)
        case Err(e) => r == Err(e) && tabla.filas == old(tabla.filas) && tabla.ultimoId == old(tabla.ultimoId)
        case Ok(d) =>
          && r.Ok? && fresh(r.value) && r.value.datos == d && r.value.id == tabla.ultimoId
          && tabla.filas == old(tabla.filas) + [Fila(r.value.id, d)]
    {
      var nuevo := NuevoRango(tabla.filas, tipo, orden, inicial, final);
      if nuevo.Err? {
        return Err(nuevo.error);
      }
      var id := tabla.Insertar(nuevo.value);
      var rango := new RangoCheque(id, nuevo.value);
      return Ok(rango);
    }

    /** `obtener_siguiente_numero`: hands out the cursor and writes the advanced cursor to the row. */
    method ObtenerSiguienteNumero(tabla: Tabla<RangoDatos>) returns (r: Result<int, ErrorRango>)
      requires tabla.Valida()
      modifies this, tabla
      ensures tabla.Valida() && id == old(id) && tabla.ultimoId == old(tabla.ultimoId)
      ensures r == SiguienteNumero(old(datos)).resultado && datos == SiguienteNumero(old(datos)).despues
      ensures r.Ok? ==> tabla.filas == Modificadas(old(tabla.filas), id, ConProximo(r.value + 1))
      ensures r.Err? ==> tabla.filas == old(tabla.filas)
    {
      if !datos.activo {
        return Err(RangoInactivo);
      }
      if datos.proximo.None? {
        datos := datos.(proximo := Some(datos.inicial));
      }
      var actual := datos.proximo.value;
      if actual > datos.final {
        return Err(RangoAgotado);
      }
      tabla.Modificar(id, ConProximo(actual + 1));
      datos := datos.(proximo := Some(actual + 1));
      return Ok(actual);
    }

    /** `actualizar`: fails without a key, else writes the object's fields to its row. */
    method Actualizar(tabla: Tabla<RangoDatos>) returns (r: Result<(), ErrorRango>)
      requires tabla.Valida()
      modifies tabla
      ensures tabla.Valida() && tabla.ultimoId == old(tabla.ultimoId)
      ensures r.Err? <==> id == 0
      ensures tabla.filas == if id == 0 then old(tabla.filas) else Modificadas(old(tabla.filas), id, Volcar(datos))
    {
      if id == 0 {
        return Err(SinId);
      }
      tabla.Modificar(id, Volcar(datos));
      return Ok(());
    }

    /** `desactivar`. */
    method Desactivar(tabla: Tabla<RangoDatos>) returns (r: Result<(), ErrorRango>)
      requires tabla.Valida()
      modifies this, tabla
      ensures tabla.Valida() && tabla.ultimoId == old(tabla.ultimoId)
      ensures id == old(id) && datos == old(datos).(activo := false)
      ensures r.Err? <==> id == 0
      ensures tabla.filas == if id == 0 then old(tabla.filas) else Modificadas(old(tabla.filas), id, Volcar(datos))
    {
      datos := datos.(activo := false);
      r := Actualizar(tabla);
    }

    /** `activar`. */
    method Activar(tabla: Tabla<RangoDatos>) returns (r: Result<(), ErrorRango>)
      requires tabla.Valida()
      modifies this, tabla
      ensures tabla.Valida() && tabla.ultimoId == old(tabla.ultimoId)
      ensures id == old(id) && datos == old(datos).(activo := true)
      ensures r.Err? <==> id == 0
      ensures tabla.filas == if id == 0 then old(tabla.filas) else Modificadas(old(tabla.filas), id, Volcar(datos))
    {
      datos := datos.(activo := true);
      r := Actualizar(tabla);
    }
  }
}
