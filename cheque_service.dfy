/**
 * `ChequeService`: taking check numbers from the ranges with fallover from
 * an exhausted range to the next one by priority, and numbering the check
 * payments of a batch, recording each issued number in the ledger.
 */
module ServicioCheques {

  import opened Wrappers
  import opened Tablas
  import opened Esquema
  import opened Rangos
  import opened Cheques

  datatype ErrorServicio =
    | SinRangos(tipo: string)
    | RangosAgotados(tipo: string)
    | ErrorAlCrear(causa: ErrorCheque)

  // ---------------------------------------------------------------------------
  // obtener_proximo_numero
  // ---------------------------------------------------------------------------

  /** The outcome of taking a number and the range rows afterwards. */
  datatype Toma = Toma(resultado: Result<int, ErrorServicio>, rangos: seq<Fila<RangoDatos>>)

  /**
   * `obtener_proximo_numero(tipo)` on the range rows: the active ranges of
   * exactly `tipo` (the service does not lower-case it) in priority order;
   * none is an error, and so is finding every one exhausted; otherwise the
   * first with a number left hands out its cursor and only its cursor moves.
   */
  function TomarNumero(filas: seq<Fila<RangoDatos>>, tipo: string): Toma {
    var cs := Candidatos(filas, tipo);
    var k := PrimerDisponible(cs);
    if cs == [] then Toma(Err(SinRangos(tipo)), filas)
    else if k == |cs| then Toma(Err(RangosAgotados(tipo)), filas)
    else Toma(Ok(Cursor(cs[k].datos)), Modificadas(filas, cs[k].id, ConProximo(Cursor(cs[k].datos) + 1)))
  }

  /**
   * What the fallover allocation promises: an error leaves every range as it
   * was, "no ranges" exactly when no active range has the type, "exhausted"
   * exactly when there are some and none has a number left; a number comes
   * from an active range of the type with a number left and the least
   * priority among those, and only that range's cursor advances, by one.
   */
  lemma {:induction false} TomarNumeroCorrecto(filas: seq<Fila<RangoDatos>>, tipo: string)
    ensures TomarNumero(filas, tipo).resultado.Err? ==> TomarNumero(filas, tipo).rangos == filas
    ensures TomarNumero(filas, tipo).resultado == Err(SinRangos(tipo)) <==>
      forall x :: x in filas ==> !(x.datos.tipo == tipo && x.datos.activo)
    ensures TomarNumero(filas, tipo).resultado == Err(RangosAgotados(tipo)) <==>
      && (exists x :: x in filas && x.datos.tipo == tipo && x.datos.activo)
      && (forall x :: x in filas && x.datos.tipo == tipo && x.datos.activo ==> !Disponible(x.datos))
    ensures TomarNumero(filas, tipo).resultado.Ok? ==>
      exists f :: f in filas && f.datos.tipo == tipo && f.datos.activo && Disponible(f.datos)
        && TomarNumero(filas, tipo).resultado.value == Cursor(f.datos)
        && TomarNumero(filas, tipo).rangos == Modificadas(filas, f.id, ConProximo(Cursor(f.datos) + 1))
        && forall x :: x in filas && x.datos.tipo == tipo && x.datos.activo && Disponible(x.datos) ==> f.datos.orden <= x.datos.orden
  {
    var cs := Candidatos(filas, tipo);
    CandidatosCorrecto(filas, tipo);
    PrimerCandidatoDisponible(filas, tipo);
    if cs != [] {
      assert cs[0] in cs;
    }
  }

  /**
   * For a type already in lower case the service and
   * `RangoCheque.obtener_rango_activo` pick the same range, and the number
   * handed out is that range's cursor.
   */
  lemma {:induction false} TomarNumeroComoRangoActivo(filas: seq<Fila<RangoDatos>>, tipo: string)
    requires Strings.Lower(tipo) == tipo
    ensures TomarNumero(filas, tipo).resultado.Ok? <==> ObtenerRangoActivo(filas, tipo).Some?
    ensures TomarNumero(filas, tipo).resultado.Ok? ==>
      TomarNumero(filas, tipo).resultado.value == ObtenerRangoActivo(filas, tipo).value.datos.proximo.value
  {
  }

  /** Where the scan over the ordered candidates stops decides the outcome. */
  lemma {:induction false} TomarNumeroEn(filas: seq<Fila<RangoDatos>>, tipo: string, i: nat)
    requires Candidatos(filas, tipo) != [] && i <= |Candidatos(filas, tipo)|
    requires forall j :: 0 <= j < i ==> !Disponible(Candidatos(filas, tipo)[j].datos)
    requires i < |Candidatos(filas, tipo)| ==> Disponible(Candidatos(filas, tipo)[i].datos)
    ensures i == |Candidatos(filas, tipo)| ==> TomarNumero(filas, tipo) == Toma(Err(RangosAgotados(tipo)), filas)
    ensures i < |Candidatos(filas, tipo)| ==>
      var f := Candidatos(filas, tipo)[i];
      TomarNumero(filas, tipo) == Toma(Ok(Cursor(f.datos)), Modificadas(filas, f.id, ConProximo(Cursor(f.datos) + 1)))
  {
    PrimerDisponibleEn(Candidatos(filas, tipo), i);
  }

  /** `ChequeService.obtener_proximo_numero`. */
  method ObtenerProximoNumero(rangos: Tabla<RangoDatos>, tipo: string) returns (r: Result<int, ErrorServicio>)
    requires rangos.Valida()
    modifies rangos
    ensures rangos.Valida() && rangos.ultimoId == old(rangos.ultimoId)
    ensures r == TomarNumero(old(rangos.filas), tipo).resultado
    ensures rangos.filas == TomarNumero(old(rangos.filas), tipo).rangos
  {
    var cs := Candidatos(rangos.filas, tipo);
    if cs == [] {
      return Err(SinRangos(tipo));
    }
    var i := 0;
    while i < |cs|
      invariant 0 <= i <= |cs|
      invariant forall j :: 0 <= j < i ==> !Disponible(cs[j].datos)
      invariant rangos.filas == old(rangos.filas) && rangos.ultimoId == old(rangos.ultimoId)
    {
      var proximo := cs[i].datos.proximo.GetOr(cs[i].datos.inicial);
      if proximo <= cs[i].datos.final {
        TomarNumeroEn(rangos.filas, tipo, i);
        rangos.Modificar(cs[i].id, ConProximo(proximo + 1));
        return Ok(proximo);
      }
      i := i + 1;
    }
    TomarNumeroEn(rangos.filas, tipo, |cs|);
    return Err(RangosAgotados(tipo));
  }

  // ---------------------------------------------------------------------------
  // asignar_numeros_a_planilla
  // ---------------------------------------------------------------------------

  /** Modalidad 8 is a deferred-payment check; any other modalidad takes an ordinary one. */
  function TipoDeModalidad(modalidad: int): (t: string)
    ensures t in TiposCheque
    ensures t == "diferido" <==> modalidad == 8
  {
    if modalidad == 8 then "diferido" else "comun"
  }

  /** The stored state the allocation works on: range rows, ledger rows and the ledger's last key. */
  datatype Estado = Estado(rangos: seq<Fila<RangoDatos>>, cheques: seq<Fila<ChequeDatos>>, ultimoCheque: nat)

  /** One loop iteration: take a number for the item's check type, then record the check in the ledger. */
  function AsignarUno(e: Estado, planillaId: nat, item: Fila<ItemDatos>): (Result<int, ErrorServicio>, Estado) {
    var tipo := TipoDeModalidad(item.datos.modalidad);
    var t := TomarNumero(e.rangos, tipo);
    if t.resultado.Err? then (Err(t.resultado.error), e)
    else
      var n := t.resultado.value;
      var c := NuevoCheque(e.cheques, n, tipo, planillaId, 0, Some(item.datos.beneficiario), Some(item.datos.importe),
                           item.datos.fechaEmision, item.datos.fechaPagoDiferido);
      if c.Err? then (Err(ErrorAlCrear(c.error)), e.(rangos := t.rangos))
      else (Ok(n), Estado(t.rangos, e.cheques + [Fila(e.ultimoCheque + 1, c.value)], e.ultimoCheque + 1))
  }

  /** The ledger row `asignar_numeros_a_planilla` writes for an item numbered `n`. */
  function ChequeDeItem(n: int, planillaId: nat, item: ItemDatos): ChequeDatos {
    ChequeDatos(n, TipoDeModalidad(item.modalidad), Pendiente, 0, planillaId,
                Some(item.beneficiario), Some(item.importe), item.fechaEmision, item.fechaPagoDiferido)
  }

  /**
   * One iteration: the number comes from the ranges for the item's check
   * type; on success the ledger gains exactly the item's pending check under
   * the next key, a (number, type) pair it did not hold; on failure the ledger
   * is untouched. Whatever happens the ranges are as the take left them: a
   * failed take changes nothing at all, and a number taken for a check the
   * ledger then refuses stays taken.
   */
  lemma {:induction false} AsignarUnoCorrecto(e: Estado, planillaId: nat, item: Fila<ItemDatos>)
    ensures var (r, e1) := AsignarUno(e, planillaId, item);
      var t := TomarNumero(e.rangos, TipoDeModalidad(item.datos.modalidad));
      && (r.Ok? ==> t.resultado == r)
      && e1.rangos == t.rangos
      && (t.resultado.Err? ==> e1 == e)
      && (r.Ok? ==>
            && e1 == Estado(t.rangos, e.cheques + [Fila(e.ultimoCheque + 1, ChequeDeItem(r.value, planillaId, item.datos))],
                            e.ultimoCheque + 1)
            && !Cheques.Existe(e.cheques, r.value, TipoDeModalidad(item.datos.modalidad)))
      && (r.Err? ==> e1.cheques == e.cheques && e1.ultimoCheque == e.ultimoCheque)
  {
    var tipo := TipoDeModalidad(item.datos.modalidad);
    TiposNormalizados(tipo);
    var t := TomarNumero(e.rangos, tipo);
    if t.resultado.Ok? {
      var d := item.datos;
      var c := NuevoCheque(e.cheques, t.resultado.value, tipo, planillaId, 0, Some(d.beneficiario), Some(d.importe),
                           d.fechaEmision, d.fechaPagoDiferido);
      NuevoChequeCorrecto(e.cheques, t.resultado.value, tipo, planillaId, 0, Some(d.beneficiario), Some(d.importe),
                          d.fechaEmision, d.fechaPagoDiferido);
      if c.Ok? {
        assert c.value == ChequeDeItem(t.resultado.value, planillaId, d);
      }
    }
  }

  datatype Asignacion = Asignacion(resultado: Result<map<nat, int>, ErrorServicio>, estado: Estado)

  /** The loop over the items, in list order, stopping at the first error with nothing undone. */
  function Asignar(e: Estado, planillaId: nat, items: seq<Fila<ItemDatos>>, hechas: map<nat, int>): Asignacion
    decreases |items|
  {
    if items == [] then Asignacion(Ok(hechas), e)
    else
      var (r, e1) := AsignarUno(e, planillaId, items[0]);
      if r.Err? then Asignacion(Err(r.error), e1)
      else Asignar(e1, planillaId, items[1..], hechas[items[0].id := r.value])
  }

  /** `AsignarUno` as its two steps: the number taken from the ranges, then the check recorded in the ledger. */
  lemma {:induction false} AsignarUnoPorPasos(e: Estado, planillaId: nat, item: Fila<ItemDatos>)
    ensures var tipo := TipoDeModalidad(item.datos.modalidad);
      var t := TomarNumero(e.rangos, tipo);
      && (t.resultado.Err? ==> AsignarUno(e, planillaId, item) == (Err(t.resultado.error), e))
      && (t.resultado.Ok? ==>
            var c := NuevoCheque(e.cheques, t.resultado.value, tipo, planillaId, 0, Some(item.datos.beneficiario),
                                 Some(item.datos.importe), item.datos.fechaEmision, item.datos.fechaPagoDiferido);
            && (c.Err? ==> AsignarUno(e, planillaId, item) == (Err(ErrorAlCrear(c.error)), e.(rangos := t.rangos)))
            && (c.Ok? ==>
                  AsignarUno(e, planillaId, item)
                  == (Ok(t.resultado.value), Estado(t.rangos, e.cheques + [Fila(e.ultimoCheque + 1, c.value)], e.ultimoCheque + 1))))
  {
  }

  /** The body of the loop of `asignar_numeros_a_planilla` for one item, on the tables. */
  method NumerarItem(rangos: Tabla<RangoDatos>, cheques: Tabla<ChequeDatos>, planillaId: nat, item: Fila<ItemDatos>)
    returns (r: Result<int, ErrorServicio>)
    requires rangos.Valida() && cheques.Valida()
    modifies rangos, cheques
    ensures rangos.Valida() && cheques.Valida() && rangos.ultimoId == old(rangos.ultimoId)
    ensures (r, Estado(rangos.filas, cheques.filas, cheques.ultimoId))
      == AsignarUno(Estado(old(rangos.filas), old(cheques.filas), old(cheques.ultimoId)), planillaId, item)
  {
    ghost var e := Estado(rangos.filas, cheques.filas, cheques.ultimoId);
    var tipo := TipoDeModalidad(item.datos.modalidad);
    var numero := ObtenerProximoNumero(rangos, tipo);
    AsignarUnoPorPasos(e, planillaId, item);
    if numero.Err? {
      return Err(numero.error);
    }
    assert cheques.filas == e.cheques && cheques.ultimoId == e.ultimoCheque;
    var cheque := Cheque.Crear(cheques, numero.value, tipo, planillaId, 0, Some(item.datos.beneficiario),
                               Some(item.datos.importe), item.datos.fechaEmision, item.datos.fechaPagoDiferido);
    if cheque.Err? {
      return Err(ErrorAlCrear(cheque.error));
    }
    return Ok(numero.value);
  }

  /** `ChequeService.asignar_numeros_a_planilla`. */
  method AsignarNumerosAPlanilla(rangos: Tabla<RangoDatos>, cheques: Tabla<ChequeDatos>, planillaId: nat,
                                 items: seq<Fila<ItemDatos>>)
    returns (r: Result<map<nat, int>, ErrorServicio>)
    requires rangos.Valida() && cheques.Valida()
    modifies rangos, cheques
    ensures rangos.Valida() && cheques.Valida() && rangos.ultimoId == old(rangos.ultimoId)
    ensures var a := Asignar(Estado(old(rangos.filas), old(cheques.filas), old(cheques.ultimoId)), planillaId, items, map[]);
      r == a.resultado && a.estado == Estado(rangos.filas, cheques.filas, cheques.ultimoId)
  {
    var asignaciones: map<nat, int> := map[];
    var i := 0;
    while i < |items|
      invariant 0 <= i <= |items|
      invariant rangos.Valida() && cheques.Valida() && rangos.ultimoId == old(rangos.ultimoId)
      invariant Asignar(Estado(old(rangos.filas), old(cheques.filas), old(cheques.ultimoId)), planillaId, items, map[])
        == Asignar(Estado(rangos.filas, cheques.filas, cheques.ultimoId), planillaId, items[i..], asignaciones)
    {
      assert items[i..][0] == items[i] && items[i..][1..] == items[i + 1..];
      var numero := NumerarItem(rangos, cheques, planillaId, items[i]);
      if numero.Err? {
        return Err(numero.error);
      }
      asignaciones := asignaciones[items[i].id := numero.value];
      i := i + 1;
    }
    return Ok(asignaciones);
  }

  // ---------------------------------------------------------------------------
  // Properties of the allocation loop
  // ---------------------------------------------------------------------------

  /** The keys of a batch's items. */
  function Claves(items: seq<Fila<ItemDatos>>): set<nat> {
    set i | 0 <= i < |items| :: items[i].id
  }

  /**
   * No rollback: whatever happens, the ledger only grows, by at most one row
   * per item, and an error stops the loop before the last row could be added.
   */
  lemma {:induction false} AsignarSinDeshacer(e: Estado, planillaId: nat, items: seq<Fila<ItemDatos>>, hechas: map<nat, int>)
    ensures var a := Asignar(e, planillaId, items, hechas);
      && e.cheques <= a.estado.cheques
      && |a.estado.cheques| <= |e.cheques| + |items|
      && (a.resultado.Err? ==> |a.estado.cheques| < |e.cheques| + |items|)
    decreases |items|
  {
    if items != [] {
      var (r, e1) := AsignarUno(e, planillaId, items[0]);
      AsignarUnoCorrecto(e, planillaId, items[0]);
      if r.Ok? {
        AsignarSinDeshacer(e1, planillaId, items[1..], hechas[items[0].id := r.value]);
      }
    }
  }

  /** The range rows after one take for each of the first `n` items, in list order, each for the item's check type. */
  function Tomas(rangos: seq<Fila<RangoDatos>>, items: seq<Fila<ItemDatos>>, n: nat): seq<Fila<RangoDatos>>
    decreases n
  {
    if n == 0 || items == [] then rangos
    else Tomas(TomarNumero(rangos, TipoDeModalidad(items[0].datos.modalidad)).rangos, items[1..], n - 1)
  }

  /**
   * No rollback of the ranges either: for the outcome `a` of the loop, a
   * batch that records `k` checks and then fails leaves the ranges as the
   * takes for its first `k + 1` items leave them, so the number taken for the
   * failing item stays used; a batch that succeeds records one check per item
   * and leaves the ranges as one take per item leaves them.
   */
  lemma {:induction false} AsignarAvanzaRangos(e: Estado, planillaId: nat, items: seq<Fila<ItemDatos>>, hechas: map<nat, int>,
                                               a: Asignacion)
    requires a == Asignar(e, planillaId, items, hechas)
    ensures 0 <= |a.estado.cheques| - |e.cheques| <= |items|
    ensures a.resultado.Ok? ==> |a.estado.cheques| - |e.cheques| == |items|
    ensures a.resultado.Ok? ==> a.estado.rangos == Tomas(e.rangos, items, |items|)
    ensures a.resultado.Err? ==> |a.estado.cheques| - |e.cheques| < |items|
    ensures a.resultado.Err? ==> a.estado.rangos == Tomas(e.rangos, items, |a.estado.cheques| - |e.cheques| + 1)
    decreases |items|
  {
    if items != [] {
      var p := AsignarUno(e, planillaId, items[0]);
      assert p.1.rangos == TomarNumero(e.rangos, TipoDeModalidad(items[0].datos.modalidad)).rangos
        && (p.0.Err? ==> p.1.cheques == e.cheques)
        && (p.0.Ok? ==> |p.1.cheques| == |e.cheques| + 1) by {
        AsignarUnoCorrecto(e, planillaId, items[0]);
      }
      if p.0.Err? {
        assert a == Asignacion(Err(p.0.error), p.1);
      } else {
        assert a == Asignar(p.1, planillaId, items[1..], hechas[items[0].id := p.0.value]);
        AsignarAvanzaRangos(p.1, planillaId, items[1..], hechas[items[0].id := p.0.value], a);
        RangosDelResto(e.rangos, p.1.rangos, |e.cheques|, |p.1.cheques|, items, a);
      }
    }
  }

  /**
   * The induction step of `AsignarAvanzaRangos`: from what the rest of the
   * items did after the first was numbered, leaving ranges `r1` and `n1`
   * ledger rows, to what the whole list did from `r0` and `n0` rows.
   */
  lemma {:induction false} RangosDelResto(r0: seq<Fila<RangoDatos>>, r1: seq<Fila<RangoDatos>>, n0: nat, n1: nat,
                                          items: seq<Fila<ItemDatos>>, a: Asignacion)
    requires items != []
    requires r1 == TomarNumero(r0, TipoDeModalidad(items[0].datos.modalidad)).rangos
    requires n1 == n0 + 1
    requires 0 <= |a.estado.cheques| - n1 <= |items[1..]|
    requires a.resultado.Ok? ==> |a.estado.cheques| - n1 == |items[1..]|
    requires a.resultado.Ok? ==> a.estado.rangos == Tomas(r1, items[1..], |items[1..]|)
    requires a.resultado.Err? ==> |a.estado.cheques| - n1 < |items[1..]|
    requires a.resultado.Err? ==> a.estado.rangos == Tomas(r1, items[1..], |a.estado.cheques| - n1 + 1)
    ensures 0 < |a.estado.cheques| - n0 <= |items|
    ensures a.resultado.Ok? ==> |a.estado.cheques| - n0 == |items|
    ensures a.resultado.Ok? ==> a.estado.rangos == Tomas(r0, items, |items|)
    ensures a.resultado.Err? ==> |a.estado.cheques| - n0 < |items|
    ensures a.resultado.Err? ==> a.estado.rangos == Tomas(r0, items, |a.estado.cheques| - n0 + 1)
  {
    var k := |a.estado.cheques| - n1;
    if a.resultado.Err? {
      TomasUnPaso(r0, r1, items, k + 2);
      assert |a.estado.cheques| - n0 + 1 == k + 2;
    } else {
      TomasUnPaso(r0, r1, items, |items|);
    }
  }

  /** The first of `n` takes is the one for the first item. */
  lemma {:induction false} TomasUnPaso(r0: seq<Fila<RangoDatos>>, r1: seq<Fila<RangoDatos>>, items: seq<Fila<ItemDatos>>, n: nat)
    requires items != [] && n > 0
    requires r1 == TomarNumero(r0, TipoDeModalidad(items[0].datos.modalidad)).rangos
    ensures Tomas(r0, items, n) == Tomas(r1, items[1..], n - 1)
  {
  }

  lemma {:induction false} ClavesCons(items: seq<Fila<ItemDatos>>)
    requires items != []
    ensures Claves(items) == {items[0].id} + Claves(items[1..])
  {
    var resto := items[1..];
    forall k | k in Claves(items) ensures k in {items[0].id} + Claves(resto) {
      var i :| 0 <= i < |items| && items[i].id == k;
      if i > 0 {
        assert resto[i - 1].id == k;
      }
    }
    forall k | k in Claves(resto) ensures k in Claves(items) {
      var i :| 0 <= i < |resto| && resto[i].id == k;
      assert items[i + 1].id == k;
    }
  }

  /** The ledger rows from position `desde` on are, one by one, the pending checks of `items` numbered by `numeros`. */
  predicate RegistraItems(cheques: seq<Fila<ChequeDatos>>, desde: nat, planillaId: nat, items: seq<Fila<ItemDatos>>, numeros: map<nat, int>) {
    && |cheques| == desde + |items|
    && forall i :: 0 <= i < |items| ==>
         items[i].id in numeros && cheques[desde + i].datos == ChequeDeItem(numeros[items[i].id], planillaId, items[i].datos)
  }

  /** Registering the first item in front of the rest registers the whole batch. */
  lemma {:induction false} RegistraItemsCons(cheques: seq<Fila<ChequeDatos>>, desde: nat, planillaId: nat, items: seq<Fila<ItemDatos>>,
                          numeros: map<nat, int>)
    requires items != [] && desde < |cheques|
    requires items[0].id in numeros
    requires cheques[desde].datos == ChequeDeItem(numeros[items[0].id], planillaId, items[0].datos)
    requires RegistraItems(cheques, desde + 1, planillaId, items[1..], numeros)
    ensures RegistraItems(cheques, desde, planillaId, items, numeros)
  {
    forall i | 1 <= i < |items|
      ensures items[i].id in numeros && cheques[desde + i].datos == ChequeDeItem(numeros[items[i].id], planillaId, items[i].datos)
    {
      assert items[1..][i - 1] == items[i];
    }
  }

  /** A row appended after `antes` for the first item, in front of the rows of the rest, registers the whole batch. */
  lemma {:induction false} RegistraPaso(antes: seq<Fila<ChequeDatos>>, fila: Fila<ChequeDatos>, despues: seq<Fila<ChequeDatos>>,
                                        planillaId: nat, items: seq<Fila<ItemDatos>>, numeros: map<nat, int>, n: int)
    requires items != [] && antes + [fila] <= despues
    requires fila.datos == ChequeDeItem(n, planillaId, items[0].datos)
    requires items[0].id in numeros && numeros[items[0].id] == n
    requires RegistraItems(despues, |antes| + 1, planillaId, items[1..], numeros)
    ensures RegistraItems(despues, |antes|, planillaId, items, numeros)
  {
    assert despues[|antes|] == (antes + [fila])[|antes|];
    RegistraItemsCons(despues, |antes|, planillaId, items, numeros);
  }

  /** With distinct keys, the rest of a batch has distinct keys and none equal to the first. */
  lemma {:induction false} ClavesDistintas(items: seq<Fila<ItemDatos>>)
    requires items != []
    requires forall i, j :: 0 <= i < j < |items| ==> items[i].id != items[j].id
    ensures forall i, j :: 0 <= i < j < |items[1..]| ==> items[1..][i].id != items[1..][j].id
    ensures items[0].id !in Claves(items[1..])
  {
    var resto := items[1..];
    forall i, j | 0 <= i < j < |resto| ensures resto[i].id != resto[j].id {
      assert resto[i] == items[i + 1] && resto[j] == items[j + 1];
    }
    forall j | 0 <= j < |resto| ensures resto[j].id != items[0].id {
      assert resto[j] == items[j + 1];
    }
  }

  /**
   * On success every item's key is mapped to a number, and a key outside the
   * batch keeps the number it already had.
   */
  lemma {:induction false} AsignarNumeraCadaItem(e: Estado, planillaId: nat, items: seq<Fila<ItemDatos>>, hechas: map<nat, int>)
    requires Asignar(e, planillaId, items, hechas).resultado.Ok?
    ensures var m := Asignar(e, planillaId, items, hechas).resultado.value;
      && m.Keys == hechas.Keys + Claves(items)
      && (forall k :: k in hechas && k !in Claves(items) ==> m[k] == hechas[k])
    decreases |items|
  {
    if items != [] {
      var (r, e1) := AsignarUno(e, planillaId, items[0]);
      var resto := items[1..];
      var h1 := hechas[items[0].id := r.value];
      ClavesCons(items);
      AsignarNumeraCadaItem(e1, planillaId, resto, h1);
    }
  }

  /**
   * On success the ledger gained one pending check per item, in item order,
   * carrying the number the item was mapped to, the item's check type, the
   * batch key, the payee, the amount and the dates.
   */
  lemma {:induction false} AsignarRegistraCadaItem(e: Estado, planillaId: nat, items: seq<Fila<ItemDatos>>, hechas: map<nat, int>)
    requires Asignar(e, planillaId, items, hechas).resultado.Ok?
    requires forall i, j :: 0 <= i < j < |items| ==> items[i].id != items[j].id
    ensures var a := Asignar(e, planillaId, items, hechas);
      RegistraItems(a.estado.cheques, |e.cheques|, planillaId, items, a.resultado.value)
    decreases |items|
  {
    if items != [] {
      var (r, e1) := AsignarUno(e, planillaId, items[0]);
      var resto := items[1..];
      var h1 := hechas[items[0].id := r.value];
      AsignarUnoCorrecto(e, planillaId, items[0]);
      ClavesDistintas(items);
      AsignarRegistraCadaItem(e1, planillaId, resto, h1);
      AsignarNumeraCadaItem(e1, planillaId, resto, h1);
      AsignarSinDeshacer(e1, planillaId, resto, h1);
      var a := Asignar(e1, planillaId, resto, h1);
      RegistraPaso(e.cheques, Fila(e.ultimoCheque + 1, ChequeDeItem(r.value, planillaId, items[0].datos)),
                   a.estado.cheques, planillaId, items, a.resultado.value, r.value);
    }
  }

  /** The ledger never holds the same (number, type) twice, however many batches are numbered. */
  lemma {:induction false} AsignarConservaUnicidad(e: Estado, planillaId: nat, items: seq<Fila<ItemDatos>>, hechas: map<nat, int>)
    requires NumerosUnicos(e.cheques)
    ensures NumerosUnicos(Asignar(e, planillaId, items, hechas).estado.cheques)
    decreases |items|
  {
    if items != [] {
      var (r, e1) := AsignarUno(e, planillaId, items[0]);
      AsignarUnoCorrecto(e, planillaId, items[0]);
      if r.Ok? {
        NuevoChequeConservaUnicidad(e.cheques, ChequeDeItem(r.value, planillaId, items[0].datos), e.ultimoCheque + 1);
        AsignarConservaUnicidad(e1, planillaId, items[1..], hechas[items[0].id := r.value]);
      }
    }
  }
}
