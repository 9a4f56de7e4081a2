/**
 * The numbering and row-filling part of `ExcelService.generar_planilla`:
 * the batch's check items (modes 6 and 8) are sent for numbering, each
 * check item's record receives its number, and one sheet row is written per
 * item from row 4 on. The workbook is modelled as the sequence of its data
 * rows; styling, column widths, the file name and saving are not modelled.
 */
module Excel {

  import opened Wrappers
  import opened Tablas
  import opened Esquema
  import opened Planillas
  import opened ServicioCheques

  datatype ErrorExcel =
    | PlanillaInexistente
    | ErrorAsignacion(causa: ErrorServicio)
    | SinAtributoReferencia
    | ErrorAlMarcar(motivo: ErrorPlanilla)

  /**
   * An item record as `obtener_items` returns it; `numeroCheque` is the
   * `numero_cheque` key, absent until generation writes it.
   */
  datatype Registro = Registro(item: Fila<ItemDatos>, numeroCheque: Option<int>)

  /** Column 9, "Cuenta de pago - CBU o Nº Cheque". */
  datatype Cuenta = NumeroCheque(numero: int) | CuentaPago(cuenta: Option<string>)

  /** One data row of the sheet: its row number and columns 2 to 13. */
  datatype Renglon = Renglon(
    fila: nat,
    tipoDocumento: string,
    numeroDocumento: string,
    sucursal: string,
    identificacionPago: string,
    beneficiario: string,
    importe: int,
    cuentaDebito: string,
    cuenta: Cuenta,
    modalidad: int,
    marca: Option<string>,
    fechaEmision: Option<string>,
    fechaPagoDiferido: Option<string>)

  // ---------------------------------------------------------------------------
  // Selecting and numbering the check items
  // ---------------------------------------------------------------------------

  function EsFilaCheque(): Fila<ItemDatos> -> bool {
    (f: Fila<ItemDatos>) => EsCheque(f.datos)
  }

  /** `items_cheques`: the items paid by check, in the order of `items`. */
  function ItemsCheque(its: seq<Fila<ItemDatos>>): seq<Fila<ItemDatos>> {
    Donde(its, EsFilaCheque())
  }

  /**
   * The position in `items` of each element of `items_cheques`, counted
   * from `base`: the comprehension keeps the very same records, so a write
   * through one list is seen through the other.
   */
  function Posiciones(its: seq<Fila<ItemDatos>>, base: nat): seq<nat> {
    Indices(its, EsFilaCheque(), base)
  }

  /** Each position names the record `items_cheques` holds at the same place. */
  lemma {:induction false} PosicionesSeleccion(its: seq<Fila<ItemDatos>>, base: nat)
    ensures var ps := Posiciones(its, base);
      && |ps| == |ItemsCheque(its)|
      && (forall k :: 0 <= k < |ps| ==> base <= ps[k] < base + |its| && ItemsCheque(its)[k] == its[ps[k] - base])
  {
    IndicesDonde(its, EsFilaCheque(), base);
    assert EnSitio(its, ItemsCheque(its), Posiciones(its, base), base);
  }

  /** The positions are exactly those of the check items. */
  lemma {:induction false} PosicionesCheques(its: seq<Fila<ItemDatos>>, base: nat)
    ensures forall x :: x in Posiciones(its, base) ==> base <= x
    ensures forall i :: 0 <= i < |its| ==> (base + i in Posiciones(its, base) <==> EsCheque(its[i].datos))
  {
    IndicesExactos(its, EsFilaCheque(), base);
  }

  /** With no check item selected, no item is a check. */
  lemma {:induction false} SinCheques(its: seq<Fila<ItemDatos>>)
    requires ItemsCheque(its) == []
    ensures forall i :: 0 <= i < |its| ==> !EsCheque(its[i].datos)
  {
    DondeCompleto(its, EsFilaCheque());
    forall i | 0 <= i < |its|
      ensures !EsCheque(its[i].datos)
    {
      assert its[i] in its;
    }
  }

  /** A successful numbering maps the key of every check item. */
  lemma {:induction false} NumerosCubren(e: Estado, planillaId: nat, its: seq<Fila<ItemDatos>>)
    requires Asignar(e, planillaId, ItemsCheque(its), map[]).resultado.Ok?
    ensures forall i :: 0 <= i < |its| && EsCheque(its[i].datos) ==>
      its[i].id in Asignar(e, planillaId, ItemsCheque(its), map[]).resultado.value
  {
    var sel := ItemsCheque(its);
    DondeCompleto(its, EsFilaCheque());
    AsignarNumeraCadaItem(e, planillaId, sel, map[]);
    forall i | 0 <= i < |its| && EsCheque(its[i].datos)
      ensures its[i].id in Claves(sel)
    {
      assert its[i] in its;
      var j :| 0 <= j < |sel| && sel[j] == its[i];
    }
  }

  /** `item['numero_cheque'] = asignaciones[item['id']]`. */
  function Anotado(r: Registro, numeros: map<nat, int>): Registro
    requires r.item.id in numeros
  {
    r.(numeroCheque := Some(numeros[r.item.id]))
  }

  /** The records after numbering: the check items carry their number, the others no `numero_cheque`. */
  function Registros(its: seq<Fila<ItemDatos>>, numeros: map<nat, int>): (r: seq<Registro>)
    requires forall i :: 0 <= i < |its| && EsCheque(its[i].datos) ==> its[i].id in numeros
    ensures |r| == |its|
    ensures forall i :: 0 <= i < |its| ==> (r[i].numeroCheque.Some? <==> EsCheque(its[i].datos))
  {
    seq(|its|, i requires 0 <= i < |its| =>
      if EsCheque(its[i].datos) then Anotado(Registro(its[i], None), numeros) else Registro(its[i], None))
  }

  /** Counted from 0, the positions are those of the check items. */
  lemma {:induction false} PosicionesDeCheques(its: seq<Fila<ItemDatos>>)
    ensures forall i :: 0 <= i < |its| ==> (i in Posiciones(its, 0) <==> EsCheque(its[i].datos))
  {
    PosicionesCheques(its, 0);
  }

  /** Writing the numbers at the positions of the check items gives the numbered records. */
  lemma {:induction false} AnotadosSonRegistros(despues: seq<Registro>, its: seq<Fila<ItemDatos>>, ps: seq<nat>, numeros: map<nat, int>)
    requires |despues| == |its|
    requires forall i :: 0 <= i < |its| ==> (i in ps <==> EsCheque(its[i].datos))
    requires forall i :: 0 <= i < |its| && EsCheque(its[i].datos) ==> its[i].id in numeros
    requires forall i :: 0 <= i < |its| ==>
      despues[i] == if i in ps then Anotado(Registro(its[i], None), numeros) else Registro(its[i], None)
    ensures despues == Registros(its, numeros)
  {
  }

  /**
   * The loop over `items_cheques`, writing through the shared records: the
   * records at the listed positions get the number of their key, the others
   * are left as they were.
   */
  method AnotarNumeros(registros: array<Registro>, posiciones: seq<nat>, numeros: map<nat, int>)
    requires forall k :: 0 <= k < |posiciones| ==> posiciones[k] < registros.Length
    requires forall i :: 0 <= i < registros.Length && i in posiciones ==> registros[i].item.id in numeros
    modifies registros
    ensures forall i :: 0 <= i < registros.Length ==>
      registros[i] == if i in posiciones then Anotado(old(registros[i]), numeros) else old(registros[i])
  {
    for k := 0 to |posiciones|
      invariant forall i :: 0 <= i < registros.Length ==> registros[i].item == old(registros[i]).item
      invariant forall i :: 0 <= i < registros.Length ==>
        registros[i] == if i in posiciones[..k] then Anotado(old(registros[i]), numeros) else old(registros[i])
    {
      assert posiciones[..k + 1] == posiciones[..k] + [posiciones[k]];
      var i := posiciones[k];
      registros[i] := registros[i].(numeroCheque := Some(numeros[registros[i].item.id]));
    }
    assert posiciones[..|posiciones|] == posiciones;
  }

  /**
   * Lines 36-37 on the records of `items`: every check item's record gets
   * the number of its key, written through its position.
   */
  method NumerarRegistros(registros: array<Registro>, its: seq<Fila<ItemDatos>>, numeros: map<nat, int>)
    requires registros.Length == |its|
    requires forall i :: 0 <= i < |its| ==> registros[i] == Registro(its[i], None)
    requires forall i :: 0 <= i < |its| && EsCheque(its[i].datos) ==> its[i].id in numeros
    modifies registros
    ensures registros[..] == Registros(its, numeros)
  {
    PosicionesSeleccion(its, 0);
    PosicionesDeCheques(its);
    var ps := Posiciones(its, 0);
    AnotarNumeros(registros, ps, numeros);
    AnotadosSonRegistros(registros[..], its, ps, numeros);
  }

  // ---------------------------------------------------------------------------
  // Writing the rows
  // ---------------------------------------------------------------------------

  /** The cells written for one record at row `fila`: the check number for modes 6 and 8, the payee account otherwise. */
  function RenglonDe(p: PlanillaDatos, r: Registro, fila: nat): Renglon
    requires EsCheque(r.item.datos) ==> r.numeroCheque.Some?
  {
    var d := r.item.datos;
    Renglon(fila, d.tipoDocumento, d.numeroDocumento, p.sucursal, d.identificacionPago, d.beneficiario, d.importe,
            p.cuentaDebito, if EsCheque(d) then NumeroCheque(r.numeroCheque.value) else CuentaPago(d.cuentaPago),
            d.modalidad, d.marca, d.fechaEmision, d.fechaPagoDiferido)
  }

  /** The data rows of the sheet for the given records. */
  function Hoja(p: PlanillaDatos, rs: seq<Registro>): seq<Renglon>
    requires forall i :: 0 <= i < |rs| && EsCheque(rs[i].item.datos) ==> rs[i].numeroCheque.Some?
  {
    seq(|rs|, k requires 0 <= k < |rs| => RenglonDe(p, rs[k], 4 + k))
  }

  /** The loop over `items` with the `fila` counter: one row per record, in order, from row 4 on. */
  method EscribirRenglones(p: PlanillaDatos, registros: array<Registro>) returns (hoja: seq<Renglon>)
    requires forall i :: 0 <= i < registros.Length && EsCheque(registros[i].item.datos) ==> registros[i].numeroCheque.Some?
    ensures |hoja| == registros.Length
    ensures forall k :: 0 <= k < registros.Length ==> hoja[k] == RenglonDe(p, registros[k], 4 + k)
  {
    hoja := [];
    var fila := 4;
    for k := 0 to registros.Length
      invariant fila == 4 + k && |hoja| == k
      invariant forall j :: 0 <= j < k ==> hoja[j] == RenglonDe(p, registros[j], 4 + j)
    {
      hoja := hoja + [RenglonDe(p, registros[k], fila)];
      fila := fila + 1;
    }
  }

  /** The rows written one by one are the sheet of the records. */
  lemma {:induction false} HojaEs(p: PlanillaDatos, rs: seq<Registro>, hoja: seq<Renglon>)
    requires forall i :: 0 <= i < |rs| && EsCheque(rs[i].item.datos) ==> rs[i].numeroCheque.Some?
    requires |hoja| == |rs| && forall k :: 0 <= k < |rs| ==> hoja[k] == RenglonDe(p, rs[k], 4 + k)
    ensures hoja == Hoja(p, rs)
  {
  }

  // ---------------------------------------------------------------------------
  // The whole preparation, as a function of the tables
  // ---------------------------------------------------------------------------

  datatype Preparacion = Preparacion(resultado: Result<seq<Renglon>, ErrorExcel>, estado: Estado)

  /** Lines 27-33: the check items are numbered, unless there are none, in which case nothing happens. */
  function Numeracion(its: seq<Fila<ItemDatos>>, planillaId: nat, e: Estado): Asignacion {
    var sel := ItemsCheque(its);
    if sel == [] then Asignacion(Ok(map[]), e) else Asignar(e, planillaId, sel, map[])
  }

  /** A successful numbering covers every check item. */
  lemma {:induction false} NumeracionCubre(its: seq<Fila<ItemDatos>>, planillaId: nat, e: Estado)
    requires Numeracion(its, planillaId, e).resultado.Ok?
    ensures forall i :: 0 <= i < |its| && EsCheque(its[i].datos) ==> its[i].id in Numeracion(its, planillaId, e).resultado.value
  {
    if ItemsCheque(its) == [] {
      SinCheques(its);
    } else {
      NumerosCubren(e, planillaId, its);
    }
  }

  /**
   * Lines 24 to 89 for a batch that was found: its items, the numbering of
   * the check items, the rows.
   */
  function PrepararHoja(p: PlanillaDatos, planillaId: nat, items: seq<Fila<ItemDatos>>, e: Estado): Preparacion {
    var its := ItemsDe(items, planillaId);
    var a := Numeracion(its, planillaId, e);
    if a.resultado.Err? then Preparacion(Err(ErrorAsignacion(a.resultado.error)), a.estado)
    else
      NumeracionCubre(its, planillaId, e);
      Preparacion(Ok(Hoja(p, Registros(its, a.resultado.value))), a.estado)
  }

  /** `PrepararHoja` as its two steps: the numbering, then the rows written from the numbered records. */
  lemma {:induction false} PrepararHojaPorPasos(p: PlanillaDatos, planillaId: nat, items: seq<Fila<ItemDatos>>, e: Estado)
    ensures var its := ItemsDe(items, planillaId);
      var a := Numeracion(its, planillaId, e);
      && (a.resultado.Err? ==> PrepararHoja(p, planillaId, items, e) == Preparacion(Err(ErrorAsignacion(a.resultado.error)), a.estado))
      && (a.resultado.Ok? ==> (
            NumeracionCubre(its, planillaId, e);
            PrepararHoja(p, planillaId, items, e) == Preparacion(Ok(Hoja(p, Registros(its, a.resultado.value))), a.estado)))
  {
  }

  /** The cells a row copies from its item and its batch. */
  predicate Copiado(p: PlanillaDatos, d: ItemDatos, r: Renglon) {
    && r.tipoDocumento == d.tipoDocumento && r.numeroDocumento == d.numeroDocumento && r.sucursal == p.sucursal
    && r.identificacionPago == d.identificacionPago && r.beneficiario == d.beneficiario && r.importe == d.importe
    && r.cuentaDebito == p.cuentaDebito && r.modalidad == d.modalidad && r.marca == d.marca
    && r.fechaEmision == d.fechaEmision && r.fechaPagoDiferido == d.fechaPagoDiferido
  }

  /**
   * Only the check items are numbered, and nothing is numbered when there
   * are none; numbering failures are passed on. On success there is one row
   * per item of the batch, in item order, starting at row 4; a check row
   * shows the number allocated for that item's key, any other row the
   * payee account. None of this depends on the batch's state: a batch that
   * is no longer a draft is numbered again.
   */
  lemma {:induction false} PrepararHojaCorrecta(p: PlanillaDatos, planillaId: nat, items: seq<Fila<ItemDatos>>, e: Estado)
    ensures var h := PrepararHoja(p, planillaId, items, e);
      var its := ItemsDe(items, planillaId);
      var sel := ItemsCheque(its);
      var a := Asignar(e, planillaId, sel, map[]);
      && (sel == [] ==> h.estado == e && h.resultado.Ok?)
      && (sel != [] ==> h.estado == a.estado && (h.resultado.Ok? <==> a.resultado.Ok?))
      && (sel != [] && a.resultado.Err? ==> h.resultado == Err(ErrorAsignacion(a.resultado.error)))
      && (h.resultado.Ok? ==>
            && |h.resultado.value| == |its|
            && forall k :: 0 <= k < |its| ==>
                 && h.resultado.value[k].fila == 4 + k
                 && Copiado(p, its[k].datos, h.resultado.value[k])
                 && (!EsCheque(its[k].datos) ==> h.resultado.value[k].cuenta == CuentaPago(its[k].datos.cuentaPago))
                 && (EsCheque(its[k].datos) ==>
                       && sel != [] && a.resultado.Ok? && its[k].id in a.resultado.value
                       && h.resultado.value[k].cuenta == NumeroCheque(a.resultado.value[its[k].id])))
  {
    var its := ItemsDe(items, planillaId);
    var sel := ItemsCheque(its);
    var n := Numeracion(its, planillaId, e);
    PrepararHojaPorPasos(p, planillaId, items, e);
    assert sel == [] ==> n == Asignacion(Ok(map[]), e);
    assert sel != [] ==> n == Asignar(e, planillaId, sel, map[]);
    if n.resultado.Ok? {
      NumeracionCubre(its, planillaId, e);
      HojaDeRegistros(p, its, n.resultado.value);
      if sel == [] {
        SinCheques(its);
      }
    }
  }

  /** The rows written from the numbered records: one per item, from row 4, each with its item's cells and number or account. */
  lemma {:induction false} HojaDeRegistros(p: PlanillaDatos, its: seq<Fila<ItemDatos>>, numeros: map<nat, int>)
    requires forall i :: 0 <= i < |its| && EsCheque(its[i].datos) ==> its[i].id in numeros
    ensures var h := Hoja(p, Registros(its, numeros));
      && |h| == |its|
      && forall k :: 0 <= k < |its| ==>
           && h[k].fila == 4 + k
           && Copiado(p, its[k].datos, h[k])
           && (!EsCheque(its[k].datos) ==> h[k].cuenta == CuentaPago(its[k].datos.cuentaPago))
           && (EsCheque(its[k].datos) ==> h[k].cuenta == NumeroCheque(numeros[its[k].id]))
  {
  }

  /** A check item's number, as the numbering mapped it, is that of a check registered in this run for the item. */
  lemma {:induction false} ChequeRegistrado(e: Estado, planillaId: nat, its: seq<Fila<ItemDatos>>, ultimo: nat, k: nat)
    requires ClavesValidas(its, ultimo)
    requires Asignar(e, planillaId, ItemsCheque(its), map[]).resultado.Ok?
    requires k < |its| && EsCheque(its[k].datos)
    ensures var a := Asignar(e, planillaId, ItemsCheque(its), map[]);
      && its[k].id in a.resultado.value
      && exists j :: |e.cheques| <= j < |a.estado.cheques| &&
           a.estado.cheques[j].datos == ChequeDeItem(a.resultado.value[its[k].id], planillaId, its[k].datos)
  {
    var sel := ItemsCheque(its);
    var a := Asignar(e, planillaId, sel, map[]);
    ClavesValidasDonde(its, ultimo, EsFilaCheque());
    AsignarRegistraCadaItem(e, planillaId, sel, map[]);
    PosicionesSeleccion(its, 0);
    PosicionesDeCheques(its);
    var ps := Posiciones(its, 0);
    assert k in ps;
    var q :| 0 <= q < |ps| && ps[q] == k;
    assert sel[q] == its[k];
    assert a.estado.cheques[|e.cheques| + q].datos == ChequeDeItem(a.resultado.value[its[k].id], planillaId, its[k].datos);
  }

  /**
   * What the sheet shows is what the ledger records: on success, when the
   * stored item keys are valid, every check row shows the number of a
   * pending check registered in this run for that item, with its check type,
   * batch, payee, amount and dates.
   */
  lemma {:induction false} HojaComoElRegistro(p: PlanillaDatos, planillaId: nat, items: seq<Fila<ItemDatos>>, ultimo: nat, e: Estado)
    requires ClavesValidas(items, ultimo)
    requires PrepararHoja(p, planillaId, items, e).resultado.Ok?
    ensures var h := PrepararHoja(p, planillaId, items, e);
      var its := ItemsDe(items, planillaId);
      forall k :: 0 <= k < |its| && EsCheque(its[k].datos) ==>
        && h.resultado.value[k].cuenta.NumeroCheque?
        && exists j :: |e.cheques| <= j < |h.estado.cheques| &&
             h.estado.cheques[j].datos == ChequeDeItem(h.resultado.value[k].cuenta.numero, planillaId, its[k].datos)
  {
    var its := ItemsDe(items, planillaId);
    PrepararHojaCorrecta(p, planillaId, items, e);
    ItemsDeCorrecto(items, planillaId, ultimo);
    forall k | 0 <= k < |its| && EsCheque(its[k].datos)
      ensures var h := PrepararHoja(p, planillaId, items, e);
        && h.resultado.value[k].cuenta.NumeroCheque?
        && exists j :: |e.cheques| <= j < |h.estado.cheques| &&
             h.estado.cheques[j].datos == ChequeDeItem(h.resultado.value[k].cuenta.numero, planillaId, its[k].datos)
    {
      ChequeRegistrado(e, planillaId, its, ultimo, k);
    }
  }

  // ---------------------------------------------------------------------------
  // generar_planilla
  // ---------------------------------------------------------------------------

  datatype Generacion = Generacion(
    resultado: Result<seq<Renglon>, ErrorExcel>, estado: Estado, planillas: seq<Fila<PlanillaDatos>>)

  /**
   * `generar_planilla` as it is meant to run: the batch is looked up, the
   * sheet prepared, and only then is the batch marked generated with the
   * file it was saved to.
   */
  function Generar(planillas: seq<Fila<PlanillaDatos>>, items: seq<Fila<ItemDatos>>, e: Estado,
                   planillaId: nat, archivo: string): Generacion
  {
    match Buscar(planillas, planillaId)
    case None => Generacion(Err(PlanillaInexistente), e, planillas)
    case Some(p) =>
      var h := PrepararHoja(p, planillaId, items, e);
      if h.resultado.Err? then Generacion(h.resultado, h.estado, planillas)
      else if planillaId == 0 then Generacion(Err(ErrorAlMarcar(SinId)), h.estado, planillas)
      else Generacion(h.resultado, h.estado, Modificadas(planillas, planillaId, Reemplazo(TrasGenerar(p, archivo))))
  }

  /**
   * `generar_planilla` as written: building the file name reads
   * `planilla.referencia`, an attribute no batch object has, so every run
   * that gets past the numbering stops there, before saving and marking.
   */
  function GenerarComoEscrita(planillas: seq<Fila<PlanillaDatos>>, items: seq<Fila<ItemDatos>>, e: Estado,
                              planillaId: nat): Generacion
  {
    match Buscar(planillas, planillaId)
    case None => Generacion(Err(PlanillaInexistente), e, planillas)
    case Some(p) =>
      var h := PrepararHoja(p, planillaId, items, e);
      if h.resultado.Err? then Generacion(h.resultado, h.estado, planillas)
      else Generacion(Err(SinAtributoReferencia), h.estado, planillas)
  }

  /**
   * As written, no batch is ever marked generated, yet the numbering has
   * already happened: the ledger keeps one new check per check item, so
   * every retry allocates a fresh set of check numbers for the same items.
   */
  lemma {:induction false} ComoEscritaNuncaGenera(planillas: seq<Fila<PlanillaDatos>>, items: seq<Fila<ItemDatos>>, ultimo: nat,
                               e: Estado, planillaId: nat)
    requires ClavesValidas(items, ultimo)
    requires Buscar(planillas, planillaId).Some?
    ensures var g := GenerarComoEscrita(planillas, items, e, planillaId);
      var h := PrepararHoja(Buscar(planillas, planillaId).value, planillaId, items, e);
      && g.resultado.Err? && g.planillas == planillas && g.estado == h.estado
      && (h.resultado.Ok? ==> g.resultado == Err(SinAtributoReferencia)
                              && |g.estado.cheques| == |e.cheques| + |ItemsCheque(ItemsDe(items, planillaId))|)
  {
    var p := Buscar(planillas, planillaId).value;
    var its := ItemsDe(items, planillaId);
    var sel := ItemsCheque(its);
    PrepararHojaCorrecta(p, planillaId, items, e);
    if PrepararHoja(p, planillaId, items, e).resultado.Ok? && sel != [] {
      ItemsDeCorrecto(items, planillaId, ultimo);
      ClavesValidasDonde(its, ultimo, EsFilaCheque());
      AsignarRegistraCadaItem(e, planillaId, sel, map[]);
    }
  }

  /**
   * The corrected run marks the batch generated, with its file, exactly
   * when the sheet was prepared; a failed run leaves every batch as it was,
   * and a successful one touches no other batch.
   */
  lemma {:induction false} GenerarMarcaAlFinal(planillas: seq<Fila<PlanillaDatos>>, items: seq<Fila<ItemDatos>>, e: Estado,
                            planillaId: nat, archivo: string, otro: nat)
    ensures var g := Generar(planillas, items, e, planillaId, archivo);
      && (g.resultado.Ok? <==>
            && Buscar(planillas, planillaId).Some? && planillaId != 0
            && PrepararHoja(Buscar(planillas, planillaId).value, planillaId, items, e).resultado.Ok?)
      && (g.resultado.Ok? ==>
            Buscar(g.planillas, planillaId) == Some(TrasGenerar(Buscar(planillas, planillaId).value, archivo)))
      && (g.resultado.Ok? ==> g.resultado == PrepararHoja(Buscar(planillas, planillaId).value, planillaId, items, e).resultado)
      && (g.resultado.Err? ==> g.planillas == planillas)
      && (otro != planillaId ==> Buscar(g.planillas, otro) == Buscar(planillas, otro))
  {
    match Buscar(planillas, planillaId)
    case None =>
    case Some(p) =>
      BuscarModificadas(planillas, planillaId, Reemplazo(TrasGenerar(p, archivo)), otro);
  }

  /**
   * Lines 27 to 37 on the tables and the records of `items`: the check
   * items are numbered, then each one's record receives its number.
   */
  method NumerarItems(registros: array<Registro>, its: seq<Fila<ItemDatos>>, planillaId: nat,
                      rangos: Tabla<RangoDatos>, cheques: Tabla<ChequeDatos>)
    returns (r: Result<map<nat, int>, ErrorServicio>)
    requires registros.Length == |its|
    requires forall i :: 0 <= i < |its| ==> registros[i] == Registro(its[i], None)
    requires rangos.Valida() && cheques.Valida()
    modifies registros, rangos, cheques
    ensures rangos.Valida() && cheques.Valida() && rangos.ultimoId == old(rangos.ultimoId)
    ensures var a := Numeracion(its, planillaId, Estado(old(rangos.filas), old(cheques.filas), old(cheques.ultimoId)));
      r == a.resultado && a.estado == Estado(rangos.filas, cheques.filas, cheques.ultimoId)
    ensures r.Ok? ==>
      && (forall i :: 0 <= i < |its| && EsCheque(its[i].datos) ==> its[i].id in r.value)
      && registros[..] == Registros(its, r.value)
  {
    var itemsCheques := ItemsCheque(its);
    if itemsCheques == [] {
      SinCheques(its);
      assert registros[..] == Registros(its, map[]);
      return Ok(map[]);
    }
    var asignaciones := AsignarNumerosAPlanilla(rangos, cheques, planillaId, itemsCheques);
    if asignaciones.Err? {
      return asignaciones;
    }
    NumerosCubren(Estado(old(rangos.filas), old(cheques.filas), old(cheques.ultimoId)), planillaId, its);
    NumerarRegistros(registros, its, asignaciones.value);
    return asignaciones;
  }

  /** Lines 24 to 89 on the tables, for a batch object that was found. */
  method ArmarHoja(planilla: Planilla, itemsT: Tabla<ItemDatos>, rangos: Tabla<RangoDatos>, cheques: Tabla<ChequeDatos>)
    returns (r: Result<seq<Renglon>, ErrorExcel>)
    requires rangos.Valida() && cheques.Valida()
    modifies rangos, cheques
    ensures rangos.Valida() && cheques.Valida() && rangos.ultimoId == old(rangos.ultimoId)
    ensures var h := PrepararHoja(planilla.datos, planilla.id, old(itemsT.filas),
                                  Estado(old(rangos.filas), old(cheques.filas), old(cheques.ultimoId)));
      r == h.resultado && h.estado == Estado(rangos.filas, cheques.filas, cheques.ultimoId)
  {
    PrepararHojaPorPasos(planilla.datos, planilla.id, itemsT.filas, Estado(rangos.filas, cheques.filas, cheques.ultimoId));
    var its := planilla.ObtenerItems(itemsT);
    var registros := new Registro[|its|](k requires 0 <= k < |its| => Registro(its[k], None));
    var numeros := NumerarItems(registros, its, planilla.id, rangos, cheques);
    if numeros.Err? {
      return Err(ErrorAsignacion(numeros.error));
    }
    var hoja := EscribirRenglones(planilla.datos, registros);
    HojaEs(planilla.datos, registros[..], hoja);
    return Ok(hoja);
  }

  /** `ExcelService.generar_planilla`, corrected: the sheet is prepared, then the batch is marked generated. */
  method GenerarPlanilla(planillas: Tabla<PlanillaDatos>, itemsT: Tabla<ItemDatos>, rangos: Tabla<RangoDatos>,
                         cheques: Tabla<ChequeDatos>, planillaId: nat, archivo: string)
    returns (r: Result<seq<Renglon>, ErrorExcel>)
    requires planillas.Valida() && rangos.Valida() && cheques.Valida()
    modifies planillas, rangos, cheques
    ensures planillas.Valida() && rangos.Valida() && cheques.Valida()
    ensures var g := Generar(old(planillas.filas), old(itemsT.filas),
                             Estado(old(rangos.filas), old(cheques.filas), old(cheques.ultimoId)), planillaId, archivo);
      r == g.resultado && g.estado == Estado(rangos.filas, cheques.filas, cheques.ultimoId) && planillas.filas == g.planillas
  {
    var fila := Buscar(planillas.filas, planillaId);
    if fila.None? {
      return Err(PlanillaInexistente);
    }
    var planilla := new Planilla(planillaId, fila.value);
    var hoja := ArmarHoja(planilla, itemsT, rangos, cheques);
    if hoja.Err? {
      return hoja;
    }
    var marca := planilla.MarcarComoGenerada(planillas, archivo);
    return hoja;
  }

  /** `ExcelService.generar_planilla` as written: it fails at the file name, after the numbering. */
  method GenerarPlanillaComoEscrita(planillas: Tabla<PlanillaDatos>, itemsT: Tabla<ItemDatos>, rangos: Tabla<RangoDatos>,
                                    cheques: Tabla<ChequeDatos>, planillaId: nat)
    returns (r: Result<seq<Renglon>, ErrorExcel>)
    requires rangos.Valida() && cheques.Valida()
    modifies rangos, cheques
    ensures rangos.Valida() && cheques.Valida()
    ensures var g := GenerarComoEscrita(planillas.filas, old(itemsT.filas),
                                        Estado(old(rangos.filas), old(cheques.filas), old(cheques.ultimoId)), planillaId);
      r == g.resultado && g.estado == Estado(rangos.filas, cheques.filas, cheques.ultimoId) && planillas.filas == g.planillas
  {
    var fila := Buscar(planillas.filas, planillaId);
    if fila.None? {
      return Err(PlanillaInexistente);
    }
    var planilla := new Planilla(planillaId, fila.value);
    var hoja := ArmarHoja(planilla, itemsT, rangos, cheques);
    if hoja.Err? {
      return hoja;
    }
    return Err(SinAtributoReferencia);
  }
}
