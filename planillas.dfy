/**
 * `Planilla`, a payment batch: a draft that collects payment items, is given
 * a number from a shared counter when created, and moves to `generada` when
 * its file is produced and to `descargada` after that. Items may be added or
 * removed only while the batch is a draft.
 */
module Planillas {

  import opened Wrappers
  import opened Tablas
  import opened Esquema

  datatype ErrorPlanilla =
    | ReferenciaInexistente
    | NoEditable
    | ModalidadInvalida
    | ImporteInvalido
    | SinId
    | NoGenerada

  // ---------------------------------------------------------------------------
  // Items
  // ---------------------------------------------------------------------------

  /** The payment modes: 2 and 4 are bank transfers, 6 an ordinary check, 8 a deferred-payment check. */
  const Modalidades: set<int> := {2, 4, 6, 8}

  /** `ItemPlanilla.es_cheque`. */
  predicate EsCheque(i: ItemDatos) {
    i.modalidad == 6 || i.modalidad == 8
  }

  /** `ItemPlanilla.es_transferencia`. */
  predicate EsTransferencia(i: ItemDatos) {
    i.modalidad == 2 || i.modalidad == 4
  }

  /** `ItemPlanilla.es_diferido`. */
  predicate EsDiferido(i: ItemDatos) {
    i.modalidad == 8
  }

  /**
   * Every item with a valid mode is exactly one of a check and a transfer,
   * and a deferred item is a check.
   */
  lemma {:induction false} Clasificacion(i: ItemDatos)
    ensures i.modalidad in Modalidades ==> (EsCheque(i) <==> !EsTransferencia(i))
    ensures i.modalidad !in Modalidades ==> !EsCheque(i) && !EsTransferencia(i)
    ensures EsDiferido(i) ==> EsCheque(i)
  {
  }

  /** The checks of `agregar_item`, in order: the batch is a draft, the mode is known, the amount is positive. */
  function ValidarItem(estado: EstadoPlanilla, modalidad: int, importe: int): (r: Result<(), ErrorPlanilla>)
    ensures r == Err(NoEditable) <==> estado != Borrador
    ensures r == Err(ModalidadInvalida) <==> estado == Borrador && modalidad !in Modalidades
    ensures r == Err(ImporteInvalido) <==> estado == Borrador && modalidad in Modalidades && importe <= 0
    ensures r.Ok? <==> estado == Borrador && modalidad in Modalidades && importe > 0
  {
    if estado != Borrador then Err(NoEditable)
    else if modalidad !in Modalidades then Err(ModalidadInvalida)
    else if importe <= 0 then Err(ImporteInvalido)
    else Ok(())
  }

  /** `WHERE planilla_id = ?`; a batch without a key matches nothing, as `= NULL` never holds. */
  function DePlanilla(planillaId: nat): Fila<ItemDatos> -> bool {
    (f: Fila<ItemDatos>) => planillaId != 0 && f.datos.planillaId == planillaId
  }

  /** `WHERE id = ? AND planilla_id = ?`. */
  function EsItem(itemId: nat, planillaId: nat): Fila<ItemDatos> -> bool {
    (f: Fila<ItemDatos>) => f.id == itemId && planillaId != 0 && f.datos.planillaId == planillaId
  }

  /** `SELECT * FROM items_planilla WHERE planilla_id = ? ORDER BY id`. */
  function ItemsDe(filas: seq<Fila<ItemDatos>>, planillaId: nat): seq<Fila<ItemDatos>> {
    Donde(filas, DePlanilla(planillaId))
  }

  /**
   * The items of a batch are exactly the stored items that carry its key,
   * and they come in ascending key order, which is the order they were added.
   */
  lemma {:induction false} ItemsDeCorrecto(filas: seq<Fila<ItemDatos>>, planillaId: nat, ultimo: nat)
    requires ClavesValidas(filas, ultimo)
    ensures forall x :: x in ItemsDe(filas, planillaId) <==> x in filas && planillaId != 0 && x.datos.planillaId == planillaId
    ensures ClavesValidas(ItemsDe(filas, planillaId), ultimo)
  {
    DondeCompleto(filas, DePlanilla(planillaId));
    ClavesValidasDonde(filas, ultimo, DePlanilla(planillaId));
  }

  /** `SUM(importe)`, with an empty sum read as 0. */
  function Suma(fs: seq<Fila<ItemDatos>>): int {
    if fs == [] then 0 else fs[0].datos.importe + Suma(fs[1..])
  }

  lemma {:induction false} SumaConcat(a: seq<Fila<ItemDatos>>, b: seq<Fila<ItemDatos>>)
    ensures Suma(a + b) == Suma(a) + Suma(b)
  {
    if a == [] {
      assert a + b == b;
    } else {
      assert (a + b)[1..] == a[1..] + b;
      SumaConcat(a[1..], b);
    }
  }

  /** A sum of positive amounts is positive exactly when there is something to add. */
  lemma {:induction false} SumaPositiva(fs: seq<Fila<ItemDatos>>)
    requires forall i :: 0 <= i < |fs| ==> fs[i].datos.importe > 0
    ensures Suma(fs) >= 0
    ensures Suma(fs) > 0 <==> fs != []
  {
    if fs != [] {
      SumaPositiva(fs[1..]);
    }
  }

  /** `calcular_total` on the item rows. */
  function Total(filas: seq<Fila<ItemDatos>>, planillaId: nat): int {
    Suma(ItemsDe(filas, planillaId))
  }

  /** Adding an item to a batch raises its total by the item's amount and leaves other batches' totals alone. */
  lemma {:induction false} TotalAlAgregar(filas: seq<Fila<ItemDatos>>, f: Fila<ItemDatos>, planillaId: nat)
    ensures planillaId != 0 && f.datos.planillaId == planillaId ==>
      Total(filas + [f], planillaId) == Total(filas, planillaId) + f.datos.importe
    ensures f.datos.planillaId != planillaId ==> Total(filas + [f], planillaId) == Total(filas, planillaId)
  {
    DondeConcat(filas, [f], DePlanilla(planillaId));
    assert Donde([f], DePlanilla(planillaId)) == (if DePlanilla(planillaId)(f) then [f] else []);
    SumaConcat(ItemsDe(filas, planillaId), Donde([f], DePlanilla(planillaId)));
  }

  /** The first row counts towards a filtered sum exactly when it passes the filter. */
  lemma {:induction false} SumaDondeCons(fs: seq<Fila<ItemDatos>>, p: Fila<ItemDatos> -> bool)
    requires fs != []
    ensures Suma(Donde(fs, p)) == (if p(fs[0]) then fs[0].datos.importe else 0) + Suma(Donde(fs[1..], p))
  {
    SumaConcat(if p(fs[0]) then [fs[0]] else [], Donde(fs[1..], p));
  }

  /** Deleting an item lowers the batch's total by exactly the amounts of the rows deleted. */
  lemma {:induction false} TotalAlEliminar(filas: seq<Fila<ItemDatos>>, itemId: nat, planillaId: nat)
    ensures Total(Sin(filas, EsItem(itemId, planillaId)), planillaId) + Suma(Donde(filas, EsItem(itemId, planillaId)))
      == Total(filas, planillaId)
  {
    if filas != [] {
      var p := EsItem(itemId, planillaId);
      var q := DePlanilla(planillaId);
      var h, t := filas[0], filas[1..];
      var cab := if !p(h) then [h] else [];
      TotalAlEliminar(t, itemId, planillaId);
      assert Sin(filas, p) == cab + Sin(t, p);
      DondeConcat(cab, Sin(t, p), q);
      SumaConcat(Donde(cab, q), Donde(Sin(t, p), q));
      SumaDondeCons(filas, p);
      SumaDondeCons(filas, q);
      assert Suma(Donde(cab, q)) == if !p(h) && q(h) then h.datos.importe else 0;
    }
  }

  /** With keys unique, deleting an item of the batch lowers its total by that item's amount, and by nothing otherwise. */
  lemma {:induction false} TotalAlEliminarUno(filas: seq<Fila<ItemDatos>>, ultimo: nat, itemId: nat, planillaId: nat)
    requires ClavesValidas(filas, ultimo)
    ensures var quitado := Buscar(filas, itemId);
      Total(Sin(filas, EsItem(itemId, planillaId)), planillaId) ==
        Total(filas, planillaId)
          - (if quitado.Some? && planillaId != 0 && quitado.value.planillaId == planillaId then quitado.value.importe else 0)
  {
    TotalAlEliminar(filas, itemId, planillaId);
    EliminadoUnico(filas, ultimo, itemId, planillaId);
  }

  /** Under unique keys, at most the row found by key matches `WHERE id = ? AND planilla_id = ?`. */
  lemma {:induction false} EliminadoUnico(filas: seq<Fila<ItemDatos>>, ultimo: nat, itemId: nat, planillaId: nat)
    requires ClavesValidas(filas, ultimo)
    ensures var quitado := Buscar(filas, itemId);
      Suma(Donde(filas, EsItem(itemId, planillaId)))
        == (if quitado.Some? && planillaId != 0 && quitado.value.planillaId == planillaId then quitado.value.importe else 0)
  {
    if filas != [] {
      var p := EsItem(itemId, planillaId);
      var t := filas[1..];
      assert ClavesValidas(t, ultimo);
      SumaDondeCons(filas, p);
      if filas[0].id == itemId {
        forall k | 0 <= k < |t| ensures !p(t[k]) {
          assert t[k] == filas[k + 1];
        }
        DondeVacio(t, p);
      } else {
        EliminadoUnico(t, ultimo, itemId, planillaId);
      }
    }
  }

  // ---------------------------------------------------------------------------
  // Batch numbers
  // ---------------------------------------------------------------------------

  /** The `proximo_numero_planilla` entry of `configuracion`, absent until the first batch is created. */
  class Configuracion {
    var proximoNumeroPlanilla: Option<int>

    constructor ()
      ensures proximoNumeroPlanilla == None
    {
      proximoNumeroPlanilla := None;
    }
  }

  /** The number a new batch gets: the stored counter, or 1 when there is none yet. */
  function NumeroDePlanilla(contador: Option<int>): int {
    contador.GetOr(1)
  }

  /** The numbers `k` successive creations hand out, starting from the counter `contador`. */
  function Numeros(contador: Option<int>, k: nat): seq<int>
    decreases k
  {
    if k == 0 then []
    else [NumeroDePlanilla(contador)] + Numeros(Some(NumeroDePlanilla(contador) + 1), k - 1)
  }

  /** Successive creations get consecutive numbers, starting at the counter (or 1). */
  lemma {:induction false} NumerosConsecutivos(contador: Option<int>, k: nat)
    ensures |Numeros(contador, k)| == k
    ensures forall i :: 0 <= i < k ==> Numeros(contador, k)[i] == NumeroDePlanilla(contador) + i
    decreases k
  {
    if k > 0 {
      NumerosConsecutivos(Some(NumeroDePlanilla(contador) + 1), k - 1);
    }
  }

  // ---------------------------------------------------------------------------
  // State changes
  // ---------------------------------------------------------------------------

  /** `actualizar` writes every column the object holds. */
  function Reemplazo(d: PlanillaDatos): PlanillaDatos -> PlanillaDatos {
    (_: PlanillaDatos) => d
  }

  /** What `marcar_como_generada` leaves in the object: unconditionally generated, with the file recorded. */
  function TrasGenerar(d: PlanillaDatos, archivo: string): PlanillaDatos {
    d.(estado := Generada, archivo := Some(archivo))
  }

  /** What `marcar_como_descargada` does to the object: refused unless generated. */
  function TrasDescargar(d: PlanillaDatos): Result<PlanillaDatos, ErrorPlanilla> {
    if d.estado != Generada then Err(NoGenerada) else Ok(d.(estado := Descargada))
  }

  /**
   * The life cycle only moves forward: neither state change leads back to a
   * draft, so once generated a batch accepts no item changes; a batch is
   * downloaded only from generated, and only the state changes.
   */
  lemma {:induction false} CicloDeVida(d: PlanillaDatos, archivo: string, modalidad: int, importe: int)
    ensures TrasGenerar(d, archivo).estado != Borrador
    ensures TrasDescargar(d).Ok? <==> d.estado == Generada
    ensures TrasDescargar(d).Ok? ==>
      TrasDescargar(d).value.estado == Descargada && TrasDescargar(d).value.(estado := d.estado) == d
    ensures ValidarItem(TrasGenerar(d, archivo).estado, modalidad, importe) == Err(NoEditable)
    ensures TrasDescargar(d).Ok? ==> ValidarItem(TrasDescargar(d).value.estado, modalidad, importe) == Err(NoEditable)
  {
  }

  class Planilla {
    var id: nat
    var datos: PlanillaDatos

    /** The constructor; a batch built without a state is a draft, which is how the model's `Crear` builds one. */
    constructor (id: nat, datos: PlanillaDatos)
      ensures this.id == id && this.datos == datos
    {
      this.id := id;
      this.datos := datos;
    }

    /**
     * `Planilla.crear`: the reference must exist; the batch takes the
     * counter's number (1 when there is no counter, which is then created)
     * and is stored as a draft; the counter moves to the next number.
     */
    static method Crear(referencias: Tabla<ReferenciaDatos>, config: Configuracion, planillas: Tabla<PlanillaDatos>,
                        referenciaId: nat, sucursal: string, cuentaDebito: string)
      returns (r: Result<Planilla, ErrorPlanilla>)
      requires planillas.Valida()
      modifies config, planillas
      ensures planillas.Valida()
      ensures Buscar(referencias.filas, referenciaId).None? ==>
        && r == Err(ReferenciaInexistente)
        && config.proximoNumeroPlanilla == old(config.proximoNumeroPlanilla)
        && planillas.filas == old(planillas.filas) && planillas.ultimoId == old(planillas.ultimoId)
      ensures Buscar(referencias.filas, referenciaId).Some? ==>
        && r.Ok? && fresh(r.value)
        && r.value.id == planillas.ultimoId == old(planillas.ultimoId) + 1
        && r.value.datos == PlanillaDatos(referenciaId, NumeroDePlanilla(old(config.proximoNumeroPlanilla)),
                                          sucursal, cuentaDebito, Borrador, None)
        && planillas.filas == old(planillas.filas) + [Fila(r.value.id, r.value.datos)]
        && config.proximoNumeroPlanilla == Some(r.value.datos.numero + 1)
    {
      if Buscar(referencias.filas, referenciaId).None? {
        return Err(ReferenciaInexistente);
      }
      var numero: int;
      if config.proximoNumeroPlanilla.Some? {
        numero := config.proximoNumeroPlanilla.value;
      } else {
        config.proximoNumeroPlanilla := Some(1);
        numero := 1;
      }
      var d := PlanillaDatos(referenciaId, numero, sucursal, cuentaDebito, Borrador, None);
      var id := planillas.Insertar(d);
      config.proximoNumeroPlanilla := Some(numero + 1);
      var p := new Planilla(id, d);
      return Ok(p);
    }

    /** `puede_editar`, which is `es_borrador`. */
    predicate PuedeEditar()
      reads this
    {
      datos.estado == Borrador
    }

    /** `actualizar`: fails without a key, else writes the object back to its row. */
    method Actualizar(planillas: Tabla<PlanillaDatos>) returns (r: Result<(), ErrorPlanilla>)
      requires planillas.Valida()
      modifies planillas
      ensures planillas.Valida() && planillas.ultimoId == old(planillas.ultimoId)
      ensures r.Err? <==> id == 0
      ensures r.Err? ==> r.error == SinId
      ensures planillas.filas == if id == 0 then old(planillas.filas) else Modificadas(old(planillas.filas), id, Reemplazo(datos))
    {
      if id == 0 {
        return Err(SinId);
      }
      planillas.Modificar(id, Reemplazo(datos));
      return Ok(());
    }

    /**
     * `agregar_item`: after the draft, mode and amount checks the item is
     * stored under the batch's key as given, with no check number, and its
     * new key is returned.
     */
    method AgregarItem(items: Tabla<ItemDatos>, tipoDocumento: string, numeroDocumento: string,
                       identificacionPago: string, beneficiario: string, importe: int, modalidad: int,
                       cuentaPago: Option<string>, marca: Option<string>,
                       fechaEmision: Option<string>, fechaPagoDiferido: Option<string>)
      returns (r: Result<nat, ErrorPlanilla>)
      requires items.Valida()
      modifies items
      ensures items.Valida()
      ensures ValidarItem(datos.estado, modalidad, importe).Err? ==>
        && r == Err(ValidarItem(datos.estado, modalidad, importe).error)
        && items.filas == old(items.filas) && items.ultimoId == old(items.ultimoId)
      ensures ValidarItem(datos.estado, modalidad, importe).Ok? ==>
        && r == Ok(old(items.ultimoId) + 1) && items.ultimoId == r.value
        && items.filas == old(items.filas) + [Fila(r.value, ItemDatos(id, tipoDocumento, numeroDocumento, identificacionPago,
                                                                      beneficiario, importe, cuentaPago, modalidad, marca,
                                                                      fechaEmision, fechaPagoDiferido))]
    {
      if !PuedeEditar() {
        return Err(NoEditable);
      }
      if modalidad !in Modalidades {
        return Err(ModalidadInvalida);
      }
      if importe <= 0 {
        return Err(ImporteInvalido);
      }
      var itemId := items.Insertar(ItemDatos(id, tipoDocumento, numeroDocumento, identificacionPago, beneficiario, importe,
                                             cuentaPago, modalidad, marca, fechaEmision, fechaPagoDiferido));
      return Ok(itemId);
    }

    /** `eliminar_item`: only in a draft, and only the row with that key belonging to this batch. */
    method EliminarItem(items: Tabla<ItemDatos>, itemId: nat) returns (r: Result<(), ErrorPlanilla>)
      requires items.Valida()
      modifies items
      ensures items.Valida() && items.ultimoId == old(items.ultimoId)
      ensures r.Err? <==> datos.estado != Borrador
      ensures r.Err? ==> r.error == NoEditable && items.filas == old(items.filas)
      ensures r.Ok? ==> items.filas == Sin(old(items.filas), EsItem(itemId, id))
    {
      if !PuedeEditar() {
        return Err(NoEditable);
      }
      items.Eliminar(EsItem(itemId, id));
      return Ok(());
    }

    /** `obtener_items`: the query, then one record per row fetched, in the order fetched. */
    method ObtenerItems(items: Tabla<ItemDatos>) returns (r: seq<Fila<ItemDatos>>)
      ensures r == ItemsDe(items.filas, id)
    {
      var filas := ItemsDe(items.filas, id);
      r := [];
      for k := 0 to |filas|
        invariant r == filas[..k]
      {
        r := r + [filas[k]];
      }
    }

    /** `calcular_total`. */
    function CalcularTotal(items: Tabla<ItemDatos>): int
      reads this, items
    {
      Total(items.filas, id)
    }

    /** `marcar_como_generada`: no precondition; the object changes even if writing it back then fails. */
    method MarcarComoGenerada(planillas: Tabla<PlanillaDatos>, archivo: string) returns (r: Result<(), ErrorPlanilla>)
      requires planillas.Valida()
      modifies this, planillas
      ensures planillas.Valida() && planillas.ultimoId == old(planillas.ultimoId) && id == old(id)
      ensures datos == TrasGenerar(old(datos), archivo)
      ensures r.Err? <==> id == 0
      ensures planillas.filas == if id == 0 then old(planillas.filas) else Modificadas(old(planillas.filas), id, Reemplazo(datos))
    {
      datos := datos.(estado := Generada, archivo := Some(archivo));
      r := Actualizar(planillas);
    }

    /** `marcar_como_descargada`: refused, with nothing changed, unless the batch is generated. */
    method MarcarComoDescargada(planillas: Tabla<PlanillaDatos>) returns (r: Result<(), ErrorPlanilla>)
      requires planillas.Valida()
      modifies this, planillas
      ensures planillas.Valida() && planillas.ultimoId == old(planillas.ultimoId) && id == old(id)
      ensures TrasDescargar(old(datos)).Err? ==>
        r == Err(NoGenerada) && datos == old(datos) && planillas.filas == old(planillas.filas)
      ensures TrasDescargar(old(datos)).Ok? ==>
        && datos == TrasDescargar(old(datos)).value
        && (r.Err? <==> id == 0)
        && planillas.filas == if id == 0 then old(planillas.filas) else Modificadas(old(planillas.filas), id, Reemplazo(datos))
    {
      if datos.estado != Generada {
        return Err(NoGenerada);
      }
      datos := datos.(estado := Descargada);
      r := Actualizar(planillas);
    }
  }
}
