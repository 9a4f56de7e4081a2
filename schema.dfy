/**
 * The columns of the application's tables, one datatype per table. A
 * foreign key that may be NULL is a `nat` with 0 for NULL (keys start at 1),
 * an optional text or amount column is an `Option`. Amounts are whole
 * cents. Creation timestamps are not part of the model.
 */
module Esquema {

  import opened Wrappers
  import opened Strings

  /** The two kinds of check, as stored: deferred-payment and ordinary. */
  const TiposCheque: set<string> := {"diferido", "comun"}

  lemma {:induction false} TiposEnMinusculas(t: string)
    requires t in TiposCheque
    ensures Lower(t) == t
  {
    if t == "diferido" {
      assert Lower(t) == t;
    } else {
      assert Lower(t) == t;
    }
  }

  /** The stored type names are already in normal form, so `strip().lower()` leaves them alone. */
  lemma {:induction false} TiposNormalizados(t: string)
    requires t in TiposCheque
    ensures Strip(Lower(t)) == t
  {
    TiposEnMinusculas(t);
    StripNoop(t);
  }

  /** A row of `rangos_cheques`: one block of check numbers and its cursor. */
  datatype RangoDatos = RangoDatos(
    tipo: string,
    orden: int,
    inicial: int,
    final: int,
    cantidad: int,
    proximo: Option<int>,
    activo: bool)

  /** The four states of an issued check (`emitido_pendiente`, `emitido_correcto`, `cargado_sistema`, `sin_usar`). */
  datatype EstadoCheque = Pendiente | Correcto | Cargado | SinUsar

  /** A row of `cheques_emitidos`, the ledger of issued check numbers. */
  datatype ChequeDatos = ChequeDatos(
    numero: int,
    tipo: string,
    estado: EstadoCheque,
    referenciaId: nat,
    planillaId: nat,
    beneficiario: Option<string>,
    importe: Option<int>,
    fechaEmision: Option<string>,
    fechaPago: Option<string>)

  /** The three states of a payment batch (`borrador`, `generada`, `descargada`). */
  datatype EstadoPlanilla = Borrador | Generada | Descargada

  /** A row of `planillas`, a payment batch. */
  datatype PlanillaDatos = PlanillaDatos(
    referenciaId: nat,
    numero: int,
    sucursal: string,
    cuentaDebito: string,
    estado: EstadoPlanilla,
    archivo: Option<string>)

  /** A row of `items_planilla`, one payment of a batch. */
  datatype ItemDatos = ItemDatos(
    planillaId: nat,
    tipoDocumento: string,
    numeroDocumento: string,
    identificacionPago: string,
    beneficiario: string,
    importe: int,
    cuentaPago: Option<string>,
    modalidad: int,
    marca: Option<string>,
    fechaEmision: Option<string>,
    fechaPagoDiferido: Option<string>)

  /** A row of `referencias`, the codes that name payment batches. */
  datatype ReferenciaDatos = ReferenciaDatos(codigo: string, descripcion: string, activa: bool)

  /** A row of `agenda_cheques`, a payee paid by check. */
  datatype ContactoChequeDatos = ContactoChequeDatos(nombre: string, cuit: string, notas: string, activo: bool)

  /** A row of `agenda_transferencias`, a payee paid by bank transfer. */
  datatype ContactoTransferenciaDatos = ContactoTransferenciaDatos(
    nombre: string,
    cuit: string,
    cbu: string,
    notas: string,
    activo: bool)
}
