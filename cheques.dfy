/**
 * The ledger of issued checks (`Cheque`, table `cheques_emitidos`) and the
 * life cycle of each check: emitted and pending, confirmed correct, loaded
 * into the bank's system, or unused.
 */
module Cheques {

  import opened Wrappers
  import opened Strings
  import opened Tablas
  import opened Esquema

  datatype ErrorCheque =
    | TipoInvalido
    | ChequeDuplicado
    | ImporteInvalido
    | SinId
    | TransicionInvalida(actual: EstadoCheque)

  /** The text stored for each state. */
  function NombreEstado(e: EstadoCheque): string {
    match e
    case Pendiente => "emitido_pendiente"
    case Correcto => "emitido_correcto"
    case Cargado => "cargado_sistema"
    case SinUsar => "sin_usar"
  }

  /** The state a stored text names, if any (`nuevo_estado in ESTADOS_VALIDOS`). */
  function EstadoDeNombre(s: string): (r: Option<EstadoCheque>)
    ensures r.Some? ==> NombreEstado(r.value) == s
    ensures r.None? ==> forall e :: NombreEstado(e) != s
  {
    if s == "emitido_pendiente" then Some(Pendiente)
    else if s == "emitido_correcto" then Some(Correcto)
    else if s == "cargado_sistema" then Some(Cargado)
    else if s == "sin_usar" then Some(SinUsar)
    else None
  }

  /** `transiciones_validas`: where `puede_cambiar_estado` lets each state go. */
  function Transiciones(e: EstadoCheque): set<EstadoCheque> {
    match e
    case Pendiente => {Correcto, SinUsar}
    case Correcto => {Cargado, SinUsar}
    case Cargado => {}
    case SinUsar => {}
  }

  // ---------------------------------------------------------------------------
  // crear / existe
  // ---------------------------------------------------------------------------

  function MismoCheque(numero: int, t: string): Fila<ChequeDatos> -> bool {
    (f: Fila<ChequeDatos>) => f.datos.numero == numero && f.datos.tipo == t
  }

  /** `Cheque.existe`: a stored check has that number and the lower-cased type. */
  function Existe(filas: seq<Fila<ChequeDatos>>, numero: int, tipo: string): (b: bool)
    ensures b <==> exists i :: 0 <= i < |filas| && filas[i].datos.numero == numero && filas[i].datos.tipo == Lower(tipo)
  {
    Hay(filas, MismoCheque(numero, Lower(tipo)))
  }

  /** No two ledger rows carry the same number and type. */
  predicate NumerosUnicos(filas: seq<Fila<ChequeDatos>>) {
    forall i, j :: 0 <= i < j < |filas| ==>
      !(filas[i].datos.numero == filas[j].datos.numero && filas[i].datos.tipo == filas[j].datos.tipo)
  }

  /** The row `Cheque.crear` inserts, or the first check it fails. */
  function NuevoCheque(filas: seq<Fila<ChequeDatos>>, numero: int, tipo: string, planillaId: nat, referenciaId: nat,
                       beneficiario: Option<string>, importe: Option<int>,
                       fechaEmision: Option<string>, fechaPago: Option<string>): Result<ChequeDatos, ErrorCheque>
  {
    var t := Strip(Lower(tipo));
    if t !in TiposCheque then Err(TipoInvalido)
    else if Existe(filas, numero, t) then Err(ChequeDuplicado)
    else if importe.Some? && importe.value <= 0 then Err(ImporteInvalido)
    else Ok(ChequeDatos(numero, t, Pendiente, referenciaId, planillaId, beneficiario, importe, fechaEmision, fechaPago))
  }

  /**
   * The checks of `Cheque.crear`, in order: the type after trimming and
   * lower-casing must be one of the two kinds, the (number, type) pair must
   * be new, and an amount, when given, must be positive; a check that passes
   * is recorded pending, under the normalised type.
   */
  lemma {:induction false} NuevoChequeCorrecto(filas: seq<Fila<ChequeDatos>>, numero: int, tipo: string, planillaId: nat, referenciaId: nat,
                            beneficiario: Option<string>, importe: Option<int>,
                            fechaEmision: Option<string>, fechaPago: Option<string>)
    ensures var r := NuevoCheque(filas, numero, tipo, planillaId, referenciaId, beneficiario, importe, fechaEmision, fechaPago);
      && (r == Err(TipoInvalido) <==> Strip(Lower(tipo)) !in TiposCheque)
      && (r == Err(ChequeDuplicado) <==> Strip(Lower(tipo)) in TiposCheque && Existe(filas, numero, Strip(Lower(tipo))))
      && (r == Err(ImporteInvalido) <==>
            Strip(Lower(tipo)) in TiposCheque && !Existe(filas, numero, Strip(Lower(tipo))) && importe.Some? && importe.value <= 0)
      && (r.Ok? ==>
            && r.value == ChequeDatos(numero, Strip(Lower(tipo)), Pendiente, referenciaId, planillaId,
                                      beneficiario, importe, fechaEmision, fechaPago)
            && r.value.tipo in TiposCheque && !Existe(filas, numero, r.value.tipo)
            && (importe.Some? ==> importe.value > 0))
  {
  }

  lemma {:induction false} NuevoChequeConservaUnicidad(filas: seq<Fila<ChequeDatos>>, d: ChequeDatos, id: nat)
    requires NumerosUnicos(filas)
    requires d.tipo in TiposCheque && !Existe(filas, d.numero, d.tipo)
    ensures NumerosUnicos(filas + [Fila(id, d)])
  {
    TiposEnMinusculas(d.tipo);
  }

  // ---------------------------------------------------------------------------
  // The marking methods
  // ---------------------------------------------------------------------------

  /** The three `marcar_como_*` methods. */
  datatype Marca = MarcaCorrecto | MarcaCargado | MarcaSinUsar

  function Destino(m: Marca): EstadoCheque {
    match m
    case MarcaCorrecto => Correcto
    case MarcaCargado => Cargado
    case MarcaSinUsar => SinUsar
  }

  /** The guard of each marking method. */
  predicate Permitida(m: Marca, e: EstadoCheque) {
    match m
    case MarcaCorrecto => e == Pendiente
    case MarcaCargado => e == Correcto
    case MarcaSinUsar => e != Cargado
  }

  /**
   * The guards of the marking methods agree with the transition table, with
   * one exception: `marcar_como_sin_usar` also accepts a check already unused.
   */
  lemma {:induction false} GuardasSegunTransiciones(m: Marca, e: EstadoCheque)
    ensures Permitida(m, e) <==> Destino(m) in Transiciones(e) || (m == MarcaSinUsar && e == SinUsar)
  {
  }

  /** A check loaded into the system stays there: no marking method accepts it. */
  lemma {:induction false} CargadoEsFinal(m: Marca)
    ensures !Permitida(m, Cargado)
  {
  }

  /** `actualizar`'s UPDATE: state, payee, amount, dates and batch/reference keys; never number or type. */
  function Volcar(d: ChequeDatos): ChequeDatos -> ChequeDatos {
    (x: ChequeDatos) => x.(estado := d.estado, beneficiario := d.beneficiario, importe := d.importe,
                          fechaEmision := d.fechaEmision, fechaPago := d.fechaPago,
                          planillaId := d.planillaId, referenciaId := d.referenciaId)
  }

  /** Writing a check back never breaks the uniqueness of (number, type). */
  lemma {:induction false} VolcarConservaUnicidad(filas: seq<Fila<ChequeDatos>>, id: nat, d: ChequeDatos)
    requires NumerosUnicos(filas)
    ensures NumerosUnicos(Modificadas(filas, id, Volcar(d)))
  {
    var r := Modificadas(filas, id, Volcar(d));
    forall i | 0 <= i < |filas| ensures r[i].datos.numero == filas[i].datos.numero && r[i].datos.tipo == filas[i].datos.tipo {
    }
  }

  class Cheque {
    var id: nat
    var datos: ChequeDatos

    constructor (id: nat, datos: ChequeDatos)
      ensures this.id == id && this.datos == datos
    {
      this.id := id;
      this.datos := datos;
    }

    /** `Cheque.crear`: validates, inserts the row in state pending and returns the object. */
    static method Crear(tabla: Tabla<ChequeDatos>, numero: int, tipo: string, planillaId: nat, referenciaId: nat,
                        beneficiario: Option<string>, importe: Option<int>,
                        fechaEmision: Option<string>, fechaPago: Option<string>)
      returns (r: Result<Cheque, ErrorCheque>)
      requires tabla.Valida()
      modifies tabla
      ensures tabla.Valida()
      ensures match NuevoCheque(old(tabla.filas), numero, tipo, planillaId, referenciaId, beneficiario, importe, fechaEmision, fechaPago)
        case Err(e) => r == Err(e) && tabla.filas == old(tabla.filas) && tabla.ultimoId == old(tabla.ultimoId)
        case Ok(d) =>
          && r.Ok? && fresh(r.value) && r.value.datos == d && r.value.id == tabla.ultimoId == old(tabla.ultimoId) + 1
          && tabla.filas == old(tabla.filas) + [Fila(r.value.id, d)]
    {
      var nuevo := NuevoCheque(tabla.filas, numero, tipo, planillaId, referenciaId, beneficiario, importe, fechaEmision, fechaPago);
      if nuevo.Err? {
        return Err(nuevo.error);
      }
      var id := tabla.Insertar(nuevo.value);
      var cheque := new Cheque(id, nuevo.value);
      return Ok(cheque);
    }

    /** `puede_cambiar_estado`: the target must name a state reachable from the current one. */
    function PuedeCambiarEstado(nuevo: string): (b: bool)
      reads this
      ensures b <==> exists e :: NombreEstado(e) == nuevo && e in Transiciones(datos.estado)
    {
      var e := EstadoDeNombre(nuevo);
      e.Some? && e.value in Transiciones(datos.estado)
    }

    /** `actualizar`: fails without a key, else writes the object's mutable columns to its row. */
    method Actualizar(tabla: Tabla<ChequeDatos>) returns (r: Result<(), ErrorCheque>)
      requires tabla.Valida()
      modifies tabla
      ensures tabla.Valida() && tabla.ultimoId == old(tabla.ultimoId)
      ensures r.Err? <==> id == 0
      ensures r.Err? ==> r.error == SinId
      ensures tabla.filas == if id == 0 then old(tabla.filas) else Modificadas(old(tabla.filas), id, Volcar(datos))
    {
      if id == 0 {
        return Err(SinId);
      }
      tabla.Modificar(id, Volcar(datos));
      return Ok(());
    }

    /**
     * The shape shared by the three marking methods: a rejected transition
     * fails before anything changes; an accepted one sets the state and then
     * writes the object back, which fails only when it has no key.
     */
    method Marcar(m: Marca, tabla: Tabla<ChequeDatos>) returns (r: Result<(), ErrorCheque>)
      requires tabla.Valida()
      modifies this, tabla
      ensures tabla.Valida() && tabla.ultimoId == old(tabla.ultimoId) && id == old(id)
      ensures !Permitida(m, old(datos.estado)) ==>
        r == Err(TransicionInvalida(old(datos.estado))) && datos == old(datos) && tabla.filas == old(tabla.filas)
      ensures Permitida(m, old(datos.estado)) ==>
        && datos == old(datos).(estado := Destino(m))
        && (r.Err? <==> id == 0)
        && tabla.filas == if id == 0 then old(tabla.filas) else Modificadas(old(tabla.filas), id, Volcar(datos))
    {
      if !Permitida(m, datos.estado) {
        return Err(TransicionInvalida(datos.estado));
      }
      datos := datos.(estado := Destino(m));
      r := Actualizar(tabla);
    }

    /** `marcar_como_correcto`: only from pending. */
    method MarcarComoCorrecto(tabla: Tabla<ChequeDatos>) returns (r: Result<(), ErrorCheque>)
      requires tabla.Valida()
      modifies this, tabla
      ensures tabla.Valida() && tabla.ultimoId == old(tabla.ultimoId) && id == old(id)
      ensures old(datos.estado) != Pendiente ==>
        r == Err(TransicionInvalida(old(datos.estado))) && datos == old(datos) && tabla.filas == old(tabla.filas)
      ensures old(datos.estado) == Pendiente ==>
        && datos == old(datos).(estado := Correcto)
        && (r.Err? <==> id == 0)
        && tabla.filas == if id == 0 then old(tabla.filas) else Modificadas(old(tabla.filas), id, Volcar(datos))
    {
      r := Marcar(MarcaCorrecto, tabla);
    }

    /** `marcar_como_cargado`: only from correct. */
    method MarcarComoCargado(tabla: Tabla<ChequeDatos>) returns (r: Result<(), ErrorCheque>)
      requires tabla.Valida()
      modifies this, tabla
      ensures tabla.Valida() && tabla.ultimoId == old(tabla.ultimoId) && id == old(id)
      ensures old(datos.estado) != Correcto ==>
        r == Err(TransicionInvalida(old(datos.estado))) && datos == old(datos) && tabla.filas == old(tabla.filas)
      ensures old(datos.estado) == Correcto ==>
        && datos == old(datos).(estado := Cargado)
        && (r.Err? <==> id == 0)
        && tabla.filas == if id == 0 then old(tabla.filas) else Modificadas(old(tabla.filas), id, Volcar(datos))
    {
      r := Marcar(MarcaCargado, tabla);
    }

    /** `marcar_como_sin_usar`: from any state but loaded, including unused itself. */
    method MarcarComoSinUsar(tabla: Tabla<ChequeDatos>) returns (r: Result<(), ErrorCheque>)
      requires tabla.Valida()
      modifies this, tabla
      ensures tabla.Valida() && tabla.ultimoId == old(tabla.ultimoId) && id == old(id)
      ensures old(datos.estado) == Cargado ==>
        r == Err(TransicionInvalida(Cargado)) && datos == old(datos) && tabla.filas == old(tabla.filas)
      ensures old(datos.estado) != Cargado ==>
        && datos == old(datos).(estado := SinUsar)
        && (r.Err? <==> id == 0)
        && tabla.filas == if id == 0 then old(tabla.filas) else Modificadas(old(tabla.filas), id, Volcar(datos))
    {
      r := Marcar(MarcaSinUsar, tabla);
    }
  }

  /** `puede_cambiar_estado`, state by state: pending and correct each have two exits, loaded and unused none. */
  lemma {:induction false} PuedeCambiarEstadoTabla(c: Cheque, nuevo: string)
    ensures c.datos.estado == Pendiente ==> (c.PuedeCambiarEstado(nuevo) <==> nuevo == "emitido_correcto" || nuevo == "sin_usar")
    ensures c.datos.estado == Correcto ==> (c.PuedeCambiarEstado(nuevo) <==> nuevo == "cargado_sistema" || nuevo == "sin_usar")
    ensures c.datos.estado in {Cargado, SinUsar} ==> !c.PuedeCambiarEstado(nuevo)
  {
    if c.PuedeCambiarEstado(nuevo) {
      var e :| NombreEstado(e) == nuevo && e in Transiciones(c.datos.estado);
    }
    if c.datos.estado == Pendiente && nuevo == "emitido_correcto" {
      assert NombreEstado(Correcto) == nuevo;
    }
    if c.datos.estado in {Pendiente, Correcto} && nuevo == "sin_usar" {
      assert NombreEstado(SinUsar) == nuevo;
    }
    if c.datos.estado == Correcto && nuevo == "cargado_sistema" {
      assert NombreEstado(Cargado) == nuevo;
    }
  }
}
