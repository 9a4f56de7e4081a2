# sistema_pagos — a verified model of check numbering and payment batches

This project is a Dafny model of the core of *sistema_pagos*, a small desktop
application that prepares payment batches ("planillas") for a bank portal.
A batch lists payments to beneficiaries. Each payment is either a bank
transfer (modalidad 2 or 4) or a check (modalidad 6, ordinary, or 8,
deferred). When the batch is generated, each check receives a number taken
from configured ranges of physical check numbers, and it is recorded in a
ledger of issued checks whose entries then move through a small state
machine.

The model covers:

- **Validators**: the CUIT (tax id, modulo-11 check digit), CBU (bank
  account, two modulo-10 blocks) and reference code (5 letters and 7 digits)
  validators, the display formatters and the digit filter.
- **`RangoCheque`**: one numeric range with a cursor. It covers creation,
  the counts, the choice of the active range and the allocation of the next
  number.
- **`ChequeService`**: allocation with fallover to the next active range in
  priority order, and numbering of every check item of a batch with one
  ledger record per item.
- **`Cheque`**: the ledger of issued checks, with creation checks and
  guarded transitions.
- **`Planilla` and its items**: creation with a shared batch counter,
  adding and removing items while in draft, the total, and the state changes
  borrador → generada → descargada.
- **`ExcelService.generar_planilla`**: only the selection and numbering
  part. The workbook is a sequence of rows.
- **`Referencia`**: creation, the next code for a prefix, activation, and
  permanent deletion.
- **The contact directory (agenda)**: check contacts keyed by CUIT, and
  transfer contacts keyed by the (CUIT, CBU) pair.

The SQLite database is replaced by in-memory tables. `Tablas.Tabla<T>` is a
class holding a sequence of rows with ascending positive keys and an
autoincrement counter. Key 0 stands for Python's `None`. Each Python class
whose methods change its own fields and the stored row is a Dafny `class`.
Each such method is tied by its `ensures` to a pure function of the old
state, and the lemmas about those functions state what the source promises.
The validators, the range arithmetic and the code generator are pure
functions. Amounts are whole numbers (cents).

Where the repository's samples and its code disagree, the model follows the
code. "20-12345678-9" and "27-98765432-1" are listed as valid CUITs, but
their check digits must be 6 and 0 (`Validators.MuestraCuit20`,
`Validators.MuestraCuit27`). "0170099520000003912345" is listed as a valid
CBU, but it fails block 1 (`Validators.MuestraCbu`). "LABSEM0000118" is
given as an example code, but it has six letters
(`Validators.MuestraReferencia`, `Referencias.PrefijoDeSeisLetras`).

Modules, one per file:

| module | file | models |
|---|---|---|
| Wrappers | wrappers.dfy | Option and Result |
| Strings | strings.dfy | the Python `str` operations used (strip, upper/lower, replace, digits, zero padding, text order) |
| Tablas | tables.dfy | tables of keyed rows, lookups, filtered views, updates by key |
| Esquema | schema.dfy | the row types of the tables |
| Validators | validators.dfy | utils/validators.py |
| Rangos | rangos.dfy | models/rango_cheque.py |
| Cheques | cheques.dfy | models/cheque.py |
| ServicioCheques | cheque_service.dfy | services/cheque_service.py |
| Planillas | planillas.dfy | models/planilla.py |
| Referencias | referencias.dfy | models/referencia.py |
| Agenda | agenda.dfy | models/agenda.py |
| Excel | excel_service.dfy | services/excel_service.py (selection and numbering) |

## Model

Each operation has a row of its own naming the lemmas that characterise it; the rows of those lemmas state the properties.

| member | source | states |
|---|---|---|
| Validators.DigitoCuitDeSuma | utils/validators.py:63-70 | the expected CUIT check digit derived from a weighted sum is always a single digit 0..9 |
| Validators.DigitoCuitDeSumaCaracterizado | utils/validators.py:63-70 | for every digit d, d is the derived check digit exactly when the sum plus d is a multiple of 11, or the sum leaves remainder 1 and d is 9 |
| Validators.DigitoVerificadorCuit | utils/validators.py:57-70 | the check digit computed from the first ten digits with weights 5,4,3,2,7,6,5,4,3,2 is in 0..9 |
| Validators.LimpiarCuit | utils/validators.py:39 | removes hyphens and spaces, then surrounding blanks; characterised by `LimpiarEsLimpio`, `LimpioFijo` and `ValidarCuitIdempotente` |
| Validators.ValidarCuit | utils/validators.py:16-76 | `validar_cuit` on the cleaned value, reporting the first failed check; characterised by `ValidarCuitCorrecto` (both directions) and `CuitCambiaVerificador` |
| Validators.VeredictoCuit | utils/validators.py:42-76 | the checks run in the source's order: a length other than 11 is reported first, then a non-digit; on 11 digits an unlisted 2-digit prefix (not one of 20,23,24,27,30,33,34) is a type rejection naming that prefix, and exactly then; on 11 digits with a listed type a last digit other than `DigitoVerificadorCuit` is a check-digit rejection naming that digit, and exactly then |
| Validators.ValidarCuitCorrecto | utils/validators.py:16-76 | `validar_cuit` accepts exactly the inputs whose cleaned form has 11 digits, a listed type and a correct check digit (both directions) |
| Validators.VeredictoCuitCorrecto | utils/validators.py:42-76 | on a cleaned value, the verdict is valid iff the declarative definition of a valid CUIT holds |
| Validators.LimpioFijo | utils/validators.py:39 | cleaning a value that has no separators or surrounding blanks returns it unchanged |
| Validators.LimpiarEsLimpio | utils/validators.py:39 | the result of cleaning a CUIT or a CBU has no separators and no surrounding blanks |
| Validators.DigitosLimpios | utils/validators.py:39 | a string of digits is already clean |
| Validators.ValidarCuitIdempotente | utils/validators.py:39 | cleaning is idempotent, so validating the cleaned value gives the same verdict as validating the raw one |
| Validators.CuitVerificadorReparable | utils/validators.py:63-74 | the digit reported in a check-digit rejection, put in place of the last digit, makes the CUIT valid |
| Validators.CuitDetectaVerificadorCambiado | utils/validators.py:63-74 | changing only the check digit of a valid CUIT is always rejected, and the rejection names the original digit |
| Validators.CuitCambiaVerificador | utils/validators.py:63-74 | replacing the last digit by d gives a valid CUIT iff d is the check digit, and otherwise a rejection naming it |
| Validators.VeredictoCuitCambiaVerificador | utils/validators.py:63-74 | the same statement on already-cleaned values |
| Validators.FormatearCuit | utils/validators.py:245-260 | with 11 cleaned characters the output is 13 characters with hyphens at positions 2 and 11; otherwise the input is returned unchanged |
| Validators.FormatoCuitSeLimpia | utils/validators.py:255-258 | cleaning the grouped form XX-XXXXXXXX-X gives back the 11 digits |
| Validators.FormatearCuitConserva | utils/validators.py:245-260 | formatting preserves the cleaned value and therefore the verdict of `validar_cuit`, and formatting twice equals formatting once |
| Validators.DigitoMod10 | utils/validators.py:113-119 | the modulo-10 block check digit is always in 0..9 |
| Validators.DigitoMod10Caracterizado | utils/validators.py:113-119 | for every digit d, d is the block digit exactly when the weighted sum plus d is a multiple of 10 |
| Validators.DigitoBloque1 | utils/validators.py:105-119 | the block-1 digit computed from digits 0..6 with weights 7,1,3,9,7,1,3 is in 0..9 |
| Validators.DigitoBloque2 | utils/validators.py:125-145 | the block-2 digit computed from digits 8..20 with weights 3,9,7,1,3,9,7,1,3,9,7,1,3 is in 0..9 |
| Validators.LimpiarCbu | utils/validators.py:94 | removes spaces and hyphens, then surrounding blanks; characterised by `LimpiarEsLimpio` |
| Validators.ValidarCbu | utils/validators.py:79-150 | `validar_cbu` on the cleaned value, block 1 before block 2; characterised by `ValidarCbuCorrecto` (both directions) and `CbuBloque1Primero` |
| Validators.VeredictoCbu | utils/validators.py:97-150 | the checks run in the source's order: a length other than 22 is reported first, then a non-digit; on 22 digits a wrong digit 7 is a block-1 rejection naming `DigitoBloque1`, and exactly then, whatever block 2 holds; with block 1 right a wrong digit 21 is a block-2 rejection naming `DigitoBloque2`, and exactly then |
| Validators.ValidarCbuCorrecto | utils/validators.py:79-150 | `validar_cbu` accepts exactly the inputs whose cleaned form has 22 digits and both block check digits correct (both directions) |
| Validators.VeredictoCbuCorrecto | utils/validators.py:97-150 | on a cleaned value, the verdict is valid iff the declarative definition of a valid CBU holds |
| Validators.CbuBloque1Primero | utils/validators.py:105-122 | an input with both blocks wrong is reported as a block-1 error |
| Validators.CbuDetectaUltimoDigitoCambiado | utils/validators.py:125-148 | changing only the last digit of a valid CBU is always rejected at block 2 |
| Validators.VeredictoCbuUltimoDigito | utils/validators.py:125-148 | the same statement on already-cleaned values |
| Validators.FormatearCbu | utils/validators.py:263-279 | with 22 cleaned characters the output is 26 characters with blanks at 3, 8, 10 and 24; otherwise the input is returned unchanged |
| Validators.FormatoCbuSeLimpia | utils/validators.py:273-277 | cleaning the grouped form gives back the 22 digits |
| Validators.FormatearCbuConserva | utils/validators.py:263-279 | formatting preserves the cleaned value and the verdict of `validar_cbu`, and is idempotent |
| Validators.NormalizarReferencia | utils/validators.py:167 | strips and upper-cases a reference code before it is checked; characterised by `MuestraReferenciaNormalizada` and `Referencias.LetrasMayusculas` |
| Validators.ValidarReferencia | utils/validators.py:153-183 | a code is accepted iff, stripped and upper-cased, it is 5 letters A-Z followed by 7 digits; the length error is reported exactly when the length is not 12 |
| Validators.LimpiarNumero | utils/validators.py:282-294 | the result consists of digits only, is no longer than the input, and holds exactly the digit characters of the input |
| Validators.LimpiarNumeroConcat | utils/validators.py:294 | the filter distributes over concatenation, so digits keep their original order |
| Validators.LimpiarNumeroDigitos | utils/validators.py:294 | a string of digits is returned unchanged |
| Validators.LimpiarNumeroIdempotente | utils/validators.py:294 | filtering twice equals filtering once |
| Validators.CuitConGuionesSeLimpia | utils/validators.py:39 | the hyphenated form of an 11-digit CUIT cleans to the plain digits |
| Validators.MuestraCuit20 | utils/validators.py:311 | "20-12345678-9", listed as a sample, is rejected because its check digit must be 6, and "20-12345678-6" is accepted |
| Validators.Muestra20ConVerificador | utils/validators.py:57-74 | "20-12345678-k" is valid exactly when k is 6 |
| Validators.SumaMuestra20 | utils/validators.py:60-61 | the weighted sum of "2012345678" is 148 |
| Validators.MuestraCuit27 | utils/validators.py:313 | "27-98765432-1", listed as a valid sample, is rejected because its check digit must be 0 |
| Validators.Muestra27Limpia | utils/validators.py:39 | "27-98765432-1" cleans to "27987654321" |
| Validators.Muestra27Veredicto | utils/validators.py:57-74 | "27987654321" is rejected with expected digit 0 |
| Validators.SumaMuestra27 | utils/validators.py:60-61 | the weighted sum of "2798765432" is 220 |
| Validators.MuestraCbu | utils/validators.py:325 | "0170099520000003912345", listed as a valid sample, is rejected at block 1 with expected digit 2 |
| Validators.MuestraCbuLimpia | utils/validators.py:94 | that sample is already clean |
| Validators.MuestraCbuVeredicto | utils/validators.py:105-122 | that sample's digit at position 7 is 5 where 2 is required |
| Validators.SumaMuestraCbu | utils/validators.py:105-113 | the block-1 weighted sum of "0170099" is 58 |
| Validators.MuestraReferencia | utils/validators.py:337 | "LABSEM0118" and "LABSEM0000118", given as valid examples, are both rejected for their length |
| Validators.MuestraReferenciaNormalizada | utils/validators.py:167-181 | " labse0000118 " normalises to "LABSE0000118", which matches the pattern |
| Esquema.TiposEnMinusculas | models/rango_cheque.py:47-48 | the stored check types are already lower-case |
| Esquema.TiposNormalizados | models/rango_cheque.py:47-48 | the stored check types are fixed by `lower().strip()` |
| Rangos.NumerosUsados | models/rango_cheque.py:259-267 | while the cursor lies in [inicial, final+1], the used count is between 0 and the cursor's distance from `inicial` |
| Rangos.NumerosDisponibles | models/rango_cheque.py:269-279 | with a cursor set, the available count is never negative and is positive iff the cursor is at most `final`; with no cursor it is `cantidad_total` as stored, unclamped; when numbers remain and `cantidad_total` is consistent with the bounds it equals final − cursor + 1, the cursor defaulting to `inicial` |
| Rangos.TieneDisponibles | models/rango_cheque.py:291-297 | a range has numbers available iff its cursor (None read as `inicial`) is at most `final` |
| Rangos.CuentasCompletas | models/rango_cheque.py:259-279 | with a consistent `cantidad_total` and the cursor in range, used plus available equals the total |
| Rangos.Existe | models/rango_cheque.py:95-108 | true iff some stored range has the lower-cased type and the given order |
| Rangos.NuevoRango | models/rango_cheque.py:33-89 | the four rejections in the source's order (type, order, bounds, duplicate), each as an iff; a new range has the normalised type, `cantidad_total` = final − inicial + 1, cursor at `inicial` and is active |
| Rangos.NuevoRangoConservaClaves | models/rango_cheque.py:59-61 | inserting a newly created range keeps (tipo, orden) unique in the table |
| Rangos.InsertarPorOrden | models/rango_cheque.py:185 | one insertion step of the `ORDER BY numero_orden` sort; characterised by `InsertarPorOrdenCorrecto` and `CabezaPorOrden` |
| Rangos.OrdenarPorOrden | models/rango_cheque.py:182-186 | the rows sorted by `numero_orden`, stable; characterised by `OrdenarPorOrdenCorrecto` (sorted and a permutation) |
| Rangos.Candidatos | models/rango_cheque.py:182-192 | the active rows of a type in query order; characterised by `CandidatosCorrecto` |
| Rangos.ObtenerRangoActivo | models/rango_cheque.py:175-218 | the first candidate with numbers left, or none; characterised by `ObtenerRangoActivoCorrecto` and `PrimerCandidatoDisponible` |
| Rangos.InsertarPorOrdenCorrecto | models/rango_cheque.py:185 | inserting into a list sorted by `numero_orden` gives a sorted permutation of the list plus the row |
| Rangos.CabezaPorOrden | models/rango_cheque.py:185 | a row no greater than every other row can head a sorted list |
| Rangos.OrdenarPorOrdenCorrecto | models/rango_cheque.py:182-186 | `ORDER BY numero_orden ASC` yields a sorted permutation of the selected rows |
| Rangos.CandidatosCorrecto | models/rango_cheque.py:182-192 | the candidate list is sorted by order and holds exactly the active ranges of the type |
| Rangos.PrimerDisponible | models/rango_cheque.py:195-204 | the index found is the first candidate with numbers available, and no earlier candidate has any |
| Rangos.PrimerDisponibleEn | models/rango_cheque.py:195-204 | an index with that first-match property is the index found |
| Rangos.PrimerDisponibleEsMinimo | models/rango_cheque.py:195-204 | in a sorted list the first candidate with numbers available has the smallest order among those that have any |
| Rangos.PrimerCandidatoDisponible | models/rango_cheque.py:182-218 | no range is found iff every active range of the type is exhausted; a found range is active, of the type, available and of least order |
| Rangos.ObtenerRangoActivoCorrecto | models/rango_cheque.py:175-218 | `obtener_rango_activo` returns None iff every active range of the type is exhausted; otherwise a stored active range of the type with numbers left and minimal `numero_orden`, cursor defaulted to `inicial` |
| Rangos.SiguienteNumero | models/rango_cheque.py:303-348 | an inactive range fails and is untouched; an exhausted one fails with the cursor unchanged; otherwise the old cursor is returned and advanced by exactly one, only the cursor changes, and the number lies in [inicial, final] |
| Rangos.SiguienteDescuentaDisponible | models/rango_cheque.py:269-279 | each successful allocation lowers the available count by exactly one |
| Rangos.Repetir | models/rango_cheque.py:303-348 | helper for `RepetirConsecutivos`: the results of k successive allocations on one range, one per call (its contract gives only their number) |
| Rangos.RepetirConsecutivos | models/rango_cheque.py:320-348 | the i-th of k successive allocations on an active range returns cursor + i while that is at most `final`, and "agotado" afterwards |
| Rangos.RepetirRangoNuevo | models/rango_cheque.py:320-348 | a fresh range hands out inicial, inicial+1, … with no gaps, and no number outside [inicial, final] |
| Rangos.VolcarSoloActivo | models/rango_cheque.py:245-253 | provided the object still matches its stored row, activating or deactivating rewrites only `activo` of that row and every other row is unchanged; from a stale object `actualizar` (models/rango_cheque.py:229-241) writes back all its columns, cursor included (characterises `Rangos.Volcar`, the UPDATE of models/rango_cheque.py:229-234) |
| Rangos.SiguienteSincronizado | models/rango_cheque.py:332-345 | the stored row after an allocation equals the object's new state, and no other row changes |
| Rangos.VolcarConservaClaves | models/rango_cheque.py:220-243 | a row update that keeps tipo and orden keeps them unique; about `Rangos.Volcar`, which writes bounds, total, cursor and `activo` and never type or order |
| Rangos.RangoCheque.constructor | models/rango_cheque.py:18-30 | the object holds the given key and fields |
| Rangos.RangoCheque.Crear | models/rango_cheque.py:33-92 | the table gains exactly the row `NuevoRango` builds, with the next key, or is unchanged on each rejection |
| Rangos.RangoCheque.ObtenerSiguienteNumero | models/rango_cheque.py:303-352 | the result and the new object state are those of `SiguienteNumero`; on success only this row's cursor is written, and on failure the table is unchanged |
| Rangos.RangoCheque.Actualizar | models/rango_cheque.py:220-243 | fails without an id; otherwise writes this object's fields over its row only |
| Rangos.RangoCheque.Desactivar | models/rango_cheque.py:245-248 | only `activo` becomes false, and the row is rewritten |
| Rangos.RangoCheque.Activar | models/rango_cheque.py:250-253 | only `activo` becomes true, and the row is rewritten |
| Cheques.EstadoDeNombre | models/cheque.py:17-22 | a state name is parsed to the state of that name, and None exactly for strings that name no state |
| Cheques.Existe | models/cheque.py:99-111 | true iff some ledger row has the number and the lower-cased type |
| Cheques.NuevoCheque | models/cheque.py:41-98 | the checks of `Cheque.crear` and the pending row it inserts; characterised by `NuevoChequeCorrecto` and `NuevoChequeConservaUnicidad` |
| Cheques.NuevoChequeCorrecto | models/cheque.py:41-98 | rejections in the source's order (type, duplicate (numero, tipo), non-positive amount), each as an iff; a new check is `emitido_pendiente` with the normalised type and the given fields |
| Cheques.NuevoChequeConservaUnicidad | models/cheque.py:56-58 | inserting a check whose (numero, tipo) is new keeps the pair unique in the ledger |
| Cheques.GuardasSegunTransiciones | models/cheque.py:310-385 | a marking method is allowed exactly when its target is in the transition table of `puede_cambiar_estado`, except that `marcar_como_sin_usar` is also allowed from sin_usar |
| Cheques.CargadoEsFinal | models/cheque.py:316-343 | no marking method can leave `cargado_sistema` |
| Cheques.VolcarConservaUnicidad | models/cheque.py:281-308 | rewriting a row never changes its number or type, so (numero, tipo) stays unique; about `Cheques.Volcar`, the UPDATE of models/cheque.py:290-295 |
| Cheques.Cheque.constructor | models/cheque.py:24-38 | the object holds the given key and fields |
| Cheques.Cheque.Crear | models/cheque.py:41-98 | the ledger gains exactly the row `NuevoCheque` builds, with the next key, or is unchanged on each rejection |
| Cheques.Cheque.PuedeCambiarEstado | models/cheque.py:366-385 | true iff the target names a state that is in the transition table of the current state |
| Cheques.Cheque.Actualizar | models/cheque.py:281-308 | fails without an id; otherwise writes this object's fields over its row only |
| Cheques.Cheque.Marcar | models/cheque.py:310-344 | a refused transition raises before any assignment, leaving the state and the ledger unchanged; an allowed one sets the target state and writes the row |
| Cheques.Cheque.MarcarComoCorrecto | models/cheque.py:310-320 | succeeds only from `emitido_pendiente`, leading to `emitido_correcto` |
| Cheques.Cheque.MarcarComoCargado | models/cheque.py:322-332 | succeeds only from `emitido_correcto`, leading to `cargado_sistema` |
| Cheques.Cheque.MarcarComoSinUsar | models/cheque.py:334-344 | fails only from `cargado_sistema`, so it is allowed from pendiente, correcto and sin_usar |
| Cheques.PuedeCambiarEstadoTabla | models/cheque.py:373-384 | from pendiente exactly "emitido_correcto" and "sin_usar" are allowed, from correcto exactly "cargado_sistema" and "sin_usar", and nothing from cargado or sin_usar |
| ServicioCheques.TomarNumero | services/cheque_service.py:11-67 | one allocation with fallover across the active ranges of a type; characterised by `TomarNumeroCorrecto` and `TomarNumeroComoRangoActivo` |
| ServicioCheques.TomarNumeroCorrecto | services/cheque_service.py:11-67 | no active range of the type → error; every active range exhausted → error and no range modified; otherwise the cursor of the first range with numbers left, in ascending order, is returned and only that range's cursor advances by one |
| ServicioCheques.TomarNumeroComoRangoActivo | services/cheque_service.py:27-64 | the service picks the same range `obtener_rango_activo` returns, and succeeds exactly when that finds one |
| ServicioCheques.TomarNumeroEn | services/cheque_service.py:43-67 | the loop's outcome at the first available candidate index, or "all exhausted" past the end |
| ServicioCheques.ObtenerProximoNumero | services/cheque_service.py:11-67 | the loop returns the number and leaves the range table exactly as `TomarNumero` says |
| ServicioCheques.TipoDeModalidad | services/cheque_service.py:87-88 | modalidad 8 maps to "diferido", every other modalidad to "comun" |
| ServicioCheques.AsignarUno | services/cheque_service.py:85-104 | one check item: a number, then a ledger row; characterised by `AsignarUnoCorrecto` |
| ServicioCheques.AsignarUnoCorrecto | services/cheque_service.py:85-104 | one item: on success the number comes from the fallover allocation and one pending ledger row with that number, the batch id and the item's payee, amount and dates is appended; on failure no ledger row is added; in every case the ranges are those the allocation left, so a failed allocation leaves the whole state unchanged and a number allocated for a check the ledger then refuses stays consumed |
| ServicioCheques.NumerarItem | services/cheque_service.py:85-104 | one loop iteration changes the tables exactly as `AsignarUno` says |
| ServicioCheques.Asignar | services/cheque_service.py:70-106 | the loop over the check items, stopping at the first error; characterised by `AsignarSinDeshacer`, `AsignarAvanzaRangos`, `AsignarNumeraCadaItem`, `AsignarRegistraCadaItem` and `AsignarConservaUnicidad` |
| ServicioCheques.AsignarNumerosAPlanilla | services/cheque_service.py:70-106 | the loop over the items, in list order, leaves the result and the tables exactly as `Asignar` says |
| ServicioCheques.AsignarSinDeshacer | services/cheque_service.py:85-104 | there is no rollback: the old ledger is a prefix of the new one, at most one row per item is added, and fewer than that on failure |
| ServicioCheques.AsignarAvanzaRangos | services/cheque_service.py:85-104 | no rollback of the ranges either: on success they are the ranges after one allocation per item, in order; after an error at the item with index k (k = rows added) they are the ranges after k + 1 allocations, the failed one included |
| ServicioCheques.RangosDelResto | services/cheque_service.py:85-104 | the step of the same statement: what holds for the items after the first, from the ranges the first allocation left, holds for the whole list from the original ranges |
| ServicioCheques.ClavesCons | services/cheque_service.py:104 | the item keys of a list are the first key plus those of the rest |
| ServicioCheques.RegistraItemsCons | services/cheque_service.py:94-104 | one ledger row for the first item plus rows for the rest record the whole list |
| ServicioCheques.AsignarNumeraCadaItem | services/cheque_service.py:104-106 | on success the returned map sends exactly the item ids to numbers |
| ServicioCheques.AsignarRegistraCadaItem | services/cheque_service.py:91-104 | on success the ledger gained one pending row per item, in item order, carrying the number the item was mapped to |
| ServicioCheques.AsignarConservaUnicidad | services/cheque_service.py:94-102 | numbering keeps every (numero, tipo) in the ledger unique |
| Planillas.EsCheque | models/planilla.py:433-435 | `es_cheque`: modalidad 6 or 8; characterised by `Clasificacion` |
| Planillas.EsTransferencia | models/planilla.py:437-439 | `es_transferencia`: modalidad 2 or 4; characterised by `Clasificacion` |
| Planillas.EsDiferido | models/planilla.py:441-443 | `es_diferido`: modalidad 8; characterised by `Clasificacion` |
| Planillas.Clasificacion | models/planilla.py:433-443 | for a valid modalidad an item is a check iff it is not a transfer; other modalidades are neither; a deferred item is a check |
| Planillas.ValidarItem | models/planilla.py:216-225 | checks in order: not draft → not editable; then modalidad ∉ {2,4,6,8}; then importe ≤ 0; each as an iff, and success iff all pass |
| Planillas.ItemsDeCorrecto | models/planilla.py:248-281 | `obtener_items` returns exactly this batch's items, in ascending key order |
| Planillas.SumaConcat | models/planilla.py:321-329 | the sum of amounts distributes over concatenation |
| Planillas.SumaPositiva | models/planilla.py:321-329 | with positive amounts the sum is non-negative, and positive iff there is an item |
| Planillas.Total | models/planilla.py:314-329 | the sum of the amounts of a batch's items; characterised by `TotalAlAgregar`, `TotalAlEliminar` and `SumaPositiva` |
| Planillas.Planilla.CalcularTotal | models/planilla.py:314-329 | `calcular_total` on this batch's items, which is `Total`; characterised by `TotalAlAgregar` and `TotalAlEliminar` |
| Planillas.TotalAlAgregar | models/planilla.py:314-329 | adding an item of this batch raises the total by its amount; adding one of another batch leaves it unchanged |
| Planillas.SumaDondeCons | models/planilla.py:321 | the filtered sum of a list is the head's contribution plus the sum of the rest |
| Planillas.TotalAlEliminar | models/planilla.py:283-297 | the total after deletion plus the amounts of the deleted rows equals the old total |
| Planillas.TotalAlEliminarUno | models/planilla.py:283-297 | deleting an item lowers the total by that item's amount if it belongs to this batch, and changes nothing otherwise |
| Planillas.EliminadoUnico | models/planilla.py:292 | under unique keys, `WHERE id = ? AND planilla_id = ?` matches at most the row found by key |
| Planillas.Configuracion.constructor | models/planilla.py:67-79 | a fresh configuration table has no batch counter yet |
| Planillas.NumerosConsecutivos | models/planilla.py:67-95 | k successive creations get k consecutive batch numbers, starting at the counter or at 1 |
| Planillas.TrasGenerar | models/planilla.py:335-344 | the object after `marcar_como_generada`; characterised by `CicloDeVida` |
| Planillas.TrasDescargar | models/planilla.py:346-352 | the object after `marcar_como_descargada`, refused unless generated; characterised by `CicloDeVida` |
| Planillas.Planilla.PuedeEditar | models/planilla.py:358-364 | `puede_editar`, which is `es_borrador`; characterised by `CicloDeVida` and the contracts of `AgregarItem` and `EliminarItem` |
| Planillas.CicloDeVida | models/planilla.py:335-352 | after generation the batch is no longer a draft; it can be marked downloaded iff it is generated; neither generated nor downloaded batches accept items |
| Planillas.Planilla.constructor | models/planilla.py:36-47 | the object holds the given key and fields |
| Planillas.Planilla.Crear | models/planilla.py:50-109 | a missing referencia is rejected with nothing changed; otherwise a draft batch numbered from the counter (1 if absent) is appended with the next key, and the counter becomes that number plus one |
| Planillas.Planilla.Actualizar | models/planilla.py:166-185 | fails without an id; otherwise writes this object's fields over its row only |
| Planillas.Planilla.AgregarItem | models/planilla.py:191-246 | a rejection leaves the items table unchanged and reports `ValidarItem`'s error; otherwise exactly one item with the given fields and no check number is appended under the next key, and that key is returned |
| Planillas.Planilla.EliminarItem | models/planilla.py:283-297 | outside draft it fails with the table unchanged; otherwise exactly the rows with that key and this batch are removed |
| Planillas.Planilla.ObtenerItems | models/planilla.py:248-281 | returns this batch's items as `ItemsDe` selects them |
| Planillas.Planilla.MarcarComoGenerada | models/planilla.py:335-344 | with no precondition sets the state to generada and records the file, then writes the row |
| Planillas.Planilla.MarcarComoDescargada | models/planilla.py:346-352 | outside generada it fails with nothing changed; otherwise sets descargada and writes the row |
| Referencias.Existe | models/referencia.py:112-132 | true iff some stored code equals the upper-cased code |
| Referencias.AltaReferenciaCorrecta | models/referencia.py:57-109 | on a code already upper-cased and stripped: rejected as invalid iff it fails the pattern, as a duplicate iff it is valid and stored; an accepted referencia holds the code and the description and is active; appending it keeps codes unique and valid; characterises `Referencias.AltaReferencia` |
| Referencias.NuevaReferencia | models/referencia.py:57-109 | the checks of `Referencia.crear` and the active row it inserts; characterised by `AltaReferenciaCorrecta` and `NuevaReferenciaCorrecta` |
| Referencias.NuevaReferenciaCorrecta | models/referencia.py:57-109 | the code is upper-cased and stripped; it is rejected iff invalid, then iff already stored; a new referencia is active; creation keeps codes unique and valid |
| Referencias.MayorCodigo | models/referencia.py:263-274 | the greatest stored code with the prefix, as `ORDER BY codigo DESC LIMIT 1`; characterised by `MayorCodigoCorrecto` |
| Referencias.SiguienteNumero | models/referencia.py:276-286 | one more than the suffix of that code, or 1; characterised by `SiguienteSuperaMayor` and `SiguienteNoEsta` |
| Referencias.CodigoPara | models/referencia.py:258-286 | the prefix check and the padded code; characterised by `CodigoParaForma`, `CodigoParaCorrecto` and `CodigoParaNuevo` |
| Referencias.GenerarSiguienteCodigo | models/referencia.py:232-286 | `generar_siguiente_codigo`; characterised by `GenerarSiguienteCodigoCorrecto`, `PrimerCodigo` and `CodigoSiguienteA118` |
| Referencias.MayorCodigoCorrecto | models/referencia.py:263-274 | the query finds a code iff one starts with the prefix, and then a stored matching code that no other matching code exceeds in text order; a code matches when `Referencias.CoincidePrefijo` holds, the `LIKE` of lines 266-273, which ignores the case of ASCII letters |
| Referencias.CodigoCompuesto | models/referencia.py:284-286 | five capital letters and a number below ten million padded to seven digits make a 12-character code that passes `validar_referencia` and reads back as that number |
| Referencias.SiguienteSuperaMayor | models/referencia.py:276-286 | the generated code is greater in text order than the greatest stored code with its prefix |
| Referencias.SiguienteNoEsta | models/referencia.py:263-286 | in a table of valid codes, the next code for a prefix is not stored yet |
| Referencias.CodigoParaForma | models/referencia.py:258-286 | a prefix is rejected iff it is not 5 letters; otherwise the result is the prefix and the next number padded to 7 digits |
| Referencias.LetrasMayusculas | models/referencia.py:259-260 | letters with no lower-case among them are upper-case |
| Referencias.CodigoParaCorrecto | models/referencia.py:258-286 | for an upper-cased prefix, the generated code (with its number below ten million) is 12 characters, starts with the prefix, carries the next number and passes `validar_referencia` |
| Referencias.CodigoParaNuevo | models/referencia.py:263-286 | in a table of valid codes, the generated code for an upper-cased prefix is not stored yet |
| Referencias.GenerarSiguienteCodigoCorrecto | models/referencia.py:232-286 | for any prefix: rejected iff its normalised form is not 5 letters; otherwise the code is the prefix and the next number, valid, and new in a table of valid codes |
| Referencias.RellenoDeUno | models/referencia.py:282-286 | 1 padded to seven digits is "0000001" |
| Referencias.RellenoDe119 | models/referencia.py:285-286 | 119 padded to seven digits is "0000119" |
| Referencias.ValorDe118 | models/referencia.py:277-279 | "0000118" reads as 118 |
| Referencias.LabseNormalizado | models/referencia.py:259 | the prefix "LABSE" is already normalised |
| Referencias.PrimerCodigo | models/referencia.py:280-286 | with no code for the prefix the first code is prefix + "0000001" |
| Referencias.CodigoSiguienteA118 | models/referencia.py:253-256 | after a stored …0000118 the next code is …0000119 |
| Referencias.PrefijoDeSeisLetras | models/referencia.py:253-256 | the six-letter prefix "LABSEM" used in the docstring is rejected |
| Referencias.VolcarConservaCodigos | models/referencia.py:292-323 | `actualizar` writes only descripcion and activa, so every code is immutable and stays unique and valid; about `Referencias.Volcar`, the UPDATE of models/referencia.py:311-315 |
| Referencias.CambioDeActivaSoloActiva | models/referencia.py:325-348 | activating or deactivating changes only `activa` in the stored row; about `Referencias.Volcar`, from an object whose description matches the row |
| Referencias.EliminarPorClave | models/referencia.py:378-381 | after the delete no row has that key, and every other key is still found |
| Referencias.Referencia.constructor | models/referencia.py:34-50 | the object holds the given key and fields |
| Referencias.Referencia.Crear | models/referencia.py:57-109 | the table gains exactly the row `NuevaReferencia` builds, with the next key, or is unchanged on each rejection |
| Referencias.Referencia.Actualizar | models/referencia.py:292-323 | fails without an id; otherwise writes descripcion and activa over its row only |
| Referencias.Referencia.Desactivar | models/referencia.py:325-337 | only `activa` becomes false, and the row is rewritten |
| Referencias.Referencia.Activar | models/referencia.py:339-348 | only `activa` becomes true, and the row is rewritten |
| Referencias.Referencia.TienePlanillas | models/referencia.py:390-403 | true iff this referencia has a key and some batch refers to it |
| Referencias.Referencia.EliminarPermanentemente | models/referencia.py:350-384 | fails without an id, or when batches refer to it, with nothing changed; otherwise the row is deleted and the id becomes None |
| Agenda.ExisteCuit | models/agenda.py:81-95 | true iff some check contact stores the upper-cased CUIT string |
| Agenda.AltaChequeCorrecta | models/agenda.py:46-75 | on an upper-cased CUIT: rejected as invalid iff `validar_cuit` fails; as a duplicate iff valid and the same string is stored; created, active, iff valid and new; characterises `Agenda.AltaCheque` |
| Agenda.NuevoContactoCheque | models/agenda.py:36-78 | the checks of `ContactoCheque.crear` and the row it inserts; characterised by `AltaChequeCorrecta`, `NuevoContactoChequeCorrecto` and `AltaConservaUnicidad` |
| Agenda.NuevoContactoChequeCorrecto | models/agenda.py:36-78 | `ContactoCheque.crear` upper-cases and strips the CUIT, then the rules above apply to the normalised string |
| Agenda.AltaConservaUnicidad | models/agenda.py:51-53 | inserting a contact with a new CUIT string keeps CUIT strings unique |
| Agenda.CrearConservaUnicidad | models/agenda.py:36-78 | a successful creation keeps CUIT strings unique |
| Agenda.GuionesMismoVeredicto | models/agenda.py:47 | the hyphenated and plain forms of a CUIT get the same verdict |
| Agenda.GuionesYDigitos | models/agenda.py:46 | the hyphenated form is 13 characters of digits and hyphens with the same first and last digit |
| Agenda.GuionesNormalizados | models/agenda.py:46 | both forms are fixed by normalisation and are different strings |
| Agenda.GuionesSonOtraClave | models/agenda.py:52-53 | uniqueness compares the stored string, so a valid CUIT stored in one form can be created again in the other form |
| Agenda.DesactivarContacto | models/agenda.py:199-206 | for either kind of contact (also models/agenda.py:420-423), provided the object still matches its stored row: deactivation stores exactly the cleared object in that row, so only `activo` changes there, and every other row is unchanged; from a stale object the UPDATE writes back every field of the object |
| Agenda.ContactoCheque.constructor | models/agenda.py:27-34 | the object holds the given key and fields |
| Agenda.ContactoCheque.Crear | models/agenda.py:36-78 | the table gains exactly the row `NuevoContactoCheque` builds, with the next key, or is unchanged on each rejection |
| Agenda.ContactoCheque.Actualizar | models/agenda.py:173-197 | fails without an id; otherwise writes this object's fields over its row only |
| Agenda.ContactoCheque.Desactivar | models/agenda.py:199-206 | only `activo` becomes false, and the row is rewritten |
| Agenda.ExistePar | models/agenda.py:286-304 | true iff some transfer contact stores the upper-cased CUIT together with the CBU |
| Agenda.ObtenerPorCuit | models/agenda.py:329-352 | returns exactly the transfer contacts that store the upper-cased CUIT |
| Agenda.AltaTransferenciaValida | models/agenda.py:245-254 | the CUIT is checked before the CBU: rejected for the CUIT iff it is invalid, for the CBU iff the CUIT is valid and the CBU invalid; with `AltaTransferenciaUnica`, characterises `Agenda.AltaTransferencia` |
| Agenda.AltaTransferenciaUnica | models/agenda.py:256-280 | on an upper-cased CUIT: a duplicate iff both are valid and the same (CUIT, CBU) pair is stored; created, active, iff both valid and the pair is new |
| Agenda.NuevoContactoTransferencia | models/agenda.py:234-283 | the checks of `ContactoTransferencia.crear` and the row it inserts; characterised by `AltaTransferenciaValida`, `AltaTransferenciaUnica` and `NuevoContactoTransferenciaCorrecto` |
| Agenda.NuevoContactoTransferenciaCorrecto | models/agenda.py:234-283 | `ContactoTransferencia.crear` normalises the CUIT (upper, strip) and the CBU (strip), then the rules above apply |
| Agenda.AltaConservaPares | models/agenda.py:257 | inserting a contact with a new pair keeps (CUIT, CBU) pairs unique |
| Agenda.CrearConservaPares | models/agenda.py:234-283 | a successful creation keeps pairs unique |
| Agenda.ObtenerPorCuitTrasCrear | models/agenda.py:329-352 | after creating a contact for a CUIT, `obtener_por_cuit` returns the earlier contacts of that CUIT plus the new one, so one CUIT may have several CBUs |
| Agenda.ContactoTransferencia.constructor | models/agenda.py:224-232 | the object holds the given key and fields |
| Agenda.ContactoTransferencia.Crear | models/agenda.py:234-283 | the table gains exactly the row `NuevoContactoTransferencia` builds, with the next key, or is unchanged on each rejection |
| Agenda.ContactoTransferencia.Actualizar | models/agenda.py:395-418 | fails without an id; otherwise writes this object's fields over its row only |
| Agenda.ContactoTransferencia.Desactivar | models/agenda.py:420-423 | only `activo` becomes false, and the row is rewritten |
| Excel.PosicionesSeleccion | services/excel_service.py:27 | the positions of the check items, in order, are exactly where the selected items sit in the full list |
| Excel.PosicionesCheques | services/excel_service.py:27 | a position is listed iff the item there has modalidad 6 or 8; characterises `Excel.ItemsCheque`, the list comprehension at line 27 |
| Excel.PosicionesDeCheques | services/excel_service.py:27 | the same for the whole item list |
| Excel.SinCheques | services/excel_service.py:27-28 | when nothing is selected, no item is a check |
| Excel.NumerosCubren | services/excel_service.py:30-37 | a successful numbering maps the id of every check item |
| Excel.Registros | services/excel_service.py:35-37 | one record per item, and a record carries a check number iff its item is a check |
| Excel.AnotadosSonRegistros | services/excel_service.py:35-37 | annotating the check positions of the item records gives exactly `Registros` |
| Excel.AnotarNumeros | services/excel_service.py:36-37 | the loop sets the number of each check item's record in place and leaves every other record untouched |
| Excel.NumerarRegistros | services/excel_service.py:36-37 | after the loop the records equal `Registros` |
| Excel.EscribirRenglones | services/excel_service.py:68-89 | exactly one row per item, in item order, starting at row 4 |
| Excel.Hoja | services/excel_service.py:68-89 | the rows written for the numbered records; characterised by `HojaDeRegistros` |
| Excel.HojaEs | services/excel_service.py:68-89 | the rows written are the sheet `Hoja` |
| Excel.HojaDeRegistros | services/excel_service.py:68-89 | from the numbered records: one row per item at row 4 + k, copying the item and batch fields, showing the item's allocated number for a check and `cuenta_pago` otherwise |
| Excel.Numeracion | services/excel_service.py:27-37 | selection of the check items and their allocation; characterised by `NumeracionCubre` and `ChequeRegistrado` |
| Excel.PrepararHoja | services/excel_service.py:24-89 | numbering then the sheet; characterised by `PrepararHojaCorrecta` and `HojaComoElRegistro` |
| Excel.GenerarComoEscrita | services/excel_service.py:21-102 | `generar_planilla` as written; characterised by `ComoEscritaNuncaGenera` |
| Excel.Generar | services/excel_service.py:21-102 | the corrected `generar_planilla`; characterised by `GenerarMarcaAlFinal` |
| Excel.NumeracionCubre | services/excel_service.py:27-37 | on success the allocation covers every check item: each check item's id is a key of the returned map (the empty case, where nothing is allocated and the tables are unchanged, is stated by `PrepararHojaCorrecta`) |
| Excel.PrepararHojaCorrecta | services/excel_service.py:24-89 | an allocation error is reported as such; on success there is one row per item at row 4 + k, copying the item and the batch fields, whose slot holds the check number for modalidad 6 and 8 and `cuenta_pago` otherwise |
| Excel.ChequeRegistrado | services/excel_service.py:30-37 | each check item's number is in the map and a ledger row for that number, the batch and the item was added |
| Excel.HojaComoElRegistro | services/excel_service.py:24-89 | every check row of the sheet shows a number for which the ledger now holds a check of that batch and item |
| Excel.ComoEscritaNuncaGenera | services/excel_service.py:21-102 | as written, generation never succeeds and never marks the batch, while a successful numbering has already added one ledger row per check item |
| Excel.GenerarMarcaAlFinal | services/excel_service.py:21-102 | corrected: succeeds iff the batch exists, has a key and the numbering succeeds; then only that batch becomes generada with the file recorded, and the result is the prepared sheet; on failure no batch changes |
| Excel.NumerarItems | services/excel_service.py:24-37 | selection and allocation change the tables as `Numeracion` says, and on success the records carry the allocated numbers |
| Excel.ArmarHoja | services/excel_service.py:24-89 | builds the sheet and changes the tables exactly as `PrepararHoja` says |
| Excel.GenerarPlanilla | services/excel_service.py:21-102 | the corrected generation changes the tables and the batch exactly as `Generar` says |
| Excel.GenerarPlanillaComoEscrita | services/excel_service.py:21-102 | the generation as written changes the tables exactly as `GenerarComoEscrita` says |

## Left out

- The SQLite connection, schema creation and query plumbing are not modelled. Tables are in-memory sequences of rows with ascending keys, and the cursor read and update of a range run sequentially. No mutual exclusion between concurrent allocations is claimed.
- The user interface, `main.py`, `test.py` and the print-based `test_*` functions are not modelled. Their sample values appear only in the `Muestra*` lemmas.
- `validar_importe` and `porcentaje_usado` work on floats and are not modelled. Amounts are whole numbers (cents).
- `validar_fecha` (`datetime.strptime`) and every `datetime.now()` timestamp are not modelled. Dates are optional strings passed through unchanged.
- The `re` engine is not modelled. The reference pattern is written as a character-class predicate.
- The listing, search and statistics helpers (`obtener_por_id`, `obtener_todos`/`obtener_todas`, `obtener_por_numero`, `obtener_por_estado`, `obtener_por_planilla`, `obtener_por_cbu`, `buscar_*`, `contar_*`, `obtener_estadisticas`, `to_dict`, `__str__`) are not modelled. They read the tables without changing them, and `Tablas.Buscar` stands for a lookup by key.
- `es_comun`, `esta_pendiente`, `esta_disponible`, `es_borrador`, `tiene_items` and `obtener_referencia` are single comparisons and are not modelled as separate members.
- The workbook side of `generar_planilla` is not modelled: the header row, fonts, fills, column widths, the file name, the path and `wb.save`. The file path is a parameter, and a failure to save is not modelled.
- Characters are ASCII in the model. Python's `isdigit`, `isalpha`, `upper`, `lower` and `int()` also accept other Unicode digits and letters. `strip` removes the ASCII whitespace characters.
- Referencias.SiguienteNumero: the model reads a stored suffix only when it is all ASCII digits and returns `SufijoNoNumerico` otherwise. Python's `int()` (models/referencia.py:278) also accepts surrounding whitespace, a sign and underscores between digits (`" 0000012"`, `"+000012"`, `"0_00012"`), which the model rejects, and raises on the rest. Such a suffix only exists if a code was stored without `crear`.
- Referencias.CodigoParaCorrecto: the code is proved valid only while the next number is below ten million. Past that, the source's `:07d` produces more than seven digits and the code fails `validar_referencia`.
- Referencias.GenerarSiguienteCodigoCorrecto: the same bound applies.
- The agenda tables' `activo` column is assumed to default to true on insert, as the returned object says. The agenda schema is not part of this model.
- Agenda.AltaChequeCorrecta: the statement that every stored CUIT is valid is not stated as a table invariant, because rows written through `actualizar` are not re-validated by the source either.
- Planillas.Planilla.constructor: states are an enumeration, so the fallback `estado or ESTADO_BORRADOR` (models/planilla.py:45) for an empty state string is not represented; a batch with no state cannot be built.
- Cheques.Cheque.constructor: likewise for `estado or ESTADO_PENDIENTE` (models/cheque.py:31).
- The numbering service creates its ledger rows with `referencia_id` NULL (0 here), as the source does.
- Rangos.TieneDisponibles: the iff with availability is stated only when the cursor is set or `cantidad_total` is consistent, because a row with a None cursor and an inconsistent total can disagree.
- Rangos.NumerosUsados: the bound is stated only while the cursor lies in [inicial, final+1].
- Excel.GenerarPlanilla: the result of `marcar_como_generada` is not reported separately. The batch row is always found by then.
- Excel.AnotarNumeros: an item dictionary is modelled as a record in an array of the selected view. The aliasing between the item list and the check-item list (the same dictionaries) is captured by writing the numbers through the positions of the check items in the full list.

## Findings

| source | as written | input that shows it | evidently intended | confidence | as-written member | corrected member |
|---|---|---|---|---|---|---|
| services/excel_service.py:96 | the file name reads `planilla.referencia`, an attribute `Planilla` never defines (models/planilla.py:36-47), so every call raises after the check numbers have been allocated and recorded, and the batch is never marked generada | any existing batch whose numbering succeeds, e.g. one with a single transfer item | save the sheet and mark the batch generada with the file path (line 102) | high (not executed) | Excel.ComoEscritaNuncaGenera | Excel.GenerarMarcaAlFinal |
