/** Shared wrappers and the error taxonomy of the settlement engine.
    Every error kind corresponds to one `throw new Error(...)` of the backend. */
module Common {

  datatype Option<+T> = None | Some(value: T)

  datatype Error =
    // cash session
    | CajaYaAbierta            // "Ya existe una caja abierta..."
    | MontosInicialesNegativos // "Los montos iniciales no pueden ser negativos."
    | SinCajaAbierta           // no ABIERTA session (open movement, close, sale, void)
    | TipoMovimientoInvalido   // manual movement other than INGRESO/EGRESO
    | CategoriaRequerida       // manual movement without a category
    | MontoInvalido            // manual movement amount <= 0
    // products and payments of a sale
    | VentaSinProductos
    | ProductoSinId
    | CantidadInvalida
    | ProductoNoExiste
    | SinPagos
    | SumaPagosNoCoincide
    | PagoNoEfectivoExcedeAfecto
    | TipoVentaInvalido
    // sale creation
    | UsuarioNoIdentificado
    | TotalNoPositivo
    | DatosPagoInvalidos
    // stock ledger
    | ProductoNoEncontradoStock
    // void and receipt marking
    | IdVentaRequerido
    | VentaNoExiste
    | VentaYaAnulada
    | VentaBoleteada
    | VentaDeOtraCaja
    | ReversionNoInvocable     // calling a value that is not a function (TypeError)
    | FolioRequerido
    | VentaInternaNoSeBoletea
    | VentaYaBoleteada

  datatype Result<+T> = Ok(value: T) | Err(error: Error)

  /** Outcome of an operation that returns nothing on success. */
  datatype Outcome = Pass | Fail(error: Error)
}
