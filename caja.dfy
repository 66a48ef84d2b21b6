/** The cash-session record (`caja_sesiones`) and the pure arithmetic of
    src/services/caja.service.js: number coercion, the manual-movement guard,
    the effect of a manual movement and the close computation.  The state
    machine itself (one open session, history) lives in `Backend.Store`. */
module Caja {
  import opened Common

  /** A value as the HTTP layer hands it over: either something `Number()`
      turns into NaN, or the decimal number `digits / 10^scale`. */
  datatype RawNumber = NaN | Decimal(digits: int, scale: nat)

  function Pow10(n: nat): (p: nat)
    ensures p >= 1
  {
    if n == 0 then 1 else 10 * Pow10(n - 1)
  }

  /** `toIntOrZero`: NaN becomes 0, anything else is truncated toward zero
      (`Math.trunc`).  Despite its comment it does not clamp to >= 0. */
  function ToIntOrZero(v: RawNumber): (r: int)
    ensures v.NaN? ==> r == 0
    ensures v.Decimal? && v.digits >= 0 ==>
              0 <= r && r * Pow10(v.scale) <= v.digits < r * Pow10(v.scale) + Pow10(v.scale)
    ensures v.Decimal? && v.digits < 0 ==>
              r <= 0 && r * Pow10(v.scale) - Pow10(v.scale) < v.digits <= r * Pow10(v.scale)
  {
    match v
    case NaN => 0
    case Decimal(d, s) =>
      var p := Pow10(s);
      if d >= 0 then DivBounds(d, p); d / p
      else DivBounds(-d, p); -((-d) / p)
  }

  /** Quotient bounds of non-negative division. */
  lemma DivBounds(n: int, p: int)
    requires n >= 0 && p >= 1
    ensures 0 <= n / p
    ensures (n / p) * p <= n < (n / p) * p + p
    ensures (-(n / p)) * p == -((n / p) * p)
  {
    var q, m := n / p, n % p;
    assert n == q * p + m && 0 <= m < p;
  }

  /** Truncation goes toward zero, not down (Euclidean or floor division
      would give -8 for -7.5), and a negative input stays negative. */
  lemma ToIntOrZeroTowardZero()
    ensures ToIntOrZero(Decimal(-75, 1)) == -7
    ensures ToIntOrZero(Decimal(75, 1)) == 7
    ensures ToIntOrZero(NaN) == 0
  {
    assert Pow10(1) == 10;
  }

  datatype CajaEstado = Abierta | Cerrada

  /** One row of `caja_sesiones`. */
  datatype Session = Session(
    id: nat,
    abiertaPor: nat,
    cerradaPor: Option<nat>,
    inicialLocal: int,
    inicialVecina: int,
    totalEfectivoGiro: int,
    totalDebito: int,
    totalCredito: int,
    totalTransferencia: int,
    totalExento: int,
    ingresosExtra: int,
    egresos: int,
    movimientosVecina: int,
    esperadoLocal: int,
    esperadoVecina: int,
    realLocal: Option<int>,
    realVecina: Option<int>,
    diferenciaLocal: Option<int>,
    diferenciaVecina: Option<int>,
    ticketsEfectivo: int,
    ticketsDebito: int,
    ticketsCredito: int,
    ticketsTransferencia: int,
    estado: CajaEstado)

  /** Every accumulator and ticket counter at zero, nothing counted yet. */
  ghost predicate Pristine(s: Session) {
    && s.totalEfectivoGiro == 0 && s.totalDebito == 0 && s.totalCredito == 0
    && s.totalTransferencia == 0 && s.totalExento == 0
    && s.ingresosExtra == 0 && s.egresos == 0 && s.movimientosVecina == 0
    && s.esperadoLocal == 0 && s.esperadoVecina == 0
    && s.realLocal.None? && s.realVecina.None?
    && s.diferenciaLocal.None? && s.diferenciaVecina.None?
    && s.ticketsEfectivo == 0 && s.ticketsDebito == 0
    && s.ticketsCredito == 0 && s.ticketsTransferencia == 0
    && s.cerradaPor.None?
  }

  /** The row inserted by `abrirCaja`. */
  function NuevaSesion(id: nat, usuario: nat, inicialLocal: int, inicialVecina: int): (s: Session)
    ensures Pristine(s) && s.estado == Abierta
    ensures s.id == id && s.abiertaPor == usuario
    ensures s.inicialLocal == inicialLocal && s.inicialVecina == inicialVecina
  {
    Session(id, usuario, None, inicialLocal, inicialVecina,
            0, 0, 0, 0, 0,
            0, 0, 0,
            0, 0,
            None, None,
            None, None,
            0, 0, 0, 0,
            Abierta)
  }

  /** Cash the local till should hold: the float plus cash/withdrawal sales
      plus extra income minus expenses.  Exempt sales are not subtracted. */
  function EsperadoLocal(s: Session): int {
    s.inicialLocal + s.totalEfectivoGiro + s.ingresosExtra - s.egresos
  }

  /** The secondary till is compared against its float only. */
  function EsperadoVecina(s: Session): int {
    s.inicialVecina
  }

  /** The single UPDATE of `cerrarCaja`: expectations, counted amounts,
      differences and the state change; every accumulator is kept. */
  function CerrarSesion(s: Session, usuario: nat, realLocal: int, realVecina: int): (c: Session)
    ensures c.estado == Cerrada && c.cerradaPor == Some(usuario)
    ensures c.realLocal == Some(realLocal) && c.realVecina == Some(realVecina)
    ensures c.diferenciaLocal == Some(realLocal - EsperadoLocal(s))
    ensures c.diferenciaVecina == Some(realVecina - EsperadoVecina(s))
    ensures c.esperadoLocal == EsperadoLocal(s) && c.esperadoVecina == EsperadoVecina(s)
    ensures SameAccumulators(s, c) && c.id == s.id
  {
    s.(cerradaPor := Some(usuario),
       esperadoLocal := EsperadoLocal(s),
       esperadoVecina := EsperadoVecina(s),
       realLocal := Some(realLocal),
       realVecina := Some(realVecina),
       diferenciaLocal := Some(realLocal - EsperadoLocal(s)),
       diferenciaVecina := Some(realVecina - EsperadoVecina(s)),
       estado := Cerrada)
  }

  /** The running totals and counters a close leaves untouched. */
  ghost predicate SameAccumulators(s: Session, c: Session) {
    && c.inicialLocal == s.inicialLocal && c.inicialVecina == s.inicialVecina
    && c.totalEfectivoGiro == s.totalEfectivoGiro && c.totalDebito == s.totalDebito
    && c.totalCredito == s.totalCredito && c.totalTransferencia == s.totalTransferencia
    && c.totalExento == s.totalExento && c.ingresosExtra == s.ingresosExtra
    && c.egresos == s.egresos && c.movimientosVecina == s.movimientosVecina
    && c.ticketsEfectivo == s.ticketsEfectivo && c.ticketsDebito == s.ticketsDebito
    && c.ticketsCredito == s.ticketsCredito && c.ticketsTransferencia == s.ticketsTransferencia
    && c.abiertaPor == s.abiertaPor
  }

  /** What `cerrarCaja` returns to its caller. */
  datatype CloseReport = CloseReport(
    idCajaSesion: nat,
    totalEsperadoLocal: int,
    totalEsperadoVecina: int,
    totalRealLocal: int,
    totalRealVecina: int,
    diferenciaLocal: int,
    diferenciaVecina: int)

  /** One row of `caja_movimientos`. */
  datatype CashMovement = CashMovement(
    sessionId: nat,
    tipo: string,
    categoria: string,
    monto: int,
    descripcion: Option<string>,
    proveedor: Option<nat>,
    proveedorVendedor: Option<nat>,
    anulado: bool,
    userId: nat)

  /** Validation of `registrarMovimiento` after the open-session check, in
      the source's order: type, then category (`None` stands for a missing or
      non-string value), then amount. */
  function MovimientoCheck(tipo: string, categoria: Option<string>, monto: int): (e: Option<Error>)
    ensures e.None? <==> (tipo == "INGRESO" || tipo == "EGRESO")
                         && categoria.Some? && categoria.value != "" && monto > 0
    ensures tipo != "INGRESO" && tipo != "EGRESO" ==> e == Some(TipoMovimientoInvalido)
    ensures (tipo == "INGRESO" || tipo == "EGRESO") && (categoria.None? || categoria.value == "")
            ==> e == Some(CategoriaRequerida)
    ensures (tipo == "INGRESO" || tipo == "EGRESO") && categoria.Some? && categoria.value != "" && monto <= 0
            ==> e == Some(MontoInvalido)
  {
    if tipo != "INGRESO" && tipo != "EGRESO" then Some(TipoMovimientoInvalido)
    else if categoria.None? || categoria.value == "" then Some(CategoriaRequerida)
    else if monto <= 0 then Some(MontoInvalido)
    else None
  }

  /** The aggregate UPDATE of `registrarMovimiento`. */
  function AplicarMovimiento(s: Session, tipo: string, monto: int): (r: Session)
  {
    s.(ingresosExtra := s.ingresosExtra + (if tipo == "INGRESO" then monto else 0),
       egresos := s.egresos + (if tipo == "EGRESO" then monto else 0))
  }

  /** An INGRESO raises only `ingresos_extra`, an EGRESO only `egresos`;
      the expected local cash moves by exactly the amount, either way. */
  lemma MovementTouchesOneAccumulator(s: Session, tipo: string, monto: int)
    requires tipo == "INGRESO" || tipo == "EGRESO"
    ensures var r := AplicarMovimiento(s, tipo, monto);
            && (tipo == "INGRESO" ==> r == s.(ingresosExtra := s.ingresosExtra + monto)
                                      && EsperadoLocal(r) == EsperadoLocal(s) + monto)
            && (tipo == "EGRESO" ==> r == s.(egresos := s.egresos + monto)
                                     && EsperadoLocal(r) == EsperadoLocal(s) - monto)
            && EsperadoVecina(r) == EsperadoVecina(s)
  {
  }

  /** Sum of the ledger amounts of one type booked against one session. */
  function SumaTipo(ledger: seq<CashMovement>, sessionId: nat, tipo: string): int
  {
    if ledger == [] then 0
    else
      var last := ledger[|ledger| - 1];
      SumaTipo(ledger[..|ledger| - 1], sessionId, tipo)
        + (if last.sessionId == sessionId && last.tipo == tipo then last.monto else 0)
  }

  /** The session accumulators are exactly what the movement ledger says. */
  ghost predicate MatchesLedger(s: Session, ledger: seq<CashMovement>) {
    && s.ingresosExtra == SumaTipo(ledger, s.id, "INGRESO")
    && s.egresos == SumaTipo(ledger, s.id, "EGRESO")
  }

  /** Appending a movement of the open session and applying it to that
      session keeps it in step with the ledger, and leaves every other
      session's sums alone. */
  lemma {:induction false} AppendKeepsLedger(s: Session, ledger: seq<CashMovement>, m: CashMovement)
    requires MatchesLedger(s, ledger)
    requires m.tipo == "INGRESO" || m.tipo == "EGRESO"
    ensures m.sessionId == s.id ==> MatchesLedger(AplicarMovimiento(s, m.tipo, m.monto), ledger + [m])
    ensures m.sessionId != s.id ==> MatchesLedger(s, ledger + [m])
  {
    assert (ledger + [m])[..|ledger + [m]| - 1] == ledger;
  }

  /** A session no ledger row is booked against sums to nothing, so a new
      session starts in step with the existing ledger. */
  lemma {:induction false} SesionNuevaSinMovimientos(s: Session, ledger: seq<CashMovement>)
    requires s.ingresosExtra == 0 && s.egresos == 0
    requires forall i :: 0 <= i < |ledger| ==> ledger[i].sessionId != s.id
    ensures MatchesLedger(s, ledger)
  {
    if ledger != [] {
      var init := ledger[..|ledger| - 1];
      assert forall i :: 0 <= i < |init| ==> init[i] == ledger[i];
      SesionNuevaSinMovimientos(s, init);
    }
  }
}
