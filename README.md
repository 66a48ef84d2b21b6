# Liquor-store POS backend: settlement engine

A Dafny model of the money and stock core of a point-of-sale backend for a
liquor store (botillería). The model covers:

- the cash session (`caja`): opening, manual INGRESO/EGRESO movements, the
  per-channel totals each sale adds, and closing with expected amounts and
  differences;
- sale validation: products resolved against the catalog with price tiers
  and the free-ice special case, fixed-price bundle promotions, the payment
  rules and normalisation of the sale kind;
- sale creation: checks, the sale row, one stock movement per line and the
  session update;
- the stock counter and its audit ledger;
- voiding a sale;
- marking a sale as receipted, and the pending-receipt list;
- the figures of the dashboard summary.

Layout:

- `common.dfy`: `Option`, `Result`, `Outcome` and the error kinds.
- `caja.dfy`, `venta_validator.dfy`, `ventas.dfy`, `stock.dfy`,
  `anulaciones.dfy`, `boletas.dfy`, `dashboard.dfy`: the pure part of each
  source file, as datatypes, functions and lemmas.
- `store.dfy`: the class `Backend.Store`, which holds the database state.
  That state is the open session, the closed sessions, the cash-movement
  ledger, the stock map, the stock ledger and the sales. Each
  state-changing service is a method of `Store`.

Every `Store` method checks everything first and writes only afterwards. So
a call that fails leaves the store unchanged, as the controllers' rollback
does. Each method keeps the invariant `Store.Valid()`:

- session ids are consecutive and only the last session can be open;
- each session's INGRESO/EGRESO accumulators equal the sums over the
  movement ledger;
- every product's stock is its base stock plus the net quantity in the stock
  ledger, and each ledger row records the stock before and after it;
- every recorded sale is well formed: its payments add up to its total, and
  for a NORMAL sale non-cash payments stay within the taxable part;
- every sale is booked against an existing session and refers only to
  catalog products.

Money, quantities and stock are unbounded integers. Two operations in the
source truncate, and both are modelled explicitly. `toIntOrZero` truncates
toward zero. The bundle count of `aplicarDescuentoPromosFijas`
(src/validators/venta.validator.js:95) takes `Math.floor(cantLinea / cantDet)`.
The model writes that floor as Dafny's Euclidean `/`, which agrees with
`Math.floor` whenever the divisor is positive. A requirement row with
`cantDet <= 0` sets the count to zero before any division (lines 90-93), so
every division the model performs has a positive divisor. Nothing in the
source wraps around.

## Model

| member | source | states |
|---|---|---|
| Caja.ToIntOrZero | src/services/caja.service.js:10-13 | a not-a-number input gives 0; a decimal is truncated toward zero, so the result lies between the value and zero at distance below one |
| Caja.ToIntOrZeroTowardZero | src/services/caja.service.js:10-13 | example: -7.5 gives -7 (toward zero, not floor), 7.5 gives 7 and a value that is not a number gives 0 |
| Backend.Store.ObtenerCajaActiva | src/services/caja.service.js:20-25 | returns the open session; it is the one session whose state is ABIERTA, if any is |
| Caja.NuevaSesion | src/services/caja.service.js:77-89 | a new session is ABIERTA with the given floats and every total, counter and close field at zero or absent |
| Caja.SesionNuevaSinMovimientos | src/services/caja.service.js:77-89 | a new session agrees with a movement ledger that holds no row for its id |
| Backend.Store.AbrirCaja | src/services/caja.service.js:33-95 | refused while a session is open, or when a truncated float is negative; otherwise opens a pristine session with the next id and changes nothing else |
| Caja.MovimientoCheck | src/services/caja.service.js:119-130 | accepts exactly a tipo of INGRESO or EGRESO, a non-empty category and a positive amount, and names the first failing check |
| Caja.MovementTouchesOneAccumulator | src/services/caja.service.js:155-173 | an INGRESO adds its amount to ingresos_extra alone and an EGRESO adds it to egresos alone |
| Caja.AppendKeepsLedger | src/services/caja.service.js:136-173 | appending a movement row and applying it to its session keeps that session equal to the ledger sums, and every other session too |
| Backend.Store.RegistrarMovimiento | src/services/caja.service.js:104-182 | fails without an open session or on a bad movement, changing nothing; otherwise appends the row, with empty texts and zero ids stored as null, and updates the one accumulator |
| Backend.SinVacio | src/services/caja.service.js:148 | an empty text is stored as null and any other text is kept |
| Backend.SinCero | src/services/caja.service.js:149-150 | a zero id is stored as null and any other id is kept |
| Caja.CerrarSesion | src/services/caja.service.js:220-246 | the closed row is CERRADA and holds the expected amounts, the counted amounts and their differences; every accumulator is unchanged |
| Backend.CierreSegunLedger | src/services/caja.service.js:208-246 | in a valid store the close expects the float plus cash sales plus the session's INGRESO rows minus its EGRESO rows in the movement ledger, and the local difference is zero exactly when the count equals that; the secondary till expects its float alone |
| Backend.Store.CerrarCaja | src/services/caja.service.js:192-257 | fails only when no session is open; otherwise moves the open session to the history as closed and returns the close report |
| VentaValidator.ItemError | src/validators/venta.validator.js:139-162 | an item passes exactly when it has a non-zero product id, a positive quantity and a product in the catalog |
| VentaValidator.PrimerErrorItem | src/validators/venta.validator.js:138-162 | no error exactly when every item passes |
| VentaValidator.PrimerErrorItemAt | src/validators/venta.validator.js:138-162 | the error reported is that of the first failing item in request order |
| VentaValidator.ResolveLine | src/validators/venta.validator.js:166-204 | promo ice is free and never wholesale; otherwise the wholesale price applies exactly when the tier exists and the quantity reaches it, and the list price applies when it does not |
| VentaValidator.ResolvedLines | src/validators/venta.validator.js:138-212 | one resolved line per item, in order |
| VentaValidator.ExentoWithinGeneral | src/validators/venta.validator.js:206-211 | with non-negative prices and quantities the exempt total lies between zero and the general total |
| VentaValidator.HieloAddsNothing | src/validators/venta.validator.js:171-179 | a zero-priced line adds nothing to either total |
| VentaValidator.ResolverLineas | src/validators/venta.validator.js:131-212 | the loop fails on an empty list or at the first bad item, and otherwise returns the resolved lines and their general and exempt sums |
| VentaValidator.PromoIdsSpec | src/validators/venta.validator.js:31-37 | the promo ids are exactly those of lines flagged as promo, each listed once |
| VentaValidator.FindLine | src/validators/venta.validator.js:77-81 | finds a line of that promotion and product, or reports that none exists |
| VentaValidator.FindLineEsPrimera | src/validators/venta.validator.js:77-81 | the line found is the first match: every earlier line belongs to another promotion or product |
| VentaValidator.MinBundlesIsMax | src/validators/venta.validator.js:74-97 | the bundle count is the minimum over the requirement rows of what each row allows |
| VentaValidator.BundleCountIsMaximal | src/validators/venta.validator.js:74-99 | that many bundles fit in every line, and one more does not fit in some line |
| VentaValidator.ContarCombos | src/validators/venta.validator.js:73-99 | the loop computes the bundle count; a requirement with no line or a non-positive quantity gives zero |
| VentaValidator.PrecioNormalCombo | src/validators/venta.validator.js:101-116 | the loop computes the list price of one bundle; free rows are priced too and rows with no line are skipped |
| VentaValidator.PromoDiscount | src/validators/venta.validator.js:45-121 | the discount is never negative; it is zero for a promotion that is not active, not FIJA, unpriced, has no rows, gives no whole bundle or whose bundle list price does not exceed the promotion price; otherwise it is that excess times the bundle count |
| VentaValidator.AplicarDescuentoPromosFijas | src/validators/venta.validator.js:30-127 | the adjusted total is the general total minus the discounts of all promotions on the lines, so it never exceeds the general total |
| VentaValidator.BundleScenarioCombos | src/validators/venta.validator.js:73-116 | example: one or two of each bundle product make as many bundles, at a normal price of 1500 |
| VentaValidator.BundleScenario | src/validators/venta.validator.js:30-127 | example: for a 1000 + 500 bundle at a fixed price of 1200, one or two bundles cost 1200 each |
| VentaValidator.Cotizar | src/validators/venta.validator.js:131-218 | the quote holds the resolved lines, their exempt sum, and their general sum minus the promotion discounts |
| VentaValidator.Cotizacion | src/validators/venta.validator.js:131-218 | the quote succeeds exactly when the list is non-empty and every item passes |
| VentaValidator.ValidarProductos | src/validators/venta.validator.js:131-219 | the method fails on an empty list or with the first failing item's error; otherwise it returns the quote |
| VentaValidator.ValidarPagos | src/validators/venta.validator.js:231-259 | accepts exactly a non-empty list whose sum equals the total and, unless the sale is INTERNA, whose non-cash part (unknown types included) is within the taxable part |
| VentaValidator.ValidarPagosExamples | src/validators/venta.validator.js:231-259 | example: a wrong sum, an over-limit card payment, an INTERNA exemption, and an unknown type counted as non-cash, each on concrete payments |
| VentaValidator.Upper | src/validators/venta.validator.js:269 | upper-casing maps each character and keeps the length |
| VentaValidator.UpperIdempotent | src/validators/venta.validator.js:269 | upper-casing twice is upper-casing once |
| VentaValidator.ValidarTipoVenta | src/validators/venta.validator.js:268-275 | accepts exactly the upper-cased NORMAL or INTERNA, an absent kind counting as empty, and returns the upper-cased text |
| VentaValidator.ValidarTipoVentaIdempotent | src/validators/venta.validator.js:268-275 | validating an accepted result again gives the same result |
| Ventas.NormalizarTipo | src/services/ventas.service.js:134 | a sale is INTERNA exactly when the request says INTERNA in capitals; anything else, absence included, is NORMAL |
| Ventas.NormalizacionDistinguaMayusculas | src/services/ventas.service.js:134 | lower-case "interna" becomes a NORMAL sale, although the kind validator would accept it as INTERNA |
| Ventas.ClasificarPagos | src/services/ventas.service.js:12-43 | the loop computes the per-channel buckets of the payments |
| Ventas.ClasificarSnoc | src/services/ventas.service.js:18-40 | classifying one more payment adds its amount to the bucket of its type |
| Ventas.ClasificarReparte | src/services/ventas.service.js:12-43 | the buckets plus the unrecognised amount equal the payment sum; the cash bucket is the sum minus the non-cash part, and the card buckets plus the unrecognised amount are the non-cash part |
| Ventas.TarjetasDentroDelAfecto | src/validators/venta.validator.js:246-258 | for a validated NORMAL sale, the card buckets stay within the taxable part and the cash bucket covers the exempt part |
| Ventas.TipoDesconocidoSeDescarta | src/services/ventas.service.js:35-38 | example: a CHEQUE payment passes validation as non-cash but lands in no bucket |
| Ventas.VentaMueveEsperado | src/services/ventas.service.js:53-109 | a sale raises the expected main-drawer cash by its cash bucket alone and leaves the secondary expected cash, the id, the state and the manual sums as they were; only INTERNA moves the secondary-drawer counter, by the whole sale |
| Ventas.TicketPorCanal | src/services/ventas.service.js:79-96 | each channel's ticket counter rises by one exactly when the sale paid a positive amount on that channel |
| Ventas.UnTicketPorVenta | src/services/ventas.service.js:79-96 | example: a sale paid with an EFECTIVO row and a GIRO row puts both in the cash bucket and adds a single cash ticket |
| Ventas.AplicarVentasAcumula | src/services/ventas.service.js:53-109 | over a run of sales the cash total grows by the sum of the cash buckets and the cash ticket count by the number of sales that took cash, at most one per sale |
| Ventas.CierreCuadra | src/services/caja.service.js:208-218 | example: on a fresh session with a 100000 float, a sale paid with two cash rows of 1000 and a count of 102000 closes with zero differences and one cash ticket |
| Ventas.NuevaVenta | src/services/ventas.service.js:125-195 | the sale is refused in source order, each check returning its own error once the earlier ones pass: no user, no open session, the product validator's error, a non-positive total, the payment rule's error, a bad payment row; it is accepted exactly when all pass, and then the row carries the quote's totals, the normalised kind, the note, the payments and the session id |
| Ventas.PrepararVenta | src/services/ventas.service.js:129-189 | the checking half of the sale, including the row check of the payment loop, yields exactly that outcome |
| Ventas.RevisarFilasPago | src/services/ventas.service.js:183-190 | the row loop accepts exactly when every payment row has a type and a positive amount |
| Ventas.NuevaVentaBienFormada | src/services/ventas.service.js:144-189 | an accepted sale has payments summing to its total and only catalog products; a NORMAL sale's cash covers its exempt part |
| Ventas.MovimientosVenta | src/services/ventas.service.js:198-229 | one VENTA movement per detail line, of minus its quantity, tagged with the sale |
| Ventas.VentaDescuentaLineas | src/services/ventas.service.js:219-228 | a sale's movements take from each product exactly the quantity its lines hold |
| Backend.Store.AcumularVenta | src/services/ventas.service.js:232-238 | stores the sale under the next id and adds its payment buckets and exempt total to the open session; stock and the session history do not change |
| Backend.Store.GuardarVenta | src/services/ventas.service.js:155-238 | writes the sale under the next id, the stock movements of its lines and the session update; nothing else changes |
| Backend.Store.CrearVenta | src/services/ventas.service.js:125-257 | the outcome is the one the sale function defines; a refused sale changes nothing, and an accepted one records the sale, applies its movements and updates the open session |
| Stock.Paso | src/services/stock.service.js:31-38 | only the target product's stock changes, by the quantity; there is no lower bound |
| Stock.Fila | src/services/stock.service.js:41-58 | the ledger row records the stock before and after, and their difference is the quantity |
| Stock.AplicarSuma | src/services/stock.service.js:31-38 | after a run of movements each product's stock is the old stock plus the run's net quantity for it |
| Stock.EncadenadoFila | src/services/stock.service.js:31-58 | every ledger row records the stock before it as the base stock plus the earlier rows, and the stock after it as that plus its quantity |
| Stock.PasoConsistente | src/services/stock.service.js:31-58 | one movement keeps the stock equal to the base stock plus the ledger sums, with each row chained to the stock before it |
| Stock.AplicarConsistente | src/services/stock.service.js:11-61 | a run of movements keeps that ledger invariant |
| Stock.SobreventaPermitida | src/services/stock.service.js:31-32 | example: selling 3 of a product with 1 in stock leaves -2 and records it |
| Backend.Store.RegistrarMovimientoStock | src/services/stock.service.js:11-61 | an unknown product fails and changes nothing; otherwise the stock becomes old plus quantity, one row is appended and the new stock is returned |
| Backend.Store.MovimientoDeRun | src/services/ventas.service.js:219-228 | issuing movement k of a run extends the applied prefix and its ledger rows by exactly that movement |
| Backend.Store.RegistrarMovimientos | src/services/ventas.service.js:198-229 | issuing movements one by one equals applying the run, and appends exactly its rows |
| Anulaciones.ChequeoAnulacion | src/services/anulaciones.service.js:12-41 | a void passes the guards exactly when the id is given, the sale exists and is neither voided nor receipted, and it belongs to the open session; otherwise the first failing guard in source order gives its error: missing id, unknown sale, already voided, receipted, no open session, another session's sale |
| Anulaciones.BoleteadaNoSeAnula | src/services/anulaciones.service.js:32-33 | a receipted sale is never voidable |
| Anulaciones.MovimientosAnulacion | src/services/anulaciones.service.js:50-60 | one ANULACION movement of plus its quantity per detail line, booked to the sale's session |
| Anulaciones.AnulacionReponeLineas | src/services/anulaciones.service.js:50-60 | the reversal puts back to each product exactly the quantity of its lines |
| Anulaciones.AnulacionRestauraStock | src/services/anulaciones.service.js:50-60 | selling and then voiding leaves every product's stock as it was |
| Anulaciones.MarcarAnulada | src/services/anulaciones.service.js:78-88 | sets the void flag, the voiding user and the reason (empty stored as none), and nothing else |
| Anulaciones.AnularDosVecesFalla | src/services/anulaciones.service.js:29-30 | after a void, a second one is refused as already voided |
| Anulaciones.AnularNuncaTieneExito | src/services/anulaciones.service.js:69-75 | as written, every void fails, and one that passes the guards fails at the reversal call |
| Anulaciones.AnulacionElegibleFalla | src/services/anulaciones.service.js:12-75 | example: an unreceipted sale of the open session passes every guard, yet as written its void is refused |
| Backend.Store.AnularVenta | src/services/anulaciones.service.js:10-91 | succeeds exactly when the guards pass; then stocks go back through ANULACION movements and the sale is flagged, while sessions are unchanged; otherwise nothing changes |
| Backend.AnularNoCambiaPendientes | src/services/boletas.service.js:15-24 | voiding a sale does not change the pending-receipt list |
| Boletas.ChequeoBoleta | src/services/boletas.service.js:34-52 | marking passes exactly when id and folio are given and the sale exists, is NORMAL and is not yet receipted; the void flag is not consulted |
| Boletas.Boletear | src/services/boletas.service.js:55-62 | sets the receipted flag and the folio, and nothing else |
| Boletas.SegundaMarcaFalla | src/services/boletas.service.js:51-52 | a second marking is refused as already receipted |
| Boletas.AnuladaSePuedeBoletear | src/services/boletas.service.js:39-52 | a voided sale can still be marked as receipted |
| Boletas.MontoEfectivoEsCaja | src/services/boletas.service.js:15-16 | the query's cash sum for a sale is its cash bucket |
| Boletas.VentasPendientes | src/services/boletas.service.js:8-29 | the pending list is exactly the unreceipted NORMAL sales with a positive total, a payment row and positive cash |
| Boletas.NoPendientes | src/services/boletas.service.js:17-24 | INTERNA sales and sales without cash are never pending |
| Boletas.BoletearSacaDePendientes | src/services/boletas.service.js:20 | marking a sale removes exactly that sale from the pending list |
| Backend.Store.MarcarBoleta | src/services/boletas.service.js:34-65 | succeeds exactly when the guards pass, setting flag and folio; otherwise nothing changes |
| Dashboard.ExentoEfectivo | src/services/dashboard.service.js:148 | the exempt cash share is the smaller of the exempt total and the cash paid |
| Dashboard.AfectoEfectivo | src/services/dashboard.service.js:150-156 | the taxable cash share is capped by the taxable total, is non-negative when that total is, and together with the exempt share never exceeds the cash paid |
| Dashboard.RepartoExacto | src/services/dashboard.service.js:148-156 | with non-negative amounts and cash within the sale total, the two shares add up to the cash paid |
| Dashboard.PendienteSegunBoletas | src/services/dashboard.service.js:161-169 | a sale holding both receipts, or paid without cash, is not pending |
| Dashboard.VentaExentaPendiente | src/services/dashboard.service.js:137-172 | example: a cash-paid exempt sale needs only its EXENTA receipt |
| Dashboard.LimiteListado | src/services/dashboard.service.js:103 | the listing limit is clamped to 1..1000, and a missing or zero value gives 200 |
| Dashboard.Metodos | src/services/dashboard.service.js:40-56 | the card total is debit plus credit plus transfer, and every figure, the four ticket counters included, is the session's accumulator |
| Dashboard.MetodosTrasVenta | src/services/dashboard.service.js:40-56 | after one sale the card total grows by the sale's debit, credit and transfer buckets, the cash and exempt figures by the sale's own, and each ticket counter by one exactly when its channel received money |
| Dashboard.MetodosTrasVentas | src/services/dashboard.service.js:40-56 | over a run of sales the card total grows by the run's card buckets, the cash figure by its cash buckets and the cash tickets by the number of sales that took cash |
| Dashboard.Pendientes | src/services/dashboard.service.js:137-173 | the pending rows are the session's rows that pass the pending filter, each with its multiplicity in the query result, so their count is the number of passing rows |
| Dashboard.Activas | src/services/dashboard.service.js:94-99 | the listed rows are the session's ACTIVA rows, each with its multiplicity in the query result |
| Dashboard.PendientesOrden | src/services/dashboard.service.js:170 | the pending filter keeps the `fecha ASC, id ASC` order of its query |
| Dashboard.ActivasOrden | src/services/dashboard.service.js:100 | the active-row filter keeps the `fecha DESC, id DESC` order of the listing query |
| Dashboard.ObtenerResumen | src/services/dashboard.service.js:4-187 | with no open session the summary is empty; otherwise it holds the session, its payment block and exactly the `Pendientes` rows of the ascending query (every passing row with its multiplicity, in ascending order), with their count; unless the mode is "last", the listing is the first min(limit, n) of the n active rows of the descending query: it is descending too, and no active row left out comes after a listed one |

## Left out

- SQL, connections, transactions and row locks: each operation is one atomic method whose failure changes nothing, as the rollback in src/controllers/ventas.controller.js:15-17 and src/controllers/anulaciones.controller.js:18-20 gives.
- The cash-session services use the shared pool rather than the request's transaction; the model treats them as atomic like the rest.
- `NOW()` timestamps and the ORDER BY clauses outside the dashboard: there is no clock, and those listings are sets or sequences in query order. The dashboard's `fecha` is an integer column of its rows.
- Dashboard.ObtenerResumen: the two sorted query results are inputs (`asc`, `desc`). The sort itself, and the fact that both hold the same sale rows, are not modelled; the orders are stated as conditions on those inputs.
- The voucher row with the request's JSON (src/services/ventas.service.js:241-247): it is stored and never read back.
- The POS sale flow `crearVentaPos`, controllers, routes, authentication, the user, product and promotion CRUD and the application wiring. The routes file mounts `/api/ventas` nowhere in src/app.js; that wiring is not part of this model.
- The session history and detail listings (src/services/caja.service.js:265-328), which are read-only queries.
- The dashboard's aggregate queries: sale counts and sums, online users, last sale and the user join.
- The pending list's columns other than the sale id, including the seller name.
- `Number(...)` coercion of amounts and quantities: they are integers in the model. A non-integer or non-numeric amount, and `|| 0` on NaN, are not modelled, except in `toIntOrZero`.
- `toUpperCase` covers ASCII letters only.
- The truthiness of `es_promo` and of the promo id is a boolean and an optional id. The strict `=== 1 / true / "1"` test of the ice case and the loose test of the promo filter therefore coincide in the model.
- The detail rows are new `Line` records built from the request items, rather than the items being updated in place as the validator does.
- Dashboard rows are a record of their own (`Dashboard.FilaVenta`). The summary reads `estado`, `monto_efectivo_total` and `ventas_boletas`, and no modelled operation writes any of them.
- The import of `clasificarPagos` at src/services/anulaciones.service.js:4 names a binding that src/services/ventas.service.js does not export, which breaks module loading. This is not modelled; the finding below covers the reversal call that follows it.
- Backend.Store.AnularVenta: the corrected void does not reverse the session totals, because the source has no working reversal to model.
- `validarTipoVenta` is not called by `crearVenta`, which normalises the kind itself. Both are modelled, and `Ventas.NormalizacionDistinguaMayusculas` shows the difference.
- Where the documented design and the code disagree, the model follows the code:
  - a voided sale can still be marked as receipted;
  - the pending-receipt list does not exclude voided sales;
  - an INTERNA sale has no override total.

## Findings

| source | as written | input that shows it | evidently intended | confidence | as-written member | corrected member |
|---|---|---|---|---|---|---|
| src/services/anulaciones.service.js:69-75 | after the guards, the void calls `actualizarCajaAnulacion`, which src/services/caja.service.js:330-331 exports as an empty object; the call throws and the controller rolls the whole void back | any sale that is neither voided nor receipted and belongs to the open session, e.g. sale 5 of session s | the void puts the stock back and flags the sale | not executed | Anulaciones.AnularNuncaTieneExito | Backend.Store.AnularVenta |
