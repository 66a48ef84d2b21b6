/** The shared state of the settlement engine and the operations on it.
    Each operation runs as one transaction: it checks everything first and
    only then writes, so a failing call leaves the store exactly as it was
    (the controllers roll back on any error). */
module Backend {
  import opened Common
  import opened Caja
  import opened VentaValidator
  import opened Stock
  import opened Ventas
  import opened Anulaciones
  import opened Boletas

  /** `descripcion || null`: an empty text is stored as null. */
  function SinVacio(s: Option<string>): (r: Option<string>)
    ensures r.Some? <==> s.Some? && s.value != ""
    ensures r.Some? ==> r == s
  {
    if s.Some? && s.value != "" then s else None
  }

  /** `id || null`: a zero id is stored as null. */
  function SinCero(n: Option<nat>): (r: Option<nat>)
    ensures r.Some? <==> n.Some? && n.value != 0
    ensures r.Some? ==> r == n
  {
    if n.Some? && n.value != 0 then n else None
  }

  /** Every detail line of a sale refers to a catalog product. */
  predicate LineasEnCatalogo(ls: seq<Line>, catalog: map<nat, Product>) {
    forall i :: 0 <= i < |ls| ==> ls[i].productId in catalog
  }

  /** Session ids are consecutive from 1, only the last session may be open,
      and every session's manual-movement accumulators match the ledger. */
  ghost predicate SesionesValidas(historial: seq<Session>, abierta: Option<Session>, cashLedger: seq<CashMovement>) {
    var n := |historial| + (if abierta.Some? then 1 else 0);
    && (forall i :: 0 <= i < |historial| ==> historial[i].id == i + 1 && historial[i].estado == Cerrada)
    && (abierta.Some? ==> abierta.value.id == |historial| + 1 && abierta.value.estado == Abierta)
    && (forall i :: 0 <= i < |cashLedger| ==> 1 <= cashLedger[i].sessionId <= n)
    && (forall i :: 0 <= i < |historial| ==> MatchesLedger(historial[i], cashLedger))
    && (abierta.Some? ==> MatchesLedger(abierta.value, cashLedger))
  }

  /** Sales are keyed by their id, below the next id, well formed, booked
      against an existing session and made of catalog products. */
  ghost predicate VentasValidas(ventas: map<nat, Sale>, nextSaleId: nat, numSesiones: nat,
                                catalog: map<nat, Product>) {
    && nextSaleId >= 1
    && forall k :: k in ventas ==>
         && 1 <= k < nextSaleId && ventas[k].id == k
         && VentaBienFormada(ventas[k])
         && 1 <= ventas[k].sessionId <= numSesiones
         && LineasEnCatalogo(ventas[k].lines, catalog)
  }

  /** Replacing a sale by a well-formed row with the same id, session and
      lines keeps the sale invariant. */
  lemma ActualizarVentaValida(ventas: map<nat, Sale>, nextSaleId: nat, numSesiones: nat,
                              catalog: map<nat, Product>, k: nat, v: Sale)
    requires VentasValidas(ventas, nextSaleId, numSesiones, catalog) && k in ventas
    requires v.id == ventas[k].id && v.sessionId == ventas[k].sessionId && v.lines == ventas[k].lines
    requires VentaBienFormada(v)
    ensures VentasValidas(ventas[k := v], nextSaleId, numSesiones, catalog)
  {
  }

  /** Adding a well-formed sale under the next id keeps the invariant. */
  lemma AgregarVentaValida(ventas: map<nat, Sale>, nextSaleId: nat, numSesiones: nat,
                           catalog: map<nat, Product>, v: Sale)
    requires VentasValidas(ventas, nextSaleId, numSesiones, catalog)
    requires v.id == nextSaleId && VentaBienFormada(v) && 1 <= v.sessionId <= numSesiones
    requires LineasEnCatalogo(v.lines, catalog)
    ensures nextSaleId !in ventas
    ensures VentasValidas(ventas[nextSaleId := v], nextSaleId + 1, numSesiones, catalog)
  {
  }

  /** A sale changes neither the id, the state nor the manual-movement sums
      of its session, so the session invariant survives it. */
  lemma VentaMantieneSesiones(historial: seq<Session>, s: Session, s2: Session, cashLedger: seq<CashMovement>)
    requires SesionesValidas(historial, Some(s), cashLedger)
    requires s2.id == s.id && s2.estado == s.estado && s2.ingresosExtra == s.ingresosExtra && s2.egresos == s.egresos
    ensures SesionesValidas(historial, Some(s2), cashLedger)
  {
  }

  /** In a valid store the close of the open session expects the float plus
      the cash sales plus the INGRESO rows minus the EGRESO rows of the
      movement ledger for that session, and reports a zero local difference
      exactly when the counted cash equals that. */
  lemma CierreSegunLedger(historial: seq<Session>, s: Session, cashLedger: seq<CashMovement>,
                          usuario: nat, realLocal: int, realVecina: int)
    requires SesionesValidas(historial, Some(s), cashLedger)
    ensures var c := CerrarSesion(s, usuario, realLocal, realVecina);
            var esperado := s.inicialLocal + s.totalEfectivoGiro
                            + SumaTipo(cashLedger, s.id, "INGRESO") - SumaTipo(cashLedger, s.id, "EGRESO");
            && c.esperadoLocal == esperado
            && (c.diferenciaLocal == Some(0) <==> realLocal == esperado)
            && c.esperadoVecina == s.inicialVecina
            && (c.diferenciaVecina == Some(0) <==> realVecina == s.inicialVecina)
  {
    assert MatchesLedger(s, cashLedger);
  }

  /** One more movement of a run, in terms of the store's stock and ledger:
      applying movement `k` to the state after the first `k` gives the state
      after the first `k + 1`. */
  lemma PrefijoPaso(stock0: map<nat, int>, ledger0: seq<Movimiento>, ms: seq<Pedido>, k: nat,
                    antes: map<nat, int>, filasAntes: seq<Movimiento>)
    requires EnStock(stock0, ms) && k < |ms| && EnStock(stock0, ms[..k])
    requires antes == Aplicar(stock0, ms[..k]) && filasAntes == ledger0 + Filas(stock0, ms[..k])
    ensures ms[k].productId in antes && EnStock(stock0, ms[..k + 1])
    ensures Paso(antes, ms[k]) == Aplicar(stock0, ms[..k + 1])
    ensures filasAntes + [Fila(antes, ms[k])] == ledger0 + Filas(stock0, ms[..k + 1])
  {
    AplicarPrefijo(stock0, ms, k);
  }

  /** The pending-receipt filter ignores the void flag: voiding a sale
      neither adds it to nor removes it from the pending list. */
  lemma AnularNoCambiaPendientes(sales: map<nat, Sale>, idVenta: nat, userId: nat, motivo: Option<string>)
    requires idVenta in sales
    ensures VentasPendientes(sales[idVenta := MarcarAnulada(sales[idVenta], userId, motivo)])
            == VentasPendientes(sales)
  {
    var sales2 := sales[idVenta := MarcarAnulada(sales[idVenta], userId, motivo)];
    assert Pendiente(sales2[idVenta]) == Pendiente(sales[idVenta]);
  }

  class Store {
    /** Catalog and promotions: read-only for the engine. */
    const catalog: map<nat, Product>
    const promos: map<nat, Promotion>
    /** Stock of every product before the first recorded movement. */
    ghost const baseStock: map<nat, int>

    var stock: map<nat, int>
    var stockLedger: seq<Movimiento>
    /** The ABIERTA session, if any, and the CERRADA ones in opening order. */
    var abierta: Option<Session>
    var historial: seq<Session>
    var cashLedger: seq<CashMovement>
    var ventas: map<nat, Sale>
    var nextSaleId: nat

    /** Number of sessions ever opened; ids are 1, 2, ... in opening order. */
    function NumSesiones(): nat
      reads this
    {
      |historial| + (if abierta.Some? then 1 else 0)
    }

    /** All session rows, closed ones first. */
    function Sesiones(): (ss: seq<Session>)
      reads this
      ensures |ss| == NumSesiones()
    {
      historial + (if abierta.Some? then [abierta.value] else [])
    }

    ghost predicate Valid()
      reads this
    {
      && SesionesValidas(historial, abierta, cashLedger)
      && baseStock.Keys == catalog.Keys && Consistente(baseStock, stock, stockLedger)
      && VentasValidas(ventas, nextSaleId, NumSesiones(), catalog)
    }

    /** An empty store over a catalog whose every product has a stock. */
    constructor (catalog: map<nat, Product>, promos: map<nat, Promotion>, stock: map<nat, int>)
      requires stock.Keys == catalog.Keys
      ensures Valid()
      ensures this.catalog == catalog && this.promos == promos && this.stock == stock
      ensures abierta.None? && historial == [] && cashLedger == [] && stockLedger == [] && ventas == map[]
    {
      this.catalog := catalog;
      this.promos := promos;
      this.baseStock := stock;
      this.stock := stock;
      stockLedger := [];
      abierta := None;
      historial := [];
      cashLedger := [];
      ventas := map[];
      nextSaleId := 1;
    }

    // -------------------------------------------------------------------------
    // Cash session (src/services/caja.service.js)

    /** `obtenerCajaActiva`: the ABIERTA session; there is never more than one. */
    method ObtenerCajaActiva() returns (c: Option<Session>)
      requires Valid()
      ensures c == abierta
      ensures c.Some? <==> exists i :: 0 <= i < |Sesiones()| && Sesiones()[i].estado == Abierta
      ensures forall i :: 0 <= i < |Sesiones()| && Sesiones()[i].estado == Abierta ==> c == Some(Sesiones()[i])
    {
      c := abierta;
      if c.Some? {
        assert Sesiones()[|historial|] == c.value;
      }
    }

    /** `abrirCaja`: refused while a session is open or when a float is
      negative after truncation; otherwise a pristine ABIERTA session with the
      next id. */
    method AbrirCaja(usuario: nat, inicialLocal: RawNumber, inicialVecina: RawNumber) returns (r: Result<nat>)
      requires Valid()
      modifies this
      ensures Valid()
      ensures old(abierta).Some? ==> r == Err(CajaYaAbierta)
      ensures old(abierta).None? && (ToIntOrZero(inicialLocal) < 0 || ToIntOrZero(inicialVecina) < 0)
              ==> r == Err(MontosInicialesNegativos)
      ensures r.Ok? <==> old(abierta).None? && ToIntOrZero(inicialLocal) >= 0 && ToIntOrZero(inicialVecina) >= 0
      ensures r.Err? ==> unchanged(this)
      ensures r.Ok? ==> && r.value == old(NumSesiones()) + 1
                        && abierta == Some(NuevaSesion(r.value, usuario, ToIntOrZero(inicialLocal),
                                                       ToIntOrZero(inicialVecina)))
                        && historial == old(historial) && cashLedger == old(cashLedger)
                        && stock == old(stock) && stockLedger == old(stockLedger)
                        && ventas == old(ventas) && nextSaleId == old(nextSaleId)
    {
      var activa := ObtenerCajaActiva();
      if activa.Some? {
        return Err(CajaYaAbierta);
      }
      var local := ToIntOrZero(inicialLocal);
      var vecina := ToIntOrZero(inicialVecina);
      if local < 0 || vecina < 0 {
        return Err(MontosInicialesNegativos);
      }
      var id := |historial| + 1;
      var s := NuevaSesion(id, usuario, local, vecina);
      SesionNuevaSinMovimientos(s, cashLedger);
      abierta := Some(s);
      return Ok(id);
    }

    /** `registrarMovimiento`: a manual INGRESO or EGRESO of the open session,
      appended to the movement ledger and added to its one accumulator. */
    method RegistrarMovimiento(tipo: string, categoria: Option<string>, monto: int, descripcion: Option<string>,
                               proveedor: Option<nat>, proveedorVendedor: Option<nat>, usuario: nat)
      returns (r: Outcome)
      requires Valid()
      modifies this
      ensures Valid()
      ensures old(abierta).None? ==> r == Fail(SinCajaAbierta)
      ensures old(abierta).Some? ==> (r.Pass? <==> MovimientoCheck(tipo, categoria, monto).None?)
      ensures old(abierta).Some? && r.Fail? ==> Some(r.error) == MovimientoCheck(tipo, categoria, monto)
      ensures r.Fail? ==> unchanged(this)
      ensures r.Pass? ==>
                && cashLedger == old(cashLedger) + [CashMovement(old(abierta).value.id, tipo, categoria.value, monto,
                                                                 SinVacio(descripcion), SinCero(proveedor),
                                                                 SinCero(proveedorVendedor), false, usuario)]
                && abierta == Some(AplicarMovimiento(old(abierta).value, tipo, monto))
                && historial == old(historial) && stock == old(stock) && stockLedger == old(stockLedger)
                && ventas == old(ventas) && nextSaleId == old(nextSaleId)
    {
      var caja := ObtenerCajaActiva();
      if caja.None? {
        return Fail(SinCajaAbierta);
      }
      var e := MovimientoCheck(tipo, categoria, monto);
      if e.Some? {
        return Fail(e.value);
      }
      var s := caja.value;
      var m := CashMovement(s.id, tipo, categoria.value, monto, SinVacio(descripcion), SinCero(proveedor),
                            SinCero(proveedorVendedor), false, usuario);
      AppendKeepsLedger(s, cashLedger, m);
      forall i | 0 <= i < |historial|
        ensures MatchesLedger(historial[i], cashLedger + [m])
      {
        AppendKeepsLedger(historial[i], cashLedger, m);
      }
      cashLedger := cashLedger + [m];
      abierta := Some(AplicarMovimiento(s, tipo, monto));
      return Pass;
    }

    /** `cerrarCaja`: computes the expectations and differences of the open
      session and moves it to the closed history. */
    method CerrarCaja(usuario: nat, realLocal: RawNumber, realVecina: RawNumber) returns (r: Result<CloseReport>)
      requires Valid()
      modifies this
      ensures Valid()
      ensures r.Err? <==> old(abierta).None?
      ensures r.Err? ==> r.error == SinCajaAbierta && unchanged(this)
      ensures r.Ok? ==>
                var s := old(abierta).value;
                && r.value == CloseReport(s.id, EsperadoLocal(s), EsperadoVecina(s),
                                          ToIntOrZero(realLocal), ToIntOrZero(realVecina),
                                          ToIntOrZero(realLocal) - EsperadoLocal(s),
                                          ToIntOrZero(realVecina) - EsperadoVecina(s))
                && historial == old(historial) + [CerrarSesion(s, usuario, ToIntOrZero(realLocal),
                                                               ToIntOrZero(realVecina))]
                && abierta.None?
                && cashLedger == old(cashLedger) && stock == old(stock) && stockLedger == old(stockLedger)
                && ventas == old(ventas) && nextSaleId == old(nextSaleId)
    {
      var caja := ObtenerCajaActiva();
      if caja.None? {
        return Err(SinCajaAbierta);
      }
      var s := caja.value;
      var local := ToIntOrZero(realLocal);
      var vecina := ToIntOrZero(realVecina);
      var esperadoLocal := s.inicialLocal + s.totalEfectivoGiro + s.ingresosExtra - s.egresos;
      var esperadoVecina := s.inicialVecina;
      var c := CerrarSesion(s, usuario, local, vecina);
      historial := historial + [c];
      abierta := None;
      return Ok(CloseReport(s.id, esperadoLocal, esperadoVecina, local, vecina,
                            local - esperadoLocal, vecina - esperadoVecina));
    }

    // -------------------------------------------------------------------------
    // Stock (src/services/stock.service.js)

    /** `registrarMovimientoStock`: overwrite the product's stock with
      stock + cantidad (no lower bound), append the audit row and return the
      new stock. */
    method RegistrarMovimientoStock(productId: nat, userId: nat, sessionId: Option<nat>, tipo: TipoMovimiento,
                                    cantidad: int, nota: Nota)
      returns (r: Result<int>)
      requires Valid()
      modifies this
      ensures Valid()
      ensures productId !in old(stock) ==> r == Err(ProductoNoEncontradoStock) && unchanged(this)
      ensures productId in old(stock) ==>
                var m := Pedido(productId, userId, sessionId, tipo, cantidad, nota);
                && stock == Paso(old(stock), m)
                && r == Ok(stock[productId])
                && stockLedger == old(stockLedger) + [Fila(old(stock), m)]
      ensures abierta == old(abierta) && historial == old(historial) && cashLedger == old(cashLedger)
      ensures ventas == old(ventas) && nextSaleId == old(nextSaleId)
    {
      if productId !in stock {
        return Err(ProductoNoEncontradoStock);
      }
      var m := Pedido(productId, userId, sessionId, tipo, cantidad, nota);
      var anterior := stock[productId];
      var nuevo := anterior + cantidad;
      var fila := Movimiento(productId, userId, sessionId, tipo, cantidad, anterior, nuevo, nota);
      PasoConsistente(baseStock, stock, stockLedger, m);
      assert stock[productId := nuevo] == Paso(stock, m) && fila == Fila(stock, m);
      stock := stock[productId := nuevo];
      stockLedger := stockLedger + [fila];
      return Ok(nuevo);
    }

    /** The first `k` movements of the run `ms` have been issued, starting
      from stock `stock0` and ledger `ledger0`. */
    ghost predicate RunHasta(stock0: map<nat, int>, ledger0: seq<Movimiento>, ms: seq<Pedido>, k: nat)
      reads this
    {
      && k <= |ms| && Valid() && EnStock(stock0, ms) && EnStock(stock0, ms[..k])
      && stock == Aplicar(stock0, ms[..k]) && stockLedger == ledger0 + Filas(stock0, ms[..k])
    }

    /** Movement `k` of a run: the prefix invariant of the run moves from `k`
      to `k + 1`. */
    method MovimientoDeRun(ghost stock0: map<nat, int>, ghost ledger0: seq<Movimiento>, ms: seq<Pedido>, k: nat)
      requires RunHasta(stock0, ledger0, ms, k) && k < |ms|
      modifies this
      ensures RunHasta(stock0, ledger0, ms, k + 1)
      ensures abierta == old(abierta) && historial == old(historial) && cashLedger == old(cashLedger)
      ensures ventas == old(ventas) && nextSaleId == old(nextSaleId)
    {
      var m := ms[k];
      ghost var antes, filasAntes := stock, stockLedger;
      PrefijoPaso(stock0, ledger0, ms, k, antes, filasAntes);
      assert Pedido(m.productId, m.userId, m.sessionId, m.tipo, m.cantidad, m.nota) == m;
      var _ := RegistrarMovimientoStock(m.productId, m.userId, m.sessionId, m.tipo, m.cantidad, m.nota);
      assert stock == Paso(antes, m) && stockLedger == filasAntes + [Fila(antes, m)];
    }

    /** Issue a run of stock movements, one call per movement, in order. */
    method RegistrarMovimientos(ms: seq<Pedido>)
      requires Valid() && EnStock(stock, ms)
      modifies this
      ensures Valid()
      ensures stock == Aplicar(old(stock), ms) && stockLedger == old(stockLedger) + Filas(old(stock), ms)
      ensures abierta == old(abierta) && historial == old(historial) && cashLedger == old(cashLedger)
      ensures ventas == old(ventas) && nextSaleId == old(nextSaleId)
    {
      ghost var stock0, ledger0 := stock, stockLedger;
      var k := 0;
      assert ms[..0] == [];
      assert RunHasta(stock0, ledger0, ms, 0);
      while k < |ms|
        invariant k <= |ms|
        invariant RunHasta(stock0, ledger0, ms, k)
        invariant abierta == old(abierta) && historial == old(historial) && cashLedger == old(cashLedger)
        invariant ventas == old(ventas) && nextSaleId == old(nextSaleId)
      {
        MovimientoDeRun(stock0, ledger0, ms, k);
        k := k + 1;
      }
      assert ms[..k] == ms;
    }

    // -------------------------------------------------------------------------
    // Sales (src/services/ventas.service.js)

    /** `crearVenta`: user, open session, products, a positive total, the
      payment rule and the payment rows are checked in that order; then the
      sale is recorded, each line decrements its product's stock with a VENTA
      movement, and the session accumulates the payment buckets. */
    method CrearVenta(userId: nat, items: seq<Item>, pagos: seq<Payment>, tipoVenta: Option<string>,
                      nota: Option<string>)
      returns (r: Result<Sale>)
      requires Valid()
      modifies this
      ensures Valid()
      ensures r == NuevaVenta(userId, old(abierta), items, pagos, tipoVenta, nota, catalog, promos, old(nextSaleId))
      ensures r.Err? ==> unchanged(this)
      ensures r.Ok? ==>
                var ms := MovimientosVenta(r.value.lines, userId, r.value.sessionId, r.value.id);
                && old(nextSaleId) !in old(ventas)
                && ventas == old(ventas)[r.value.id := r.value] && nextSaleId == old(nextSaleId) + 1
                && EnStock(old(stock), ms)
                && stock == Aplicar(old(stock), ms)
                && stockLedger == old(stockLedger) + Filas(old(stock), ms)
                && abierta == Some(AplicarVenta(old(abierta).value, Clasificar(pagos), r.value.totalExento,
                                                r.value.tipo))
                && historial == old(historial) && cashLedger == old(cashLedger)
    {
      var caja := ObtenerCajaActiva();
      var id := nextSaleId;
      var res := PrepararVenta(userId, caja, items, pagos, tipoVenta, nota, catalog, promos, id);
      if res.Err? {
        return res;
      }
      var venta := res.value;
      var s := caja.value;
      var tipo := venta.tipo;
      assert venta == NuevaVenta(userId, abierta, items, pagos, tipoVenta, nota, catalog, promos, id).value;
      NuevaVentaBienFormada(userId, abierta, items, pagos, tipoVenta, nota, catalog, promos, id);
      assert LineasEnCatalogo(venta.lines, catalog);
      GuardarVenta(venta);
      return Ok(venta);
    }

    /** The writes of `crearVenta` once every check has passed: the sale row,
      one VENTA movement per detail line and the session's accumulators. */
    method GuardarVenta(venta: Sale)
      requires Valid()
      requires abierta.Some? && venta.id == nextSaleId && venta.sessionId == abierta.value.id
      requires VentaBienFormada(venta) && LineasEnCatalogo(venta.lines, catalog)
      modifies this
      ensures Valid()
      ensures var ms := MovimientosVenta(venta.lines, venta.userId, venta.sessionId, venta.id);
              && old(nextSaleId) !in old(ventas)
              && ventas == old(ventas)[venta.id := venta] && nextSaleId == old(nextSaleId) + 1
              && EnStock(old(stock), ms)
              && stock == Aplicar(old(stock), ms)
              && stockLedger == old(stockLedger) + Filas(old(stock), ms)
              && abierta == Some(AplicarVenta(old(abierta).value, Clasificar(venta.pagos), venta.totalExento,
                                              venta.tipo))
              && historial == old(historial) && cashLedger == old(cashLedger)
    {
      var ms := MovimientosVenta(venta.lines, venta.userId, venta.sessionId, venta.id);
      assert EnStock(stock, ms) by {
        assert stock.Keys == catalog.Keys;
      }
      RegistrarMovimientos(ms);
      AcumularVenta(venta);
    }

    /** The sale row and `actualizarCajaDesdeVenta`: the sale is stored under
      the next id and its payment buckets are added to the open session. */
    method AcumularVenta(venta: Sale)
      requires Valid()
      requires abierta.Some? && venta.id == nextSaleId && venta.sessionId == abierta.value.id
      requires VentaBienFormada(venta) && LineasEnCatalogo(venta.lines, catalog)
      modifies this
      ensures Valid()
      ensures old(nextSaleId) !in old(ventas)
      ensures ventas == old(ventas)[venta.id := venta] && nextSaleId == old(nextSaleId) + 1
      ensures abierta == Some(AplicarVenta(old(abierta).value, Clasificar(venta.pagos), venta.totalExento,
                                           venta.tipo))
      ensures historial == old(historial) && cashLedger == old(cashLedger)
      ensures stock == old(stock) && stockLedger == old(stockLedger)
    {
      var s := abierta.value;
      var b := ClasificarPagos(venta.pagos);
      var s2 := AplicarVenta(s, b, venta.totalExento, venta.tipo);
      VentaMueveEsperado(s, b, venta.totalExento, venta.tipo);
      VentaMantieneSesiones(historial, s, s2, cashLedger);
      AgregarVentaValida(ventas, nextSaleId, NumSesiones(), catalog, venta);
      abierta := Some(s2);
      ventas := ventas[venta.id := venta];
      nextSaleId := venta.id + 1;
    }

    // -------------------------------------------------------------------------
    // Voids (src/services/anulaciones.service.js)

    /** `anularVenta` with a working reversal call: after the guards, each
      detail line is put back with an ANULACION movement and the sale is
      flagged.  The session totals are not reversed, as no reversal exists. */
    method AnularVenta(idVenta: nat, motivo: Option<string>, userId: nat) returns (r: Outcome)
      requires Valid()
      modifies this
      ensures Valid()
      ensures r.Pass? <==> ChequeoAnulacion(idVenta, old(ventas), old(abierta)).None?
      ensures r.Fail? ==> Some(r.error) == ChequeoAnulacion(idVenta, old(ventas), old(abierta)) && unchanged(this)
      ensures r.Pass? ==>
                var v := old(ventas)[idVenta];
                var ms := MovimientosAnulacion(v.lines, userId, v.sessionId, idVenta);
                && ventas == old(ventas)[idVenta := MarcarAnulada(v, userId, motivo)]
                && EnStock(old(stock), ms)
                && stock == Aplicar(old(stock), ms)
                && stockLedger == old(stockLedger) + Filas(old(stock), ms)
                && abierta == old(abierta) && historial == old(historial) && cashLedger == old(cashLedger)
                && nextSaleId == old(nextSaleId)
    {
      var e := ChequeoAnulacion(idVenta, ventas, abierta);
      if e.Some? {
        return Fail(e.value);
      }
      var v := ventas[idVenta];
      var ms := MovimientosAnulacion(v.lines, userId, v.sessionId, idVenta);
      assert EnStock(stock, ms) by {
        assert LineasEnCatalogo(v.lines, catalog);
        assert stock.Keys == catalog.Keys;
      }
      RegistrarMovimientos(ms);
      var anulada := MarcarAnulada(v, userId, motivo);
      ActualizarVentaValida(ventas, nextSaleId, NumSesiones(), catalog, idVenta, anulada);
      ventas := ventas[idVenta := anulada];
      return Pass;
    }

    // -------------------------------------------------------------------------
    // Receipts (src/services/boletas.service.js)

    /** `marcarBoleta`: after the guards, set the flag and the folio. */
    method MarcarBoleta(idVenta: nat, folio: Option<string>) returns (r: Outcome)
      requires Valid()
      modifies this
      ensures Valid()
      ensures r.Pass? <==> ChequeoBoleta(idVenta, folio, old(ventas)).None?
      ensures r.Fail? ==> Some(r.error) == ChequeoBoleta(idVenta, folio, old(ventas)) && unchanged(this)
      ensures r.Pass? ==>
                && ventas == old(ventas)[idVenta := Boletear(old(ventas)[idVenta], folio.value)]
                && stock == old(stock) && stockLedger == old(stockLedger)
                && abierta == old(abierta) && historial == old(historial) && cashLedger == old(cashLedger)
                && nextSaleId == old(nextSaleId)
    {
      var e := ChequeoBoleta(idVenta, folio, ventas);
      if e.Some? {
        return Fail(e.value);
      }
      ventas := ventas[idVenta := Boletear(ventas[idVenta], folio.value)];
      return Pass;
    }
  }
}
