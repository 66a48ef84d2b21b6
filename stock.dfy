/** The stock counter and its audit ledger (src/services/stock.service.js).
    A movement reads the product's stock, overwrites it with stock + delta
    and appends one `movimientos_stock` row; there is no lower bound.  The
    in-place update is `Backend.Store.RegistrarMovimientoStock`; this module
    holds the row format, the effect of a run of movements and the ledger
    invariant. */
module Stock {
  import opened Common

  datatype TipoMovimiento = Venta | Entrada | Ajuste | Anulacion

  /** The free-text description, kept as its structure. */
  datatype Nota = SinNota | NotaVenta(idVenta: nat) | NotaAnulacion(idVenta: nat)

  /** One row of `movimientos_stock`. */
  datatype Movimiento = Movimiento(
    productId: nat,
    userId: nat,
    sessionId: Option<nat>,
    tipo: TipoMovimiento,
    cantidad: int,
    stockAnterior: int,
    stockNuevo: int,
    nota: Nota)

  /** The arguments of one `registrarMovimientoStock` call. */
  datatype Pedido = Pedido(
    productId: nat,
    userId: nat,
    sessionId: Option<nat>,
    tipo: TipoMovimiento,
    cantidad: int,
    nota: Nota)

  /** The stock after one movement: only the target product changes. */
  function Paso(stock: map<nat, int>, m: Pedido): (r: map<nat, int>)
    requires m.productId in stock
    ensures r.Keys == stock.Keys
    ensures r[m.productId] == stock[m.productId] + m.cantidad
    ensures forall p :: p in stock && p != m.productId ==> r[p] == stock[p]
  {
    stock[m.productId := stock[m.productId] + m.cantidad]
  }

  /** The ledger row written for one movement. */
  function Fila(stock: map<nat, int>, m: Pedido): (f: Movimiento)
    requires m.productId in stock
    ensures f.stockNuevo - f.stockAnterior == f.cantidad == m.cantidad
    ensures f.stockAnterior == stock[m.productId] && f.stockNuevo == Paso(stock, m)[m.productId]
  {
    Movimiento(m.productId, m.userId, m.sessionId, m.tipo, m.cantidad,
               stock[m.productId], stock[m.productId] + m.cantidad, m.nota)
  }

  predicate EnStock(stock: map<nat, int>, ms: seq<Pedido>) {
    forall i :: 0 <= i < |ms| ==> ms[i].productId in stock
  }

  /** A run of movements applied in order. */
  function Aplicar(stock: map<nat, int>, ms: seq<Pedido>): (r: map<nat, int>)
    requires EnStock(stock, ms)
    ensures r.Keys == stock.Keys
  {
    if ms == [] then stock
    else Paso(Aplicar(stock, ms[..|ms| - 1]), ms[|ms| - 1])
  }

  /** The ledger rows a run of movements appends. */
  function Filas(stock: map<nat, int>, ms: seq<Pedido>): (fs: seq<Movimiento>)
    requires EnStock(stock, ms)
    ensures |fs| == |ms|
  {
    if ms == [] then []
    else Filas(stock, ms[..|ms| - 1]) + [Fila(Aplicar(stock, ms[..|ms| - 1]), ms[|ms| - 1])]
  }

  /** One more movement of a run, as the loop that issues them sees it. */
  lemma AplicarPrefijo(stock: map<nat, int>, ms: seq<Pedido>, k: nat)
    requires EnStock(stock, ms) && k < |ms|
    ensures EnStock(stock, ms[..k]) && EnStock(stock, ms[..k + 1])
    ensures ms[k].productId in Aplicar(stock, ms[..k])
    ensures Aplicar(stock, ms[..k + 1]) == Paso(Aplicar(stock, ms[..k]), ms[k])
    ensures Filas(stock, ms[..k + 1]) == Filas(stock, ms[..k]) + [Fila(Aplicar(stock, ms[..k]), ms[k])]
  {
    assert ms[..k + 1][..k] == ms[..k];
    assert forall i :: 0 <= i < k + 1 ==> ms[..k + 1][i] == ms[i];
  }

  /** Net requested quantity for one product. */
  function SumaPedidos(ms: seq<Pedido>, p: nat): int {
    if ms == [] then 0
    else SumaPedidos(ms[..|ms| - 1], p) + (if ms[|ms| - 1].productId == p then ms[|ms| - 1].cantidad else 0)
  }

  /** Net recorded quantity for one product. */
  function SumaLedger(ledger: seq<Movimiento>, p: nat): int {
    if ledger == [] then 0
    else SumaLedger(ledger[..|ledger| - 1], p)
           + (if ledger[|ledger| - 1].productId == p then ledger[|ledger| - 1].cantidad else 0)
  }

  /** Final stock is initial stock plus the net quantity of the run. */
  lemma {:induction false} AplicarSuma(stock: map<nat, int>, ms: seq<Pedido>, p: nat)
    requires EnStock(stock, ms) && p in stock
    ensures Aplicar(stock, ms)[p] == stock[p] + SumaPedidos(ms, p)
  {
    if ms != [] {
      var init := ms[..|ms| - 1];
      assert EnStock(stock, init) by {
        assert forall i :: 0 <= i < |init| ==> init[i] == ms[i];
      }
      AplicarSuma(stock, init, p);
    }
  }

  /** Every row of the ledger records the stock just before it (base stock
      plus the rows before it) and the stock it left. */
  ghost predicate Encadenado(base: map<nat, int>, ledger: seq<Movimiento>) {
    ledger == [] ||
    var prev := ledger[..|ledger| - 1];
    var f := ledger[|ledger| - 1];
    && Encadenado(base, prev)
    && f.productId in base
    && f.stockAnterior == base[f.productId] + SumaLedger(prev, f.productId)
    && f.stockNuevo == f.stockAnterior + f.cantidad
  }

  /** The ledger invariant: every product's stock is its base stock plus
      the ledger's net quantity for it, and the rows are chained. */
  ghost predicate Consistente(base: map<nat, int>, stock: map<nat, int>, ledger: seq<Movimiento>) {
    && stock.Keys == base.Keys
    && (forall p :: p in stock ==> stock[p] == base[p] + SumaLedger(ledger, p))
    && Encadenado(base, ledger)
  }

  /** Read at row `i`: the chain says what each row recorded. */
  lemma {:induction false} EncadenadoFila(base: map<nat, int>, ledger: seq<Movimiento>, i: nat)
    requires Encadenado(base, ledger) && i < |ledger|
    ensures ledger[i].productId in base
    ensures ledger[i].stockAnterior == base[ledger[i].productId] + SumaLedger(ledger[..i], ledger[i].productId)
    ensures ledger[i].stockNuevo == ledger[i].stockAnterior + ledger[i].cantidad
  {
    var prev := ledger[..|ledger| - 1];
    if i < |prev| {
      assert prev[i] == ledger[i] && prev[..i] == ledger[..i];
      EncadenadoFila(base, prev, i);
    }
  }

  lemma SumaLedgerSnoc(ledger: seq<Movimiento>, f: Movimiento, p: nat)
    ensures SumaLedger(ledger + [f], p) == SumaLedger(ledger, p) + (if f.productId == p then f.cantidad else 0)
  {
    assert (ledger + [f])[..|ledger|] == ledger;
  }

  /** One movement keeps the ledger invariant. */
  lemma {:induction false} PasoConsistente(base: map<nat, int>, stock: map<nat, int>,
                                           ledger: seq<Movimiento>, m: Pedido)
    requires Consistente(base, stock, ledger) && m.productId in stock
    ensures Consistente(base, Paso(stock, m), ledger + [Fila(stock, m)])
  {
    var f := Fila(stock, m);
    var l2 := ledger + [f];
    forall p | p in Paso(stock, m)
      ensures Paso(stock, m)[p] == base[p] + SumaLedger(l2, p)
    {
      SumaLedgerSnoc(ledger, f, p);
    }
    assert l2[..|l2| - 1] == ledger;
  }

  /** A run of movements keeps the invariant and appends exactly its rows. */
  lemma {:induction false} AplicarConsistente(base: map<nat, int>, stock: map<nat, int>,
                                              ledger: seq<Movimiento>, ms: seq<Pedido>)
    requires Consistente(base, stock, ledger) && EnStock(stock, ms)
    ensures Consistente(base, Aplicar(stock, ms), ledger + Filas(stock, ms))
  {
    if ms != [] {
      var init := ms[..|ms| - 1];
      assert EnStock(stock, init) by {
        assert forall i :: 0 <= i < |init| ==> init[i] == ms[i];
      }
      AplicarConsistente(base, stock, ledger, init);
      PasoConsistente(base, Aplicar(stock, init), ledger + Filas(stock, init), ms[|ms| - 1]);
      assert ledger + Filas(stock, ms) == (ledger + Filas(stock, init)) + [Fila(Aplicar(stock, init), ms[|ms| - 1])];
    } else {
      assert ledger + Filas(stock, ms) == ledger;
    }
  }

  /** No lower bound: selling 3 units of a product with 1 in stock is
      accepted and leaves -2, recorded as such. */
  lemma SobreventaPermitida()
    ensures var m := Pedido(1, 1, Some(1), Venta, -3, SinNota);
            Paso(map[1 := 1], m)[1] == -2 && Fila(map[1 := 1], m).stockNuevo == -2
  {
  }
}
