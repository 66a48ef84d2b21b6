/** The per-sale arithmetic and filters of the dashboard summary
    (src/services/dashboard.service.js): the card total of the payment-method
    block, the clamp of the listing limit, the split of a sale's cash into
    exempt and taxable parts and the pending-receipt predicate built on it.
    The dashboard reads sale columns of its own (`estado`,
    `monto_efectivo_total`, the receipts joined from `ventas_boletas`), so a
    dashboard row is a record of its own here; NULL columns are `None`. */
module Dashboard {
  import opened Common
  import opened Caja
  import opened Ventas

  /** The columns of one sale row the summary queries read. */
  datatype FilaVenta = FilaVenta(
    id: nat,
    sessionId: nat,
    fecha: int,
    tipoVenta: string,
    estado: string,
    totalAfecto: Option<int>,
    totalExento: Option<int>,
    montoEfectivoTotal: Option<int>,
    tieneBoletaAfecta: bool,
    tieneBoletaExenta: bool)

  /** SQL `COALESCE(x, 0)`. */
  function Coalesce(x: Option<int>): int {
    if x.Some? then x.value else 0
  }

  function Min(a: int, b: int): (m: int)
    ensures m <= a && m <= b && (m == a || m == b)
  {
    if a <= b then a else b
  }

  function Max(a: int, b: int): (m: int)
    ensures m >= a && m >= b && (m == a || m == b)
  {
    if a >= b then a else b
  }

  /** The exempt part of the cash paid: `LEAST(exento, efectivo)`. */
  function ExentoEfectivo(r: FilaVenta): (x: int)
    ensures x <= Coalesce(r.totalExento) && x <= Coalesce(r.montoEfectivoTotal)
    ensures x == Coalesce(r.totalExento) || x == Coalesce(r.montoEfectivoTotal)
  {
    Min(Coalesce(r.totalExento), Coalesce(r.montoEfectivoTotal))
  }

  /** The taxable part of the cash paid: what is left of the cash after its
      exempt part, capped by the taxable total. */
  function AfectoEfectivo(r: FilaVenta): (a: int)
    ensures a <= Coalesce(r.totalAfecto)
    ensures Coalesce(r.totalAfecto) >= 0 ==> a >= 0
    ensures ExentoEfectivo(r) + a <= Coalesce(r.montoEfectivoTotal)
  {
    Min(Coalesce(r.totalAfecto), Max(Coalesce(r.montoEfectivoTotal) - ExentoEfectivo(r), 0))
  }

  /** With non-negative amounts the cash is split exactly, unless it exceeds
      what the sale's two parts can absorb. */
  lemma RepartoExacto(r: FilaVenta)
    requires Coalesce(r.totalAfecto) >= 0 && Coalesce(r.totalExento) >= 0
    requires Coalesce(r.montoEfectivoTotal) <= Coalesce(r.totalAfecto) + Coalesce(r.totalExento)
    requires Coalesce(r.montoEfectivoTotal) >= 0
    ensures ExentoEfectivo(r) + AfectoEfectivo(r) == Coalesce(r.montoEfectivoTotal)
  {
  }

  /** The pending-receipt filter of the summary, for the session `idCaja`. */
  predicate PendienteBoleta(r: FilaVenta, idCaja: nat) {
    && r.sessionId == idCaja
    && r.estado == "ACTIVA"
    && r.tipoVenta == "NORMAL"
    && Coalesce(r.montoEfectivoTotal) > 0
    && ((AfectoEfectivo(r) > 0 && !r.tieneBoletaAfecta) || (ExentoEfectivo(r) > 0 && !r.tieneBoletaExenta))
  }

  /** A sale stops being pending once it holds the receipt of every part its
      cash paid for, and a sale paid without cash is never pending. */
  lemma PendienteSegunBoletas(r: FilaVenta, idCaja: nat)
    ensures r.tieneBoletaAfecta && r.tieneBoletaExenta ==> !PendienteBoleta(r, idCaja)
    ensures Coalesce(r.montoEfectivoTotal) <= 0 ==> !PendienteBoleta(r, idCaja)
    ensures r.tieneBoletaAfecta && ExentoEfectivo(r) <= 0 ==> !PendienteBoleta(r, idCaja)
  {
  }

  /** A fully exempt sale of 3000 paid in cash needs only its EXENTA receipt. */
  lemma VentaExentaPendiente(b: bool)
    ensures var r := FilaVenta(1, 1, 0, "NORMAL", "ACTIVA", Some(0), Some(3000), Some(3000), b, false);
            ExentoEfectivo(r) == 3000 && AfectoEfectivo(r) == 0 && PendienteBoleta(r, 1)
    ensures !PendienteBoleta(FilaVenta(1, 1, 0, "NORMAL", "ACTIVA", Some(0), Some(3000), Some(3000), b, true), 1)
  {
  }

  /** `Math.max(1, Math.min(1000, Number(limite) || 200))`: `None` stands for
      a value that is not a number; 0 also falls back to 200. */
  function LimiteListado(limite: Option<int>): (n: int)
    ensures 1 <= n <= 1000
    ensures limite.None? || limite == Some(0) ==> n == 200
    ensures limite.Some? && 1 <= limite.value <= 1000 ==> n == limite.value
    ensures limite.Some? && limite.value > 1000 ==> n == 1000
    ensures limite.Some? && limite.value < 0 ==> n == 1
  {
    var x := if limite.None? || limite.value == 0 then 200 else limite.value;
    Max(1, Min(1000, x))
  }

  /** The payment-method block, read from the session's accumulators. */
  datatype MetodosPago = MetodosPago(
    efectivoGiro: int, debito: int, credito: int, transferencia: int,
    tarjetasTotal: int, exento: int,
    ticketsEfectivo: int, ticketsDebito: int, ticketsCredito: int, ticketsTransferencia: int)

  function Metodos(s: Session): (m: MetodosPago)
    ensures m.tarjetasTotal == m.debito + m.credito + m.transferencia
    ensures m.efectivoGiro == s.totalEfectivoGiro && m.exento == s.totalExento
    ensures m.debito == s.totalDebito && m.credito == s.totalCredito && m.transferencia == s.totalTransferencia
    ensures m.ticketsEfectivo == s.ticketsEfectivo && m.ticketsDebito == s.ticketsDebito
    ensures m.ticketsCredito == s.ticketsCredito && m.ticketsTransferencia == s.ticketsTransferencia
  {
    MetodosPago(s.totalEfectivoGiro, s.totalDebito, s.totalCredito, s.totalTransferencia,
                s.totalDebito + s.totalCredito + s.totalTransferencia, s.totalExento,
                s.ticketsEfectivo, s.ticketsDebito, s.ticketsCredito, s.ticketsTransferencia)
  }

  /** What one sale recorded by `crearVenta` does to the payment block: the
      card total grows by the sale's debit, credit and transfer buckets, the
      cash and exempt figures by the sale's own, and each ticket counter by
      one exactly when its channel received money. */
  lemma MetodosTrasVenta(s: Session, b: Buckets, totalExento: int, tipo: TipoVenta)
    ensures var m0, m := Metodos(s), Metodos(AplicarVenta(s, b, totalExento, tipo));
            && m.tarjetasTotal == m0.tarjetasTotal + b.debito + b.credito + b.transferencia
            && m.efectivoGiro == m0.efectivoGiro + b.efectivoGiro
            && m.exento == m0.exento + totalExento
            && (m.ticketsEfectivo == m0.ticketsEfectivo + 1 <==> b.efectivoGiro > 0)
            && (m.ticketsEfectivo == m0.ticketsEfectivo <==> b.efectivoGiro <= 0)
            && (m.ticketsDebito == m0.ticketsDebito + 1 <==> b.debito > 0)
            && (m.ticketsDebito == m0.ticketsDebito <==> b.debito <= 0)
            && (m.ticketsCredito == m0.ticketsCredito + 1 <==> b.credito > 0)
            && (m.ticketsCredito == m0.ticketsCredito <==> b.credito <= 0)
            && (m.ticketsTransferencia == m0.ticketsTransferencia + 1 <==> b.transferencia > 0)
            && (m.ticketsTransferencia == m0.ticketsTransferencia <==> b.transferencia <= 0)
  {
    TicketPorCanal(s, b, totalExento, tipo);
  }

  /** Sum of the debit, credit and transfer buckets of a run of sales. */
  function SumaTarjetas(es: seq<Efecto>): int {
    if es == [] then 0
    else
      var b := es[|es| - 1].b;
      SumaTarjetas(es[..|es| - 1]) + b.debito + b.credito + b.transferencia
  }

  /** Over a run of sales the block's card total grows by the run's card
      buckets, its cash figure by the run's cash buckets and its cash ticket
      counter by the number of sales that took cash. */
  lemma {:induction false} MetodosTrasVentas(s: Session, es: seq<Efecto>)
    ensures Metodos(AplicarVentas(s, es)).tarjetasTotal == Metodos(s).tarjetasTotal + SumaTarjetas(es)
    ensures Metodos(AplicarVentas(s, es)).efectivoGiro == Metodos(s).efectivoGiro + SumaEfectivo(es)
    ensures Metodos(AplicarVentas(s, es)).ticketsEfectivo == Metodos(s).ticketsEfectivo + VentasConEfectivo(es)
  {
    if es != [] {
      var e := es[|es| - 1];
      MetodosTrasVentas(s, es[..|es| - 1]);
      MetodosTrasVenta(AplicarVentas(s, es[..|es| - 1]), e.b, e.totalExento, e.tipo);
    }
  }

  /** `a` comes no later than `b` in `ORDER BY fecha, id`. */
  predicate NoDespues(a: FilaVenta, b: FilaVenta) {
    a.fecha < b.fecha || (a.fecha == b.fecha && a.id <= b.id)
  }

  /** `ORDER BY fecha ASC, id ASC`. */
  predicate Ascendente(rows: seq<FilaVenta>) {
    forall i, j :: 0 <= i < j < |rows| ==> NoDespues(rows[i], rows[j])
  }

  /** `ORDER BY fecha DESC, id DESC`. */
  predicate Descendente(rows: seq<FilaVenta>) {
    forall i, j :: 0 <= i < j < |rows| ==> NoDespues(rows[j], rows[i])
  }

  /** Rows of the session that pass the pending filter, keeping the
      ascending order of the pending query. */
  function Pendientes(rows: seq<FilaVenta>, idCaja: nat): (ps: seq<FilaVenta>)
    ensures |ps| <= |rows|
    ensures forall r :: r in ps <==> r in rows && PendienteBoleta(r, idCaja)
    ensures forall r :: multiset(ps)[r] == if PendienteBoleta(r, idCaja) then multiset(rows)[r] else 0
  {
    if rows == [] then []
    else
      var prev := Pendientes(rows[..|rows| - 1], idCaja);
      var r := rows[|rows| - 1];
      assert rows == rows[..|rows| - 1] + [r];
      if PendienteBoleta(r, idCaja) then prev + [r] else prev
  }

  /** Active rows of the session, keeping the descending order of the
      listing query. */
  function Activas(rows: seq<FilaVenta>, idCaja: nat): (vs: seq<FilaVenta>)
    ensures |vs| <= |rows|
    ensures forall r :: r in vs <==> r in rows && r.sessionId == idCaja && r.estado == "ACTIVA"
    ensures forall r :: multiset(vs)[r] == if r.sessionId == idCaja && r.estado == "ACTIVA" then multiset(rows)[r] else 0
  {
    if rows == [] then []
    else
      var prev := Activas(rows[..|rows| - 1], idCaja);
      var r := rows[|rows| - 1];
      assert rows == rows[..|rows| - 1] + [r];
      if r.sessionId == idCaja && r.estado == "ACTIVA" then prev + [r] else prev
  }

  /** Appending a row that no earlier row follows keeps a sequence sorted. */
  lemma AscendenteSnoc(xs: seq<FilaVenta>, r: FilaVenta)
    requires Ascendente(xs) && forall x :: x in xs ==> NoDespues(x, r)
    ensures Ascendente(xs + [r])
  {
    forall i, j | 0 <= i < j < |xs| + 1
      ensures NoDespues((xs + [r])[i], (xs + [r])[j])
    {
      assert (xs + [r])[i] == xs[i];
      if j == |xs| {
        assert xs[i] in xs;
      }
    }
  }

  lemma DescendenteSnoc(xs: seq<FilaVenta>, r: FilaVenta)
    requires Descendente(xs) && forall x :: x in xs ==> NoDespues(r, x)
    ensures Descendente(xs + [r])
  {
    forall i, j | 0 <= i < j < |xs| + 1
      ensures NoDespues((xs + [r])[j], (xs + [r])[i])
    {
      assert (xs + [r])[i] == xs[i];
      if j == |xs| {
        assert xs[i] in xs;
      }
    }
  }

  /** The pending filter keeps the ascending order of the pending query. */
  lemma {:induction false} PendientesOrden(rows: seq<FilaVenta>, idCaja: nat)
    ensures Ascendente(rows) ==> Ascendente(Pendientes(rows, idCaja))
  {
    if rows != [] && Ascendente(rows) {
      var prev, r := rows[..|rows| - 1], rows[|rows| - 1];
      assert Ascendente(prev) by {
        forall i, j | 0 <= i < j < |prev| ensures NoDespues(prev[i], prev[j]) {
          assert prev[i] == rows[i] && prev[j] == rows[j];
        }
      }
      PendientesOrden(prev, idCaja);
      forall x | x in prev ensures NoDespues(x, r) {
        var k :| 0 <= k < |prev| && prev[k] == x;
        assert rows[k] == x;
      }
      if PendienteBoleta(r, idCaja) {
        AscendenteSnoc(Pendientes(prev, idCaja), r);
      }
    }
  }

  /** The active-row filter keeps the descending order of the listing query. */
  lemma {:induction false} ActivasOrden(rows: seq<FilaVenta>, idCaja: nat)
    ensures Descendente(rows) ==> Descendente(Activas(rows, idCaja))
  {
    if rows != [] && Descendente(rows) {
      var prev, r := rows[..|rows| - 1], rows[|rows| - 1];
      assert Descendente(prev) by {
        forall i, j | 0 <= i < j < |prev| ensures NoDespues(prev[j], prev[i]) {
          assert prev[i] == rows[i] && prev[j] == rows[j];
        }
      }
      ActivasOrden(prev, idCaja);
      forall x | x in prev ensures NoDespues(r, x) {
        var k :| 0 <= k < |prev| && prev[k] == x;
        assert rows[k] == x;
      }
      if r.sessionId == idCaja && r.estado == "ACTIVA" {
        DescendenteSnoc(Activas(prev, idCaja), r);
      }
    }
  }

  /** The first `k` rows of a descending sequence are descending, and no
      row after them comes later than any of them. */
  lemma PrefijoDescendente(xs: seq<FilaVenta>, k: nat)
    requires k <= |xs|
    ensures Descendente(xs) ==> Descendente(xs[..k])
    ensures Descendente(xs) ==> forall i, j :: 0 <= i < k <= j < |xs| ==> NoDespues(xs[j], xs[..k][i])
  {
  }

  /** The parts of the summary this model keeps. */
  datatype Resumen = Resumen(
    cajaActiva: bool,
    caja: Option<Session>,
    metodosPago: Option<MetodosPago>,
    pendientesCount: nat,
    pendientes: seq<FilaVenta>,
    ventas: seq<FilaVenta>)

  /** `obtenerResumenDashboard` restricted to the kept parts.  The pending
      query and the listing query sort the same sale rows in opposite
      orders, so they come in as two sequences: `asc` as the pending query
      returns them (`ORDER BY fecha ASC, id ASC`) and `desc` as the listing
      query returns them (`ORDER BY fecha DESC, id DESC`) before its
      `LIMIT`. */
  function ObtenerResumen(abierta: Option<Session>, asc: seq<FilaVenta>, desc: seq<FilaVenta>,
                          mode: string, limite: Option<int>)
    : (r: Resumen)
    ensures abierta.None? ==> r == Resumen(false, None, None, 0, [], [])
    ensures abierta.Some? ==> && r.cajaActiva && r.caja == abierta
                              && r.metodosPago == Some(Metodos(abierta.value))
                              && r.pendientes == Pendientes(asc, abierta.value.id)
                              && r.pendientesCount == |r.pendientes|
                              && (forall f :: f in r.pendientes <==> f in asc && PendienteBoleta(f, abierta.value.id))
                              && (Ascendente(asc) ==> Ascendente(r.pendientes))
                              && (mode == "last" ==> r.ventas == [])
                              && (mode != "last" ==>
                                    var activas := Activas(desc, abierta.value.id);
                                    && r.ventas == activas[..Min(LimiteListado(limite), |activas|)]
                                    && (Descendente(desc) ==>
                                          && Descendente(r.ventas)
                                          && forall i, j :: 0 <= i < |r.ventas| <= j < |activas|
                                               ==> NoDespues(activas[j], r.ventas[i])))
  {
    if abierta.None? then Resumen(false, None, None, 0, [], [])
    else
      var id := abierta.value.id;
      PendientesOrden(asc, id);
      ActivasOrden(desc, id);
      var ps := Pendientes(asc, id);
      var activas := Activas(desc, id);
      var n := LimiteListado(limite);
      var k := Min(n, |activas|);
      PrefijoDescendente(activas, k);
      var ventas := if mode == "last" then [] else activas[..k];
      Resumen(true, abierta, Some(Metodos(abierta.value)), |ps|, ps, ventas)
  }
}
