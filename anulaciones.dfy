/** Voiding a sale (src/services/anulaciones.service.js): the guard checks,
    the stock reversal and the void flag.  The state change itself is
    `Backend.Store.AnularVenta`; this module holds the guards, the reversal
    movements and the behaviour of the service as written, whose call to
    the session-total reversal can never succeed. */
module Anulaciones {
  import opened Common
  import opened Caja
  import opened VentaValidator
  import opened Stock
  import opened Ventas

  /** The guards of `anularVenta`, in the source's order; `idVenta == 0`
      stands for a missing id. */
  function ChequeoAnulacion(idVenta: nat, sales: map<nat, Sale>, abierta: Option<Session>): (e: Option<Error>)
    ensures e.None? <==> && idVenta != 0 && idVenta in sales
                         && !sales[idVenta].anulada && !sales[idVenta].boleteado
                         && abierta.Some? && abierta.value.id == sales[idVenta].sessionId
    ensures idVenta == 0 ==> e == Some(IdVentaRequerido)
    ensures idVenta != 0 && idVenta !in sales ==> e == Some(VentaNoExiste)
    ensures idVenta in sales && idVenta != 0 && sales[idVenta].anulada ==> e == Some(VentaYaAnulada)
    ensures idVenta in sales && idVenta != 0 && !sales[idVenta].anulada && sales[idVenta].boleteado
            ==> e == Some(VentaBoleteada)
    ensures (idVenta in sales && idVenta != 0 && !sales[idVenta].anulada && !sales[idVenta].boleteado
             && abierta.None?) ==> e == Some(SinCajaAbierta)
    ensures (idVenta in sales && idVenta != 0 && !sales[idVenta].anulada && !sales[idVenta].boleteado
             && abierta.Some? && abierta.value.id != sales[idVenta].sessionId) ==> e == Some(VentaDeOtraCaja)
  {
    if idVenta == 0 then Some(IdVentaRequerido)
    else if idVenta !in sales then Some(VentaNoExiste)
    else
      var v := sales[idVenta];
      if v.anulada then Some(VentaYaAnulada)
      else if v.boleteado then Some(VentaBoleteada)
      else if abierta.None? then Some(SinCajaAbierta)
      else if abierta.value.id != v.sessionId then Some(VentaDeOtraCaja)
      else None
  }

  /** A receipted sale can never be voided, whatever the session. */
  lemma BoleteadaNoSeAnula(idVenta: nat, sales: map<nat, Sale>, abierta: Option<Session>)
    requires idVenta in sales && sales[idVenta].boleteado
    ensures ChequeoAnulacion(idVenta, sales, abierta).Some?
  {
  }

  /** The reversal movements: one ANULACION of +quantity per detail line,
      charged to the sale's session and to the voiding user. */
  function MovimientosAnulacion(lines: seq<Line>, userId: nat, sessionId: nat, saleId: nat): (ms: seq<Pedido>)
    ensures |ms| == |lines|
    ensures forall i :: 0 <= i < |lines| ==>
              ms[i] == Pedido(lines[i].productId, userId, Some(sessionId), Anulacion, lines[i].cantidad,
                              NotaAnulacion(saleId))
  {
    if lines == [] then []
    else
      var l := lines[|lines| - 1];
      MovimientosAnulacion(lines[..|lines| - 1], userId, sessionId, saleId)
        + [Pedido(l.productId, userId, Some(sessionId), Anulacion, l.cantidad, NotaAnulacion(saleId))]
  }

  lemma {:induction false} AnulacionReponeLineas(lines: seq<Line>, userId: nat, sessionId: nat, saleId: nat, p: nat)
    ensures SumaPedidos(MovimientosAnulacion(lines, userId, sessionId, saleId), p) == CantidadLineas(lines, p)
  {
    if lines != [] {
      var ms := MovimientosAnulacion(lines, userId, sessionId, saleId);
      assert ms[..|ms| - 1] == MovimientosAnulacion(lines[..|lines| - 1], userId, sessionId, saleId);
      AnulacionReponeLineas(lines[..|lines| - 1], userId, sessionId, saleId, p);
    }
  }

  /** Voiding right after selling puts every product's stock back where it
      was, whoever sells and whoever voids. */
  lemma AnulacionRestauraStock(stock: map<nat, int>, lines: seq<Line>, vendedor: nat, anulador: nat,
                               sessionId: nat, saleId: nat)
    requires forall i :: 0 <= i < |lines| ==> lines[i].productId in stock
    ensures var venta := MovimientosVenta(lines, vendedor, sessionId, saleId);
            var anul := MovimientosAnulacion(lines, anulador, sessionId, saleId);
            EnStock(stock, venta) && EnStock(Aplicar(stock, venta), anul)
            && Aplicar(Aplicar(stock, venta), anul) == stock
  {
    var venta := MovimientosVenta(lines, vendedor, sessionId, saleId);
    var anul := MovimientosAnulacion(lines, anulador, sessionId, saleId);
    var medio := Aplicar(stock, venta);
    var fin := Aplicar(medio, anul);
    forall p | p in stock
      ensures fin[p] == stock[p]
    {
      AplicarSuma(stock, venta, p);
      AplicarSuma(medio, anul, p);
      VentaDescuentaLineas(lines, vendedor, sessionId, saleId, p);
      AnulacionReponeLineas(lines, anulador, sessionId, saleId, p);
    }
  }

  /** The void fields `anularVenta` sets; an empty motivo is stored as null. */
  function MarcarAnulada(v: Sale, userId: nat, motivo: Option<string>): (r: Sale)
    ensures r.anulada && r.anuladaPor == Some(userId)
    ensures r.motivo == (if motivo.Some? && motivo.value != "" then motivo else None)
    ensures r == v.(anulada := r.anulada, anuladaPor := r.anuladaPor, motivo := r.motivo)
  {
    v.(anulada := true, anuladaPor := Some(userId),
       motivo := if motivo.Some? && motivo.value != "" then motivo else None)
  }

  /** Voiding is one-shot: once a sale is flagged, every further attempt is
      refused as already voided. */
  lemma AnularDosVecesFalla(idVenta: nat, sales: map<nat, Sale>, abierta: Option<Session>, userId: nat,
                            motivo: Option<string>)
    requires ChequeoAnulacion(idVenta, sales, abierta).None?
    ensures ChequeoAnulacion(idVenta, sales[idVenta := MarcarAnulada(sales[idVenta], userId, motivo)], abierta)
            == Some(VentaYaAnulada)
  {
  }

  /** `anularVenta` as written: once the guards pass it calls
      `actualizarCajaAnulacion`, which is an empty object rather than a
      function, so the call throws and the controller rolls the whole void
      back.  (The module's import of the unexported `clasificarPagos` is not
      modelled; it would fail even earlier.) */
  function AnularVentaComoEscrita(idVenta: nat, sales: map<nat, Sale>, abierta: Option<Session>): (r: Outcome)
  {
    match ChequeoAnulacion(idVenta, sales, abierta)
    case Some(e) => Fail(e)
    case None => Fail(ReversionNoInvocable)
  }

  /** No void ever succeeds as written: a sale that passes every guard fails
      at the reversal call, so no sale is ever flagged `anulada`. */
  lemma AnularNuncaTieneExito(idVenta: nat, sales: map<nat, Sale>, abierta: Option<Session>)
    ensures AnularVentaComoEscrita(idVenta, sales, abierta).Fail?
    ensures ChequeoAnulacion(idVenta, sales, abierta).None? ==>
              AnularVentaComoEscrita(idVenta, sales, abierta) == Fail(ReversionNoInvocable)
  {
  }

  /** A concrete instance: an unreceipted sale of the open session passes
      every guard, yet the service as written refuses it. */
  lemma AnulacionElegibleFalla(v: Sale, s: Session)
    requires v.id == 5 && !v.anulada && !v.boleteado && v.sessionId == s.id
    ensures ChequeoAnulacion(5, map[5 := v], Some(s)).None?
    ensures AnularVentaComoEscrita(5, map[5 := v], Some(s)) == Fail(ReversionNoInvocable)
  {
  }
}
