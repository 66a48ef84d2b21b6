/** The sale creation of src/services/ventas.service.js: normalisation of the
    sale kind, classification of payments into channel buckets, the effect
    of a sale on the open cash session and the checks `crearVenta` runs
    before anything is persisted.  The persisting steps themselves (sale
    row, stock movements, session update) are `Backend.Store.CrearVenta`. */
module Ventas {
  import opened Common
  import opened Caja
  import opened VentaValidator
  import opened Stock

  datatype TipoVenta = Normal | Interna

  /** `crearVenta` keeps INTERNA only when it is spelt exactly so; any other
      value, a missing one included, becomes NORMAL. */
  function NormalizarTipo(t: Option<string>): (k: TipoVenta)
    ensures k == Interna <==> t == Some("INTERNA")
  {
    if t == Some("INTERNA") then Interna else Normal
  }

  function TipoTexto(k: TipoVenta): (s: string)
    ensures (s == "INTERNA") <==> k == Interna
  {
    if k == Interna then "INTERNA" else "NORMAL"
  }

  /** Unlike `validarTipoVenta`, which `crearVenta` never calls, the
      normalisation is case-sensitive: a lower-case "interna" is a NORMAL sale. */
  lemma NormalizacionDistinguaMayusculas()
    ensures NormalizarTipo(Some("interna")) == Normal
    ensures ValidarTipoVenta(Some("interna")) == Ok("INTERNA")
    ensures NormalizarTipo(None) == Normal && NormalizarTipo(Some("VECINA")) == Normal
  {
    assert Upper("interna") == "INTERNA";
  }

  /** `nota_interna` is stored only for INTERNA sales, and an empty note is null. */
  function NotaGuardada(k: TipoVenta, nota: Option<string>): (n: Option<string>)
    ensures n.Some? <==> k == Interna && nota.Some? && nota.value != ""
    ensures n.Some? ==> n == nota
  {
    if k == Interna && nota.Some? && nota.value != "" then nota else None
  }

  // ---------------------------------------------------------------------------
  // Payment classification

  /** The four channel totals of one sale. */
  datatype Buckets = Buckets(efectivoGiro: int, debito: int, credito: int, transferencia: int)

  function BucketTotal(b: Buckets): int {
    b.efectivoGiro + b.debito + b.credito + b.transferencia
  }

  /** Sum of the payments whose type is exactly `tipo`. */
  function SumaDeTipo(ps: seq<Payment>, tipo: string): int {
    if ps == [] then 0
    else SumaDeTipo(ps[..|ps| - 1], tipo) + (if ps[|ps| - 1].tipo == tipo then ps[|ps| - 1].monto else 0)
  }

  predicate Reconocido(tipo: string) {
    tipo == "EFECTIVO" || tipo == "GIRO" || tipo == "DEBITO" || tipo == "CREDITO" || tipo == "TRANSFERENCIA"
  }

  /** Sum of the payments whose type the classifier does not know. */
  function SumaNoReconocida(ps: seq<Payment>): int {
    if ps == [] then 0
    else SumaNoReconocida(ps[..|ps| - 1]) + (if Reconocido(ps[|ps| - 1].tipo) then 0 else ps[|ps| - 1].monto)
  }

  /** The buckets by definition: EFECTIVO and GIRO share one, DEBITO,
      CREDITO and TRANSFERENCIA have one each. */
  function Clasificar(ps: seq<Payment>): Buckets {
    Buckets(SumaDeTipo(ps, "EFECTIVO") + SumaDeTipo(ps, "GIRO"),
            SumaDeTipo(ps, "DEBITO"), SumaDeTipo(ps, "CREDITO"), SumaDeTipo(ps, "TRANSFERENCIA"))
  }

  /** The bucket one payment goes to. */
  function Asignar(b: Buckets, p: Payment): Buckets {
    if p.tipo == "EFECTIVO" || p.tipo == "GIRO" then b.(efectivoGiro := b.efectivoGiro + p.monto)
    else if p.tipo == "DEBITO" then b.(debito := b.debito + p.monto)
    else if p.tipo == "CREDITO" then b.(credito := b.credito + p.monto)
    else if p.tipo == "TRANSFERENCIA" then b.(transferencia := b.transferencia + p.monto)
    else b
  }

  lemma ClasificarSnoc(ps: seq<Payment>, p: Payment)
    ensures Clasificar(ps + [p]) == Asignar(Clasificar(ps), p)
  {
    assert (ps + [p])[..|ps|] == ps;
  }

  /** `clasificarPagos`: one pass over the payments with a switch on the type;
      an unknown type falls to the default branch and is dropped. */
  method ClasificarPagos(pagos: seq<Payment>) returns (b: Buckets)
    ensures b == Clasificar(pagos)
  {
    var efectivoGiro, debito, credito, transferencia := 0, 0, 0, 0;
    var i := 0;
    while i < |pagos|
      invariant 0 <= i <= |pagos|
      invariant efectivoGiro == SumaDeTipo(pagos[..i], "EFECTIVO") + SumaDeTipo(pagos[..i], "GIRO")
      invariant debito == SumaDeTipo(pagos[..i], "DEBITO")
      invariant credito == SumaDeTipo(pagos[..i], "CREDITO")
      invariant transferencia == SumaDeTipo(pagos[..i], "TRANSFERENCIA")
    {
      var p := pagos[i];
      assert pagos[..i + 1][..i] == pagos[..i] && pagos[..i + 1][i] == p;
      if p.tipo == "EFECTIVO" || p.tipo == "GIRO" {
        efectivoGiro := efectivoGiro + p.monto;
      } else if p.tipo == "DEBITO" {
        debito := debito + p.monto;
      } else if p.tipo == "CREDITO" {
        credito := credito + p.monto;
      } else if p.tipo == "TRANSFERENCIA" {
        transferencia := transferencia + p.monto;
      }
      i := i + 1;
    }
    assert pagos[..i] == pagos;
    b := Buckets(efectivoGiro, debito, credito, transferencia);
  }

  /** The buckets account for every recognised payment and nothing else:
      together with the unknown types they make up the whole payment sum,
      the cash bucket is exactly the cash payments and the three card or
      transfer buckets plus the unknown types are the non-cash payments. */
  lemma {:induction false} ClasificarReparte(ps: seq<Payment>)
    ensures BucketTotal(Clasificar(ps)) + SumaNoReconocida(ps) == SumaPagos(ps)
    ensures Clasificar(ps).efectivoGiro == SumaPagos(ps) - SumaNoEfectivo(ps)
    ensures Clasificar(ps).debito + Clasificar(ps).credito + Clasificar(ps).transferencia
            + SumaNoReconocida(ps) == SumaNoEfectivo(ps)
  {
    if ps != [] {
      ClasificarReparte(ps[..|ps| - 1]);
    }
  }

  /** Sum of the amounts of payments of unknown type, which are positive
      once every payment row passed the row check of `crearVenta`. */
  lemma {:induction false} SumaNoReconocidaNoNegativa(ps: seq<Payment>)
    requires forall i :: 0 <= i < |ps| ==> ps[i].monto > 0
    ensures SumaNoReconocida(ps) >= 0
  {
    if ps != [] {
      SumaNoReconocidaNoNegativa(ps[..|ps| - 1]);
      assert ps[|ps| - 1].monto > 0;
    }
  }

  /** For an accepted NORMAL sale with positive payments, card and transfer
      buckets fit in the taxable part and the cash bucket covers the exempt
      part. */
  lemma TarjetasDentroDelAfecto(ps: seq<Payment>, totalGeneral: int, totalExento: int)
    requires ValidarPagos(ps, totalGeneral, totalExento, "NORMAL").None?
    requires forall i :: 0 <= i < |ps| ==> ps[i].monto > 0
    ensures Clasificar(ps).debito + Clasificar(ps).credito + Clasificar(ps).transferencia
            <= totalGeneral - totalExento
    ensures Clasificar(ps).efectivoGiro >= totalExento
  {
    ClasificarReparte(ps);
    SumaNoReconocidaNoNegativa(ps);
  }

  /** An unknown payment type passes validation as non-cash, yet no bucket
      receives it. */
  lemma TipoDesconocidoSeDescarta()
    ensures ValidarPagos([Payment("CHEQUE", 1000)], 1000, 0, "NORMAL").None?
    ensures Clasificar([Payment("CHEQUE", 1000)]) == Buckets(0, 0, 0, 0)
  {
    var ps := [Payment("CHEQUE", 1000)];
    assert ps[..0] == [];
    assert SumaPagos(ps) == 1000 && SumaNoEfectivo(ps) == 1000;
  }

  // ---------------------------------------------------------------------------
  // Effect of a sale on the open session

  function Ticket(x: int): int { if x > 0 then 1 else 0 }

  /** `actualizarCajaDesdeVenta`: add the buckets and the exempt total, bump
      each channel's ticket counter once if it received money, and for an
      INTERNA sale add the bucket total to `movimientos_vecina`. */
  function AplicarVenta(s: Session, b: Buckets, totalExento: int, tipo: TipoVenta): Session {
    s.(totalEfectivoGiro := s.totalEfectivoGiro + b.efectivoGiro,
       totalDebito := s.totalDebito + b.debito,
       totalCredito := s.totalCredito + b.credito,
       totalTransferencia := s.totalTransferencia + b.transferencia,
       totalExento := s.totalExento + totalExento,
       ticketsEfectivo := s.ticketsEfectivo + Ticket(b.efectivoGiro),
       ticketsDebito := s.ticketsDebito + Ticket(b.debito),
       ticketsCredito := s.ticketsCredito + Ticket(b.credito),
       ticketsTransferencia := s.ticketsTransferencia + Ticket(b.transferencia),
       movimientosVecina := s.movimientosVecina + (if tipo == Interna then BucketTotal(b) else 0))
  }

  /** What a sale does to the numbers a close uses: the expected local cash
      grows by the cash bucket alone (INTERNA sales included, exempt sales not
      subtracted), the expected secondary cash does not move, and neither do
      identity, state, floats or manual movements. */
  lemma VentaMueveEsperado(s: Session, b: Buckets, totalExento: int, tipo: TipoVenta)
    ensures var r := AplicarVenta(s, b, totalExento, tipo);
            && EsperadoLocal(r) == EsperadoLocal(s) + b.efectivoGiro
            && EsperadoVecina(r) == EsperadoVecina(s)
            && r.id == s.id && r.estado == s.estado && r.abiertaPor == s.abiertaPor
            && r.ingresosExtra == s.ingresosExtra && r.egresos == s.egresos
            && (tipo == Normal ==> r.movimientosVecina == s.movimientosVecina)
            && (tipo == Interna ==> r.movimientosVecina == s.movimientosVecina + BucketTotal(b))
  {
  }

  /** Each ticket counter rises by exactly one when its channel received a
      positive sum in this sale and stays put otherwise. */
  lemma TicketPorCanal(s: Session, b: Buckets, totalExento: int, tipo: TipoVenta)
    ensures var r := AplicarVenta(s, b, totalExento, tipo);
            && (r.ticketsEfectivo == s.ticketsEfectivo + 1 <==> b.efectivoGiro > 0)
            && (r.ticketsEfectivo == s.ticketsEfectivo <==> b.efectivoGiro <= 0)
            && (r.ticketsDebito == s.ticketsDebito + 1 <==> b.debito > 0)
            && (r.ticketsDebito == s.ticketsDebito <==> b.debito <= 0)
            && (r.ticketsCredito == s.ticketsCredito + 1 <==> b.credito > 0)
            && (r.ticketsCredito == s.ticketsCredito <==> b.credito <= 0)
            && (r.ticketsTransferencia == s.ticketsTransferencia + 1 <==> b.transferencia > 0)
            && (r.ticketsTransferencia == s.ticketsTransferencia <==> b.transferencia <= 0)
  {
  }

  /** Two cash rows in one sale still make one cash ticket. */
  lemma UnTicketPorVenta(s: Session)
    ensures var b := Clasificar([Payment("EFECTIVO", 500), Payment("GIRO", 700)]);
            && b == Buckets(1200, 0, 0, 0)
            && AplicarVenta(s, b, 0, Normal).ticketsEfectivo == s.ticketsEfectivo + 1
  {
    ClasificarSnoc([], Payment("EFECTIVO", 500));
    ClasificarSnoc([Payment("EFECTIVO", 500)], Payment("GIRO", 700));
    assert [Payment("EFECTIVO", 500)] + [Payment("GIRO", 700)] == [Payment("EFECTIVO", 500), Payment("GIRO", 700)];
  }

  /** A sale's effect on a session, as `crearVenta` records it. */
  datatype Efecto = Efecto(b: Buckets, totalExento: int, tipo: TipoVenta)

  function AplicarVentas(s: Session, es: seq<Efecto>): Session {
    if es == [] then s
    else
      var e := es[|es| - 1];
      AplicarVenta(AplicarVentas(s, es[..|es| - 1]), e.b, e.totalExento, e.tipo)
  }

  function SumaEfectivo(es: seq<Efecto>): int {
    if es == [] then 0 else SumaEfectivo(es[..|es| - 1]) + es[|es| - 1].b.efectivoGiro
  }

  function VentasConEfectivo(es: seq<Efecto>): nat {
    if es == [] then 0 else VentasConEfectivo(es[..|es| - 1]) + Ticket(es[|es| - 1].b.efectivoGiro)
  }

  /** Over a run of sales the cash total grows by the sum of the cash
      buckets, the cash ticket counter by the number of sales that took cash
      (never more than the number of sales), and the expected local cash by
      the cash total alone. */
  lemma {:induction false} AplicarVentasAcumula(s: Session, es: seq<Efecto>)
    ensures AplicarVentas(s, es).totalEfectivoGiro == s.totalEfectivoGiro + SumaEfectivo(es)
    ensures AplicarVentas(s, es).ticketsEfectivo == s.ticketsEfectivo + VentasConEfectivo(es)
    ensures VentasConEfectivo(es) <= |es|
    ensures EsperadoLocal(AplicarVentas(s, es)) == EsperadoLocal(s) + SumaEfectivo(es)
    ensures AplicarVentas(s, es).id == s.id && AplicarVentas(s, es).estado == s.estado
  {
    if es != [] {
      AplicarVentasAcumula(s, es[..|es| - 1]);
    }
  }

  /** A fresh session with floats 100000/0, one sale of 2000 paid with two
      cash rows of 1000, closed with 102000/0 counted: no difference and a
      single cash ticket. */
  lemma CierreCuadra(n: Session)
    requires Pristine(n) && n.inicialLocal == 100000 && n.inicialVecina == 0
    ensures var b := Clasificar([Payment("EFECTIVO", 1000), Payment("EFECTIVO", 1000)]);
            var c := CerrarSesion(AplicarVenta(n, b, 0, Normal), 1, 102000, 0);
            c.esperadoLocal == 102000 && c.diferenciaLocal == Some(0) && c.diferenciaVecina == Some(0)
            && c.ticketsEfectivo == 1
  {
    var p := Payment("EFECTIVO", 1000);
    ClasificarSnoc([], p);
    ClasificarSnoc([p], p);
    assert [p] + [p] == [p, p];
  }

  // ---------------------------------------------------------------------------
  // Sale rows and the checks of `crearVenta`

  /** One row of `ventas` with its detail lines and payment rows. */
  datatype Sale = Sale(
    id: nat,
    userId: nat,
    sessionId: nat,
    tipo: TipoVenta,
    totalGeneral: int,
    totalAfecto: int,
    totalExento: int,
    notaInterna: Option<string>,
    lines: seq<Line>,
    pagos: seq<Payment>,
    boleteado: bool,
    folio: Option<string>,
    anulada: bool,
    anuladaPor: Option<nat>,
    motivo: Option<string>)

  /** The row check of the payment-insert loop: a type and an amount > 0. */
  predicate PagoInvalido(p: Payment) {
    p.tipo == "" || p.monto <= 0
  }

  predicate PagosValidos(ps: seq<Payment>) {
    forall i :: 0 <= i < |ps| ==> !PagoInvalido(ps[i])
  }

  /** Everything `crearVenta` decides before writing: the user (0 stands for
      a missing one), the open session, the products, a positive total, the
      payment rule and the payment rows, in that order.  On success it is
      the row `crearVenta` inserts, with id `saleId`. */
  function NuevaVenta(userId: nat, abierta: Option<Session>, items: seq<Item>, pagos: seq<Payment>,
                      tipoVenta: Option<string>, nota: Option<string>,
                      catalog: map<nat, Product>, promos: map<nat, Promotion>, saleId: nat): (r: Result<Sale>)
    ensures userId == 0 ==> r == Err(UsuarioNoIdentificado)
    ensures userId != 0 && abierta.None? ==> r == Err(SinCajaAbierta)
    ensures var q := Cotizacion(items, catalog, promos);
            userId != 0 && abierta.Some? && q.Err? ==> r == Err(q.error)
    ensures var q := Cotizacion(items, catalog, promos);
            userId != 0 && abierta.Some? && q.Ok? && q.value.totalGeneral <= 0 ==> r == Err(TotalNoPositivo)
    ensures var q := Cotizacion(items, catalog, promos);
            var e := if q.Ok? then ValidarPagos(pagos, q.value.totalGeneral, q.value.totalExento,
                                                TipoTexto(NormalizarTipo(tipoVenta))) else None;
            && ((userId != 0 && abierta.Some? && q.Ok? && q.value.totalGeneral > 0 && e.Some?)
                ==> r == Err(e.value))
            && ((userId != 0 && abierta.Some? && q.Ok? && q.value.totalGeneral > 0 && e.None? && !PagosValidos(pagos))
                ==> r == Err(DatosPagoInvalidos))
    ensures r.Ok? <==> && userId != 0 && abierta.Some?
                       && Cotizacion(items, catalog, promos).Ok?
                       && Cotizacion(items, catalog, promos).value.totalGeneral > 0
                       && ValidarPagos(pagos, Cotizacion(items, catalog, promos).value.totalGeneral,
                                       Cotizacion(items, catalog, promos).value.totalExento,
                                       TipoTexto(NormalizarTipo(tipoVenta))).None?
                       && PagosValidos(pagos)
    ensures r.Ok? ==> && r.value.id == saleId && r.value.userId == userId
                      && r.value.sessionId == abierta.value.id
                      && r.value.tipo == NormalizarTipo(tipoVenta)
                      && r.value.lines == Cotizacion(items, catalog, promos).value.lines
                      && r.value.totalGeneral == Cotizacion(items, catalog, promos).value.totalGeneral
                      && r.value.totalExento == Cotizacion(items, catalog, promos).value.totalExento
                      && r.value.totalAfecto == r.value.totalGeneral - r.value.totalExento
                      && r.value.notaInterna == NotaGuardada(r.value.tipo, nota)
                      && r.value.pagos == pagos
                      && !r.value.boleteado && r.value.folio.None?
                      && !r.value.anulada && r.value.anuladaPor.None? && r.value.motivo.None?
  {
    var tipo := NormalizarTipo(tipoVenta);
    if userId == 0 then Err(UsuarioNoIdentificado)
    else if abierta.None? then Err(SinCajaAbierta)
    else
      match Cotizacion(items, catalog, promos)
      case Err(e) => Err(e)
      case Ok(q) =>
        if q.totalGeneral <= 0 then Err(TotalNoPositivo)
        else
          match ValidarPagos(pagos, q.totalGeneral, q.totalExento, TipoTexto(tipo))
          case Some(e) => Err(e)
          case None =>
            if !PagosValidos(pagos) then Err(DatosPagoInvalidos)
            else Ok(Sale(saleId, userId, abierta.value.id, tipo, q.totalGeneral,
                         q.totalGeneral - q.totalExento, q.totalExento, NotaGuardada(tipo, nota),
                         q.lines, pagos, false, None, false, None, None))
  }

  /** The row check of the payment-insert loop of `crearVenta`: it stops at
      the first row without a type or with an amount <= 0. */
  method RevisarFilasPago(pagos: seq<Payment>) returns (ok: bool)
    ensures ok <==> PagosValidos(pagos)
  {
    var i := 0;
    while i < |pagos|
      invariant 0 <= i <= |pagos|
      invariant forall j :: 0 <= j < i ==> !PagoInvalido(pagos[j])
    {
      if pagos[i].tipo == "" || pagos[i].monto <= 0 {
        assert PagoInvalido(pagos[i]);
        return false;
      }
      i := i + 1;
    }
    return true;
  }

  /** The checking half of `crearVenta`, in the source's order: user, open
      session, kind normalisation, product validation, a positive total,
      the payment rule and finally the row check of the payment-insert loop. */
  method PrepararVenta(userId: nat, caja: Option<Session>, items: seq<Item>, pagos: seq<Payment>,
                       tipoVenta: Option<string>, nota: Option<string>,
                       catalog: map<nat, Product>, promos: map<nat, Promotion>, saleId: nat)
    returns (r: Result<Sale>)
    ensures r == NuevaVenta(userId, caja, items, pagos, tipoVenta, nota, catalog, promos, saleId)
  {
    if userId == 0 {
      return Err(UsuarioNoIdentificado);
    }
    var tipo := NormalizarTipo(tipoVenta);
    if caja.None? {
      return Err(SinCajaAbierta);
    }
    var q := ValidarProductos(items, catalog, promos);
    if q.Err? {
      assert NuevaVenta(userId, caja, items, pagos, tipoVenta, nota, catalog, promos, saleId) == Err(q.error);
      return Err(q.error);
    }
    var totales := q.value;
    assert totales == Cotizacion(items, catalog, promos).value;
    var totalAfecto := totales.totalGeneral - totales.totalExento;
    if totales.totalGeneral <= 0 {
      assert NuevaVenta(userId, caja, items, pagos, tipoVenta, nota, catalog, promos, saleId) == Err(TotalNoPositivo);
      return Err(TotalNoPositivo);
    }
    var e := ValidarPagos(pagos, totales.totalGeneral, totales.totalExento, TipoTexto(tipo));
    if e.Some? {
      assert NuevaVenta(userId, caja, items, pagos, tipoVenta, nota, catalog, promos, saleId) == Err(e.value);
      return Err(e.value);
    }
    var filasOk := RevisarFilasPago(pagos);
    if !filasOk {
      return Err(DatosPagoInvalidos);
    }
    return Ok(Sale(saleId, userId, caja.value.id, tipo, totales.totalGeneral, totalAfecto, totales.totalExento,
                   NotaGuardada(tipo, nota), totales.lines, pagos, false, None, false, None, None));
  }

  /** The invariant every recorded sale satisfies. */
  predicate VentaBienFormada(v: Sale) {
    && v.totalGeneral > 0
    && v.totalAfecto == v.totalGeneral - v.totalExento
    && |v.pagos| > 0 && PagosValidos(v.pagos)
    && SumaPagos(v.pagos) == v.totalGeneral
    && (v.tipo == Normal ==> SumaNoEfectivo(v.pagos) <= v.totalAfecto)
    && (v.notaInterna.Some? ==> v.tipo == Interna)
    && |v.lines| > 0
    && (v.boleteado <==> v.folio.Some?)
    && (v.anulada <==> v.anuladaPor.Some?)
  }

  /** A freshly accepted sale satisfies the invariant: its payments add up
      to its total, and for a NORMAL sale the exempt part is paid in cash. */
  lemma NuevaVentaBienFormada(userId: nat, abierta: Option<Session>, items: seq<Item>, pagos: seq<Payment>,
                              tipoVenta: Option<string>, nota: Option<string>,
                              catalog: map<nat, Product>, promos: map<nat, Promotion>, saleId: nat)
    requires NuevaVenta(userId, abierta, items, pagos, tipoVenta, nota, catalog, promos, saleId).Ok?
    ensures var v := NuevaVenta(userId, abierta, items, pagos, tipoVenta, nota, catalog, promos, saleId).value;
            && VentaBienFormada(v)
            && (v.tipo == Normal ==> Clasificar(v.pagos).efectivoGiro >= v.totalExento)
            && (forall i :: 0 <= i < |v.lines| ==> v.lines[i].productId in catalog)
  {
    var v := NuevaVenta(userId, abierta, items, pagos, tipoVenta, nota, catalog, promos, saleId).value;
    assert v.lines == ResolvedLines(items, catalog);
    if v.tipo == Normal {
      TarjetasDentroDelAfecto(v.pagos, v.totalGeneral, v.totalExento);
    }
  }

  /** The stock movements `crearVenta` issues for a sale: one VENTA of
      -quantity per detail line, in line order, against the sale's session. */
  function MovimientosVenta(lines: seq<Line>, userId: nat, sessionId: nat, saleId: nat): (ms: seq<Pedido>)
    ensures |ms| == |lines|
    ensures forall i :: 0 <= i < |lines| ==>
              ms[i] == Pedido(lines[i].productId, userId, Some(sessionId), Venta, -lines[i].cantidad, NotaVenta(saleId))
  {
    if lines == [] then []
    else
      var l := lines[|lines| - 1];
      MovimientosVenta(lines[..|lines| - 1], userId, sessionId, saleId)
        + [Pedido(l.productId, userId, Some(sessionId), Venta, -l.cantidad, NotaVenta(saleId))]
  }

  /** Net quantity of a product over a sale's lines. */
  function CantidadLineas(lines: seq<Line>, p: nat): int {
    if lines == [] then 0
    else CantidadLineas(lines[..|lines| - 1], p)
           + (if lines[|lines| - 1].productId == p then lines[|lines| - 1].cantidad else 0)
  }

  /** A sale takes from each product exactly the quantity its lines sell. */
  lemma {:induction false} VentaDescuentaLineas(lines: seq<Line>, userId: nat, sessionId: nat, saleId: nat, p: nat)
    ensures SumaPedidos(MovimientosVenta(lines, userId, sessionId, saleId), p) == -CantidadLineas(lines, p)
  {
    if lines != [] {
      var ms := MovimientosVenta(lines, userId, sessionId, saleId);
      assert ms[..|ms| - 1] == MovimientosVenta(lines[..|lines| - 1], userId, sessionId, saleId);
      VentaDescuentaLineas(lines[..|lines| - 1], userId, sessionId, saleId, p);
    }
  }
}
