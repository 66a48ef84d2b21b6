/** Receipt marking (src/services/boletas.service.js): the state checks of
    `marcarBoleta`, the fields it sets, and the pending-receipt filter of
    `obtenerVentasPendientes`.  The in-place update is
    `Backend.Store.MarcarBoleta`. */
module Boletas {
  import opened Common
  import opened VentaValidator
  import opened Ventas

  /** The guards of `marcarBoleta`, in the source's order; `idVenta == 0`
      stands for a missing id and an empty folio counts as missing.  The
      void flag is not consulted. */
  function ChequeoBoleta(idVenta: nat, folio: Option<string>, sales: map<nat, Sale>): (e: Option<Error>)
    ensures e.None? <==> && idVenta != 0 && folio.Some? && folio.value != "" && idVenta in sales
                         && sales[idVenta].tipo == Normal && !sales[idVenta].boleteado
    ensures idVenta == 0 ==> e == Some(IdVentaRequerido)
    ensures idVenta != 0 && (folio.None? || folio.value == "") ==> e == Some(FolioRequerido)
    ensures e.None? || e.value in {IdVentaRequerido, FolioRequerido, VentaNoExiste,
                                   VentaInternaNoSeBoletea, VentaYaBoleteada}
  {
    if idVenta == 0 then Some(IdVentaRequerido)
    else if folio.None? || folio.value == "" then Some(FolioRequerido)
    else if idVenta !in sales then Some(VentaNoExiste)
    else if sales[idVenta].tipo != Normal then Some(VentaInternaNoSeBoletea)
    else if sales[idVenta].boleteado then Some(VentaYaBoleteada)
    else None
  }

  /** The UPDATE of `marcarBoleta`: the flag and the folio, nothing else. */
  function Boletear(v: Sale, folio: string): (r: Sale)
    ensures r.boleteado && r.folio == Some(folio)
    ensures r == v.(boleteado := true, folio := r.folio)
  {
    v.(boleteado := true, folio := Some(folio))
  }

  /** Marking twice: the second attempt always fails as already marked. */
  lemma SegundaMarcaFalla(idVenta: nat, folio: Option<string>, otro: Option<string>, sales: map<nat, Sale>)
    requires ChequeoBoleta(idVenta, folio, sales).None?
    requires otro.Some? && otro.value != ""
    ensures ChequeoBoleta(idVenta, otro, sales[idVenta := Boletear(sales[idVenta], folio.value)])
            == Some(VentaYaBoleteada)
  {
  }

  /** The code as written lets a voided sale be receipted. */
  lemma AnuladaSePuedeBoletear(v: Sale)
    requires v.id == 3 && v.tipo == Normal && !v.boleteado && v.anulada
    ensures ChequeoBoleta(3, Some("F-1"), map[3 := v]).None?
  {
  }

  /** Cash (EFECTIVO + GIRO) paid in a sale, as the pending query sums it. */
  function MontoEfectivo(ps: seq<Payment>): int {
    if ps == [] then 0
    else MontoEfectivo(ps[..|ps| - 1]) + (if EsEfectivo(ps[|ps| - 1].tipo) then ps[|ps| - 1].monto else 0)
  }

  /** The query's cash sum is the session's cash bucket for that sale. */
  lemma {:induction false} MontoEfectivoEsCaja(ps: seq<Payment>)
    ensures MontoEfectivo(ps) == Clasificar(ps).efectivoGiro
  {
    if ps != [] {
      MontoEfectivoEsCaja(ps[..|ps| - 1]);
    }
  }

  /** A sale awaiting its receipt: not marked, NORMAL, positive total, at
      least one payment row (the inner join) and a positive cash sum. */
  predicate Pendiente(v: Sale) {
    && !v.boleteado
    && v.tipo == Normal
    && v.totalGeneral > 0
    && |v.pagos| > 0
    && MontoEfectivo(v.pagos) > 0
  }

  /** `obtenerVentasPendientes`, as a set of sale ids. */
  function VentasPendientes(sales: map<nat, Sale>): (ids: set<nat>)
    ensures forall k :: k in ids <==> k in sales && Pendiente(sales[k])
  {
    set k | k in sales && Pendiente(sales[k])
  }

  /** INTERNA sales are never pending, and neither are sales paid without cash. */
  lemma NoPendientes(v: Sale)
    ensures v.tipo == Interna ==> !Pendiente(v)
    ensures Clasificar(v.pagos).efectivoGiro <= 0 ==> !Pendiente(v)
  {
    MontoEfectivoEsCaja(v.pagos);
  }

  /** Marking a pending sale removes exactly that sale from the pending list. */
  lemma BoletearSacaDePendientes(sales: map<nat, Sale>, idVenta: nat, folio: string)
    requires idVenta in sales
    ensures VentasPendientes(sales[idVenta := Boletear(sales[idVenta], folio)])
            == VentasPendientes(sales) - {idVenta}
  {
  }
}
