/** Pricing and payment validation of a sale (src/validators/venta.validator.js):
    authoritative unit prices from the catalog, the complimentary ice line,
    the general and exempt totals, fixed-bundle promotions and the payment
    checks.  The resolver returns new line records instead of mutating the
    request items in place. */
module VentaValidator {
  import opened Common

  /** Code of the 1 kg ice bag given away with scanner combos. */
  const HIELO_1KG_CODIGO: string := "HIE001"

  /** Catalog row of `productos` as the resolver reads it. */
  datatype Product = Product(
    codigo: string,
    nombre: string,
    precioVenta: int,
    precioMayorista: Option<int>,
    cantidadMayorista: Option<int>,
    exentoIva: int)

  /** One requested item; `productId == 0` stands for a missing id and
      `cantidad == None` for a null quantity. */
  datatype Item = Item(productId: nat, cantidad: Option<int>, esPromo: bool, promoId: Option<nat>)

  /** A resolved line, as persisted in `ventas_detalle`. */
  datatype Line = Line(
    productId: nat,
    nombre: string,
    cantidad: int,
    precioUnitario: int,
    esMayorista: bool,
    exentoIva: int,
    esPromo: bool,
    promoId: Option<nat>)

  /** Lines and totals produced by `validarProductos`. */
  datatype Resolved = Resolved(lines: seq<Line>, totalGeneral: int, totalExento: int)

  // ---------------------------------------------------------------------------
  // Line resolution

  /** The per-item checks of `validarProductos`, in the source's order. */
  function ItemError(it: Item, catalog: map<nat, Product>): (e: Option<Error>)
    ensures e.None? <==> it.productId != 0 && it.cantidad.Some? && it.cantidad.value > 0
                         && it.productId in catalog
  {
    if it.productId == 0 then Some(ProductoSinId)
    else if it.cantidad.None? || it.cantidad.value <= 0 then Some(CantidadInvalida)
    else if it.productId !in catalog then Some(ProductoNoExiste)
    else None
  }

  predicate ItemsValid(items: seq<Item>, catalog: map<nat, Product>) {
    forall i :: 0 <= i < |items| ==> ItemError(items[i], catalog).None?
  }

  /** The error of the first failing item, scanning in request order. */
  function PrimerErrorItem(items: seq<Item>, catalog: map<nat, Product>): (e: Option<Error>)
    ensures e.None? <==> ItemsValid(items, catalog)
  {
    if items == [] then None
    else if ItemError(items[0], catalog).Some? then ItemError(items[0], catalog)
    else
      var rest := PrimerErrorItem(items[1..], catalog);
      assert forall i :: 1 <= i < |items| ==> items[i] == items[1..][i - 1];
      rest
  }

  /** An item that fails after a run of valid ones decides the error. */
  lemma {:induction false} PrimerErrorItemAt(items: seq<Item>, catalog: map<nat, Product>, i: nat)
    requires i < |items| && ItemError(items[i], catalog).Some?
    requires forall j :: 0 <= j < i ==> ItemError(items[j], catalog).None?
    ensures PrimerErrorItem(items, catalog) == ItemError(items[i], catalog)
  {
    if i > 0 {
      assert items[1..][i - 1] == items[i];
      assert forall j :: 0 <= j < i - 1 ==> items[1..][j] == items[j + 1];
      PrimerErrorItemAt(items[1..], catalog, i - 1);
    }
  }

  /** A promo-flagged line of the ice product. */
  predicate EsHieloPromo(it: Item, prod: Product) {
    it.esPromo && prod.codigo == HIELO_1KG_CODIGO
  }

  predicate TieneMayorista(prod: Product) {
    && prod.precioMayorista.Some? && prod.precioMayorista.value > 0
    && prod.cantidadMayorista.Some? && prod.cantidadMayorista.value > 0
  }

  /** The wholesale tier applies once the quantity reaches the threshold. */
  predicate AplicaMayorista(prod: Product, cantidad: int) {
    TieneMayorista(prod) && cantidad >= prod.cantidadMayorista.value
  }

  function ResolveLine(it: Item, prod: Product): (l: Line)
    requires it.cantidad.Some?
    ensures l.productId == it.productId && l.cantidad == it.cantidad.value
    ensures l.exentoIva == prod.exentoIva && l.nombre == prod.nombre
    ensures l.esPromo == it.esPromo && l.promoId == it.promoId
    ensures EsHieloPromo(it, prod) ==> l.precioUnitario == 0 && !l.esMayorista
    ensures !EsHieloPromo(it, prod) ==>
              (l.esMayorista <==> AplicaMayorista(prod, it.cantidad.value))
    ensures l.esMayorista ==> l.precioUnitario == prod.precioMayorista.value
                              && l.cantidad >= prod.cantidadMayorista.value > 0
    ensures !EsHieloPromo(it, prod) && !l.esMayorista ==> l.precioUnitario == prod.precioVenta
  {
    var q := it.cantidad.value;
    if EsHieloPromo(it, prod) then
      Line(it.productId, prod.nombre, q, 0, false, prod.exentoIva, it.esPromo, it.promoId)
    else if AplicaMayorista(prod, q) then
      Line(it.productId, prod.nombre, q, prod.precioMayorista.value, true, prod.exentoIva, it.esPromo, it.promoId)
    else
      Line(it.productId, prod.nombre, q, prod.precioVenta, false, prod.exentoIva, it.esPromo, it.promoId)
  }

  /** The lines the resolver produces for a valid request. */
  function ResolvedLines(items: seq<Item>, catalog: map<nat, Product>): (ls: seq<Line>)
    requires ItemsValid(items, catalog)
    ensures |ls| == |items|
    ensures forall i :: 0 <= i < |items| ==> ls[i] == ResolveLine(items[i], catalog[items[i].productId])
  {
    seq(|items|, i requires 0 <= i < |items| && ItemError(items[i], catalog).None? =>
                  ResolveLine(items[i], catalog[items[i].productId]))
  }

  function Subtotal(l: Line): int {
    l.precioUnitario * l.cantidad
  }

  function SumGeneral(ls: seq<Line>): int {
    if ls == [] then 0 else SumGeneral(ls[..|ls| - 1]) + Subtotal(ls[|ls| - 1])
  }

  function SumExento(ls: seq<Line>): int {
    if ls == [] then 0
    else SumExento(ls[..|ls| - 1]) + (if ls[|ls| - 1].exentoIva == 1 then Subtotal(ls[|ls| - 1]) else 0)
  }

  /** With non-negative prices and quantities the exempt total never exceeds
      the general total. */
  lemma {:induction false} ExentoWithinGeneral(ls: seq<Line>)
    requires forall i :: 0 <= i < |ls| ==> ls[i].precioUnitario >= 0 && ls[i].cantidad >= 0
    ensures 0 <= SumExento(ls) <= SumGeneral(ls)
  {
    if ls != [] {
      var last := ls[|ls| - 1];
      ExentoWithinGeneral(ls[..|ls| - 1]);
      assert last.precioUnitario >= 0 && last.cantidad >= 0;
      assert Subtotal(last) >= 0;
    }
  }

  /** Unfolding of both totals at an appended line (a proof step of the
      resolution loop). */
  lemma SumasSnoc(ls: seq<Line>, l: Line)
    ensures SumGeneral(ls + [l]) == SumGeneral(ls) + Subtotal(l)
    ensures SumExento(ls + [l]) == SumExento(ls) + (if l.exentoIva == 1 then Subtotal(l) else 0)
  {
    assert (ls + [l])[..|ls + [l]| - 1] == ls;
  }

  /** A free ice line adds nothing to either total. */
  lemma {:induction false} HieloAddsNothing(ls: seq<Line>, l: Line)
    requires l.precioUnitario == 0
    ensures SumGeneral(ls + [l]) == SumGeneral(ls)
    ensures SumExento(ls + [l]) == SumExento(ls)
  {
    assert (ls + [l])[..|ls + [l]| - 1] == ls;
  }

  /** The resolution loop's line invariant, extended by item `i`. */
  lemma LineaSnoc(items: seq<Item>, catalog: map<nat, Product>, lines: seq<Line>, i: nat)
    requires i < |items| && |lines| == i && ItemError(items[i], catalog).None?
    requires forall j :: 0 <= j < i ==>
               ItemError(items[j], catalog).None? && lines[j] == ResolveLine(items[j], catalog[items[j].productId])
    ensures var ls := lines + [ResolveLine(items[i], catalog[items[i].productId])];
            forall j :: 0 <= j < i + 1 ==>
              ItemError(items[j], catalog).None? && ls[j] == ResolveLine(items[j], catalog[items[j].productId])
  {
  }

  /** The resolution loop of `validarProductos`: checks each item in order,
      replaces caller data by catalog data and accumulates the totals. */
  method ResolverLineas(items: seq<Item>, catalog: map<nat, Product>) returns (r: Result<Resolved>)
    ensures |items| == 0 ==> r == Err(VentaSinProductos)
    ensures r.Ok? <==> |items| > 0 && ItemsValid(items, catalog)
    ensures r.Err? && |items| > 0 ==>
              exists i :: 0 <= i < |items| && ItemError(items[i], catalog) == Some(r.error)
                          && forall j :: 0 <= j < i ==> ItemError(items[j], catalog).None?
    ensures r.Ok? ==> r.value.lines == ResolvedLines(items, catalog)
                      && r.value.totalGeneral == SumGeneral(r.value.lines)
                      && r.value.totalExento == SumExento(r.value.lines)
  {
    if |items| == 0 {
      return Err(VentaSinProductos);
    }
    var lines: seq<Line> := [];
    var totalGeneral, totalExento := 0, 0;
    var i := 0;
    while i < |items|
      invariant 0 <= i <= |items| && |lines| == i
      invariant forall j :: 0 <= j < i ==> ItemError(items[j], catalog).None?
      invariant forall j :: 0 <= j < i ==> lines[j] == ResolveLine(items[j], catalog[items[j].productId])
      invariant totalGeneral == SumGeneral(lines) && totalExento == SumExento(lines)
    {
      var it := items[i];
      if it.productId == 0 {
        assert ItemError(items[i], catalog) == Some(ProductoSinId);
        return Err(ProductoSinId);
      }
      if it.cantidad.None? || it.cantidad.value <= 0 {
        assert ItemError(items[i], catalog) == Some(CantidadInvalida);
        return Err(CantidadInvalida);
      }
      if it.productId !in catalog {
        assert ItemError(items[i], catalog) == Some(ProductoNoExiste);
        return Err(ProductoNoExiste);
      }
      var prod := catalog[it.productId];
      var line := ResolveLine(it, prod);
      LineaSnoc(items, catalog, lines, i);
      if EsHieloPromo(it, prod) {
        HieloAddsNothing(lines, line);
        lines := lines + [line];
        i := i + 1;
        continue;
      }
      var subtotal := line.precioUnitario * it.cantidad.value;
      assert subtotal == Subtotal(line);
      SumasSnoc(lines, line);
      totalGeneral := totalGeneral + subtotal;
      if prod.exentoIva == 1 {
        totalExento := totalExento + subtotal;
      }
      lines := lines + [line];
      i := i + 1;
    }
    assert lines == ResolvedLines(items, catalog);
    return Ok(Resolved(lines, totalGeneral, totalExento));
  }

  // ---------------------------------------------------------------------------
  // Fixed-bundle promotions

  /** Requirement row of `promociones_detalle`. */
  datatype PromoDetail = PromoDetail(productId: nat, cantidad: int, esGratis: bool)

  /** Row of `promociones` with its detail rows. */
  datatype Promotion = Promotion(
    tipoPromocion: string,
    precioPromocion: Option<int>,
    activa: bool,
    detalles: seq<PromoDetail>)

  /** Distinct promotion ids of promo-flagged lines, in first-appearance order. */
  function PromoIds(ls: seq<Line>): (ids: seq<nat>)
  {
    if ls == [] then []
    else
      var prev := PromoIds(ls[..|ls| - 1]);
      var l := ls[|ls| - 1];
      if l.esPromo && l.promoId.Some? && l.promoId.value !in prev then prev + [l.promoId.value] else prev
  }

  /** `[...new Set(...)]`: every promotion referenced by a promo-flagged line
      appears exactly once, and nothing else appears. */
  lemma {:induction false} PromoIdsSpec(ls: seq<Line>)
    ensures forall id :: id in PromoIds(ls) <==>
              exists j :: 0 <= j < |ls| && ls[j].esPromo && ls[j].promoId == Some(id)
    ensures forall k, m :: 0 <= k < m < |PromoIds(ls)| ==> PromoIds(ls)[k] != PromoIds(ls)[m]
  {
    if ls != [] {
      var init := ls[..|ls| - 1];
      PromoIdsSpec(init);
      forall id | id in PromoIds(ls)
        ensures exists j :: 0 <= j < |ls| && ls[j].esPromo && ls[j].promoId == Some(id)
      {
        if id in PromoIds(init) {
          var j :| 0 <= j < |init| && init[j].esPromo && init[j].promoId == Some(id);
          assert ls[j] == init[j];
        } else {
          assert ls[|ls| - 1].esPromo && ls[|ls| - 1].promoId == Some(id);
        }
      }
      forall id | exists j :: 0 <= j < |ls| && ls[j].esPromo && ls[j].promoId == Some(id)
        ensures id in PromoIds(ls)
      {
        var j :| 0 <= j < |ls| && ls[j].esPromo && ls[j].promoId == Some(id);
        if j < |init| {
          assert init[j] == ls[j];
        }
      }
    }
  }

  /** `items.find`: the first line of that promotion and product. */
  function FindLine(ls: seq<Line>, promoId: nat, productId: nat): (r: Option<Line>)
    ensures r.Some? ==> r.value in ls && r.value.promoId == Some(promoId) && r.value.productId == productId
    ensures r.None? ==> forall l :: l in ls ==> !(l.promoId == Some(promoId) && l.productId == productId)
  {
    if ls == [] then None
    else if ls[0].promoId == Some(promoId) && ls[0].productId == productId then Some(ls[0])
    else FindLine(ls[1..], promoId, productId)
  }

  /** Like `items.find`, the line found is the first match: every earlier
      line belongs to another promotion or product. */
  lemma {:induction false} FindLineEsPrimera(ls: seq<Line>, promoId: nat, productId: nat)
    requires FindLine(ls, promoId, productId).Some?
    ensures exists i :: 0 <= i < |ls| && ls[i] == FindLine(ls, promoId, productId).value
                        && forall j :: 0 <= j < i ==> !(ls[j].promoId == Some(promoId) && ls[j].productId == productId)
  {
    if !(ls[0].promoId == Some(promoId) && ls[0].productId == productId) {
      FindLineEsPrimera(ls[1..], promoId, productId);
      var i :| 0 <= i < |ls[1..]| && ls[1..][i] == FindLine(ls[1..], promoId, productId).value
               && forall j :: 0 <= j < i ==> !(ls[1..][j].promoId == Some(promoId) && ls[1..][j].productId == productId);
      assert ls[i + 1] == ls[1..][i];
      assert forall j :: 1 <= j < i + 1 ==> ls[j] == ls[1..][j - 1];
    } else {
      assert ls[0] == FindLine(ls, promoId, productId).value;
    }
  }

  /** A requirement row that forces the bundle count to 0. */
  predicate BadRow(ls: seq<Line>, promoId: nat, d: PromoDetail) {
    FindLine(ls, promoId, d.productId).None? || d.cantidad <= 0
  }

  predicate NoBadRow(ls: seq<Line>, promoId: nat, dets: seq<PromoDetail>) {
    forall k :: 0 <= k < |dets| ==> !BadRow(ls, promoId, dets[k])
  }

  /** Bundles one requirement row allows: floor(line qty / required qty). */
  function RowBundles(ls: seq<Line>, promoId: nat, d: PromoDetail): int
    requires !BadRow(ls, promoId, d)
  {
    FindLine(ls, promoId, d.productId).value.cantidad / d.cantidad
  }

  function Min(a: int, b: int): int { if a <= b then a else b }

  /** Minimum over the rows of the bundles each row allows. */
  function MinBundles(ls: seq<Line>, promoId: nat, dets: seq<PromoDetail>): int
    requires |dets| > 0 && NoBadRow(ls, promoId, dets)
  {
    var last := RowBundles(ls, promoId, dets[|dets| - 1]);
    if |dets| == 1 then last
    else Min(MinBundles(ls, promoId, dets[..|dets| - 1]), last)
  }

  /** Number of complete bundles: 0 if any row is missing or malformed,
      otherwise the minimum over the rows. */
  function BundleCount(ls: seq<Line>, promoId: nat, dets: seq<PromoDetail>): int
    requires |dets| > 0
  {
    if NoBadRow(ls, promoId, dets) then MinBundles(ls, promoId, dets) else 0
  }

  /** The minimum is feasible for every row and cannot be raised by one. */
  lemma {:induction false} MinBundlesIsMax(ls: seq<Line>, promoId: nat, dets: seq<PromoDetail>)
    requires |dets| > 0 && NoBadRow(ls, promoId, dets)
    ensures forall k :: 0 <= k < |dets| ==> MinBundles(ls, promoId, dets) <= RowBundles(ls, promoId, dets[k])
    ensures exists k :: 0 <= k < |dets| && MinBundles(ls, promoId, dets) == RowBundles(ls, promoId, dets[k])
  {
    if |dets| > 1 {
      var init := dets[..|dets| - 1];
      assert NoBadRow(ls, promoId, init) by {
        forall k | 0 <= k < |init| ensures !BadRow(ls, promoId, init[k]) {
          assert init[k] == dets[k];
        }
      }
      MinBundlesIsMax(ls, promoId, init);
      forall k | 0 <= k < |init| ensures RowBundles(ls, promoId, init[k]) == RowBundles(ls, promoId, dets[k]) {
        assert init[k] == dets[k];
      }
      var m := MinBundles(ls, promoId, init);
      var k0 :| 0 <= k0 < |init| && m == RowBundles(ls, promoId, init[k0]);
      if m <= RowBundles(ls, promoId, dets[|dets| - 1]) {
        assert MinBundles(ls, promoId, dets) == RowBundles(ls, promoId, dets[k0]);
      } else {
        assert MinBundles(ls, promoId, dets) == RowBundles(ls, promoId, dets[|dets| - 1]);
      }
    } else {
      assert MinBundles(ls, promoId, dets) == RowBundles(ls, promoId, dets[0]);
    }
  }

  /** Bundle count characterisation: n bundles use at most every line's
      quantity, and n + 1 bundles would exceed some line. */
  lemma BundleCountIsMaximal(ls: seq<Line>, promoId: nat, dets: seq<PromoDetail>)
    requires |dets| > 0 && NoBadRow(ls, promoId, dets)
    ensures var n := BundleCount(ls, promoId, dets);
            && (forall k :: 0 <= k < |dets| ==>
                  n * dets[k].cantidad <= FindLine(ls, promoId, dets[k].productId).value.cantidad)
            && (exists k :: 0 <= k < |dets| &&
                  FindLine(ls, promoId, dets[k].productId).value.cantidad < (n + 1) * dets[k].cantidad)
  {
    MinBundlesIsMax(ls, promoId, dets);
    var n := BundleCount(ls, promoId, dets);
    forall k | 0 <= k < |dets|
      ensures n * dets[k].cantidad <= FindLine(ls, promoId, dets[k].productId).value.cantidad
    {
      var q, c := FindLine(ls, promoId, dets[k].productId).value.cantidad, dets[k].cantidad;
      FloorBound(q, c, n);
    }
    var k :| 0 <= k < |dets| && n == RowBundles(ls, promoId, dets[k]);
    var q, c := FindLine(ls, promoId, dets[k].productId).value.cantidad, dets[k].cantidad;
    FloorBound(q, c, n);
  }

  /** Floor division facts used for bundle counts. */
  lemma FloorBound(q: int, c: int, n: int)
    requires c > 0
    ensures n <= q / c ==> n * c <= q
    ensures n == q / c ==> q < (n + 1) * c
  {
    var d, m := q / c, q % c;
    assert q == d * c + m && 0 <= m < c;
    if n <= d {
      assert n * c <= d * c by { MulMono(n, d, c); }
    }
    if n == d {
      assert (n + 1) * c == n * c + c;
    }
  }

  lemma MulMono(a: int, b: int, c: int)
    requires a <= b && c >= 0
    ensures a * c <= b * c
  {
    assert b * c - a * c == (b - a) * c;
  }

  /** Price of one bundle at the lines' resolved unit prices, free rows included. */
  function NormalComboPrice(ls: seq<Line>, promoId: nat, dets: seq<PromoDetail>): int {
    if dets == [] then 0
    else
      var d := dets[|dets| - 1];
      var f := FindLine(ls, promoId, d.productId);
      NormalComboPrice(ls, promoId, dets[..|dets| - 1])
        + (if f.Some? then f.value.precioUnitario * d.cantidad else 0)
  }

  /** A promotion takes part only if it is active, FIJA, has a positive
      price and at least one requirement row. */
  predicate PromoEligible(promos: map<nat, Promotion>, promoId: nat) {
    && promoId != 0
    && promoId in promos
    && promos[promoId].activa
    && promos[promoId].tipoPromocion == "FIJA"
    && promos[promoId].precioPromocion.Some?
    && promos[promoId].precioPromocion.value > 0
    && |promos[promoId].detalles| > 0
  }

  /** Discount granted by one promotion on these lines. */
  function PromoDiscount(ls: seq<Line>, promos: map<nat, Promotion>, promoId: nat): (d: int)
    ensures d >= 0
    ensures !PromoEligible(promos, promoId) ==> d == 0
    ensures PromoEligible(promos, promoId) && BundleCount(ls, promoId, promos[promoId].detalles) <= 0 ==> d == 0
    ensures (PromoEligible(promos, promoId)
             && NormalComboPrice(ls, promoId, promos[promoId].detalles) <= promos[promoId].precioPromocion.value)
            ==> d == 0
    ensures (PromoEligible(promos, promoId) && BundleCount(ls, promoId, promos[promoId].detalles) > 0
             && NormalComboPrice(ls, promoId, promos[promoId].detalles) > promos[promoId].precioPromocion.value)
            ==> d == (NormalComboPrice(ls, promoId, promos[promoId].detalles) - promos[promoId].precioPromocion.value)
                     * BundleCount(ls, promoId, promos[promoId].detalles)
  {
    if !PromoEligible(promos, promoId) then 0
    else
      var p := promos[promoId];
      var n := BundleCount(ls, promoId, p.detalles);
      if n <= 0 then 0
      else
        var porCombo := NormalComboPrice(ls, promoId, p.detalles) - p.precioPromocion.value;
        if porCombo <= 0 then 0 else porCombo * n
  }

  function TotalDiscount(ls: seq<Line>, promos: map<nat, Promotion>, ids: seq<nat>): (d: int)
    ensures d >= 0
  {
    if ids == [] then 0
    else TotalDiscount(ls, promos, ids[..|ids| - 1]) + PromoDiscount(ls, promos, ids[|ids| - 1])
  }

  /** Step 1 of `aplicarDescuentoPromosFijas`: the running minimum of
      floor(line qty / required qty), set to 0 with an early exit on the first
      row whose line is missing or whose required quantity is not positive. */
  method ContarCombos(ls: seq<Line>, promoId: nat, dets: seq<PromoDetail>) returns (n: int)
    requires |dets| > 0
    ensures n == BundleCount(ls, promoId, dets)
  {
    var combos: Option<int> := None;   // None plays the role of Infinity
    var i := 0;
    while i < |dets|
      invariant 0 <= i <= |dets|
      invariant NoBadRow(ls, promoId, dets[..i])
      invariant i == 0 <==> combos.None?
      invariant i > 0 ==> combos == Some(MinBundles(ls, promoId, dets[..i]))
    {
      var det := dets[i];
      var linea := FindLine(ls, promoId, det.productId);
      if linea.None? || det.cantidad <= 0 {
        assert BadRow(ls, promoId, dets[i]);
        return 0;
      }
      var desdeLinea := linea.value.cantidad / det.cantidad;
      assert dets[..i + 1][..i] == dets[..i];
      assert dets[..i + 1][i] == det;
      combos := Some(if combos.None? then desdeLinea else Min(combos.value, desdeLinea));
      i := i + 1;
    }
    assert dets[..i] == dets;
    n := combos.value;
  }

  /** Step 2 of `aplicarDescuentoPromosFijas`: one bundle at normal prices. */
  method PrecioNormalCombo(ls: seq<Line>, promoId: nat, dets: seq<PromoDetail>) returns (precio: int)
    ensures precio == NormalComboPrice(ls, promoId, dets)
  {
    precio := 0;
    var j := 0;
    while j < |dets|
      invariant 0 <= j <= |dets|
      invariant precio == NormalComboPrice(ls, promoId, dets[..j])
    {
      var det := dets[j];
      assert dets[..j + 1][..j] == dets[..j];
      var linea := FindLine(ls, promoId, det.productId);
      if linea.Some? {
        precio := precio + linea.value.precioUnitario * det.cantidad;
      }
      j := j + 1;
    }
    assert dets[..j] == dets;
  }

  /** `aplicarDescuentoPromosFijas`: for each distinct promotion of the sale,
      count complete bundles, price one bundle normally and subtract the
      positive difference times the bundle count from the general total only. */
  method AplicarDescuentoPromosFijas(ls: seq<Line>, promos: map<nat, Promotion>, totalGeneral: int)
    returns (total: int)
    ensures total == totalGeneral - TotalDiscount(ls, promos, PromoIds(ls))
    ensures total <= totalGeneral
  {
    var ids := PromoIds(ls);
    total := totalGeneral;
    var k := 0;
    while k < |ids|
      invariant 0 <= k <= |ids|
      invariant total == totalGeneral - TotalDiscount(ls, promos, ids[..k])
    {
      var promoId := ids[k];
      TotalDiscountStep(ls, promos, ids, k);
      var d := 0;
      if PromoEligible(promos, promoId) {
        var p := promos[promoId];
        var n := ContarCombos(ls, promoId, p.detalles);
        if n > 0 {
          var precioNormal := PrecioNormalCombo(ls, promoId, p.detalles);
          var porCombo := precioNormal - p.precioPromocion.value;
          if porCombo > 0 {
            d := porCombo * n;
          }
        }
      }
      assert d == PromoDiscount(ls, promos, promoId);
      total := total - d;
      k := k + 1;
    }
    assert ids[..k] == ids;
  }

  lemma TotalDiscountStep(ls: seq<Line>, promos: map<nat, Promotion>, ids: seq<nat>, k: nat)
    requires k < |ids|
    ensures TotalDiscount(ls, promos, ids[..k + 1])
            == TotalDiscount(ls, promos, ids[..k]) + PromoDiscount(ls, promos, ids[k])
  {
    assert ids[..k + 1][..k] == ids[..k];
  }

  /** The bundle of `BundleScenario`: `q` of each product make `q` bundles
      whose normal price is 1500. */
  lemma BundleScenarioCombos(q: int)
    requires q == 1 || q == 2
    ensures var dets := [PromoDetail(1, 1, false), PromoDetail(2, 1, false)];
            var ls := [Line(1, "A", q, 1000, false, 0, true, Some(7)),
                       Line(2, "B", q, 500, false, 0, true, Some(7))];
            && NoBadRow(ls, 7, dets) && BundleCount(ls, 7, dets) == q
            && NormalComboPrice(ls, 7, dets) == 1500
  {
    var dets := [PromoDetail(1, 1, false), PromoDetail(2, 1, false)];
    var a, b := Line(1, "A", q, 1000, false, 0, true, Some(7)), Line(2, "B", q, 500, false, 0, true, Some(7));
    var ls := [a, b];
    assert FindLine(ls, 7, 1) == Some(a);
    assert FindLine(ls, 7, 2) == Some(b) by { assert ls[1..] == [b]; }
    assert dets[..1] == [dets[0]] && [dets[0]][..0] == [];
    assert NoBadRow(ls, 7, dets);
    assert RowBundles(ls, 7, dets[0]) == q && RowBundles(ls, 7, dets[1]) == q;
    assert MinBundles(ls, 7, dets[..1]) == q;
    assert NormalComboPrice(ls, 7, dets[..1]) == 1000;
  }

  /** A bundle of 1 x A (1000) + 1 x B (500) at a fixed 1200: buying one of
      each costs 1200, buying two of each makes two bundles and costs 2400. */
  lemma BundleScenario(q: int)
    requires q == 1 || q == 2
    ensures var promos := map[7 := Promotion("FIJA", Some(1200), true,
                                             [PromoDetail(1, 1, false), PromoDetail(2, 1, false)])];
            var ls := [Line(1, "A", q, 1000, false, 0, true, Some(7)),
                       Line(2, "B", q, 500, false, 0, true, Some(7))];
            SumGeneral(ls) - TotalDiscount(ls, promos, PromoIds(ls)) == 1200 * q
  {
    var dets := [PromoDetail(1, 1, false), PromoDetail(2, 1, false)];
    var promos := map[7 := Promotion("FIJA", Some(1200), true, dets)];
    var a, b := Line(1, "A", q, 1000, false, 0, true, Some(7)), Line(2, "B", q, 500, false, 0, true, Some(7));
    var ls := [a, b];
    assert ls[..1] == [a] && [a][..0] == [];
    assert PromoIds([a]) == [7];
    assert PromoIds(ls) == [7];
    assert SumGeneral([a]) == 1000 * q;
    assert SumGeneral(ls) == 1500 * q;
    BundleScenarioCombos(q);
    assert PromoDiscount(ls, promos, 7) == 300 * q;
    assert [7][..0] == [];
    assert TotalDiscount(ls, promos, [7]) == 300 * q;
  }

  /** Totals of a valid request, after promotions. */
  function Cotizar(items: seq<Item>, catalog: map<nat, Product>, promos: map<nat, Promotion>): (q: Resolved)
    requires ItemsValid(items, catalog)
    ensures q.lines == ResolvedLines(items, catalog)
    ensures q.totalExento == SumExento(q.lines)
    ensures q.totalGeneral == SumGeneral(q.lines) - TotalDiscount(q.lines, promos, PromoIds(q.lines))
  {
    var ls := ResolvedLines(items, catalog);
    Resolved(ls, SumGeneral(ls) - TotalDiscount(ls, promos, PromoIds(ls)), SumExento(ls))
  }

  /** Outcome of `validarProductos` as a function of the request. */
  function Cotizacion(items: seq<Item>, catalog: map<nat, Product>, promos: map<nat, Promotion>)
    : (r: Result<Resolved>)
    ensures r.Ok? <==> |items| > 0 && ItemsValid(items, catalog)
    ensures r.Ok? ==> r.value == Cotizar(items, catalog, promos)
  {
    if |items| == 0 then Err(VentaSinProductos)
    else
      match PrimerErrorItem(items, catalog)
      case Some(e) => Err(e)
      case None => Ok(Cotizar(items, catalog, promos))
  }

  /** `validarProductos`: resolution followed by the promotion adjustment;
      the exempt total is never touched by a discount. */
  method ValidarProductos(items: seq<Item>, catalog: map<nat, Product>, promos: map<nat, Promotion>)
    returns (r: Result<Resolved>)
    ensures |items| == 0 ==> r == Err(VentaSinProductos)
    ensures r.Ok? <==> |items| > 0 && ItemsValid(items, catalog)
    ensures r.Err? && |items| > 0 ==>
              exists i :: 0 <= i < |items| && ItemError(items[i], catalog) == Some(r.error)
                          && forall j :: 0 <= j < i ==> ItemError(items[j], catalog).None?
    ensures r.Ok? ==> r.value == Cotizar(items, catalog, promos)
    ensures r == Cotizacion(items, catalog, promos)
  {
    var res := ResolverLineas(items, catalog);
    if res.Err? {
      if |items| > 0 {
        var i :| 0 <= i < |items| && ItemError(items[i], catalog) == Some(res.error)
                 && forall j :: 0 <= j < i ==> ItemError(items[j], catalog).None?;
        PrimerErrorItemAt(items, catalog, i);
      }
      return Err(res.error);
    }
    var total := AplicarDescuentoPromosFijas(res.value.lines, promos, res.value.totalGeneral);
    return Ok(Resolved(res.value.lines, total, res.value.totalExento));
  }

  // ---------------------------------------------------------------------------
  // Payments

  /** One payment row; `tipo` is the free-form string the client sends. */
  datatype Payment = Payment(tipo: string, monto: int)

  predicate EsEfectivo(tipo: string) {
    tipo == "EFECTIVO" || tipo == "GIRO"
  }

  function SumaPagos(ps: seq<Payment>): int {
    if ps == [] then 0 else SumaPagos(ps[..|ps| - 1]) + ps[|ps| - 1].monto
  }

  /** Payments of any type other than EFECTIVO/GIRO, unknown types included. */
  function SumaNoEfectivo(ps: seq<Payment>): int {
    if ps == [] then 0
    else SumaNoEfectivo(ps[..|ps| - 1]) + (if EsEfectivo(ps[|ps| - 1].tipo) then 0 else ps[|ps| - 1].monto)
  }

  /** `validarPagos`: at least one payment, an exact sum, and, unless the
      sale is INTERNA, non-cash payments within the taxable part. */
  function ValidarPagos(pagos: seq<Payment>, totalGeneral: int, totalExento: int, tipoVenta: string)
    : (e: Option<Error>)
    ensures e.None? <==> |pagos| > 0 && SumaPagos(pagos) == totalGeneral
                         && (tipoVenta == "INTERNA" || SumaNoEfectivo(pagos) <= totalGeneral - totalExento)
    ensures |pagos| == 0 ==> e == Some(SinPagos)
    ensures |pagos| > 0 && SumaPagos(pagos) != totalGeneral ==> e == Some(SumaPagosNoCoincide)
  {
    if |pagos| == 0 then Some(SinPagos)
    else if SumaPagos(pagos) != totalGeneral then Some(SumaPagosNoCoincide)
    else if tipoVenta == "INTERNA" then None
    else if SumaNoEfectivo(pagos) > totalGeneral - totalExento then Some(PagoNoEfectivoExcedeAfecto)
    else None
  }

  /** The sum check comes first: a lone card payment of 4000 on a 5000 sale is
      a sum mismatch.  With the sum right, card payments above the taxable
      part are refused unless the sale is INTERNA, and an unknown payment
      type passes the check, counted as non-cash. */
  lemma ValidarPagosExamples()
    ensures ValidarPagos([Payment("DEBITO", 4000)], 5000, 2000, "NORMAL") == Some(SumaPagosNoCoincide)
    ensures ValidarPagos([Payment("DEBITO", 4000), Payment("EFECTIVO", 1000)], 5000, 2000, "NORMAL")
            == Some(PagoNoEfectivoExcedeAfecto)
    ensures ValidarPagos([Payment("DEBITO", 4000)], 4000, 2000, "INTERNA") == None
    ensures ValidarPagos([Payment("CHEQUE", 1000)], 1000, 0, "NORMAL") == None
    ensures ValidarPagos([Payment("CHEQUE", 1000)], 1000, 500, "NORMAL") == Some(PagoNoEfectivoExcedeAfecto)
  {
    assert [Payment("DEBITO", 4000)][..0] == [];
    assert SumaPagos([Payment("DEBITO", 4000)]) == 4000;
    assert SumaNoEfectivo([Payment("DEBITO", 4000)]) == 4000;
    var two := [Payment("DEBITO", 4000), Payment("EFECTIVO", 1000)];
    assert two[..1] == [Payment("DEBITO", 4000)];
    assert SumaPagos(two) == 5000;
    assert SumaNoEfectivo(two) == 4000;
    assert [Payment("CHEQUE", 1000)][..0] == [];
    assert SumaPagos([Payment("CHEQUE", 1000)]) == 1000;
    assert SumaNoEfectivo([Payment("CHEQUE", 1000)]) == 1000;
  }

  // ---------------------------------------------------------------------------
  // Sale kind

  /** ASCII upper-casing (JavaScript's `toUpperCase` on ASCII letters). */
  function UpperChar(c: char): char {
    if 'a' <= c <= 'z' then (c as int - 32) as char else c
  }

  function Upper(s: string): (u: string)
    ensures |u| == |s|
    ensures forall i :: 0 <= i < |s| ==> u[i] == UpperChar(s[i])
  {
    if s == [] then [] else [UpperChar(s[0])] + Upper(s[1..])
  }

  lemma {:induction false} UpperIdempotent(s: string)
    ensures Upper(Upper(s)) == Upper(s)
  {
    var u := Upper(s);
    assert forall i :: 0 <= i < |u| ==> Upper(u)[i] == u[i];
  }

  /** `validarTipoVenta`: NORMAL or INTERNA in any letter case; a null
      value counts as the empty string. */
  function ValidarTipoVenta(tipo: Option<string>): (r: Result<string>)
    ensures var t := Upper(if tipo.Some? then tipo.value else "");
            && (r.Ok? <==> t == "NORMAL" || t == "INTERNA")
            && (r.Ok? ==> r.value == t)
            && (r.Err? ==> r.error == TipoVentaInvalido)
  {
    var t := Upper(if tipo.Some? then tipo.value else "");
    if t != "NORMAL" && t != "INTERNA" then Err(TipoVentaInvalido) else Ok(t)
  }

  /** Validating an accepted kind again gives the same kind. */
  lemma ValidarTipoVentaIdempotent(tipo: Option<string>)
    requires ValidarTipoVenta(tipo).Ok?
    ensures ValidarTipoVenta(Some(ValidarTipoVenta(tipo).value)) == ValidarTipoVenta(tipo)
  {
    UpperIdempotent(if tipo.Some? then tipo.value else "");
  }
}
