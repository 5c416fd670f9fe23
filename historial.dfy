/** The sales history page (src/pages/VerVentas.tsx): the listing it fetched
    from GET /api/ventas, the product-name and event filters, the four totals
    over the filtered sales, the per-event breakdown, and the local updates
    after a delete or an inline edit. */
module Historial {
  import opened Comun
  import opened Orden
  import opened Modelo
  import opened Stock
  import Ventas

  type VentaVista = Ventas.VentaVista

  /** The value of the event select that stands for the default camp. */
  const CLAVE_CAMPAMENTO: string := "campamento-adolescentes"

  // ---------------------------------------------------------------------
  // Filters
  // ---------------------------------------------------------------------

  /** Some line's product name contains the search text, ignoring letter case. */
  predicate CoincideNombre(w: VentaVista, filtro: string) {
    exists j :: 0 <= j < |w.detalles| && Includes(ToLower(w.detalles[j].nombre), ToLower(filtro))
  }

  /** The event select: everything, the default camp (no truthy `evento_id`, or
      an event carrying the default name), or one event by its printed id. */
  predicate CoincideEvento(w: VentaVista, filtro: string) {
    || filtro == ""
    || (filtro == CLAVE_CAMPAMENTO && (!EsVerdadero(w.venta.evento_id) || w.evento_nombre == Ventas.NOMBRE_CAMPAMENTO))
    || (EsVerdadero(w.venta.evento_id) && IntToString(w.venta.evento_id.n) == filtro)
  }

  /** `ventasFiltradas`. */
  function Filtradas(ws: seq<VentaVista>, nombre: string, evento: string): seq<VentaVista> {
    Filter(ws, (w: VentaVista) => CoincideNombre(w, nombre) && CoincideEvento(w, evento))
  }

  /** With both filters empty the page shows exactly the sales that have at least
      one line: a sale without lines is never shown, whatever the filters. The
      name filter ignores letter case. */
  lemma FiltradasCorrecto(ws: seq<VentaVista>, nombre: string, evento: string)
    ensures forall w :: w in Filtradas(ws, nombre, evento) ==> w in ws && |w.detalles| > 0
    ensures forall w :: w in Filtradas(ws, "", "") <==> w in ws && |w.detalles| > 0
    ensures Filtradas(ws, ToLower(nombre), evento) == Filtradas(ws, nombre, evento)
  {
    assert ToLower("") == "";
    forall w | w in ws && |w.detalles| > 0 ensures CoincideNombre(w, "") {
      IncludesEmpty(ToLower(w.detalles[0].nombre));
    }
    ToLowerIdempotente(nombre);
    FilterCongruent(ws, (w: VentaVista) => CoincideNombre(w, ToLower(nombre)) && CoincideEvento(w, evento),
                        (w: VentaVista) => CoincideNombre(w, nombre) && CoincideEvento(w, evento));
  }

  /** Choosing event `n` (a truthy id) shows exactly the sales of event `n`
      that pass the name filter: printed ids never collide, and none prints as
      the empty choice or the default camp's value. */
  lemma FiltroPorEvento(ws: seq<VentaVista>, nombre: string, n: int)
    requires n != 0
    ensures forall w :: w in Filtradas(ws, nombre, IntToString(n)) <==>
      w in ws && CoincideNombre(w, nombre) && w.venta.evento_id == Ref(n)
  {
    forall w | w in ws
      ensures CoincideEvento(w, IntToString(n)) <==> w.venta.evento_id == Ref(n)
    {
      assert IntToString(n) != CLAVE_CAMPAMENTO by {
        assert CLAVE_CAMPAMENTO[0] == 'c';
      }
      if EsVerdadero(w.venta.evento_id) && IntToString(w.venta.evento_id.n) == IntToString(n) {
        IntToStringInyectivo(w.venta.evento_id.n, n);
      }
    }
  }

  // ---------------------------------------------------------------------
  // Totals
  // ---------------------------------------------------------------------

  /** `v.total` and `v.ganancia` as the reductions add them (a null cell adds 0). */
  function TotalVista(w: VentaVista): Dinero { w.venta.total.GetOr(0.0) }
  function GananciaVista(w: VentaVista): Dinero { w.venta.ganancia.GetOr(0.0) }

  /** `v.metodoPago?.toLowerCase() === m`. */
  predicate EsMetodo(w: VentaVista, m: string) {
    w.venta.metodoPago.Some? && ToLower(w.venta.metodoPago.value) == m
  }

  /** `gananciaTotal`. */
  function GananciaTotal(ws: seq<VentaVista>): Dinero { Sum(ws, GananciaVista) }

  /** `totalDinero`. */
  function TotalDinero(ws: seq<VentaVista>): Dinero { Sum(ws, TotalVista) }

  /** `totalDineroEfectivo` / `totalDineroTransferencia`: a reduce that adds the
      total only for the sales paid with `m`. */
  function TotalMetodo(ws: seq<VentaVista>, m: string): Dinero {
    Sum(ws, (w: VentaVista) => if EsMetodo(w, m) then TotalVista(w) else 0.0)
  }

  /** The per-method total is the total of the sales paid with that method. */
  lemma {:induction false} TotalMetodoCorrecto(ws: seq<VentaVista>, m: string)
    ensures TotalMetodo(ws, m) == TotalDinero(Filter(ws, (w: VentaVista) => EsMetodo(w, m)))
    decreases |ws|
  {
    if ws != [] {
      var init, last := ws[..|ws| - 1], ws[|ws| - 1];
      var p := (w: VentaVista) => EsMetodo(w, m);
      TotalMetodoCorrecto(init, m);
      SumConcat(Filter(init, p), [last], TotalVista);
      SumSingle(last, TotalVista);
    }
  }

  /** When every shown sale was paid in cash or by transfer, the cash and
      transfer totals add up to the money total. */
  lemma {:induction false} MetodosCubren(ws: seq<VentaVista>)
    requires forall w :: w in ws ==> EsMetodo(w, "efectivo") || EsMetodo(w, "transferencia")
    ensures TotalMetodo(ws, "efectivo") + TotalMetodo(ws, "transferencia") == TotalDinero(ws)
    decreases |ws|
  {
    if ws != [] {
      var init := ws[..|ws| - 1];
      assert forall w :: w in init ==> w in ws;
      assert ws[|ws| - 1] in ws;
      MetodosCubren(init);
    }
  }

  // ---------------------------------------------------------------------
  // estadisticasPorEvento
  // ---------------------------------------------------------------------

  /** The key of a sale's group: its printed event id, or the default camp's
      value for a falsy `evento_id`. Keys are kept as this datatype;
      `TextoInyectivo` shows it names the same groups as the strings do. */
  datatype Clave = Campamento | DeEvento(n: int)

  function Texto(c: Clave): string {
    match c
    case Campamento => CLAVE_CAMPAMENTO
    case DeEvento(n) => IntToString(n)
  }

  lemma TextoInyectivo(a: Clave, b: Clave)
    ensures Texto(a) == Texto(b) <==> a == b
  {
    if Texto(a) == Texto(b) {
      assert CLAVE_CAMPAMENTO[0] == 'c';
      if a.DeEvento? && b.DeEvento? {
        IntToStringInyectivo(a.n, b.n);
      }
    }
  }

  function ClaveDe(w: VentaVista): Clave {
    if EsVerdadero(w.venta.evento_id) then DeEvento(w.venta.evento_id.n) else Campamento
  }

  /** `venta.evento_nombre || 'Campamento Adolescentes 2025'`. */
  function NombreDe(w: VentaVista): string {
    if w.evento_nombre != "" then w.evento_nombre else Ventas.NOMBRE_CAMPAMENTO
  }

  datatype GrupoEvento = GrupoEvento(clave: Clave, ventas: int, ingresos: Dinero, ganancia: Dinero, nombre: string)

  function IndiceClave(gs: seq<GrupoEvento>, c: Clave): (r: Option<nat>)
    ensures r.Some? ==> r.value < |gs| && gs[r.value].clave == c
    ensures r.None? ==> forall k :: 0 <= k < |gs| ==> gs[k].clave != c
    decreases |gs|
  {
    if gs == [] then None
    else if gs[0].clave == c then Some(0)
    else match IndiceClave(gs[1..], c)
      case None => None
      case Some(k) => Some(k + 1)
  }

  function SumarVenta(g: GrupoEvento, w: VentaVista): GrupoEvento {
    g.(ventas := g.ventas + 1, ingresos := g.ingresos + TotalVista(w), ganancia := g.ganancia + GananciaVista(w))
  }

  /** One turn of the `forEach`: open the key's entry with zeros if absent, then count the sale. */
  function AcumularEvento(gs: seq<GrupoEvento>, w: VentaVista): seq<GrupoEvento> {
    match IndiceClave(gs, ClaveDe(w))
    case None => gs + [SumarVenta(GrupoEvento(ClaveDe(w), 0, 0.0, 0.0, NombreDe(w)), w)]
    case Some(k) => gs[k := SumarVenta(gs[k], w)]
  }

  /** The `stats` dictionary after the `forEach` has seen `ws`, in insertion order. */
  function AgruparEventos(ws: seq<VentaVista>): seq<GrupoEvento>
    decreases |ws|
  {
    if ws == [] then [] else AcumularEvento(AgruparEventos(ws[..|ws| - 1]), ws[|ws| - 1])
  }

  /** A key that is an array index (a printed integer in 0 .. 2^32 - 2). */
  predicate EsIndice(g: GrupoEvento) {
    g.clave.DeEvento? && 0 <= g.clave.n < 0xFFFF_FFFF
  }

  function MenosNumero(g: GrupoEvento): real {
    if g.clave.DeEvento? then -(g.clave.n as real) else 0.0
  }

  /** `Object.entries(stats)`: array-index keys first in ascending order, then the
      other keys in insertion order. */
  function EntradasEventos(gs: seq<GrupoEvento>): seq<GrupoEvento> {
    SortDesc(Filter(gs, EsIndice), MenosNumero) + Filter(gs, NoIndice)
  }

  predicate NoIndice(g: GrupoEvento) { !EsIndice(g) }

  function IngresosDe(g: GrupoEvento): real { g.ingresos }
  function VentasDe(g: GrupoEvento): real { g.ventas as real }
  function GananciaGrupo(g: GrupoEvento): real { g.ganancia }

  /** `estadisticasPorEvento()`: the entries sorted by income, largest first. */
  function PorEvento(ws: seq<VentaVista>): seq<GrupoEvento> {
    SortDesc(EntradasEventos(AgruparEventos(ws)), IngresosDe)
  }

  method EstadisticasPorEvento(ventasFiltradas: seq<VentaVista>) returns (r: seq<GrupoEvento>)
    ensures r == PorEvento(ventasFiltradas)
  {
    var stats: seq<GrupoEvento> := [];
    for i := 0 to |ventasFiltradas|
      invariant stats == AgruparEventos(ventasFiltradas[..i])
    {
      var venta := ventasFiltradas[i];
      var key := ClaveDe(venta);
      var nombre := NombreDe(venta);
      var k := IndiceClave(stats, key);
      if k.None? {
        stats := stats + [GrupoEvento(key, 0, 0.0, 0.0, nombre)];
        k := Some(|stats| - 1);
      }
      var g := stats[k.value];
      stats := stats[k.value := g.(ventas := g.ventas + 1, ingresos := g.ingresos + TotalVista(venta),
                                   ganancia := g.ganancia + GananciaVista(venta))];
      assert ventasFiltradas[..i + 1][..i] == ventasFiltradas[..i];
    }
    assert ventasFiltradas[..|ventasFiltradas|] == ventasFiltradas;
    r := SortDesc(EntradasEventos(stats), IngresosDe);
  }

  /** The sales of `ws` with key `c`. */
  function DeClave(ws: seq<VentaVista>, c: Clave): seq<VentaVista> {
    Filter(ws, (w: VentaVista) => ClaveDe(w) == c)
  }

  ghost predicate ClavesUnicas(gs: seq<GrupoEvento>) {
    forall i, j :: 0 <= i < j < |gs| ==> gs[i].clave != gs[j].clave
  }

  /** The group of key `c` after `ws`: it exists exactly when some sale has key
      `c`, counts those sales, adds up their totals and margins, and is named
      after the first of them. */
  ghost predicate GrupoDe(gs: seq<GrupoEvento>, ws: seq<VentaVista>, c: Clave) {
    match IndiceClave(gs, c)
    case None => DeClave(ws, c) == []
    case Some(k) =>
      var sel := DeClave(ws, c);
      && sel != []
      && gs[k].ventas == |sel|
      && gs[k].ingresos == TotalDinero(sel)
      && gs[k].ganancia == GananciaTotal(sel)
      && gs[k].nombre == NombreDe(sel[0])
  }

  lemma AcumularEventoUnicas(gs: seq<GrupoEvento>, w: VentaVista)
    requires ClavesUnicas(gs)
    ensures ClavesUnicas(AcumularEvento(gs, w))
    ensures forall c :: c != ClaveDe(w) ==> IndiceClave(AcumularEvento(gs, w), c) == IndiceClave(gs, c)
  {
    var r := AcumularEvento(gs, w);
    forall c | c != ClaveDe(w) ensures IndiceClave(r, c) == IndiceClave(gs, c) {
      IndiceClavePrefijo(gs, r, c);
    }
  }

  /** Two sequences that agree on the keys of their first `|gs|` entries, where the
      extra entries do not carry `c`, find `c` at the same place. */
  lemma {:induction false} IndiceClavePrefijo(gs: seq<GrupoEvento>, r: seq<GrupoEvento>, c: Clave)
    requires |gs| <= |r|
    requires forall k :: 0 <= k < |gs| ==> (r[k].clave == c <==> gs[k].clave == c)
    requires forall k :: |gs| <= k < |r| ==> r[k].clave != c
    ensures IndiceClave(r, c) == IndiceClave(gs, c)
    decreases |gs|
  {
    if gs != [] && r[0].clave != c {
      IndiceClavePrefijo(gs[1..], r[1..], c);
    }
  }

  lemma {:induction false} AgruparEventosUnicas(ws: seq<VentaVista>)
    ensures ClavesUnicas(AgruparEventos(ws))
    decreases |ws|
  {
    if ws != [] {
      AgruparEventosUnicas(ws[..|ws| - 1]);
      AcumularEventoUnicas(AgruparEventos(ws[..|ws| - 1]), ws[|ws| - 1]);
    }
  }

  /** The selection of key `c` grows by the new sale exactly when it has key `c`. */
  lemma DeClaveFinal(init: seq<VentaVista>, w: VentaVista, c: Clave)
    ensures DeClave(init + [w], c) == if ClaveDe(w) == c then DeClave(init, c) + [w] else DeClave(init, c)
  {
    assert (init + [w])[..|init + [w]| - 1] == init;
  }

  /** A sale of another key leaves the group of `c` as it was. */
  lemma GrupoOtraClave(prev: seq<GrupoEvento>, init: seq<VentaVista>, w: VentaVista, c: Clave)
    requires ClavesUnicas(prev) && GrupoDe(prev, init, c) && ClaveDe(w) != c
    ensures GrupoDe(AcumularEvento(prev, w), init + [w], c)
  {
    AcumularEventoUnicas(prev, w);
    DeClaveFinal(init, w, c);
    var gs := AcumularEvento(prev, w);
    match IndiceClave(prev, c)
    case None =>
    case Some(k) =>
      assert gs[k] == prev[k] by {
        if IndiceClave(prev, ClaveDe(w)).Some? {
          assert IndiceClave(prev, ClaveDe(w)).value != k;
        }
      }
  }

  /** A sale of key `c` opens the group of `c` or adds itself to it. */
  lemma GrupoMismaClave(prev: seq<GrupoEvento>, init: seq<VentaVista>, w: VentaVista, c: Clave)
    requires ClavesUnicas(prev) && GrupoDe(prev, init, c) && ClaveDe(w) == c
    ensures GrupoDe(AcumularEvento(prev, w), init + [w], c)
  {
    DeClaveFinal(init, w, c);
    var gs := AcumularEvento(prev, w);
    var sel := DeClave(init, c);
    SumConcat(sel, [w], TotalVista);
    SumConcat(sel, [w], GananciaVista);
    SumSingle(w, TotalVista);
    SumSingle(w, GananciaVista);
    match IndiceClave(prev, c)
    case None =>
      var g := SumarVenta(GrupoEvento(c, 0, 0.0, 0.0, NombreDe(w)), w);
      assert gs == prev + [g];
      IndiceClaveFinal(prev, g);
      assert sel + [w] == [w];
    case Some(k) =>
      assert gs == prev[k := SumarVenta(prev[k], w)];
      assert (sel + [w])[0] == sel[0];
      IndiceClavePrefijo(prev, gs, c);
  }

  lemma {:induction false} AgruparEventosCorrecto(ws: seq<VentaVista>, c: Clave)
    ensures GrupoDe(AgruparEventos(ws), ws, c)
    decreases |ws|
  {
    if ws != [] {
      var init, w := ws[..|ws| - 1], ws[|ws| - 1];
      AgruparEventosCorrecto(init, c);
      AgruparEventosUnicas(init);
      assert ws == init + [w];
      if ClaveDe(w) == c {
        GrupoMismaClave(AgruparEventos(init), init, w, c);
      } else {
        GrupoOtraClave(AgruparEventos(init), init, w, c);
      }
    }
  }

  lemma IndiceClaveFinal(gs: seq<GrupoEvento>, g: GrupoEvento)
    requires IndiceClave(gs, g.clave).None?
    ensures IndiceClave(gs + [g], g.clave) == Some(|gs|)
  {
    IndiceClaveFinalAux(gs, g);
  }

  lemma {:induction false} IndiceClaveFinalAux(gs: seq<GrupoEvento>, g: GrupoEvento)
    requires forall k :: 0 <= k < |gs| ==> gs[k].clave != g.clave
    ensures IndiceClave(gs + [g], g.clave) == Some(|gs|)
    decreases |gs|
  {
    if gs != [] {
      assert (gs + [g])[1..] == gs[1..] + [g];
      IndiceClaveFinalAux(gs[1..], g);
    }
  }

  /** Counting one more sale adds one to the counts and its total and margin to the sums. */
  lemma AcumularEventoSumas(gs: seq<GrupoEvento>, w: VentaVista)
    ensures Sum(AcumularEvento(gs, w), VentasDe) == Sum(gs, VentasDe) + 1.0
    ensures Sum(AcumularEvento(gs, w), IngresosDe) == Sum(gs, IngresosDe) + TotalVista(w)
    ensures Sum(AcumularEvento(gs, w), GananciaGrupo) == Sum(gs, GananciaGrupo) + GananciaVista(w)
  {
    match IndiceClave(gs, ClaveDe(w))
    case None =>
      var g := SumarVenta(GrupoEvento(ClaveDe(w), 0, 0.0, 0.0, NombreDe(w)), w);
      SumConcat(gs, [g], VentasDe);
      SumConcat(gs, [g], IngresosDe);
      SumConcat(gs, [g], GananciaGrupo);
      SumSingle(g, VentasDe);
      SumSingle(g, IngresosDe);
      SumSingle(g, GananciaGrupo);
    case Some(k) =>
      SumCambio(gs, k, SumarVenta(gs[k], w), VentasDe);
      SumCambio(gs, k, SumarVenta(gs[k], w), IngresosDe);
      SumCambio(gs, k, SumarVenta(gs[k], w), GananciaGrupo);
  }

  /** The groups together count every sale once and carry every total and margin. */
  lemma {:induction false} AgruparEventosSumas(ws: seq<VentaVista>)
    ensures Sum(AgruparEventos(ws), VentasDe) == |ws| as real
    ensures Sum(AgruparEventos(ws), IngresosDe) == TotalDinero(ws)
    ensures Sum(AgruparEventos(ws), GananciaGrupo) == GananciaTotal(ws)
    decreases |ws|
  {
    if ws != [] {
      AgruparEventosSumas(ws[..|ws| - 1]);
      AcumularEventoSumas(AgruparEventos(ws[..|ws| - 1]), ws[|ws| - 1]);
    }
  }

  /** An entry of a table with unique keys is the one its key finds. */
  lemma IndiceClaveDe(gs: seq<GrupoEvento>, g: GrupoEvento)
    requires ClavesUnicas(gs) && g in gs
    ensures IndiceClave(gs, g.clave).Some? && gs[IndiceClave(gs, g.clave).value] == g
  {
    var i :| 0 <= i < |gs| && gs[i] == g;
    assert gs[i].clave == g.clave;
  }

  /** `estadisticasPorEvento()` has one row per key that occurs among the shown
      sales, each row counting and adding up exactly the sales of its key; the
      rows together count every shown sale once and add up to `totalDinero` and
      `gananciaTotal`; rows are ordered by income, largest first. */
  lemma PorEventoCorrecto(ws: seq<VentaVista>)
    ensures var r := PorEvento(ws);
      && (forall w :: w in ws ==> exists g :: g in r && g.clave == ClaveDe(w))
      && (forall g :: g in r ==>
            && DeClave(ws, g.clave) != []
            && g.ventas == |DeClave(ws, g.clave)|
            && g.ingresos == TotalDinero(DeClave(ws, g.clave))
            && g.ganancia == GananciaTotal(DeClave(ws, g.clave))
            && g.nombre == NombreDe(DeClave(ws, g.clave)[0]))
      && Sum(r, VentasDe) == |ws| as real
      && Sum(r, IngresosDe) == TotalDinero(ws)
      && Sum(r, GananciaGrupo) == GananciaTotal(ws)
      && SortedDesc(r, IngresosDe)
  {
    var gs := AgruparEventos(ws);
    var r := PorEvento(ws);
    AgruparEventosUnicas(ws);
    AgruparEventosSumas(ws);
    FilterMultiset(gs, EsIndice, NoIndice);
    assert multiset(r) == multiset(gs);
    SumPermutation(r, gs, VentasDe);
    SumPermutation(r, gs, IngresosDe);
    SumPermutation(r, gs, GananciaGrupo);
    SortDescSorted(EntradasEventos(gs), IngresosDe);
    forall w | w in ws ensures exists g :: g in r && g.clave == ClaveDe(w) {
      AgruparEventosCorrecto(ws, ClaveDe(w));
      assert w in DeClave(ws, ClaveDe(w));
      var k := IndiceClave(gs, ClaveDe(w)).value;
      assert gs[k] in multiset(r);
    }
    forall g | g in r
      ensures DeClave(ws, g.clave) != [] && g.ventas == |DeClave(ws, g.clave)|
      ensures g.ingresos == TotalDinero(DeClave(ws, g.clave)) && g.ganancia == GananciaTotal(DeClave(ws, g.clave))
      ensures g.nombre == NombreDe(DeClave(ws, g.clave)[0])
    {
      assert g in multiset(gs);
      IndiceClaveDe(gs, g);
      AgruparEventosCorrecto(ws, g.clave);
    }
  }

  // ---------------------------------------------------------------------
  // Local updates after a delete or an edit
  // ---------------------------------------------------------------------

  /** `prev.filter((v) => v.id !== id)`, run once DELETE /api/ventas/:id succeeded. */
  function QuitarVenta(ws: seq<VentaVista>, id: int): seq<VentaVista> {
    Filter(ws, (w: VentaVista) => w.venta.id != id)
  }

  /** Moving stock never renames a product. */
  lemma MovidoNombres(ps: seq<Producto>, t: seq<Producto>, delta: int -> int, id: int)
    requires Movido(ps, t, delta)
    ensures Ventas.NombreProducto(t, id) == Ventas.NombreProducto(ps, id)
  {
    MovidoMismosIds(ps, t, delta, id);
  }

  /** A sale other than the deleted one is listed as before the delete. */
  lemma VistaTrasEliminar(s: Estado, id: int, v: Venta)
    requires Ventas.Eliminacion(s, Some(id)).Ok? && v.id != id
    ensures var t := Ventas.Eliminacion(s, Some(id)).value;
      Ventas.Vista(v, t.detalle, t.productos, t.eventos) == Ventas.Vista(v, s.detalle, s.productos, s.eventos)
  {
    var t := Ventas.Eliminacion(s, Some(id)).value;
    Ventas.EliminacionCorrecta(s, Some(id));
    FilterFilter(s.detalle, (d: Detalle) => d.venta_id != id, (d: Detalle) => d.venta_id == v.id);
    var propios := Ventas.DetallesVenta(s.detalle, v.id);
    assert Ventas.DetallesVenta(t.detalle, v.id) == propios;
    forall j | 0 <= j < |propios|
      ensures Ventas.NombreProducto(t.productos, propios[j].producto_id) == Ventas.NombreProducto(s.productos, propios[j].producto_id)
    {
      MovidoNombres(s.productos, t.productos,
                    pid => CantidadProducto(Ventas.DetallesVenta(s.detalle, id), pid), propios[j].producto_id);
    }
    assert Ventas.DetallesVista(t.detalle, t.productos, v.id) == Ventas.DetallesVista(s.detalle, s.productos, v.id);
  }

  /** Listing a filtered table is filtering the listing, for a filter on the sale id. */
  lemma {:induction false} ListadoSinVenta(vs: seq<Venta>, ds: seq<Detalle>, ps: seq<Producto>, es: seq<FilaEvento>, id: int)
    ensures Ventas.Listado(Ventas.OtrasVentas(vs, id), ds, ps, es) == QuitarVenta(Ventas.Listado(vs, ds, ps, es), id)
    decreases |vs|
  {
    if vs != [] {
      var init, v := vs[..|vs| - 1], vs[|vs| - 1];
      ListadoSinVenta(init, ds, ps, es, id);
      var w := Ventas.Vista(v, ds, ps, es);
      assert w.venta.id == v.id;
      var li := Ventas.Listado(init, ds, ps, es);
      ListadoAlFinal(init, v, ds, ps, es);
      assert vs == init + [v];
      var l := Ventas.Listado(vs, ds, ps, es);
      assert l[..|l| - 1] == li && l[|l| - 1] == w;
      var o := Ventas.OtrasVentas(init, id);
      if v.id != id {
        assert Ventas.OtrasVentas(vs, id) == o + [v];
        assert QuitarVenta(l, id) == QuitarVenta(li, id) + [w];
        ListadoAlFinal(o, v, ds, ps, es);
      } else {
        assert Ventas.OtrasVentas(vs, id) == o;
        assert QuitarVenta(l, id) == QuitarVenta(li, id);
      }
    }
  }

  /** Listing one more sale lists it after the others. */
  lemma ListadoAlFinal(vs: seq<Venta>, v: Venta, ds: seq<Detalle>, ps: seq<Producto>, es: seq<FilaEvento>)
    ensures Ventas.Listado(vs + [v], ds, ps, es) == Ventas.Listado(vs, ds, ps, es) + [Ventas.Vista(v, ds, ps, es)]
  {
  }

  /** Listings of the same sales agree when every sale is listed the same way. */
  lemma ListadoIgual(vs: seq<Venta>, s: Estado, t: Estado)
    requires forall v :: v in vs ==> Ventas.Vista(v, t.detalle, t.productos, t.eventos) == Ventas.Vista(v, s.detalle, s.productos, s.eventos)
    ensures Ventas.Listado(vs, t.detalle, t.productos, t.eventos) == Ventas.Listado(vs, s.detalle, s.productos, s.eventos)
  {
    forall i | 0 <= i < |vs|
      ensures Ventas.Listado(vs, t.detalle, t.productos, t.eventos)[i] == Ventas.Listado(vs, s.detalle, s.productos, s.eventos)[i]
    {
      assert vs[i] in vs;
    }
  }

  /** After a successful delete the page's list is what a fresh GET /api/ventas
      would answer: the listing of the tables the delete left. */
  lemma QuitarVentaSincroniza(s: Estado, id: int)
    requires Ventas.Eliminacion(s, Some(id)).Ok?
    ensures var t := Ventas.Eliminacion(s, Some(id)).value;
      Ventas.Listado(t.ventas, t.detalle, t.productos, t.eventos)
        == QuitarVenta(Ventas.Listado(s.ventas, s.detalle, s.productos, s.eventos), id)
  {
    var t := Ventas.Eliminacion(s, Some(id)).value;
    forall v | v in t.ventas
      ensures Ventas.Vista(v, t.detalle, t.productos, t.eventos) == Ventas.Vista(v, s.detalle, s.productos, s.eventos)
    {
      VistaTrasEliminar(s, id, v);
    }
    ListadoIgual(t.ventas, s, t);
    ListadoSinVenta(s.ventas, s.detalle, s.productos, s.eventos, id);
  }

  /** `prev.map(venta => venta.id === id ? { ...venta, <campo> } : venta)`. */
  function Editar(ws: seq<VentaVista>, id: int, cambio: Venta -> Venta): seq<VentaVista> {
    seq(|ws|, i requires 0 <= i < |ws| => if ws[i].venta.id == id then ws[i].(venta := cambio(ws[i].venta)) else ws[i])
  }

  /** The three inline inputs: total and margin (`parseFloat`, None for NaN) and method. */
  function ConTotal(t: Option<Dinero>): Venta -> Venta { (v: Venta) => v.(total := t) }
  function ConGanancia(g: Option<Dinero>): Venta -> Venta { (v: Venta) => v.(ganancia := g) }
  function ConMetodo(m: string): Venta -> Venta { (v: Venta) => v.(metodoPago := Some(m)) }

  /** The sales with id `id`. */
  function DeId(ws: seq<VentaVista>, id: int): seq<VentaVista> {
    Filter(ws, (w: VentaVista) => w.venta.id == id)
  }

  /** An edit that keeps the id and event of a sale does not change which sales
      the filters show: filtering after the edit is editing the filtered list. */
  lemma {:induction false} EditarFiltradas(ws: seq<VentaVista>, nombre: string, evento: string, id: int, cambio: Venta -> Venta)
    requires forall v: Venta :: cambio(v).id == v.id && cambio(v).evento_id == v.evento_id
    ensures Filtradas(Editar(ws, id, cambio), nombre, evento) == Editar(Filtradas(ws, nombre, evento), id, cambio)
    decreases |ws|
  {
    if ws != [] {
      var init, w := ws[..|ws| - 1], ws[|ws| - 1];
      EditarFiltradas(init, nombre, evento, id, cambio);
      var e := Editar(ws, id, cambio);
      assert e == Editar(init, id, cambio) + [e[|e| - 1]];
      var f := Filtradas(init, nombre, evento);
      var ew := e[|e| - 1];
      assert CoincideNombre(ew, nombre) == CoincideNombre(w, nombre);
      assert CoincideEvento(ew, evento) == CoincideEvento(w, evento);
      if CoincideNombre(w, nombre) && CoincideEvento(w, evento) {
        assert Editar(f + [w], id, cambio) == Editar(f, id, cambio) + [ew];
      }
    }
  }

  /** Editing a list with one more sale at the end edits the prefix and that sale. */
  lemma EditarFinal(init: seq<VentaVista>, w: VentaVista, id: int, cambio: Venta -> Venta)
    ensures Editar(init + [w], id, cambio)
         == Editar(init, id, cambio) + [if w.venta.id == id then w.(venta := cambio(w.venta)) else w]
  {
  }

  /** `n` copies of `x` added up. */
  function Veces(n: nat, x: real): real {
    if n == 0 then 0.0 else Veces(n - 1, x) + x
  }

  /** Editing the total of sale `id` to `t` replaces, in `totalDinero`, the totals
      of the sales with that id by `t` each. */
  lemma {:induction false} EditarTotal(ws: seq<VentaVista>, id: int, t: Option<Dinero>)
    ensures TotalDinero(Editar(ws, id, ConTotal(t))) + TotalDinero(DeId(ws, id))
         == TotalDinero(ws) + Veces(|DeId(ws, id)|, t.GetOr(0.0))
    decreases |ws|
  {
    if ws != [] {
      var init, w := ws[..|ws| - 1], ws[|ws| - 1];
      assert ws == init + [w];
      EditarTotal(init, id, t);
      EditarFinal(init, w, id, ConTotal(t));
      var prev := Editar(init, id, ConTotal(t));
      var ew := if w.venta.id == id then w.(venta := w.venta.(total := t)) else w;
      SumConcat(prev, [ew], TotalVista);
      SumSingle(ew, TotalVista);
      var d := DeId(init, id);
      if w.venta.id == id {
        assert DeId(ws, id) == d + [w];
        SumConcat(d, [w], TotalVista);
        SumSingle(w, TotalVista);
      } else {
        assert DeId(ws, id) == d;
      }
    }
  }

  /** When exactly one shown sale has the id, editing its total to `t` moves
      `totalDinero` by the difference. */
  lemma EditarTotalUnico(ws: seq<VentaVista>, id: int, t: Option<Dinero>)
    requires |DeId(ws, id)| == 1
    ensures TotalDinero(Editar(ws, id, ConTotal(t)))
         == TotalDinero(ws) - TotalVista(DeId(ws, id)[0]) + t.GetOr(0.0)
  {
    EditarTotal(ws, id, t);
    SumSingle(DeId(ws, id)[0], TotalVista);
    assert DeId(ws, id) == [DeId(ws, id)[0]];
    assert Veces(1, t.GetOr(0.0)) == t.GetOr(0.0);
  }

  /** The PUT body the "Guardar" button sends: the row's total, margin and method
      (`JSON.stringify` drops an undefined method). */
  function CuerpoPut(w: VentaVista): Ventas.Parche {
    Ventas.Parche(None, None, Some(w.venta.total), Some(w.venta.ganancia),
                  if w.venta.metodoPago.Some? then Some(w.venta.metodoPago) else None,
                  None, None, None)
  }

  /** Saving an edited row stores its total, margin and method on the first sale
      with its id and keeps that sale's date, payment details and event. */
  lemma GuardarSincroniza(vs: seq<Venta>, w: VentaVista)
    requires Ventas.Modificacion(vs, Some(w.venta.id), CuerpoPut(w)).Ok?
    ensures var t := Ventas.Modificacion(vs, Some(w.venta.id), CuerpoPut(w)).value;
      var k := Ventas.IndiceVenta(vs, w.venta.id).value;
      && t[k].total == w.venta.total && t[k].ganancia == w.venta.ganancia
      && t[k].metodoPago == (if w.venta.metodoPago.Some? then w.venta.metodoPago else vs[k].metodoPago)
      && t[k] == vs[k].(total := t[k].total, ganancia := t[k].ganancia, metodoPago := t[k].metodoPago)
  {
    Ventas.ModificacionCorrecta(vs, Some(w.venta.id), CuerpoPut(w));
  }

  // ---------------------------------------------------------------------
  // The page
  // ---------------------------------------------------------------------

  class VerVentas {
    var ventas: seq<VentaVista>
    var filtroNombre: string
    var filtroEvento: string
    var ventaEditando: Option<int>

    /** The page once GET /api/ventas answered `data`. */
    constructor (data: seq<VentaVista>)
      ensures ventas == data && filtroNombre == "" && filtroEvento == "" && ventaEditando == None
    {
      ventas, filtroNombre, filtroEvento, ventaEditando := data, "", "", None;
    }

    function VentasFiltradas(): seq<VentaVista>
      reads this
    {
      Filtradas(ventas, filtroNombre, filtroEvento)
    }

    /** Typing in the product-name filter: the shown list becomes the sales whose
        lines name a product containing the text, under the same event filter. */
    method FiltrarNombre(texto: string)
      modifies this
      ensures filtroNombre == texto
      ensures ventas == old(ventas) && filtroEvento == old(filtroEvento) && ventaEditando == old(ventaEditando)
      ensures VentasFiltradas() == Filtradas(old(ventas), texto, old(filtroEvento))
    {
      filtroNombre := texto;
    }

    /** Choosing an option of the event filter. */
    method FiltrarEvento(opcion: string)
      modifies this
      ensures filtroEvento == opcion
      ensures ventas == old(ventas) && filtroNombre == old(filtroNombre) && ventaEditando == old(ventaEditando)
      ensures VentasFiltradas() == Filtradas(old(ventas), old(filtroNombre), opcion)
    {
      filtroEvento := opcion;
    }

    /** `eliminarVenta(id)` after the user confirmed; `ok` is `res.ok`. */
    method EliminarVenta(id: int, ok: bool)
      modifies this
      ensures ventas == (if ok then QuitarVenta(old(ventas), id) else old(ventas))
      ensures filtroNombre == old(filtroNombre) && filtroEvento == old(filtroEvento)
      ensures ventaEditando == old(ventaEditando)
    {
      if ok {
        ventas := QuitarVenta(ventas, id);
      }
    }

    /** The "Editar" button. */
    method EmpezarEdicion(id: int)
      modifies this
      ensures ventaEditando == Some(id)
      ensures ventas == old(ventas) && filtroNombre == old(filtroNombre) && filtroEvento == old(filtroEvento)
    {
      ventaEditando := Some(id);
    }

    /** "Guardar" after the PUT answered `ok`, or the cancel button (`ok` true). */
    method TerminarEdicion(ok: bool)
      modifies this
      ensures ventaEditando == (if ok then None else old(ventaEditando))
      ensures ventas == old(ventas) && filtroNombre == old(filtroNombre) && filtroEvento == old(filtroEvento)
    {
      if ok {
        ventaEditando := None;
      }
    }

    /** One of the inline inputs of the sale being edited changed. */
    method EditarCampo(id: int, cambio: Venta -> Venta)
      modifies this
      ensures ventas == Editar(old(ventas), id, cambio)
      ensures filtroNombre == old(filtroNombre) && filtroEvento == old(filtroEvento)
      ensures ventaEditando == old(ventaEditando)
    {
      ventas := Editar(ventas, id, cambio);
    }
  }
}
