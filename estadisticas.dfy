/** The statistics pipeline that the server repeats verbatim in three routes
    (backend/src/routes/ventas.ts:246-294, backend/src/routes/eventos.ts:124-178
    and 181-235): select sales, count and sum them, keep the sale lines of the
    selected sales, group those lines by product, and rank the groups.

    `Resumir` states the pipeline once, parameterised by the sale predicate;
    `CalcularResumen` is the route code, with its for-loop filling the
    `productosVendidos` dictionary, proved equal to it. */
module Estadisticas {
  import opened Comun
  import opened Orden
  import opened Modelo

  /** One entry of `productosVendidos`, with its key as `producto_id`. */
  datatype Grupo = Grupo(producto_id: int, cantidad: int, subtotal: Dinero, ganancia: Dinero, nombre: string)

  /** The JSON body the statistics routes answer with. */
  datatype Resumen = Resumen(
    totalVentas: int,
    ingresosTotales: Dinero,
    gananciaTotales: Dinero,
    topProductos: seq<Grupo>)

  /** `Number(venta.total) || 0` and `Number(venta.ganancia) || 0`. */
  function TotalDe(v: Venta): Dinero { v.total.GetOr(0.0) }
  function GananciaDe(v: Venta): Dinero { v.ganancia.GetOr(0.0) }

  /** `ventasIds = ventas.map(v => Number(v.id))`. */
  function IdsDe(vs: seq<Venta>): seq<int> {
    seq(|vs|, k requires 0 <= k < |vs| => vs[k].id)
  }

  /** `detalle.filter(d => ventasIds.includes(Number(d.venta_id)))`. */
  function DetallesDe(detalle: seq<Detalle>, ids: seq<int>): seq<Detalle> {
    Filter(detalle, (d: Detalle) => d.venta_id in ids)
  }

  /** `det.nombre || "Producto {id}"`. */
  function NombreGrupo(d: Detalle): string {
    if d.nombre != "" then d.nombre else "Producto " + IntToString(d.producto_id)
  }

  function IndiceGrupo(gs: seq<Grupo>, id: int): (r: Option<nat>)
    ensures r.Some? ==> r.value < |gs| && gs[r.value].producto_id == id
    ensures r.None? ==> forall k :: 0 <= k < |gs| ==> gs[k].producto_id != id
    decreases |gs|
  {
    if gs == [] then None
    else if gs[0].producto_id == id then Some(0)
    else match IndiceGrupo(gs[1..], id)
      case None => None
      case Some(k) => Some(k + 1)
  }

  function Sumar(g: Grupo, d: Detalle): Grupo {
    g.(cantidad := g.cantidad + d.cantidad,
       subtotal := g.subtotal + d.subtotal,
       ganancia := g.ganancia + d.ganancia)
  }

  /** One turn of the loop: open the product's entry with zeros if absent, then add the line. */
  function Acumular(gs: seq<Grupo>, d: Detalle): seq<Grupo> {
    match IndiceGrupo(gs, d.producto_id)
    case None => gs + [Sumar(Grupo(d.producto_id, 0, 0.0, 0.0, NombreGrupo(d)), d)]
    case Some(k) => gs[k := Sumar(gs[k], d)]
  }

  /** The dictionary after the loop has seen every line of `ds`, in insertion order. */
  function Agrupar(ds: seq<Detalle>): seq<Grupo>
    decreases |ds|
  {
    if ds == [] then [] else Acumular(Agrupar(ds[..|ds| - 1]), ds[|ds| - 1])
  }

  function CantidadDe(g: Grupo): real { g.cantidad as real }
  function IdDe(g: Grupo): int { g.producto_id }
  function MenosId(g: Grupo): real { -(g.producto_id as real) }

  /** `Object.entries(productosVendidos)`: integer keys come out in ascending order. */
  function Entradas(gs: seq<Grupo>): seq<Grupo> {
    SortDesc(gs, MenosId)
  }

  /** `.sort((a, b) => b.cantidad - a.cantidad).slice(0, 5)`. */
  function Top(gs: seq<Grupo>): seq<Grupo> {
    Take(SortDesc(Entradas(gs), CantidadDe), 5)
  }

  /** The statistics of the sales selected by `sel`. */
  function Resumir(ventas: seq<Venta>, detalle: seq<Detalle>, sel: Venta -> bool): Resumen {
    var vs := Filter(ventas, sel);
    var ds := DetallesDe(detalle, IdsDe(vs));
    Resumen(|vs|, Sum(vs, TotalDe), Sum(vs, GananciaDe), Top(Agrupar(ds)))
  }

  /** The route code: filter, reduce, then the for-loop over the selected lines. */
  method CalcularResumen(ventas: seq<Venta>, detalle: seq<Detalle>, sel: Venta -> bool) returns (r: Resumen)
    ensures r == Resumir(ventas, detalle, sel)
  {
    var seleccion := Filter(ventas, sel);
    var totalVentas := |seleccion|;
    var ingresos := Sum(seleccion, TotalDe);
    var ganancia := Sum(seleccion, GananciaDe);
    var ds := DetallesDe(detalle, IdsDe(seleccion));
    var productosVendidos: seq<Grupo> := [];
    var i := 0;
    while i < |ds|
      invariant 0 <= i <= |ds|
      invariant productosVendidos == Agrupar(ds[..i])
    {
      var d := ds[i];
      var k := IndiceGrupo(productosVendidos, d.producto_id);
      if k.None? {
        productosVendidos := productosVendidos + [Grupo(d.producto_id, 0, 0.0, 0.0, NombreGrupo(d))];
        k := Some(|productosVendidos| - 1);
      }
      var g := productosVendidos[k.value];
      productosVendidos := productosVendidos[k.value := Sumar(g, d)];
      assert productosVendidos == Acumular(Agrupar(ds[..i]), d);
      assert ds[..i + 1][..i] == ds[..i];
      i := i + 1;
    }
    assert ds[..|ds|] == ds;
    r := Resumen(totalVentas, ingresos, ganancia, Top(productosVendidos));
  }

  // ---------------------------------------------------------------------
  // What the pipeline computes
  // ---------------------------------------------------------------------

  /** A sale line is counted exactly when its `venta_id` is the id of a selected sale. */
  lemma DetallesIncluidos(ventas: seq<Venta>, detalle: seq<Detalle>, sel: Venta -> bool, d: Detalle)
    ensures d in DetallesDe(detalle, IdsDe(Filter(ventas, sel))) <==>
      d in detalle && exists v :: v in ventas && sel(v) && v.id == d.venta_id
  {
    var vs := Filter(ventas, sel);
    if d in detalle && exists v :: v in ventas && sel(v) && v.id == d.venta_id {
      var v :| v in ventas && sel(v) && v.id == d.venta_id;
      var k :| 0 <= k < |vs| && vs[k] == v;
      assert IdsDe(vs)[k] == d.venta_id;
    }
    if d in DetallesDe(detalle, IdsDe(vs)) {
      var k :| 0 <= k < |IdsDe(vs)| && IdsDe(vs)[k] == d.venta_id;
      assert vs[k] in vs;
    }
  }

  function SubtotalProducto(ds: seq<Detalle>, id: int): Dinero
    decreases |ds|
  {
    if ds == [] then 0.0
    else SubtotalProducto(ds[..|ds| - 1], id) + (if ds[|ds| - 1].producto_id == id then ds[|ds| - 1].subtotal else 0.0)
  }

  function GananciaProducto(ds: seq<Detalle>, id: int): Dinero
    decreases |ds|
  {
    if ds == [] then 0.0
    else GananciaProducto(ds[..|ds| - 1], id) + (if ds[|ds| - 1].producto_id == id then ds[|ds| - 1].ganancia else 0.0)
  }

  ghost predicate IdsUnicos(gs: seq<Grupo>) {
    forall i, j :: 0 <= i < j < |gs| ==> gs[i].producto_id != gs[j].producto_id
  }

  /** The ids of the products that occur in `ds`. */
  ghost function ProductosDe(ds: seq<Detalle>): set<int> {
    set d | d in ds :: d.producto_id
  }

  /** The first line of product `id` in `ds`. */
  ghost predicate EsPrimera(ds: seq<Detalle>, j: int, id: int) {
    0 <= j < |ds| && ds[j].producto_id == id && forall i :: 0 <= i < j ==> ds[i].producto_id != id
  }

  /** One turn of the loop adds an entry exactly for a product not seen before. */
  lemma AcumularClaves(prev: seq<Grupo>, d: Detalle)
    requires IdsUnicos(prev)
    ensures IdsUnicos(Acumular(prev, d))
    ensures |Acumular(prev, d)| == |prev| + (if IndiceGrupo(prev, d.producto_id).None? then 1 else 0)
    ensures forall id :: IndiceGrupo(Acumular(prev, d), id).Some? <==>
      IndiceGrupo(prev, id).Some? || id == d.producto_id
  {
    var gs := Acumular(prev, d);
    forall id ensures IndiceGrupo(gs, id).Some? <==> IndiceGrupo(prev, id).Some? || id == d.producto_id {
      if id != d.producto_id {
        IndiceOtro(prev, d, id);
      } else if IndiceGrupo(prev, id).Some? {
        assert gs[IndiceGrupo(prev, id).value].producto_id == id;
      } else {
        assert gs[|prev|].producto_id == id;
      }
    }
    match IndiceGrupo(prev, d.producto_id)
    case None =>
      UnicosAlFinal(prev, gs[|prev|]);
    case Some(m) =>
      forall i, j | 0 <= i < j < |gs| ensures gs[i].producto_id != gs[j].producto_id {
        assert gs[i].producto_id == prev[i].producto_id && gs[j].producto_id == prev[j].producto_id;
      }
  }

  /** The dictionary has one entry per product that occurs in the lines. */
  lemma {:induction false} AgruparClaves(ds: seq<Detalle>)
    ensures IdsUnicos(Agrupar(ds))
    ensures forall id :: id in ProductosDe(ds) <==> IndiceGrupo(Agrupar(ds), id).Some?
    ensures |Agrupar(ds)| == |ProductosDe(ds)|
    decreases |ds|
  {
    if ds != [] {
      var init, d := ds[..|ds| - 1], ds[|ds| - 1];
      AgruparClaves(init);
      var prev := Agrupar(init);
      AcumularClaves(prev, d);
      assert ds == init + [d];
      ProductosDeFinal(init, d);
      if IndiceGrupo(prev, d.producto_id).None? {
        assert d.producto_id !in ProductosDe(init);
        assert |ProductosDe(ds)| == |ProductosDe(init)| + 1;
      } else {
        assert d.producto_id in ProductosDe(init);
        assert ProductosDe(ds) == ProductosDe(init);
      }
    }
  }

  lemma ProductosDeFinal(init: seq<Detalle>, d: Detalle)
    ensures ProductosDe(init + [d]) == ProductosDe(init) + {d.producto_id}
  {
    var a := ProductosDe(init + [d]);
    var b := ProductosDe(init) + {d.producto_id};
    forall x | x in a ensures x in b {
      var e :| e in init + [d] && e.producto_id == x;
      if e != d {
        assert e in init;
      }
    }
    forall x | x in b ensures x in a {
      if x == d.producto_id {
        assert d in init + [d];
      } else {
        var e :| e in init && e.producto_id == x;
        assert e in init + [d];
      }
    }
  }

  lemma IndiceOtro(gs: seq<Grupo>, d: Detalle, id: int)
    requires id != d.producto_id
    ensures IndiceGrupo(Acumular(gs, d), id).Some? <==> IndiceGrupo(gs, id).Some?
  {
    var r := Acumular(gs, d);
    if IndiceGrupo(gs, id).Some? {
      var k := IndiceGrupo(gs, id).value;
      assert r[k].producto_id == id;
    }
    if IndiceGrupo(r, id).Some? {
      var k := IndiceGrupo(r, id).value;
      assert k < |gs| && gs[k].producto_id == id;
    }
  }

  /** A product that does not occur in the lines has summed to zero. */
  lemma {:induction false} CantidadAusente(ds: seq<Detalle>, id: int)
    requires id !in ProductosDe(ds)
    ensures CantidadProducto(ds, id) == 0
    ensures SubtotalProducto(ds, id) == 0.0 && GananciaProducto(ds, id) == 0.0
    decreases |ds|
  {
    if ds != [] {
      var init := ds[..|ds| - 1];
      assert ds[|ds| - 1] in ds;
      assert ProductosDe(init) <= ProductosDe(ds);
      CantidadAusente(init, id);
    }
  }

  /** Each entry holds its product's summed quantity, subtotal and margin. */
  lemma {:induction false} AgruparSumas(ds: seq<Detalle>)
    ensures forall k :: 0 <= k < |Agrupar(ds)| ==>
      var g := Agrupar(ds)[k];
      && g.cantidad == CantidadProducto(ds, g.producto_id)
      && g.subtotal == SubtotalProducto(ds, g.producto_id)
      && g.ganancia == GananciaProducto(ds, g.producto_id)
    decreases |ds|
  {
    if ds != [] {
      var init, d := ds[..|ds| - 1], ds[|ds| - 1];
      AgruparSumas(init);
      AgruparClaves(init);
      var prev := Agrupar(init);
      var gs := Agrupar(ds);
      assert gs == Acumular(prev, d);
      match IndiceGrupo(prev, d.producto_id)
      case None =>
        CantidadAusente(init, d.producto_id);
        forall k | 0 <= k < |gs|
          ensures gs[k].cantidad == CantidadProducto(ds, gs[k].producto_id)
          ensures gs[k].subtotal == SubtotalProducto(ds, gs[k].producto_id)
          ensures gs[k].ganancia == GananciaProducto(ds, gs[k].producto_id)
        {
          if k < |prev| {
            assert gs[k] == prev[k] && prev[k].producto_id != d.producto_id;
          }
        }
      case Some(m) =>
        forall k | 0 <= k < |gs|
          ensures gs[k].cantidad == CantidadProducto(ds, gs[k].producto_id)
          ensures gs[k].subtotal == SubtotalProducto(ds, gs[k].producto_id)
          ensures gs[k].ganancia == GananciaProducto(ds, gs[k].producto_id)
        {
          if k != m {
            assert gs[k] == prev[k];
            assert prev[k].producto_id != prev[m].producto_id;
          }
        }
    }
  }

  /** Entry `g` carries the name taken from the first line of its product. */
  ghost predicate NombradoPorPrimera(ds: seq<Detalle>, g: Grupo) {
    exists j :: EsPrimera(ds, j, g.producto_id) && g.nombre == NombreGrupo(ds[j])
  }

  lemma AcumularNombres(init: seq<Detalle>, prev: seq<Grupo>, d: Detalle)
    requires forall k :: 0 <= k < |prev| ==> NombradoPorPrimera(init, prev[k])
    requires IndiceGrupo(prev, d.producto_id).None? ==> d.producto_id !in ProductosDe(init)
    ensures forall k :: 0 <= k < |Acumular(prev, d)| ==> NombradoPorPrimera(init + [d], Acumular(prev, d)[k])
  {
    var ds := init + [d];
    var gs := Acumular(prev, d);
    forall k | 0 <= k < |gs| ensures NombradoPorPrimera(ds, gs[k]) {
      if k < |prev| {
        assert NombradoPorPrimera(init, prev[k]);
        var j :| EsPrimera(init, j, prev[k].producto_id) && prev[k].nombre == NombreGrupo(init[j]);
        assert gs[k].nombre == prev[k].nombre && gs[k].producto_id == prev[k].producto_id;
        assert ds[j] == init[j];
        assert EsPrimera(ds, j, gs[k].producto_id);
      } else {
        forall i | 0 <= i < |init| ensures init[i].producto_id != d.producto_id {
          assert init[i] in init;
        }
        assert EsPrimera(ds, |init|, gs[k].producto_id);
      }
    }
  }

  /** Each entry is named after its product's first line. */
  lemma {:induction false} AgruparNombres(ds: seq<Detalle>)
    ensures forall k :: 0 <= k < |Agrupar(ds)| ==> NombradoPorPrimera(ds, Agrupar(ds)[k])
    decreases |ds|
  {
    if ds != [] {
      var init, d := ds[..|ds| - 1], ds[|ds| - 1];
      AgruparNombres(init);
      AgruparClaves(init);
      assert ds == init + [d];
      AcumularNombres(init, Agrupar(init), d);
    }
  }

  /** The dictionary has one entry per product that occurs in the lines, each
      holding that product's summed quantity, subtotal and margin and the name
      taken from the product's first line. */
  lemma AgruparCorrecto(ds: seq<Detalle>)
    ensures var gs := Agrupar(ds);
      && IdsUnicos(gs)
      && |gs| == |ProductosDe(ds)|
      && (forall id :: id in ProductosDe(ds) <==> IndiceGrupo(gs, id).Some?)
      && (forall k :: 0 <= k < |gs| ==>
            && gs[k].cantidad == CantidadProducto(ds, gs[k].producto_id)
            && gs[k].subtotal == SubtotalProducto(ds, gs[k].producto_id)
            && gs[k].ganancia == GananciaProducto(ds, gs[k].producto_id)
            && NombradoPorPrimera(ds, gs[k]))
  {
    AgruparClaves(ds);
    AgruparSumas(ds);
    AgruparNombres(ds);
  }

  /** Removing one entry keeps the other ids unique and different from its id. */
  lemma SinUno(b: seq<Grupo>, k: nat)
    requires k < |b| && IdsUnicos(b)
    ensures IdsUnicos(b[..k] + b[k + 1..])
    ensures forall y :: y in b[..k] + b[k + 1..] ==> y.producto_id != b[k].producto_id
  {
    var rest := b[..k] + b[k + 1..];
    forall i, j | 0 <= i < j < |rest| ensures rest[i].producto_id != rest[j].producto_id {
      var bi := if i < k then i else i + 1;
      var bj := if j < k then j else j + 1;
      assert rest[i] == b[bi] && rest[j] == b[bj];
    }
    forall y | y in rest ensures y.producto_id != b[k].producto_id {
      var m :| 0 <= m < |rest| && rest[m] == y;
      var bm := if m < k then m else m + 1;
      assert b[bm] == y;
    }
  }

  /** Appending an entry with a new id keeps ids unique. */
  lemma UnicosAlFinal(init: seq<Grupo>, x: Grupo)
    requires IdsUnicos(init)
    requires forall y :: y in init ==> y.producto_id != x.producto_id
    ensures IdsUnicos(init + [x])
  {
    var a := init + [x];
    forall i, j | 0 <= i < j < |a| ensures a[i].producto_id != a[j].producto_id {
      assert a[i] == init[i];
      if j < |init| {
        assert a[j] == init[j];
      } else {
        assert init[i] in init;
      }
    }
  }

  /** Permutations keep ids unique. */
  lemma {:induction false} IdsUnicosPermutacion(a: seq<Grupo>, b: seq<Grupo>)
    requires multiset(a) == multiset(b)
    requires IdsUnicos(b)
    ensures IdsUnicos(a)
    decreases |a|
  {
    if a != [] {
      var init, x := a[..|a| - 1], a[|a| - 1];
      assert a == init + [x];
      assert x in multiset(b);
      var k :| 0 <= k < |b| && b[k] == x;
      var rest := b[..k] + b[k + 1..];
      assert b == b[..k] + [x] + b[k + 1..];
      assert multiset(init) == multiset(a) - multiset{x};
      assert multiset(rest) == multiset(b) - multiset{x};
      SinUno(b, k);
      IdsUnicosPermutacion(init, rest);
      forall y | y in init ensures y.producto_id != x.producto_id {
        assert y in multiset(rest);
      }
      UnicosAlFinal(init, x);
    }
  }

  /** `Object.entries` lists the keys strictly ascending. */
  lemma EntradasAscendentes(gs: seq<Grupo>)
    requires IdsUnicos(gs)
    ensures forall i, j :: 0 <= i < j < |Entradas(gs)| ==> IdDe(Entradas(gs)[i]) < IdDe(Entradas(gs)[j])
  {
    var e := Entradas(gs);
    SortDescSorted(gs, MenosId);
    IdsUnicosPermutacion(e, gs);
    forall i, j | 0 <= i < j < |e| ensures IdDe(e[i]) < IdDe(e[j]) {
      assert MenosId(e[i]) >= MenosId(e[j]);
    }
  }

  /** `topProductos` has min(5, number of distinct products) entries, ordered by
      quantity sold, largest first, ties in ascending product id (the order of
      `Object.entries` kept by the stable sort); every entry is an entry of the
      dictionary, and every entry kept precedes every entry left out: it sold
      more, or as much with a smaller product id. */
  lemma TopCorrecto(ds: seq<Detalle>)
    ensures var gs := Agrupar(ds);
      var top := Top(gs);
      && |top| == (if |ProductosDe(ds)| < 5 then |ProductosDe(ds)| else 5)
      && SortedLex(top, CantidadDe, IdDe)
      && (forall t :: t in top ==> t in gs)
      && (forall g, t :: g in gs && g !in top && t in top ==> t.cantidad >= g.cantidad)
      && (forall g, t :: g in gs && g !in top && t in top ==> Before(t, g, CantidadDe, IdDe))
  {
    var gs := Agrupar(ds);
    AgruparClaves(ds);
    EntradasAscendentes(gs);
    var e := Entradas(gs);
    SortDescStable(e, CantidadDe, IdDe);
    var l := SortDesc(e, CantidadDe);
    var top := Top(gs);
    assert top == l[..|top|];
    TopOrdenado(l, |top|);
    forall t | t in top ensures t in gs {
      assert t in multiset(l);
      assert t in multiset(gs);
    }
    forall g, t | g in gs && g !in top && t in top ensures t.cantidad >= g.cantidad {
      assert g in multiset(l);
      TopDomina(l, |top|, g, t);
    }
    forall g, t | g in gs && g !in top && t in top ensures Before(t, g, CantidadDe, IdDe) {
      assert g in multiset(l);
      TopDomina(l, |top|, g, t);
    }
  }

  lemma TopOrdenado(l: seq<Grupo>, n: nat)
    requires n <= |l| && SortedLex(l, CantidadDe, IdDe)
    ensures SortedLex(l[..n], CantidadDe, IdDe)
  {
    var top := l[..n];
    forall i, j | 0 <= i < j < |top| ensures Before(top[i], top[j], CantidadDe, IdDe) {
      assert top[i] == l[i] && top[j] == l[j];
    }
  }

  lemma TopDomina(l: seq<Grupo>, n: nat, g: Grupo, t: Grupo)
    requires n <= |l| && SortedLex(l, CantidadDe, IdDe)
    requires g in l && g !in l[..n] && t in l[..n]
    ensures t.cantidad >= g.cantidad
    ensures Before(t, g, CantidadDe, IdDe)
  {
    var j :| 0 <= j < |l| && l[j] == g;
    var i :| 0 <= i < n && l[..n][i] == t;
    assert Before(l[i], l[j], CantidadDe, IdDe);
  }

  /** With no selected sale the answer is all zeros and an empty ranking. */
  lemma ResumenVacio(ventas: seq<Venta>, detalle: seq<Detalle>, sel: Venta -> bool)
    requires forall v :: v in ventas ==> !sel(v)
    ensures Resumir(ventas, detalle, sel) == Resumen(0, 0.0, 0.0, [])
  {
    FilterNone(ventas, sel);
    FilterNone(detalle, (d: Detalle) => d.venta_id in IdsDe([]));
  }

  /** The statistics depend on the predicate only through the sales it selects. */
  lemma ResumirCongruente(ventas: seq<Venta>, detalle: seq<Detalle>, p: Venta -> bool, q: Venta -> bool)
    requires forall v :: v in ventas ==> p(v) == q(v)
    ensures Resumir(ventas, detalle, p) == Resumir(ventas, detalle, q)
  {
    FilterCongruent(ventas, p, q);
  }

  // ---------------------------------------------------------------------
  // The two scopes the routes select
  // ---------------------------------------------------------------------

  /** The unscoped sales ("Campamento Adolescentes 2025"): a falsy `evento_id`. */
  predicate SinEvento(v: Venta) {
    !EsVerdadero(v.evento_id)
  }

  /** The sales of event `id` (`Number(venta.evento_id) === id`; a NaN id selects nothing). */
  predicate DelEvento(id: Option<int>, v: Venta) {
    MismoNumero(NumeroDe(v.evento_id), id)
  }

  /** For an event id other than 0 no sale is in both scopes, so the two sale counts
      never add up to more than the table holds. */
  lemma AlcancesDisjuntos(ventas: seq<Venta>, detalle: seq<Detalle>, id: int)
    requires id != 0
    ensures forall v :: !(SinEvento(v) && DelEvento(Some(id), v))
    ensures Resumir(ventas, detalle, SinEvento).totalVentas
          + Resumir(ventas, detalle, v => DelEvento(Some(id), v)).totalVentas <= |ventas|
  {
    FilterDisjoint(ventas, SinEvento, v => DelEvento(Some(id), v));
  }

  /** Event id 0 is the exception: a sale whose `evento_id` is empty is in both scopes. */
  lemma AlcanceCero(v: Venta)
    requires v.evento_id == Vacio
    ensures SinEvento(v) && DelEvento(Some(0), v)
  {
  }
}
