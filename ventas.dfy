/** The sale routes (backend/src/routes/ventas.ts): create a sale with its
    lines and stock movement, delete a sale with its lines and stock return,
    patch a sale, the joined listing, and the unscoped statistics. */
module Ventas {
  import opened Comun
  import opened Modelo
  import opened Stock
  import opened Estadisticas
  import Eventos

  /** Body of POST /api/ventas; `items` is None when it is not an array. */
  datatype SolicitudVenta = SolicitudVenta(
    items: Option<seq<ItemVenta>>,
    metodoPago: Option<string>,
    efectivo: Option<Dinero>,
    debe: Option<bool>,
    evento_id: RefEvento)

  function IdsDetalle(ds: seq<Detalle>): seq<int> {
    seq(|ds|, k requires 0 <= k < |ds| => ds[k].id)
  }

  /** `Math.max(...ventas.map(v => Number(v.id))) + 1`, or 1 on an empty table. */
  function NuevoIdVenta(vs: seq<Venta>): int {
    if |vs| > 0 then Max(IdsDe(vs)) + 1 else 1
  }

  /** The same rule on the sale-lines table. */
  function NuevoIdDetalle(ds: seq<Detalle>): int {
    if |ds| > 0 then Max(IdsDetalle(ds)) + 1 else 1
  }

  /** The new sale id is 1 on an empty table and above every existing sale id. */
  lemma NuevoIdVentaLibre(vs: seq<Venta>)
    ensures vs == [] ==> NuevoIdVenta(vs) == 1
    ensures forall v :: v in vs ==> v.id < NuevoIdVenta(vs)
  {
    forall v | v in vs ensures v.id < NuevoIdVenta(vs) {
      var k :| 0 <= k < |vs| && vs[k] == v;
      assert IdsDe(vs)[k] == v.id && IdsDe(vs)[k] in IdsDe(vs);
    }
  }

  /** The first new line id is 1 on an empty table and above every existing line id. */
  lemma NuevoIdDetalleLibre(ds: seq<Detalle>)
    ensures ds == [] ==> NuevoIdDetalle(ds) == 1
    ensures forall d :: d in ds ==> d.id < NuevoIdDetalle(ds)
  {
    forall d | d in ds ensures d.id < NuevoIdDetalle(ds) {
      var k :| 0 <= k < |ds| && ds[k] == d;
      assert IdsDetalle(ds)[k] == d.id && IdsDetalle(ds)[k] in IdsDetalle(ds);
    }
  }

  function LineaDe(ventaId: int, id: int, it: ItemVenta): Detalle {
    Detalle(id, ventaId, it.producto_id, it.cantidad, it.subtotal, it.ganancia, "")
  }

  /** The rows POST appends to the sale-lines table: one per item, ids counted up from `desde`. */
  function NuevosDetalles(ventaId: int, desde: int, items: seq<ItemVenta>): seq<Detalle> {
    seq(|items|, k requires 0 <= k < |items| => LineaDe(ventaId, desde + k, items[k]))
  }

  function SubtotalItem(it: ItemVenta): Dinero { it.subtotal }
  function GananciaItem(it: ItemVenta): Dinero { it.ganancia }

  function NuevaVenta(id: int, fecha: string, req: SolicitudVenta, items: seq<ItemVenta>): Venta {
    Venta(id, fecha, Some(Sum(items, SubtotalItem)), Some(Sum(items, GananciaItem)),
          req.metodoPago, req.efectivo, req.debe, req.evento_id)
  }

  /** POST /api/ventas on the tables `s`; `fecha` is the request's timestamp. */
  function Registrar(s: Estado, req: SolicitudVenta, fecha: string): Resultado<Estado> {
    if req.items.None? || |req.items.value| == 0 then BadRequest(VentaVacia)
    else
      var items := req.items.value;
      var id := NuevoIdVenta(s.ventas);
      match Descontar(s.productos, items)
      case Ok(ps) =>
        Ok(Estado(ps, s.ventas + [NuevaVenta(id, fecha, req, items)],
                  s.detalle + NuevosDetalles(id, NuevoIdDetalle(s.detalle), items), s.eventos))
      case BadRequest(e) => BadRequest(e)
      case NotFound => NotFound
  }

  /** POST answers "Venta vacía" exactly when `items` is missing or empty, and goes
      through exactly when it is not and every line can be served. */
  lemma RegistrarErrores(s: Estado, req: SolicitudVenta, fecha: string)
    ensures Registrar(s, req, fecha) == BadRequest(VentaVacia) <==> req.items.None? || req.items.value == []
    ensures Registrar(s, req, fecha).Ok? <==>
      req.items.Some? && req.items.value != [] &&
      forall i :: 0 <= i < |req.items.value| ==> Atendible(s.productos, req.items.value, i)
  {
    if req.items.Some? && req.items.value != [] {
      DescontarExito(s.productos, req.items.value);
      DescontarErrores(s.productos, req.items.value);
    }
  }

  /** On success POST appends one sale with a fresh id whose total and margin are
      the sums the lines carry and whose event is the one sent. */
  lemma RegistrarVenta(s: Estado, req: SolicitudVenta, fecha: string, t: Estado)
    requires Registrar(s, req, fecha) == Ok(t)
    ensures req.items.Some?
    ensures var items := req.items.value;
      var id := NuevoIdVenta(s.ventas);
      && (forall v :: v in s.ventas ==> v.id < id)
      && t.ventas == s.ventas + [t.ventas[|s.ventas|]]
      && t.ventas[|s.ventas|].id == id
      && t.ventas[|s.ventas|].total == Some(Sum(items, SubtotalItem))
      && t.ventas[|s.ventas|].ganancia == Some(Sum(items, GananciaItem))
      && t.ventas[|s.ventas|].evento_id == req.evento_id
  {
    RegistrarPartes(s, req, fecha);
    NuevoIdVentaLibre(s.ventas);
    FilaVenta(s.ventas, t.ventas, NuevoIdVenta(s.ventas), fecha, req, req.items.value);
  }

  /** The sale table after POST: the old rows, then the new one. */
  lemma FilaVenta(viejas: seq<Venta>, nuevas: seq<Venta>, id: int, fecha: string, req: SolicitudVenta, items: seq<ItemVenta>)
    requires nuevas == viejas + [NuevaVenta(id, fecha, req, items)]
    ensures nuevas == viejas + [nuevas[|viejas|]]
    ensures nuevas[|viejas|].id == id
    ensures nuevas[|viejas|].total == Some(Sum(items, SubtotalItem))
    ensures nuevas[|viejas|].ganancia == Some(Sum(items, GananciaItem))
    ensures nuevas[|viejas|].evento_id == req.evento_id
  {
    assert nuevas[|viejas|] == NuevaVenta(id, fecha, req, items);
  }

  /** The line table after POST: the old rows, then one row per item with
      consecutive ids counted from `desde`, the item's product and quantity, and
      the sale's id. */
  lemma LineasAnexadas(viejas: seq<Detalle>, d: seq<Detalle>, ventaId: int, desde: int, items: seq<ItemVenta>)
    requires d == viejas + NuevosDetalles(ventaId, desde, items)
    ensures |d| == |viejas| + |items|
    ensures d[..|viejas|] == viejas
    ensures forall k :: 0 <= k < |items| ==>
      && d[|viejas| + k].venta_id == ventaId
      && d[|viejas| + k].id == desde + k
      && d[|viejas| + k].producto_id == items[k].producto_id
      && d[|viejas| + k].cantidad == items[k].cantidad
  {
    AnexarLineas(viejas, ventaId, desde, items);
  }

  /** The three tables a successful POST writes, one by one. */
  lemma RegistrarPartes(s: Estado, req: SolicitudVenta, fecha: string)
    requires Registrar(s, req, fecha).Ok?
    ensures req.items.Some?
    ensures var t := Registrar(s, req, fecha).value;
      var id := NuevoIdVenta(s.ventas);
      && t.ventas == s.ventas + [NuevaVenta(id, fecha, req, req.items.value)]
      && t.detalle == s.detalle + NuevosDetalles(id, NuevoIdDetalle(s.detalle), req.items.value)
      && t.eventos == s.eventos
  {
    RegistrarForma(s, req, fecha);
  }

  /** The line table after POST: the old rows, then one row per item. */
  lemma AnexarLineas(viejas: seq<Detalle>, ventaId: int, desde: int, items: seq<ItemVenta>)
    ensures var d := viejas + NuevosDetalles(ventaId, desde, items);
      && |d| == |viejas| + |items|
      && d[..|viejas|] == viejas
      && forall k :: 0 <= k < |items| ==> d[|viejas| + k] == LineaDe(ventaId, desde + k, items[k])
  {
    var d := viejas + NuevosDetalles(ventaId, desde, items);
    assert d[..|viejas|] == viejas;
  }

  /** On success POST lowers the stock of the first product of each id by the
      quantity the lines ask for, changes nothing else about the products, and
      leaves no stock it touched below zero. */
  lemma RegistrarStock(s: Estado, req: SolicitudVenta, fecha: string)
    requires Registrar(s, req, fecha).Ok?
    ensures var t := Registrar(s, req, fecha).value;
      && Movido(s.productos, t.productos, pid => -CantidadPedida(req.items.value, pid))
      && (forall k :: 0 <= k < |s.productos| ==> t.productos[k] == s.productos[k] || t.productos[k].stock >= 0)
  {
    DescontarMueve(s.productos, req.items.value);
    DescontarNoNegativo(s.productos, req.items.value);
  }

  lemma DescontarSiguiente(ps: seq<Producto>, items: seq<ItemVenta>, i: nat, cur: seq<Producto>)
    requires i < |items| && Descontar(ps, items[..i]) == Ok(cur)
    ensures Descontar(ps, items[..i + 1]) == Paso(cur, items[i])
  {
    assert items[..i + 1][..i] == items[..i];
  }

  lemma SumSiguiente(items: seq<ItemVenta>, i: nat, f: ItemVenta -> real)
    requires i < |items|
    ensures Sum(items[..i + 1], f) == Sum(items[..i], f) + f(items[i])
  {
    assert items[..i + 1][..i] == items[..i];
  }

  lemma NuevosSiguiente(ventaId: int, desde: int, items: seq<ItemVenta>, i: nat)
    requires i < |items|
    ensures NuevosDetalles(ventaId, desde, items[..i + 1])
         == NuevosDetalles(ventaId, desde, items[..i]) + [LineaDe(ventaId, desde + i, items[i])]
  {
  }

  /** A POST on non-empty items whose stock loop fails answers the loop's 400. */
  lemma RegistrarFalla(s: Estado, req: SolicitudVenta, fecha: string)
    requires req.items.Some? && req.items.value != []
    requires Descontar(s.productos, req.items.value).BadRequest?
    ensures Registrar(s, req, fecha) == BadRequest(Descontar(s.productos, req.items.value).error)
  {
  }

  /** A POST on non-empty items whose stock loop ends with `ps` writes these tables. */
  lemma RegistrarExito(s: Estado, req: SolicitudVenta, fecha: string, ps: seq<Producto>)
    requires req.items.Some? && req.items.value != []
    requires Descontar(s.productos, req.items.value) == Ok(ps)
    ensures Registrar(s, req, fecha) == Ok(Estado(ps,
      s.ventas + [NuevaVenta(NuevoIdVenta(s.ventas), fecha, req, req.items.value)],
      s.detalle + NuevosDetalles(NuevoIdVenta(s.ventas), NuevoIdDetalle(s.detalle), req.items.value),
      s.eventos))
  {
  }

  /** The tables a successful POST writes, spelled out. */
  lemma RegistrarForma(s: Estado, req: SolicitudVenta, fecha: string)
    requires Registrar(s, req, fecha).Ok?
    ensures req.items.Some? && req.items.value != []
    ensures Descontar(s.productos, req.items.value).Ok?
    ensures Registrar(s, req, fecha).value == Estado(
      Descontar(s.productos, req.items.value).value,
      s.ventas + [NuevaVenta(NuevoIdVenta(s.ventas), fecha, req, req.items.value)],
      s.detalle + NuevosDetalles(NuevoIdVenta(s.ventas), NuevoIdDetalle(s.detalle), req.items.value),
      s.eventos)
  {
    var items := req.items.value;
    RegistrarExito(s, req, fecha, Descontar(s.productos, items).value);
  }

  /** Every line POST writes points at the new sale. */
  lemma NuevosDeVenta(ventaId: int, desde: int, items: seq<ItemVenta>)
    ensures forall d :: d in NuevosDetalles(ventaId, desde, items) ==> d.venta_id == ventaId
  {
  }

  /** The loop of POST /api/ventas over `items`: it takes each line's quantity
      from the product table as it goes, adds up the totals and appends one line
      per item, and stops at the first product that is missing or short. */
  method TomarItems(productos0: seq<Producto>, detalle0: seq<Detalle>, items: seq<ItemVenta>, ventaId: int)
    returns (r: Resultado<seq<Producto>>, total: Dinero, gananciaTotal: Dinero, detalle: seq<Detalle>)
    ensures r == Descontar(productos0, items)
    ensures r.Ok? ==>
      && total == Sum(items, SubtotalItem)
      && gananciaTotal == Sum(items, GananciaItem)
      && detalle == detalle0 + NuevosDetalles(ventaId, NuevoIdDetalle(detalle0), items)
  {
    var productos := productos0;
    detalle := detalle0;
    total := 0.0;
    gananciaTotal := 0.0;
    var detalleId := NuevoIdDetalle(detalle0);
    ghost var desde := detalleId;
    var i := 0;
    while i < |items|
      invariant 0 <= i <= |items|
      invariant Descontar(productos0, items[..i]) == Ok(productos)
      invariant total == Sum(items[..i], SubtotalItem)
      invariant gananciaTotal == Sum(items[..i], GananciaItem)
      invariant detalle == detalle0 + NuevosDetalles(ventaId, desde, items[..i])
      invariant detalleId == desde + i
    {
      var item := items[i];
      ghost var antes := productos;
      DescontarSiguiente(productos0, items, i, productos);
      var k := IndiceProducto(productos, item.producto_id);
      if k.None? {
        DescontarFalla(productos0, items, i + 1);
        return BadRequest(ProductoNoEncontrado(item.producto_id)), total, gananciaTotal, detalle;
      }
      var prod := productos[k.value];
      if item.cantidad > prod.stock {
        DescontarFalla(productos0, items, i + 1);
        return BadRequest(StockInsuficiente(prod.nombre)), total, gananciaTotal, detalle;
      }
      SumSiguiente(items, i, SubtotalItem);
      SumSiguiente(items, i, GananciaItem);
      NuevosSiguiente(ventaId, desde, items, i);
      assert detalle0 + NuevosDetalles(ventaId, desde, items[..i + 1]) == detalle + [LineaDe(ventaId, detalleId, item)];
      total := total + item.subtotal;
      gananciaTotal := gananciaTotal + item.ganancia;
      productos := productos[k.value := prod.(stock := prod.stock - item.cantidad)];
      assert Paso(antes, item) == Ok(productos);
      detalle := detalle + [LineaDe(ventaId, detalleId, item)];
      detalleId := detalleId + 1;
      i := i + 1;
    }
    assert items[..|items|] == items;
    r := Ok(productos);
  }

  /** POST /api/ventas: the check for an empty sale, the loop over the items,
      then the three writes. The answer carries the new sale id. */
  method CrearVenta(db: Tablas, req: SolicitudVenta, fecha: string) returns (r: Resultado<int>)
    modifies db
    ensures var spec := Registrar(old(db.Contenido()), req, fecha);
      && r == Responder(spec, NuevoIdVenta(old(db.ventas)))
      && db.Contenido() == (if spec.Ok? then spec.value else old(db.Contenido()))
  {
    ghost var s0 := db.Contenido();
    if req.items.None? || |req.items.value| == 0 {
      return BadRequest(VentaVacia);
    }
    var items := req.items.value;
    var ventas := db.ventas;
    var ventaId := NuevoIdVenta(ventas);
    var tomado, total, gananciaTotal, detalle := TomarItems(db.productos, db.detalle, items, ventaId);
    DescontarErrores(s0.productos, items);
    if tomado.BadRequest? {
      RegistrarFalla(s0, req, fecha);
      return BadRequest(tomado.error);
    }
    var productos := tomado.value;
    var nueva := Venta(ventaId, fecha, Some(total), Some(gananciaTotal),
                       req.metodoPago, req.efectivo, req.debe, req.evento_id);
    assert nueva == NuevaVenta(ventaId, fecha, req, items);
    RegistrarExito(s0, req, fecha, productos);
    ventas := ventas + [nueva];
    db.productos := productos;  // guardarExcel(PRODUCTOS_FILE, productos)
    db.ventas := ventas;        // guardarExcel(VENTAS_FILE, ventas)
    db.detalle := detalle;      // guardarExcel(DETALLE_FILE, detalle)
    r := Ok(ventaId);
  }

  /** `ventas.findIndex(v => v.id === id)`: the same search `Modelo.IndiceProducto`
      does on products, here on the sale table. */
  function IndiceVenta(vs: seq<Venta>, id: int): (r: Option<nat>)
    ensures r.Some? ==> r.value < |vs| && vs[r.value].id == id
    ensures r.Some? ==> forall k :: 0 <= k < r.value ==> vs[k].id != id
    ensures r.None? ==> forall k :: 0 <= k < |vs| ==> vs[k].id != id
    decreases |vs|
  {
    if vs == [] then None
    else if vs[0].id == id then Some(0)
    else match IndiceVenta(vs[1..], id)
      case None => None
      case Some(k) => Some(k + 1)
  }

  /** The lines of sale `id`. */
  function DetallesVenta(ds: seq<Detalle>, id: int): seq<Detalle> {
    Filter(ds, (d: Detalle) => d.venta_id == id)
  }

  function OtrosDetalles(ds: seq<Detalle>, id: int): seq<Detalle> {
    Filter(ds, (d: Detalle) => d.venta_id != id)
  }

  function OtrasVentas(vs: seq<Venta>, id: int): seq<Venta> {
    Filter(vs, (v: Venta) => v.id != id)
  }

  /** The sales DELETE drops: those with the id, in table order. */
  function VentasConId(vs: seq<Venta>, id: int): seq<Venta> {
    Filter(vs, (v: Venta) => v.id == id)
  }

  /** DELETE /api/ventas/:id on the tables `s`; `id` is `Number(req.params.id)`. */
  function Eliminacion(s: Estado, id: Option<int>): Resultado<Estado> {
    if id.None? then BadRequest(IdInvalido)
    else if IndiceVenta(s.ventas, id.value).None? then NotFound
    else Ok(Estado(
      Restaurar(s.productos, DetallesVenta(s.detalle, id.value)),
      OtrasVentas(s.ventas, id.value),
      OtrosDetalles(s.detalle, id.value),
      s.eventos))
  }

  /** DELETE answers 400 exactly for a NaN id and 404 exactly when no sale has the
      id; otherwise it removes exactly the sales and lines of that id, keeping every
      other row once and in table order, and gives the first product of each id
      back the quantity of the removed lines. */
  lemma EliminacionCorrecta(s: Estado, id: Option<int>)
    ensures Eliminacion(s, id).BadRequest? <==> id.None?
    ensures Eliminacion(s, id).NotFound? <==> id.Some? && forall v :: v in s.ventas ==> v.id != id.value
    ensures Eliminacion(s, id).Ok? ==>
      var t := Eliminacion(s, id).value;
      && (forall v :: v in t.ventas <==> v in s.ventas && v.id != id.value)
      && (forall d :: d in t.detalle <==> d in s.detalle && d.venta_id != id.value)
      && |t.ventas| < |s.ventas|
      && multiset(t.ventas) + multiset(VentasConId(s.ventas, id.value)) == multiset(s.ventas)
      && multiset(t.detalle) + multiset(DetallesVenta(s.detalle, id.value)) == multiset(s.detalle)
      && (forall i :: 0 <= i <= |s.ventas| ==> OtrasVentas(s.ventas[..i], id.value) <= t.ventas)
      && (forall i :: 0 <= i <= |s.detalle| ==> OtrosDetalles(s.detalle[..i], id.value) <= t.detalle)
      && Movido(s.productos, t.productos, pid => CantidadProducto(DetallesVenta(s.detalle, id.value), pid))
      && t.eventos == s.eventos
  {
    if id.Some? {
      if IndiceVenta(s.ventas, id.value).Some? {
        var k := IndiceVenta(s.ventas, id.value).value;
        assert s.ventas[k] in s.ventas;
        RestaurarMueve(s.productos, DetallesVenta(s.detalle, id.value));
        FiltroSinUna(s.ventas, id.value, k);
        QuitadasEnOrden(s.ventas, s.detalle, id.value);
      } else {
        forall v | v in s.ventas ensures v.id != id.value {
          var k :| 0 <= k < |s.ventas| && s.ventas[k] == v;
        }
      }
    }
  }

  /** Removing the sale and its lines keeps every other row once, in table order. */
  lemma QuitadasEnOrden(vs: seq<Venta>, ds: seq<Detalle>, id: int)
    ensures multiset(OtrasVentas(vs, id)) + multiset(VentasConId(vs, id)) == multiset(vs)
    ensures multiset(OtrosDetalles(ds, id)) + multiset(DetallesVenta(ds, id)) == multiset(ds)
    ensures forall i :: 0 <= i <= |vs| ==> OtrasVentas(vs[..i], id) <= OtrasVentas(vs, id)
    ensures forall i :: 0 <= i <= |ds| ==> OtrosDetalles(ds[..i], id) <= OtrosDetalles(ds, id)
  {
    FilterMultiset(vs, (v: Venta) => v.id != id, (v: Venta) => v.id == id);
    FilterMultiset(ds, (d: Detalle) => d.venta_id != id, (d: Detalle) => d.venta_id == id);
    FilterPrefijos(vs, (v: Venta) => v.id != id);
    FilterPrefijos(ds, (d: Detalle) => d.venta_id != id);
  }

  lemma {:induction false} FiltroSinUna(vs: seq<Venta>, id: int, k: nat)
    requires k < |vs| && vs[k].id == id
    ensures |OtrasVentas(vs, id)| < |vs|
    decreases |vs|
  {
    var init := vs[..|vs| - 1];
    if k < |vs| - 1 {
      assert init[k] == vs[k];
      FiltroSinUna(init, id, k);
    }
  }

  /** DELETE /api/ventas/:id: the loop that gives the stock back, then the three writes. */
  method EliminarVenta(db: Tablas, id: Option<int>) returns (r: Resultado<()>)
    modifies db
    ensures var spec := Eliminacion(old(db.Contenido()), id);
      && r == Descartar(spec)
      && db.Contenido() == (if spec.Ok? then spec.value else old(db.Contenido()))
  {
    if id.None? {
      return BadRequest(IdInvalido);
    }
    var ventas := db.ventas;
    var detalle := db.detalle;
    var productos := db.productos;
    if IndiceVenta(ventas, id.value).None? {
      return NotFound;
    }
    var detallesVenta := DetallesVenta(detalle, id.value);
    var i := 0;
    while i < |detallesVenta|
      invariant 0 <= i <= |detallesVenta|
      invariant productos == Restaurar(db.productos, detallesVenta[..i])
    {
      var det := detallesVenta[i];
      assert detallesVenta[..i + 1][..i] == detallesVenta[..i];
      var k := IndiceProducto(productos, det.producto_id);
      if k.Some? {
        productos := productos[k.value := productos[k.value].(stock := productos[k.value].stock + det.cantidad)];
      }
      i := i + 1;
    }
    assert detallesVenta[..|detallesVenta|] == detallesVenta;
    var nuevasVentas := OtrasVentas(ventas, id.value);
    var nuevosDetalles := OtrosDetalles(detalle, id.value);
    db.ventas := nuevasVentas;      // guardarExcel(VENTAS_FILE, nuevasVentas)
    db.detalle := nuevosDetalles;   // guardarExcel(DETALLE_FILE, nuevosDetalles)
    db.productos := productos;      // guardarExcel(PRODUCTOS_FILE, productos)
    r := Ok(());
  }

  // ---------------------------------------------------------------------
  // Create, then delete
  // ---------------------------------------------------------------------

  /** Every stored line belongs to a stored sale. */
  ghost predicate Integra(s: Estado) {
    forall d :: d in s.detalle ==> exists v :: v in s.ventas && v.id == d.venta_id
  }

  lemma {:induction false} CantidadNuevos(ventaId: int, desde: int, items: seq<ItemVenta>, pid: int)
    ensures CantidadProducto(NuevosDetalles(ventaId, desde, items), pid) == CantidadPedida(items, pid)
    decreases |items|
  {
    if items != [] {
      var n := |items|;
      assert NuevosDetalles(ventaId, desde, items)[..n - 1] == NuevosDetalles(ventaId, desde, items[..n - 1]);
      CantidadNuevos(ventaId, desde, items[..n - 1], pid);
    }
  }

  /** Deleting by the new id removes exactly the appended lines. */
  lemma LineasNuevas(viejas: seq<Detalle>, nds: seq<Detalle>, id: int)
    requires forall d :: d in viejas ==> d.venta_id != id
    requires forall d :: d in nds ==> d.venta_id == id
    ensures DetallesVenta(viejas + nds, id) == nds
    ensures OtrosDetalles(viejas + nds, id) == viejas
  {
    FilterConcat(viejas, nds, (d: Detalle) => d.venta_id == id);
    FilterNone(viejas, (d: Detalle) => d.venta_id == id);
    FilterAll(nds, (d: Detalle) => d.venta_id == id);
    assert [] + nds == nds;
    FilterConcat(viejas, nds, (d: Detalle) => d.venta_id != id);
    FilterAll(viejas, (d: Detalle) => d.venta_id != id);
    FilterNone(nds, (d: Detalle) => d.venta_id != id);
    assert viejas + [] == viejas;
  }

  /** Deleting by the new id removes exactly the appended sale. */
  lemma VentaNueva(viejas: seq<Venta>, nv: Venta)
    requires forall v :: v in viejas ==> v.id != nv.id
    ensures IndiceVenta(viejas + [nv], nv.id).Some?
    ensures OtrasVentas(viejas + [nv], nv.id) == viejas
  {
    var t := viejas + [nv];
    assert t[|viejas|].id == nv.id;
    FilterConcat(viejas, [nv], (v: Venta) => v.id != nv.id);
    FilterAll(viejas, (v: Venta) => v.id != nv.id);
    FilterNone([nv], (v: Venta) => v.id != nv.id);
    assert viejas + [] == viejas;
  }

  /** Giving back the lines a sale took restores the products. */
  lemma StockDeVuelta(ps: seq<Producto>, items: seq<ItemVenta>, nds: seq<Detalle>, ventaId: int, desde: int)
    requires Descontar(ps, items).Ok?
    requires nds == NuevosDetalles(ventaId, desde, items)
    ensures Restaurar(Descontar(ps, items).value, nds) == ps
  {
    var t := Descontar(ps, items).value;
    DescontarMueve(ps, items);
    RestaurarMueve(t, nds);
    forall pid ensures CantidadProducto(nds, pid) == CantidadPedida(items, pid) {
      CantidadNuevos(ventaId, desde, items, pid);
    }
    MovidoInverso(ps, t, Restaurar(t, nds), pid => -CantidadPedida(items, pid), pid => CantidadProducto(nds, pid));
  }

  /** Creating a sale and then deleting it by the id POST answered gives back the
      tables as they were, stock included, when every stored line belonged to a
      stored sale. */
  lemma CrearYEliminar(s: Estado, req: SolicitudVenta, fecha: string)
    requires Integra(s)
    requires Registrar(s, req, fecha).Ok?
    ensures Eliminacion(Registrar(s, req, fecha).value, Some(NuevoIdVenta(s.ventas))) == Ok(s)
  {
    var items := req.items.value;
    var id := NuevoIdVenta(s.ventas);
    var t := Registrar(s, req, fecha).value;
    var nds := NuevosDetalles(id, NuevoIdDetalle(s.detalle), items);
    var nv := NuevaVenta(id, fecha, req, items);
    RegistrarForma(s, req, fecha);
    NuevosDeVenta(id, NuevoIdDetalle(s.detalle), items);
    NuevoIdVentaLibre(s.ventas);
    VentaNueva(s.ventas, nv);
    forall d | d in s.detalle ensures d.venta_id != id {
      var v :| v in s.ventas && v.id == d.venta_id;
    }
    LineasNuevas(s.detalle, nds, id);
    StockDeVuelta(s.productos, items, nds, id, NuevoIdDetalle(s.detalle));
  }

  /** Creating a sale keeps every line attached to a sale. */
  lemma RegistrarIntegra(s: Estado, req: SolicitudVenta, fecha: string)
    requires Integra(s) && Registrar(s, req, fecha).Ok?
    ensures Integra(Registrar(s, req, fecha).value)
  {
    RegistrarForma(s, req, fecha);
    var id := NuevoIdVenta(s.ventas);
    var nv := NuevaVenta(id, fecha, req, req.items.value);
    var nds := NuevosDetalles(id, NuevoIdDetalle(s.detalle), req.items.value);
    NuevosDeVenta(id, NuevoIdDetalle(s.detalle), req.items.value);
    IntegraAlta(s.ventas, s.detalle, nv, nds);
  }

  lemma IntegraAlta(vs: seq<Venta>, ds: seq<Detalle>, nv: Venta, nds: seq<Detalle>)
    requires forall d :: d in ds ==> exists v :: v in vs && v.id == d.venta_id
    requires forall d :: d in nds ==> d.venta_id == nv.id
    ensures forall d :: d in ds + nds ==> exists v :: v in vs + [nv] && v.id == d.venta_id
  {
    forall d | d in ds + nds ensures exists v :: v in vs + [nv] && v.id == d.venta_id {
      if d in ds {
        var v :| v in vs && v.id == d.venta_id;
        assert v in vs + [nv];
      } else {
        assert nv in vs + [nv];
      }
    }
  }

  /** Deleting a sale keeps every line attached to a sale. */
  lemma EliminacionIntegra(s: Estado, id: Option<int>)
    requires Integra(s) && Eliminacion(s, id).Ok?
    ensures Integra(Eliminacion(s, id).value)
  {
    var t := Eliminacion(s, id).value;
    forall d | d in t.detalle ensures exists v :: v in t.ventas && v.id == d.venta_id {
      var v :| v in s.ventas && v.id == d.venta_id;
      assert v in t.ventas;
    }
  }

  /** A new sale enters the statistics of every scope that selects it: one more
      sale, and its total and margin added to the sums. */
  lemma RegistrarEnEstadisticas(s: Estado, req: SolicitudVenta, fecha: string, sel: Venta -> bool)
    requires Registrar(s, req, fecha).Ok?
    ensures var t := Registrar(s, req, fecha).value;
      var nv := t.ventas[|s.ventas|];
      var antes := Resumir(s.ventas, s.detalle, sel);
      var despues := Resumir(t.ventas, t.detalle, sel);
      && despues.totalVentas == antes.totalVentas + (if sel(nv) then 1 else 0)
      && despues.ingresosTotales == antes.ingresosTotales + (if sel(nv) then Sum(req.items.value, SubtotalItem) else 0.0)
      && despues.gananciaTotales == antes.gananciaTotales + (if sel(nv) then Sum(req.items.value, GananciaItem) else 0.0)
  {
    var t := Registrar(s, req, fecha).value;
    var nv := t.ventas[|s.ventas|];
    assert t.ventas == s.ventas + [nv];
    FilterConcat(s.ventas, [nv], sel);
    var f := Filter(s.ventas, sel);
    if sel(nv) {
      assert Filter([nv], sel) == [nv];
      SumConcat(f, [nv], TotalDe);
      SumConcat(f, [nv], GananciaDe);
      SumSingle(nv, TotalDe);
      SumSingle(nv, GananciaDe);
    } else {
      assert Filter([nv], sel) == [];
      assert f + [] == f;
    }
  }

  // ---------------------------------------------------------------------
  // PUT /api/ventas/:id
  // ---------------------------------------------------------------------

  /** The request body of PUT: each field is None when not sent. `id` is sent
      but never stored. */
  datatype Parche = Parche(
    id: Option<int>,
    fecha: Option<string>,
    total: Option<Option<Dinero>>,
    ganancia: Option<Option<Dinero>>,
    metodoPago: Option<Option<string>>,
    efectivo: Option<Option<Dinero>>,
    debe: Option<Option<bool>>,
    evento_id: Option<RefEvento>)

  function Sobre<T>(nuevo: Option<T>, viejo: T): T {
    if nuevo.Some? then nuevo.value else viejo
  }

  /** `{...venta, ...datosNuevos, id}`. */
  function Mezclar(v: Venta, p: Parche, id: int): Venta {
    Venta(id, Sobre(p.fecha, v.fecha), Sobre(p.total, v.total), Sobre(p.ganancia, v.ganancia),
          Sobre(p.metodoPago, v.metodoPago), Sobre(p.efectivo, v.efectivo), Sobre(p.debe, v.debe),
          Sobre(p.evento_id, v.evento_id))
  }

  function Modificacion(vs: seq<Venta>, id: Option<int>, p: Parche): Resultado<seq<Venta>> {
    if id.None? then BadRequest(IdInvalido)
    else match IndiceVenta(vs, id.value)
      case None => NotFound
      case Some(k) => Ok(vs[k := Mezclar(vs[k], p, id.value)])
  }

  /** PUT answers 400 exactly for a NaN id and 404 exactly when no sale has it;
      otherwise it rewrites only the first sale with the id: each field sent
      replaces the stored one, each field not sent is kept, the id stays the path
      id whatever the body says, and the same patch again changes nothing more. */
  lemma ModificacionCorrecta(vs: seq<Venta>, id: Option<int>, p: Parche)
    ensures Modificacion(vs, id, p).BadRequest? <==> id.None?
    ensures Modificacion(vs, id, p).NotFound? <==> id.Some? && forall k :: 0 <= k < |vs| ==> vs[k].id != id.value
    ensures Modificacion(vs, id, p).Ok? ==>
      var t := Modificacion(vs, id, p).value;
      var k := IndiceVenta(vs, id.value).value;
      && |t| == |vs|
      && (forall j :: 0 <= j < |vs| && j != k ==> t[j] == vs[j])
      && t[k].id == id.value
      && (p.fecha.None? ==> t[k].fecha == vs[k].fecha) && (p.fecha.Some? ==> t[k].fecha == p.fecha.value)
      && (p.total.None? ==> t[k].total == vs[k].total) && (p.total.Some? ==> t[k].total == p.total.value)
      && (p.ganancia.None? ==> t[k].ganancia == vs[k].ganancia)
      && (p.ganancia.Some? ==> t[k].ganancia == p.ganancia.value)
      && (p.metodoPago.None? ==> t[k].metodoPago == vs[k].metodoPago)
      && (p.metodoPago.Some? ==> t[k].metodoPago == p.metodoPago.value)
      && (p.efectivo.None? ==> t[k].efectivo == vs[k].efectivo)
      && (p.efectivo.Some? ==> t[k].efectivo == p.efectivo.value)
      && (p.debe.None? ==> t[k].debe == vs[k].debe) && (p.debe.Some? ==> t[k].debe == p.debe.value)
      && (p.evento_id.None? ==> t[k].evento_id == vs[k].evento_id)
      && (p.evento_id.Some? ==> t[k].evento_id == p.evento_id.value)
      && (p == Parche(None, None, None, None, None, None, None, None) ==> t == vs)
      && Modificacion(t, id, p) == Ok(t)
  {
    if Modificacion(vs, id, p).Ok? {
      var t := Modificacion(vs, id, p).value;
      var k := IndiceVenta(vs, id.value).value;
      IndiceVentaMismosIds(vs, t, id.value);
      assert t[k := Mezclar(t[k], p, id.value)] == t;
      if p == Parche(None, None, None, None, None, None, None, None) {
        assert t[k] == vs[k];
      }
    }
  }

  lemma {:induction false} IndiceVentaMismosIds(vs: seq<Venta>, ws: seq<Venta>, id: int)
    requires |vs| == |ws|
    requires forall k :: 0 <= k < |vs| ==> vs[k].id == ws[k].id
    ensures IndiceVenta(vs, id) == IndiceVenta(ws, id)
    decreases |vs|
  {
    if vs != [] && vs[0].id != id {
      IndiceVentaMismosIds(vs[1..], ws[1..], id);
    }
  }

  method ActualizarVenta(db: Tablas, id: Option<int>, p: Parche) returns (r: Resultado<()>)
    modifies db
    ensures var spec := Modificacion(old(db.ventas), id, p);
      && r == Descartar(spec)
      && db.ventas == (if spec.Ok? then spec.value else old(db.ventas))
    ensures db.productos == old(db.productos) && db.detalle == old(db.detalle) && db.eventos == old(db.eventos)
  {
    if id.None? {
      return BadRequest(IdInvalido);
    }
    var ventas := db.ventas;
    var ventaIndex := IndiceVenta(ventas, id.value);
    if ventaIndex.None? {
      return NotFound;
    }
    var k := ventaIndex.value;
    ventas := ventas[k := Mezclar(ventas[k], p, id.value)];
    db.ventas := ventas;  // guardarExcel(VENTAS_FILE, ventas)
    r := Ok(());
  }

  // ---------------------------------------------------------------------
  // GET /api/ventas
  // ---------------------------------------------------------------------

  const NOMBRE_CAMPAMENTO: string := "Campamento Adolescentes 2025"
  const FECHA_CAMPAMENTO: string := "2025-01-01"
  const DESCONOCIDO: string := "Desconocido"

  /** A sale as the listing shows it: its row (with `evento_id` as the listing
      sets it), its lines with product names, and the event's name and date. */
  datatype VentaVista = VentaVista(venta: Venta, detalles: seq<Detalle>, evento_nombre: string, evento_fecha: string)

  /** `productos.find(p => p.id === id)?.nombre || "Desconocido"`. */
  function NombreProducto(ps: seq<Producto>, id: int): string {
    match IndiceProducto(ps, id)
    case None => DESCONOCIDO
    case Some(k) => if ps[k].nombre != "" then ps[k].nombre else DESCONOCIDO
  }

  function DetallesVista(ds: seq<Detalle>, ps: seq<Producto>, id: int): seq<Detalle> {
    var propios := DetallesVenta(ds, id);
    seq(|propios|, j requires 0 <= j < |propios| => propios[j].(nombre := NombreProducto(ps, propios[j].producto_id)))
  }

  /** One sale of the listing: the event is looked up only for a truthy
      `evento_id`; without a match the default label is used and `evento_id`
      shows as null. */
  function Vista(v: Venta, ds: seq<Detalle>, ps: seq<Producto>, es: seq<FilaEvento>): VentaVista {
    var detalles := DetallesVista(ds, ps, v.id);
    var e := if EsVerdadero(v.evento_id) then Eventos.IndiceEvento(es, NumeroDe(v.evento_id)) else None;
    match e
    case Some(k) => VentaVista(v, detalles, es[k].nombre, es[k].fecha)
    case None => VentaVista(v.(evento_id := Vacio), detalles, NOMBRE_CAMPAMENTO, FECHA_CAMPAMENTO)
  }

  function Listado(vs: seq<Venta>, ds: seq<Detalle>, ps: seq<Producto>, es: seq<FilaEvento>): seq<VentaVista> {
    seq(|vs|, i requires 0 <= i < |vs| => Vista(vs[i], ds, ps, es))
  }

  /** Each listed sale keeps its row except `evento_id`, which shows as null exactly
      when the sale has no event or its event is not in the table, in which case
      the default label is shown; otherwise the first matching event's name and
      date are shown. Its lines are exactly the stored lines of the sale, in
      order, each named after its product when that has a non-empty name, and
      "Desconocido" otherwise. */
  lemma VistaCorrecta(v: Venta, ds: seq<Detalle>, ps: seq<Producto>, es: seq<FilaEvento>)
    ensures var w := Vista(v, ds, ps, es);
      && w.venta == v.(evento_id := w.venta.evento_id)
      && (w.venta.evento_id == Vacio <==>
            !EsVerdadero(v.evento_id) || forall k :: 0 <= k < |es| ==> !MismoNumero(es[k].id, NumeroDe(v.evento_id)))
      && (w.venta.evento_id == Vacio ==> w.evento_nombre == NOMBRE_CAMPAMENTO && w.evento_fecha == FECHA_CAMPAMENTO)
      && (w.venta.evento_id != Vacio ==> w.venta.evento_id == v.evento_id)
      && (w.venta.evento_id != Vacio ==>
            var e := Eventos.IndiceEvento(es, NumeroDe(v.evento_id));
            e.Some? && w.evento_nombre == es[e.value].nombre && w.evento_fecha == es[e.value].fecha)
      && |w.detalles| == |DetallesVenta(ds, v.id)|
      && (forall d :: d in w.detalles ==> d.venta_id == v.id)
      && (forall j :: 0 <= j < |w.detalles| ==>
            w.detalles[j] == DetallesVenta(ds, v.id)[j].(nombre := w.detalles[j].nombre)
            && (w.detalles[j].nombre == DESCONOCIDO <==>
                  IndiceProducto(ps, w.detalles[j].producto_id).None?
                  || ps[IndiceProducto(ps, w.detalles[j].producto_id).value].nombre in {"", DESCONOCIDO})
            && (IndiceProducto(ps, w.detalles[j].producto_id).Some?
                && ps[IndiceProducto(ps, w.detalles[j].producto_id).value].nombre != "" ==>
                  w.detalles[j].nombre == ps[IndiceProducto(ps, w.detalles[j].producto_id).value].nombre))
  {
    var w := Vista(v, ds, ps, es);
    forall d | d in w.detalles ensures d.venta_id == v.id {
      var j :| 0 <= j < |w.detalles| && w.detalles[j] == d;
      assert DetallesVenta(ds, v.id)[j] in DetallesVenta(ds, v.id);
    }
  }

  /** A sale whose event row is missing is listed under the default event but
      is not counted by the statistics of that default scope. */
  lemma EtiquetaSinAlcance(v: Venta, ds: seq<Detalle>, ps: seq<Producto>, es: seq<FilaEvento>)
    requires EsVerdadero(v.evento_id)
    requires forall k :: 0 <= k < |es| ==> !MismoNumero(es[k].id, NumeroDe(v.evento_id))
    ensures Vista(v, ds, ps, es).evento_nombre == NOMBRE_CAMPAMENTO
    ensures !SinEvento(v)
  {
  }

  /** GET /api/ventas/campamento-adolescentes/estadisticas: the pipeline on the
      sales with a falsy `evento_id`. */
  method EstadisticasCampamento(db: Tablas) returns (r: Resumen)
    ensures r == Resumir(db.ventas, db.detalle, SinEvento)
  {
    r := CalcularResumen(db.ventas, db.detalle, (v: Venta) => !EsVerdadero(v.evento_id));
    ResumirCongruente(db.ventas, db.detalle, (v: Venta) => !EsVerdadero(v.evento_id), SinEvento);
  }
}
