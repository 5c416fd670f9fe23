/** The sale form (src/pages/AgregarVentass.tsx): the cart the user fills
    before confirming a sale, the product search, the event choice and the
    request the form sends to POST /api/ventas.

    `Formulario` is the page's state as a value and each handler is a pure
    transition on it (`TrasAgregar`, `TrasActualizar`, ...); the class
    `AgregarVentas` holds that state in fields and its methods, one per
    handler, update them as the handlers do. */
module Carrito {
  import opened Comun
  import opened Orden
  import opened Modelo
  import opened Stock
  import Eventos
  import Ventas
  import Estadisticas

  /** One line of the cart. */
  datatype ItemCarrito = ItemCarrito(producto_id: int, nombre: string, cantidad: int, subtotal: Dinero, ganancia: Dinero)

  /** The message banner. */
  datatype Aviso =
    | Ninguno
    | SinPrecio(nombre: string)   // "El producto ... no tiene precio válido"
    | SinStock(nombre: string)    // "El producto ... no tiene stock"
    | CantidadInvalida            // "Cantidad inválida"
    | CantidadOSinStock           // "Cantidad inválida o sin stock"
    | VentaRegistrada             // "Venta registrada correctamente"
    | ErrorAlRegistrar            // "Error al registrar la venta"

  /** The page state. A select left empty (`""`) is None. */
  datatype Formulario = Formulario(
    productos: seq<Producto>,
    eventos: seq<Eventos.Evento>,
    eventoSeleccionado: Option<int>,
    productoSeleccionado: Option<int>,
    cantidad: int,
    carrito: seq<ItemCarrito>,
    mensaje: Aviso,
    busqueda: string,
    efectivo: Dinero,
    metodoPago: string,
    debe: bool)

  // ---------------------------------------------------------------------
  // Cart lines and totals
  // ---------------------------------------------------------------------

  /** A line agrees with the catalogue: at least one unit, of the first product
      with its id, which has a positive price, priced and margined per unit. */
  predicate Coherente(ps: seq<Producto>, it: ItemCarrito) {
    && it.cantidad >= 1
    && match IndiceProducto(ps, it.producto_id)
       case None => false
       case Some(k) =>
         && ps[k].precio > 0.0
         && it.nombre == ps[k].nombre
         && it.subtotal == ps[k].precio * it.cantidad as real
         && it.ganancia == (ps[k].precio - ps[k].costo) * it.cantidad as real
  }

  predicate Valida(f: Formulario) {
    forall i :: 0 <= i < |f.carrito| ==> Coherente(f.productos, f.carrito[i])
  }

  function SubtotalDe(it: ItemCarrito): Dinero { it.subtotal }
  function GananciaDe(it: ItemCarrito): Dinero { it.ganancia }

  /** `carrito.reduce((sum, i) => sum + i.subtotal, 0)`. */
  function Total(c: seq<ItemCarrito>): Dinero { Sum(c, SubtotalDe) }

  /** `carrito.reduce((sum, i) => sum + i.ganancia, 0)`. */
  function Ganancia(c: seq<ItemCarrito>): Dinero { Sum(c, GananciaDe) }

  // ---------------------------------------------------------------------
  // agregarAlCarrito
  // ---------------------------------------------------------------------

  /** What `agregarAlCarrito` does: nothing, show a message, or add a line. */
  datatype Intento = Ignorado | Rechazado(aviso: Aviso) | Aceptado(item: ItemCarrito)

  /** The guards in the handler's order; the selection is looked up as
      `Number(productoSeleccionado)`, so an empty selection looks for id 0. */
  function Agregar(ps: seq<Producto>, sel: Option<int>, cantidad: int): Intento {
    match IndiceProducto(ps, sel.GetOr(0))
    case None => Ignorado
    case Some(k) =>
      var p := ps[k];
      if p.precio <= 0.0 then Rechazado(SinPrecio(p.nombre))
      else if p.stock <= 0 then Rechazado(SinStock(p.nombre))
      else if cantidad <= 0 || cantidad > p.stock then Rechazado(CantidadInvalida)
      else Aceptado(ItemCarrito(p.id, p.nombre, cantidad, p.precio * cantidad as real, (p.precio - p.costo) * cantidad as real))
  }

  /** Adding does nothing exactly when no product has the selected id. */
  lemma AgregarIgnorado(ps: seq<Producto>, sel: Option<int>, cantidad: int)
    ensures Agregar(ps, sel, cantidad).Ignorado? <==> forall k :: 0 <= k < |ps| ==> ps[k].id != sel.GetOr(0)
  {
    match IndiceProducto(ps, sel.GetOr(0))
    case None =>
    case Some(k) =>
      assert ps[k].id == sel.GetOr(0);
  }

  /** Adding adds a line exactly when the product found has a positive price and
      stock and the quantity is within 1..stock, and that line agrees with the
      catalogue. */
  lemma AgregarAceptado(ps: seq<Producto>, sel: Option<int>, cantidad: int)
    ensures Agregar(ps, sel, cantidad).Aceptado? <==>
      IndiceProducto(ps, sel.GetOr(0)).Some? &&
      var p := ps[IndiceProducto(ps, sel.GetOr(0)).value];
      p.precio > 0.0 && p.stock > 0 && 1 <= cantidad <= p.stock
    ensures Agregar(ps, sel, cantidad).Aceptado? ==>
      var it := Agregar(ps, sel, cantidad).item;
      && Coherente(ps, it)
      && it.producto_id == sel.GetOr(0) && it.cantidad == cantidad
  {
    var a := Agregar(ps, sel, cantidad);
    if a.Aceptado? {
      LineaAgregada(ps, sel, cantidad);
    }
  }

  /** The line added prices the product found at the quantity asked. */
  lemma LineaAgregada(ps: seq<Producto>, sel: Option<int>, cantidad: int)
    requires Agregar(ps, sel, cantidad).Aceptado?
    ensures IndiceProducto(ps, sel.GetOr(0)).Some?
    ensures var k := IndiceProducto(ps, sel.GetOr(0)).value;
      var p := ps[k];
      Agregar(ps, sel, cantidad).item ==
        ItemCarrito(p.id, p.nombre, cantidad, p.precio * cantidad as real, (p.precio - p.costo) * cantidad as real)
    ensures Coherente(ps, Agregar(ps, sel, cantidad).item)
  {
    var k := IndiceProducto(ps, sel.GetOr(0)).value;
    var it := Agregar(ps, sel, cantidad).item;
    assert it.producto_id == ps[k].id;
    assert IndiceProducto(ps, it.producto_id) == Some(k);
  }

  function TrasAgregar(f: Formulario): Formulario {
    match Agregar(f.productos, f.productoSeleccionado, f.cantidad)
    case Ignorado => f
    case Rechazado(m) => f.(mensaje := m)
    case Aceptado(it) =>
      f.(carrito := f.carrito + [it], cantidad := 1, productoSeleccionado := None, busqueda := "", mensaje := Ninguno)
  }

  /** Adding keeps every line in agreement with the catalogue. */
  lemma TrasAgregarValida(f: Formulario)
    requires Valida(f)
    ensures Valida(TrasAgregar(f))
  {
    AgregarAceptado(f.productos, f.productoSeleccionado, f.cantidad);
  }

  /** Adding raises the totals by exactly the line added, and nothing else. */
  lemma TrasAgregarTotales(f: Formulario)
    ensures var a := Agregar(f.productos, f.productoSeleccionado, f.cantidad);
      && Total(TrasAgregar(f).carrito) == Total(f.carrito) + (if a.Aceptado? then a.item.subtotal else 0.0)
      && Ganancia(TrasAgregar(f).carrito) == Ganancia(f.carrito) + (if a.Aceptado? then a.item.ganancia else 0.0)
  {
    var a := Agregar(f.productos, f.productoSeleccionado, f.cantidad);
    if a.Aceptado? {
      SumConcat(f.carrito, [a.item], SubtotalDe);
      SumConcat(f.carrito, [a.item], GananciaDe);
      SumSingle(a.item, SubtotalDe);
      SumSingle(a.item, GananciaDe);
    }
  }

  // ---------------------------------------------------------------------
  // actualizarCantidad
  // ---------------------------------------------------------------------

  /** The line at a new quantity, subtotal and margin scaled by new/old. */
  function Reescalar(it: ItemCarrito, n: int): ItemCarrito
    requires it.cantidad != 0
  {
    it.(cantidad := n,
        subtotal := (it.subtotal / it.cantidad as real) * n as real,
        ganancia := (it.ganancia / it.cantidad as real) * n as real)
  }

  function TrasActualizar(f: Formulario, index: int, n: int): Formulario
    requires 0 <= index < |f.carrito| && f.carrito[index].cantidad != 0
  {
    if n < 1 then f
    else
      var it := f.carrito[index];
      match IndiceProducto(f.productos, it.producto_id)
      case None => f.(mensaje := CantidadOSinStock)
      case Some(k) =>
        if n > f.productos[k].stock then f.(mensaje := CantidadOSinStock)
        else f.(carrito := f.carrito[index := Reescalar(it, n)], mensaje := Ninguno)
  }

  lemma Escala(u: real, c: int, n: int)
    requires c >= 1
    ensures ((u * c as real) / c as real) * n as real == u * n as real
  {
    assert (u * c as real) / c as real == u;
  }

  /** Changing a quantity touches only that line: the cart keeps its length,
      the line keeps its product, and a line that agreed with the catalogue
      still does at the new quantity (price times quantity), so the totals move
      by exactly the change of that line. A quantity below 1 changes nothing;
      one above the stock only shows a message; one from 1 to the stock becomes
      the line's quantity and clears the message. Only the cart and the message
      ever change. */
  lemma TrasActualizarCorrecto(f: Formulario, index: int, n: int)
    requires Valida(f) && 0 <= index < |f.carrito|
    ensures IndiceProducto(f.productos, f.carrito[index].producto_id).Some?
    ensures var g := TrasActualizar(f, index, n);
      var p := f.productos[IndiceProducto(f.productos, f.carrito[index].producto_id).value];
      && g == f.(carrito := g.carrito, mensaje := g.mensaje)
      && (1 <= n && n > p.stock ==> g.carrito == f.carrito && g.mensaje == CantidadOSinStock)
      && (1 <= n <= p.stock ==> g.carrito[index].cantidad == n && g.mensaje == Ninguno)
    ensures var g := TrasActualizar(f, index, n);
      && Valida(g)
      && |g.carrito| == |f.carrito|
      && (forall j :: 0 <= j < |f.carrito| && j != index ==> g.carrito[j] == f.carrito[j])
      && g.carrito[index].producto_id == f.carrito[index].producto_id
      && (n < 1 ==> g == f)
      && (g.carrito != f.carrito ==> g.carrito[index].cantidad == n)
      && Total(g.carrito) == Total(f.carrito) - f.carrito[index].subtotal + g.carrito[index].subtotal
      && Ganancia(g.carrito) == Ganancia(f.carrito) - f.carrito[index].ganancia + g.carrito[index].ganancia
  {
    var g := TrasActualizar(f, index, n);
    var it := f.carrito[index];
    assert Coherente(f.productos, it);
    var k := IndiceProducto(f.productos, it.producto_id).value;
    ActualizarSalidas(f, index, n, k);
    if n < 1 || n > f.productos[k].stock {
      assert g.carrito == f.carrito;
    } else {
      var nuevo := Reescalar(it, n);
      assert g == f.(carrito := f.carrito[index := nuevo], mensaje := Ninguno);
      Escala(f.productos[k].precio, it.cantidad, n);
      Escala(f.productos[k].precio - f.productos[k].costo, it.cantidad, n);
      assert Coherente(f.productos, nuevo);
      SumCambio(f.carrito, index, nuevo, SubtotalDe);
      SumCambio(f.carrito, index, nuevo, GananciaDe);
    }
  }

  /** The three exits of `actualizarCantidad` once the line's product is found. */
  lemma ActualizarSalidas(f: Formulario, index: int, n: int, k: int)
    requires 0 <= index < |f.carrito| && f.carrito[index].cantidad != 0
    requires IndiceProducto(f.productos, f.carrito[index].producto_id) == Some(k)
    ensures var g := TrasActualizar(f, index, n);
      && (n < 1 ==> g == f)
      && (1 <= n && n > f.productos[k].stock ==> g == f.(mensaje := CantidadOSinStock))
      && (1 <= n <= f.productos[k].stock ==>
            g == f.(carrito := f.carrito[index := Reescalar(f.carrito[index], n)], mensaje := Ninguno))
  {
  }

  // ---------------------------------------------------------------------
  // eliminarItem
  // ---------------------------------------------------------------------

  /** `carrito.filter((_, i) => i !== index)`. */
  function SinPosicion<T>(s: seq<T>, index: int): (r: seq<T>)
    ensures 0 <= index < |s| ==> |r| == |s| - 1
    ensures !(0 <= index < |s|) ==> r == s
  {
    if 0 <= index < |s| then s[..index] + s[index + 1..] else s
  }

  /** Removing drops exactly the line at `index`, keeps the others in order,
      keeps the cart valid and lowers the totals by exactly that line. */
  lemma SinPosicionCorrecto(c: seq<ItemCarrito>, index: int)
    requires 0 <= index < |c|
    ensures var r := SinPosicion(c, index);
      && (forall j :: 0 <= j < index ==> r[j] == c[j])
      && (forall j :: index <= j < |r| ==> r[j] == c[j + 1])
      && Total(r) == Total(c) - c[index].subtotal
      && Ganancia(r) == Ganancia(c) - c[index].ganancia
  {
    assert c == c[..index] + [c[index]] + c[index + 1..];
    SumConcat(c[..index] + [c[index]], c[index + 1..], SubtotalDe);
    SumConcat(c[..index], [c[index]], SubtotalDe);
    SumConcat(c[..index], c[index + 1..], SubtotalDe);
    SumSingle(c[index], SubtotalDe);
    SumConcat(c[..index] + [c[index]], c[index + 1..], GananciaDe);
    SumConcat(c[..index], [c[index]], GananciaDe);
    SumConcat(c[..index], c[index + 1..], GananciaDe);
    SumSingle(c[index], GananciaDe);
  }

  function TrasEliminar(f: Formulario, index: int): Formulario {
    f.(carrito := SinPosicion(f.carrito, index))
  }

  lemma TrasEliminarValida(f: Formulario, index: int)
    requires Valida(f)
    ensures Valida(TrasEliminar(f, index))
  {
    var r := TrasEliminar(f, index).carrito;
    if 0 <= index < |f.carrito| {
      forall j | 0 <= j < |r| ensures Coherente(f.productos, r[j]) {
        if j < index {
          assert r[j] == f.carrito[j];
        } else {
          assert r[j] == f.carrito[j + 1];
        }
      }
    }
  }

  // ---------------------------------------------------------------------
  // Product search
  // ---------------------------------------------------------------------

  /** `productos.filter(p => p.nombre.toLowerCase().includes(busqueda.toLowerCase()))`. */
  function ProductosFiltrados(ps: seq<Producto>, busqueda: string): seq<Producto> {
    Filter(ps, (p: Producto) => Includes(ToLower(p.nombre), ToLower(busqueda)))
  }

  /** The search ignores letter case, and an empty search lists every product. */
  lemma ProductosFiltradosCorrecto(ps: seq<Producto>, busqueda: string)
    ensures ProductosFiltrados(ps, ToLower(busqueda)) == ProductosFiltrados(ps, busqueda)
    ensures busqueda == "" ==> ProductosFiltrados(ps, busqueda) == ps
  {
    ToLowerIdempotente(busqueda);
    if busqueda == "" {
      forall p | p in ps ensures Includes(ToLower(p.nombre), ToLower(busqueda)) {
        IncludesEmpty(ToLower(p.nombre));
      }
      FilterAll(ps, (p: Producto) => Includes(ToLower(p.nombre), ToLower(busqueda)));
    }
  }

  // ---------------------------------------------------------------------
  // Event choice
  // ---------------------------------------------------------------------

  function IdEvento(e: Eventos.Evento): real { e.id as real }

  /** The offered events: the active ones, largest id first. */
  function EventosActivos(data: seq<Eventos.Evento>): seq<Eventos.Evento> {
    SortDesc(Filter(data, (e: Eventos.Evento) => e.activo), IdEvento)
  }

  function TrasCargarEventos(f: Formulario, data: seq<Eventos.Evento>): Formulario {
    var activos := EventosActivos(data);
    f.(eventos := activos,
       eventoSeleccionado := if |activos| > 0 then Some(activos[0].id) else f.eventoSeleccionado)
  }

  /** The offered events are exactly the active ones, each as often as in the
      table, ordered by id, largest first, and the preselected one is an active
      event with the largest id. */
  lemma EventosActivosCorrecto(data: seq<Eventos.Evento>)
    ensures var r := EventosActivos(data);
      && multiset(r) == multiset(Filter(data, (e: Eventos.Evento) => e.activo))
      && (forall e :: e in r <==> e in data && e.activo)
      && (forall i, j :: 0 <= i < j < |r| ==> r[i].id >= r[j].id)
      && (|r| > 0 ==> forall e :: e in data && e.activo ==> e.id <= r[0].id)
      && (|r| == 0 <==> forall e :: e in data ==> !e.activo)
  {
    var act := Filter(data, (e: Eventos.Evento) => e.activo);
    var r := EventosActivos(data);
    SortDescSorted(act, IdEvento);
    forall e ensures e in r <==> e in act {
      assert e in r <==> e in multiset(r);
      assert e in act <==> e in multiset(act);
    }
    forall i, j | 0 <= i < j < |r| ensures r[i].id >= r[j].id {
      assert IdEvento(r[i]) >= IdEvento(r[j]);
    }
    if |r| > 0 {
      forall e | e in data && e.activo ensures e.id <= r[0].id {
        var j :| 0 <= j < |r| && r[j] == e;
        if j > 0 {
          assert IdEvento(r[0]) >= IdEvento(r[j]);
        }
      }
    } else {
      forall e | e in data ensures !e.activo {
      }
    }
  }

  /** After an event is created, the form preselects it when it next loads the
      event listing. */
  lemma PreseleccionTrasAlta(f: Formulario, fs: seq<FilaEvento>, req: Eventos.SolicitudEvento)
    requires Eventos.Alta(fs, req).Ok?
    ensures TrasCargarEventos(f, Eventos.Listar(fs + [Eventos.Fila(Eventos.Alta(fs, req).value)])).eventoSeleccionado
         == Some(Eventos.Alta(fs, req).value.id)
  {
    var e := Eventos.Alta(fs, req).value;
    var data := Eventos.Listar(fs + [Eventos.Fila(e)]);
    Eventos.AltaCorrecta(fs, req);
    Eventos.AltaListada(fs, req);
    assert data[|fs|] == e;
    EventosActivosCorrecto(data);
    var r := EventosActivos(data);
    assert e in data && e.activo;
    assert r[0] in data;
    var j :| 0 <= j < |data| && data[j] == r[0];
  }

  // ---------------------------------------------------------------------
  // Confirming the sale
  // ---------------------------------------------------------------------

  function ItemDe(it: ItemCarrito): ItemVenta {
    ItemVenta(it.producto_id, it.cantidad, it.subtotal, it.ganancia)
  }

  /** The request body: the cart lines, the payment fields, and `evento_id`
      only when an event is chosen. */
  function Payload(f: Formulario): Ventas.SolicitudVenta {
    Ventas.SolicitudVenta(
      Some(seq(|f.carrito|, i requires 0 <= i < |f.carrito| => ItemDe(f.carrito[i]))),
      Some(f.metodoPago), Some(f.efectivo), Some(f.debe),
      if f.eventoSeleccionado.Some? then Ref(f.eventoSeleccionado.value) else Ausente)
  }

  /** A sale the server creates from the form lands in the scope of the chosen
      event, or in the unscoped statistics when none is chosen; its total is the
      cart total. */
  lemma PayloadAlcance(f: Formulario, s: Estado, fecha: string)
    requires Ventas.Registrar(s, Payload(f), fecha).Ok?
    ensures var nv := Ventas.Registrar(s, Payload(f), fecha).value.ventas[|s.ventas|];
      && (f.eventoSeleccionado.None? ==> Estadisticas.SinEvento(nv))
      && (f.eventoSeleccionado.Some? && f.eventoSeleccionado.value != 0 ==>
            Estadisticas.DelEvento(f.eventoSeleccionado, nv) && !Estadisticas.SinEvento(nv))
      && nv.total == Some(Total(f.carrito))
  {
    Ventas.RegistrarVenta(s, Payload(f), fecha, Ventas.Registrar(s, Payload(f), fecha).value);
    var items := Payload(f).items.value;
    SumItems(f.carrito, items);
  }

  lemma {:induction false} SumItems(c: seq<ItemCarrito>, items: seq<ItemVenta>)
    requires |items| == |c| && forall i :: 0 <= i < |c| ==> items[i] == ItemDe(c[i])
    ensures Sum(items, Ventas.SubtotalItem) == Total(c)
    decreases |c|
  {
    if c != [] {
      SumItems(c[..|c| - 1], items[..|items| - 1]);
    }
  }

  /** The form checks each line against the whole stock, not against what the
      earlier lines of the same product already take: a cart the form accepts
      can be refused by the server. */
  lemma ValidacionPorLinea()
    ensures var p := Producto(1, "Alfajor", "", 10.0, 6.0, 3, None);
      var f := Formulario([p], [], None, Some(1), 2, [], Ninguno, "", 0.0, "efectivo", false);
      var g := TrasAgregar(TrasAgregar(f).(productoSeleccionado := Some(1), cantidad := 2));
      && |g.carrito| == 2 && Valida(g)
      && Ventas.Registrar(Estado([p], [], [], []), Payload(g), "").BadRequest?
  {
    var p := Producto(1, "Alfajor", "", 10.0, 6.0, 3, None);
    var f := Formulario([p], [], None, Some(1), 2, [], Ninguno, "", 0.0, "efectivo", false);
    var it := ItemCarrito(1, "Alfajor", 2, 20.0, 8.0);
    DosLineasEnCarrito(p, f, it);
    var g := TrasAgregar(TrasAgregar(f).(productoSeleccionado := Some(1), cantidad := 2));
    var iv := ItemDe(it);
    var its := Payload(g).items.value;
    assert |its| == 2 && its[0] == iv && its[1] == iv;
    assert its == [iv, iv];
    DosLineasSinStock(p, iv);
    Ventas.RegistrarFalla(Estado([p], [], [], []), Payload(g), "");
  }

  /** The page accepts the same two units of a three-unit product twice. */
  lemma DosLineasEnCarrito(p: Producto, f: Formulario, it: ItemCarrito)
    requires p == Producto(1, "Alfajor", "", 10.0, 6.0, 3, None)
    requires f == Formulario([p], [], None, Some(1), 2, [], Ninguno, "", 0.0, "efectivo", false)
    requires it == ItemCarrito(1, "Alfajor", 2, 20.0, 8.0)
    ensures TrasAgregar(TrasAgregar(f).(productoSeleccionado := Some(1), cantidad := 2)).carrito == [it, it]
    ensures Valida(TrasAgregar(TrasAgregar(f).(productoSeleccionado := Some(1), cantidad := 2)))
  {
    assert IndiceProducto([p], 1) == Some(0);
    assert Agregar([p], Some(1), 2) == Aceptado(it);
    var f2 := TrasAgregar(f).(productoSeleccionado := Some(1), cantidad := 2);
    assert f2.carrito == [it];
    assert Coherente([p], it);
  }

  /** The server's loop refuses the second of those two lines. */
  lemma DosLineasSinStock(p: Producto, iv: ItemVenta)
    requires p == Producto(1, "Alfajor", "", 10.0, 6.0, 3, None)
    requires iv == ItemVenta(1, 2, 20.0, 8.0)
    ensures Descontar([p], [iv, iv]).BadRequest?
  {
    var items := [iv, iv];
    assert [iv][..0] == [];
    assert Descontar([p], [iv]) == Paso([p], iv);
    assert IndiceProducto([p.(stock := 1)], 1) == Some(0);
    assert items[..1] == [iv];
    assert Descontar([p], items) == Paso([p.(stock := 1)], iv);
  }


  function TrasConfirmar(f: Formulario, ok: bool): Formulario {
    if ok then f.(mensaje := VentaRegistrada, carrito := [], efectivo := 0.0)
    else f.(mensaje := ErrorAlRegistrar)
  }

  // ---------------------------------------------------------------------
  // The page
  // ---------------------------------------------------------------------

  class AgregarVentas {
    var productos: seq<Producto>
    var eventos: seq<Eventos.Evento>
    var eventoSeleccionado: Option<int>
    var productoSeleccionado: Option<int>
    var cantidad: int
    var carrito: seq<ItemCarrito>
    var mensaje: Aviso
    var busqueda: string
    var efectivo: Dinero
    var metodoPago: string
    var debe: bool

    function Pagina(): Formulario
      reads this
    {
      Formulario(productos, eventos, eventoSeleccionado, productoSeleccionado, cantidad,
                 carrito, mensaje, busqueda, efectivo, metodoPago, debe)
    }

    predicate Valid()
      reads this
    {
      Valida(Pagina())
    }

    /** The page after mounting with the product list fetched. */
    constructor (ps: seq<Producto>)
      ensures Pagina() == Formulario(ps, [], None, None, 1, [], Ninguno, "", 0.0, "efectivo", false)
      ensures Valid()
    {
      productos, eventos, eventoSeleccionado, productoSeleccionado := ps, [], None, None;
      cantidad, carrito, mensaje, busqueda := 1, [], Ninguno, "";
      efectivo, metodoPago, debe := 0.0, "efectivo", false;
    }

    /** The event listing arrives. */
    method CargarEventos(data: seq<Eventos.Evento>)
      modifies this
      ensures Pagina() == TrasCargarEventos(old(Pagina()), data)
      ensures Valid() == old(Valid())
    {
      var activos := EventosActivos(data);
      eventos := activos;
      if |activos| > 0 {
        eventoSeleccionado := Some(activos[0].id);
      }
    }

    /** Typing in the search box clears the chosen product. */
    method Buscar(texto: string)
      modifies this
      ensures Pagina() == old(Pagina()).(busqueda := texto, productoSeleccionado := None)
      ensures Valid() == old(Valid())
    {
      busqueda := texto;
      productoSeleccionado := None;
    }

    /** Picking a product from the suggestions. */
    method ElegirProducto(p: Producto)
      modifies this
      ensures Pagina() == old(Pagina()).(productoSeleccionado := Some(p.id), busqueda := p.nombre)
      ensures Valid() == old(Valid())
    {
      productoSeleccionado := Some(p.id);
      busqueda := p.nombre;
    }

    /** The event select: the empty option is the general camp, any other the event's id. */
    method ElegirEvento(e: Option<int>)
      modifies this
      ensures Pagina() == old(Pagina()).(eventoSeleccionado := e)
      ensures Valid() == old(Valid())
    {
      eventoSeleccionado := e;
    }

    method AgregarAlCarrito()
      requires Valid()
      modifies this
      ensures Pagina() == TrasAgregar(old(Pagina()))
      ensures Valid()
    {
      ghost var f0 := Pagina();
      TrasAgregarValida(f0);
      var k := IndiceProducto(productos, productoSeleccionado.GetOr(0));
      if k.None? {
        return;
      }
      var producto := productos[k.value];
      if producto.precio <= 0.0 {
        mensaje := SinPrecio(producto.nombre);
        assert Pagina() == f0.(mensaje := SinPrecio(producto.nombre));
        return;
      }
      if producto.stock <= 0 {
        mensaje := SinStock(producto.nombre);
        assert Pagina() == f0.(mensaje := SinStock(producto.nombre));
        return;
      }
      if cantidad <= 0 || cantidad > producto.stock {
        mensaje := CantidadInvalida;
        assert Pagina() == f0.(mensaje := CantidadInvalida);
        return;
      }
      var subtotal := producto.precio * cantidad as real;
      var ganancia := (producto.precio - producto.costo) * cantidad as real;
      var item := ItemCarrito(producto.id, producto.nombre, cantidad, subtotal, ganancia);
      assert Agregar(f0.productos, f0.productoSeleccionado, f0.cantidad) == Aceptado(item);
      carrito := carrito + [item];
      cantidad := 1;
      productoSeleccionado := None;
      busqueda := "";
      mensaje := Ninguno;
      assert Pagina() == f0.(carrito := f0.carrito + [item], cantidad := 1, productoSeleccionado := None, busqueda := "", mensaje := Ninguno);
    }

    method ActualizarCantidad(index: int, nuevaCantidad: int)
      requires Valid() && 0 <= index < |carrito|
      modifies this
      ensures Pagina() == TrasActualizar(old(Pagina()), index, nuevaCantidad)
      ensures Valid()
    {
      ghost var f0 := Pagina();
      assert Coherente(productos, carrito[index]);
      assert Valida(TrasActualizar(f0, index, nuevaCantidad)) by {
        TrasActualizarCorrecto(f0, index, nuevaCantidad);
      }
      if nuevaCantidad < 1 {
        return;
      }
      var copia := carrito;
      var item := copia[index];
      var producto := IndiceProducto(productos, item.producto_id);
      if producto.None? || nuevaCantidad > productos[producto.value].stock {
        mensaje := CantidadOSinStock;
        assert Pagina() == f0.(mensaje := CantidadOSinStock);
        return;
      }
      var nuevoSubtotal := (item.subtotal / item.cantidad as real) * nuevaCantidad as real;
      var nuevaGanancia := (item.ganancia / item.cantidad as real) * nuevaCantidad as real;
      copia := copia[index := item.(cantidad := nuevaCantidad, subtotal := nuevoSubtotal, ganancia := nuevaGanancia)];
      assert Reescalar(item, nuevaCantidad) == item.(cantidad := nuevaCantidad, subtotal := nuevoSubtotal, ganancia := nuevaGanancia);
      assert copia == f0.carrito[index := Reescalar(item, nuevaCantidad)];
      mensaje := Ninguno;
      carrito := copia;
      assert Pagina() == f0.(carrito := copia, mensaje := Ninguno);
    }

    method EliminarItem(index: int)
      requires Valid()
      modifies this
      ensures Pagina() == TrasEliminar(old(Pagina()), index)
      ensures Valid()
    {
      TrasEliminarValida(Pagina(), index);
      carrito := SinPosicion(carrito, index);
    }

    /** The server's answer to the request built by `Payload` arrives; `ok` is `res.ok`. */
    method ConfirmarVenta(ok: bool)
      requires Valid()
      modifies this
      ensures Pagina() == TrasConfirmar(old(Pagina()), ok)
      ensures Valid()
    {
      if ok {
        mensaje := VentaRegistrada;
        carrito := [];
        efectivo := 0.0;
      } else {
        mensaje := ErrorAlRegistrar;
      }
    }
  }
}
