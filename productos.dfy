/** The product routes: create with the next id, partial update, hard delete
    and lookup by id (backend/src/routes/productos.ts). */
module Productos {
  import opened Comun
  import opened Modelo

  /** Body of POST /api/productos: a field is None when the form did not send it
      (`null`/`undefined`). The uploaded image's stored file name is a separate
      argument, None when no file came with the request. */
  datatype SolicitudAlta = SolicitudAlta(
    nombre: Option<string>,
    categoria: Option<string>,
    precio: Option<Dinero>,
    costo: Option<Dinero>,
    stock: Option<int>)

  /** Body of PUT /api/productos/:id. Price, cost and stock are always written. */
  datatype SolicitudEdicion = SolicitudEdicion(
    nombre: Option<string>,
    categoria: Option<string>,
    precio: Dinero,
    costo: Dinero,
    stock: int)

  /** `ids.reduce((max, curr) => Math.max(max, curr), acc)`. */
  function MaxDesde(acc: int, ids: seq<int>): (m: int)
    ensures m >= acc
    ensures forall x :: x in ids ==> x <= m
    ensures m == acc || m in ids
    decreases |ids|
  {
    if ids == [] then acc
    else
      assert forall x :: x in ids ==> x == ids[0] || x in ids[1..];
      MaxDesde(if ids[0] > acc then ids[0] else acc, ids[1..])
  }

  function Ids(ps: seq<Producto>): seq<int> {
    seq(|ps|, k requires 0 <= k < |ps| => ps[k].id)
  }

  /** The id POST gives a new product: the largest id (at least 0) plus one, or 1 on an empty table. */
  function NuevoId(ps: seq<Producto>): int {
    if |ps| > 0 then MaxDesde(0, Ids(ps)) + 1 else 1
  }

  /** The new id is 1 on an empty table; otherwise it is one above the largest
      id, or 1 when no id is positive: positive, above every id in the table, and
      either 1 or one above some row's id. */
  lemma NuevoIdEsLibre(ps: seq<Producto>)
    ensures ps == [] ==> NuevoId(ps) == 1
    ensures NuevoId(ps) >= 1
    ensures forall k :: 0 <= k < |ps| ==> ps[k].id < NuevoId(ps)
    ensures NuevoId(ps) == 1 || exists k :: 0 <= k < |ps| && ps[k].id == NuevoId(ps) - 1
  {
    if |ps| > 0 && NuevoId(ps) != 1 {
      assert MaxDesde(0, Ids(ps)) in Ids(ps);
      var k :| 0 <= k < |ps| && Ids(ps)[k] == MaxDesde(0, Ids(ps));
      assert ps[k].id == NuevoId(ps) - 1;
    }
    forall k | 0 <= k < |ps| ensures ps[k].id < NuevoId(ps) {
      assert Ids(ps)[k] == ps[k].id;
      assert ps[k].id in Ids(ps);
    }
  }

  /** POST /api/productos on table `ps`: the table to write back, or a 400. */
  function Alta(ps: seq<Producto>, req: SolicitudAlta, imagen: Option<string>): Resultado<seq<Producto>> {
    if !Presente(req.nombre) || req.precio.None? || req.costo.None? || req.stock.None? then
      BadRequest(FaltanCampos)
    else
      Ok(ps + [Producto(
        NuevoId(ps),
        req.nombre.value,
        if Presente(req.categoria) then req.categoria.value else "",
        req.precio.value,
        req.costo.value,
        req.stock.value,
        imagen)])
  }

  /** POST fails exactly when the name is falsy or a price, cost or stock is missing;
      otherwise it appends one product whose id is new, with the sent fields, an
      empty category when none was sent, and the uploaded file name, keeping every
      existing row. */
  lemma AltaCorrecta(ps: seq<Producto>, req: SolicitudAlta, imagen: Option<string>)
    ensures Alta(ps, req, imagen).BadRequest? <==>
      req.nombre.None? || req.nombre == Some("") || req.precio.None? || req.costo.None? || req.stock.None?
    ensures Alta(ps, req, imagen).Ok? ==>
      var t := Alta(ps, req, imagen).value;
      && |t| == |ps| + 1 && t[..|ps|] == ps
      && t[|ps|].id >= 1
      && (forall k :: 0 <= k < |ps| ==> t[k].id != t[|ps|].id)
      && t[|ps|].nombre == req.nombre.value
      && t[|ps|].categoria == (if Presente(req.categoria) then req.categoria.value else "")
      && t[|ps|].precio == req.precio.value && t[|ps|].costo == req.costo.value
      && t[|ps|].stock == req.stock.value
      && t[|ps|].imagen == imagen
  {
    NuevoIdEsLibre(ps);
    if Alta(ps, req, imagen).Ok? {
      assert Alta(ps, req, imagen).value[..|ps|] == ps;
    }
  }

  method CrearProducto(db: Tablas, req: SolicitudAlta, imagen: Option<string>) returns (r: Resultado<()>)
    modifies db
    ensures var spec := Alta(old(db.productos), req, imagen);
      && r == Descartar(spec)
      && db.productos == (if spec.Ok? then spec.value else old(db.productos))
    ensures db.ventas == old(db.ventas) && db.detalle == old(db.detalle) && db.eventos == old(db.eventos)
  {
    var productos := db.productos;
    if req.nombre.None? || req.nombre.value == "" || req.precio.None? || req.costo.None? || req.stock.None? {
      return BadRequest(FaltanCampos);
    }
    var id := NuevoId(productos);
    var categoria := if req.categoria.Some? && req.categoria.value != "" then req.categoria.value else "";
    productos := productos + [Producto(id, req.nombre.value, categoria, req.precio.value,
                                       req.costo.value, req.stock.value, imagen)];
    db.productos := productos;  // guardarExcel(PRODUCTOS_FILE, productos)
    r := Ok(());
  }

  /** The edited row: a falsy name, a missing category and a missing upload keep the
      old value; price, cost and stock are always replaced; the id is never touched. */
  function Editar(p: Producto, req: SolicitudEdicion, imagen: Option<string>): Producto {
    p.(nombre := if Presente(req.nombre) then req.nombre.value else p.nombre,
       categoria := if req.categoria.Some? then req.categoria.value else p.categoria,
       precio := req.precio,
       costo := req.costo,
       stock := req.stock,
       imagen := if Presente(imagen) then imagen else p.imagen)
  }

  /** PUT /api/productos/:id on table `ps`; `id` is `Number(req.params.id)`. */
  function Edicion(ps: seq<Producto>, id: Option<int>, req: SolicitudEdicion, imagen: Option<string>): Resultado<seq<Producto>> {
    if id.None? then NotFound
    else match IndiceProducto(ps, id.value)
      case None => NotFound
      case Some(k) => Ok(ps[k := Editar(ps[k], req, imagen)])
  }

  /** PUT answers 404 exactly when no product has the id; otherwise it rewrites the
      first product with that id and no other row, keeping its id: price, cost and
      stock are replaced, a non-empty name, a sent category and a non-empty upload
      replace the old ones, which are kept otherwise; applying the same request
      again changes nothing more. */
  lemma EdicionCorrecta(ps: seq<Producto>, id: Option<int>, req: SolicitudEdicion, imagen: Option<string>)
    ensures Edicion(ps, id, req, imagen).NotFound? <==>
      id.None? || forall k :: 0 <= k < |ps| ==> ps[k].id != id.value
    ensures Edicion(ps, id, req, imagen).Ok? ==>
      var t := Edicion(ps, id, req, imagen).value;
      var k := IndiceProducto(ps, id.value).value;
      && |t| == |ps|
      && (forall j :: 0 <= j < |ps| && j != k ==> t[j] == ps[j])
      && t[k].id == id.value
      && t[k].precio == req.precio && t[k].costo == req.costo && t[k].stock == req.stock
      && (Presente(req.nombre) ==> t[k].nombre == req.nombre.value)
      && (req.nombre.None? || req.nombre == Some("") ==> t[k].nombre == ps[k].nombre)
      && (req.categoria.Some? ==> t[k].categoria == req.categoria.value)
      && (req.categoria.None? ==> t[k].categoria == ps[k].categoria)
      && (Presente(imagen) ==> t[k].imagen == imagen)
      && (!Presente(imagen) ==> t[k].imagen == ps[k].imagen)
      && Edicion(t, id, req, imagen) == Ok(t)
  {
    if Edicion(ps, id, req, imagen).Ok? {
      var t := Edicion(ps, id, req, imagen).value;
      var k := IndiceProducto(ps, id.value).value;
      IndiceProductoMismosIds(ps, t, id.value);
      assert t[k := Editar(t[k], req, imagen)] == t;
    }
  }

  method ActualizarProducto(db: Tablas, id: Option<int>, req: SolicitudEdicion, imagen: Option<string>)
    returns (r: Resultado<()>)
    modifies db
    ensures var spec := Edicion(old(db.productos), id, req, imagen);
      && r == Descartar(spec)
      && db.productos == (if spec.Ok? then spec.value else old(db.productos))
    ensures db.ventas == old(db.ventas) && db.detalle == old(db.detalle) && db.eventos == old(db.eventos)
  {
    var productos := db.productos;
    var idx := if id.Some? then IndiceProducto(productos, id.value) else None;
    if idx.None? {
      return NotFound;
    }
    var k := idx.value;
    productos := productos[k := Editar(productos[k], req, imagen)];
    db.productos := productos;  // guardarExcel(PRODUCTOS_FILE, productos)
    r := Ok(());
  }

  /** `productos.filter(p => p.id !== id)`. */
  function SinId(ps: seq<Producto>, id: Option<int>): seq<Producto> {
    Filter(ps, (p: Producto) => id.None? || p.id != id.value)
  }

  /** DELETE /api/productos/:id on table `ps`: 404 when nothing was removed. */
  function Baja(ps: seq<Producto>, id: Option<int>): Resultado<seq<Producto>> {
    var nuevos := SinId(ps, id);
    if |nuevos| == |ps| then NotFound else Ok(nuevos)
  }

  /** DELETE answers 404 exactly when no product has the id; otherwise it removes
      every product with that id and nothing else (the kept rows and the dropped
      ones share out the table), and keeps the others in their order: the rows kept
      from any prefix of the table start the new table. */
  lemma {:induction false} BajaCorrecta(ps: seq<Producto>, id: Option<int>)
    ensures Baja(ps, id).NotFound? <==> id.None? || forall k :: 0 <= k < |ps| ==> ps[k].id != id.value
    ensures Baja(ps, id).Ok? ==>
      var t := Baja(ps, id).value;
      && (forall p :: p in t <==> p in ps && p.id != id.value)
      && |t| < |ps|
      && multiset(t) + multiset(ConId(ps, id.value)) == multiset(ps)
      && (forall i :: 0 <= i <= |ps| ==> SinId(ps[..i], id) <= t)
  {
    var p := (p: Producto) => id.None? || p.id != id.value;
    if id.None? || forall k :: 0 <= k < |ps| ==> ps[k].id != id.value {
      FilterAll(ps, p);
    } else {
      var k :| 0 <= k < |ps| && ps[k].id == id.value;
      FilterShorter(ps, p, k);
      FilterMultiset(ps, p, (q: Producto) => q.id == id.value);
      forall i | 0 <= i <= |ps| ensures SinId(ps[..i], id) <= SinId(ps, id) {
        assert ps == ps[..i] + ps[i..];
        FilterConcat(ps[..i], ps[i..], p);
      }
    }
  }

  /** The rows DELETE drops: those holding the id, in table order. */
  function ConId(ps: seq<Producto>, id: int): seq<Producto> {
    Filter(ps, (p: Producto) => p.id == id)
  }

  lemma {:induction false} FilterShorter(ps: seq<Producto>, p: Producto -> bool, k: nat)
    requires k < |ps| && !p(ps[k])
    ensures |Filter(ps, p)| < |ps|
    decreases |ps|
  {
    var init := ps[..|ps| - 1];
    if k < |ps| - 1 {
      assert init[k] == ps[k];
      FilterShorter(init, p, k);
    }
  }

  method EliminarProducto(db: Tablas, id: Option<int>) returns (r: Resultado<()>)
    modifies db
    ensures var spec := Baja(old(db.productos), id);
      && r == Descartar(spec)
      && db.productos == (if spec.Ok? then spec.value else old(db.productos))
    ensures db.ventas == old(db.ventas) && db.detalle == old(db.detalle) && db.eventos == old(db.eventos)
  {
    var productos := db.productos;
    var nuevos := SinId(productos, id);
    if |nuevos| == |productos| {
      return NotFound;
    }
    db.productos := nuevos;  // guardarExcel(PRODUCTOS_FILE, nuevos)
    r := Ok(());
  }

  /** GET /api/productos/:id: the first product with that id, or 404. */
  function Obtener(ps: seq<Producto>, id: Option<int>): (r: Resultado<Producto>)
    ensures r.NotFound? <==> id.None? || forall k :: 0 <= k < |ps| ==> ps[k].id != id.value
    ensures r.Ok? ==> r.value in ps && r.value.id == id.value
    ensures r.Ok? ==> exists k :: 0 <= k < |ps| && ps[k] == r.value && forall j :: 0 <= j < k ==> ps[j].id != id.value
  {
    if id.None? then NotFound
    else match IndiceProducto(ps, id.value)
      case None => NotFound
      case Some(k) => Ok(ps[k])
  }
}
