/** Records of the four spreadsheet tables (products, sales, sale lines,
    events), the results a route handler answers with, and the persisted store.

    A table is read whole into memory, changed, and written back whole; the
    class `Tablas` holds the last written contents of every table, and a handler
    assigns one of its fields exactly where the server writes that file back. */
module Modelo {
  import opened Comun

  /** A row of the products table. */
  datatype Producto = Producto(
    id: int,
    nombre: string,
    categoria: string,
    precio: Dinero,
    costo: Dinero,
    stock: int,
    imagen: Option<string>)

  /** The `evento_id` cell of a sale: missing (`undefined`), empty (`null` or `''`)
      or a number. */
  datatype RefEvento = Ausente | Vacio | Ref(n: int)

  /** JavaScript truthiness of an `evento_id` cell: only a non-zero number is truthy. */
  predicate EsVerdadero(r: RefEvento) {
    r.Ref? && r.n != 0
  }

  /** `Number(evento_id)`: `undefined` is NaN (None), `null` and `''` are 0. */
  function NumeroDe(r: RefEvento): Option<int> {
    match r
    case Ausente => None
    case Vacio => Some(0)
    case Ref(n) => Some(n)
  }

  /** A row of the sales table. `total` and `ganancia` are None when the cell does
      not hold a number (a PUT may store anything there). */
  datatype Venta = Venta(
    id: int,
    fecha: string,
    total: Option<Dinero>,
    ganancia: Option<Dinero>,
    metodoPago: Option<string>,
    efectivo: Option<Dinero>,
    debe: Option<bool>,
    evento_id: RefEvento)

  /** A row of the sale-lines table; `nombre` is `""` when the row carries no name. */
  datatype Detalle = Detalle(
    id: int,
    venta_id: int,
    producto_id: int,
    cantidad: int,
    subtotal: Dinero,
    ganancia: Dinero,
    nombre: string)

  /** A row of the events table as read back from the sheet: `id` is `Number(id)`
      (None for NaN) and `activo` is None for an empty cell. */
  datatype FilaEvento = FilaEvento(
    id: Option<int>,
    nombre: string,
    fecha: string,
    descripcion: string,
    activo: Option<bool>)

  /** The messages of the 400 answers. */
  datatype Error =
    | VentaVacia                       // "Venta vacía o malformateada"
    | ProductoNoEncontrado(id: int)    // "Producto ID {id} no encontrado"
    | StockInsuficiente(nombre: string)  // "Stock insuficiente para {nombre}"
    | IdInvalido                       // "ID inválido"
    | NombreYFechaRequeridos           // "Nombre y fecha son requeridos"
    | FaltanCampos                     // "Faltan campos requeridos"

  /** What a handler answers: a success value, a 400 with its message, or a 404. */
  datatype Resultado<T> = Ok(value: T) | BadRequest(error: Error) | NotFound

  /** The same answer with `v` as its success value. */
  function Responder<T, U>(r: Resultado<T>, v: U): Resultado<U> {
    match r
    case Ok(_) => Ok(v)
    case BadRequest(e) => BadRequest(e)
    case NotFound => NotFound
  }

  /** The answer without its success value (the handlers that answer a bare message). */
  function Descartar<T>(r: Resultado<T>): Resultado<()> {
    Responder(r, ())
  }

  /** The contents of the four tables at one moment. */
  datatype Estado = Estado(
    productos: seq<Producto>,
    ventas: seq<Venta>,
    detalle: seq<Detalle>,
    eventos: seq<FilaEvento>)

  /** The persisted tables. A missing file reads as an empty table. */
  class Tablas {
    var productos: seq<Producto>
    var ventas: seq<Venta>
    var detalle: seq<Detalle>
    var eventos: seq<FilaEvento>

    constructor ()
      ensures Contenido() == Estado([], [], [], [])
    {
      productos, ventas, detalle, eventos := [], [], [], [];
    }

    function Contenido(): Estado
      reads this
    {
      Estado(productos, ventas, detalle, eventos)
    }
  }

  // ---------------------------------------------------------------------
  // Lookups (Array.prototype.find / findIndex: the first match)
  // ---------------------------------------------------------------------

  function IndiceProducto(ps: seq<Producto>, id: int): (r: Option<nat>)
    ensures r.Some? ==> r.value < |ps| && ps[r.value].id == id
    ensures r.Some? ==> forall k :: 0 <= k < r.value ==> ps[k].id != id
    ensures r.None? ==> forall k :: 0 <= k < |ps| ==> ps[k].id != id
    decreases |ps|
  {
    if ps == [] then None
    else if ps[0].id == id then Some(0)
    else match IndiceProducto(ps[1..], id)
      case None => None
      case Some(k) => Some(k + 1)
  }

  /** Lookups by id only look at ids: changing other fields keeps every answer. */
  lemma {:induction false} IndiceProductoMismosIds(ps: seq<Producto>, qs: seq<Producto>, id: int)
    requires |ps| == |qs|
    requires forall k :: 0 <= k < |ps| ==> ps[k].id == qs[k].id
    ensures IndiceProducto(ps, id) == IndiceProducto(qs, id)
    decreases |ps|
  {
    if ps != [] && ps[0].id != id {
      IndiceProductoMismosIds(ps[1..], qs[1..], id);
    }
  }

  /** Sum of `cantidad` over the lines of product `id`. */
  function CantidadProducto(ds: seq<Detalle>, id: int): int
    decreases |ds|
  {
    if ds == [] then 0
    else CantidadProducto(ds[..|ds| - 1], id) + (if ds[|ds| - 1].producto_id == id then ds[|ds| - 1].cantidad else 0)
  }

  // ---------------------------------------------------------------------
  // New ids: Math.max over the existing ids, plus one
  // ---------------------------------------------------------------------

  /** `Math.max(...s)` on a non-empty list. */
  function Max(s: seq<int>): (m: int)
    requires |s| > 0
    ensures m in s
    ensures forall x :: x in s ==> x <= m
  {
    if |s| == 1 then s[0]
    else
      var rest := Max(s[1..]);
      assert forall x :: x in s ==> x == s[0] || x in s[1..];
      if s[0] >= rest then s[0] else rest
  }
}
