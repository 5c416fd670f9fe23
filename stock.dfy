/** Stock movements of the sale routes (backend/src/routes/ventas.ts): a sale
    takes each line's quantity from the first product with the line's id,
    checking it against the stock already reduced by the earlier lines; deleting
    a sale gives each of its stored lines back. */
module Stock {
  import opened Comun
  import opened Modelo

  /** One line of the `items` array a sale request carries. */
  datatype ItemVenta = ItemVenta(producto_id: int, cantidad: int, subtotal: Dinero, ganancia: Dinero)

  /** The quantity of product `id` the lines ask for, all together. */
  function CantidadPedida(items: seq<ItemVenta>, id: int): int
    decreases |items|
  {
    if items == [] then 0
    else
      var last := items[|items| - 1];
      CantidadPedida(items[..|items| - 1], id) + (if last.producto_id == id then last.cantidad else 0)
  }

  /** One turn of the POST loop on the current products. */
  function Paso(cur: seq<Producto>, it: ItemVenta): Resultado<seq<Producto>> {
    match IndiceProducto(cur, it.producto_id)
    case None => BadRequest(ProductoNoEncontrado(it.producto_id))
    case Some(k) =>
      if it.cantidad > cur[k].stock then BadRequest(StockInsuficiente(cur[k].nombre))
      else Ok(cur[k := cur[k].(stock := cur[k].stock - it.cantidad)])
  }

  /** The products after the loop has taken every line, or the first 400 it met. */
  function Descontar(ps: seq<Producto>, items: seq<ItemVenta>): Resultado<seq<Producto>>
    decreases |items|
  {
    if items == [] then Ok(ps)
    else match Descontar(ps, items[..|items| - 1])
      case Ok(cur) => Paso(cur, items[|items| - 1])
      case BadRequest(e) => BadRequest(e)
      case NotFound => NotFound
  }

  /** A refused sale names the product that is missing or short of stock. */
  lemma {:induction false} DescontarErrores(ps: seq<Producto>, items: seq<ItemVenta>)
    ensures !Descontar(ps, items).NotFound?
    ensures Descontar(ps, items).BadRequest? ==>
      match Descontar(ps, items).error
      case ProductoNoEncontrado(id) => exists it :: it in items && it.producto_id == id
      case StockInsuficiente(nombre) => exists p :: p in ps && p.nombre == nombre
      case _ => false
    decreases |items|
  {
    if items != [] {
      var init, it := items[..|items| - 1], items[|items| - 1];
      DescontarErrores(ps, init);
      assert forall x :: x in init ==> x in items;
      if Descontar(ps, init).Ok? {
        DescontarMueve(ps, init);
        var cur := Descontar(ps, init).value;
        MovidoMismosIds(ps, cur, id => -CantidadPedida(init, id), it.producto_id);
        if IndiceProducto(cur, it.producto_id).Some? {
          var m := IndiceProducto(cur, it.producto_id).value;
          assert cur[m].nombre == ps[m].nombre && ps[m] in ps;
        }
      }
    }
  }

  /** Once a prefix of the lines fails, the whole request fails the same way. */
  lemma {:induction false} DescontarFalla(ps: seq<Producto>, items: seq<ItemVenta>, j: nat)
    requires j <= |items|
    requires !Descontar(ps, items[..j]).Ok?
    ensures Descontar(ps, items) == Descontar(ps, items[..j])
    decreases |items| - j
  {
    if j < |items| {
      assert items[..j + 1][..j] == items[..j];
      DescontarFalla(ps, items, j + 1);
    } else {
      assert items[..j] == items;
    }
  }

  /** `t` is `ps` with the stock of the first product of each id moved by `delta(id)`
      and nothing else changed. */
  ghost predicate Movido(ps: seq<Producto>, t: seq<Producto>, delta: int -> int) {
    |t| == |ps| && forall k :: 0 <= k < |ps| ==>
      t[k] == ps[k].(stock := ps[k].stock + (if IndiceProducto(ps, ps[k].id) == Some(k) then delta(ps[k].id) else 0))
  }

  lemma MovidoMismosIds(ps: seq<Producto>, t: seq<Producto>, delta: int -> int, id: int)
    requires Movido(ps, t, delta)
    ensures IndiceProducto(t, id) == IndiceProducto(ps, id)
  {
    IndiceProductoMismosIds(ps, t, id);
  }

  /** A successful sale lowers the stock of the first product of each id by the
      quantity the lines ask for, in total, and changes nothing else. */
  lemma {:induction false} DescontarMueve(ps: seq<Producto>, items: seq<ItemVenta>)
    requires Descontar(ps, items).Ok?
    ensures Movido(ps, Descontar(ps, items).value, id => -CantidadPedida(items, id))
    decreases |items|
  {
    if items != [] {
      var init, it := items[..|items| - 1], items[|items| - 1];
      DescontarMueve(ps, init);
      var cur := Descontar(ps, init).value;
      var t := Descontar(ps, items).value;
      MovidoMismosIds(ps, cur, id => -CantidadPedida(init, id), it.producto_id);
      var m := IndiceProducto(cur, it.producto_id).value;
      forall k | 0 <= k < |ps|
        ensures t[k] == ps[k].(stock := ps[k].stock +
          (if IndiceProducto(ps, ps[k].id) == Some(k) then -CantidadPedida(items, ps[k].id) else 0))
      {
        if k != m && ps[k].id == it.producto_id {
          assert IndiceProducto(ps, ps[k].id) == Some(m);
        }
      }
    }
  }

  /** Line `i` can be served: its product exists and, counting this line and the
      earlier ones naming it, no more is asked than the product had. */
  ghost predicate Atendible(ps: seq<Producto>, items: seq<ItemVenta>, i: int)
    requires 0 <= i < |items|
  {
    && IndiceProducto(ps, items[i].producto_id).Some?
    && CantidadPedida(items[..i + 1], items[i].producto_id) <= ps[IndiceProducto(ps, items[i].producto_id).value].stock
  }

  /** The last line can be served after the earlier ones exactly when it is `Atendible`. */
  lemma PasoExito(ps: seq<Producto>, items: seq<ItemVenta>)
    requires |items| > 0 && Descontar(ps, items[..|items| - 1]).Ok?
    ensures Paso(Descontar(ps, items[..|items| - 1]).value, items[|items| - 1]).Ok? <==> Atendible(ps, items, |items| - 1)
  {
    var n := |items|;
    var init, it := items[..n - 1], items[n - 1];
    DescontarMueve(ps, init);
    var cur := Descontar(ps, init).value;
    MovidoMismosIds(ps, cur, id => -CantidadPedida(init, id), it.producto_id);
    assert items[..n] == items;
  }

  /** The sale goes through exactly when every line can be served. */
  lemma {:induction false} DescontarExito(ps: seq<Producto>, items: seq<ItemVenta>)
    ensures Descontar(ps, items).Ok? <==> forall i :: 0 <= i < |items| ==> Atendible(ps, items, i)
    decreases |items|
  {
    if items != [] {
      var n := |items|;
      var init := items[..n - 1];
      DescontarExito(ps, init);
      forall i | 0 <= i < n - 1 ensures Atendible(ps, items, i) <==> Atendible(ps, init, i) {
        assert items[..i + 1] == init[..i + 1];
      }
      if Descontar(ps, init).Ok? {
        PasoExito(ps, items);
      } else {
        var i :| 0 <= i < n - 1 && !Atendible(ps, init, i);
        assert !Atendible(ps, items, i);
      }
    }
  }

  /** A successful sale leaves no stock it touched below zero. */
  lemma {:induction false} DescontarNoNegativo(ps: seq<Producto>, items: seq<ItemVenta>)
    requires Descontar(ps, items).Ok?
    ensures var t := Descontar(ps, items).value;
      |t| == |ps| && forall k :: 0 <= k < |ps| ==> t[k] == ps[k] || t[k].stock >= 0
    decreases |items|
  {
    if items != [] {
      var init := items[..|items| - 1];
      DescontarNoNegativo(ps, init);
    }
  }

  /** One turn of the DELETE loop: the line's quantity goes back to the first
      product with its id, if there is one. */
  function Reponer(cur: seq<Producto>, d: Detalle): seq<Producto> {
    match IndiceProducto(cur, d.producto_id)
    case None => cur
    case Some(k) => cur[k := cur[k].(stock := cur[k].stock + d.cantidad)]
  }

  function Restaurar(ps: seq<Producto>, dets: seq<Detalle>): seq<Producto>
    decreases |dets|
  {
    if dets == [] then ps else Reponer(Restaurar(ps, dets[..|dets| - 1]), dets[|dets| - 1])
  }

  /** Deleting gives the first product of each id back the quantity of its lines. */
  lemma {:induction false} RestaurarMueve(ps: seq<Producto>, dets: seq<Detalle>)
    ensures Movido(ps, Restaurar(ps, dets), id => CantidadProducto(dets, id))
    decreases |dets|
  {
    if dets != [] {
      var init, d := dets[..|dets| - 1], dets[|dets| - 1];
      RestaurarMueve(ps, init);
      var cur := Restaurar(ps, init);
      var t := Restaurar(ps, dets);
      MovidoMismosIds(ps, cur, id => CantidadProducto(init, id), d.producto_id);
      forall k | 0 <= k < |ps|
        ensures t[k] == ps[k].(stock := ps[k].stock +
          (if IndiceProducto(ps, ps[k].id) == Some(k) then CantidadProducto(dets, ps[k].id) else 0))
      {
        if IndiceProducto(cur, d.producto_id).Some? {
          var m := IndiceProducto(cur, d.producto_id).value;
          if k != m && ps[k].id == d.producto_id {
            assert IndiceProducto(ps, ps[k].id) == Some(m);
          }
        }
      }
    }
  }

  /** Two opposite movements cancel out. */
  lemma MovidoInverso(ps: seq<Producto>, t: seq<Producto>, u: seq<Producto>, a: int -> int, b: int -> int)
    requires Movido(ps, t, a) && Movido(t, u, b)
    requires forall id :: a(id) + b(id) == 0
    ensures u == ps
  {
    forall k | 0 <= k < |ps| ensures u[k] == ps[k] {
      MovidoMismosIds(ps, t, a, ps[k].id);
    }
  }
}
