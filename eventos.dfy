/** The event routes (backend/src/routes/eventos.ts): the normalised listing,
    create with the next id, partial update, soft delete, and the two statistics
    routes, each an instance of `Estadisticas.Resumir`. */
module Eventos {
  import opened Comun
  import opened Modelo
  import opened Estadisticas

  /** An event as GET /api/eventos answers it. */
  datatype Evento = Evento(id: int, nombre: string, fecha: string, descripcion: string, activo: bool)

  /** GET /api/eventos, one row: a NaN or empty id becomes 0 and `activo` is
      true only for a cell holding `true`. */
  function Normalizar(f: FilaEvento): (e: Evento)
    ensures e.id == 0 <==> f.id.None? || f.id == Some(0)
    ensures f.id.Some? ==> e.id == f.id.value
    ensures e.activo <==> f.activo == Some(true)
    ensures e.nombre == f.nombre && e.fecha == f.fecha && e.descripcion == f.descripcion
  {
    Evento(f.id.GetOr(0), f.nombre, f.fecha, f.descripcion, f.activo == Some(true))
  }

  function Listar(fs: seq<FilaEvento>): seq<Evento> {
    seq(|fs|, k requires 0 <= k < |fs| => Normalizar(fs[k]))
  }

  /** The row an event is written as. */
  function Fila(e: Evento): FilaEvento {
    FilaEvento(Some(e.id), e.nombre, e.fecha, e.descripcion, Some(e.activo))
  }

  /** Listing a written event gives it back unchanged. */
  lemma NormalizarFila(e: Evento)
    ensures Normalizar(Fila(e)) == e
  {
  }

  /** Body of POST and PUT /api/eventos; a field is None when not sent. */
  datatype SolicitudEvento = SolicitudEvento(
    nombre: Option<string>,
    fecha: Option<string>,
    descripcion: Option<string>,
    activo: Option<bool>)

  /** `Math.max(...eventos.map(e => Number(e.id) || 0)) + 1`, or 1 on an empty table. */
  function NuevoIdEvento(fs: seq<FilaEvento>): int {
    if |fs| > 0 then Max(seq(|fs|, k requires 0 <= k < |fs| => fs[k].id.GetOr(0))) + 1 else 1
  }

  /** The event POST creates on table `fs`, or its 400. */
  function Alta(fs: seq<FilaEvento>, req: SolicitudEvento): Resultado<Evento> {
    if !Presente(req.nombre) || !Presente(req.fecha) then BadRequest(NombreYFechaRequeridos)
    else Ok(Evento(
      NuevoIdEvento(fs),
      req.nombre.value,
      req.fecha.value,
      if Presente(req.descripcion) then req.descripcion.value else "",
      true))
  }

  /** POST fails exactly when the name or the date is falsy; otherwise the new event
      is active, takes the request's name, date and non-empty description (else
      an empty one), and lists with an id above every
      id the listing showed before (1 on an empty table). */
  lemma AltaCorrecta(fs: seq<FilaEvento>, req: SolicitudEvento)
    ensures Alta(fs, req).BadRequest? <==>
      req.nombre.None? || req.nombre == Some("") || req.fecha.None? || req.fecha == Some("")
    ensures Alta(fs, req).Ok? ==>
      var e := Alta(fs, req).value;
      && e.activo
      && e.nombre == req.nombre.value && e.fecha == req.fecha.value
      && (!Presente(req.descripcion) ==> e.descripcion == "")
      && (Presente(req.descripcion) ==> e.descripcion == req.descripcion.value)
      && (fs == [] ==> e.id == 1)
      && (forall k :: 0 <= k < |fs| ==> Normalizar(fs[k]).id < e.id)
  {
    if |fs| > 0 {
      var ids := seq(|fs|, k requires 0 <= k < |fs| => fs[k].id.GetOr(0));
      forall k | 0 <= k < |fs| ensures Normalizar(fs[k]).id < NuevoIdEvento(fs) {
        assert ids[k] in ids;
      }
    }
  }

  /** After a successful POST the listing is the old listing plus the new event at the end. */
  lemma AltaListada(fs: seq<FilaEvento>, req: SolicitudEvento)
    requires Alta(fs, req).Ok?
    ensures Listar(fs + [Fila(Alta(fs, req).value)]) == Listar(fs) + [Alta(fs, req).value]
  {
  }

  method CrearEvento(db: Tablas, req: SolicitudEvento) returns (r: Resultado<Evento>)
    modifies db
    ensures r == Alta(old(db.eventos), req)
    ensures db.eventos == (if r.Ok? then old(db.eventos) + [Fila(r.value)] else old(db.eventos))
    ensures db.productos == old(db.productos) && db.ventas == old(db.ventas) && db.detalle == old(db.detalle)
  {
    if req.nombre.None? || req.nombre.value == "" || req.fecha.None? || req.fecha.value == "" {
      return BadRequest(NombreYFechaRequeridos);
    }
    var eventos := db.eventos;
    var nuevoId := NuevoIdEvento(eventos);
    var descripcion := if req.descripcion.Some? && req.descripcion.value != "" then req.descripcion.value else "";
    var nuevo := Evento(nuevoId, req.nombre.value, req.fecha.value, descripcion, true);
    eventos := eventos + [Fila(nuevo)];
    db.eventos := eventos;  // guardarExcel(EVENTOS_FILE, eventos)
    r := Ok(nuevo);
  }

  /** `findIndex(e => Number(e.id) === id)`. */
  function IndiceEvento(fs: seq<FilaEvento>, id: Option<int>): (r: Option<nat>)
    ensures r.Some? ==> r.value < |fs| && MismoNumero(fs[r.value].id, id)
    ensures r.Some? ==> forall k :: 0 <= k < r.value ==> !MismoNumero(fs[k].id, id)
    ensures r.None? ==> forall k :: 0 <= k < |fs| ==> !MismoNumero(fs[k].id, id)
    decreases |fs|
  {
    if fs == [] then None
    else if MismoNumero(fs[0].id, id) then Some(0)
    else match IndiceEvento(fs[1..], id)
      case None => None
      case Some(k) => Some(k + 1)
  }

  lemma {:induction false} IndiceEventoMismosIds(fs: seq<FilaEvento>, gs: seq<FilaEvento>, id: Option<int>)
    requires |fs| == |gs|
    requires forall k :: 0 <= k < |fs| ==> fs[k].id == gs[k].id
    ensures IndiceEvento(fs, id) == IndiceEvento(gs, id)
    decreases |fs|
  {
    if fs != [] && !MismoNumero(fs[0].id, id) {
      IndiceEventoMismosIds(fs[1..], gs[1..], id);
    }
  }

  /** The merged row: falsy name and date keep the old ones, description and
      `activo` change only when sent. */
  function Editar(f: FilaEvento, req: SolicitudEvento): FilaEvento {
    f.(nombre := if Presente(req.nombre) then req.nombre.value else f.nombre,
       fecha := if Presente(req.fecha) then req.fecha.value else f.fecha,
       descripcion := if req.descripcion.Some? then req.descripcion.value else f.descripcion,
       activo := if req.activo.Some? then req.activo else f.activo)
  }

  /** PUT /api/eventos/:id on table `fs`. */
  function Edicion(fs: seq<FilaEvento>, id: Option<int>, req: SolicitudEvento): Resultado<seq<FilaEvento>> {
    match IndiceEvento(fs, id)
    case None => NotFound
    case Some(k) => Ok(fs[k := Editar(fs[k], req)])
  }

  /** PUT answers 404 exactly when no row's id equals the path id; otherwise it
      rewrites only the first such row, keeps its id, takes a non-empty name or
      date and any sent description or `activo`, keeps the old value otherwise,
      and sending the same request again changes nothing more. */
  lemma EdicionCorrecta(fs: seq<FilaEvento>, id: Option<int>, req: SolicitudEvento)
    ensures Edicion(fs, id, req).NotFound? <==> forall k :: 0 <= k < |fs| ==> !MismoNumero(fs[k].id, id)
    ensures Edicion(fs, id, req).Ok? ==>
      var t := Edicion(fs, id, req).value;
      var k := IndiceEvento(fs, id).value;
      && |t| == |fs|
      && (forall j :: 0 <= j < |fs| && j != k ==> t[j] == fs[j])
      && t[k].id == fs[k].id
      && (Presente(req.nombre) ==> t[k].nombre == req.nombre.value)
      && (!Presente(req.nombre) ==> t[k].nombre == fs[k].nombre)
      && (Presente(req.fecha) ==> t[k].fecha == req.fecha.value)
      && (!Presente(req.fecha) ==> t[k].fecha == fs[k].fecha)
      && (req.descripcion.Some? ==> t[k].descripcion == req.descripcion.value)
      && (req.descripcion.None? ==> t[k].descripcion == fs[k].descripcion)
      && (req.activo.None? ==> t[k].activo == fs[k].activo)
      && (req.activo.Some? ==> Normalizar(t[k]).activo == req.activo.value)
      && Edicion(t, id, req) == Ok(t)
  {
    if Edicion(fs, id, req).Ok? {
      var t := Edicion(fs, id, req).value;
      var k := IndiceEvento(fs, id).value;
      IndiceEventoMismosIds(fs, t, id);
      assert t[k := Editar(t[k], req)] == t;
    }
  }

  method ActualizarEvento(db: Tablas, id: Option<int>, req: SolicitudEvento) returns (r: Resultado<FilaEvento>)
    modifies db
    ensures var spec := Edicion(old(db.eventos), id, req);
      && (spec.Ok? <==> r.Ok?)
      && (r.Ok? ==> r.value == spec.value[IndiceEvento(old(db.eventos), id).value])
      && (r.NotFound? <==> spec.NotFound?)
      && db.eventos == (if spec.Ok? then spec.value else old(db.eventos))
    ensures db.productos == old(db.productos) && db.ventas == old(db.ventas) && db.detalle == old(db.detalle)
  {
    var eventos := db.eventos;
    var indice := IndiceEvento(eventos, id);
    if indice.None? {
      return NotFound;
    }
    var k := indice.value;
    eventos := eventos[k := Editar(eventos[k], req)];
    db.eventos := eventos;  // guardarExcel(EVENTOS_FILE, eventos)
    r := Ok(eventos[k]);
  }

  /** DELETE /api/eventos/:id on table `fs`: the row is kept, marked inactive. */
  function Baja(fs: seq<FilaEvento>, id: Option<int>): Resultado<seq<FilaEvento>> {
    match IndiceEvento(fs, id)
    case None => NotFound
    case Some(k) => Ok(fs[k := fs[k].(activo := Some(false))])
  }

  /** DELETE answers 404 exactly when no row has the id; otherwise the table keeps its
      length, only `activo` of the first matching row changes, the listing shows that
      event inactive, and deleting again leaves the table as it is. */
  lemma BajaCorrecta(fs: seq<FilaEvento>, id: Option<int>)
    ensures Baja(fs, id).NotFound? <==> forall k :: 0 <= k < |fs| ==> !MismoNumero(fs[k].id, id)
    ensures Baja(fs, id).Ok? ==>
      var t := Baja(fs, id).value;
      var k := IndiceEvento(fs, id).value;
      && |t| == |fs|
      && (forall j :: 0 <= j < |fs| && j != k ==> t[j] == fs[j])
      && t[k].id == fs[k].id && t[k].nombre == fs[k].nombre
      && t[k].fecha == fs[k].fecha && t[k].descripcion == fs[k].descripcion
      && !Normalizar(t[k]).activo
      && Baja(t, id) == Ok(t)
  {
    if Baja(fs, id).Ok? {
      var t := Baja(fs, id).value;
      var k := IndiceEvento(fs, id).value;
      IndiceEventoMismosIds(fs, t, id);
      assert t[k := t[k].(activo := Some(false))] == t;
    }
  }

  method EliminarEvento(db: Tablas, id: Option<int>) returns (r: Resultado<()>)
    modifies db
    ensures var spec := Baja(old(db.eventos), id);
      && r == Descartar(spec)
      && db.eventos == (if spec.Ok? then spec.value else old(db.eventos))
    ensures db.productos == old(db.productos) && db.ventas == old(db.ventas) && db.detalle == old(db.detalle)
  {
    var eventos := db.eventos;
    var indice := IndiceEvento(eventos, id);
    if indice.None? {
      return NotFound;
    }
    var k := indice.value;
    eventos := eventos[k := eventos[k].(activo := Some(false))];
    db.eventos := eventos;  // guardarExcel(EVENTOS_FILE, eventos)
    r := Ok(());
  }

  /** The selection of GET /api/eventos/campamento/estadisticas, as written: a falsy,
      empty, null or undefined `evento_id`. An empty cell and a null one are both
      `Vacio` here, so the source's `=== ''` and `=== null` tests appear as the same
      test twice. */
  predicate SinEventoComoEscrito(v: Venta) {
    !EsVerdadero(v.evento_id) || v.evento_id == Vacio || v.evento_id == Vacio || v.evento_id == Ausente
  }

  /** GET /api/eventos/campamento/estadisticas is the pipeline on the unscoped sales. */
  method EstadisticasCampamento(db: Tablas) returns (r: Resumen)
    ensures r == Resumir(db.ventas, db.detalle, SinEvento)
  {
    r := CalcularResumen(db.ventas, db.detalle, SinEventoComoEscrito);
    ResumirCongruente(db.ventas, db.detalle, SinEventoComoEscrito, SinEvento);
  }

  /** GET /api/eventos/:id/estadisticas is the pipeline on the sales of event `id`. */
  method EstadisticasEvento(db: Tablas, id: Option<int>) returns (r: Resumen)
    ensures r == Resumir(db.ventas, db.detalle, v => DelEvento(id, v))
  {
    r := CalcularResumen(db.ventas, db.detalle, (v: Venta) => MismoNumero(NumeroDe(v.evento_id), id));
    ResumirCongruente(db.ventas, db.detalle, (v: Venta) => MismoNumero(NumeroDe(v.evento_id), id), v => DelEvento(id, v));
  }
}
