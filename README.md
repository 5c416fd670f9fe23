# VentasComunicacion — a verified model of the sales core

VentasComunicacion is a small point-of-sale application for a youth camp. An
Express backend keeps four spreadsheet tables: products, sales, sale lines
("detalle") and events. A React frontend has two pages that this model covers.
On "Agregar ventas" the seller fills a cart and confirms a sale. On "Ver ventas"
the sales are listed, filtered, edited, deleted and summed per event.

This Dafny project models:

- **Backend routes.**
  - `backend/src/routes/productos.ts` (create, edit, delete, fetch one product).
  - `backend/src/routes/eventos.ts` (list, create, edit, soft-delete events, and the two statistics routes).
  - `backend/src/routes/ventas.ts` (joined listing, create a sale with its stock check, delete with stock restore, partial update, and the camp statistics).
- **Frontend pages.**
  - `src/pages/AgregarVentass.tsx`: the cart, its totals, the product search, event preselection and the POST payload.
  - `src/pages/VerVentas.tsx`: the filters, the money totals, statistics per event, delete and inline edit.

How the model is laid out:

- **Tables.** The four tables are fields of the class `Modelo.Tablas`.
- **Handlers.** Each route is a method that copies the tables, works on the copies, and assigns the fields only where the route writes a spreadsheet.
- **Specifications.** Each handler's `ensures` ties its answer and the new tables to a pure function of the old ones: `Alta`, `Edicion`, `Baja`, `Registrar`, `Eliminacion`, `Modificacion` and `Resumir`. The lemmas about those functions state what the routes promise.
- **Pages.** Each page is a class whose fields are the component's state. Every event handler is a method whose `ensures` gives the new state as a pure transition (`TrasAgregar`, `TrasActualizar` and so on), and lemmas state the properties of those transitions.

How JavaScript values are represented:

- Money is `real`. Ids, stock and quantities are `int`.
- `Number(x)` on an id is `Option<int>`, where `None` is `NaN`.
- A sale's `evento_id` cell is `Ausente | Vacio | Ref(n)`. These stand for `undefined`, an empty cell or `null`, and a number. A reference is "truthy" exactly for `Ref(n)` with `n != 0`.

Behaviours of the code that the proofs make explicit:

- **Event id 0.** A sale with event id 0 counts both as a general-camp sale and as a sale of event 0 (`Estadisticas.AlcanceCero`).
- **Sale whose event row is missing.** The listing labels it "Campamento Adolescentes 2025", but the camp statistics leave it out (`Ventas.EtiquetaSinAlcance`).
- **Stock check per cart line.** The cart checks each line against the whole stock. Two lines of the same product can therefore pass in the page and still be refused by POST `/api/ventas` (`Carrito.ValidacionPorLinea`).
- **Inline edits.** An edit on "Ver ventas" changes every listed sale with that id. The PUT route changes only the first row with the id.
- **Empty product selection.** An empty selection is looked up as product id 0 (`Number("")`).

## Model

| member | source | states |
|---|---|---|
| Modelo.Tablas.constructor | backend/src/utils/excel.ts:4-9 | before any write every table reads as empty |
| Modelo.IndiceProducto | backend/src/routes/ventas.ts:131 | the found index holds the id and no earlier row does; None exactly when no row has the id |
| Modelo.IndiceProductoMismosIds | backend/src/routes/ventas.ts:131 | the lookup depends only on the ids, so rewriting stock or names never moves it |
| Modelo.Max | backend/src/routes/ventas.ts:121 | the maximum is in the list and bounds every element |
| Productos.MaxDesde | backend/src/routes/productos.ts:53 | the reduce from the start value is the largest of that value and the ids: at least each of them, and equal to one of them |
| Productos.NuevoIdEsLibre | backend/src/routes/productos.ts:51-54 | the new product id is 1 on an empty table; otherwise it is at least 1, above every existing id, and either 1 or one above some existing id (the largest id plus one, or 1 when no id is positive) |
| Productos.AltaCorrecta | backend/src/routes/productos.ts:41-64 | 400 exactly when the name is falsy or a price, cost or stock is missing; otherwise one row is appended with a fresh id, the request's name, price, cost, stock and image, the sent category or an empty one for a falsy category; every old row is kept |
| Productos.CrearProducto | backend/src/routes/productos.ts:41-66 | answers as `Alta` and writes only the product table, only on success |
| Productos.EdicionCorrecta | backend/src/routes/productos.ts:70-94 | 404 exactly when no product has the id; otherwise only the first such row changes, keeping its id and taking the new numbers; a non-empty name, a sent category and a non-empty upload replace the old ones, and the old ones are kept otherwise; repeating the request changes nothing |
| Productos.ActualizarProducto | backend/src/routes/productos.ts:70-95 | answers as `Edicion` and writes only the product table, only on success |
| Productos.BajaCorrecta | backend/src/routes/productos.ts:98-110 | 404 exactly when no product has the id (a NaN id matches nothing); otherwise exactly the rows with other ids remain, the removed rows are exactly those with the id, the table shrinks, and the kept rows stay in table order |
| Productos.FilterShorter | backend/src/routes/productos.ts:102-104 | filtering out a present row makes the list strictly shorter, which is what separates 404 from success |
| Productos.EliminarProducto | backend/src/routes/productos.ts:98-111 | answers as `Baja` and writes only the product table, only on success |
| Productos.Obtener | backend/src/routes/productos.ts:114-125 | 404 exactly when no product has the id; otherwise the first product with that id |
| Stock.DescontarErrores | backend/src/routes/ventas.ts:130-141 | the item loop never answers 404; a 400 names a missing product or a short stock |
| Stock.DescontarFalla | backend/src/routes/ventas.ts:133-140 | once a prefix of the items fails, the whole loop fails with the same answer |
| Stock.MovidoMismosIds | backend/src/routes/ventas.ts:145 | changing stocks keeps every product lookup where it was |
| Stock.DescontarMueve | backend/src/routes/ventas.ts:130-157 | a successful sale lowers each product's stock by the total quantity ordered of it and changes nothing else |
| Stock.PasoExito | backend/src/routes/ventas.ts:131-145 | one item passes exactly when its product exists and has enough stock left after the earlier items |
| Stock.DescontarExito | backend/src/routes/ventas.ts:130-157 | the sale passes exactly when every item can be served from what the earlier items left |
| Stock.DescontarNoNegativo | backend/src/routes/ventas.ts:138-145 | after a successful sale every product it touched has non-negative stock |
| Stock.RestaurarMueve | backend/src/routes/ventas.ts:196-202 | deleting a sale raises each product's stock by the quantity its lines held, and lines of missing products are skipped |
| Stock.MovidoInverso | backend/src/routes/ventas.ts:145-200 | a stock change followed by the opposite change gives the original table back |
| Estadisticas.IndiceGrupo | backend/src/routes/ventas.ts:266 | the group lookup finds the group with the product id, or says none has it |
| Estadisticas.CalcularResumen | backend/src/routes/ventas.ts:252-282 | the loop over the selected sales' lines computes `Resumir` |
| Estadisticas.DetallesIncluidos | backend/src/routes/ventas.ts:259-260 | a line is summarised exactly when it belongs to a selected sale |
| Estadisticas.AcumularClaves | backend/src/routes/ventas.ts:264-277 | one line adds a group only for a product not seen before, and keys stay unique |
| Estadisticas.AgruparClaves | backend/src/routes/ventas.ts:262-277 | there is one group per distinct product of the lines, and no other |
| Estadisticas.IndiceOtro | backend/src/routes/ventas.ts:266 | a line of one product leaves the presence of every other product's group unchanged |
| Estadisticas.CantidadAusente | backend/src/routes/ventas.ts:274-276 | a product with no line has zero quantity, subtotal and margin |
| Estadisticas.AgruparSumas | backend/src/routes/ventas.ts:274-276 | each group's quantity, subtotal and margin are the sums over that product's lines |
| Estadisticas.AcumularNombres | backend/src/routes/ventas.ts:266-272 | after one more line, every group is still named after the first line of its product |
| Estadisticas.AgruparNombres | backend/src/routes/ventas.ts:266-272 | each group is named after the first line of its product |
| Estadisticas.AgruparCorrecto | backend/src/routes/ventas.ts:262-277 | the grouping has unique keys, one group per product sold, with that product's sums and first-line name |
| Estadisticas.SinUno | backend/src/routes/ventas.ts:279-282 | removing one group keeps keys unique and removes that key |
| Estadisticas.UnicosAlFinal | backend/src/routes/ventas.ts:279-282 | appending a group with a new key keeps keys unique |
| Estadisticas.IdsUnicosPermutacion | backend/src/routes/ventas.ts:279-282 | reordering groups keeps their keys unique |
| Estadisticas.EntradasAscendentes | backend/src/routes/ventas.ts:279-280 | `Object.entries` lists the groups by ascending product id |
| Estadisticas.TopCorrecto | backend/src/routes/ventas.ts:279-282 | the top list has min(5, products sold) groups, drawn from the grouping, sorted by quantity descending with ties by ascending id, and every listed group precedes every omitted one (it sold more, or as much with a smaller product id), so ties at the cut keep the smaller ids |
| Estadisticas.TopOrdenado | backend/src/routes/ventas.ts:282 | a prefix of a sorted list is sorted |
| Estadisticas.TopDomina | backend/src/routes/ventas.ts:281-282 | in a sorted list every kept element precedes every dropped one: it sold at least as much, and among equal quantities has the smaller id |
| Estadisticas.ResumenVacio | backend/src/routes/ventas.ts:252-256 | with no selected sale the summary is zero sales, zero money and no products |
| Estadisticas.ResumirCongruente | backend/src/routes/ventas.ts:252 | two selections that agree on every sale give the same summary |
| Estadisticas.AlcancesDisjuntos | backend/src/routes/eventos.ts:134-193 | for a non-zero event id, no sale is both a camp sale and a sale of that event, and the two sale counts together never exceed the number of sales |
| Estadisticas.AlcanceCero | backend/src/routes/eventos.ts:134-193 | a sale with an empty event cell counts both as a camp sale and as a sale of event 0 |
| Eventos.Normalizar | backend/src/routes/eventos.ts:24-30 | a numeric id cell lists as that number, and the listed id is 0 exactly when the cell is missing or 0; the event is active exactly when the cell is true |
| Eventos.NormalizarFila | backend/src/routes/eventos.ts:24-61 | an event written by the routes lists back unchanged |
| Eventos.AltaCorrecta | backend/src/routes/eventos.ts:40-63 | 400 exactly when the name or the date is falsy; otherwise the event is active, keeps the name and date, takes a non-empty description and an empty one otherwise, and has an id above every listed id (1 on an empty table) |
| Eventos.AltaListada | backend/src/routes/eventos.ts:24-61 | after POST the listing is the old listing followed by the new event |
| Eventos.CrearEvento | backend/src/routes/eventos.ts:40-68 | answers as `Alta` and appends the row only on success |
| Eventos.IndiceEvento | backend/src/routes/eventos.ts:77 | `findIndex` by numeric id: the first match, or none |
| Eventos.IndiceEventoMismosIds | backend/src/routes/eventos.ts:77-106 | the lookup depends only on the id cells |
| Eventos.EdicionCorrecta | backend/src/routes/eventos.ts:71-92 | 404 exactly when no row has the id; otherwise only the first match changes and keeps its id; a non-empty name or date and a sent description or `activo` replace the stored ones, which are kept otherwise; repeating the request changes nothing |
| Eventos.ActualizarEvento | backend/src/routes/eventos.ts:71-98 | answers with the edited row as `Edicion` and writes only the event table |
| Eventos.BajaCorrecta | backend/src/routes/eventos.ts:101-114 | 404 exactly when no row has the id; otherwise only the first match is marked inactive, every other field is kept, and deleting again changes nothing |
| Eventos.EliminarEvento | backend/src/routes/eventos.ts:101-118 | answers as `Baja` and writes only the event table |
| Eventos.EstadisticasCampamento | backend/src/routes/eventos.ts:124-178 | the summary of the sales with a falsy event reference |
| Eventos.EstadisticasEvento | backend/src/routes/eventos.ts:181-235 | the summary of the sales whose numeric event reference equals the path id |
| Ventas.NuevoIdVentaLibre | backend/src/routes/ventas.ts:120-122 | the new sale id is 1 on an empty table and above every existing id |
| Ventas.NuevoIdDetalleLibre | backend/src/routes/ventas.ts:124-126 | the first new line id is 1 on an empty table and above every existing line id |
| Ventas.RegistrarErrores | backend/src/routes/ventas.ts:107-141 | "empty sale" exactly when the items are missing or empty; success exactly when the stock loop passes |
| Ventas.RegistrarVenta | backend/src/routes/ventas.ts:120-168 | a successful POST appends one sale whose id is above every old id, whose total and margin are the sums of the lines' subtotals and margins, and whose event is the one sent; the old sales stay as they were |
| Ventas.RegistrarPartes | backend/src/routes/ventas.ts:130-168 | a successful POST makes the sale table the old one plus the new sale, the line table the old one plus one row per item, and leaves the events alone |
| Ventas.LineasAnexadas | backend/src/routes/ventas.ts:147-156 | the appended lines keep the old rows as a prefix, add one row per item with consecutive ids counted up from the first free one, the item's product and quantity, and the sale's id |
| Ventas.RegistrarStock | backend/src/routes/ventas.ts:138-145 | the stock of each product falls by its ordered quantity, and every changed product stays non-negative |
| Ventas.DescontarSiguiente | backend/src/routes/ventas.ts:130-145 | the loop's state after item i+1 is one step from its state after item i |
| Ventas.SumSiguiente | backend/src/routes/ventas.ts:143-144 | the running totals grow by the current item's subtotal and margin |
| Ventas.NuevosSiguiente | backend/src/routes/ventas.ts:147-156 | the lines written after item i+1 are those after item i plus item i's line |
| Ventas.CrearVenta | backend/src/routes/ventas.ts:103-175 | answers as `Registrar` with the new id and writes all three tables only on success |
| Ventas.TomarItems | backend/src/routes/ventas.ts:130-157 | the item loop answers exactly as the stock check `Descontar`: the first missing product or short stock in order, otherwise the lowered stock; on success the running total and margin are the sums over the items and the line table gained one row per item |
| Ventas.IndiceVenta | backend/src/routes/ventas.ts:224 | the first sale with the id, or none |
| Ventas.EliminacionCorrecta | backend/src/routes/ventas.ts:177-211 | 400 exactly for a NaN id, 404 exactly when no sale has it; otherwise the sales and lines with that id go and nothing else (the kept and removed rows share out each table), the others remain once each in table order, the stock rises by the deleted lines, events are untouched |
| Ventas.FiltroSinUna | backend/src/routes/ventas.ts:205 | removing a present sale shortens the table |
| Ventas.EliminarVenta | backend/src/routes/ventas.ts:177-214 | answers as `Eliminacion` and writes only on success |
| Ventas.CantidadNuevos | backend/src/routes/ventas.ts:147-156 | the new lines hold, per product, exactly the quantity ordered |
| Ventas.LineasNuevas | backend/src/routes/ventas.ts:196-206 | with a fresh sale id the new lines are exactly that sale's lines and the rest are the old ones |
| Ventas.VentaNueva | backend/src/routes/ventas.ts:189-205 | the appended sale is found, and removing it leaves the old sales |
| Ventas.StockDeVuelta | backend/src/routes/ventas.ts:145-200 | restoring the lines a sale wrote undoes its stock decrease |
| Ventas.CrearYEliminar | backend/src/routes/ventas.ts:103-211 | on tables where every line belongs to a sale, deleting the sale just created gives back exactly the tables before it |
| Ventas.RegistrarIntegra | backend/src/routes/ventas.ts:120-168 | creating a sale keeps every line pointing at an existing sale |
| Ventas.EliminacionIntegra | backend/src/routes/ventas.ts:205-206 | deleting a sale with its lines keeps every line pointing at an existing sale |
| Ventas.RegistrarEnEstadisticas | backend/src/routes/ventas.ts:159-256 | a new sale raises the count, income and margin of every selection it falls in by one, its total and its margin, and leaves the others as they were |
| Ventas.ModificacionCorrecta | backend/src/routes/ventas.ts:216-240 | 400 for a NaN id, 404 when no sale has it; otherwise only the first match changes and keeps its id; each of date, total, margin, method, cash, debt and event takes the sent value and keeps the old one when absent; an empty body changes nothing and repeating the request changes nothing |
| Ventas.IndiceVentaMismosIds | backend/src/routes/ventas.ts:224 | the lookup depends only on the ids |
| Ventas.ActualizarVenta | backend/src/routes/ventas.ts:216-243 | answers as `Modificacion` and writes only the sale table |
| Ventas.VistaCorrecta | backend/src/routes/ventas.ts:68-95 | the listed sale keeps its fields; its event shows as empty with the camp name and date exactly when the reference is falsy or no event row matches, and otherwise with the first matching event's name and date; its lines are exactly its own, in order, each named after the first product with its id when that name is non-empty, and "Desconocido" otherwise |
| Ventas.EtiquetaSinAlcance | backend/src/routes/ventas.ts:83-252 | a sale with a truthy reference to a missing event is labelled as the camp but not counted among the camp's sales |
| Ventas.EstadisticasCampamento | backend/src/routes/ventas.ts:246-294 | the summary of the sales with a falsy event reference |
| Carrito.AgregarIgnorado | src/pages/AgregarVentass.tsx:118-119 | adding does nothing exactly when no product has the selected id |
| Carrito.AgregarAceptado | src/pages/AgregarVentass.tsx:117-148 | a line is added exactly when a product has the selected id, its price and stock are positive and the quantity is between 1 and the stock; the line prices that product at that quantity |
| Carrito.TrasAgregarValida | src/pages/AgregarVentass.tsx:117-155 | adding keeps every cart line consistent with its product |
| Carrito.TrasAgregarTotales | src/pages/AgregarVentass.tsx:139-162 | the total and margin grow by exactly the added line's amounts |
| Carrito.Escala | src/pages/AgregarVentass.tsx:102-103 | rescaling a line's unit amount by the new quantity is exact |
| Carrito.TrasActualizarCorrecto | src/pages/AgregarVentass.tsx:89-115 | a quantity below 1 changes nothing; one above the product's stock keeps the cart and shows "invalid quantity or out of stock"; one from 1 to the stock becomes that line's quantity and clears the message; only the cart and the message change, the other lines are kept, the cart stays consistent (subtotal = price times quantity) and the totals move by that line's difference |
| Carrito.SinPosicion | src/pages/AgregarVentass.tsx:158 | removing a valid position shortens the cart by one; an invalid position changes nothing |
| Carrito.SinPosicionCorrecto | src/pages/AgregarVentass.tsx:157-162 | the other lines keep their order and the totals fall by the removed line's amounts |
| Carrito.TrasEliminarValida | src/pages/AgregarVentass.tsx:157-159 | removing keeps the cart consistent |
| Carrito.ProductosFiltradosCorrecto | src/pages/AgregarVentass.tsx:164-166 | the search ignores case, and an empty search lists every product |
| Carrito.EventosActivosCorrecto | src/pages/AgregarVentass.tsx:72-82 | the list is a permutation of the active events (none dropped or duplicated), in descending id order, headed by the largest active id; it is empty exactly when no event is active |
| Carrito.PreseleccionTrasAlta | src/pages/AgregarVentass.tsx:79-82 | after an event is created, loading the page preselects it |
| Carrito.PayloadAlcance | src/pages/AgregarVentass.tsx:520-532 | a sale confirmed with no event counts for the camp; one confirmed with a non-zero event counts for that event and not the camp; its stored total is the cart total |
| Carrito.SumItems | src/pages/AgregarVentass.tsx:521 | the payload's item subtotals add up to the cart total |
| Carrito.ValidacionPorLinea | src/pages/AgregarVentass.tsx:131-148 | two lines of 2 against a stock of 3 pass the page but the POST answers 400 |
| Carrito.AgregarVentas.constructor | src/pages/AgregarVentass.tsx:30-43 | the initial page state |
| Carrito.AgregarVentas.CargarEventos | src/pages/AgregarVentass.tsx:71-82 | the page state after the events are loaded; the cart stays consistent exactly when it was |
| Carrito.AgregarVentas.ElegirEvento | src/pages/AgregarVentass.tsx:211 | only the selected event changes; the cart stays consistent exactly when it was |
| Carrito.AgregarVentas.Buscar | src/pages/AgregarVentass.tsx:247-251 | typing sets the search and clears the selection; the cart stays consistent exactly when it was |
| Carrito.AgregarVentas.ElegirProducto | src/pages/AgregarVentass.tsx:279-282 | picking a suggestion selects it and shows its name; the cart stays consistent exactly when it was |
| Carrito.AgregarVentas.AgregarAlCarrito | src/pages/AgregarVentass.tsx:117-155 | the state moves as `TrasAgregar` and the cart stays consistent |
| Carrito.AgregarVentas.ActualizarCantidad | src/pages/AgregarVentass.tsx:89-115 | the state moves as `TrasActualizar` and the cart stays consistent |
| Carrito.AgregarVentas.EliminarItem | src/pages/AgregarVentass.tsx:157-159 | the state moves as `TrasEliminar` and the cart stays consistent |
| Carrito.AgregarVentas.ConfirmarVenta | src/pages/AgregarVentass.tsx:539-548 | on success the cart and cash are cleared with a success message; otherwise only the error message is set |
| Historial.FiltradasCorrecto | src/pages/VerVentas.tsx:44-54 | only sales with lines are shown; with empty filters exactly those; the name filter ignores case |
| Historial.FiltroPorEvento | src/pages/VerVentas.tsx:49-51 | choosing a non-zero event id shows exactly the name-matching sales that reference that event |
| Historial.TotalMetodoCorrecto | src/pages/VerVentas.tsx:92-100 | the per-method total is the total of the sales paid that way |
| Historial.MetodosCubren | src/pages/VerVentas.tsx:92-105 | when every sale is cash or transfer, the two totals add up to the grand total |
| Historial.TextoInyectivo | src/pages/VerVentas.tsx:112 | two stats keys are equal exactly when their events are |
| Historial.IndiceClave | src/pages/VerVentas.tsx:115 | the group lookup finds the group with the key, or says none has it |
| Historial.EstadisticasPorEvento | src/pages/VerVentas.tsx:108-127 | the loop over the shown sales computes `PorEvento` |
| Historial.AcumularEventoUnicas | src/pages/VerVentas.tsx:115-121 | one sale keeps keys unique and leaves other keys' groups in place |
| Historial.IndiceClavePrefijo | src/pages/VerVentas.tsx:115 | appending groups of other keys does not move a key's group |
| Historial.AgruparEventosUnicas | src/pages/VerVentas.tsx:109-122 | the grouping has unique keys |
| Historial.DeClaveFinal | src/pages/VerVentas.tsx:111-112 | one more sale joins exactly its own key's group |
| Historial.GrupoOtraClave | src/pages/VerVentas.tsx:115-121 | a sale of another key leaves a group correct |
| Historial.GrupoMismaClave | src/pages/VerVentas.tsx:115-121 | a sale of the same key keeps its group correct |
| Historial.AgruparEventosCorrecto | src/pages/VerVentas.tsx:109-122 | every key's group exists exactly when some sale has that key, counts those sales, sums their totals and margins and is named after the first |
| Historial.IndiceClaveFinal | src/pages/VerVentas.tsx:116 | a group created for a new key is found at the end |
| Historial.AcumularEventoSumas | src/pages/VerVentas.tsx:119-121 | one sale raises the summed count, income and margin by one, its total and its margin |
| Historial.AgruparEventosSumas | src/pages/VerVentas.tsx:109-122 | the groups' counts, incomes and margins add up to the number of sales, the total money and the total margin |
| Historial.IndiceClaveDe | src/pages/VerVentas.tsx:115 | with unique keys a group is found by its own key |
| Historial.PorEventoCorrecto | src/pages/VerVentas.tsx:108-127 | one row per key present among the sales, each with its count, income, margin and first name; the rows add up to the page totals and are sorted by income descending |
| Historial.MovidoNombres | backend/src/routes/ventas.ts:72-73 | changing stocks does not change a listed product name |
| Historial.VistaTrasEliminar | backend/src/routes/ventas.ts:68-206 | deleting one sale leaves the listing of every other sale unchanged |
| Historial.ListadoSinVenta | src/pages/VerVentas.tsx:138 | listing the remaining sales is the old listing without that id |
| Historial.QuitarVentaSincroniza | src/pages/VerVentas.tsx:129-138 | after a successful DELETE the page's list equals what GET would now answer |
| Historial.EditarFiltradas | src/pages/VerVentas.tsx:437-487 | an inline edit that keeps the id and event commutes with the filters |
| Historial.EditarFinal | src/pages/VerVentas.tsx:441 | editing one more sale edits the prefix and that sale |
| Historial.EditarTotal | src/pages/VerVentas.tsx:437-442 | setting the total of the sales with an id moves the grand total by the new totals minus the old |
| Historial.EditarTotalUnico | src/pages/VerVentas.tsx:437-442 | with one such sale the grand total moves by the difference |
| Historial.GuardarSincroniza | src/pages/VerVentas.tsx:509-525 | saving stores the edited total and margin, and the method when set, and nothing else |
| Historial.VerVentas.constructor | src/pages/VerVentas.tsx:37-68 | the loaded page with empty filters and nothing being edited |
| Historial.VerVentas.FiltrarNombre | src/pages/VerVentas.tsx:39-54 | the shown list becomes the filter with the new name |
| Historial.VerVentas.FiltrarEvento | src/pages/VerVentas.tsx:40-54 | the shown list becomes the filter with the new event option |
| Historial.VerVentas.EliminarVenta | src/pages/VerVentas.tsx:129-144 | on success the sale leaves the list and nothing else changes |
| Historial.VerVentas.EmpezarEdicion | src/pages/VerVentas.tsx:550 | that sale becomes the one being edited |
| Historial.VerVentas.TerminarEdicion | src/pages/VerVentas.tsx:525-539 | editing ends on a successful save or on cancel |
| Historial.VerVentas.EditarCampo | src/pages/VerVentas.tsx:437-487 | every sale with the id takes the edited field |
| Comun.ToLowerIdempotente | src/pages/VerVentas.tsx:46 | lowering twice is lowering once, so filters ignore the case of the filter text |
| Comun.IntToStringInyectivo | src/pages/VerVentas.tsx:51 | different ids print differently, so the event filter never confuses two events |

## Left out

- Spreadsheet I/O (`leerExcel`/`guardarExcel`) is the `Tablas` fields. Missing sheets, `defval` handling and cell typing beyond the modelled options are left out.
- The multer upload is left out; the uploaded file name is a parameter.
- `Date.now`/`toISOString` is left out; the sale date is a parameter.
- Concurrency between requests is left out.
- The GET `/api/ventas` date sort (ventas.ts:97) is left out. `Ventas.Listado` keeps table order.
- `Ventas.NuevoIdVentaLibre`: NaN ids filtered out of `Math.max` and the `-Infinity` of an all-NaN table are not modelled. Ids are integers.
- `Eventos.AltaCorrecta`: the new id is only above the listed ids. It can be 0 or negative when every id is negative, as in the source.
- Floating-point rounding and `NaN` arithmetic in totals are left out. Money is exact `real`.
- The page sums treat a null total as 0, and a string total typed into an edit concatenates in JavaScript. Neither is modelled. Numbers are kept as `Option<real>`.
- `Productos.EdicionCorrecta`: the PUT's `Number(precio)` etc. of an absent field (NaN) is not modelled. The edit request carries the numbers as given.
- `Estadisticas.EntradasAscendentes`: `Object.entries` is modelled as ascending product id. This holds for non-negative integer ids only.
- Non-index event keys keep insertion order after the index keys, as in `Historial.EntradasEventos`.
- `toLowerCase` is ASCII-only here. Unicode case mapping is left out.
- `Ventas.Modificacion` merges only the known sale fields. Extra body fields are ignored.
- UI-only state is left out: `mostrarOpciones`, modals, the +/- buttons, change (`efectivo - total`), the debt flag beyond being sent.
- The other pages and components are not part of this model (Eventos.tsx, EditarProductos.tsx, AgregarProducto.tsx, Navbar, ModalResumenVenta, Layout, App).
- Fetch failures other than a non-ok answer are collapsed into `ok = false`.
- `Historial.GuardarSincroniza` is about the backend table only. The page list already shows the edit, so nothing is reloaded.
