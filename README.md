# Aromanza storefront — a Dafny model of its cart, pricing and catalogue logic

Aromanza is a React/TypeScript storefront for perfumes. This project models
the logic behind its pages, not their rendering:

- the cart context (`CarritoContext`): add, remove, increment, decrement, the
  derived total, and write-through to browser storage;
- the global zustand cart store (`CartStore`);
- the discount price of a product from its offer list (`PrecioDescuento`);
- the in-memory mock product and order services (`ProductoService`,
  `PedidoService`) and their shared id assignment (`MockIds`);
- the product-list hook with its pagination and CRUD calls (`UseProductos`);
- the index arithmetic of the offers carousel (`OffersCarousel`);
- the catalogue page's local cart and price display (`ProductosPage`);
- the product detail page's lookup, price display and quantity picker
  (`ProductoDetalle`);
- the admin and session route guards (`Routes`);
- the Mercado Pago checkout hand-off (`PagoMercadoPago`).

Pure computations are functions, and lemmas state their properties. React
state, the mock tables and browser storage are fields of classes whose
methods reassign them. Each mutator's `ensures` ties the new state to a
specification function of the old one. Every network outcome is a `Result` or
`Outcome` parameter of the method that awaits it. A storage read is a parameter tied
to a ghost snapshot of the storage entry (`requires saved == stored`).

JavaScript semantics are written out where they matter:
- `quantity || 1` treats 0 like a missing quantity (`CarritoContext.Qty`);
- `??` is `Option.GetOr`;
- `%` truncates toward zero (`OffersCarousel.JsRem`);
- `Math.max()` of no arguments is -Infinity (`MockIds.JsNumber`);
- NaN is a value of the carousel index in the as-written step functions
  (`OffersCarousel.Index`, `OffersCarousel.NextAsWritten`); the `Carousel`
  class keeps an integer index and uses the guarded steps.

Prices are `real`, so the model's arithmetic is exact. Files: `wrappers.dfy`
(Option, Result, Outcome), `seqs.dfy` (the `filter`/`map`/`find`
combinators), `types.dfy` (the shared records), and one file per modelled
source file.

## Model

| member | source | states |
|---|---|---|
| Seqs.Filter | src/contex/CarritoContext.tsx.tsx:43 | `filter` keeps only elements satisfying the predicate, drops none that do, never grows the list |
| Seqs.FilterConcat | src/store/cartStore.ts:21-22 | filtering distributes over concatenation, so survivors keep their relative order |
| Seqs.FilterKeepsAll | src/services/productoService.ts:15 | a filter that keeps every element is the identity |
| Seqs.FilterUnique | src/services/productoService.ts:15 | filtering a list with unique ids leaves ids unique |
| Seqs.Map | src/hooks/usePagoMercadoPago.ts:36-40 | `map` yields one image per element, in order |
| Seqs.MapWhere | src/contex/CarritoContext.tsx.tsx:48 | a conditional `map` keeps the length |
| Seqs.MapWhereAt | src/contex/CarritoContext.tsx.tsx:48 | each selected element is replaced by `f` of itself; the others stay as they were, in place |
| Seqs.MapWhereAll | src/services/productoService.ts:26 | the same for all positions at once |
| Seqs.MapWhereNoneSelected | src/contex/CarritoContext.tsx.tsx:48 | when nothing is selected the map is the identity |
| Seqs.MapWhereConcat | src/services/pedidoService.ts:26 | a conditional map distributes over concatenation |
| Seqs.FindIndex | src/contex/CarritoContext.tsx.tsx:34 | `find` returns the FIRST match, or nothing exactly when no element matches |
| Seqs.FindIndexAgree | src/utils/precioDescuento.ts:9 | predicates agreeing element-wise find the same position |
| Seqs.FindIndexPrefix | src/utils/precioDescuento.ts:9 | elements after the first match do not influence `find` |
| CarritoContext.HasIdAt | src/contex/CarritoContext.tsx.tsx:34-35 | `existe` holds iff some line has the product's id |
| CarritoContext.AgregarNuevo | src/contex/CarritoContext.tsx.tsx:33-40 | a new id is appended at the end with quantity 1, the rest untouched, whatever quantity the product carried |
| CarritoContext.AgregarExistente | src/contex/CarritoContext.tsx.tsx:33-40 | adding a present id is `incrementar` of it; the length is kept and the incoming quantity is ignored |
| CarritoContext.IncrementadoAt | src/contex/CarritoContext.tsx.tsx:46-50 | matching lines get one more than their quantity (missing or 0 counting as 1), the others are unchanged, in place |
| CarritoContext.IncrementadoAusente | src/contex/CarritoContext.tsx.tsx:46-50 | incrementing an absent id changes nothing |
| CarritoContext.DecrementadoAt | src/contex/CarritoContext.tsx.tsx:52-58 | a matching line above 1 becomes the same line with quantity one less, every other field kept; at 1 it stays and nothing is removed |
| CarritoContext.EliminadoSpec | src/contex/CarritoContext.tsx.tsx:42-44 | removal keeps exactly the lines with another id; an absent id changes nothing |
| CarritoContext.EliminadoConcat | src/contex/CarritoContext.tsx.tsx:42-44 | removal keeps the remaining lines in order |
| CarritoContext.IncrementadoPreserva | src/contex/CarritoContext.tsx.tsx:46-50 | increment preserves the cart invariant (unique ids, every quantity at least 1) |
| CarritoContext.DecrementadoPreserva | src/contex/CarritoContext.tsx.tsx:52-58 | decrement preserves the cart invariant |
| CarritoContext.EliminadoPreserva | src/contex/CarritoContext.tsx.tsx:42-44 | removal preserves the cart invariant |
| CarritoContext.AgregadoPreserva | src/contex/CarritoContext.tsx.tsx:33-40 | adding preserves the cart invariant |
| CarritoContext.ReduceAcc | src/contex/CarritoContext.tsx.tsx:60-63 | the reduce's starting accumulator only shifts the result |
| CarritoContext.TotalConcat | src/contex/CarritoContext.tsx.tsx:60-63 | `total` is 0 on the empty cart and additive over concatenation |
| CarritoContext.TotalSplit | src/contex/CarritoContext.tsx.tsx:60-63 | the total is the sum of per-line unit price (`precioFinal ?? precio`) times quantity (missing or 0 counting as 1) around any line |
| CarritoContext.IncrementadoUnico | src/contex/CarritoContext.tsx.tsx:46-50 | with unique ids, incrementing line k's id rewrites line k only |
| CarritoContext.TotalIncrementado | src/contex/CarritoContext.tsx.tsx:46-63 | in a well-formed cart, incrementing a present id raises the total by exactly that line's unit price |
| CarritoContext.CarritoProvider.constructor | src/contex/CarritoContext.tsx.tsx:20-21 | the provider mounts with an empty, closed cart |
| CarritoContext.CarritoProvider.Hydrate | src/contex/CarritoContext.tsx.tsx:23-26 | the mount effect loads the stored list, `[]` when the key is absent |
| CarritoContext.CarritoProvider.Guardar | src/contex/CarritoContext.tsx.tsx:28-31 | `guardar` sets the state and writes the same list to storage |
| CarritoContext.CarritoProvider.AgregarProducto | src/contex/CarritoContext.tsx.tsx:33-40 | the new cart is the add of the old one, and storage holds it |
| CarritoContext.CarritoProvider.EliminarProducto | src/contex/CarritoContext.tsx.tsx:42-44 | the new cart is the removal from the old one, and storage holds it |
| CarritoContext.CarritoProvider.Incrementar | src/contex/CarritoContext.tsx.tsx:46-50 | the new cart is the increment of the old one, and storage holds it |
| CarritoContext.CarritoProvider.Decrementar | src/contex/CarritoContext.tsx.tsx:52-58 | the new cart is the decrement of the old one, and storage holds it |
| CarritoContext.CarritoProvider.ToggleCart | src/contex/CarritoContext.tsx.tsx:65 | `isOpen` flips and the cart and storage are untouched |
| PrecioDescuento.OfertaActiva | src/utils/precioDescuento.ts:9 | the chosen offer is an offer of the list with `estado` true; there is none exactly when no offer is active |
| PrecioDescuento.PrecioConDescuento | src/utils/precioDescuento.ts:5-20 | no offers, an empty list or no active offer give the base price |
| PrecioDescuento.PrimeraActivaDecide | src/utils/precioDescuento.ts:9-19 | only the first active offer matters: the price is what that offer alone gives |
| PrecioDescuento.FechasIgnoradas | src/utils/precioDescuento.ts:5-20 | the offers' start and end dates never change the price |
| PrecioDescuento.MontoSinTope | src/utils/precioDescuento.ts:12-13 | a fixed-amount offer subtracts its value and can drive the price below zero |
| PrecioDescuento.PorcentajeAcotado | src/utils/precioDescuento.ts:14-16 | 0% keeps the price, 100% makes it 0, any percentage in [0,100] keeps it within [0, precio] |
| PrecioDescuento.SinEfecto | src/utils/precioDescuento.ts:12-19 | an unknown discount type or a missing value leaves the price unchanged |
| CartStore.CountAppend | src/store/cartStore.ts:19-20 | appending a product adds one entry with its id, none with another |
| CartStore.SinIdSpec | src/store/cartStore.ts:21-22 | removal leaves no entry with the id and every other entry; an absent id changes nothing |
| CartStore.SinIdConcat | src/store/cartStore.ts:21-22 | removal keeps the survivors in order |
| CartStore.Store.constructor | src/store/cartStore.ts:18 | the store starts with an empty cart |
| CartStore.Store.AddToCart | src/store/cartStore.ts:19-20 | the product is appended even when its id is present: length and count of that id both go up by one |
| CartStore.Store.RemoveFromCart | src/store/cartStore.ts:21-22 | the new cart is the old one without that id |
| CartStore.Store.ClearCart | src/store/cartStore.ts:23 | the cart becomes empty |
| MockIds.MaxId | src/services/productoService.ts:20 | `Math.max` of a non-empty id list is one of the ids and at least every id |
| MockIds.NextIdAsWrittenEmpty | src/services/productoService.ts:20 | the computed id is -Infinity exactly when the table is empty |
| MockIds.NextId | src/services/pedidoService.ts:20 | the corrected id exceeds every existing id, agrees with the code on a non-empty table, and is 1 on an empty one |
| ProductoService.MergeSpec | src/services/productoService.ts:26 | the spread patch overwrites exactly the properties it carries; an empty patch changes nothing |
| ProductoService.UpdatedAt | src/services/productoService.ts:26 | `update` rewrites only the rows with that id, in place |
| ProductoService.UpdateResult | src/services/productoService.ts:25-29 | `update` resolves with the first row with that id, merged, or `undefined` when none exists |
| ProductoService.NewRowFresh | src/services/productoService.ts:19-23 | the created row's id exceeds every id in the table |
| ProductoService.RemovePreservesUnique | src/services/productoService.ts:14-17 | `remove` keeps ids unique |
| ProductoService.CreatePreservesUnique | src/services/productoService.ts:19-23 | `create` keeps ids unique |
| ProductoService.UpdatePreservesUnique | src/services/productoService.ts:25-29 | an update that does not touch `id` keeps ids unique |
| ProductoService.RemovedSpec | src/services/productoService.ts:14-17 | `remove` deletes exactly the rows with that id; an absent id changes nothing |
| ProductoService.RemovedConcat | src/services/productoService.ts:15 | `remove` keeps the surviving rows in their original order |
| ProductoService.Service.constructor | src/services/productoService.ts:4-7 | the table starts with the two seed rows, whose ids are unique |
| ProductoService.Service.GetAll | src/services/productoService.ts:10-12 | `getAll` resolves with the table's contents |
| ProductoService.Service.Remove | src/services/productoService.ts:14-17 | the table becomes the filtered table |
| ProductoService.Service.Create | src/services/productoService.ts:19-23 | the new row gets one more than the largest id (1 on an empty table, the corrected rule) and is appended |
| ProductoService.Service.Update | src/services/productoService.ts:25-29 | the table becomes the updated table and the result is its row with that id |
| PedidoService.UpdatedAt | src/services/pedidoService.ts:26 | `update` rewrites only the orders with that id, in place |
| PedidoService.UpdateEstado | src/services/pedidoService.ts:25-29 | a `{ estado }` patch changes only the `estado` of the matching orders |
| PedidoService.UpdateResult | src/services/pedidoService.ts:25-29 | `update` resolves with the first matching order, merged, or `undefined` |
| PedidoService.RemovedSpec | src/services/pedidoService.ts:14-17 | `remove` deletes exactly the orders with that id and keeps ids unique |
| PedidoService.RemovedConcat | src/services/pedidoService.ts:15 | `remove` keeps the surviving orders in their original order |
| PedidoService.CreatePreservesUnique | src/services/pedidoService.ts:19-23 | the created order's id is fresh and ids stay unique |
| PedidoService.Service.constructor | src/services/pedidoService.ts:4-7 | the table starts with the two seed orders, each stamped with its own clock reading |
| PedidoService.Service.GetAll | src/services/pedidoService.ts:10-12 | `getAll` resolves with the table's contents |
| PedidoService.Service.Remove | src/services/pedidoService.ts:14-17 | the table becomes the filtered table |
| PedidoService.Service.Create | src/services/pedidoService.ts:19-23 | the new order gets one more than the largest id (1 on an empty table, the corrected rule) and is appended |
| PedidoService.Service.Update | src/services/pedidoService.ts:25-29 | the table becomes the updated table and the result is its order with that id |
| UseProductos.PaginasEnOrden | src/hooks/useproductos.ts:32 | loading page 0 and then later pages in order leaves exactly their concatenation |
| UseProductos.AcumularSpec | src/hooks/useproductos.ts:32 | each later page is appended after the list already shown |
| UseProductos.ReemplazadoAt | src/hooks/useproductos.ts:73 | `updateProducto` replaces the entries with that id by the server's record, the others in place |
| UseProductos.SinIdSpec | src/hooks/useproductos.ts:79 | `removeProducto` keeps exactly the entries with another id, in order |
| UseProductos.ProductosState.constructor | src/hooks/useproductos.ts:9-13 | initial state: empty list, not loading, no error, page 0, more to load |
| UseProductos.ProductosState.FetchProductos | src/hooks/useproductos.ts:24-41 | success replaces (page 0) or extends the list and sets `hasMore` and `page`; failure keeps them and sets the error message; loading ends either way |
| UseProductos.ProductosState.FetchProductosAdmin | src/hooks/useproductos.ts:43-57 | success replaces the list; failure keeps it and sets the admin error message |
| UseProductos.ProductosState.CreateProducto | src/hooks/useproductos.ts:65-69 | the server's record is appended only on success; the outcome is passed through |
| UseProductos.ProductosState.UpdateProducto | src/hooks/useproductos.ts:71-75 | the server's record replaces the id's entries only on success |
| UseProductos.ProductosState.RemoveProducto | src/hooks/useproductos.ts:77-80 | the id's entries are removed only after the delete succeeds |
| OffersCarousel.JsRem | src/conponents/carrouesel/OffersCarousel.tsx:14-15 | the remainder differs from the dividend by a multiple of n, lies strictly between -n and n, has the dividend's sign, and is the dividend when that is in [0, n) |
| OffersCarousel.ModRange | src/conponents/carrouesel/OffersCarousel.tsx:14-15 | a value in [n, 2n) reduces to itself minus n |
| OffersCarousel.AutoAdvanceBeforeLoad | src/conponents/carrouesel/OffersCarousel.tsx:14-32 | an auto-advance on the empty list makes `current` NaN, which no later step repairs and which reads no offer |
| OffersCarousel.AgreesWhenNonEmpty | src/conponents/carrouesel/OffersCarousel.tsx:14-15 | on a non-empty list the guarded steps are exactly the written ones; on an empty list they keep the index |
| OffersCarousel.StepValues | src/conponents/carrouesel/OffersCarousel.tsx:14-15 | next of the last slide is 0, previous of 0 is the last, otherwise plus or minus one |
| OffersCarousel.Steps | src/conponents/carrouesel/OffersCarousel.tsx:14-15 | both steps stay in range, wrap at the ends, and undo each other |
| OffersCarousel.AdvanceSpec | src/conponents/carrouesel/OffersCarousel.tsx:14 | up to a full turn, k presses move k slides forward, wrapping once |
| OffersCarousel.FullTurn | src/conponents/carrouesel/OffersCarousel.tsx:14 | n presses of next return to the starting slide |
| OffersCarousel.Carousel.constructor | src/conponents/carrouesel/OffersCarousel.tsx:12 | the carousel starts at slide 0 |
| OffersCarousel.Carousel.NextSlide | src/conponents/carrouesel/OffersCarousel.tsx:14 | `current` advances by one, wrapping, and stays in range; with no offers it is kept (the corrected step) |
| OffersCarousel.Carousel.PrevSlide | src/conponents/carrouesel/OffersCarousel.tsx:15 | `current` goes back by one, wrapping, and stays in range; with no offers it is kept (the corrected step) |
| ProductosPage.SameAsContext | src/pages/Productos.tsx:26-41 | the page's local add computes the same cart as the context's `agregarProducto` |
| ProductosPage.AddToCartLocalSpec | src/pages/Productos.tsx:28-37 | a present id gets one more in place, a new id is appended with 1, and the cart invariant survives |
| ProductosPage.MuestraTachado | src/pages/Productos.tsx:65-66 | as written, the struck-through original price is never shown |
| ProductosPage.PrecioTachado | src/pages/Productos.tsx:111-114 | the corrected display strikes through the base price exactly when a lower `precioFinal` is present |
| ProductosPage.Page.constructor | src/pages/Productos.tsx:12 | the local cart starts empty |
| ProductosPage.Page.Mount | src/pages/Productos.tsx:15-24 | a saved cart is loaded when present, and the resulting cart is saved back |
| ProductosPage.Page.AddToCart | src/pages/Productos.tsx:26-41 | both the local cart and the context change by the same add, so carts that start equal stay equal |
| ProductoDetalle.Digit | src/pages/ProductoDetalle.tsx:18 | a decimal digit prints as a character '0'..'9' |
| ProductoDetalle.Decimal | src/pages/ProductoDetalle.tsx:18 | `String(n)` is a non-empty string of digits, with one digit exactly when n < 10 |
| ProductoDetalle.DecimalInjective | src/pages/ProductoDetalle.tsx:18 | different naturals print differently |
| ProductoDetalle.IdStringSign | src/pages/ProductoDetalle.tsx:18 | only negative ids print with a leading '-' |
| ProductoDetalle.IdStringInjective | src/pages/ProductoDetalle.tsx:18 | different ids print differently, so comparing strings compares ids |
| ProductoDetalle.BuscarPorId | src/pages/ProductoDetalle.tsx:18-19 | the route `/productos/k` shows the first product with id k; without an id nothing is found |
| ProductoDetalle.MuestraTachado | src/pages/ProductoDetalle.tsx:63 | the base price is struck through exactly when a lower `precioFinal` is present |
| ProductoDetalle.Pulsar | src/pages/ProductoDetalle.tsx:73-80 | "-" lowers the quantity by one but never below 1; "+" raises it by one |
| ProductoDetalle.CantidadAlMenosUno | src/pages/ProductoDetalle.tsx:73-80 | starting from 1, no sequence of presses takes the quantity below 1 |
| ProductoDetalle.Detalle.constructor | src/pages/ProductoDetalle.tsx:15 | the quantity starts at 1 |
| ProductoDetalle.Detalle.Pulsa | src/pages/ProductoDetalle.tsx:73-80 | a press sets the quantity to the picker's step of the old one |
| ProductoDetalle.Detalle.AgregarAlCarrito | src/pages/ProductoDetalle.tsx:91 | the chosen quantity travels with the product, but the cart ends up exactly as if it carried none; storage holds it and `isOpen` is kept |
| Routes.AdminRoute | src/routes/AdminRoute.tsx:12-23 | spinner while loading; content iff the session is loaded and the user is an ADMIN; otherwise redirect to /login |
| Routes.ProtectedRoute | src/routes/ProtectedRoute.tsx:16-28 | "verifying" while loading; content iff the session is loaded with a user; otherwise redirect to /login |
| Routes.AdminImpliesProtected | src/routes/AdminRoute.tsx:19 | what the admin guard admits the session guard admits; a logged-in non-admin passes only the latter |
| PagoMercadoPago.DetallesSpec | src/hooks/usePagoMercadoPago.ts:36-40 | one payload entry per cart line, in order, with id, raw quantity and base price |
| PagoMercadoPago.PrecioFinalIgnorado | src/hooks/usePagoMercadoPago.ts:36-40 | carts equal in id, quantity and base price post the same payload, whatever their sale prices |
| PagoMercadoPago.Checkout.constructor | src/hooks/usePagoMercadoPago.ts:9-12 | nothing navigated, posted or redirected yet |
| PagoMercadoPago.Checkout.HandlePagar | src/hooks/usePagoMercadoPago.ts:14-50 | loading: no effect; no user: navigate to /login, nothing posted; otherwise one POST of the cart's details, then redirect to `init_point` on success or fail with the error message and no redirect |

## Left out

- Promise timing: the mock services' `setTimeout` delays, React's batching of state updates and stale closures are not modelled. Each call takes effect at once on the current state.
- JSON and storage encoding: `JSON.parse`/`JSON.stringify` round-trip the cart unchanged in the model. A corrupt storage entry, which makes the parse throw, is not modelled.
- Rendering, `formatPrice` (Intl currency formatting), images, animations and `console` output are not modelled.
- `getById`, `fetchCategorias`, `fetchFragancias` and `fetchAtributos` of the product hook are not modelled. They only store a server response.
- Records carry only the fields the modelled logic reads. A `Partial` patch that carries an explicit `undefined` property is not modelled.
- CarritoContext.Total: sums in exact reals, not in JavaScript floating point.
- On these points the model follows the code as written:
  - the discount of the first offer with a true `estado` applies, and the result is not clamped at zero (`PrecioDescuento.MontoSinTope`);
  - offer dates are not consulted when pricing (`PrecioDescuento.FechasIgnoradas`);
  - the cart context exposes a single `total`, with no gross, net or discount totals;
  - a corrupt "carrito" storage entry is not discarded: the parse throws.
- PagoMercadoPago.Checkout.HandlePagar: a body without `init_point` (a redirect to "undefined") is not modelled. A failure of `res.json()` counts as a rejected request.
- ProductoService.Service.Create: uses the corrected id rule `MockIds.NextId`. On an empty table the new id is 1, where the code computes -Infinity (see Findings).
- PedidoService.Service.Create: uses the corrected id rule `MockIds.NextId`. On an empty table the new id is 1, where the code computes -Infinity (see Findings).
- OffersCarousel.Carousel.NextSlide: uses the guarded step `OffersCarousel.Next`. With no offers `current` is kept, where the code sets it to NaN (see Findings).
- OffersCarousel.Carousel.PrevSlide: uses the guarded step `OffersCarousel.Prev`. With no offers `current` is kept, where the code sets it to NaN (see Findings).
- UseProductos.ProductosState.FetchProductos: the intermediate `loading = true` render is not visible in the contract. Only the settled state is stated.

## Findings

| source | as written | input that shows it | evidently intended | confidence | as-written member | corrected member |
|---|---|---|---|---|---|---|
| src/services/productoService.ts:20 (same in src/services/pedidoService.ts:20) | `create` takes `Math.max(...ids) + 1` | remove every row, then `create`: `Math.max()` is -Infinity, so the new id is -Infinity | the first id of an empty table is 1 | high, not executed | MockIds.NextIdAsWrittenEmpty | MockIds.NextId |
| src/conponents/carrouesel/OffersCarousel.tsx:14,18-21,32 | the auto-advance interval runs `(prev + 1) % ofertas.length` even while the list is empty | the interval fires before the offers arrive: `(0 + 1) % 0` is NaN; afterwards `ofertas[NaN]` is undefined and `currentOffer.id` throws | leave the index alone while there are no offers | medium, not executed | OffersCarousel.AutoAdvanceBeforeLoad | OffersCarousel.AgreesWhenNonEmpty |
| src/pages/Productos.tsx:65-66,111 | `precioOriginal` and `precioFinal` are both `precioFinal ?? precio` | any product with `precio` 100 and `precioFinal` 80: the card shows no struck-through price | strike through `precio` when `precioFinal` is lower | high, not executed | ProductosPage.MuestraTachado | ProductosPage.PrecioTachado |
