# CRM resolver core: ownership-scoped CRUD and stock reservation

This project models the business logic of a GraphQL backend for a small CRM.
Sellers (`usuarios`) own clients (`clientes`) and orders (`pedidos`).
Products (`productos`) carry a stock figure (`existencia`) that orders consume.

The document store is an immutable value, `Store.Store`, made of three finite maps from id to record:
- products: `nombre`, `existencia`, `precio`;
- clients: `nombre`, `apellido`, `empresa`, `email`, `telefono`, `vendedor`;
- orders: line items `pedido`, `total`, `cliente`, `vendedor`, `estado`.

Each resolver is a pure function from the store, the caller's identity and the request arguments to a `Response`.
A `Response` is the `Ok` value or the error the request yields, together with the store after the request.
The errors are:
- `NotFound(collection)`;
- `AlreadyExists`;
- `Forbidden`;
- `InsufficientStock(nombre)`;
- `NoIdentity`.

The caller is `Option<Id>`.
The request context holds no user when the token is missing or fails verification (index.js:16-31).
In that case the source's first read of `ctx.usuario.id` throws.
The model raises `NoIdentity` at exactly that point, which comes after the existence or email check.

Modules follow the resolver map:
- `Store`: records, errors, and the shared ownership test `Authorize`.
- `Inventory`: the line-item stock loop that order creation and order update share.
  - `ReserveStock` is a recursive fold that threads the product map through the items.
  - `Demand`, `Deducted`, `Servable` and `FirstUnservable` are an independent description of what the loop should do.
  - The lemmas prove that the loop matches that description.
- `ProductResolvers`, `ClientResolvers`, `OrderResolvers`: one function per resolver, plus lemmas that relate the resolvers to each other.
- `Mutations`: every mutation behind one dispatcher `Run`, and the invariants that hold across all of them.

The model covers one request at a time.
New document ids, which the database assigns, are a parameter `newId` that must not already be in use.

Behaviours of the code that the model keeps as stated facts:
- The stock loop is not atomic. When item k is rejected, the decrements of items 0..k-1 stay stored and no order is written.
- Order update authorises through the client named in the request. It never consults the stored order's seller (`UpdateIgnoresStoredSeller`, `ForeignOrderCanBeUpdated`).
- Order update deducts the new line items from current stock. It does not give back what the stored order had reserved (`UpdateConsumesAdditively`, `CreateThenUpdate`).
- Deleting an order gives no stock back (`CreateThenDelete`).
- Quantities are not validated. A negative `cantidad` passes the check and raises the stock.

In three places the code does less than its intent suggests. The model follows the code:
- Order update is not restricted to the order's own seller.
- Line-item quantities are not required to be positive.
- A line item naming a missing product makes the code dereference `null`. This is a TypeError, not an explicit not-found error. The model reports it as `NotFound(Products)`, with the earlier decrements kept, as the code leaves them.

## Model

| member | source | states |
|---|---|---|
| Store.Authorize | db/resolvers.js:63-66 | The ownership test passes exactly when the caller carries an identity equal to the stored seller. It fails with `NoIdentity` when there is no identity, and with `Forbidden` when the ids differ. |
| Inventory.ReserveStock | db/resolvers.js:315-327 | The stock loop keeps the set of products and every name and price. It leaves products no item names untouched. A product that starts with non-negative stock never ends below zero, whether the loop succeeds or stops early. When the loop succeeds, every product an item names ends with non-negative stock, whatever it started with, because its last decrement passed the check. |
| Inventory.Rejection | db/resolvers.js:320-321 | The loop's error for a rejected item is `NotFound(Products)` exactly when the product is missing. For a stored product it is `InsufficientStock` carrying that product's name. |
| Inventory.ReserveSucceedsIff | db/resolvers.js:315-327 | The loop succeeds if and only if every item names an existing product and asks for no more than the stock the earlier items left. |
| Inventory.ReserveSuccessDeductsDemand | db/resolvers.js:315-327 | On success, each product's final stock is its initial stock minus the sum of the quantities of the items naming it. |
| Inventory.ReserveStopsAtFirstUnservable | db/resolvers.js:315-327 | When item k is the first rejected, the decrements of items 0..k-1 are stored and items from k on have not touched the stock. The error is `NotFound(Products)` for a missing product, or `InsufficientStock` naming the product. |
| Inventory.FirstUnservableAtOrBefore | db/resolvers.js:315-327 | Any rejected item has a first rejected item at or before it, so a failed loop always stops at a definite item. |
| Inventory.ReserveOutcome | db/resolvers.js:315-327 | For every input, one of two things happens. Either every item passes and the full demand is deducted with no error, or the loop stops at the first rejected item with only the prefix deducted. |
| Inventory.DeductedCompose | db/resolvers.js:315-327 | Deducting one list of items and then another equals deducting their concatenation, so successive reservations add up. |
| ProductResolvers.ObtenerProducto | db/resolvers.js:32-39 | Reading a product succeeds exactly when the id is stored and returns the stored product. Otherwise it fails with `NotFound(Products)`. |
| ProductResolvers.ActualizarProducto | db/resolvers.js:220-231 | An absent id fails with no change. Otherwise only that product changes, only in the fields the request carries. Every other product, client and order is unchanged, and the updated product is returned. |
| ProductResolvers.EliminarProducto | db/resolvers.js:232-243 | An absent id fails with no change. Otherwise exactly that product is removed, the rest is unchanged, and the result is "Producto Eliminado". |
| ProductResolvers.Patched | db/resolvers.js:229 | A product update overwrites exactly the fields the request carries: name, stock and price each take the request's value when present and keep the stored one otherwise. |
| ProductResolvers.UpdateThenRead | db/resolvers.js:220-231 | After an update, reading the product back yields the patched product, and every other id reads as before. |
| ProductResolvers.EmptyPatchChangesNothing | db/resolvers.js:229 | An update carrying no field leaves the store as it was. |
| ProductResolvers.DeleteThenRead | db/resolvers.js:232-243 | After a delete the id reads as NotFound, and deleting it again fails with NotFound. |
| ProductResolvers.WidgetExample | db/resolvers.js:220-231 | A product with stock 10 and price 5, updated to stock 7, reads back with stock 7, the same name and price 5. |
| ClientResolvers.Patched | db/resolvers.js:279 | A client update overwrites exactly the fields the request carries and never the seller. |
| ClientResolvers.CheckClient | db/resolvers.js:58-66 | The shared check fails with `NotFound(Clients)` for an absent id. For a stored client it is exactly the ownership test against the client's seller. |
| ClientResolvers.ObtenerCliente | db/resolvers.js:56-69 | An absent id fails with `NotFound(Clients)`. Then a caller without identity fails with `NoIdentity`, and a caller other than the stored seller fails with `Forbidden`. Reading succeeds exactly when the caller is the client's seller. |
| ClientResolvers.NuevoCliente | db/resolvers.js:244-264 | A taken email fails with `AlreadyExists` and no change. Then a missing identity fails with no change. Otherwise exactly one client is added under the new id. It holds every field of the input as sent, and the caller as seller (lines 252-255). |
| ClientResolvers.ActualizarCliente | db/resolvers.js:265-281 | Existence, then ownership; each failure leaves the store unchanged. On success only that client changes, to the patched client, and its seller is the caller. |
| ClientResolvers.EliminarCliente | db/resolvers.js:282-298 | Existence, then ownership; each failure leaves the store unchanged. On success exactly that client is removed and the result is "Cliente eliminado". |
| ClientResolvers.CreationKeepsEmailsUnique | db/resolvers.js:244-250 | If no two clients share an email before a creation, none do after it. |
| ClientResolvers.CreateThenRead | db/resolvers.js:244-264 | A newly created client is readable by its creator and by no other caller. |
| ClientResolvers.DeleteThenRead | db/resolvers.js:282-298 | After a successful delete the client reads as NotFound for every caller. |
| ClientResolvers.ScopedOperationsAgree | db/resolvers.js:56-69 | Update and delete succeed for exactly the same store, caller and id as a read, and otherwise fail with the same error. |
| OrderResolvers.PatchedOrder | db/resolvers.js:379 | An order update overwrites exactly the fields the request carries and keeps the order's seller. |
| OrderResolvers.CheckOrder | db/resolvers.js:88-96 | The shared check fails with `NotFound(Orders)` for an absent id. For a stored order it is exactly the ownership test against the order's seller. |
| OrderResolvers.CheckOrderClient | db/resolvers.js:303-312 | The client check of order creation and update fails with `NotFound(Clients)` for a missing client. For a stored client it is exactly the ownership test against that client's seller. Update performs the same check at lines 350-358. |
| OrderResolvers.ObtenerPedido | db/resolvers.js:86-100 | An absent id fails with `NotFound(Orders)`. Then a caller without identity fails with `NoIdentity`, and a caller other than the order's seller fails with `Forbidden`. Reading succeeds exactly when the caller is the order's seller. |
| OrderResolvers.NuevoPedido | db/resolvers.js:299-338 | A missing or foreign client fails before any stock is touched, with the store unchanged. Creation succeeds if and only if the client check passes and every item is servable. On success every product loses exactly its demand, every product an item names ends with non-negative stock, and one order owned by the caller is added. When item k is the first rejected, only items 0..k-1 are deducted and no order is stored. |
| OrderResolvers.CreateThenRead | db/resolvers.js:86-100 | A newly created order reads back, as stored, for its creator. Every other caller gets an error. |
| OrderResolvers.ActualizarPedido | db/resolvers.js:339-381 | A missing order, then a missing client, fail with NotFound, and a client of another seller fails with `Forbidden`; each leaves the store unchanged. Success does not depend on the stored order's seller. Stock changes only when line items are sent, by exactly their demand on current stock. On success every product those items name ends with non-negative stock. A rejected item k leaves items 0..k-1 deducted and the order unchanged. |
| OrderResolvers.EliminarPedido | db/resolvers.js:382-397 | Existence, then ownership; each failure leaves the store unchanged. On success exactly that order is removed, no stock is given back, and the result is "Pedido Eliminado". |
| OrderResolvers.UpdateIgnoresStoredSeller | db/resolvers.js:355-358 | Giving the stored order any other seller changes neither whether the update succeeds nor the stock it leaves. |
| OrderResolvers.ForeignOrderCanBeUpdated | db/resolvers.js:339-381 | In a concrete store, a seller who gets `Forbidden` when reading an order can still rewrite it by naming their own client. The rewritten order then names a client of a different seller than its own. |
| OrderResolvers.UpdateConsumesAdditively | db/resolvers.js:361-376 | Resubmitting an order's own line items deducts their demand again from the current stock. |
| OrderResolvers.CreateThenUpdate | db/resolvers.js:315-327 | After creating an order and then updating its line items, the stock is lowered by both lists together, while the order holds only the new list. |
| OrderResolvers.CreateThenDelete | db/resolvers.js:382-397 | After creating and then deleting an order, the orders are back as they were but the stock stays deducted. |
| OrderResolvers.CreatedOrderIsConsistent | db/resolvers.js:303-312 | A newly created order names an existing client owned by the order's own seller. |
| Mutations.StockStaysNonNegative | db/resolvers.js:320-325 | Across every mutation except a product update that writes a negative figure, stock that is non-negative everywhere stays non-negative everywhere. |
| Mutations.OwnersNeverChange | db/resolvers.js:279 | No mutation changes the seller of a client or of an order that exists before and after it. Client update here and order update at line 379 write only the request's fields, and update requests are taken to carry no seller field. |
| Mutations.CreationsOwnedByCaller | db/resolvers.js:329-333 | Every client or order that a mutation adds is owned by the caller that sent it. |
| Mutations.FailuresOnlyLeaveCommittedStock | db/resolvers.js:315-327 | A failed mutation never changes clients or orders, nor the set of products or any product's name or price. Only a failed order creation or order update can leave anything changed, and only when its stock loop rejected an item with a missing product or short stock. What stays is the stock already deducted. Every other failure leaves the store exactly as it was. |

## Left out

- `obtenerUsuario`, `nuevoUsuario` and `autenticarUsuario` are left out. They are token signing and verification and password hashing, which are library calls. The caller's identity is a plain optional parameter instead.
- The context builder in index.js is left out. Only its outcome is modelled: a user, or none (`NoIdentity`).
- The unscoped and owner-scoped listings are left out: `obtenerProductos`, `obtenerClientes`, `obtenerClientesVendedor`, `obtenerPedidos`, `obtenerPedidosVendedor` and `obtenerPedidosEstado`. They are plain database filters with no checks.
- `nuevoProducto` is left out. It stores its input without any check.
- `mejoresClientes`, `mejoresVendedores` and `buscarProducto` are left out. Their meaning lies in the database's aggregation pipeline and text-index semantics. This includes the limit placed before the sort.
- Concurrency is left out. Two order creations can interleave their read-then-write of a product's stock. The model runs one request at a time.
- Schema-level validation is left out: required fields, `trim`, timestamps, and the unique index on client email. That index would reject an update that copies another client's email, and the model lets such an update through.
- The `try`/`catch` blocks that log a failed save and answer `null` are left out. Database connectivity failures are left out too.
- The GraphQL schema file and the order model are not part of this model. The input shapes are assumptions, not modelled logic:
  - a client creation carries name, surname and email, and optionally company and phone;
  - updates carry any subset of the fields;
  - an order creation carries its line items, total and client;
  - an order's status defaults to PENDIENTE.
- The fields of an order update are assumed to be all optional. An update without a client finds no client and fails with NotFound.
- Ids are abstract keys. `findById` first casts its argument to a database object id. A malformed id raises a cast error instead of answering "not found", and the cast ignores the case of hex digits. Neither is modelled: an id is found exactly when it is a stored key.
- Explicit `null` fields in update requests are left out. Product update (db/resolvers.js:229), client update (line 279) and order update (line 379) hand the request to the database, which writes a `null` field through. The model treats an absent field and a `null` field alike, as "keep the stored value".
- Prices and totals are kept as `real` numbers and never computed on. Floating-point behaviour is not modelled.
- The `total` of an order is not recomputed from its line items, because the code stores whatever the request sends.
