/** Order resolvers: read one, create, update, delete.

    Creation and update first check the client named in the request (it must
    exist and belong to the caller) and then run the line-item stock loop of
    `Inventory`, whose decrements stay stored even when a later item is
    rejected. Two behaviours of the update are kept as they are: it
    authorises through the client in the request and never looks at the
    stored order's seller, and it deducts the new line items from the current
    stock without giving back what the stored order had reserved. */
module OrderResolvers {
  import opened Store
  import opened Inventory

  /** The fields of a creation request; the status defaults to PENDIENTE. */
  datatype NewOrderInput = NewOrderInput(
    pedido: seq<LineItem>,
    total: real,
    cliente: Id,
    estado: Option<Status>)

  /** The fields an update request may carry; an absent field keeps its value. */
  datatype OrderPatch = OrderPatch(
    pedido: Option<seq<LineItem>>,
    total: Option<real>,
    cliente: Option<Id>,
    estado: Option<Status>)

  /** A stored order with the fields present in `patch` overwritten; the seller is kept. */
  function PatchedOrder(o: Order, patch: OrderPatch): (q: Order)
    ensures q.vendedor == o.vendedor
    ensures q.pedido == patch.pedido.GetOr(o.pedido) && q.total == patch.total.GetOr(o.total)
    ensures q.cliente == patch.cliente.GetOr(o.cliente) && q.estado == patch.estado.GetOr(o.estado)
  {
    Order(patch.pedido.GetOr(o.pedido), patch.total.GetOr(o.total), patch.cliente.GetOr(o.cliente),
          o.vendedor, patch.estado.GetOr(o.estado))
  }

  /** The existence-then-ownership check on a stored order. */
  function CheckOrder(st: Store, caller: Option<Id>, id: Id): (e: Option<Error>)
    ensures id !in st.orders ==> e == Some(NotFound(Orders))
    ensures id in st.orders ==> e == Authorize(st.orders[id].vendedor, caller)
  {
    if id !in st.orders then Some(NotFound(Orders))
    else Authorize(st.orders[id].vendedor, caller)
  }

  /** The client check of creation and update: the client named in the request
      must exist (an absent reference finds nothing) and belong to the caller. */
  function CheckOrderClient(st: Store, caller: Option<Id>, cliente: Option<Id>): (e: Option<Error>)
    ensures e.None? <==> cliente.Some? && cliente.value in st.clients
                         && caller == Some(st.clients[cliente.value].vendedor)
    ensures cliente.None? || cliente.value !in st.clients ==> e == Some(NotFound(Clients))
    ensures cliente.Some? && cliente.value in st.clients ==>
      e == Authorize(st.clients[cliente.value].vendedor, caller)
  {
    if cliente.None? || cliente.value !in st.clients then Some(NotFound(Clients))
    else Authorize(st.clients[cliente.value].vendedor, caller)
  }

  /** obtenerPedido: NotFound for an absent id; then the caller must carry an
      identity and be the order's seller; otherwise the stored order. */
  function ObtenerPedido(st: Store, caller: Option<Id>, id: Id): (r: Result<Order>)
    ensures id !in st.orders ==> r == Err(NotFound(Orders))
    ensures id in st.orders && caller.None? ==> r == Err(NoIdentity)
    ensures id in st.orders && caller.Some? && caller.value != st.orders[id].vendedor ==> r == Err(Forbidden)
    ensures r.Ok? <==> id in st.orders && caller == Some(st.orders[id].vendedor)
    ensures r.Ok? ==> r.value == st.orders[id]
  {
    match CheckOrder(st, caller, id)
    case Some(e) => Err(e)
    case None => Ok(st.orders[id])
  }

  /** nuevoPedido. A missing or foreign client fails before any stock is
      touched. Otherwise the line items are served in order: if all pass,
      every product loses exactly the quantity the items ask of it and one
      new order owned by the caller is stored; if item k is the first
      rejected, the decrements of items 0..k-1 stay stored, nothing else
      changes and no order is created. */
  function NuevoPedido(st: Store, caller: Option<Id>, input: NewOrderInput, newId: Id): (r: Response<Order>)
    requires newId !in st.orders
    ensures CheckOrderClient(st, caller, Some(input.cliente)).Some? ==>
      r == Response(Err(CheckOrderClient(st, caller, Some(input.cliente)).value), st)
    ensures r.result.Ok? <==>
      CheckOrderClient(st, caller, Some(input.cliente)).None? && AllServable(st.products, input.pedido)
    ensures r.result.Ok? ==>
      && r.result.value == Order(input.pedido, input.total, input.cliente, caller.value, input.estado.GetOr(Pendiente))
      && r.store == st.(products := Deducted(st.products, input.pedido),
                        orders := st.orders[newId := r.result.value])
    ensures forall k :: CheckOrderClient(st, caller, Some(input.cliente)).None?
                        && FirstUnservable(st.products, input.pedido, k) ==>
      r == Response(Err(Rejection(st.products, input.pedido[k])),
                    st.(products := Deducted(st.products, input.pedido[..k])))
    ensures r.store.clients == st.clients
    ensures r.result.Err? ==> r.store.orders == st.orders
    ensures r.store.products.Keys == st.products.Keys
    ensures forall p :: p in st.products ==>
      r.store.products[p].nombre == st.products[p].nombre && r.store.products[p].precio == st.products[p].precio
    ensures forall p :: p in st.products && st.products[p].existencia >= 0 ==> r.store.products[p].existencia >= 0
    ensures r.result.Ok? ==>
      forall p :: p in st.products && p in Ids(input.pedido) ==> r.store.products[p].existencia >= 0
  {
    match CheckOrderClient(st, caller, Some(input.cliente))
    case Some(e) => Response(Err(e), st)
    case None =>
      var res := ReserveStock(st.products, input.pedido);
      ReserveOutcome(st.products, input.pedido);
      match res.failure
      case Some(e) => Response(Err(e), st.(products := res.products))
      case None =>
        var o := Order(input.pedido, input.total, input.cliente, caller.value, input.estado.GetOr(Pendiente));
        Response(Ok(o), st.(products := res.products, orders := st.orders[newId := o]))
  }

  /** actualizarPedido. A missing order, then a missing client, fail with
      NotFound; a client of another seller fails with Forbidden; each leaves
      the store unchanged. The stored order's seller is not consulted. Stock
      is deducted only when the request carries line items, from the current
      stock, and as in creation a rejected item k leaves items 0..k-1
      deducted and the order unchanged. */
  function ActualizarPedido(st: Store, caller: Option<Id>, id: Id, patch: OrderPatch): (r: Response<Order>)
    ensures id !in st.orders ==> r == Response(Err(NotFound(Orders)), st)
    ensures id in st.orders && CheckOrderClient(st, caller, patch.cliente).Some? ==>
      r == Response(Err(CheckOrderClient(st, caller, patch.cliente).value), st)
    ensures r.result.Ok? <==>
      && id in st.orders
      && CheckOrderClient(st, caller, patch.cliente).None?
      && (patch.pedido.None? || AllServable(st.products, patch.pedido.value))
    ensures r.result.Ok? ==>
      && r.result.value == PatchedOrder(st.orders[id], patch)
      && r.store.orders == st.orders[id := r.result.value]
    ensures r.result.Ok? && patch.pedido.None? ==> r.store.products == st.products
    ensures r.result.Ok? && patch.pedido.Some? ==> r.store.products == Deducted(st.products, patch.pedido.value)
    ensures forall k :: id in st.orders && CheckOrderClient(st, caller, patch.cliente).None?
                        && patch.pedido.Some? && FirstUnservable(st.products, patch.pedido.value, k) ==>
      r == Response(Err(Rejection(st.products, patch.pedido.value[k])),
                    st.(products := Deducted(st.products, patch.pedido.value[..k])))
    ensures r.store.clients == st.clients
    ensures r.result.Err? ==> r.store.orders == st.orders
    ensures r.store.orders.Keys == st.orders.Keys
    ensures r.store.products.Keys == st.products.Keys
    ensures forall p :: p in st.products ==>
      r.store.products[p].nombre == st.products[p].nombre && r.store.products[p].precio == st.products[p].precio
    ensures forall p :: p in st.products && st.products[p].existencia >= 0 ==> r.store.products[p].existencia >= 0
    ensures r.result.Ok? && patch.pedido.Some? ==>
      forall p :: p in st.products && p in Ids(patch.pedido.value) ==> r.store.products[p].existencia >= 0
  {
    if id !in st.orders then Response(Err(NotFound(Orders)), st)
    else match CheckOrderClient(st, caller, patch.cliente)
      case Some(e) => Response(Err(e), st)
      case None =>
        var o := PatchedOrder(st.orders[id], patch);
        match patch.pedido
        case None => Response(Ok(o), st.(orders := st.orders[id := o]))
        case Some(items) =>
          var res := ReserveStock(st.products, items);
          ReserveOutcome(st.products, items);
          match res.failure
          case Some(e) => Response(Err(e), st.(products := res.products))
          case None => Response(Ok(o), st.(products := res.products, orders := st.orders[id := o]))
  }

  /** eliminarPedido: existence, then ownership, each failure leaving the store
      unchanged; on success exactly that order is removed, no stock is given
      back, and the confirmation string is returned. */
  function EliminarPedido(st: Store, caller: Option<Id>, id: Id): (r: Response<string>)
    ensures r.result.Err? ==> r.store == st
    ensures r.result.Err? <==> CheckOrder(st, caller, id).Some?
    ensures r.result.Err? ==> r.result.error == CheckOrder(st, caller, id).value
    ensures r.result.Ok? ==>
      && caller == Some(st.orders[id].vendedor)
      && r.result.value == "Pedido Eliminado"
      && r.store == st.(orders := st.orders - {id})
  {
    match CheckOrder(st, caller, id)
    case Some(e) => Response(Err(e), st)
    case None => Response(Ok("Pedido Eliminado"), st.(orders := st.orders - {id}))
  }

  /** The update's outcome does not depend on who owns the stored order:
      giving the order any other seller changes neither the verdict nor the
      stock the update leaves. */
  lemma UpdateIgnoresStoredSeller(st: Store, caller: Option<Id>, id: Id, patch: OrderPatch, seller: Id)
    requires id in st.orders
    ensures
      var st2 := st.(orders := st.orders[id := st.orders[id].(vendedor := seller)]);
      && ActualizarPedido(st2, caller, id, patch).result.Ok? == ActualizarPedido(st, caller, id, patch).result.Ok?
      && ActualizarPedido(st2, caller, id, patch).store.products == ActualizarPedido(st, caller, id, patch).store.products
  {
  }

  /** A seller who may not read an order can still rewrite it, by naming one
      of their own clients; the rewritten order then names a client of a
      different seller than its own. */
  lemma ForeignOrderCanBeUpdated()
    ensures
      var st := Store(
        map[],
        map["c" := Client("Ana", "Diaz", None, "ana@example.com", None, "alice")],
        map["o" := Order([], 0.0, "c", "bob", Pendiente)]);
      var r := ActualizarPedido(st, Some("alice"), "o", OrderPatch(None, Some(10.0), Some("c"), None));
      && ObtenerPedido(st, Some("alice"), "o") == Err(Forbidden)
      && r.result.Ok?
      && r.store.orders["o"].total == 10.0
      && r.store.clients[r.store.orders["o"].cliente].vendedor != r.store.orders["o"].vendedor
  {
  }

  /** Resubmitting an order's own line items deducts them a second time: the
      quantities the stored order reserved are not given back first. */
  lemma UpdateConsumesAdditively(st: Store, caller: Option<Id>, id: Id, patch: OrderPatch)
    requires id in st.orders && patch.pedido == Some(st.orders[id].pedido)
    requires ActualizarPedido(st, caller, id, patch).result.Ok?
    ensures forall p :: p in st.products ==>
      ActualizarPedido(st, caller, id, patch).store.products[p].existencia
        == st.products[p].existencia - Demand(st.orders[id].pedido, p)
  {
  }

  /** Creating an order and then deleting it restores the orders but not the
      stock: the deducted quantities stay deducted. */
  lemma {:induction false} CreateThenDelete(st: Store, caller: Option<Id>, input: NewOrderInput, newId: Id)
    requires newId !in st.orders
    requires NuevoPedido(st, caller, input, newId).result.Ok?
    ensures
      var st1 := NuevoPedido(st, caller, input, newId).store;
      var r := EliminarPedido(st1, caller, newId);
      && r.result == Ok("Pedido Eliminado")
      && r.store.orders == st.orders
      && r.store.clients == st.clients
      && r.store.products == Deducted(st.products, input.pedido)
  {
    var st1 := NuevoPedido(st, caller, input, newId).store;
    assert st1.orders - {newId} == st.orders;
  }

  /** Creating an order and then updating its line items consumes both lists:
      the stock ends lowered by the creation's items and the update's items
      together, although the order now holds only the update's items. */
  lemma CreateThenUpdate(st: Store, caller: Option<Id>, input: NewOrderInput, newId: Id, patch: OrderPatch)
    requires newId !in st.orders
    requires patch.pedido.Some?
    ensures
      var r1 := NuevoPedido(st, caller, input, newId);
      var r2 := ActualizarPedido(r1.store, caller, newId, patch);
      r1.result.Ok? && r2.result.Ok? ==>
        && r2.store.products == Deducted(st.products, input.pedido + patch.pedido.value)
        && r2.store.orders[newId].pedido == patch.pedido.value
  {
    DeductedCompose(st.products, input.pedido, patch.pedido.value);
  }

  /** A created order is readable by its creator, as stored, and by no one else. */
  lemma CreateThenRead(st: Store, caller: Option<Id>, input: NewOrderInput, newId: Id, other: Option<Id>)
    requires newId !in st.orders
    ensures
      var r := NuevoPedido(st, caller, input, newId);
      r.result.Ok? ==>
        && ObtenerPedido(r.store, caller, newId) == Ok(r.result.value)
        && (other != caller ==> ObtenerPedido(r.store, other, newId).Err?)
  {
  }

  /** A created order names a client of its own seller. */
  lemma CreatedOrderIsConsistent(st: Store, caller: Option<Id>, input: NewOrderInput, newId: Id)
    requires newId !in st.orders
    requires NuevoPedido(st, caller, input, newId).result.Ok?
    ensures
      var r := NuevoPedido(st, caller, input, newId);
      var o := r.store.orders[newId];
      o.cliente in r.store.clients && r.store.clients[o.cliente].vendedor == o.vendedor
  {
  }
}
