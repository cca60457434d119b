/** The mutations of the resolver map as one transition relation, one request
    at a time, and the store invariants that hold across all of them. */
module Mutations {
  import opened Store
  import opened Inventory
  import ProductResolvers
  import ClientResolvers
  import OrderResolvers

  /** A mutation request; creations carry the id the store assigns. */
  datatype Mutation =
    | ActualizarProducto(id: Id, productPatch: ProductResolvers.ProductPatch)
    | EliminarProducto(id: Id)
    | NuevoCliente(clientInput: ClientResolvers.ClientInput, newId: Id)
    | ActualizarCliente(id: Id, clientPatch: ClientResolvers.ClientPatch)
    | EliminarCliente(id: Id)
    | NuevoPedido(orderInput: OrderResolvers.NewOrderInput, newId: Id)
    | ActualizarPedido(id: Id, orderPatch: OrderResolvers.OrderPatch)
    | EliminarPedido(id: Id)

  /** The value a mutation answers with. */
  datatype Value =
    | ProductValue(product: Product)
    | ClientValue(client: Client)
    | OrderValue(order: Order)
    | Message(text: string)

  /** The store can assign the ids a creation request carries. */
  predicate Fresh(st: Store, m: Mutation)
  {
    match m
    case NuevoCliente(_, newId) => newId !in st.clients
    case NuevoPedido(_, newId) => newId !in st.orders
    case _ => true
  }

  function Wrap<T>(r: Response<T>, f: T -> Value): Response<Value>
  {
    match r.result
    case Ok(v) => Response(Ok(f(v)), r.store)
    case Err(e) => Response(Err(e), r.store)
  }

  /** Dispatch a mutation to its resolver. */
  function Run(st: Store, caller: Option<Id>, m: Mutation): (r: Response<Value>)
    requires Fresh(st, m)
  {
    match m
    case ActualizarProducto(id, patch) =>
      Wrap(ProductResolvers.ActualizarProducto(st, id, patch), p => ProductValue(p))
    case EliminarProducto(id) =>
      Wrap(ProductResolvers.EliminarProducto(st, id), s => Message(s))
    case NuevoCliente(input, newId) =>
      Wrap(ClientResolvers.NuevoCliente(st, caller, input, newId), c => ClientValue(c))
    case ActualizarCliente(id, patch) =>
      Wrap(ClientResolvers.ActualizarCliente(st, caller, id, patch), c => ClientValue(c))
    case EliminarCliente(id) =>
      Wrap(ClientResolvers.EliminarCliente(st, caller, id), s => Message(s))
    case NuevoPedido(input, newId) =>
      Wrap(OrderResolvers.NuevoPedido(st, caller, input, newId), o => OrderValue(o))
    case ActualizarPedido(id, patch) =>
      Wrap(OrderResolvers.ActualizarPedido(st, caller, id, patch), o => OrderValue(o))
    case EliminarPedido(id) =>
      Wrap(OrderResolvers.EliminarPedido(st, caller, id), s => Message(s))
  }

  /** Every product's stock is non-negative. */
  ghost predicate StockNonNegative(st: Store)
  {
    forall p :: p in st.products ==> st.products[p].existencia >= 0
  }

  /** The request does not write a stock figure of its own (only a product
      update can, and it writes whatever it is given). */
  predicate KeepsStockFigures(m: Mutation)
  {
    m.ActualizarProducto? ==> m.productPatch.existencia.None? || m.productPatch.existencia.value >= 0
  }

  /** Stock never goes negative: the line-item loop only decrements what it
      has checked is there, and nothing else but a product update writes
      stock. */
  lemma StockStaysNonNegative(st: Store, caller: Option<Id>, m: Mutation)
    requires Fresh(st, m) && KeepsStockFigures(m)
    requires StockNonNegative(st)
    ensures StockNonNegative(Run(st, caller, m).store)
  {
  }

  /** A client's seller and an order's seller never change, whoever calls. */
  lemma OwnersNeverChange(st: Store, caller: Option<Id>, m: Mutation)
    requires Fresh(st, m)
    ensures var st' := Run(st, caller, m).store;
      && (forall c :: c in st.clients && c in st'.clients ==> st'.clients[c].vendedor == st.clients[c].vendedor)
      && (forall o :: o in st.orders && o in st'.orders ==> st'.orders[o].vendedor == st.orders[o].vendedor)
  {
  }

  /** Every client and order that appears is owned by the caller who
      created it. */
  lemma CreationsOwnedByCaller(st: Store, caller: Option<Id>, m: Mutation)
    requires Fresh(st, m)
    ensures var st' := Run(st, caller, m).store;
      && (forall c :: c in st'.clients && c !in st.clients ==> Some(st'.clients[c].vendedor) == caller)
      && (forall o :: o in st'.orders && o !in st.orders ==> Some(st'.orders[o].vendedor) == caller)
  {
    match m
    case NuevoCliente(input, newId) =>
    case NuevoPedido(input, newId) =>
    case ActualizarPedido(id, patch) =>
      var r := OrderResolvers.ActualizarPedido(st, caller, id, patch);
      assert r.store.orders.Keys == st.orders.Keys;
    case _ =>
  }

  /** A failed request never changes clients or orders. Only order creation
      and order update can leave anything behind, and only when their
      line-item loop rejected an item (a missing product or a short stock):
      then the stock already deducted stays, with the same products, names
      and prices. Every other failure leaves the store exactly as it was. */
  lemma FailuresOnlyLeaveCommittedStock(st: Store, caller: Option<Id>, m: Mutation)
    requires Fresh(st, m)
    ensures var r := Run(st, caller, m);
      r.result.Err? ==>
      && r.store.clients == st.clients
      && r.store.orders == st.orders
      && r.store.products.Keys == st.products.Keys
      && (forall p :: p in st.products ==>
            r.store.products[p].nombre == st.products[p].nombre
            && r.store.products[p].precio == st.products[p].precio)
      && (!m.NuevoPedido? && !m.ActualizarPedido? ==> r.store == st)
      && (!r.result.error.InsufficientStock? && r.result.error != NotFound(Products) ==> r.store == st)
  {
    match m
    case NuevoPedido(input, newId) =>
      var r := OrderResolvers.NuevoPedido(st, caller, input, newId);
      if r.result.Err? && r.store != st {
        ReserveOutcome(st.products, input.pedido);
      }
    case ActualizarPedido(id, patch) =>
      var r := OrderResolvers.ActualizarPedido(st, caller, id, patch);
      if r.result.Err? && r.store != st {
        ReserveOutcome(st.products, patch.pedido.GetOr([]));
      }
    case _ =>
  }
}
