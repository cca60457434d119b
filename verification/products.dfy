/** Product resolvers: read one, update, delete. Products are not owned by a
    seller, so none of these looks at the caller. */
module ProductResolvers {
  import opened Store

  /** The fields an update request may carry; an absent field keeps its value. */
  datatype ProductPatch = ProductPatch(
    nombre: Option<string>,
    existencia: Option<int>,
    precio: Option<real>)

  /** A stored product with the fields present in `patch` overwritten. */
  function Patched(p: Product, patch: ProductPatch): (q: Product)
    ensures patch.nombre.Some? ==> q.nombre == patch.nombre.value
    ensures patch.nombre.None? ==> q.nombre == p.nombre
    ensures patch.existencia.Some? ==> q.existencia == patch.existencia.value
    ensures patch.existencia.None? ==> q.existencia == p.existencia
    ensures patch.precio.Some? ==> q.precio == patch.precio.value
    ensures patch.precio.None? ==> q.precio == p.precio
  {
    Product(patch.nombre.GetOr(p.nombre), patch.existencia.GetOr(p.existencia), patch.precio.GetOr(p.precio))
  }

  /** obtenerProducto: the stored product, or NotFound. */
  function ObtenerProducto(st: Store, id: Id): (r: Result<Product>)
    ensures r.Ok? <==> id in st.products
    ensures r.Ok? ==> r.value == st.products[id]
    ensures r.Err? ==> r.error == NotFound(Products)
  {
    if id !in st.products then Err(NotFound(Products)) else Ok(st.products[id])
  }

  /** actualizarProducto: NotFound with no change when the id is absent;
      otherwise only that product changes, and only in the fields the patch
      carries. The updated product is returned. */
  function ActualizarProducto(st: Store, id: Id, patch: ProductPatch): (r: Response<Product>)
    ensures id !in st.products ==> r == Response(Err(NotFound(Products)), st)
    ensures id in st.products ==> r.result == Ok(Patched(st.products[id], patch))
    ensures r.store.clients == st.clients && r.store.orders == st.orders
    ensures r.store.products.Keys == st.products.Keys
    ensures forall q :: q in st.products && q != id ==> r.store.products[q] == st.products[q]
    ensures id in st.products ==> r.store.products[id] == Patched(st.products[id], patch)
  {
    if id !in st.products then Response(Err(NotFound(Products)), st)
    else
      var p := Patched(st.products[id], patch);
      Response(Ok(p), st.(products := st.products[id := p]))
  }

  /** eliminarProducto: NotFound with no change when the id is absent;
      otherwise exactly that product is removed and the confirmation string
      is returned. Orders naming the product are left as they are. */
  function EliminarProducto(st: Store, id: Id): (r: Response<string>)
    ensures id !in st.products ==> r == Response(Err(NotFound(Products)), st)
    ensures id in st.products ==> r.result == Ok("Producto Eliminado")
    ensures r.store.clients == st.clients && r.store.orders == st.orders
    ensures r.store.products.Keys == st.products.Keys - {id}
    ensures forall q :: q in r.store.products ==> r.store.products[q] == st.products[q]
  {
    if id !in st.products then Response(Err(NotFound(Products)), st)
    else Response(Ok("Producto Eliminado"), st.(products := st.products - {id}))
  }

  /** Reading a product back after a successful update yields the patched
      product; every other id reads as before. */
  lemma UpdateThenRead(st: Store, id: Id, patch: ProductPatch)
    requires id in st.products
    ensures ObtenerProducto(ActualizarProducto(st, id, patch).store, id) == Ok(Patched(st.products[id], patch))
    ensures forall q :: q != id ==>
      ObtenerProducto(ActualizarProducto(st, id, patch).store, q) == ObtenerProducto(st, q)
  {
  }

  /** An update that carries no field leaves the store as it was. */
  lemma EmptyPatchChangesNothing(st: Store, id: Id)
    ensures ActualizarProducto(st, id, ProductPatch(None, None, None)).store == st
  {
  }

  /** After a delete the id reads as NotFound, and a second delete fails. */
  lemma DeleteThenRead(st: Store, id: Id)
    ensures ObtenerProducto(EliminarProducto(st, id).store, id) == Err(NotFound(Products))
    ensures EliminarProducto(EliminarProducto(st, id).store, id).result == Err(NotFound(Products))
  {
  }

  /** A product stocked at 10 and updated to 7 reads back at 7 with its name
      and price unchanged. */
  lemma WidgetExample()
    ensures
      var st := Store(map["w" := Product("Widget", 10, 5.0)], map[], map[]);
      var st' := ActualizarProducto(st, "w", ProductPatch(None, Some(7), None)).store;
      ObtenerProducto(st', "w") == Ok(Product("Widget", 7, 5.0))
  {
  }
}
