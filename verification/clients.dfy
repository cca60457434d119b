/** Client resolvers: read one, create, update, delete. A client belongs to the
    seller who created it; every resolver but creation first checks that the
    client exists and then that the caller is its seller. */
module ClientResolvers {
  import opened Store

  /** The fields of a creation request. The seller is not among them: it is
      always taken from the caller. */
  datatype ClientInput = ClientInput(
    nombre: string,
    apellido: string,
    empresa: Option<string>,
    email: string,
    telefono: Option<string>)

  /** The fields an update request may carry; an absent field keeps its value.
      The seller cannot be changed. */
  datatype ClientPatch = ClientPatch(
    nombre: Option<string>,
    apellido: Option<string>,
    empresa: Option<string>,
    email: Option<string>,
    telefono: Option<string>)

  /** Some stored client already has this email. */
  predicate EmailTaken(clients: map<Id, Client>, email: string)
  {
    exists c :: c in clients && clients[c].email == email
  }

  /** No two stored clients share an email. */
  ghost predicate EmailsUnique(clients: map<Id, Client>)
  {
    forall c, d :: c in clients && d in clients && clients[c].email == clients[d].email ==> c == d
  }

  /** A stored client with the fields present in `patch` overwritten. */
  function Patched(c: Client, patch: ClientPatch): (d: Client)
    ensures d.vendedor == c.vendedor
    ensures d.nombre == patch.nombre.GetOr(c.nombre) && d.apellido == patch.apellido.GetOr(c.apellido)
    ensures d.email == patch.email.GetOr(c.email)
    ensures patch.empresa.Some? ==> d.empresa == patch.empresa
    ensures patch.empresa.None? ==> d.empresa == c.empresa
    ensures patch.telefono.Some? ==> d.telefono == patch.telefono
    ensures patch.telefono.None? ==> d.telefono == c.telefono
  {
    Client(
      patch.nombre.GetOr(c.nombre),
      patch.apellido.GetOr(c.apellido),
      if patch.empresa.Some? then patch.empresa else c.empresa,
      patch.email.GetOr(c.email),
      if patch.telefono.Some? then patch.telefono else c.telefono,
      c.vendedor)
  }

  /** The existence-then-ownership check the scoped client resolvers share. */
  function CheckClient(st: Store, caller: Option<Id>, id: Id): (e: Option<Error>)
    ensures id !in st.clients ==> e == Some(NotFound(Clients))
    ensures id in st.clients ==> e == Authorize(st.clients[id].vendedor, caller)
  {
    if id !in st.clients then Some(NotFound(Clients))
    else Authorize(st.clients[id].vendedor, caller)
  }

  /** obtenerCliente: NotFound for an absent id; then the caller must carry an
      identity and be the client's seller; otherwise the stored client. */
  function ObtenerCliente(st: Store, caller: Option<Id>, id: Id): (r: Result<Client>)
    ensures id !in st.clients ==> r == Err(NotFound(Clients))
    ensures id in st.clients && caller.None? ==> r == Err(NoIdentity)
    ensures id in st.clients && caller.Some? && caller.value != st.clients[id].vendedor ==> r == Err(Forbidden)
    ensures r.Ok? <==> id in st.clients && caller == Some(st.clients[id].vendedor)
    ensures r.Ok? ==> r.value == st.clients[id]
  {
    match CheckClient(st, caller, id)
    case Some(e) => Err(e)
    case None => Ok(st.clients[id])
  }

  /** nuevoCliente: AlreadyExists with no change when the email is taken; a
      caller without identity fails with no change; otherwise exactly one
      client is added under the fresh id, owned by the caller. */
  function NuevoCliente(st: Store, caller: Option<Id>, input: ClientInput, newId: Id): (r: Response<Client>)
    requires newId !in st.clients
    ensures EmailTaken(st.clients, input.email) ==> r == Response(Err(AlreadyExists), st)
    ensures !EmailTaken(st.clients, input.email) && caller.None? ==> r == Response(Err(NoIdentity), st)
    ensures r.result.Ok? <==> !EmailTaken(st.clients, input.email) && caller.Some?
    ensures r.result.Ok? ==>
      && r.result.value == Client(input.nombre, input.apellido, input.empresa, input.email, input.telefono, caller.value)
      && r.store == st.(clients := st.clients[newId := r.result.value])
    ensures r.result.Ok? ==> |r.store.clients| == |st.clients| + 1
  {
    if EmailTaken(st.clients, input.email) then Response(Err(AlreadyExists), st)
    else match caller
      case None => Response(Err(NoIdentity), st)
      case Some(seller) =>
        var c := Client(input.nombre, input.apellido, input.empresa, input.email, input.telefono, seller);
        Response(Ok(c), st.(clients := st.clients[newId := c]))
  }

  /** actualizarCliente: existence, then ownership, each failure leaving the
      store unchanged; on success only that client changes, only in the
      patched fields, and keeps its seller. */
  function ActualizarCliente(st: Store, caller: Option<Id>, id: Id, patch: ClientPatch): (r: Response<Client>)
    ensures r.result.Err? ==> r.store == st
    ensures r.result.Err? <==> CheckClient(st, caller, id).Some?
    ensures r.result.Err? ==> r.result.error == CheckClient(st, caller, id).value
    ensures r.result.Ok? ==>
      && caller == Some(st.clients[id].vendedor)
      && r.result.value == Patched(st.clients[id], patch)
      && r.store == st.(clients := st.clients[id := r.result.value])
  {
    match CheckClient(st, caller, id)
    case Some(e) => Response(Err(e), st)
    case None =>
      var c := Patched(st.clients[id], patch);
      Response(Ok(c), st.(clients := st.clients[id := c]))
  }

  /** eliminarCliente: existence, then ownership, each failure leaving the
      store unchanged; on success exactly that client is removed and the
      confirmation string is returned. Orders naming the client stay. */
  function EliminarCliente(st: Store, caller: Option<Id>, id: Id): (r: Response<string>)
    ensures r.result.Err? ==> r.store == st
    ensures r.result.Err? <==> CheckClient(st, caller, id).Some?
    ensures r.result.Err? ==> r.result.error == CheckClient(st, caller, id).value
    ensures r.result.Ok? ==>
      && caller == Some(st.clients[id].vendedor)
      && r.result.value == "Cliente eliminado"
      && r.store == st.(clients := st.clients - {id})
  {
    match CheckClient(st, caller, id)
    case Some(e) => Response(Err(e), st)
    case None => Response(Ok("Cliente eliminado"), st.(clients := st.clients - {id}))
  }

  /** Creation keeps client emails unique. */
  lemma CreationKeepsEmailsUnique(st: Store, caller: Option<Id>, input: ClientInput, newId: Id)
    requires newId !in st.clients
    requires EmailsUnique(st.clients)
    ensures EmailsUnique(NuevoCliente(st, caller, input, newId).store.clients)
  {
    var r := NuevoCliente(st, caller, input, newId);
    if r.result.Ok? {
      var m := r.store.clients;
      forall c, d | c in m && d in m && m[c].email == m[d].email
        ensures c == d
      {
        if c != d && (c == newId || d == newId) {
          assert false;
        }
      }
    }
  }

  /** A created client is readable by its creator and by no one else. */
  lemma CreateThenRead(st: Store, seller: Id, input: ClientInput, newId: Id, other: Option<Id>)
    requires newId !in st.clients
    requires !EmailTaken(st.clients, input.email)
    ensures
      var st' := NuevoCliente(st, Some(seller), input, newId).store;
      && ObtenerCliente(st', Some(seller), newId).Ok?
      && (other != Some(seller) ==> ObtenerCliente(st', other, newId).Err?)
  {
  }

  /** After a successful delete the client reads as NotFound for everyone. */
  lemma DeleteThenRead(st: Store, caller: Option<Id>, id: Id, anyone: Option<Id>)
    requires EliminarCliente(st, caller, id).result.Ok?
    ensures ObtenerCliente(EliminarCliente(st, caller, id).store, anyone, id) == Err(NotFound(Clients))
  {
  }

  /** Update and delete authorise exactly as a read does: they succeed for the
      same (store, caller, id) and fail with the same error. */
  lemma ScopedOperationsAgree(st: Store, caller: Option<Id>, id: Id, patch: ClientPatch)
    ensures ActualizarCliente(st, caller, id, patch).result.Ok? <==> ObtenerCliente(st, caller, id).Ok?
    ensures EliminarCliente(st, caller, id).result.Ok? <==> ObtenerCliente(st, caller, id).Ok?
    ensures ObtenerCliente(st, caller, id).Err? ==>
      && ActualizarCliente(st, caller, id, patch).result.error == ObtenerCliente(st, caller, id).error
      && EliminarCliente(st, caller, id).result.error == ObtenerCliente(st, caller, id).error
  {
  }
}
