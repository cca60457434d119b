/** The document store the resolvers work on, as an immutable value.

    Every collection of the CRM (products, clients, orders) is a finite map from
    document id to record. A resolver is a pure transition from a store, the
    caller's identity and the request arguments to a `Response`: the value or
    error the request yields, together with the store after the request. */
module Store {

  /** Document and seller ids as abstract keys: a lookup finds a document
      exactly when its id is one of the map's keys, and the ownership test
      compares the stored seller's string form with the caller's id. */
  type Id = string

  datatype Option<+T> = None | Some(value: T) {
    function GetOr(default: T): T {
      match this
      case Some(v) => v
      case None => default
    }
  }

  /** The three collections an error can be about. */
  datatype Collection = Products | Clients | Orders

  /** Failures a resolver raises. `NoIdentity` is the failure of reading the
      caller's id from a request context that holds no user (missing or
      unverifiable token). */
  datatype Error =
    | NotFound(collection: Collection)
    | AlreadyExists
    | Forbidden
    | InsufficientStock(nombre: string)
    | NoIdentity

  datatype Result<+T> = Ok(value: T) | Err(error: Error)

  /** What a resolver yields, and the store it leaves behind. */
  datatype Response<+T> = Response(result: Result<T>, store: Store)

  datatype Product = Product(nombre: string, existencia: int, precio: real)

  datatype Client = Client(
    nombre: string,
    apellido: string,
    empresa: Option<string>,
    email: string,
    telefono: Option<string>,
    vendedor: Id)

  datatype Status = Pendiente | Completado | Cancelado

  /** One line of an order: the product id and the quantity asked for. */
  datatype LineItem = LineItem(id: Id, cantidad: int)

  datatype Order = Order(
    pedido: seq<LineItem>,
    total: real,
    cliente: Id,
    vendedor: Id,
    estado: Status)

  datatype Store = Store(
    products: map<Id, Product>,
    clients: map<Id, Client>,
    orders: map<Id, Order>)

  /** The ownership test every scoped resolver runs: the caller must carry an
      identity, and its id must equal the stored owner id. */
  function Authorize(owner: Id, caller: Option<Id>): (e: Option<Error>)
    ensures e.None? <==> caller == Some(owner)
    ensures e == Some(NoIdentity) <==> caller.None?
    ensures e == Some(Forbidden) <==> caller.Some? && caller.value != owner
  {
    match caller
    case None => Some(NoIdentity)
    case Some(id) => if owner != id then Some(Forbidden) else None
  }
}
