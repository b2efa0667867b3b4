/** The slice of Oak's request context the Deno handlers use: `ctx.response.status`,
    `ctx.response.body` and `ctx.state.user`, plus the JSON shapes they put in the body. */
module Http {
  import opened Wrappers
  import opened Js
  import opened Database

  /** The JWT payload `register` and `login` sign and the middleware stores in
      `ctx.state.user`. */
  datatype Payload = Payload(userId: int, email: string, role: string, exp: int)

  /** A token produced by djwt `create`, kept symbolic: it carries what was signed. */
  datatype Token = Token(payload: Payload)

  /** A user as sent to clients: `const { password, ...rest } = user`. */
  datatype UserView = UserView(id: int, name: string, email: string, role: string, createdAt: int, updatedAt: int)

  function Strip(u: User): (v: UserView)
    ensures v.id == u.id && v.name == u.name && v.email == u.email && v.role == u.role
    ensures v.createdAt == u.createdAt && v.updatedAt == u.updatedAt
  {
    UserView(u.id, u.name, u.email, u.role, u.createdAt, u.updatedAt)
  }

  /** The `pagination` object of the product list. */
  datatype Pagination = Pagination(
    page: JsInt, limit: JsInt, total: nat, totalPages: Ceil, hasNext: bool, hasPrev: bool)

  /** The `data` part of a successful body. */
  datatype Data =
    | NoData
    | ProductList(products: seq<ApiProduct>, pagination: Pagination)
    | OneProduct(product: ApiProduct)
    | SearchResult(found: seq<ApiProduct>, total: nat, searchTerm: string)
    | OneUser(user: UserView)
    | UserList(users: seq<UserView>, count: nat)
    | Session(account: UserView, token: Token)

  /** `{ success: false, error }` or `{ success: true, message?, data? }`. */
  datatype Body = Unset | Failure(error: string) | Success(message: Option<string>, data: Data)

  /** The response a handler has written so far and the authenticated state. Oak answers
      404 until a handler writes something, and 200 when a body is set without a status. */
  class Context {
    var status: int
    var body: Body
    var user: Option<Payload>

    constructor (user: Option<Payload>)
      ensures status == 404 && body == Unset && this.user == user
    {
      status := 404;
      body := Unset;
      this.user := user;
    }

    /** `ctx.state.user = user`: the response is left as it is. */
    method SetUser(user: Option<Payload>)
      modifies this
      ensures this.user == user && status == old(status) && body == old(body)
    {
      this.user := user;
    }

    /** Sets `ctx.response.status` and `ctx.response.body` together. */
    method Respond(status: int, body: Body)
      modifies this
      ensures this.status == status && this.body == body && user == old(user)
    {
      this.status := status;
      this.body := body;
    }
  }
}
