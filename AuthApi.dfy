/** `src/controllers/AuthController.ts`: registration, login and the profile of the
    authenticated user. Token signing is symbolic: a token carries what was signed. */
module AuthApi {
  import opened Wrappers
  import opened Lists
  import opened Database
  import opened Http

  /** `24 * 60 * 60 * 1000`: a token's lifetime in milliseconds. */
  const TokenLifetime: int := 24 * 60 * 60 * 1000

  const EmailTaken := "El email ya está registrado"
  const BadCredentials := "Credenciales inválidas"
  const NotAuthenticated := "Usuario no autenticado"
  const UserNotFound := "Usuario no encontrado"

  /** The JSON body `register` reads; the password arrives in clear. */
  datatype RegisterBody = RegisterBody(name: string, email: string, password: string, role: Option<string>)

  /** The token `register` and `login` sign for a user at instant `now`. */
  function TokenFor(u: User, now: int): (t: Token)
    ensures t.payload.userId == u.id && t.payload.email == u.email && t.payload.role == u.role
    ensures t.payload.exp - now == 86400000
  {
    Token(Payload(u.id, u.email, u.role, now + TokenLifetime))
  }

  /** No two users share an email: what `register` and `createUser` look up before
      inserting. */
  ghost predicate UniqueEmails(users: seq<User>) {
    forall i, j :: 0 <= i < j < |users| ==> users[i].email != users[j].email
  }

  /** Appending a user whose email is not yet taken keeps emails unique. */
  lemma AppendKeepsUnique(users: seq<User>, u: User)
    requires UniqueEmails(users) && UserWithEmail(users, u.email).None?
    ensures UniqueEmails(users + [u])
  {
    forall i, j | 0 <= i < j < |users| + 1
      ensures (users + [u])[i].email != (users + [u])[j].email
    {
      if j == |users| {
        assert users[i].email != u.email;
      }
    }
  }

  /** `login`'s decision: the user with that email, provided `compare` accepts the
      password against its stored hash. An unknown email and a wrong password are not
      told apart. */
  function Authenticate(users: seq<User>, email: string, password: string): (r: Option<User>)
    ensures r.Some? ==> r.value in users && r.value.email == email && Compare(password, r.value.password)
    ensures (forall i :: 0 <= i < |users| ==> users[i].email != email) ==> r.None?
    ensures forall u :: UniqueEmails(users) && u in users && u.email == email && Compare(password, u.password) ==>
      r == Some(u)
  {
    match UserWithEmail(users, email)
    case None => None
    case Some(u) => if Compare(password, u.password) then Some(u) else None
  }

  /** A user stored with a single hash of their password, under an email nobody else
      has, can log in with that email and password. */
  lemma LoginAfterSingleHash(users: seq<User>, u: User, password: string)
    requires UserWithEmail(users, u.email).None? && u.password == Hash(Plain(password))
    ensures Authenticate(users + [u], u.email, password) == Some(u)
  {
    UserWithEmailAppend(users, u);
  }

  /** `register` on a body: 400 when the email is already taken, otherwise the user is
      inserted (the database helper hashes the password and defaults the role) and 201
      carries the user without its password and a token valid for one day. */
  method Register(ctx: Context, db: Db, body: RegisterBody, now: int)
    requires db.Valid()
    modifies ctx, db
    ensures db.Valid() && ctx.user == old(ctx.user)
    ensures db.products == old(db.products) && db.nextProductId == old(db.nextProductId)
    ensures old(UserWithEmail(db.users, body.email)).Some? ==>
      ctx.status == 400 && ctx.body == Failure(EmailTaken)
      && db.users == old(db.users) && db.nextUserId == old(db.nextUserId)
    ensures old(UserWithEmail(db.users, body.email)).None? ==>
      var u := User(old(db.nextUserId), body.name, body.email, Hash(Plain(body.password)),
                    RoleOrDefault(body.role), now, now);
      && db.users == old(db.users) + [u] && db.nextUserId == old(db.nextUserId) + 1
      && ctx.status == 201
      && ctx.body == Success(Some("Usuario registrado exitosamente"), Session(Strip(u), TokenFor(u, now)))
      && Authenticate(db.users, body.email, body.password) == Some(u)
    ensures UniqueEmails(old(db.users)) ==> UniqueEmails(db.users)
  {
    var existing := db.FindUserByEmail(body.email);
    if existing.Some? {
      ctx.Respond(400, Failure(EmailTaken));
      return;
    }
    ghost var before := db.users;
    var u := db.CreateUser(NewUser(body.name, body.email, Plain(body.password), Some(RoleOrDefault(body.role))), now);
    LoginAfterSingleHash(before, u, body.password);
    if UniqueEmails(before) {
      AppendKeepsUnique(before, u);
    }
    var token := TokenFor(u, now);
    ctx.Respond(201, Success(Some("Usuario registrado exitosamente"), Session(Strip(u), token)));
  }

  /** `login`: one 401 body for both an unknown email and a wrong password; otherwise the
      user without its password and a fresh token, with Oak's default 200. */
  method Login(ctx: Context, db: Db, email: string, password: string, now: int)
    modifies ctx
    ensures ctx.user == old(ctx.user)
    ensures Authenticate(db.users, email, password).None? ==>
      ctx.status == 401 && ctx.body == Failure(BadCredentials)
    ensures Authenticate(db.users, email, password).Some? ==>
      var u := Authenticate(db.users, email, password).value;
      ctx.status == 200 && ctx.body == Success(Some("Login exitoso"), Session(Strip(u), TokenFor(u, now)))
  {
    var user := db.FindUserByEmail(email);
    if user.None? {
      ctx.Respond(401, Failure(BadCredentials));
      return;
    }
    var valid := Compare(password, user.value.password);
    if !valid {
      ctx.Respond(401, Failure(BadCredentials));
      return;
    }
    var token := TokenFor(user.value, now);
    ctx.Respond(200, Success(Some("Login exitoso"), Session(Strip(user.value), token)));
  }

  /** `getProfile`: 401 without an authenticated state, 404 when the token's user id is
      no longer in the table, otherwise that user without its password. */
  method GetProfile(ctx: Context, db: Db)
    modifies ctx
    ensures ctx.user == old(ctx.user)
    ensures ctx.user.None? ==> ctx.status == 401 && ctx.body == Failure(NotAuthenticated)
    ensures ctx.user.Some? && db.FindUserById(ctx.user.value.userId).None? ==>
      ctx.status == 404 && ctx.body == Failure(UserNotFound)
    ensures ctx.user.Some? && db.FindUserById(ctx.user.value.userId).Some? ==>
      ctx.status == 200 && ctx.body == Success(None, OneUser(Strip(db.FindUserById(ctx.user.value.userId).value)))
  {
    if ctx.user.None? {
      ctx.Respond(401, Failure(NotAuthenticated));
      return;
    }
    var found := db.FindUserById(ctx.user.value.userId);
    if found.None? {
      ctx.Respond(404, Failure(UserNotFound));
      return;
    }
    ctx.Respond(200, Success(None, OneUser(Strip(found.value))));
  }
}
