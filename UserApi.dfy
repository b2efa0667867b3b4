/** `src/controllers/UserController.ts`: user administration. Every answer strips the
    password; creating and deleting users is for admins, updating for the user themself
    or an admin. Reading `ctx.state.user.role` without an authenticated state throws,
    which the handlers' catch turns into 500. */
module UserApi {
  import opened Wrappers
  import opened Js
  import opened Lists
  import opened Database
  import opened Http
  import opened AuthApi

  const InvalidId := "ID inválido"
  const InternalError := "Error interno del servidor"
  const CreateForbidden := "Acceso denegado. Solo administradores pueden crear usuarios"
  const UpdateForbidden := "No tienes permisos para actualizar este usuario"
  const DeleteForbidden := "Acceso denegado. Solo administradores pueden eliminar usuarios"
  const SelfDeletion := "No puedes eliminar tu propio usuario"

  /** The bodies `createUser` and `updateUser` read; passwords arrive in clear. */
  datatype CreateBody = CreateBody(name: string, email: string, password: string, role: Option<string>)

  datatype UpdateBody = UpdateBody(
    name: Option<string>, email: Option<string>, password: Option<string>, role: Option<string>)

  /** `users.map(({ password, ...user }) => user)` */
  function StripAll(users: seq<User>): (r: seq<UserView>)
    ensures |r| == |users|
    ensures forall i :: 0 <= i < |users| ==> r[i] == Strip(users[i])
    ensures forall i :: 0 <= i < |users| ==>
      r[i].id == users[i].id && r[i].name == users[i].name && r[i].email == users[i].email
      && r[i].role == users[i].role
  {
    seq(|users|, i requires 0 <= i < |users| => Strip(users[i]))
  }

  /** Who may update user `id`: that user, or an admin. */
  predicate MayUpdate(caller: Payload, id: int) {
    caller.userId == id || caller.role == "admin"
  }

  /** The patch `updateUser` passes on as written: a truthy password is hashed first, and
      the database helper hashes it again. */
  function PatchAsWritten(body: UpdateBody): (p: UserPatch)
    ensures p.name == body.name && p.email == body.email && p.role == body.role
    ensures body.password.Some? && body.password.value != "" ==> p.password == Some(Hash(Plain(body.password.value)))
    ensures body.password.None? ==> p.password.None?
  {
    var pw := match body.password
      case None => None
      case Some(s) => if s != "" then Some(Hash(Plain(s))) else Some(Plain(s));
    UserPatch(body.name, body.email, pw, body.role)
  }

  /** The patch with the clear password, which the database helper hashes once. */
  function Patch(body: UpdateBody): (p: UserPatch)
    ensures p.name == body.name && p.email == body.email && p.role == body.role
    ensures body.password.Some? ==> p.password == Some(Plain(body.password.value))
    ensures body.password.None? ==> p.password.None?
  {
    var pw := match body.password
      case None => None
      case Some(s) => Some(Plain(s));
    UserPatch(body.name, body.email, pw, body.role)
  }

  /** A user stored by the handler as written holds a hash of a hash, so logging in with
      the password that was given is refused. */
  lemma LoginAfterDoubleHash(users: seq<User>, u: User, password: string)
    requires UserWithEmail(users, u.email).None? && u.password == Hash(Hash(Plain(password)))
    ensures Authenticate(users + [u], u.email, password).None?
  {
    UserWithEmailAppend(users, u);
  }

  /** After an update through the handler as written, the stored password is a double
      hash, which `compare` refuses; through the corrected patch it is a single hash,
      which `compare` accepts. */
  lemma UpdatedPasswordLogin(u: User, body: UpdateBody)
    requires body.password.Some? && body.password.value != ""
    ensures !Compare(body.password.value, MergeUser(u, PatchAsWritten(body)).password)
    ensures Compare(body.password.value, MergeUser(u, Patch(body)).password)
  {
    var pw := body.password.value;
    assert PatchAsWritten(body).password == Some(Hash(Plain(pw)));
    assert TruthySecret(PatchAsWritten(body).password);
    assert Patch(body).password == Some(Plain(pw));
  }

  // ---------------------------------------------------------------- handlers

  /** `getUsers`: every user, newest first, without passwords, and their count. */
  method GetUsers(ctx: Context, db: Db)
    requires db.Valid()
    modifies ctx
    ensures ctx.user == old(ctx.user)
    ensures ctx.status == 200 && ctx.body == Success(None, UserList(StripAll(db.AllUsers()), |db.users|))
  {
    var users := db.AllUsers();
    var views := StripAll(users);
    ctx.Respond(200, Success(None, UserList(views, |views|)));
  }

  /** `getUserById`: 400 for a NaN id, 404 when no row has it, otherwise the user without
      its password. */
  method GetUserById(ctx: Context, db: Db, id: JsInt)
    modifies ctx
    ensures ctx.user == old(ctx.user)
    ensures id.NaN? ==> ctx.status == 400 && ctx.body == Failure(InvalidId)
    ensures id.Int? && db.FindUserById(id.v).None? ==> ctx.status == 404 && ctx.body == Failure(UserNotFound)
    ensures id.Int? && db.FindUserById(id.v).Some? ==>
      ctx.status == 200 && ctx.body == Success(None, OneUser(Strip(db.FindUserById(id.v).value)))
  {
    if id.NaN? {
      ctx.Respond(400, Failure(InvalidId));
      return;
    }
    var user := db.FindUserById(id.v);
    if user.None? {
      ctx.Respond(404, Failure(UserNotFound));
      return;
    }
    ctx.Respond(200, Success(None, OneUser(Strip(user.value))));
  }

  /** `createUser` as written: the role is checked before the body is used, then the
      email, and the password is hashed here before the database helper hashes it a
      second time. */
  method CreateUserAsWritten(ctx: Context, db: Db, body: CreateBody, now: int)
    requires db.Valid()
    modifies ctx, db
    ensures db.Valid() && ctx.user == old(ctx.user)
    ensures db.products == old(db.products) && db.nextProductId == old(db.nextProductId)
    ensures ctx.user.None? ==> ctx.status == 500 && ctx.body == Failure(InternalError) && db.users == old(db.users)
    ensures ctx.user.Some? && ctx.user.value.role != "admin" ==>
      ctx.status == 403 && ctx.body == Failure(CreateForbidden) && db.users == old(db.users)
    ensures ctx.user.Some? && ctx.user.value.role == "admin" && old(UserWithEmail(db.users, body.email)).Some? ==>
      ctx.status == 400 && ctx.body == Failure(EmailTaken) && db.users == old(db.users)
    ensures ctx.user.Some? && ctx.user.value.role == "admin" && old(UserWithEmail(db.users, body.email)).None? ==>
      var u := User(old(db.nextUserId), body.name, body.email, Hash(Hash(Plain(body.password))),
                    RoleOrDefault(body.role), now, now);
      && db.users == old(db.users) + [u]
      && ctx.status == 201 && ctx.body == Success(Some("Usuario creado exitosamente"), OneUser(Strip(u)))
      && Authenticate(db.users, body.email, body.password).None?
  {
    if ctx.user.None? {
      ctx.Respond(500, Failure(InternalError));
      return;
    }
    if ctx.user.value.role != "admin" {
      ctx.Respond(403, Failure(CreateForbidden));
      return;
    }
    var existing := db.FindUserByEmail(body.email);
    if existing.Some? {
      ctx.Respond(400, Failure(EmailTaken));
      return;
    }
    var hashed := Hash(Plain(body.password));
    ghost var before := db.users;
    var u := db.CreateUser(NewUser(body.name, body.email, hashed, Some(RoleOrDefault(body.role))), now);
    LoginAfterDoubleHash(before, u, body.password);
    ctx.Respond(201, Success(Some("Usuario creado exitosamente"), OneUser(Strip(u))));
  }

  /** `createUser` with the password handed to the database helper in clear, so it is
      hashed once and the new user can log in. */
  method CreateUser(ctx: Context, db: Db, body: CreateBody, now: int)
    requires db.Valid()
    modifies ctx, db
    ensures db.Valid() && ctx.user == old(ctx.user)
    ensures db.products == old(db.products) && db.nextProductId == old(db.nextProductId)
    ensures ctx.user.None? ==> ctx.status == 500 && ctx.body == Failure(InternalError) && db.users == old(db.users)
    ensures ctx.user.Some? && ctx.user.value.role != "admin" ==>
      ctx.status == 403 && ctx.body == Failure(CreateForbidden) && db.users == old(db.users)
    ensures ctx.user.Some? && ctx.user.value.role == "admin" && old(UserWithEmail(db.users, body.email)).Some? ==>
      ctx.status == 400 && ctx.body == Failure(EmailTaken) && db.users == old(db.users)
    ensures ctx.user.Some? && ctx.user.value.role == "admin" && old(UserWithEmail(db.users, body.email)).None? ==>
      var u := User(old(db.nextUserId), body.name, body.email, Hash(Plain(body.password)),
                    RoleOrDefault(body.role), now, now);
      && db.users == old(db.users) + [u]
      && ctx.status == 201 && ctx.body == Success(Some("Usuario creado exitosamente"), OneUser(Strip(u)))
      && Authenticate(db.users, body.email, body.password) == Some(u)
    ensures UniqueEmails(old(db.users)) ==> UniqueEmails(db.users)
  {
    if ctx.user.None? {
      ctx.Respond(500, Failure(InternalError));
      return;
    }
    if ctx.user.value.role != "admin" {
      ctx.Respond(403, Failure(CreateForbidden));
      return;
    }
    var existing := db.FindUserByEmail(body.email);
    if existing.Some? {
      ctx.Respond(400, Failure(EmailTaken));
      return;
    }
    ghost var before := db.users;
    var u := db.CreateUser(NewUser(body.name, body.email, Plain(body.password), Some(RoleOrDefault(body.role))), now);
    LoginAfterSingleHash(before, u, body.password);
    if UniqueEmails(before) {
      AppendKeepsUnique(before, u);
    }
    ctx.Respond(201, Success(Some("Usuario creado exitosamente"), OneUser(Strip(u))));
  }

  /** The part of `updateUser` shared by the version as written and the corrected one:
      id check (400), then permission (403, or 500 without an authenticated state), then
      the UPDATE with `patch`, 404 when no row has the id. */
  method UpdateWith(ctx: Context, db: Db, id: JsInt, patch: UserPatch, now: int)
    requires db.Valid()
    modifies ctx, db
    ensures db.Valid() && ctx.user == old(ctx.user)
    ensures db.products == old(db.products) && db.nextProductId == old(db.nextProductId)
    ensures db.nextUserId == old(db.nextUserId)
    ensures id.NaN? ==> ctx.status == 400 && ctx.body == Failure(InvalidId) && db.users == old(db.users)
    ensures id.Int? && ctx.user.None? ==>
      ctx.status == 500 && ctx.body == Failure(InternalError) && db.users == old(db.users)
    ensures id.Int? && ctx.user.Some? && !MayUpdate(ctx.user.value, id.v) ==>
      ctx.status == 403 && ctx.body == Failure(UpdateForbidden) && db.users == old(db.users)
    ensures id.Int? && ctx.user.Some? && MayUpdate(ctx.user.value, id.v) ==>
      && |db.users| == |old(db.users)|
      && (forall i :: 0 <= i < |db.users| ==>
            db.users[i] == if old(db.users)[i].id == id.v
                           then MergeUser(old(db.users)[i], patch).(updatedAt := now)
                           else old(db.users)[i])
      && (db.FindUserById(id.v).None? ==> ctx.status == 404 && ctx.body == Failure(UserNotFound))
      && (db.FindUserById(id.v).Some? ==>
            ctx.status == 200
            && ctx.body == Success(Some("Usuario actualizado exitosamente"), OneUser(Strip(db.FindUserById(id.v).value))))
  {
    if id.NaN? {
      ctx.Respond(400, Failure(InvalidId));
      return;
    }
    if ctx.user.None? {
      ctx.Respond(500, Failure(InternalError));
      return;
    }
    if ctx.user.value.userId != id.v && ctx.user.value.role != "admin" {
      ctx.Respond(403, Failure(UpdateForbidden));
      return;
    }
    var updated := db.UpdateUser(id.v, patch, now);
    if updated.None? {
      ctx.Respond(404, Failure(UserNotFound));
      return;
    }
    ctx.Respond(200, Success(Some("Usuario actualizado exitosamente"), OneUser(Strip(updated.value))));
  }

  /** `updateUser` as written: a truthy password is hashed before the patch reaches the
      database helper, which hashes it again. */
  method UpdateUserAsWritten(ctx: Context, db: Db, id: JsInt, body: UpdateBody, now: int)
    requires db.Valid()
    modifies ctx, db
    ensures db.Valid() && ctx.user == old(ctx.user)
    ensures db.products == old(db.products) && db.nextProductId == old(db.nextProductId)
    ensures db.nextUserId == old(db.nextUserId)
    ensures id.NaN? ==> ctx.status == 400 && ctx.body == Failure(InvalidId) && db.users == old(db.users)
    ensures id.Int? && ctx.user.None? ==>
      ctx.status == 500 && ctx.body == Failure(InternalError) && db.users == old(db.users)
    ensures id.Int? && ctx.user.Some? && !MayUpdate(ctx.user.value, id.v) ==>
      ctx.status == 403 && ctx.body == Failure(UpdateForbidden) && db.users == old(db.users)
    ensures id.Int? && ctx.user.Some? && MayUpdate(ctx.user.value, id.v) ==>
      && |db.users| == |old(db.users)|
      && (forall i :: 0 <= i < |db.users| ==>
            db.users[i] == if old(db.users)[i].id == id.v
                           then MergeUser(old(db.users)[i], PatchAsWritten(body)).(updatedAt := now)
                           else old(db.users)[i])
      && (db.FindUserById(id.v).None? ==> ctx.status == 404 && ctx.body == Failure(UserNotFound))
      && (db.FindUserById(id.v).Some? ==>
            ctx.status == 200
            && ctx.body == Success(Some("Usuario actualizado exitosamente"), OneUser(Strip(db.FindUserById(id.v).value))))
  {
    UpdateWith(ctx, db, id, PatchAsWritten(body), now);
  }

  /** `updateUser` with the password passed on in clear, hashed once by the database
      helper. */
  method UpdateUser(ctx: Context, db: Db, id: JsInt, body: UpdateBody, now: int)
    requires db.Valid()
    modifies ctx, db
    ensures db.Valid() && ctx.user == old(ctx.user)
    ensures db.products == old(db.products) && db.nextProductId == old(db.nextProductId)
    ensures db.nextUserId == old(db.nextUserId)
    ensures id.NaN? ==> ctx.status == 400 && ctx.body == Failure(InvalidId) && db.users == old(db.users)
    ensures id.Int? && ctx.user.None? ==>
      ctx.status == 500 && ctx.body == Failure(InternalError) && db.users == old(db.users)
    ensures id.Int? && ctx.user.Some? && !MayUpdate(ctx.user.value, id.v) ==>
      ctx.status == 403 && ctx.body == Failure(UpdateForbidden) && db.users == old(db.users)
    ensures id.Int? && ctx.user.Some? && MayUpdate(ctx.user.value, id.v) ==>
      && |db.users| == |old(db.users)|
      && (forall i :: 0 <= i < |db.users| ==>
            db.users[i] == if old(db.users)[i].id == id.v
                           then MergeUser(old(db.users)[i], Patch(body)).(updatedAt := now)
                           else old(db.users)[i])
      && (db.FindUserById(id.v).None? ==> ctx.status == 404 && ctx.body == Failure(UserNotFound))
      && (db.FindUserById(id.v).Some? ==>
            ctx.status == 200
            && ctx.body == Success(Some("Usuario actualizado exitosamente"), OneUser(Strip(db.FindUserById(id.v).value))))
  {
    UpdateWith(ctx, db, id, Patch(body), now);
  }

  /** `deleteUser`: admin check (403, or 500 without an authenticated state), then the
      id (400), then self-deletion (400), then 404 when nothing was removed. */
  method DeleteUser(ctx: Context, db: Db, id: JsInt)
    requires db.Valid()
    modifies ctx, db
    ensures db.Valid() && ctx.user == old(ctx.user)
    ensures db.products == old(db.products) && db.nextProductId == old(db.nextProductId)
    ensures db.nextUserId == old(db.nextUserId)
    ensures ctx.user.None? ==> ctx.status == 500 && ctx.body == Failure(InternalError) && db.users == old(db.users)
    ensures ctx.user.Some? && ctx.user.value.role != "admin" ==>
      ctx.status == 403 && ctx.body == Failure(DeleteForbidden) && db.users == old(db.users)
    ensures ctx.user.Some? && ctx.user.value.role == "admin" && id.NaN? ==>
      ctx.status == 400 && ctx.body == Failure(InvalidId) && db.users == old(db.users)
    ensures ctx.user.Some? && ctx.user.value.role == "admin" && id.Int? && id.v == ctx.user.value.userId ==>
      ctx.status == 400 && ctx.body == Failure(SelfDeletion) && db.users == old(db.users)
    ensures ctx.user.Some? && ctx.user.value.role == "admin" && id.Int? && id.v != ctx.user.value.userId ==>
      && db.users == Filter(old(db.users), (u: User) => u.id != id.v)
      && ((exists i :: 0 <= i < |old(db.users)| && old(db.users)[i].id == id.v) ==>
            ctx.status == 200 && ctx.body == Success(Some("Usuario eliminado exitosamente"), NoData))
      && ((forall i :: 0 <= i < |old(db.users)| ==> old(db.users)[i].id != id.v) ==>
            ctx.status == 404 && ctx.body == Failure(UserNotFound))
  {
    if ctx.user.None? {
      ctx.Respond(500, Failure(InternalError));
      return;
    }
    if ctx.user.value.role != "admin" {
      ctx.Respond(403, Failure(DeleteForbidden));
      return;
    }
    if id.NaN? {
      ctx.Respond(400, Failure(InvalidId));
      return;
    }
    if ctx.user.value.userId == id.v {
      ctx.Respond(400, Failure(SelfDeletion));
      return;
    }
    var deleted := db.DeleteUser(id.v);
    if !deleted {
      ctx.Respond(404, Failure(UserNotFound));
      return;
    }
    ctx.Respond(200, Success(Some("Usuario eliminado exitosamente"), NoData));
  }
}
