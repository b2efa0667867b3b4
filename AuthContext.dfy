/** `backoffice/src/context/AuthContext.tsx`: the back office's session state. The
    provider keeps the signed-in user and a loading flag, and keeps the token in the
    browser's local storage under `authToken`. Every request the axios instance sends
    is logged together with the Authorization header the interceptor adds. The server's
    reply to each request is a parameter. */
module AuthContext {
  import opened Wrappers
  import AuthMiddleware

  /** The user object the backend returns inside `data.data.user`. */
  datatype AuthUser = AuthUser(id: string, email: string, name: string)

  /** The body `register` posts. */
  datatype RegisterData = RegisterData(name: string, email: string, password: string)

  /** A request the axios instance sends, with the header the interceptor attached. */
  datatype Request =
    | GetProfile(authorization: Option<string>)
    | PostLogin(email: string, password: string, authorization: Option<string>)
    | PostRegister(data: RegisterData, authorization: Option<string>)
    | PostLogout(authorization: Option<string>)

  /** The server's answer to `GET /profile`: the user in `data.data`, or a failure. */
  datatype ProfileReply = Profile(user: Option<AuthUser>) | ProfileFailed

  /** The server's answer to `POST /login` and `POST /register`: the user and token in
      `data.data`, or a failure with `response.data.message` when there is one. A
      missing token or user is None. */
  datatype SessionReply =
    | Signed(user: Option<AuthUser>, token: Option<string>)
    | Refused(message: Option<string>)

  const LoginFailed := "Error en el login"
  const RegisterFailed := "Error en el registro"

  /** `token && token !== 'undefined' && token !== 'null'`. A token is usable when it is
      stored, non-empty and not one of the two strings `localStorage` produces when it
      is given `undefined` or `null`. */
  predicate TokenUsable(token: Option<string>) {
    token.Some? && token.value != "" && token.value != "undefined" && token.value != "null"
  }

  /** The Authorization header the request interceptor adds for a stored token. */
  function AuthorizationFor(token: Option<string>): (h: Option<string>)
    ensures h.Some? <==> TokenUsable(token)
    ensures h.Some? ==> h.value == AuthMiddleware.Scheme + token.value
  {
    if TokenUsable(token) then Some(AuthMiddleware.Scheme + token.value) else None
  }

  /** A server that reads the Bearer scheme finds exactly the stored token in the header
      the interceptor sends, and finds no token when none is usable. */
  lemma InterceptorHeaderRoundTrip(token: Option<string>)
    ensures TokenUsable(token) ==> AuthMiddleware.BearerToken(AuthorizationFor(token)) == token
    ensures !TokenUsable(token) ==> AuthMiddleware.BearerToken(AuthorizationFor(token)).None?
  {
    if TokenUsable(token) {
      AuthMiddleware.BearerRoundTrip(token.value);
    }
  }

  /** What `localStorage.setItem` stores for a token: `undefined` becomes the string
      "undefined". */
  function Stored(token: Option<string>): (s: string)
    ensures token.Some? ==> s == token.value
    ensures token.None? ==> !TokenUsable(Some(s))
  {
    if token.Some? then token.value else "undefined"
  }

  /** `message || fallback`: the server's message unless it is missing or empty. */
  function ErrorMessage(message: Option<string>, fallback: string): (r: string)
    ensures message.Some? && message.value != "" ==> r == message.value
    ensures message.None? || message.value == "" ==> r == fallback
  {
    if message.Some? && message.value != "" then message.value else fallback
  }

  class AuthProvider {
    var user: Option<AuthUser>
    var isLoading: bool
    /** `localStorage.getItem('authToken')` */
    var storedToken: Option<string>
    /** The requests sent so far, oldest first. */
    var requests: seq<Request>

    /** The initial state: no user, loading, and whatever local storage already holds. */
    constructor (storedToken: Option<string>)
      ensures user.None? && isLoading && this.storedToken == storedToken && requests == []
    {
      user := None;
      isLoading := true;
      this.storedToken := storedToken;
      requests := [];
    }

    /** `isAuthenticated: !!user` */
    predicate IsAuthenticated()
      reads this
    {
      user.Some?
    }

    /** `checkAuthStatus`. With no usable token it only stops loading: no request is
        sent and the user stays as it was. Otherwise it asks for the profile with the
        token attached; a reply sets the user, a failure removes the token and clears
        the user. Loading is over in every case. */
    method CheckAuthStatus(reply: ProfileReply)
      modifies this
      ensures !isLoading
      ensures !TokenUsable(old(storedToken)) ==>
        user == old(user) && storedToken == old(storedToken) && requests == old(requests)
      ensures TokenUsable(old(storedToken)) ==>
        requests == old(requests) + [GetProfile(AuthorizationFor(old(storedToken)))]
      ensures TokenUsable(old(storedToken)) && reply.Profile? ==>
        user == reply.user && storedToken == old(storedToken)
      ensures TokenUsable(old(storedToken)) && reply.ProfileFailed? ==>
        user.None? && storedToken.None? && !IsAuthenticated()
    {
      if !TokenUsable(storedToken) {
        isLoading := false;
        return;
      }
      requests := requests + [GetProfile(AuthorizationFor(storedToken))];
      match reply {
        case Profile(u) =>
          user := u;
        case ProfileFailed =>
          storedToken := None;
          user := None;
      }
      isLoading := false;
    }

    /** The success and failure branches `login` and `register` share: store the token
        and the user and return true, or throw the server's message or the fallback
        and leave the session as it was. Loading ends false. */
    method Settle(reply: SessionReply, fallback: string) returns (r: Result<bool, string>)
      modifies this
      ensures !isLoading && requests == old(requests)
      ensures reply.Signed? ==>
        r == Ok(true) && storedToken == Some(Stored(reply.token)) && user == reply.user
      ensures reply.Refused? ==>
        r == Err(ErrorMessage(reply.message, fallback))
        && storedToken == old(storedToken) && user == old(user)
    {
      match reply {
        case Signed(u, token) =>
          storedToken := Some(Stored(token));
          user := u;
          r := Ok(true);
        case Refused(message) =>
          r := Err(ErrorMessage(message, fallback));
      }
      isLoading := false;
    }

    /** `login(email, password)`: posts the credentials (with the header of whatever
        token is stored); a signed reply stores its token and user and returns true, a
        refusal throws the server's message or "Error en el login". */
    method Login(email: string, password: string, reply: SessionReply) returns (r: Result<bool, string>)
      modifies this
      ensures !isLoading
      ensures requests == old(requests) + [PostLogin(email, password, AuthorizationFor(old(storedToken)))]
      ensures reply.Signed? ==>
        r == Ok(true) && storedToken == Some(Stored(reply.token)) && user == reply.user
      ensures reply.Refused? ==>
        r == Err(ErrorMessage(reply.message, LoginFailed))
        && storedToken == old(storedToken) && user == old(user)
    {
      isLoading := true;
      requests := requests + [PostLogin(email, password, AuthorizationFor(storedToken))];
      r := Settle(reply, LoginFailed);
    }

    /** `register(userData)`: as `login`, posting the registration data and falling back
        to "Error en el registro". */
    method Register(data: RegisterData, reply: SessionReply) returns (r: Result<bool, string>)
      modifies this
      ensures !isLoading
      ensures requests == old(requests) + [PostRegister(data, AuthorizationFor(old(storedToken)))]
      ensures reply.Signed? ==>
        r == Ok(true) && storedToken == Some(Stored(reply.token)) && user == reply.user
      ensures reply.Refused? ==>
        r == Err(ErrorMessage(reply.message, RegisterFailed))
        && storedToken == old(storedToken) && user == old(user)
    {
      isLoading := true;
      requests := requests + [PostRegister(data, AuthorizationFor(storedToken))];
      r := Settle(reply, RegisterFailed);
    }

    /** `logout`: tells the backend only when a usable token is stored, ignores whatever
        the backend answers, and always removes the token and the user. */
    method Logout()
      modifies this
      ensures storedToken.None? && user.None? && !IsAuthenticated()
      ensures isLoading == old(isLoading)
      ensures TokenUsable(old(storedToken)) ==>
        requests == old(requests) + [PostLogout(AuthorizationFor(old(storedToken)))]
      ensures !TokenUsable(old(storedToken)) ==> requests == old(requests)
    {
      if TokenUsable(storedToken) {
        requests := requests + [PostLogout(AuthorizationFor(storedToken))];
      }
      storedToken := None;
      user := None;
    }
  }
}
