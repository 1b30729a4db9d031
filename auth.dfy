/** The renderer's session (authService.js): the module-level token and user, their copies
    in localStorage, and how the responses of the login and synchronisation requests are
    classified. The network is an input: the reply a request received. */
module Auth {
  import opened Wrappers
  import opened Text
  import opened JsValues

  /** The user object the server returns on login. */
  datatype User = User(name: Option<string>, email: Option<string>)

  /** The text stored under `finance_app_user`: the JSON of a user (or of `null`, which
      reads back as no user), or a text JSON.parse rejects. */
  datatype StoredUser = Serialized(user: Option<User>) | Unparsable(text: string)

  /** localStorage's string truthiness: serialised JSON is never empty. */
  predicate StoredTruthy(s: Option<StoredUser>) {
    match s
    case None => false
    case Some(Serialized(_)) => true
    case Some(Unparsable(t)) => t != ""
  }

  class Session {
    var currentToken: Option<string>
    var currentUser: Option<User>
    var storedToken: Option<string>
    var storedUser: Option<StoredUser>

    /** The module as loaded: nothing in memory, localStorage as left by earlier runs. */
    constructor (storedToken: Option<string>, storedUser: Option<StoredUser>)
      ensures currentToken == None && currentUser == None
      ensures this.storedToken == storedToken && this.storedUser == storedUser
    {
      currentToken, currentUser := None, None;
      this.storedToken, this.storedUser := storedToken, storedUser;
    }

    /** isAuthenticated: both the token and the user are truthy. */
    predicate IsAuthenticated()
      reads this
    {
      StrTruthy(currentToken) && currentUser.Some?
    }

    /** The state clearStoredAuth leaves: nothing in memory and nothing stored. */
    predicate Cleared()
      reads this
    {
      currentToken == None && currentUser == None && storedToken == None && storedUser == None
    }

    method SaveAuth(token: string, user: User)
      modifies this
      ensures currentToken == Some(token) && currentUser == Some(user)
      ensures storedToken == Some(token) && storedUser == Some(Serialized(Some(user)))
      ensures token != "" ==> IsAuthenticated()
    {
      currentToken, currentUser := Some(token), Some(user);
      storedToken, storedUser := Some(token), Some(Serialized(Some(user)));
    }

    method ClearStoredAuth()
      modifies this
      ensures Cleared() && !IsAuthenticated()
    {
      currentToken, currentUser := None, None;
      storedToken, storedUser := None, None;
    }

    /** logout: clears the session (the screen switch and the toast are not modelled). */
    method Logout()
      modifies this
      ensures Cleared() && !IsAuthenticated()
    {
      ClearStoredAuth();
    }

    /** loadStoredAuth: adopts the stored token and user only when both stored texts are
        truthy; a user text JSON.parse rejects clears everything. */
    method LoadStoredAuth()
      modifies this
      ensures var both := StrTruthy(old(storedToken)) && StoredTruthy(old(storedUser));
              if !both then unchanged(this)
              else if old(storedUser).value.Unparsable? then Cleared()
              else currentToken == old(storedToken) && currentUser == old(storedUser).value.user
                   && storedToken == old(storedToken) && storedUser == old(storedUser)
      ensures IsAuthenticated() <==>
                (old(IsAuthenticated()) && !(StrTruthy(old(storedToken)) && StoredTruthy(old(storedUser))))
                || (StrTruthy(old(storedToken)) && old(storedUser) != None
                    && old(storedUser).value.Serialized? && old(storedUser).value.user.Some?)
    {
      if StrTruthy(storedToken) && StoredTruthy(storedUser) {
        match storedUser.value
        case Serialized(u) =>
          currentToken := storedToken;
          currentUser := u;
        case Unparsable(_) =>
          currentToken := storedToken;
          ClearStoredAuth();
      }
    }

    /** login: the session changes only when the reply is ok and carries a token and a
        user; otherwise the error is returned and nothing changes. */
    method Login(reply: LoginReply) returns (r: Result<Credentials>)
      modifies this
      ensures r == LoginCheck(reply)
      ensures r.Success? ==> currentToken == Some(r.value.token) && currentUser == Some(r.value.user)
                             && storedToken == currentToken
                             && storedUser == Some(Serialized(currentUser)) && IsAuthenticated()
      ensures r.Failure? ==> unchanged(this)
    {
      r := LoginCheck(reply);
      if r.Success? {
        SaveAuth(r.value.token, r.value.user);
      }
    }

    /** syncWithAPI: throws before any request when not authenticated; otherwise
        classifies the reply, and logs out when the error message mentions 401 or an
        expired session (after a 401 that is a second logout, which changes nothing). */
    method SyncWithAPI(reply: HttpReply) returns (r: Result<Json>)
      modifies this
      ensures !old(IsAuthenticated()) ==> r == Failure(NotAuthenticated) && unchanged(this)
      ensures old(IsAuthenticated()) ==> r == FetchResult(reply)
      ensures old(IsAuthenticated()) && r.Failure? && AuthError(r.error) ==> Cleared()
      ensures old(IsAuthenticated()) && !(r.Failure? && AuthError(r.error)) ==> unchanged(this)
    {
      if !IsAuthenticated() {
        return Failure(NotAuthenticated);
      }
      if reply.Reply? && reply.status == 401 {
        Logout();
        ExpiredIsAuthError(reply);
      }
      r := FetchResult(reply);
      if r.Failure? && AuthError(r.error) {
        Logout();
      }
    }
  }

  const NotAuthenticated: string := "Usuário não autenticado"
  const Expired: string := "Sessão " + "expirada" + ". Faça login novamente."

  // ---------------------------------------------------------------------------
  // Login

  /** The JSON body of the login reply. */
  datatype LoginBody = LoginBody(message: Option<string>, token: Option<string>, user: Option<User>)

  /** What `fetch` and `response.json()` produced: a thrown error, a body that is not
      JSON, or a parsed body with the `ok` flag. */
  datatype LoginReply = NoResponse(message: string) | Unreadable(message: string)
                      | Answer(ok: bool, body: LoginBody)

  datatype Credentials = Credentials(token: string, user: User)

  /** The outcome of login: the credentials to save, or the error message shown. */
  function LoginCheck(reply: LoginReply): (r: Result<Credentials>)
    ensures r.Success? <==> reply.Answer? && reply.ok && StrTruthy(reply.body.token)
                             && reply.body.user.Some?
    ensures r.Success? ==> r.value.token != "" && Some(r.value.token) == reply.body.token
                           && Some(r.value.user) == reply.body.user
    ensures reply.Answer? && !reply.ok ==>
              r.error == if StrTruthy(reply.body.message) then reply.body.message.value
                         else "Erro na autenticação"
  {
    match reply
    case NoResponse(m) => Failure(m)
    case Unreadable(m) => Failure(m)
    case Answer(ok, body) =>
      if !ok then Failure(if StrTruthy(body.message) then body.message.value else "Erro na autenticação")
      else if !StrTruthy(body.token) || body.user.None? then Failure("Resposta inválida do servidor")
      else Success(Credentials(body.token.value, body.user.value))
  }

  // ---------------------------------------------------------------------------
  // Synchronisation request

  /** The reply of the HTTP bridge: the call threw, it reported a transport failure, or it
      delivered a status and a body. */
  datatype HttpReply = Thrown(message: string) | Failed(error: Option<string>)
                     | Reply(status: int, statusText: Option<string>, data: Json)

  /** Whether a caught error makes syncWithAPI log out. */
  predicate AuthError(message: string) {
    Contains(message, "401") || Contains(message, "expirada")
  }

  /** The value syncWithAPI returns, or the message of the error it throws, for an
      authenticated session. */
  function FetchResult(reply: HttpReply): (r: Result<Json>)
    ensures r.Success? <==> reply.Reply? && reply.status == 200 && reply.data != Falsy
                             && !(reply.data.Object? && reply.data.successFalse)
    ensures r.Success? ==> r.value == if reply.data.Object? && reply.data.data != Falsy
                                      then reply.data.data else reply.data
    ensures r.Success? ==> r.value != Falsy
  {
    match reply
    case Thrown(m) => Failure(m)
    case Failed(e) => Failure("Erro na requisição: " + StrText(e))
    case Reply(status, statusText, data) =>
      if status == 401 then Failure(Expired)
      else if status != 200 then
        Failure("HTTP " + IntText(status) + ": " + (if StrTruthy(statusText) then statusText.value else "Erro na API"))
      else if data == Falsy then Failure("Nenhum dado retornado da API")
      else if data.Object? && data.successFalse then
        Failure(if StrTruthy(data.message) then data.message.value else "Erro ao sincronizar dados")
      else if data.Object? && data.data != Falsy then Success(data.data)
      else Success(data)
  }

  /** A 401 reply fails with a message that triggers the logout. */
  lemma ExpiredIsAuthError(reply: HttpReply)
    requires reply.Reply? && reply.status == 401
    ensures FetchResult(reply) == Failure(Expired) && AuthError(FetchResult(reply).error)
  {
    assert StartsWith("expirada", "expirada");
    ContainsExtend("Sessão ", "expirada", ". Faça login novamente.", "expirada");
  }

}
