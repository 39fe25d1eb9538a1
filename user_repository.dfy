/** data/repository/UserRepository.kt: the requests each operation sends and the
    mapping of responses and exceptions to `Result`. */
module UserRepository {
  import opened Results
  import opened Text
  import opened Models
  import opened Transport

  const INVALID_CREDENTIALS := "Credenciales inválidas"
  const UNAUTHORIZED := "No autorizado"
  const STATUS_PREFIX := "Error: "
  const CONNECTION_PREFIX := "Error de conexión: "

  /** `"Error: ${response.code()} - ${response.message()}"`. */
  function StatusError(code: int, reason: string): (m: string)
    ensures STATUS_PREFIX <= m
  {
    STATUS_PREFIX + IntToString(code) + " - " + reason
  }

  /** `"Error de conexión: ${e.message}"`, whatever the exception's class. */
  function ConnectionError(e: Exception): (m: string)
    ensures CONNECTION_PREFIX <= m
  {
    CONNECTION_PREFIX + MessageText(e.message)
  }

  /** The result of `login` for one call: only 400 and 401 have their own message. */
  function ReceiveLogin(call: Call<AuthResponse>): (r: Result<AuthResponse>)
    ensures r.Success? <==> call.Response? && IsSuccessful(call.code) && call.body.Some?
    ensures r.Success? ==> r.data == call.body.value
    ensures call.Response? && IsSuccessful(call.code) && call.body.None? ==> r == Error(EMPTY_BODY)
    ensures call.Response? && call.code == 400 ==> r == Error(INVALID_CREDENTIALS)
    ensures call.Response? && call.code == 401 ==> r == Error(UNAUTHORIZED)
    ensures call.Response? && !IsSuccessful(call.code) && call.code != 400 && call.code != 401
        ==> r == Error(StatusError(call.code, call.reason))
    ensures call.Thrown? ==> r == Error(ConnectionError(call.e))
  {
    match call
    case Thrown(e) => Error(ConnectionError(e))
    case Response(code, body, reason) =>
      if IsSuccessful(code) then
        match body
        case Some(data) => Success(data)
        case None => Error(EMPTY_BODY)
      else if code == 400 then Error(INVALID_CREDENTIALS)
      else if code == 401 then Error(UNAUTHORIZED)
      else Error(StatusError(code, reason))
  }

  /** The result of `register`, `getProfile` and `updateProfile` for one call:
      every failing status gets the generic message. */
  function Receive<T>(call: Call<T>): (r: Result<T>)
    ensures r.Success? <==> call.Response? && IsSuccessful(call.code) && call.body.Some?
    ensures r.Success? ==> r.data == call.body.value
    ensures call.Response? && IsSuccessful(call.code) && call.body.None? ==> r == Error(EMPTY_BODY)
    ensures call.Response? && !IsSuccessful(call.code) ==> r == Error(StatusError(call.code, call.reason))
    ensures call.Thrown? ==> r == Error(ConnectionError(call.e))
  {
    match call
    case Thrown(e) => Error(ConnectionError(e))
    case Response(code, body, reason) =>
      if IsSuccessful(code) then
        match body
        case Some(data) => Success(data)
        case None => Error(EMPTY_BODY)
      else Error(StatusError(code, reason))
  }

  /** `login` and the other operations disagree only on a 400 or 401 response. */
  lemma LoginDiffersOnlyOn400And401(call: Call<AuthResponse>)
    requires !(call.Response? && (call.code == 400 || call.code == 401))
    ensures ReceiveLogin(call) == Receive(call)
  {
  }

  /** An exception is never mistaken for a status error: the two message families
      have different prefixes. */
  lemma ConnectionErrorsAreNotStatusErrors(e: Exception, code: int, reason: string)
    ensures ConnectionError(e) != StatusError(code, reason)
  {
    var c := ConnectionError(e);
    var s := StatusError(code, reason);
    assert c[6] == CONNECTION_PREFIX[6] != STATUS_PREFIX[6] == s[6];
  }

  /** The requests the four operations send. */
  datatype UserRequest =
    | Login(credentials: User)
    | Register(user: RegisterUser)
    | GetClientProfile(id: string, cookie: string)
    | UpdateClientProfile(id: string, cookie: string, fields: map<string, string>)

  function LoginRequest(email: string, password: string): UserRequest {
    Login(User(email, password))
  }

  function RegisterRequest(user: RegisterUser): UserRequest {
    Register(user)
  }

  function GetProfileRequest(userId: string, token: string): UserRequest {
    GetClientProfile(userId, Cookie(token))
  }

  /** The update body is the map `{"firstName": …, "lastName": …}`. */
  function UpdateProfileRequest(userId: string, token: string, firstName: string, lastName: string): (r: UserRequest)
    ensures r.UpdateClientProfile?
    ensures r.fields.Keys == {"firstName", "lastName"}
    ensures r.fields["firstName"] == firstName && r.fields["lastName"] == lastName
  {
    UpdateClientProfile(userId, Cookie(token), map["firstName" := firstName, "lastName" := lastName])
  }

  /** The authenticated requests carry the caller's token in their cookie and the
      user id in their path. */
  lemma ProfileRequestsCarryToken(userId: string, token: string, firstName: string, lastName: string)
    ensures var r := GetProfileRequest(userId, token); r.id == userId && CookieToken(r.cookie) == Some(token)
    ensures var r := UpdateProfileRequest(userId, token, firstName, lastName);
      r.id == userId && CookieToken(r.cookie) == Some(token)
  {
  }
}
