/** The HTTP client (src/clients/apiClient.ts). The server is an input: a
    function from the request sent to the response received. A response
    body either parses as JSON with the fields the code reads, or does not,
    in which case `response.json()` throws the parser's message. */
module ApiClient {
  import opened Wrappers
  import opened Text

  /** A session token; `expires` is the expiry instant in milliseconds since
      the epoch (what `Date.getTime()` returns). */
  datatype TokenData = TokenData(key: string, expires: int)

  /** The JSON object `JSON.stringify({ username, password })` sends. */
  datatype LoginPayload = LoginPayload(username: string, password: string)

  datatype Request = Request(
    verb: string,
    url: string,
    headers: seq<(string, string)>,
    body: Option<LoginPayload>)

  datatype Body<T> = Json(data: T) | NotJson(parseError: string)

  datatype Response<T> = Response(status: int, body: Body<T>)

  /** The login endpoint's JSON: `key` and `expires` (seconds) on success,
      an optional `error` otherwise. */
  datatype LoginData = LoginData(key: string, expires: int, error: Option<string>)

  /** The validation endpoint's JSON: the exit time in milliseconds. */
  datatype ValidateData = ValidateData(exitTime: int)

  const LoginFailedPrefix := "Logowanie nieudane, błąd: "
  const UnknownError := "nieznany"
  const InvalidTicketMessage := "Nieprawidłowy numer biletu."
  const ValidationFailedMessage := "Walidacja biletu nieudana, spróbuj ponownie."
  const MaxTicketIdLength := 100

  function LoginRequest(apiUrl: string, username: string, password: string): (req: Request)
    ensures req.url == apiUrl + "/login" && req.verb == "POST"
    ensures req.headers == [("Content-Type", "application/json")]
    ensures req.body == Some(LoginPayload(username, password))
  {
    Request("POST", apiUrl + "/login", [("Content-Type", "application/json")],
            Some(LoginPayload(username, password)))
  }

  /** How `login` reads the response: a non-200 status throws the login
      failure message built from the body's `error` field; a 200 returns the
      key and the expiry converted from seconds to milliseconds. */
  function LoginOutcome(response: Response<LoginData>): (r: Result<TokenData>)
    ensures response.status != 200 ==>
      r.Err? && r.message == LoginFailedPrefix + LoginErrorDetail(response.body)
    ensures response.status == 200 && response.body.Json? ==>
      r == Ok(TokenData(response.body.data.key, response.body.data.expires * 1000))
    ensures response.status == 200 && response.body.NotJson? ==>
      r == Err(response.body.parseError)
  {
    if response.status != 200 then
      Err(LoginFailedPrefix + LoginErrorDetail(response.body))
    else
      match response.body
      case Json(data) => Ok(TokenData(data.key, data.expires * 1000))
      case NotJson(parseError) => Err(parseError)
  }

  /** `errorData.error ?? 'nieznany'`, where `errorData` stays `{}` when the
      body does not parse. */
  function LoginErrorDetail(body: Body<LoginData>): (detail: string)
    ensures body.Json? && body.data.error.Some? ==> detail == body.data.error.value
    ensures body.NotJson? || body.data.error.None? ==> detail == UnknownError
  {
    match body
    case Json(data) => data.error.GetOr(UnknownError)
    case NotJson(_) => UnknownError
  }

  /** `login`: one request to the login endpoint, read as above. A
      non-200 status always fails with the login failure prefix; a success
      comes only from a 200 with a parsed body, whose key it keeps and whose
      seconds it turns into milliseconds. */
  function Login(apiUrl: string, username: string, password: string,
                 server: Request -> Response<LoginData>): (r: Result<TokenData>)
    ensures var resp := server(LoginRequest(apiUrl, username, password));
      resp.status != 200 ==> r.Err? && LoginFailedPrefix <= r.message
    ensures var resp := server(LoginRequest(apiUrl, username, password));
      r.Ok? ==> resp.status == 200 && resp.body.Json? &&
                r.value == TokenData(resp.body.data.key, resp.body.data.expires * 1000)
  {
    LoginOutcome(server(LoginRequest(apiUrl, username, password)))
  }

  /** A successful login keeps the key and reports the expiry in
      milliseconds, a thousand times the seconds the server sent. */
  lemma LoginConvertsSeconds(apiUrl: string, username: string, password: string,
                             server: Request -> Response<LoginData>)
    requires var resp := server(LoginRequest(apiUrl, username, password));
      resp.status == 200 && resp.body.Json?
    ensures var data := server(LoginRequest(apiUrl, username, password)).body.data;
      Login(apiUrl, username, password, server) == Ok(TokenData(data.key, data.expires * 1000))
  {
  }

  /** The guard of `validateTicketAndGetExitTime`: a non-empty digit string
      of at most 100 characters. */
  predicate ValidTicketId(ticketId: string) {
    MatchesDigitRun(ticketId) && |ticketId| <= MaxTicketIdLength
  }

  function ValidateRequest(apiUrl: string, ticketId: string, apiToken: string): (req: Request)
    ensures req.url == apiUrl + "/validate/" + ticketId && req.verb == "POST"
    ensures req.headers == [("Content-Type", "application/json"), ("Authorization", "Token " + apiToken)]
    ensures req.body == None
  {
    Request("POST", apiUrl + "/validate/" + ticketId,
            [("Content-Type", "application/json"), ("Authorization", "Token " + apiToken)], None)
  }

  /** How the validation response is read: a 200 gives the exit time; any
      other status throws the retry message, unless reading its body for the
      log already throws; a body that does not parse throws the parser's
      message. */
  function ValidateOutcome(response: Response<ValidateData>): (r: Result<int>)
    ensures response.body.NotJson? ==> r == Err(response.body.parseError)
    ensures response.body.Json? && response.status != 200 ==> r == Err(ValidationFailedMessage)
    ensures response.body.Json? && response.status == 200 ==> r == Ok(response.body.data.exitTime)
  {
    match response.body
    case NotJson(parseError) => Err(parseError)
    case Json(data) =>
      if response.status != 200 then Err(ValidationFailedMessage) else Ok(data.exitTime)
  }

  /** `validateTicketAndGetExitTime`: an invalid ticket number is refused
      before any request; otherwise one request is sent and its response
      read as above. */
  function ValidateTicketAndGetExitTime(apiUrl: string, ticketId: string, apiToken: string,
                                        server: Request -> Response<ValidateData>): (r: Result<int>)
    ensures !ValidTicketId(ticketId) ==> r == Err(InvalidTicketMessage)
    ensures ValidTicketId(ticketId) ==> r == ValidateOutcome(server(ValidateRequest(apiUrl, ticketId, apiToken)))
  {
    if !ValidTicketId(ticketId) then Err(InvalidTicketMessage)
    else ValidateOutcome(server(ValidateRequest(apiUrl, ticketId, apiToken)))
  }

  /** A refused ticket number does not depend on the server at all: no
      request is made. */
  lemma RefusedWithoutRequest(apiUrl: string, ticketId: string, apiToken: string,
                              one: Request -> Response<ValidateData>,
                              other: Request -> Response<ValidateData>)
    requires !ValidTicketId(ticketId)
    ensures ValidateTicketAndGetExitTime(apiUrl, ticketId, apiToken, one) ==
            ValidateTicketAndGetExitTime(apiUrl, ticketId, apiToken, other)
  {
  }

  /** The guard accepts exactly the non-empty digit strings of length at
      most 100. */
  lemma TicketGuard(ticketId: string)
    ensures ValidTicketId(ticketId) <==> 0 < |ticketId| <= 100 && AllDigits(ticketId)
  {
  }
}
