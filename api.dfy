/**
 * The backend as the app sees it (src/services/api.js): the requests it can
 * issue, the responses it gets back, and how each flow of src/auth.js and
 * src/media.js classifies a response. Each classification is a function of
 * one response, so the flows themselves (module App) only sequence them.
 */
module Api {
  import opened Wrappers
  import opened Json
  import opened Cards

  datatype Credentials = Credentials(email: string, senha: string)

  /** The JSON body `{titulo, descricao}` of a create or edit request. */
  datatype Payload = Payload(titulo: string, descricao: string)

  /** One request, with the arguments that reach the network. */
  datatype ApiCall =
    | PostLogin(credentials: Credentials)
    | PostRegister(credentials: Credentials)
    | GetProfile(token: string)
    | GetNotas(token: string)
    | PostNota(payload: Payload, bearer: Option<string>)
    | PutNota(id: string, payload: Payload, bearer: Option<string>)
    | DeleteNota(id: string, token: string)

  /**
   * A response body: its raw text and what JSON parsing makes of that text
   * (None when it is not JSON).
   */
  datatype Body = Body(text: string, json: Option<Json>)

  /** What `fetch` settles with: a response, or a rejection (network failure). */
  datatype Reply = Response(status: int, body: Body) | NetworkFailure {
    /** `response.ok` */
    predicate Ok() {
      Response? && 200 <= status <= 299
    }
    /** A 401 or 403 answer: the session is no longer accepted. */
    predicate AuthRejected() {
      Response? && (status == 401 || status == 403)
    }
  }

  /**
   * The backend is a script of replies, consumed one per request; once the
   * script is exhausted every request fails as a network failure.
   */
  function Peek(server: seq<Reply>): (r: Reply)
    ensures server == [] ==> r == NetworkFailure
    ensures server != [] ==> r == server[0]
  {
    if server == [] then NetworkFailure else server[0]
  }

  function Rest(server: seq<Reply>): (r: seq<Reply>)
    ensures |r| == if server == [] then 0 else |server| - 1
  {
    if server == [] then [] else server[1..]
  }

  // Messages of errors the JavaScript engine raises; their exact wording
  // depends on the browser.
  const FETCH_FAILED := "Failed to fetch"
  const JSON_SYNTAX_ERROR := "SyntaxError: response is not valid JSON"
  const TYPE_ERROR := "TypeError"

  const SESSION_EXPIRED := "Sessão expirada. Faça o login novamente."
  const SERVER_UNREACHABLE := "Erro ao comunicar com o servidor."
  const LOGIN_UNKNOWN_ERROR := "Erro desconhecido"
  const LOGIN_INVALID := "Credenciais inválidas."
  const LOGIN_NO_TOKEN := "Login OK, mas o backend não retornou o token na chave \"access\" ou \"access_token\"."
  const REGISTER_UNKNOWN_ERROR := "Erro desconhecido ao cadastrar."
  const SAVE_FAILED_PREFIX := "Falha ao salvar: Status "
  const DELETE_FAILED_PREFIX := "Falha ao deletar: Status "

  /** `error.message || 'Erro ao comunicar com o servidor.'` in the auth flows. */
  function CaughtText(message: string): (r: string)
    ensures r != ""
    ensures message != "" ==> r == message
  {
    if message != "" then message else SERVER_UNREACHABLE
  }

  // ---- getMe (src/auth.js:30-56) ----

  datatype ProfileResult = ProfileRejected | NoProfile | Profile(user: Json)

  /** How `getMe` classifies the answer to `GET /me`. */
  function ProfileOutcome(reply: Reply): (r: ProfileResult)
    ensures r.ProfileRejected? <==> reply.AuthRejected()
    ensures r.Profile? <==> reply.Ok() && reply.body.json.Some? && reply.body.json.value != JNull
    ensures r.Profile? ==> var data := reply.body.json.value;
      (TruthyOpt(Get(data, "info")) ==> r.user == Get(data, "info").value) &&
      (!TruthyOpt(Get(data, "info")) ==> r.user == data)
  {
    if reply.NetworkFailure? then NoProfile
    else if reply.status == 403 || reply.status == 401 then ProfileRejected
    else if !reply.Ok() then NoProfile
    else match reply.body.json
      case None => NoProfile
      case Some(data) => if data.JNull? then NoProfile else Profile(Or(Get(data, "info"), data))
  }

  /** `if (user)` in `checkAuthentication`: a profile that is a truthy value. */
  predicate SignedIn(p: ProfileResult) {
    p.Profile? && Truthy(p.user)
  }

  /** A profile whose `info` is an object always counts as signed in. */
  lemma InfoObjectSignsIn(reply: Reply, info: map<string, Json>)
    requires reply.Ok() && reply.body.json.Some? && Get(reply.body.json.value, "info") == Some(JObj(info))
    ensures SignedIn(ProfileOutcome(reply)) && ProfileOutcome(reply).user == JObj(info)
  {
  }

  // ---- handleLogin (src/auth.js:62-97) ----

  datatype LoginResult = LoginFailed(message: string) | LoggedIn(token: string)

  /**
   * How `handleLogin` classifies the answer to `POST /login`: the token is
   * `access` when truthy, else `access_token` when truthy; `localStorage`
   * keeps it as a string.
   */
  function LoginOutcome(reply: Reply): (r: LoginResult)
    ensures r.LoggedIn? ==> reply.Ok()
    ensures r.LoginFailed? ==> r.message != ""
    ensures reply.NetworkFailure? ==> r == LoginFailed(FETCH_FAILED)
    ensures reply.Ok() && reply.body.json.Some? && reply.body.json.value != JNull ==> r == TokenField(reply.body.json.value)
    ensures reply.Ok() && (reply.body.json.None? || reply.body.json.value == JNull) ==> r.LoginFailed?
    ensures reply.Response? && !reply.Ok() && reply.body.json.Some? && reply.body.json.value != JNull ==>
      r == LoginFailed(CaughtText(Display(Or(Get(reply.body.json.value, "detail"), JStr(LOGIN_INVALID)))))
    ensures reply.Response? && !reply.Ok() && reply.body.json.None? ==> r == LoginFailed(LOGIN_UNKNOWN_ERROR)
  {
    if reply.NetworkFailure? then LoginFailed(CaughtText(FETCH_FAILED))
    else if !reply.Ok() then
      var error := if reply.body.json.None? then JObj(map["detail" := JStr(LOGIN_UNKNOWN_ERROR)]) else reply.body.json.value;
      if error.JNull? then LoginFailed(CaughtText(TYPE_ERROR))
      else LoginFailed(CaughtText(Display(Or(Get(error, "detail"), JStr(LOGIN_INVALID)))))
    else match reply.body.json
      case None => LoginFailed(CaughtText(JSON_SYNTAX_ERROR))
      case Some(data) =>
        if data.JNull? then LoginFailed(CaughtText(TYPE_ERROR))
        else TokenField(data)
  }

  /** The token-field choice of src/auth.js:76-84. */
  function TokenField(data: Json): (r: LoginResult)
    ensures TruthyOpt(Get(data, "access")) ==> r == LoggedIn(Display(Get(data, "access").value))
    ensures !TruthyOpt(Get(data, "access")) && TruthyOpt(Get(data, "access_token")) ==> r == LoggedIn(Display(Get(data, "access_token").value))
    ensures !TruthyOpt(Get(data, "access")) && !TruthyOpt(Get(data, "access_token")) ==> r == LoginFailed(LOGIN_NO_TOKEN)
  {
    var access := Get(data, "access");
    if TruthyOpt(access) then LoggedIn(Display(access.value))
    else
      var accessToken := Get(data, "access_token");
      if TruthyOpt(accessToken) then LoggedIn(Display(accessToken.value))
      else LoginFailed(LOGIN_NO_TOKEN)
  }

  /**
   * A refused login shows the server's `detail`, or "Credenciais inválidas."
   * when the error body has none.
   */
  lemma LoginRefusedMessage(status: int, text: string, error: map<string, Json>)
    requires !(200 <= status <= 299)
    ensures "detail" in error && error["detail"].JStr? && error["detail"].s != "" ==>
      LoginOutcome(Response(status, Body(text, Some(JObj(error))))) == LoginFailed(error["detail"].s)
    ensures !TruthyOpt(Get(JObj(error), "detail")) ==>
      LoginOutcome(Response(status, Body(text, Some(JObj(error))))) == LoginFailed(LOGIN_INVALID)
  {
  }

  // ---- handleRegister (src/auth.js:103-135) ----

  datatype RegisterResult = RegisterFailed(message: string) | Registered

  /**
   * How `handleRegister` classifies the answer to `POST /usuarios/criar`.
   * The body is parsed before the status is looked at.
   */
  function RegisterOutcome(reply: Reply): (r: RegisterResult)
    ensures r.Registered? <==> reply.Ok() && reply.body.json.Some?
    ensures r.RegisterFailed? ==> r.message != ""
    ensures reply.Response? && !reply.Ok() && reply.body.json.Some? && reply.body.json.value != JNull ==>
      r == RegisterFailed(CaughtText(Display(Or(Get(reply.body.json.value, "detail"), JStr(REGISTER_UNKNOWN_ERROR)))))
  {
    if reply.NetworkFailure? then RegisterFailed(CaughtText(FETCH_FAILED))
    else match reply.body.json
      case None => RegisterFailed(CaughtText(JSON_SYNTAX_ERROR))
      case Some(data) =>
        if reply.Ok() then Registered
        else if data.JNull? then RegisterFailed(CaughtText(TYPE_ERROR))
        else RegisterFailed(CaughtText(Display(Or(Get(data, "detail"), JStr(REGISTER_UNKNOWN_ERROR)))))
  }

  /**
   * A refused registration shows the server's `detail`, or "Erro desconhecido
   * ao cadastrar." when the error body has none.
   */
  lemma RegisterRefusedMessage(status: int, text: string, error: map<string, Json>)
    requires !(200 <= status <= 299)
    ensures "detail" in error && error["detail"].JStr? && error["detail"].s != "" ==>
      RegisterOutcome(Response(status, Body(text, Some(JObj(error))))) == RegisterFailed(error["detail"].s)
    ensures !TruthyOpt(Get(JObj(error), "detail")) ==>
      RegisterOutcome(Response(status, Body(text, Some(JObj(error))))) == RegisterFailed(REGISTER_UNKNOWN_ERROR)
  {
  }

  // ---- loadMediaList (src/media.js:122-161) ----

  /**
   * The list normalisation of src/media.js:149-151 together with the checks
   * `renderMediaList` makes: an array is kept, any other object becomes its
   * `items` array or `[]`, a falsy value renders as the empty list; `null`
   * and other truthy values throw a TypeError (None).
   */
  function NormaliseList(data: Json): (r: Option<seq<Json>>)
    ensures data.JArr? ==> r == Some(data.items)
    ensures data.JObj? ==> r.Some? && ("items" in data.fields && data.fields["items"].JArr? ==> r.value == data.fields["items"].items)
    ensures data.JObj? && !("items" in data.fields && data.fields["items"].JArr?) ==> r == Some([])
    ensures r.None? <==> data.JNull? || (!data.JArr? && !data.JObj? && Truthy(data))
  {
    match data
    case JArr(xs) => Some(xs)
    case JObj(fields) => Some(if "items" in fields && fields["items"].JArr? then fields["items"].items else [])
    case JNull => None
    case _ => if Truthy(data) then None else Some([])
  }

  datatype ListResult = ListRejected | ListFailed(message: string) | Listed(notas: seq<Json>, cards: seq<CardView>)

  /**
   * How `loadMediaList` handles the answer to `GET /notas/`. A non-2xx status
   * other than 401/403 is not treated as a failure: its body is read like a
   * list.
   */
  function ListOutcome(reply: Reply): (r: ListResult)
    ensures r.ListRejected? <==> reply.AuthRejected()
    ensures r.Listed? ==> |r.cards| == |r.notas| && forall k :: 0 <= k < |r.notas| ==> CardOf(r.notas[k]) == Some(r.cards[k])
    ensures r.Listed? ==> reply.Response? && reply.body.json.Some? && NormaliseList(reply.body.json.value) == Some(r.notas)
    ensures r.Listed? <==> && reply.Response? && !reply.AuthRejected() && reply.body.json.Some?
                           && NormaliseList(reply.body.json.value).Some?
                           && RenderCards(NormaliseList(reply.body.json.value).value).Some?
  {
    if reply.NetworkFailure? then ListFailed(FETCH_FAILED)
    else if reply.AuthRejected() then ListRejected
    else match reply.body.json
      case None => ListFailed(JSON_SYNTAX_ERROR)
      case Some(data) =>
        match NormaliseList(data)
        case None => ListFailed(TYPE_ERROR)
        case Some(notas) =>
          match RenderCards(notas)
          case None => ListFailed(TYPE_ERROR)
          case Some(cards) => Listed(notas, cards)
  }

  /** Every field of the element is a string. */
  predicate StringFields(nota: Json) {
    nota.JObj? && forall key :: key in nota.fields ==> nota.fields[key].JStr?
  }

  /** An object with string fields always renders as a card. */
  lemma StringFieldsRender(nota: Json)
    requires StringFields(nota)
    ensures CardOf(nota).Some?
  {
    var t := Or(Get(nota, "titulo"), JStr(NO_URL));
    var d := Or(Get(nota, "descricao"), JStr(NO_DESCRIPTION));
    assert t.JStr? && d.JStr?;
  }

  /**
   * A non-2xx answer other than 401/403 whose body is an array of objects
   * with string fields is listed like a success.
   */
  lemma ErrorStatusListed(status: int, text: string, notas: seq<Json>)
    requires !(200 <= status <= 299) && status != 401 && status != 403
    requires forall k :: 0 <= k < |notas| ==> StringFields(notas[k])
    ensures ListOutcome(Response(status, Body(text, Some(JArr(notas))))).Listed?
    ensures ListOutcome(Response(status, Body(text, Some(JArr(notas))))).notas == notas
  {
    forall k | 0 <= k < |notas| ensures CardOf(notas[k]).Some? {
      StringFieldsRender(notas[k]);
    }
  }

  // ---- handleCreateOrEditMedia and handleDeleteMedia (src/media.js:169-314) ----

  /**
   * The message of a rejected save or delete (src/media.js:201-209 and
   * 295-303): when the body parses as JSON, `detail || message || fallback`;
   * otherwise the raw text when non-empty, else the fallback
   * `<prefix><status>`. A body that parses as `null` throws on `.detail` and
   * takes the raw-text branch.
   */
  function FailureMessage(status: int, body: Body, prefix: string): (r: string)
    ensures body.json.Some? && body.json.value != JNull && TruthyOpt(Get(body.json.value, "detail")) ==>
      r == Display(Get(body.json.value, "detail").value)
    ensures body.json.Some? && body.json.value != JNull && !TruthyOpt(Get(body.json.value, "detail")) ==>
      TruthyOpt(Get(body.json.value, "message")) ==> r == Display(Get(body.json.value, "message").value)
    ensures body.json.Some? && body.json.value != JNull && !TruthyOpt(Get(body.json.value, "detail")) ==>
      !TruthyOpt(Get(body.json.value, "message")) ==> r == prefix + IntToString(status)
    ensures (body.json.None? || body.json.value == JNull) && body.text != "" ==> r == body.text
    ensures (body.json.None? || body.json.value == JNull) && body.text == "" ==> r == prefix + IntToString(status)
  {
    var fallback := prefix + IntToString(status);
    match body.json
    case Some(data) =>
      if data.JNull? then (if body.text != "" then body.text else fallback)
      else Display(Or(Get(data, "detail"), Or(Get(data, "message"), JStr(fallback))))
    case None => if body.text != "" then body.text else fallback
  }

  datatype SaveResult = SaveFailed(message: string) | Saved(id: string)

  /** How `handleCreateOrEditMedia` classifies the answer to the POST or PUT. */
  function SaveOutcome(reply: Reply): (r: SaveResult)
    ensures r.Saved? ==> reply.Ok()
    ensures reply.AuthRejected() ==> r == SaveFailed(SESSION_EXPIRED)
    ensures reply.Response? && !reply.Ok() && !reply.AuthRejected() ==>
      r == SaveFailed(FailureMessage(reply.status, reply.body, SAVE_FAILED_PREFIX))
    ensures r.Saved? <==> reply.Ok() && reply.body.json.Some? && reply.body.json.value != JNull
    ensures r.Saved? ==> var id := Get(reply.body.json.value, "id");
      (TruthyOpt(id) ==> r.id == Display(id.value)) && (!TruthyOpt(id) ==> r.id == NO_ID)
  {
    if reply.NetworkFailure? then SaveFailed(FETCH_FAILED)
    else if reply.AuthRejected() then SaveFailed(SESSION_EXPIRED)
    else if !reply.Ok() then SaveFailed(FailureMessage(reply.status, reply.body, SAVE_FAILED_PREFIX))
    else match reply.body.json
      case None => SaveFailed(JSON_SYNTAX_ERROR)
      case Some(result) =>
        if result.JNull? then SaveFailed(TYPE_ERROR)
        else Saved(Display(Or(Get(result, "id"), JStr(NO_ID))))
  }

  datatype DeleteResult = DeleteRejected | DeleteFailed(message: string) | Deleted

  /** How `handleDeleteMedia` classifies the answer to the DELETE. */
  function DeleteOutcome(reply: Reply): (r: DeleteResult)
    ensures r.DeleteRejected? <==> reply.AuthRejected()
    ensures r.Deleted? <==> reply.Ok()
    ensures reply.Response? && !reply.Ok() && !reply.AuthRejected() ==>
      r == DeleteFailed(FailureMessage(reply.status, reply.body, DELETE_FAILED_PREFIX))
  {
    if reply.NetworkFailure? then DeleteFailed(FETCH_FAILED)
    else if reply.AuthRejected() then DeleteRejected
    else if !reply.Ok() then DeleteFailed(FailureMessage(reply.status, reply.body, DELETE_FAILED_PREFIX))
    else Deleted
  }
}
