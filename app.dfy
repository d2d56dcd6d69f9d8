/**
 * The page as one object: the token store (`localStorage`), the `hidden`
 * class of every element, the feedback elements, buttons and modal fields,
 * the card grid with its click listener, and a log of the requests issued to
 * a scripted backend. The methods are the flows of src/auth.js,
 * src/media.js, src/ui.js and src/main.js, run to completion one at a time.
 */
module App {
  import opened Wrappers
  import opened Json
  import opened EmbedUrl
  import opened Cards
  import opened Ui
  import opened Api

  /** The single `localStorage` key of the session token. */
  const TOKEN_KEY := "auth_token"

  const LOGIN_LABEL := "Entrar"
  const LOGIN_BUSY := "Verificando..."
  const LOGIN_TRYING := "Tentando login..."
  const LOGIN_DONE := "Login realizado com sucesso!"
  const REGISTER_LABEL := "Criar Conta"
  const REGISTER_BUSY := "Enviando..."
  const REGISTER_TRYING := "Criando usuário..."
  const REGISTER_DONE := "Usuário criado com sucesso! Logando automaticamente..."
  const NO_TOKEN_MESSAGE := "Erro: Token não encontrado. Faça o login novamente."
  const LOADING_MEDIA := "Carregando mídias..."
  const EDIT_LABEL := "Salvar Alterações"
  const CREATE_LABEL := "Criar Mídia"
  const SAVE_BUSY := "Enviando..."
  const EDIT_CLASS := "action-button orange-bg"
  const CREATE_CLASS := "action-button green-bg"
  const CANCEL_LABEL := "Cancelar"
  const EDIT_HEADING := "Editar Mídia ID: "
  const VIEW_HEADING := "Visualizar Mídia ID: "
  const CREATE_HEADING := "Criar Nova Mídia"
  const VIEWING_HEADING := "Visualizando Conteúdo"
  const SAVED_PREFIX := "Mídia salva com sucesso! ID: "
  const AUTH_ERROR := "Erro de autenticação."
  const VIEW_PREVIEW_LIMIT: nat := 50

  function LoadedMessage(count: nat): string {
    "Total de mídias carregadas: " + NatToString(count) + "."
  }

  /** The status line after a list load tells how many media were loaded: different counts give different lines. */
  lemma LoadedMessageNamesCount(m: nat, n: nat)
    requires LoadedMessage(m) == LoadedMessage(n)
    ensures m == n
  {
    var prefix := "Total de mídias carregadas: ";
    assert NatToString(m) == LoadedMessage(m)[|prefix|..|LoadedMessage(m)| - 1];
    assert NatToString(n) == LoadedMessage(n)[|prefix|..|LoadedMessage(n)| - 1];
    NatToStringInjective(m, n);
  }

  function DeletingMessage(id: string): string {
    "Deletando Mídia ID " + id + "..."
  }

  function DeletedMessage(id: string): string {
    "Mídia ID " + id + " deletada com sucesso."
  }

  function NotFoundMessage(id: string): string {
    "Nota ID " + id + " não encontrada."
  }

  /** `Visualizando: ${titulo.substring(0, 50)}...` */
  function ViewingMessage(titulo: string): string {
    "Visualizando: " + (if |titulo| <= VIEW_PREVIEW_LIMIT then titulo else titulo[..VIEW_PREVIEW_LIMIT]) + "..."
  }

  /** `getItem(TOKEN_KEY)`: None is null. */
  function TokenIn(storage: map<string, string>): Option<string> {
    if TOKEN_KEY in storage then Some(storage[TOKEN_KEY]) else None
  }

  /** `if (token)`: a stored, non-empty token. */
  predicate SignedInStore(storage: map<string, string>) {
    TokenIn(storage).Some? && TokenIn(storage).value != ""
  }

  /**
   * The session check that follows a stored token is accepted by the backend
   * scripted by `server`: `/me` yields a truthy user, and the list load it
   * starts is not answered with 401 or 403.
   */
  predicate SessionAccepted(server: seq<Reply>) {
    SignedIn(ProfileOutcome(Peek(server))) && !ListOutcome(Peek(Rest(server))).ListRejected?
  }

  /**
   * The session check that follows a stored token keeps it: neither `/me`
   * nor the list load it may start answers 401 or 403.
   */
  predicate SessionKept(server: seq<Reply>) {
    && !ProfileOutcome(Peek(server)).ProfileRejected?
    && !(SignedIn(ProfileOutcome(Peek(server))) && ListOutcome(Peek(Rest(server))).ListRejected?)
  }

  /** The token store after `saveToken(token)` and the session check that follows. */
  function StoredAfterLogin(storage: map<string, string>, token: string, server: seq<Reply>): map<string, string> {
    if token == "" || SessionKept(server) then storage[TOKEN_KEY := token] else storage - {TOKEN_KEY}
  }

  /** The screen a login ends on: home exactly when the session check is accepted. */
  function ScreenAfterLogin(token: string, server: seq<Reply>): string {
    if token != "" && SessionAccepted(server) then HOME_SCREEN else LOGIN_SCREEN
  }

  /** What the card grid shows. */
  datatype Grid = Initial | NoMedia | LoadFailed | CardGrid(cards: seq<CardView>)

  /** A click listener on the grid and the list it closes over. */
  datatype Listener = Listener(serial: nat, notas: seq<Json>)

  /** The `data-action` and `data-id` of a clicked card button. */
  datatype CardButton = CardButton(action: string, id: string)

  /** What `initializeApp` did besides navigating and the session check. */
  datatype BootStep = InitUi | RegisterListeners | PublicView(mediaId: string)

  /**
   * The page: the `hidden` class of every element id, the three feedback
   * elements, the login and register buttons and inputs, the profile texts,
   * the media modal, and the card grid with its click listeners.
   */
  datatype Page = Page(
    hidden: Visibility,
    loginMessage: MessageBox,
    registerMessage: MessageBox,
    homeMessage: MessageBox,
    loginButton: Button,
    registerButton: Button,
    loginEmail: string,
    loginSenha: string,
    userEmail: string,
    userId: string,
    modal: Modal,
    grid: Grid,
    /** `mediaCardsGrid.mediaListener` */
    mediaListener: Option<Listener>,
    /** The click listeners registered on the grid, in order. */
    gridListeners: seq<Listener>,
    nextListener: nat)

  /** The parts of the page the session check and the list load never touch. */
  datatype Forms = Forms(
    loginMessage: MessageBox,
    registerMessage: MessageBox,
    loginButton: Button,
    registerButton: Button,
    loginEmail: string,
    loginSenha: string,
    modal: Modal)

  function FormsOf(p: Page): Forms {
    Forms(p.loginMessage, p.registerMessage, p.loginButton, p.registerButton, p.loginEmail, p.loginSenha, p.modal)
  }

  /**
   * The grid holds at most one listener, the one `mediaListener` names; it
   * closes over a list whose every element renders, and a grid of cards
   * shows exactly that list.
   */
  predicate GridInvariant(p: Page) {
    && p.gridListeners == (if p.mediaListener.Some? then [p.mediaListener.value] else [])
    && (p.mediaListener.Some? ==> RenderCards(p.mediaListener.value.notas).Some?)
    && (p.grid.CardGrid? ==> p.mediaListener.Some? && RenderCards(p.mediaListener.value.notas) == Some(p.grid.cards))
  }

  /** The listeners left after `removeEventListener(l)`. */
  function Without(ls: seq<Listener>, l: Listener): (r: seq<Listener>)
    ensures forall x :: x in r <==> x in ls && x != l
  {
    if ls == [] then []
    else if ls[0] == l then Without(ls[1..], l)
    else [ls[0]] + Without(ls[1..], l)
  }

  /**
   * The visibility `openMediaModal` leaves: the form and the submit button
   * are hidden exactly in view-only mode, the iframe exactly outside view
   * mode, and the modal is shown.
   */
  function OpenedVisibility(hidden: Visibility, isEditing: bool, isViewing: bool): (r: Visibility)
    ensures MEDIA_MODAL in r && CREATE_EDIT_FORM in r && MODAL_SUBMIT_BUTTON in r && MEDIA_IFRAME in r
    ensures r[MEDIA_MODAL] == false
    ensures r[CREATE_EDIT_FORM] == r[MODAL_SUBMIT_BUTTON] == (isViewing && !isEditing)
    ensures r[MEDIA_IFRAME] == !isViewing
    ensures forall k :: k in hidden && k !in {MEDIA_MODAL, CREATE_EDIT_FORM, MODAL_SUBMIT_BUTTON, MEDIA_IFRAME} ==> k in r && r[k] == hidden[k]
  {
    var readOnly := isViewing && !isEditing;
    hidden[CREATE_EDIT_FORM := readOnly][MODAL_SUBMIT_BUTTON := readOnly][MEDIA_IFRAME := !isViewing][MEDIA_MODAL := false]
  }

  /** The modal fields `openMediaModal` leaves. */
  function OpenedModal(submit: Button, submitClass: string, cancelText: string, isEditing: bool, nota: Json, isViewing: bool): (r: Modal)
    ensures r.titleReadOnly == r.descriptionReadOnly == (isViewing && !isEditing)
    ensures r.iframeSrc == if isViewing && Truthy(nota) && TruthyOpt(Get(nota, "titulo")) then Display(Get(nota, "titulo").value) else ""
    ensures Truthy(nota) ==>
      && r.idInput == Display(Or(Get(nota, "id"), JStr("")))
      && r.titleInput == Display(Or(Get(nota, "titulo"), JStr("")))
      && r.descriptionInput == Display(Or(Get(nota, "descricao"), JStr("")))
    ensures !Truthy(nota) ==> r.idInput == "" && r.titleInput == "" && r.descriptionInput == ""
    ensures isEditing ==>
      (&& r.heading == EDIT_HEADING + ToStr(Get(nota, "id"))
       && r.submit == submit.(text := EDIT_LABEL) && r.submitClass == EDIT_CLASS && r.cancelText == CANCEL_LABEL)
    ensures !isEditing && isViewing ==>
      (&& r.heading == VIEW_HEADING + ToStr(Get(nota, "id"))
       && r.submit == submit && r.submitClass == submitClass && r.cancelText == cancelText)
    ensures !isEditing && !isViewing ==>
      (&& r.heading == CREATE_HEADING
       && r.submit == submit.(text := CREATE_LABEL) && r.submitClass == CREATE_CLASS && r.cancelText == CANCEL_LABEL)
    ensures r.message == Shown("", false)
  {
    var readOnly := isViewing && !isEditing;
    var titulo := Get(nota, "titulo");
    var src := if isViewing && Truthy(nota) && TruthyOpt(titulo) then Display(titulo.value) else "";
    var id := if Truthy(nota) then Display(Or(Get(nota, "id"), JStr(""))) else "";
    var title := if Truthy(nota) then Display(Or(titulo, JStr(""))) else "";
    var description := if Truthy(nota) then Display(Or(Get(nota, "descricao"), JStr(""))) else "";
    var heading := if isEditing then EDIT_HEADING + ToStr(Get(nota, "id"))
      else if isViewing then VIEW_HEADING + ToStr(Get(nota, "id"))
      else CREATE_HEADING;
    var newSubmit := if isEditing then submit.(text := EDIT_LABEL) else if isViewing then submit else submit.(text := CREATE_LABEL);
    var newClass := if isEditing then EDIT_CLASS else if isViewing then submitClass else CREATE_CLASS;
    var newCancel := if isEditing || !isViewing then CANCEL_LABEL else cancelText;
    Modal(heading, id, title, description, readOnly, readOnly, src, newSubmit, newClass, newCancel, Shown("", false))
  }

  /**
   * What a confirmed delete with a token leaves (src/media.js:283-313): the
   * DELETE is sent with the element's id; a rejected session loses its token
   * and goes to the login screen, a failure is reported, and a success
   * reloads the list, which is then shown as `loadMediaList` shows it.
   */
  predicate DeleteDone(id: string, token: string,
                       s0: map<string, string>, p0: Page, c0: seq<ApiCall>, r0: seq<Reply>,
                       s1: map<string, string>, p1: Page, c1: seq<ApiCall>, r1: seq<Reply>)
  {
    var outcome := DeleteOutcome(Peek(r0));
    && |c1| > |c0| && c1[..|c0| + 1] == c0 + [DeleteNota(id, token)]
    && (outcome.DeleteRejected? ==>
          && s1 == s0 - {TOKEN_KEY} && c1 == c0 + [DeleteNota(id, token)] && r1 == Rest(r0)
          && p1 == p0.(hidden := Navigated(p0.hidden, LOGIN_SCREEN), homeMessage := Shown(SESSION_EXPIRED, true)))
    && (outcome.DeleteFailed? ==>
          && s1 == s0 && c1 == c0 + [DeleteNota(id, token)] && r1 == Rest(r0)
          && p1 == p0.(homeMessage := Shown(outcome.message, true)))
    && (outcome.Deleted? ==>
          && c1 == c0 + [DeleteNota(id, token), GetNotas(token)]
          && ListLoaded(s0, p0, c0 + [DeleteNota(id, token)], Rest(r0), s1, p1, c1, r1))
  }

  /**
   * What the `try` block of `handleCreateOrEditMedia` leaves (src/media.js:179-221):
   * the request is sent; a failure, 401/403 included, is shown in the modal
   * and keeps the token; a success closes the modal and reloads the list,
   * which is then shown as `loadMediaList` shows it.
   */
  predicate SaveDone(request: ApiCall,
                     s0: map<string, string>, p0: Page, c0: seq<ApiCall>, r0: seq<Reply>,
                     s1: map<string, string>, p1: Page, c1: seq<ApiCall>, r1: seq<Reply>)
  {
    var outcome := SaveOutcome(Peek(r0));
    && |c1| > |c0| && c1[..|c0| + 1] == c0 + [request]
    && (outcome.SaveFailed? ==>
          && s1 == s0 && c1 == c0 + [request] && r1 == Rest(r0)
          && p1 == p0.(modal := p0.modal.(message := Shown(outcome.message, true))))
    && (outcome.Saved? ==> ListLoaded(s0, ClosedPage(p0), c0 + [request], Rest(r0), s1, p1, c1, r1))
  }

  /** The page with the modal's submit button set to `b`. */
  function WithSubmit(p: Page, b: Button): Page {
    p.(modal := p.modal.(submit := b))
  }

  /** A save never touches the submit button, so setting it before or after is the same. */
  lemma SaveDoneWithSubmit(request: ApiCall,
                           s0: map<string, string>, p0: Page, c0: seq<ApiCall>, r0: seq<Reply>,
                           s1: map<string, string>, p1: Page, c1: seq<ApiCall>, r1: seq<Reply>, b: Button)
    requires SaveDone(request, s0, p0, c0, r0, s1, p1, c1, r1)
    ensures p1.modal.submit == p0.modal.submit
    ensures SaveDone(request, s0, WithSubmit(p0, b), c0, r0, s1, WithSubmit(p1, b), c1, r1)
  {
    if SaveOutcome(Peek(r0)).Saved? {
      ListLoadedKeepsModal(s0, ClosedPage(p0), c0 + [request], Rest(r0), s1, p1, c1, r1, ClosedPage(p0).modal.(submit := b));
    }
  }

  /**
   * After a successful save the modal is hidden with its fields cleared, and
   * the only request after the save is the list load, sent when a token is
   * stored.
   */
  lemma SaveDoneClosesModal(request: ApiCall,
                            s0: map<string, string>, p0: Page, c0: seq<ApiCall>, r0: seq<Reply>,
                            s1: map<string, string>, p1: Page, c1: seq<ApiCall>, r1: seq<Reply>)
    requires SaveDone(request, s0, p0, c0, r0, s1, p1, c1, r1) && SaveOutcome(Peek(r0)).Saved?
    ensures MEDIA_MODAL in p1.hidden && p1.hidden[MEDIA_MODAL]
    ensures p1.modal == p0.modal.(titleInput := "", descriptionInput := "", iframeSrc := "")
    ensures c1 == c0 + [request] + (if SignedInStore(s0) then [GetNotas(TokenIn(s0).value)] else [])
  {
    ListLoadedKeepsModal(s0, ClosedPage(p0), c0 + [request], Rest(r0), s1, p1, c1, r1, ClosedPage(p0).modal);
  }

  /**
   * What a confirmed `handleDeleteMedia(nota)` leaves: without a stored token
   * an authentication error and the session check, which goes to the login
   * screen; with one, the DELETE for the element's id and its answer.
   */
  predicate ConfirmedDelete(nota: Json,
                            s0: map<string, string>, p0: Page, c0: seq<ApiCall>, r0: seq<Reply>,
                            s1: map<string, string>, p1: Page, c1: seq<ApiCall>, r1: seq<Reply>)
  {
    if SignedInStore(s0) then DeleteDone(ToStr(Get(nota, "id")), TokenIn(s0).value, s0, p0, c0, r0, s1, p1, c1, r1)
    else
      && s1 == s0 && c1 == c0 && r1 == r0
      && p1 == p0.(homeMessage := Shown(AUTH_ERROR, true), hidden := Navigated(p0.hidden, LOGIN_SCREEN))
  }

  /**
   * The page `handleViewMedia(nota)` leaves: the modal opened read-only on
   * the element, and the preview message when its `titulo` is a string.
   */
  function ViewedPage(p: Page, nota: Json): (r: Page)
    ensures r.modal.titleReadOnly && r.modal.descriptionReadOnly
    ensures MEDIA_MODAL in r.hidden && CREATE_EDIT_FORM in r.hidden && !r.hidden[MEDIA_MODAL] && r.hidden[CREATE_EDIT_FORM]
    ensures r.grid == p.grid && r.gridListeners == p.gridListeners && FormsOf(r) == FormsOf(p).(modal := r.modal)
  {
    p.(modal := OpenedModal(p.modal.submit, p.modal.submitClass, p.modal.cancelText, false, nota, true),
       hidden := OpenedVisibility(p.hidden, false, true),
       homeMessage := if Get(nota, "titulo").Some? && Get(nota, "titulo").value.JStr?
                      then Shown(ViewingMessage(Get(nota, "titulo").value.s), false)
                      else p.homeMessage)
  }

  /** The page `handleEditMedia(nota)` leaves: the modal opened for editing the element. */
  function EditedPage(p: Page, nota: Json): (r: Page)
    ensures !r.modal.titleReadOnly && !r.modal.descriptionReadOnly
    ensures r.modal.heading == EDIT_HEADING + ToStr(Get(nota, "id")) && r.modal.submit.text == EDIT_LABEL
    ensures MEDIA_MODAL in r.hidden && CREATE_EDIT_FORM in r.hidden && !r.hidden[MEDIA_MODAL] && !r.hidden[CREATE_EDIT_FORM]
    ensures r.grid == p.grid && r.gridListeners == p.gridListeners && r.homeMessage == p.homeMessage
    ensures FormsOf(r) == FormsOf(p).(modal := r.modal)
  {
    p.(modal := OpenedModal(p.modal.submit, p.modal.submitClass, p.modal.cancelText, true, nota, false),
       hidden := OpenedVisibility(p.hidden, true, false))
  }

  /** The request `handleCreateOrEditMedia` sends for the modal's fields and the stored token. */
  function SaveRequest(storage: map<string, string>, modal: Modal): (r: ApiCall)
    ensures r.PutNota? || r.PostNota?
    ensures r.PutNota? <==> modal.idInput != ""
    ensures r.PutNota? ==> r.id == modal.idInput
    ensures r.payload == Payload(modal.titleInput, modal.descriptionInput) && r.bearer == TokenIn(storage)
  {
    var payload := Payload(modal.titleInput, modal.descriptionInput);
    if modal.idInput != "" then PutNota(modal.idInput, payload, TokenIn(storage)) else PostNota(payload, TokenIn(storage))
  }

  /**
   * What `loadMediaList` leaves after classifying the answer (src/media.js:135-160):
   * a rejected session loses its token and goes to the login screen, a
   * failure marks the grid, and a list is rendered (with a fresh listener
   * when it is not empty) and counted.
   */
  predicate ListShown(s0: map<string, string>, p0: Page, outcome: ListResult, s1: map<string, string>, p1: Page) {
    match outcome
    case ListRejected =>
      s1 == s0 - {TOKEN_KEY} && p1 == p0.(hidden := Navigated(p0.hidden, LOGIN_SCREEN), homeMessage := Shown(SESSION_EXPIRED, true))
    case ListFailed(message) =>
      s1 == s0 && p1 == p0.(grid := LoadFailed, homeMessage := Shown(message, true))
    case Listed(notas, cards) =>
      && s1 == s0
      && p1 == if notas == [] then p0.(grid := NoMedia, homeMessage := Shown(LoadedMessage(0), false))
               else p0.(grid := CardGrid(cards), mediaListener := Some(Listener(p0.nextListener, notas)),
                        gridListeners := [Listener(p0.nextListener, notas)], nextListener := p0.nextListener + 1,
                        homeMessage := Shown(LoadedMessage(|notas|), false))
  }

  /**
   * A listing keeps the grid invariant and leaves the forms alone; a
   * non-empty list is shown as its cards with one listener over it.
   */
  lemma ListShownKeepsGrid(s0: map<string, string>, p0: Page, outcome: ListResult, s1: map<string, string>, p1: Page)
    requires GridInvariant(p0) && ListShown(s0, p0, outcome, s1, p1)
    requires outcome.Listed? ==> RenderCards(outcome.notas) == Some(outcome.cards)
    ensures GridInvariant(p1) && FormsOf(p1) == FormsOf(p0)
    ensures outcome.Listed? && outcome.notas != [] ==>
      p1.grid == CardGrid(outcome.cards) && |p1.gridListeners| == 1 && p1.gridListeners[0].notas == outcome.notas
    ensures outcome.ListRejected? ==> !SignedInStore(s1)
  {
    match outcome
    case ListRejected =>
      assert TokenIn(s1).None?;
    case ListFailed(_) =>
    case Listed(notas, cards) =>
  }

  /**
   * What a whole `loadMediaList()` leaves (src/media.js:103-161): without a
   * stored token, the missing-token message and the session check, which
   * goes to the login screen; with one, a single GET /notas whose answer is
   * shown as ListShown states.
   */
  predicate ListLoaded(s0: map<string, string>, p0: Page, c0: seq<ApiCall>, r0: seq<Reply>,
                       s1: map<string, string>, p1: Page, c1: seq<ApiCall>, r1: seq<Reply>)
  {
    if SignedInStore(s0) then
      && c1 == c0 + [GetNotas(TokenIn(s0).value)] && r1 == Rest(r0)
      && ListShown(s0, p0, ListOutcome(Peek(r0)), s1, p1)
    else
      && s1 == s0 && c1 == c0 && r1 == r0
      && p1 == p0.(homeMessage := Shown(NO_TOKEN_MESSAGE, true), hidden := Navigated(p0.hidden, LOGIN_SCREEN))
  }

  /** `renderProfile(user, 'home-screen')` */
  function ProfiledPage(p: Page, user: Json): Page {
    p.(userEmail := TextContent(Get(user, "email")), userId := TextContent(Get(user, "id")),
       hidden := Navigated(p.hidden, HOME_SCREEN))
  }

  /**
   * What a whole `checkAuthentication()` leaves (src/auth.js:142-156): the
   * login screen without a stored token or without a truthy user from
   * GET /me (which drops the token on 401/403); otherwise the profile, the
   * home screen and the list load.
   */
  predicate SessionChecked(s0: map<string, string>, p0: Page, c0: seq<ApiCall>, r0: seq<Reply>,
                           s1: map<string, string>, p1: Page, c1: seq<ApiCall>, r1: seq<Reply>)
  {
    if !SignedInStore(s0) then
      s1 == s0 && c1 == c0 && r1 == r0 && p1 == p0.(hidden := Navigated(p0.hidden, LOGIN_SCREEN))
    else
      var token := TokenIn(s0).value;
      var profile := ProfileOutcome(Peek(r0));
      if SignedIn(profile) then
        ListLoaded(s0, ProfiledPage(p0, profile.user), c0 + [GetProfile(token)], Rest(r0), s1, p1, c1, r1)
      else
        && c1 == c0 + [GetProfile(token)] && r1 == Rest(r0)
        && s1 == (if profile.ProfileRejected? then s0 - {TOKEN_KEY} else s0)
        && p1 == p0.(hidden := Navigated(p0.hidden, LOGIN_SCREEN))
  }

  /**
   * What a whole `handleLogin(credentials)` leaves (src/auth.js:62-97): the
   * POST /login is sent; a failure shows its message and changes nothing
   * else; a success stores the token, reports it and runs the session check
   * as SessionChecked states. The login button ends enabled either way.
   */
  predicate LoginDone(credentials: Credentials,
                      s0: map<string, string>, p0: Page, c0: seq<ApiCall>, r0: seq<Reply>,
                      s1: map<string, string>, p1: Page, c1: seq<ApiCall>, r1: seq<Reply>)
  {
    var outcome := LoginOutcome(Peek(r0));
    var restored := p0.(loginButton := Button(false, LOGIN_LABEL));
    match outcome
    case LoginFailed(message) =>
      && s1 == s0 && c1 == c0 + [PostLogin(credentials)] && r1 == Rest(r0)
      && p1 == restored.(loginMessage := Shown(message, true))
    case LoggedIn(token) =>
      SessionChecked(s0[TOKEN_KEY := token], restored.(loginMessage := Shown(LOGIN_DONE, false)),
                     c0 + [PostLogin(credentials)], Rest(r0), s1, p1, c1, r1)
  }

  /** The page the automatic login after a registration starts from: the login form filled and shown (src/auth.js:120-123). */
  function FilledLoginPage(p: Page, credentials: Credentials): Page {
    p.(loginEmail := credentials.email, loginSenha := credentials.senha, hidden := Navigated(p.hidden, LOGIN_SCREEN))
  }

  /** A login never touches the register button, so setting it before or after is the same. */
  lemma LoginDoneKeepsRegisterButton(credentials: Credentials,
                                     s0: map<string, string>, p0: Page, c0: seq<ApiCall>, r0: seq<Reply>,
                                     s1: map<string, string>, p1: Page, c1: seq<ApiCall>, r1: seq<Reply>, b: Button)
    requires LoginDone(credentials, s0, p0, c0, r0, s1, p1, c1, r1)
    ensures p1.registerButton == p0.registerButton
    ensures LoginDone(credentials, s0, p0.(registerButton := b), c0, r0, s1, p1.(registerButton := b), c1, r1)
  {
  }

  /**
   * The session check after `saveToken(token)`: the token stays unless the
   * check answers 401/403, the page ends on home exactly when the check is
   * accepted, the forms are untouched, and the first request is GET /me
   * with the token.
   */
  lemma SessionCheckedAfterLogin(token: string,
                                 s0: map<string, string>, p0: Page, c0: seq<ApiCall>, r0: seq<Reply>,
                                 s1: map<string, string>, p1: Page, c1: seq<ApiCall>, r1: seq<Reply>)
    requires SessionChecked(s0[TOKEN_KEY := token], p0, c0, r0, s1, p1, c1, r1)
    ensures s1 == StoredAfterLogin(s0, token, r0)
    ensures p1.hidden == Navigated(p0.hidden, ScreenAfterLogin(token, r0))
    ensures FormsOf(p1) == FormsOf(p0)
    ensures token != "" ==> |c1| > |c0| && c1[|c0|] == GetProfile(token)
    ensures token == "" ==> c1 == c0
  {
    var s := s0[TOKEN_KEY := token];
    assert s - {TOKEN_KEY} == s0 - {TOKEN_KEY};
    if token != "" && SignedIn(ProfileOutcome(Peek(r0))) {
      if ListOutcome(Peek(Rest(r0))).ListRejected? {
        NavigateTwice(p0.hidden, HOME_SCREEN, LOGIN_SCREEN);
      }
    }
  }

  /** A login only appends to the request log. */
  lemma LoginDoneExtends(credentials: Credentials,
                         s0: map<string, string>, p0: Page, c0: seq<ApiCall>, r0: seq<Reply>,
                         s1: map<string, string>, p1: Page, c1: seq<ApiCall>, r1: seq<Reply>)
    requires LoginDone(credentials, s0, p0, c0, r0, s1, p1, c1, r1)
    ensures |c1| > |c0| && c1[..|c0|] == c0
  {
    LoginDoneOutcome(credentials, s0, p0, c0, r0, s1, p1, c1, r1);
    assert c1[..|c0|] == c1[..|c0| + 1][..|c0|];
  }

  /** The session check never touches the login button, so setting it before or after is the same. */
  lemma SessionCheckedKeepsLoginButton(s0: map<string, string>, p0: Page, c0: seq<ApiCall>, r0: seq<Reply>,
                                       s1: map<string, string>, p1: Page, c1: seq<ApiCall>, r1: seq<Reply>, b: Button)
    requires SessionChecked(s0, p0, c0, r0, s1, p1, c1, r1)
    ensures SessionChecked(s0, p0.(loginButton := b), c0, r0, s1, p1.(loginButton := b), c1, r1)
  {
  }

  /**
   * What `handleLogin` promises, read off LoginDone: the button is enabled,
   * the register form, login inputs and modal are untouched, the POST comes
   * first, and a success leaves the token and screen the session check
   * decides.
   */
  lemma LoginDoneOutcome(credentials: Credentials,
                         s0: map<string, string>, p0: Page, c0: seq<ApiCall>, r0: seq<Reply>,
                         s1: map<string, string>, p1: Page, c1: seq<ApiCall>, r1: seq<Reply>)
    requires LoginDone(credentials, s0, p0, c0, r0, s1, p1, c1, r1)
    ensures p1.loginButton == Button(false, LOGIN_LABEL)
    ensures && p1.registerMessage == p0.registerMessage && p1.registerButton == p0.registerButton
            && p1.loginEmail == p0.loginEmail && p1.loginSenha == p0.loginSenha && p1.modal == p0.modal
    ensures |c1| > |c0| && c1[..|c0| + 1] == c0 + [PostLogin(credentials)]
    ensures LoginOutcome(Peek(r0)).LoginFailed? ==> s1 == s0 && p1.hidden == p0.hidden
    ensures LoginOutcome(Peek(r0)).LoggedIn? ==>
      var token := LoginOutcome(Peek(r0)).token;
      && p1.loginMessage == Shown(LOGIN_DONE, false)
      && s1 == StoredAfterLogin(s0, token, Rest(r0))
      && p1.hidden == Navigated(p0.hidden, ScreenAfterLogin(token, Rest(r0)))
      && (token != "" ==> |c1| > |c0| + 1 && c1[|c0| + 1] == GetProfile(token))
      && (token == "" ==> c1 == c0 + [PostLogin(credentials)])
  {
    match LoginOutcome(Peek(r0))
    case LoginFailed(_) =>
    case LoggedIn(token) =>
      var p := p0.(loginButton := Button(false, LOGIN_LABEL), loginMessage := Shown(LOGIN_DONE, false));
      SessionCheckedAfterLogin(token, s0, p, c0 + [PostLogin(credentials)], Rest(r0), s1, p1, c1, r1);
  }

  /** Every outcome of a list load overwrites the home message, so the one before it does not matter. */
  lemma ListLoadedIgnoresMessage(s0: map<string, string>, p0: Page, m: MessageBox, c0: seq<ApiCall>, r0: seq<Reply>,
                                 s1: map<string, string>, p1: Page, c1: seq<ApiCall>, r1: seq<Reply>)
    requires ListLoaded(s0, p0.(homeMessage := m), c0, r0, s1, p1, c1, r1)
    ensures ListLoaded(s0, p0, c0, r0, s1, p1, c1, r1)
  {
  }

  /** A list load never touches the modal. */
  lemma ListLoadedKeepsModal(s0: map<string, string>, p0: Page, c0: seq<ApiCall>, r0: seq<Reply>,
                             s1: map<string, string>, p1: Page, c1: seq<ApiCall>, r1: seq<Reply>, m: Modal)
    requires ListLoaded(s0, p0, c0, r0, s1, p1, c1, r1)
    ensures p1.modal == p0.modal
    ensures ListLoaded(s0, p0.(modal := m), c0, r0, s1, p1.(modal := m), c1, r1)
  {
  }

  /** `closeMediaModal()` on the page. */
  function ClosedPage(p: Page): Page {
    p.(hidden := p.hidden[MEDIA_MODAL := true], modal := p.modal.(titleInput := "", descriptionInput := "", iframeSrc := ""))
  }

  /**
   * On a grid of cards, a click on the button of a card whose element has a
   * truthy id reaches an element with that id through the listener.
   */
  lemma CardClickFindsElement(p: Page, k: nat)
    requires GridInvariant(p) && p.grid.CardGrid? && k < |p.grid.cards|
    requires k < |p.mediaListener.value.notas| && TruthyOpt(Get(p.mediaListener.value.notas[k], "id"))
    ensures p.gridListeners != []
    ensures FindNota(p.gridListeners[0].notas, p.grid.cards[k].id).Some?
    ensures IdText(FindNota(p.gridListeners[0].notas, p.grid.cards[k].id).value) == IdText(p.mediaListener.value.notas[k])
  {
    var notas := p.mediaListener.value.notas;
    assert p.gridListeners[0].notas == notas;
    assert p.grid.cards[k] == CardOf(notas[k]).value;
    CardIdFound(notas, k);
  }

  /**
   * The mode the modal was opened in decides the request a submit sends:
   * after `handleEditMedia` of an element with a non-empty string id, a PUT
   * for that id; after opening it for a new element, a POST.
   */
  lemma OpenedModalRequest(storage: map<string, string>, submit: Button, submitClass: string, cancelText: string, nota: Json, id: string)
    requires Get(nota, "id") == Some(JStr(id)) && id != ""
    ensures var r := SaveRequest(storage, OpenedModal(submit, submitClass, cancelText, true, nota, false));
      r.PutNota? && r.id == id && r.bearer == TokenIn(storage)
    ensures SaveRequest(storage, OpenedModal(submit, submitClass, cancelText, false, JNull, false)).PostNota?
  {
    assert Truthy(nota);
    assert Or(Get(nota, "id"), JStr("")) == JStr(id);
  }

  class App {
    /** `localStorage` */
    var storage: map<string, string>
    var page: Page
    /** The requests issued so far, oldest first. */
    var calls: seq<ApiCall>
    /** The replies the backend has still to give, in order. */
    var server: seq<Reply>
    var boot: seq<BootStep>

    /** A fresh page over the given `localStorage`, initial visibility and backend script. */
    constructor(initialStorage: map<string, string>, hidden: Visibility, script: seq<Reply>)
      ensures GridInvariant(page)
      ensures storage == initialStorage && page.hidden == hidden && page.grid == Initial && page.gridListeners == []
      ensures calls == [] && server == script && boot == []
    {
      storage := initialStorage;
      page := Page(hidden, MessageBox("", ""), MessageBox("", ""), MessageBox("", ""),
                   Button(false, LOGIN_LABEL), Button(false, REGISTER_LABEL), "", "", "", "",
                   Modal("", "", "", "", false, false, "", Button(false, CREATE_LABEL), "", "", MessageBox("", "")),
                   Initial, None, [], 0);
      calls := [];
      server := script;
      boot := [];
    }

    // ---- token store (src/auth.js:11-23) ----

    method SaveToken(token: string)
      modifies this`storage
      ensures storage == old(storage)[TOKEN_KEY := token]
      ensures TokenIn(storage) == Some(token)
    {
      storage := storage[TOKEN_KEY := token];
    }

    method GetToken() returns (token: Option<string>)
      ensures token == TokenIn(storage)
      ensures token.Some? <==> TOKEN_KEY in storage
    {
      token := if TOKEN_KEY in storage then Some(storage[TOKEN_KEY]) else None;
    }

    method RemoveToken()
      modifies this`storage
      ensures storage == old(storage) - {TOKEN_KEY}
      ensures TokenIn(storage).None? && !SignedInStore(storage)
    {
      storage := storage - {TOKEN_KEY};
    }

    /** Issues one request; the backend answers with the next scripted reply. */
    method Call(c: ApiCall) returns (reply: Reply)
      modifies this`calls, this`server
      ensures reply == Peek(old(server))
      ensures calls == old(calls) + [c] && server == Rest(old(server))
    {
      reply := Peek(server);
      calls := calls + [c];
      server := Rest(server);
    }

    // ---- view helpers (src/ui.js) ----

    method Navigate(screenId: string)
      modifies this`page
      ensures page == old(page).(hidden := Navigated(old(page.hidden), screenId))
    {
      var hidden := Ui.NavigateTo(page.hidden, screenId);
      page := page.(hidden := hidden);
    }

    /**
     * `openMediaModal(isEditing, nota, isViewing)`; `nota` is JNull for the
     * default `null`.
     */
    method OpenMediaModal(isEditing: bool, nota: Json, isViewing: bool)
      requires isEditing || isViewing ==> !nota.JNull?
      modifies this`page
      ensures page == old(page).(
        modal := OpenedModal(old(page.modal.submit), old(page.modal.submitClass), old(page.modal.cancelText), isEditing, nota, isViewing),
        hidden := OpenedVisibility(old(page.hidden), isEditing, isViewing))
    {
      var readOnly := isViewing && !isEditing;
      var hidden := page.hidden[CREATE_EDIT_FORM := readOnly][MODAL_SUBMIT_BUTTON := readOnly];
      hidden := hidden[MEDIA_IFRAME := !isViewing];
      var modal := OpenedModal(page.modal.submit, page.modal.submitClass, page.modal.cancelText, isEditing, nota, isViewing);
      hidden := hidden[MEDIA_MODAL := false];
      page := page.(hidden := hidden, modal := modal);
    }

    /** `closeMediaModal()`: the hidden id input keeps its value through `form.reset()`. */
    method CloseMediaModal()
      modifies this`page
      ensures page == ClosedPage(old(page))
    {
      page := page.(hidden := page.hidden[MEDIA_MODAL := true]);
      page := page.(modal := page.modal.(titleInput := "", descriptionInput := ""));
      page := page.(modal := page.modal.(iframeSrc := ""));
    }

    /** `renderProfile(user, screenId)` for a user that is not null. */
    method RenderProfile(user: Json, screenId: string)
      requires !user.JNull?
      modifies this`page
      ensures page == old(page).(
        userEmail := TextContent(Get(user, "email")),
        userId := TextContent(Get(user, "id")),
        hidden := Navigated(old(page.hidden), screenId))
    {
      page := page.(userEmail := TextContent(Get(user, "email")));
      page := page.(userId := TextContent(Get(user, "id")));
      Navigate(screenId);
    }

    // ---- session (src/auth.js:30-56, 142-156) ----

    /** `getMe()`: None is null. */
    method GetMe() returns (user: Option<Json>)
      modifies this`storage, this`calls, this`server
      ensures !SignedInStore(old(storage)) ==>
        user.None? && storage == old(storage) && calls == old(calls) && server == old(server)
      ensures SignedInStore(old(storage)) ==>
        var outcome := ProfileOutcome(Peek(old(server)));
        && user == (if outcome.Profile? then Some(outcome.user) else None)
        && calls == old(calls) + [GetProfile(TokenIn(old(storage)).value)]
        && server == Rest(old(server))
        && storage == if outcome.ProfileRejected? then old(storage) - {TOKEN_KEY} else old(storage)
    {
      var token := GetToken();
      if token.None? || token.value == "" {
        return None;
      }
      var reply := Call(GetProfile(token.value));
      match ProfileOutcome(reply)
      case ProfileRejected =>
        RemoveToken();
        user := None;
      case NoProfile =>
        user := None;
      case Profile(u) =>
        user := Some(u);
    }

    /**
     * `checkAuthentication()`: the home screen and a list load when `getMe`
     * yields a truthy user, the login screen otherwise. The list load it
     * starts without waiting runs to completion here.
     */
    method CheckAuthentication()
      requires GridInvariant(page)
      modifies this`storage, this`page, this`calls, this`server
      decreases if SignedInStore(storage) then 4 else 1
      ensures GridInvariant(page)
      ensures FormsOf(page) == FormsOf(old(page))
      ensures old(calls) <= calls
      ensures SessionChecked(old(storage), old(page), old(calls), old(server), storage, page, calls, server)
      ensures SignedInStore(old(storage)) && SignedIn(ProfileOutcome(Peek(old(server)))) ==>
        var listed := ListOutcome(Peek(Rest(old(server))));
        && (listed.ListRejected? ==> page.hidden == Navigated(old(page.hidden), LOGIN_SCREEN) && storage == old(storage) - {TOKEN_KEY})
        && (!listed.ListRejected? ==> page.hidden == Navigated(old(page.hidden), HOME_SCREEN) && storage == old(storage))
    {
      var user := GetMe();
      if user.Some? && Truthy(user.value) {
        RenderProfile(user.value, HOME_SCREEN);
        LoadMediaList();
        NavigateTwice(old(page.hidden), HOME_SCREEN, LOGIN_SCREEN);
      } else {
        Navigate(LOGIN_SCREEN);
      }
    }

    // ---- media list (src/media.js:103-161, 319-362) ----

    /** `loadMediaList()`; the session check it may start runs to completion here. */
    method LoadMediaList()
      requires GridInvariant(page)
      modifies this`storage, this`page, this`calls, this`server
      decreases 3
      ensures GridInvariant(page)
      ensures FormsOf(page) == FormsOf(old(page))
      ensures ListLoaded(old(storage), old(page), old(calls), old(server), storage, page, calls, server)
    {
      var token := GetToken();
      if token.None? || token.value == "" {
        page := page.(homeMessage := Shown(NO_TOKEN_MESSAGE, true));
        CheckAuthentication();
        return;
      }
      page := page.(homeMessage := Shown(LOADING_MEDIA, false));
      var reply := Call(GetNotas(token.value));
      ShowList(ListOutcome(reply));
    }

    /** What `loadMediaList` does with the classified answer (src/media.js:135-160). */
    method ShowList(outcome: ListResult)
      requires GridInvariant(page)
      requires outcome.Listed? ==> RenderCards(outcome.notas) == Some(outcome.cards)
      modifies this`storage, this`page, this`calls, this`server
      decreases 2
      ensures GridInvariant(page)
      ensures calls == old(calls) && server == old(server)
      ensures ListShown(old(storage), old(page), outcome, storage, page)
    {
      match outcome
      case ListRejected =>
        RemoveToken();
        CheckAuthentication();
        page := page.(homeMessage := Shown(SESSION_EXPIRED, true));
      case ListFailed(message) =>
        page := page.(grid := LoadFailed);
        page := page.(homeMessage := Shown(message, true));
      case Listed(notas, cards) =>
        RenderMediaList(notas, cards);
        page := page.(homeMessage := Shown(LoadedMessage(|notas|), false));
    }

    /** `renderMediaList(notas)` for a list whose cards all render. */
    method RenderMediaList(notas: seq<Json>, cards: seq<CardView>)
      requires GridInvariant(page) && RenderCards(notas) == Some(cards)
      modifies this`page
      ensures GridInvariant(page)
      ensures notas == [] ==> page == old(page).(grid := NoMedia)
      ensures notas != [] ==> page == old(page).(
        grid := CardGrid(cards),
        mediaListener := Some(Listener(old(page.nextListener), notas)),
        gridListeners := [Listener(old(page.nextListener), notas)],
        nextListener := old(page.nextListener) + 1)
    {
      if notas == [] {
        page := page.(grid := NoMedia);
        return;
      }
      page := page.(grid := CardGrid(cards));
      SetupMediaCardListeners(notas);
    }

    /**
     * `setupMediaCardListeners(notas)`: the stored listener is removed before
     * the new one is added and stored, so the grid keeps exactly one.
     */
    method SetupMediaCardListeners(notas: seq<Json>)
      requires page.gridListeners == (if page.mediaListener.Some? then [page.mediaListener.value] else [])
      modifies this`page
      ensures page.gridListeners == [Listener(old(page.nextListener), notas)]
      ensures page == old(page).(
        mediaListener := Some(Listener(old(page.nextListener), notas)),
        gridListeners := [Listener(old(page.nextListener), notas)],
        nextListener := old(page.nextListener) + 1)
    {
      var listeners := page.gridListeners;
      var oldListener := page.mediaListener;
      if oldListener.Some? {
        assert listeners[1..] == [];
        listeners := Without(listeners, oldListener.value);
        assert listeners == Without([], oldListener.value);
      }
      assert listeners == [];
      var newListener := Listener(page.nextListener, notas);
      listeners := listeners + [newListener];
      page := page.(gridListeners := listeners, nextListener := page.nextListener + 1);
      page := page.(mediaListener := Some(newListener));
    }

    // ---- login, register, logout (src/auth.js:62-135, 162-166) ----

    /**
     * `handleLogin(credentials, loginButton, message)`: the token is saved and
     * the session check awaited on success; the button is restored on every
     * path.
     */
    method HandleLogin(credentials: Credentials)
      requires GridInvariant(page)
      modifies this`storage, this`page, this`calls, this`server
      ensures GridInvariant(page)
      ensures LoginDone(credentials, old(storage), old(page), old(calls), old(server), storage, page, calls, server)
    {
      page := page.(loginButton := ButtonState(true, LOGIN_LABEL, LOGIN_BUSY));
      page := page.(loginMessage := Shown(LOGIN_TRYING, false));
      var reply := Call(PostLogin(credentials));
      match LoginOutcome(reply) {
        case LoginFailed(message) =>
          page := page.(loginMessage := Shown(message, true));
        case LoggedIn(token) =>
          ghost var before := page;
          CompleteLogin(token);
          SessionCheckedKeepsLoginButton(old(storage)[TOKEN_KEY := token], before.(loginMessage := Shown(LOGIN_DONE, false)),
                                         old(calls) + [PostLogin(credentials)], Rest(old(server)), storage, page, calls, server,
                                         Button(false, LOGIN_LABEL));
      }
      page := page.(loginButton := ButtonState(false, LOGIN_LABEL, DEFAULT_LOADING_TEXT));
    }

    /**
     * The success path of a login: store the token, report, await the session
     * check (src/auth.js:76-89). The token stays stored unless the check is
     * answered with 401 or 403, and the home screen is shown exactly when the
     * check is accepted.
     */
    method CompleteLogin(token: string)
      requires GridInvariant(page)
      modifies this`storage, this`page, this`calls, this`server
      ensures GridInvariant(page)
      ensures FormsOf(page) == FormsOf(old(page)).(loginMessage := Shown(LOGIN_DONE, false))
      ensures old(calls) <= calls
      ensures storage == StoredAfterLogin(old(storage), token, old(server))
      ensures page.hidden == Navigated(old(page.hidden), ScreenAfterLogin(token, old(server)))
      ensures token != "" ==> |calls| > |old(calls)| && calls[|old(calls)|] == GetProfile(token)
      ensures token == "" ==> calls == old(calls)
      ensures SessionChecked(old(storage)[TOKEN_KEY := token], old(page).(loginMessage := Shown(LOGIN_DONE, false)),
                             old(calls), old(server), storage, page, calls, server)
    {
      SaveToken(token);
      page := page.(loginMessage := Shown(LOGIN_DONE, false));
      ghost var saved := storage;
      CheckAuthentication();
      if token != "" && !SessionKept(old(server)) {
        assert storage == saved - {TOKEN_KEY} == old(storage) - {TOKEN_KEY};
      }
    }

    /**
     * `handleRegister(credentials, registerButton, registerMessage)`: on
     * success the login form is filled, the login screen shown and the same
     * credentials logged in.
     */
    method HandleRegister(credentials: Credentials)
      requires GridInvariant(page)
      modifies this`storage, this`page, this`calls, this`server
      ensures GridInvariant(page)
      ensures page.registerButton == Button(false, REGISTER_LABEL)
      ensures |calls| > |old(calls)| && calls[..|old(calls)| + 1] == old(calls) + [PostRegister(credentials)]
      ensures RegisterOutcome(Peek(old(server))).RegisterFailed? ==>
        && storage == old(storage) && calls == old(calls) + [PostRegister(credentials)] && server == Rest(old(server))
        && page == old(page).(registerMessage := Shown(RegisterOutcome(Peek(old(server))).message, true),
                              registerButton := Button(false, REGISTER_LABEL))
      ensures RegisterOutcome(Peek(old(server))).Registered? ==>
        LoginDone(credentials, old(storage),
                  FilledLoginPage(old(page), credentials).(registerMessage := Shown(REGISTER_DONE, false),
                                                           registerButton := Button(false, REGISTER_LABEL)),
                  old(calls) + [PostRegister(credentials)], Rest(old(server)), storage, page, calls, server)
    {
      page := page.(registerButton := ButtonState(true, REGISTER_LABEL, REGISTER_BUSY));
      page := page.(registerMessage := Shown(REGISTER_TRYING, false));
      var reply := Call(PostRegister(credentials));
      match RegisterOutcome(reply) {
        case RegisterFailed(message) =>
          page := page.(registerMessage := Shown(message, true));
        case Registered =>
          page := page.(registerMessage := Shown(REGISTER_DONE, false));
          ghost var before := page;
          assert FilledLoginPage(before, credentials).(registerButton := Button(false, REGISTER_LABEL))
              == FilledLoginPage(old(page), credentials).(registerMessage := Shown(REGISTER_DONE, false),
                                                          registerButton := Button(false, REGISTER_LABEL));
          LogInRegistered(credentials);
          LoginDoneExtends(credentials, old(storage), FilledLoginPage(before, credentials),
                           old(calls) + [PostRegister(credentials)], Rest(old(server)), storage, page, calls, server);
          LoginDoneKeepsRegisterButton(credentials, old(storage), FilledLoginPage(before, credentials),
                                       old(calls) + [PostRegister(credentials)], Rest(old(server)), storage, page, calls, server, Button(false, REGISTER_LABEL));
      }
      page := page.(registerButton := ButtonState(false, REGISTER_LABEL, DEFAULT_LOADING_TEXT));
    }

    /**
     * The automatic login after a successful registration (src/auth.js:120-127):
     * the login form is filled and the login screen shown, which is where a
     * failed login leaves the page.
     */
    method LogInRegistered(credentials: Credentials)
      requires GridInvariant(page)
      modifies this`storage, this`page, this`calls, this`server
      ensures GridInvariant(page)
      ensures LoginDone(credentials, old(storage), FilledLoginPage(old(page), credentials), old(calls), old(server),
                        storage, page, calls, server)
    {
      page := page.(loginEmail := credentials.email);
      page := page.(loginSenha := credentials.senha);
      Navigate(LOGIN_SCREEN);
      HandleLogin(credentials);
    }

    /** `handleLogout()` */
    method HandleLogout()
      modifies this`storage, this`page
      ensures storage == old(storage) - {TOKEN_KEY} && !SignedInStore(storage)
      ensures page == old(page).(hidden := Navigated(old(page.hidden), LOGIN_SCREEN), loginMessage := Shown("", false))
    {
      RemoveToken();
      Navigate(LOGIN_SCREEN);
      page := page.(loginMessage := Shown("", false));
    }

    // ---- create, edit, view, delete (src/media.js:169-314) ----

    /**
     * `handleCreateOrEditMedia()`: an edit (PUT) exactly when the hidden id
     * input is non-empty, a create (POST) otherwise. Failures, 401/403
     * included, are shown in the modal and keep the token; a success closes
     * the modal and reloads the list once. The submit button is restored on
     * every path.
     */
    method HandleCreateOrEditMedia()
      requires GridInvariant(page)
      modifies this`storage, this`page, this`calls, this`server
      ensures GridInvariant(page)
      ensures page.modal.submit == Button(false, if old(page.modal.idInput) != "" then EDIT_LABEL else CREATE_LABEL)
      ensures SaveDone(SaveRequest(old(storage), old(page.modal)), old(storage), WithSubmit(old(page), page.modal.submit), old(calls), old(server),
                       storage, page, calls, server)
    {
      var isEditing := page.modal.idInput != "";
      var defaultText := if isEditing then EDIT_LABEL else CREATE_LABEL;
      page := page.(modal := page.modal.(submit := ButtonState(true, defaultText, SAVE_BUSY)));
      ghost var busy := page;
      SubmitModal();
      ghost var submitted := page;
      page := page.(modal := page.modal.(submit := ButtonState(false, defaultText, DEFAULT_LOADING_TEXT)));
      SaveDoneWithSubmit(SaveRequest(old(storage), old(page.modal)), old(storage), busy, old(calls), old(server),
                         storage, submitted, calls, server, page.modal.submit);
    }

    /**
     * The `try` block of `handleCreateOrEditMedia` (src/media.js:179-221):
     * the request built from the modal's fields and what its answer does.
     */
    method SubmitModal()
      requires GridInvariant(page)
      modifies this`storage, this`page, this`calls, this`server
      ensures GridInvariant(page)
      ensures SaveDone(SaveRequest(old(storage), old(page.modal)), old(storage), old(page), old(calls), old(server),
                       storage, page, calls, server)
    {
      var payload := Payload(page.modal.titleInput, page.modal.descriptionInput);
      var token := GetToken();
      var request := if page.modal.idInput != "" then PutNota(page.modal.idInput, payload, token) else PostNota(payload, token);
      var reply := Call(request);
      match SaveOutcome(reply) {
        case SaveFailed(message) =>
          page := page.(modal := page.modal.(message := Shown(message, true)));
        case Saved(id) =>
          FinishSave(id);
      }
    }

    /** The success path of a save: report, close the modal, reload the list (src/media.js:214-217). */
    method FinishSave(id: string)
      requires GridInvariant(page)
      modifies this`storage, this`page, this`calls, this`server
      ensures GridInvariant(page)
      ensures MEDIA_MODAL in page.hidden && page.hidden[MEDIA_MODAL]
      ensures page.modal == old(page.modal).(titleInput := "", descriptionInput := "", iframeSrc := "")
      ensures calls == old(calls) + (if SignedInStore(old(storage)) then [GetNotas(TokenIn(old(storage)).value)] else [])
      ensures ListLoaded(old(storage), ClosedPage(old(page)), old(calls), old(server), storage, page, calls, server)
    {
      page := page.(homeMessage := Shown(SAVED_PREFIX + id, false));
      CloseMediaModal();
      LoadMediaList();
      ListLoadedIgnoresMessage(old(storage), ClosedPage(old(page)), Shown(SAVED_PREFIX + id, false), old(calls), old(server),
                               storage, page, calls, server);
    }

    /**
     * `handleViewMedia(nota)`. The embed URL it puts in the iframe is
     * replaced by `openMediaModal`, which sets the raw `titulo`; the
     * preview message needs `titulo` to be a string (anything else throws
     * before it).
     */
    method HandleViewMedia(nota: Json)
      requires !nota.JNull?
      modifies this`page
      ensures page == ViewedPage(old(page), nota)
    {
      var titulo := Get(nota, "titulo");
      page := page.(modal := page.modal.(heading := VIEWING_HEADING));
      page := page.(modal := page.modal.(titleInput := InputValue(titulo), descriptionInput := InputValue(Get(nota, "descricao"))));
      var embedUrl := ConvertToEmbedUrl(titulo);
      page := page.(modal := page.modal.(iframeSrc := embedUrl));
      OpenMediaModal(false, nota, true);
      if titulo.Some? && titulo.value.JStr? {
        page := page.(homeMessage := Shown(ViewingMessage(titulo.value.s), false));
      }
    }

    /** `handleEditMedia(nota)` */
    method HandleEditMedia(nota: Json)
      requires !nota.JNull?
      modifies this`page
      ensures page == EditedPage(old(page), nota)
    {
      page := page.(modal := page.modal.(iframeSrc := ""));
      page := page.(modal := page.modal.(idInput := InputValue(Get(nota, "id"))));
      page := page.(modal := page.modal.(titleInput := InputValue(Get(nota, "titulo")), descriptionInput := InputValue(Get(nota, "descricao"))));
      OpenMediaModal(true, nota, false);
    }

    /**
     * `handleDeleteMedia(nota)`, with the answer to `confirm()` as a
     * parameter.
     */
    method HandleDeleteMedia(nota: Json, confirmed: bool)
      requires GridInvariant(page) && !nota.JNull?
      modifies this`storage, this`page, this`calls, this`server
      ensures GridInvariant(page)
      ensures FormsOf(page) == FormsOf(old(page))
      ensures !confirmed ==> storage == old(storage) && page == old(page) && calls == old(calls) && server == old(server)
      ensures confirmed ==>
        ConfirmedDelete(nota, old(storage), old(page), old(calls), old(server), storage, page, calls, server)
    {
      if !confirmed {
        return;
      }
      var token := GetToken();
      if token.None? || token.value == "" {
        page := page.(homeMessage := Shown(AUTH_ERROR, true));
        CheckAuthentication();
        return;
      }
      var id := ToStr(Get(nota, "id"));
      page := page.(homeMessage := Shown(DeletingMessage(id), false));
      DeleteWithToken(id, token.value);
    }

    /** The request and answer of a confirmed delete with a token (src/media.js:283-313). */
    method DeleteWithToken(id: string, token: string)
      requires GridInvariant(page) && TokenIn(storage) == Some(token) && token != ""
      modifies this`storage, this`page, this`calls, this`server
      ensures GridInvariant(page)
      ensures FormsOf(page) == FormsOf(old(page))
      ensures DeleteDone(id, token, old(storage), old(page), old(calls), old(server), storage, page, calls, server)
    {
      var reply := Call(DeleteNota(id, token));
      match DeleteOutcome(reply) {
        case DeleteRejected =>
          RemoveToken();
          CheckAuthentication();
          page := page.(homeMessage := Shown(SESSION_EXPIRED, true));
        case DeleteFailed(message) =>
          page := page.(homeMessage := Shown(message, true));
        case Deleted =>
          page := page.(homeMessage := Shown(DeletedMessage(id), false));
          LoadMediaList();
          ListLoadedIgnoresMessage(old(storage), old(page), Shown(DeletedMessage(id), false), old(calls) + [DeleteNota(id, token)],
                                   Rest(old(server)), storage, page, calls, server);
      }
    }

    /**
     * A click on the grid, dispatched by the installed listener: `target` is
     * the `.card-action-button` the click landed in, if any; the element is
     * looked up in the list the listener closes over, and a missing or falsy
     * element is reported as not found.
     */
    method ClickGrid(target: Option<CardButton>, confirmed: bool)
      requires GridInvariant(page)
      modifies this`storage, this`page, this`calls, this`server
      ensures GridInvariant(page)
      ensures target.None? || old(page.gridListeners) == [] ==>
        storage == old(storage) && page == old(page) && calls == old(calls) && server == old(server)
      ensures target.Some? && old(page.gridListeners) != [] ==>
        var found := FindNota(old(page.gridListeners[0].notas), target.value.id);
        var action := target.value.action;
        && (found.None? || !Truthy(found.value) ==>
              && storage == old(storage) && calls == old(calls) && server == old(server)
              && page == old(page).(homeMessage := Shown(NotFoundMessage(target.value.id), true)))
        && (found.Some? && Truthy(found.value) && action == "edit" ==>
              storage == old(storage) && calls == old(calls) && server == old(server) && page == EditedPage(old(page), found.value))
        && (found.Some? && Truthy(found.value) && action == "view" ==>
              storage == old(storage) && calls == old(calls) && server == old(server) && page == ViewedPage(old(page), found.value))
        && (found.Some? && Truthy(found.value) && action == "delete" && confirmed ==>
              ConfirmedDelete(found.value, old(storage), old(page), old(calls), old(server), storage, page, calls, server))
        && (found.Some? && Truthy(found.value) && ((action == "delete" && !confirmed) || action !in {"view", "edit", "delete"}) ==>
              storage == old(storage) && page == old(page) && calls == old(calls) && server == old(server))
    {
      if target.None? || page.gridListeners == [] {
        return;
      }
      var notas := page.gridListeners[0].notas;
      var found := FindNota(notas, target.value.id);
      if found.None? || !Truthy(found.value) {
        page := page.(homeMessage := Shown(NotFoundMessage(target.value.id), true));
        return;
      }
      Dispatch(target.value.action, found.value, confirmed);
    }

    /** The `switch (action)` of the grid listener (src/media.js:343-358) on a found element. */
    method Dispatch(action: string, nota: Json, confirmed: bool)
      requires GridInvariant(page) && Truthy(nota)
      modifies this`storage, this`page, this`calls, this`server
      ensures GridInvariant(page)
      ensures action == "edit" ==>
        storage == old(storage) && calls == old(calls) && server == old(server) && page == EditedPage(old(page), nota)
      ensures action == "view" ==>
        storage == old(storage) && calls == old(calls) && server == old(server) && page == ViewedPage(old(page), nota)
      ensures action == "delete" && confirmed ==>
        ConfirmedDelete(nota, old(storage), old(page), old(calls), old(server), storage, page, calls, server)
      ensures (action == "delete" && !confirmed) || action !in {"view", "edit", "delete"} ==>
        storage == old(storage) && page == old(page) && calls == old(calls) && server == old(server)
    {
      match action {
        case "view" => HandleViewMedia(nota);
        case "edit" => HandleEditMedia(nota);
        case "delete" => HandleDeleteMedia(nota, confirmed);
        case _ =>
      }
    }

    // ---- startup (src/main.js:9-31) ----

    /**
     * `initializeApp()` with the `mediaId` query parameter (None when
     * absent): a non-empty id selects the public view and skips the session
     * check.
     */
    method InitializeApp(mediaId: Option<string>)
      requires GridInvariant(page)
      modifies this`storage, this`page, this`calls, this`server, this`boot
      ensures GridInvariant(page)
      ensures |boot| >= |old(boot)| + 2 && boot[..|old(boot)| + 2] == old(boot) + [InitUi, RegisterListeners]
      ensures mediaId.Some? && mediaId.value != "" ==>
        && boot == old(boot) + [InitUi, RegisterListeners, PublicView(mediaId.value)]
        && storage == old(storage) && calls == old(calls) && server == old(server)
        && page == old(page).(hidden := Navigated(old(page.hidden), MEDIA_VIEW_SCREEN))
      ensures !(mediaId.Some? && mediaId.value != "") ==> boot == old(boot) + [InitUi, RegisterListeners]
      ensures !(mediaId.Some? && mediaId.value != "") ==>
        SessionChecked(old(storage), old(page), old(calls), old(server), storage, page, calls, server)
    {
      boot := boot + [InitUi];
      boot := boot + [RegisterListeners];
      if mediaId.Some? && mediaId.value != "" {
        Navigate(MEDIA_VIEW_SCREEN);
        boot := boot + [PublicView(mediaId.value)];
        return;
      }
      CheckAuthentication();
    }
  }
}
