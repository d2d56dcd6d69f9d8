# Media notes front end — a Dafny model

This project models the browser front end of a media-notes app. Users sign up
and log in against a REST backend and keep a token in `localStorage`. They
then list their media elements ("notas": a YouTube URL in `titulo` and a
description in `descricao`) as cards. From a card they can view an element in
an embedded player, edit it or delete it, and they can create new elements
through a modal form.

The model covers the four modules that make up that core:

- `src/media.js`: the embed-URL normaliser, card rendering, the list load and
  the create/edit/view/delete flows, and the grid's click listener.
- `src/auth.js`: the token store, `getMe`, login, registration, the session
  check and logout.
- `src/ui.js`: navigation between screens, feedback messages, button states,
  and opening and closing the media modal.
- `src/main.js`: start-up.

Files:

- `wrappers.dfy`: `Option`.
- `json.dfy`: JSON values and the JavaScript conversions the code relies on.
  These are truthiness, `a || b`, property access, `String(v)`, number
  printing, and what `textContent` and `input.value` make of `null` and
  `undefined`.
- `embed_url.dfy`: `convertToEmbedUrl`. Its two regular expressions are
  written out with JavaScript's leftmost-match, ordered-alternative and
  greedy-backtracking semantics.
- `cards.dfy`: the text of a card and the lookup `notasList.find(...)` that
  maps a clicked card back to its element.
- `ui.dfy`: the view helpers of `src/ui.js` as functions on values, and
  `navigateTo` as a loop over the screens.
- `api.dfy`: the requests and replies. Each flow's handling of one reply is a
  function returning a result datatype: `getMe`, login, register, list, save
  and delete.
- `app.dfy`: the page as one object (`class App`).
  - Its fields are the token store, a `Page` value, the log of requests
    issued, the scripted replies still to come, and the start-up steps taken.
  - Every flow is a method that changes exactly the fields its `modifies`
    clause names.
  - Every flow that touches the card grid keeps `GridInvariant`: at most one
    click listener, the one `mediaListener` names, over a list whose every
    element renders.

## Model

| member | source | states |
|---|---|---|
| Json.NatToStringRoundTrip | src/media.js:154 | the decimal text of a count reads back as the same number |
| Json.NatToStringInjective | src/media.js:154 | different counts print differently |
| EmbedUrl.CaptureAt | src/media.js:42 | the capture `([^&?%#]+)` matches exactly when the next character is an id character, and takes the maximal run |
| EmbedUrl.LastSlashCapture | src/media.js:42 | a capture by the tail `.+\/([^&?%#]+)` is the maximal id run right after a slash in range |
| EmbedUrl.LastSlashCaptureIsLast | src/media.js:42 | greedy `.+` backtracks to the last slash in range that an id character follows, and the capture is taken there |
| EmbedUrl.LastSlashCaptureNone | src/media.js:42 | when no slash in range is followed by an id character, the tail fails |
| EmbedUrl.PathAlternative | src/media.js:42 | `[^\/]+\/.+\/` fails at a slash; a match captures the maximal id run after a later slash |
| EmbedUrl.TwoLetterAlternative | src/media.js:42 | `\w\/\w\/` matches exactly on a word character, a slash, a word character, a slash and an id character, and captures the maximal run there |
| EmbedUrl.LiteralAlternative | src/media.js:42 | `v=` or `watch\?v=` matches exactly when the literal occurs and an id character follows it, and captures the maximal run there |
| EmbedUrl.WatchAlternatives | src/media.js:42 | the alternatives match exactly when one of the four does; they are tried in the order written, so the path form, then `\w\/\w\/`, then `v=`, and only when all three fail `watch\?v=` decides the capture |
| EmbedUrl.WatchMatch | src/media.js:42 | capture group 1 of the watch-form expression is a non-empty maximal id run |
| EmbedUrl.WatchMatchLeftmost | src/media.js:42 | the search returns what the alternatives capture at the leftmost position where the expression matches |
| EmbedUrl.WatchMatchNone | src/media.js:42 | with no match at or after a position, the search finds none |
| EmbedUrl.ShortMatch | src/media.js:49 | capture group 1 of the short-link expression is the maximal id run right after an occurrence of `youtu.be/` |
| EmbedUrl.ShortMatchLeftmost | src/media.js:49 | the search returns the capture at the leftmost `youtu.be/` that an id character follows |
| EmbedUrl.ShortMatchNone | src/media.js:49 | with no match at or after a position, the search finds none |
| EmbedUrl.VideoId | src/media.js:39-53 | the id is a maximal run of id characters of the URL; the watch form decides it whenever it matches, and the short link decides it exactly when the watch form fails |
| EmbedUrl.Normalise | src/media.js:30-60 | the empty string stays empty; a URL carrying either embed mark is returned unchanged; any other result is the input or the embed prefix followed by a maximal id run of the input |
| EmbedUrl.ConvertToEmbedUrl | src/media.js:29-61 | anything that is not a non-empty string gives ''; a string is normalised |
| EmbedUrl.EmbedPrefixIsMarked | src/media.js:35-57 | every URL the normaliser builds carries the embed mark |
| EmbedUrl.NormaliseIdempotent | src/media.js:29-61 | normalising twice equals normalising once |
| EmbedUrl.ConvertIdempotent | src/media.js:29-61 | feeding the result back in gives the same result, for every argument |
| EmbedUrl.NoWatchHostNoMatch | src/media.js:42 | without `youtube.com/` from a position on, the watch-form expression cannot match there |
| EmbedUrl.ShortLinkWithoutWatchHost | src/media.js:48-58 | a URL without `youtube.com/` is converted through its `youtu.be/` link, or returned unchanged when it has none |
| EmbedUrl.WatchFormFirst | src/media.js:42-45 | when the watch form matches, it decides the id whatever short link follows |
| EmbedUrl.ShortFormSecond | src/media.js:42-57 | when the watch form fails, a `youtu.be/` link decides the id, even in a URL that names `youtube.com/` |
| EmbedUrl.NoMatchKeepsUrl | src/media.js:55-60 | a URL that neither expression matches anywhere comes back unchanged |
| EmbedUrl.ShortLinkExample | src/media.js:49-57 | `https://youtu.be/abc123?t=5` becomes the embed URL of `abc123` |
| EmbedUrl.WatchExample | src/media.js:42-57 | `https://www.youtube.com/watch?v=abc&t=1` becomes the embed URL of `abc` |
| EmbedUrl.ShortsExample | src/media.js:42-60 | `https://youtube.com/shorts/xyz` matches neither expression and is returned unchanged |
| EmbedUrl.OtherHostExample | src/media.js:42-60 | a URL of another host is returned unchanged |
| Cards.Shorten | src/media.js:75-76 | a text within the limit is kept; a longer one becomes its first n characters and "..." |
| Cards.FieldText | src/media.js:75-76 | a string is shortened; an array, or an object whose `length` compares above the limit, throws; any other value is printed whole |
| Cards.CardOf | src/media.js:69-76 | a card renders exactly when the element is not null and both texts render; its id is the truthy `id` printed, or "N/A" |
| Cards.CardTextShaping | src/media.js:71-76 | a card shows the placeholder for a missing or falsy field, the text itself when it fits, and otherwise the first 30 (URL) or 50 (description) characters and "..." |
| Cards.RenderCards | src/media.js:111 | the cards render exactly when every element renders, one card per element and in order |
| Cards.FindNota | src/media.js:338 | finds the first element whose `String(id)` equals the clicked id; nothing exactly when no element has it |
| Cards.CardIdFound | src/media.js:338 | a card of an element with a truthy id leads a click back to an element with the same id |
| Cards.FalsyIdCardNotFound | src/media.js:71 | an element with a falsy id gets the id "N/A", and a click on its card finds nothing unless some element's id prints as "N/A" |
| Ui.DisplayMessage | src/ui.js:86-92 | a present element gets the text, with class `error` exactly for errors and `info` otherwise; an absent one stays absent |
| Ui.SetButtonState | src/ui.js:97-102 | a present button is disabled as asked and shows the loading text exactly while disabled |
| Ui.NavigateTo | src/ui.js:66-81 | the loop over the screens computes `Navigated` |
| Ui.NavigateShowsOnlyTarget | src/ui.js:66-81 | for a known screen, every screen is hidden except the target |
| Ui.NavigateOutsideHidesAll | src/ui.js:66-81 | navigating to an unknown id hides every screen |
| Ui.NavigateTwice | src/ui.js:66-81 | navigating twice is navigating to the second screen |
| Api.CaughtText | src/auth.js:93 | the shown text is never empty; a non-empty error message is shown as is |
| Api.ProfileOutcome | src/auth.js:30-56 | 401 or 403 is a rejection and nothing else is; a profile comes exactly from a 2xx answer with a non-null JSON body, and is its truthy `info` or else the body itself |
| Api.InfoObjectSignsIn | src/auth.js:49 | a profile whose `info` is an object counts as signed in |
| Api.LoginOutcome | src/auth.js:67-93 | a 2xx answer with a non-null JSON body yields the token `TokenField` picks; a refusal shows `detail` or "Credenciais inválidas.", and "Erro desconhecido" for a body that does not parse; a network failure shows its message; a failure always has a non-empty message |
| Api.TokenField | src/auth.js:76-84 | the token is `access` when truthy, else `access_token` when truthy, else the missing-token error |
| Api.LoginRefusedMessage | src/auth.js:69-71 | a refused login shows the server's `detail`, or "Credenciais inválidas." when there is none |
| Api.RegisterOutcome | src/auth.js:108-115 | registration succeeds exactly on a 2xx answer whose body parses; a refusal with a non-null body shows `detail` or "Erro desconhecido ao cadastrar."; a failure always has a non-empty message |
| Api.RegisterRefusedMessage | src/auth.js:112-115 | a refused registration shows the server's `detail`, or "Erro desconhecido ao cadastrar." when there is none |
| Api.NormaliseList | src/media.js:146-151 | an array is kept; another object becomes its `items` array or []; a falsy value is the empty list; null and other truthy values throw |
| Api.ListOutcome | src/media.js:133-159 | 401 or 403 is a rejection and nothing else is; any other answer is listed exactly when its body parses, normalises and renders, as the normalised body and its cards, one per element |
| Api.StringFieldsRender | src/media.js:69-76 | an object whose fields are all strings always renders |
| Api.ErrorStatusListed | src/media.js:142-153 | a non-2xx answer other than 401/403 whose body is an array of such objects is listed like a success |
| Api.FailureMessage | src/media.js:199-209 | the failure message is `detail`, then `message`, then `Falha ... Status <n>` for a non-null JSON body, and the raw text or the same fallback otherwise |
| Api.SaveOutcome | src/media.js:195-215 | a save succeeds exactly on a 2xx answer with a non-null JSON body, and reports its truthy `id` or "N/A"; 401/403 is "Sessão expirada..."; any other non-2xx gives the failure message |
| Api.DeleteOutcome | src/media.js:284-306 | 401/403 is a rejection and a 2xx answer a deletion, each exactly; any other status gives the failure message |
| App.Without | src/media.js:327-330 | `removeEventListener` leaves exactly the listeners other than the removed one |
| App.OpenedVisibility | src/ui.js:122-157 | the form and submit button are hidden exactly in view-only mode, the iframe exactly outside view mode, the modal is shown, and nothing else changes |
| App.OpenedModal | src/ui.js:109-158 | the fields are read-only exactly in view-only mode; the inputs take the element's fields or '' with no element; heading, button and cancel label follow the mode; the message is cleared |
| App.ViewedPage | src/media.js:230-246 | viewing opens the modal read-only with the form hidden, and leaves the grid and the forms alone |
| App.EditedPage | src/media.js:251-263 | editing opens the modal editable with the edit heading and button, and leaves the grid, the forms and the home message alone |
| App.SaveRequest | src/media.js:172-193 | a PUT for the id input exactly when it is non-empty, a POST otherwise, carrying the title and description inputs and the stored token |
| App.ListShownKeepsGrid | src/media.js:135-159 | a listing keeps the grid invariant and leaves the forms alone; a non-empty list is shown as its cards with exactly one listener over it; a rejection leaves no token |
| App.CardClickFindsElement | src/media.js:332-343 | on a grid of cards, a click on the card of an element with a truthy id reaches an element with that id through the installed listener |
| App.OpenedModalRequest | src/media.js:173-193 | after editing an element with a non-empty string id, a submit sends a PUT for that id with the stored token; after opening the modal for a new element, a POST |
| App.LoadedMessageNamesCount | src/media.js:154 | the status line after a list load tells the count: different counts give different lines |
| App.ListLoadedKeepsModal | src/media.js:122-161 | a list load, whatever its outcome, leaves the modal as it was |
| App.SaveDoneClosesModal | src/media.js:214-217 | after a successful save the modal is hidden with its title, description and iframe cleared, and only the list request follows the save |
| App.SessionCheckedAfterLogin | src/auth.js:76-89 | after storing a token, the session check keeps it unless it answers 401/403, ends on home exactly when it is accepted, leaves the forms alone and sends GET /me with the token first |
| App.LoginDoneOutcome | src/auth.js:62-97 | a login enables its button, leaves the register form, login inputs and modal alone, sends the POST first; a failure keeps the store and screen; a success leaves the token and screen the session check decides |
| App.LoginDoneKeepsRegisterButton | src/auth.js:62-97 | a login never touches the register button |
| App.App.SaveToken | src/auth.js:13-15 | the token is stored under `auth_token` |
| App.App.GetToken | src/auth.js:17-19 | the stored token, or null when none is stored |
| App.App.RemoveToken | src/auth.js:21-23 | afterwards no token is stored and nothing else in the store changes |
| App.App.Call | src/auth.js:36 | the request is logged and answered with the next scripted reply |
| App.App.Navigate | src/ui.js:66-81 | only the visibility changes, to `Navigated` |
| App.App.OpenMediaModal | src/ui.js:109-158 | the page changes exactly to `OpenedModal` and `OpenedVisibility` |
| App.App.CloseMediaModal | src/ui.js:163-171 | the modal is hidden and the title, description and iframe are cleared; the hidden id input is not cleared |
| App.App.RenderProfile | src/ui.js:176-182 | the email and id texts show the user's fields, then the screen is navigated to |
| App.App.GetMe | src/auth.js:30-56 | with no token it returns null and sends nothing; otherwise it sends one GET /me, returns the classified profile, and drops the token exactly on 401/403 |
| App.App.CheckAuthentication | src/auth.js:142-156 | exactly `SessionChecked`: without a session, or with a profile that is not signed in, the login screen (the token dropped on a 401/403 from /me); with one, the profile rendered on home and the list loaded as `ListLoaded` states, which ends on login with the token dropped when the list answer is 401/403; the forms are untouched |
| App.App.LoadMediaList | src/media.js:122-161 | exactly `ListLoaded`: with no token it reports the missing token and goes to login without sending anything; otherwise it sends one GET /notas and shows the classified answer (`ListShown`) |
| App.App.ShowList | src/media.js:135-159 | the page and store change exactly as `ListShown` says, and the grid invariant holds |
| App.App.RenderMediaList | src/media.js:103-116 | an empty list gives the no-media grid; otherwise the grid shows the cards and gets one fresh listener over the list |
| App.App.SetupMediaCardListeners | src/media.js:319-362 | the previous listener is removed before the new one is added, so the grid holds exactly the new listener, which is also the stored one |
| App.App.HandleLogin | src/auth.js:62-97 | the whole outcome is `LoginDone`: one POST /login; a failure shows its message and changes nothing else; a success stores the token, reports success and runs the session check as `SessionChecked` states (profile, grid, listener, calls and replies included); the login button ends enabled |
| App.App.CompleteLogin | src/auth.js:76-89 | the token is stored and success reported, then the session check runs as `SessionChecked` states from there, grid included; the token stays unless it answers 401/403, and the page ends on home exactly when the check is accepted |
| App.App.HandleRegister | src/auth.js:103-135 | one POST for the new user is sent first; a failure shows its message and changes nothing else; a success reports it and its whole outcome is `LoginDone` of the automatic login from the filled login form; the register button is re-enabled on every path |
| App.App.LogInRegistered | src/auth.js:119-127 | the whole outcome is `LoginDone` from the page with the login inputs filled with the credentials and the login screen shown: a refused login stays there with its message, the store unchanged and only the POST sent; a successful one runs the session check |
| App.App.HandleLogout | src/auth.js:162-166 | the token is removed, the login screen shown and the login message cleared |
| App.App.HandleCreateOrEditMedia | src/media.js:169-225 | the button is restored on every path, and otherwise the whole outcome is `SaveDone`: a PUT for the id input when it is non-empty, a POST otherwise, with the stored token; a failure (401/403 included) is shown in the modal and the token is kept; a success closes the modal and reloads the list as `ListLoaded` states |
| App.App.SubmitModal | src/media.js:179-221 | exactly `SaveDone`: the request built from the modal's fields is sent first; the modal reports a failure, or the modal closes and the list reload is shown as `ListLoaded` states |
| App.App.FinishSave | src/media.js:214-217 | the modal is hidden with its fields cleared, exactly one list request follows when a token is stored, and the reload is shown as `ListLoaded` states |
| App.App.HandleViewMedia | src/media.js:230-246 | the page becomes `ViewedPage`: the modal in view mode for the element, the preview message only when `titulo` is a string |
| App.App.HandleEditMedia | src/media.js:251-263 | the page becomes `EditedPage`: the modal in edit mode for the element |
| App.App.HandleDeleteMedia | src/media.js:269-314 | nothing happens unless confirmed; confirmed, `ConfirmedDelete` holds: without a token an authentication error and the login screen, otherwise the DELETE for the element's id and its whole outcome (`DeleteDone`), a success included: the list reload shown as `ListLoaded` states; the forms are untouched |
| App.App.DeleteWithToken | src/media.js:283-313 | exactly `DeleteDone`: the DELETE is sent first with the element's id; 401/403 drops the token and goes to login; another failure is reported; a success sends GET /notas and the store, page and remaining replies are those `ListLoaded` gives for the reload |
| App.App.ClickGrid | src/media.js:332-358 | no button or no listener: nothing; a missing or falsy element is reported as not found; otherwise the found element is dispatched as `Dispatch` states |
| App.App.Dispatch | src/media.js:345-357 | view and edit give `ViewedPage` and `EditedPage` with nothing sent; a confirmed delete gives `ConfirmedDelete` for the element; an unconfirmed delete or another action changes nothing |
| App.App.InitializeApp | src/main.js:9-31 | the UI is set up and the listeners registered first; a non-empty `mediaId` shows the public view screen without a session check; otherwise the session check runs, with its whole outcome as `SessionChecked` states |

## Left out

- `src/services/api.js` is not part of this model. Its requests appear as `ApiCall` values, and the backend is a script of replies that each request consumes in order. URLs, headers and body encodings are left out.
- `src/listeners.js` is not part of this model: the form submit handlers, buttons and modal buttons it wires up. Its import of `handleMediaCardAction`, which `src/media.js` does not export (src/listeners.js:5), is not modelled either.
- `src/redirecionar_qrcode.js` is not part of this model.
- `renderMediaContent` is imported at src/main.js:5 but `src/media.js` neither defines nor exports it. InitializeApp only records the public view as a `PublicView` step.
- The module-loading failure that the two missing exports would cause is not modelled. The start-up flow is modelled as written.
- Asynchrony: every flow runs to completion before the next starts. Calls the source does not await run to completion at the call site, and interleavings and double submits are not modelled.
- `console.error` is left out.
- `confirm()` is a boolean parameter of HandleDeleteMedia and ClickGrid.
- The `mediaId` query parameter is a parameter of InitializeApp.
- JSON numbers are integers. Floating-point values are not modelled.
- String lengths count characters, not UTF-16 code units.
- The texts of errors the JavaScript engine raises ("Failed to fetch", a JSON syntax error, a TypeError) are fixed constants, because their wording depends on the browser.
- Every DOM element the code looks up is assumed present. The `if (element)` guards of the view helpers appear only in `Ui.DisplayMessage` and `Ui.SetButtonState`.
- The card markup (`createMediaCardHTML`) is modelled only as the three strings put into the markup, `CardView`.
- A click is modelled by the `data-action` and `data-id` of the button it lands in (`closest`).
- The `load` event registration at src/main.js:34 is left out.
- A failed list load sets the grid to the failure notice. The notice's markup is not modelled.
- App.App.OpenMediaModal requires a non-null element when editing or viewing: `nota.id` on `null` throws, and the code never makes that call.
- App.App.HandleViewMedia and App.App.HandleEditMedia require a non-null element for the same reason. The grid never passes one, because a null element cannot render as a card.
- Cards.CardOf: the id and field texts are assumed free of `"`, `&` and `<`. The card markup pastes them into `innerHTML` unescaped (src/media.js:79-92), and HTML parsing of that markup is not modelled, so `CardView` holds the strings as pasted, not as the page shows them.
- Cards.CardIdFound: assumes the button's `data-id` is the printed id. An id containing `"` cuts the attribute short, and the lookup at src/media.js:338 then misses the element.
- App.CardClickFindsElement: the same assumption. For an element `{"id": "a\"b"}` the source reports "Nota ID a não encontrada." where the lemma finds the element.
- Shorts: a `/shorts/` URL matches neither expression and is returned unchanged (`EmbedUrl.ShortsExample`).
- Cards.FieldText: `length > n` on an object's `length` property is modelled for numbers, booleans and strings of decimal digits. A `length` that is an array, an object, or a string in another numeric form (sign, decimal point, exponent, hexadecimal, surrounding spaces) compares as not a number.
- App.App.HandleViewMedia stores the embed URL in the iframe as the code does, but `openMediaModal` then overwrites it with the raw `titulo`. The contract states the final value, the raw `titulo`.
- App.App.CloseMediaModal keeps the hidden id input, because `form.reset()` does not clear a hidden input whose value was set by script. A create after an edit therefore sends a PUT unless the modal was opened for a new element first.
