/**
 * The view helpers of src/ui.js as updates of plain values: feedback
 * messages, buttons, the modal's fields, and the screen switch `navigateTo`,
 * which works on the `hidden` class of every element of the page.
 */
module Ui {
  import opened Wrappers

  const LOGIN_SCREEN := "login-screen"
  const PROFILE_SCREEN := "profile-screen"
  const REGISTER_SCREEN := "register-screen"
  const HOME_SCREEN := "home-screen"
  const MEDIA_VIEW_SCREEN := "media-view-screen"
  /** The five screens `navigateTo` hides before showing its target. */
  const SCREENS: seq<string> := [LOGIN_SCREEN, PROFILE_SCREEN, REGISTER_SCREEN, HOME_SCREEN, MEDIA_VIEW_SCREEN]

  const MEDIA_MODAL := "media-modal"
  const CREATE_EDIT_FORM := "create-edit-form"
  const MODAL_SUBMIT_BUTTON := "modal-submit-button"
  const MEDIA_IFRAME := "media-iframe"

  const ERROR_CLASS := "error"
  const INFO_CLASS := "info"
  const DEFAULT_LOADING_TEXT := "Carregando..."

  /** A feedback element: its text and its class. */
  datatype MessageBox = MessageBox(text: string, className: string)

  /** A button: whether it is disabled, and its label. */
  datatype Button = Button(disabled: bool, text: string)

  /**
   * The fields of the media modal other than visibility: its heading, the
   * hidden id input, the two text inputs and whether they are read-only, the
   * iframe's `src`, the submit button with its class, the cancel label and
   * the modal's own message.
   */
  datatype Modal = Modal(
    heading: string,
    idInput: string,
    titleInput: string,
    descriptionInput: string,
    titleReadOnly: bool,
    descriptionReadOnly: bool,
    iframeSrc: string,
    submit: Button,
    submitClass: string,
    cancelText: string,
    message: MessageBox)

  /**
   * `displayMessage(text, isError, element)`; a null element (None) is left
   * alone. The flows in App assume every message element is present and
   * write `Shown` directly, which is this function's Some case.
   */
  function DisplayMessage(element: Option<MessageBox>, text: string, isError: bool): (r: Option<MessageBox>)
    ensures element.None? <==> r.None?
    ensures r.Some? ==> r.value.text == text
    ensures r.Some? ==> (r.value.className == ERROR_CLASS <==> isError)
    ensures r.Some? ==> (r.value.className == INFO_CLASS <==> !isError)
  {
    if element.Some? then Some(Shown(text, isError)) else None
  }

  /** The state of a message element after `displayMessage` on it. */
  function Shown(text: string, isError: bool): MessageBox {
    MessageBox(text, if isError then ERROR_CLASS else INFO_CLASS)
  }

  /**
   * `setButtonState(button, isDisabled, defaultText, loadingText)`; a null
   * button is left alone. The flows in App assume every button is present
   * and write `ButtonState` directly, which is this function's Some case.
   */
  function SetButtonState(button: Option<Button>, isDisabled: bool, defaultText: string, loadingText: string): (r: Option<Button>)
    ensures button.None? <==> r.None?
    ensures r.Some? ==> r.value.disabled == isDisabled
    ensures r.Some? && isDisabled ==> r.value.text == loadingText
    ensures r.Some? && !isDisabled ==> r.value.text == defaultText
  {
    if button.Some? then Some(ButtonState(isDisabled, defaultText, loadingText)) else None
  }

  function ButtonState(isDisabled: bool, defaultText: string, loadingText: string): Button {
    Button(isDisabled, if isDisabled then loadingText else defaultText)
  }

  /** For every element id of the page, whether it carries the class `hidden`. */
  type Visibility = map<string, bool>

  /**
   * The page after `navigateTo(screenId)`: the five screens are hidden, then
   * the element with id `screenId`, if the page has one, is shown; nothing
   * else changes.
   */
  function Navigated(hidden: Visibility, screenId: string): Visibility {
    map k | k in hidden :: if k == screenId then false else if k in SCREENS then true else hidden[k]
  }

  /** The state after the `forEach` of `navigateTo` has hidden the first `n` screens. */
  function HiddenUpTo(hidden: Visibility, n: nat): Visibility
    requires n <= |SCREENS|
  {
    map k | k in hidden :: if k in SCREENS[..n] then true else hidden[k]
  }

  /** `navigateTo(screenId)` */
  method NavigateTo(hidden: Visibility, screenId: string) returns (r: Visibility)
    ensures r == Navigated(hidden, screenId)
  {
    r := hidden;
    var i := 0;
    while i < |SCREENS|
      invariant 0 <= i <= |SCREENS|
      invariant r == HiddenUpTo(hidden, i)
    {
      var screen := SCREENS[i];
      if screen in r {
        r := r[screen := true];
      }
      assert SCREENS[..i + 1] == SCREENS[..i] + [screen];
      i := i + 1;
    }
    assert SCREENS[..i] == SCREENS;
    if screenId in r {
      r := r[screenId := false];
    }
  }

  /** Navigating to one of the five screens leaves exactly that screen visible among them. */
  lemma NavigateShowsOnlyTarget(hidden: Visibility, screenId: string)
    requires screenId in SCREENS
    requires forall s :: s in SCREENS ==> s in hidden
    ensures forall s :: s in SCREENS ==> s in Navigated(hidden, screenId) && (Navigated(hidden, screenId)[s] <==> s != screenId)
  {
  }

  /** Navigating to an id outside the five screens leaves all five hidden. */
  lemma NavigateOutsideHidesAll(hidden: Visibility, screenId: string)
    requires screenId !in SCREENS
    ensures forall s :: s in SCREENS && s in hidden ==> Navigated(hidden, screenId)[s]
  {
  }

  /** A second navigation from a screen undoes the first: only the last target counts. */
  lemma NavigateTwice(hidden: Visibility, first: string, second: string)
    requires first in SCREENS
    ensures Navigated(Navigated(hidden, first), second) == Navigated(hidden, second)
  {
  }
}
