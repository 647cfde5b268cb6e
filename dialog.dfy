/**
 * The application's message box (`CustomDialog`): which buttons and icon it shows
 * for a button set and an image, what each button's click handler stores in
 * `DialogResult`, and how `Show` turns the `bool?` that `ShowDialog` returns into a
 * `MessageBoxResult`.
 */
module CustomDialog {
  import opened Wrappers

  /** WPF's `MessageBoxButton`. */
  datatype MessageBoxButton = OK | OKCancel | YesNoCancel | YesNo

  /** WPF's `MessageBoxImage`. Its members are five distinct values: `Hand` and `Stop`
      are the same value as `Error`, `Exclamation` as `Warning`, `Asterisk` as
      `Information`. */
  datatype MessageBoxImage = NoImage | Error | Question | Warning | Information

  /** WPF's `MessageBoxResult`. */
  datatype MessageBoxResult = NoResult | OKResult | CancelResult | YesResult | NoButtonResult

  /** The four buttons of the dialog. */
  datatype Button = OkButton | YesButton | NoButton | CancelButton

  /** The button-visibility table of the constructor's second switch. */
  function ShowsButton(buttons: MessageBoxButton, b: Button): bool
  {
    match buttons
    case OK => b == OkButton
    case YesNo => b == YesButton || b == NoButton
    case YesNoCancel => b != OkButton
    case OKCancel => b == OkButton || b == CancelButton
  }

  /** The icon switch: the icon is shown for Information, Warning, Error and Question. */
  function ShowsIcon(icon: MessageBoxImage): bool
  {
    match icon
    case Information => true
    case Warning => true
    case Error => true
    case Question => true
    case NoImage => false
  }

  /** What a button's click handler stores in `DialogResult`. */
  function ClickValue(b: Button): Option<bool>
  {
    match b
    case OkButton => Some(true)
    case YesButton => Some(true)
    case NoButton => Some(false)
    case CancelButton => None
  }

  /** The result a caller expects from clicking a button. */
  function ButtonResult(b: Button): MessageBoxResult
  {
    match b
    case OkButton => OKResult
    case YesButton => YesResult
    case NoButton => NoButtonResult
    case CancelButton => CancelResult
  }

  /** `Show`'s mapping from the value `ShowDialog` returned to a `MessageBoxResult`. */
  function ShowResult(buttons: MessageBoxButton, shown: Option<bool>): (r: MessageBoxResult)
    // OK-style dialogs answer OK exactly for `true` and Cancel otherwise
    ensures (buttons == OK || buttons == OKCancel) ==>
              (r == OKResult <==> shown == Some(true)) && (r == OKResult || r == CancelResult)
    // Yes/No-style dialogs map true, false and null to Yes, No and Cancel
    ensures (buttons == YesNo || buttons == YesNoCancel) ==>
              (r == YesResult <==> shown == Some(true)) && (r == NoButtonResult <==> shown == Some(false))
              && (r == CancelResult <==> shown == None)
    ensures r != NoResult
  {
    // C#'s `result == true` on a `bool?` holds for a value that is present and true
    if buttons == OK || buttons == OKCancel then
      if shown.Some? && shown.value then OKResult else CancelResult
    else if shown.Some? && shown.value then YesResult
    else if shown.Some? && !shown.value then NoButtonResult
    else CancelResult
  }

  /** The icon is visible for every image except "none": the four cases of the switch
      cover all other values of the enumeration. */
  lemma IconShownUnlessNone(icon: MessageBoxImage)
    ensures ShowsIcon(icon) <==> icon != NoImage
  {
  }

  /** What WPF's `Window.ShowDialog` returns for the `DialogResult` its window closes
      with: a result still null at that point is returned as false. */
  function Returned(dialogResult: Option<bool>): Option<bool>
  {
    Some(dialogResult.GetOr(false))
  }

  /** What `Show` answers when the user clicks `click`, or closes the window some other
      way (`None`). */
  function Answer(buttons: MessageBoxButton, click: Option<Button>): MessageBoxResult
  {
    ShowResult(buttons, Returned(if click.Some? then ClickValue(click.value) else None))
  }

  /** Every visible button but one makes `Show` return that button's result; Cancel of
      a Yes/No/Cancel dialog, whose handler leaves the result null, answers No, and so
      does closing a Yes/No-style dialog, while closing an OK-style one answers Cancel. */
  lemma AnswerOfClick(buttons: MessageBoxButton, click: Option<Button>)
    ensures (click.Some? && ShowsButton(buttons, click.value)
             && !(buttons == YesNoCancel && click.value == CancelButton)) ==>
              Answer(buttons, click) == ButtonResult(click.value)
    ensures click == Some(CancelButton) && buttons == YesNoCancel ==> Answer(buttons, click) == NoButtonResult
    ensures click.None? && (buttons == OK || buttons == OKCancel) ==> Answer(buttons, click) == CancelResult
    ensures click.None? && (buttons == YesNo || buttons == YesNoCancel) ==> Answer(buttons, click) == NoButtonResult
  {
  }

  /** `Show`'s branch for a null result is never taken: a Yes/No-style dialog answers
      Yes or No, whatever the user does. */
  lemma YesNoNeverAnswersCancel(buttons: MessageBoxButton, click: Option<Button>)
    requires buttons == YesNo || buttons == YesNoCancel
    ensures Answer(buttons, click) == YesResult || Answer(buttons, click) == NoButtonResult
  {
  }

  /** Two different visible buttons of one dialog give different results, except No and
      Cancel of a Yes/No/Cancel dialog, which both answer No. */
  lemma VisibleButtonsAreDistinguishable(buttons: MessageBoxButton, b1: Button, b2: Button)
    requires ShowsButton(buttons, b1) && ShowsButton(buttons, b2) && b1 != b2
    ensures Answer(buttons, Some(b1)) == Answer(buttons, Some(b2)) <==>
              buttons == YesNoCancel && (b1 == CancelButton || b2 == CancelButton)
              && (b1 == NoButton || b2 == NoButton)
  {
  }

  /** The dialog window: the visibility of its icon and of its four buttons, the
      `DialogResult` its handlers set and whether it has been closed. */
  class Dialog {
    var title: string
    var message: string
    var iconVisible: bool
    var okVisible: bool
    var yesVisible: bool
    var noVisible: bool
    var cancelVisible: bool
    var dialogResult: Option<bool>
    var closed: bool

    function Visible(b: Button): bool
      reads this
    {
      match b
      case OkButton => okVisible
      case YesButton => yesVisible
      case NoButton => noVisible
      case CancelButton => cancelVisible
    }

    /** The constructor's two switches. */
    constructor (title: string, message: string, buttons: MessageBoxButton, icon: MessageBoxImage)
      ensures this.title == title && this.message == message
      ensures iconVisible == ShowsIcon(icon)
      ensures forall b :: Visible(b) == ShowsButton(buttons, b)
      ensures dialogResult == None && !closed
    {
      this.title := title;
      this.message := message;
      dialogResult := None;
      closed := false;
      iconVisible := false;
      match icon {
        case Information => iconVisible := true;
        case Warning => iconVisible := true;
        case Error => iconVisible := true;
        case Question => iconVisible := true;
        case NoImage =>
      }
      match buttons {
        case OK =>
          yesVisible, noVisible, okVisible, cancelVisible := false, false, true, false;
        case YesNo =>
          yesVisible, noVisible, okVisible, cancelVisible := true, true, false, false;
        case YesNoCancel =>
          yesVisible, noVisible, okVisible, cancelVisible := true, true, false, true;
        case OKCancel =>
          yesVisible, noVisible, okVisible, cancelVisible := false, false, true, true;
      }
    }

    method OkButtonClick()
      modifies this`dialogResult, this`closed
      ensures dialogResult == Some(true) && closed
    {
      dialogResult := Some(true);
      closed := true;
    }

    method YesButtonClick()
      modifies this`dialogResult, this`closed
      ensures dialogResult == Some(true) && closed
    {
      dialogResult := Some(true);
      closed := true;
    }

    method NoButtonClick()
      modifies this`dialogResult, this`closed
      ensures dialogResult == Some(false) && closed
    {
      dialogResult := Some(false);
      closed := true;
    }

    method CancelButtonClick()
      modifies this`dialogResult, this`closed
      ensures dialogResult == None && closed
    {
      dialogResult := None;
      closed := true;
    }

    /** Dispatches a click to the handler of that button. */
    method Click(b: Button)
      modifies this`dialogResult, this`closed
      ensures dialogResult == ClickValue(b) && closed
    {
      match b {
        case OkButton => OkButtonClick();
        case YesButton => YesButtonClick();
        case NoButton => NoButtonClick();
        case CancelButton => CancelButtonClick();
      }
    }
  }

  /** `CustomDialog.Show` with the user's action as a parameter: a click on one of the
      visible buttons, or `None` when the window is closed some other way (its
      `DialogResult` is then still null). `ShowDialog` returns the `DialogResult` the
      handlers left, a null one as false. */
  method Show(message: string, title: string, buttons: MessageBoxButton, icon: MessageBoxImage,
              click: Option<Button>) returns (r: MessageBoxResult)
    requires click.Some? ==> ShowsButton(buttons, click.value)
    ensures r == Answer(buttons, click)
  {
    var dialog := new Dialog(title, message, buttons, icon);
    if click.Some? {
      assert dialog.Visible(click.value);
      dialog.Click(click.value);
    }
    var shown := Returned(dialog.dialogResult);
    r := ShowResult(buttons, shown);
  }
}
