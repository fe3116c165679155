/** The on-screen keypad form (src/components/ParkingForm.tsx). The ticket
    number belongs to the parent page; the form proposes new values through
    `setTicketId` and submits through `onSubmit`. Its own state is the
    `scannerEnabled` flag. */
module ParkingForm {
  import opened Wrappers
  import opened Text

  const Backspace := "{bksp}"
  const Clear := "{clear}"

  /** The regular expression `/^\d$/`: exactly one decimal digit. */
  predicate IsSingleDigit(button: string) {
    |button| == 1 && IsDigit(button[0])
  }

  /** `onKeyPress`: the value handed to `setTicketId` for one button, or
      `None` when the form does not call it. */
  function OnKeyPress(disabled: bool, ticketId: string, button: string): (r: Option<string>)
    ensures disabled ==> r == None
    ensures !disabled && button == Backspace ==>
      r.Some? && r.value <= ticketId &&
      |r.value| == (if ticketId == "" then 0 else |ticketId| - 1)
    ensures !disabled && button == Clear ==> r == Some("")
    ensures !disabled && IsSingleDigit(button) ==> r == Some(ticketId + button)
    ensures !disabled && button != Backspace && button != Clear && !IsSingleDigit(button) ==> r == None
  {
    if disabled then None
    else if button == Backspace then
      Some(if ticketId == "" then "" else ticketId[..|ticketId| - 1])
    else if button == Clear then Some("")
    else if IsSingleDigit(button) then Some(ticketId + button)
    else None
  }

  /** The ticket number after one button, once the parent has stored what
      the form handed to `setTicketId`. */
  function PressKey(disabled: bool, ticketId: string, button: string): string {
    OnKeyPress(disabled, ticketId, button).GetOr(ticketId)
  }

  /** The ticket number after a sequence of buttons. */
  function PressKeys(disabled: bool, ticketId: string, buttons: seq<string>): string
    decreases |buttons|
  {
    if buttons == [] then ticketId
    else PressKeys(disabled, PressKey(disabled, ticketId, buttons[0]), buttons[1..])
  }

  /** A ticket number made of digits stays made of digits whatever is
      pressed. */
  lemma {:induction false} KeysKeepDigits(disabled: bool, ticketId: string, buttons: seq<string>)
    requires AllDigits(ticketId)
    ensures AllDigits(PressKeys(disabled, ticketId, buttons))
    decreases |buttons|
  {
    if buttons != [] {
      var next := PressKey(disabled, ticketId, buttons[0]);
      assert AllDigits(next);
      KeysKeepDigits(disabled, next, buttons[1..]);
    }
  }

  /** A disabled form never changes the ticket number. */
  lemma {:induction false} DisabledKeysChangeNothing(ticketId: string, buttons: seq<string>)
    ensures PressKeys(true, ticketId, buttons) == ticketId
    decreases |buttons|
  {
    if buttons != [] {
      DisabledKeysChangeNothing(ticketId, buttons[1..]);
    }
  }

  /** The digits of a sequence of single-digit buttons, in order. */
  function Typed(buttons: seq<string>): string
    requires forall i :: 0 <= i < |buttons| ==> IsSingleDigit(buttons[i])
  {
    if buttons == [] then "" else buttons[0] + Typed(buttons[1..])
  }

  /** Digits typed on an enabled form are appended in order. */
  lemma {:induction false} DigitsAppend(ticketId: string, buttons: seq<string>)
    requires forall i :: 0 <= i < |buttons| ==> IsSingleDigit(buttons[i])
    ensures PressKeys(false, ticketId, buttons) == ticketId + Typed(buttons)
    decreases |buttons|
  {
    if buttons != [] {
      DigitsAppend(ticketId + buttons[0], buttons[1..]);
      assert ticketId + buttons[0] + Typed(buttons[1..]) == ticketId + (buttons[0] + Typed(buttons[1..]));
    }
  }

  /** `handleSubmit`: the ticket number handed to `onSubmit`, which happens
      only when it is non-empty. */
  function HandleSubmit(ticketId: string): (r: Option<string>)
    ensures r.Some? <==> ticketId != ""
    ensures r.Some? ==> r.value == ticketId
  {
    if ticketId != "" then Some(ticketId) else None
  }

  /** The submit button's `disabled` attribute. */
  predicate SubmitButtonDisabled(disabled: bool, ticketId: string) {
    disabled || ticketId == ""
  }

  /** Pressing an enabled submit button always reaches `onSubmit`, with the
      ticket number as shown. */
  lemma EnabledButtonSubmits(disabled: bool, ticketId: string)
    requires !SubmitButtonDisabled(disabled, ticketId)
    ensures HandleSubmit(ticketId) == Some(ticketId)
  {
  }

  /** On an enabled form the button is disabled exactly when `handleSubmit`
      would not submit: the empty ticket number. */
  lemma ButtonMatchesHandler(ticketId: string)
    ensures SubmitButtonDisabled(false, ticketId) <==> HandleSubmit(ticketId).None?
    ensures SubmitButtonDisabled(true, ticketId)
  {
  }

  /** The parent callbacks a form event invokes, in order. */
  datatype Callback = SetTicketIdCall(ticketId: string) | SubmitCall(ticketId: string)

  /** The form component's own state. */
  class KeypadForm {
    var scannerEnabled: bool

    constructor ()
      ensures scannerEnabled
    {
      scannerEnabled := true;
    }

    /** The scanner's `onRead`: disable the scanner, store the code as the
        ticket number and submit it. Nothing turns the scanner back on. */
    method OnScannerRead(code: string) returns (calls: seq<Callback>)
      modifies this
      ensures !scannerEnabled
      ensures calls == [SetTicketIdCall(code), SubmitCall(code)]
    {
      scannerEnabled := false;
      calls := [SetTicketIdCall(code), SubmitCall(code)];
    }
  }
}
