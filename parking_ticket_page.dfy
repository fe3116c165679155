/** The ticket validation page (src/components/ParkingTicketPage.tsx): a
    reducer over the page state, the check a scanned code must pass, the
    actions a scanner read and a submission dispatch, and the exit-time
    text. Timers are not modelled as time: the resets they fire are `Reset`
    actions. */
module ParkingTicketPage {
  import opened Wrappers
  import opened Text
  import opened Dates
  import ParkingForm

  /** The actions the page dispatches. */
  datatype Action =
    | Reset
    | Submitted(ticketId: string)
    | ErrorOccurred(error: string)
    | Succeeded(exitTime: Option<LocalTime>, remainingPayment: Option<string>)
    | SetTicketId(ticketId: string)
    | ShowForm

  /** The page state; an absent optional field is `None`. */
  datatype AppState = AppState(
    error: Option<string>,
    ticketId: string,
    exitTime: Option<LocalTime>,
    remainingPayment: Option<string>,
    processing: bool,
    scannerEnabled: bool,
    showForm: bool)

  const InitialState := AppState(None, "", None, None, false, true, false)

  /** JavaScript truthiness of an optional string: present and non-empty. */
  predicate Truthy(s: Option<string>) {
    s.Some? && s.value != ""
  }

  /** `reducer`: the state after one action. Every action keeps the scanner
      off while a validation is running. */
  function Reducer(state: AppState, action: Action): (r: AppState)
    ensures ScannerOffWhileProcessing(state) ==> ScannerOffWhileProcessing(r)
  {
    match action
    case Reset => InitialState
    case ErrorOccurred(error) => state.(processing := false, error := Some(error))
    case Submitted(ticketId) =>
      state.(ticketId := ticketId, processing := true, scannerEnabled := false)
    case Succeeded(exitTime, remainingPayment) =>
      state.(processing := false, exitTime := exitTime,
             remainingPayment := remainingPayment, scannerEnabled := true)
    case SetTicketId(ticketId) => state.(ticketId := ticketId)
    case ShowForm => state.(showForm := true)
  }

  /** The state after the actions, dispatched in order. */
  function Dispatch(state: AppState, actions: seq<Action>): AppState
    decreases |actions|
  {
    if actions == [] then state else Dispatch(Reducer(state, actions[0]), actions[1..])
  }

  lemma DispatchAppend(state: AppState, actions: seq<Action>, action: Action)
    ensures Dispatch(state, actions + [action]) == Reducer(Dispatch(state, actions), action)
    decreases |actions|
  {
    if actions != [] {
      assert (actions + [action])[1..] == actions[1..] + [action];
      DispatchAppend(Reducer(state, actions[0]), actions[1..], action);
    }
  }

  lemma DispatchPair(state: AppState, first: Action, second: Action)
    ensures Dispatch(state, [first, second]) == Reducer(Reducer(state, first), second)
  {
    var mid := Reducer(state, first);
    assert [first, second][1..] == [second];
    assert Dispatch(state, [first, second]) == Dispatch(mid, [second]);
    assert [second][1..] == [];
    assert Dispatch(mid, [second]) == Dispatch(Reducer(mid, second), []);
  }

  /** Reset gives back the initial state, whatever came before: not
      processing, no ticket, the scanner enabled, the form hidden, and no
      error, exit time or payment. */
  lemma ResetRestoresInitialState(state: AppState)
    ensures var r := Reducer(state, Reset);
      r == InitialState && !r.processing && r.ticketId == "" && r.scannerEnabled &&
      !r.showForm && r.error.None? && r.exitTime.None? && r.remainingPayment.None?
  {
  }

  /** A submission records the ticket, starts processing and disables the
      scanner; error, exit time, payment and form visibility are kept. */
  lemma SubmittedFields(state: AppState, ticketId: string)
    ensures var r := Reducer(state, Submitted(ticketId));
      r.ticketId == ticketId && r.processing && !r.scannerEnabled &&
      r.error == state.error && r.exitTime == state.exitTime &&
      r.remainingPayment == state.remainingPayment && r.showForm == state.showForm
  {
  }

  /** Success ends processing, re-enables the scanner and records exit time
      and payment (a `null` payload field becomes absent); error, ticket and
      form visibility are kept. */
  lemma SucceededFields(state: AppState, exitTime: Option<LocalTime>, remainingPayment: Option<string>)
    ensures var r := Reducer(state, Succeeded(exitTime, remainingPayment));
      !r.processing && r.scannerEnabled &&
      r.exitTime == exitTime && r.remainingPayment == remainingPayment &&
      r.error == state.error && r.ticketId == state.ticketId && r.showForm == state.showForm
  {
  }

  /** An error ends processing and records the message, but leaves the
      scanner as it was: after a submission it stays disabled. */
  lemma ErrorOccurredFields(state: AppState, error: string)
    ensures var r := Reducer(state, ErrorOccurred(error));
      !r.processing && r.error == Some(error) && r.scannerEnabled == state.scannerEnabled &&
      r.ticketId == state.ticketId && r.exitTime == state.exitTime &&
      r.remainingPayment == state.remainingPayment && r.showForm == state.showForm
  {
  }

  /** Typing a ticket changes only the ticket; showing the form changes only
      the form flag. */
  lemma EditingActionsTouchOneField(state: AppState, ticketId: string)
    ensures Reducer(state, SetTicketId(ticketId)) == state.(ticketId := ticketId)
    ensures Reducer(state, ShowForm) == state.(showForm := true)
  {
  }

  /** The page never listens to the scanner while a validation is running. */
  ghost predicate ScannerOffWhileProcessing(state: AppState) {
    state.processing ==> !state.scannerEnabled
  }

  /** Every action sequence keeps the scanner off while processing. */
  lemma {:induction false} DispatchKeepsScannerOffWhileProcessing(state: AppState, actions: seq<Action>)
    requires ScannerOffWhileProcessing(state)
    ensures ScannerOffWhileProcessing(Dispatch(state, actions))
    decreases |actions|
  {
    if actions != [] {
      DispatchKeepsScannerOffWhileProcessing(Reducer(state, actions[0]), actions[1..]);
    }
  }

  /** `validateScannedCode`: the code matches `/^[0-9]+$/`. */
  function ValidateScannedCode(code: string): (r: bool)
    ensures r <==> |code| > 0 && AllDigits(code)
  {
    MatchesDigitRun(code)
  }

  /** `onBarcodeScannerRead`: the actions a scanner read dispatches. The
      read is dropped while processing, while an error message is shown, or
      when the code is not a digit string; otherwise the code becomes the
      ticket and is submitted. */
  function OnBarcodeScannerRead(state: AppState, code: string): (actions: seq<Action>)
    ensures actions == [] <==> state.processing || Truthy(state.error) || !ValidateScannedCode(code)
    ensures actions != [] ==> actions == [SetTicketId(code), Submitted(code)]
  {
    if state.processing || Truthy(state.error) then []
    else if !ValidateScannedCode(code) then []
    else [SetTicketId(code), Submitted(code)]
  }

  /** An accepted read leaves the page processing the scanned code, with the
      scanner disabled and everything else as before. */
  lemma ScannerReadSubmitsCode(state: AppState, code: string)
    requires !state.processing && !Truthy(state.error) && ValidateScannedCode(code)
    ensures Dispatch(state, OnBarcodeScannerRead(state, code)) ==
      state.(ticketId := code, processing := true, scannerEnabled := false)
  {
    DispatchPair(state, SetTicketId(code), Submitted(code));
  }

  /** Once a read is accepted, every further read is dropped until the
      validation settles. */
  lemma ReadWhileProcessingIgnored(state: AppState, code: string, next: string)
    requires !state.processing && !Truthy(state.error) && ValidateScannedCode(code)
    ensures OnBarcodeScannerRead(Dispatch(state, OnBarcodeScannerRead(state, code)), next) == []
  {
    ScannerReadSubmitsCode(state, code);
  }

  /** What `validateTicket` resolves with; `exitTime ?? null` and
      `remainingPayment ?? null` leave it as it is. */
  datatype Validation = Validation(exitTime: Option<LocalTime>, remainingPayment: Option<string>)

  /** `submit`: the actions dispatched for one submission, the promise's
      outcome given as an input. The reset timer armed in `finally` is a
      later `Reset` action. */
  function SubmitActions(ticketId: string, outcome: Result<Validation>): (actions: seq<Action>)
    ensures |actions| == 2 && actions[0] == Submitted(ticketId)
    ensures outcome.Ok? ==> actions[1] == Succeeded(outcome.value.exitTime, outcome.value.remainingPayment)
    ensures outcome.Err? ==> actions[1] == ErrorOccurred(outcome.message)
  {
    match outcome
    case Ok(v) => [Submitted(ticketId), Succeeded(v.exitTime, v.remainingPayment)]
    case Err(message) => [Submitted(ticketId), ErrorOccurred(message)]
  }

  /** After a submission settles the page is no longer processing and holds
      the submitted ticket; on success the scanner is on again and the exit
      time and payment are shown, on failure the scanner stays off and the
      message is recorded. */
  lemma SubmissionSettles(state: AppState, ticketId: string, outcome: Result<Validation>)
    ensures var r := Dispatch(state, SubmitActions(ticketId, outcome));
      !r.processing && r.ticketId == ticketId &&
      (outcome.Ok? ==> r.scannerEnabled && r.error == state.error &&
                       r.exitTime == outcome.value.exitTime &&
                       r.remainingPayment == outcome.value.remainingPayment) &&
      (outcome.Err? ==> !r.scannerEnabled && r.error == Some(outcome.message) &&
                        r.exitTime == state.exitTime)
  {
    var actions := SubmitActions(ticketId, outcome);
    DispatchPair(state, actions[0], actions[1]);
    assert actions == [actions[0], actions[1]];
  }

  /** A failed validation with a non-empty message blocks the scanner path
      until a `Reset`: a read after it is dropped, and after the reset any
      valid code is accepted again. */
  lemma ErrorBlocksScannerUntilReset(state: AppState, code: string, message: string, next: string)
    requires !state.processing && !Truthy(state.error) && ValidateScannedCode(code)
    requires message != ""
    ensures var s := Dispatch(state, OnBarcodeScannerRead(state, code) + [ErrorOccurred(message)]);
      OnBarcodeScannerRead(s, next) == [] &&
      OnBarcodeScannerRead(Reducer(s, Reset), next) ==
        (if ValidateScannedCode(next) then [SetTicketId(next), Submitted(next)] else [])
  {
    DispatchAppend(state, OnBarcodeScannerRead(state, code), ErrorOccurred(message));
    ScannerReadSubmitsCode(state, code);
  }

  /** The `disabled` flag passed to the keypad form. */
  predicate FormDisabled(state: AppState) {
    state.processing || Truthy(state.error) || state.exitTime.Some?
  }

  /** While an accepted read is validated, and after it fails with a
      non-empty message or succeeds with an exit time, the keypad is
      disabled, so no key press changes the ticket number being shown. */
  lemma KeypadLockedAfterRead(state: AppState, code: string, outcome: Result<Validation>, buttons: seq<string>)
    requires !state.processing && !Truthy(state.error) && ValidateScannedCode(code)
    requires outcome.Err? ==> outcome.message != ""
    requires outcome.Ok? ==> outcome.value.exitTime.Some?
    ensures var reading := Dispatch(state, OnBarcodeScannerRead(state, code));
      FormDisabled(reading) &&
      ParkingForm.PressKeys(FormDisabled(reading), reading.ticketId, buttons) == code
    ensures var settled := Reducer(Dispatch(state, OnBarcodeScannerRead(state, code)), SubmitActions(code, outcome)[1]);
      FormDisabled(settled) &&
      ParkingForm.PressKeys(FormDisabled(settled), settled.ticketId, buttons) == code
  {
    ScannerReadSubmitsCode(state, code);
    ParkingForm.DisabledKeysChangeNothing(code, buttons);
  }

  /** `pad`: a minute below ten gets a leading '0', larger ones are printed
      as they are. Either way the value is kept and the text is at least two
      digits long. */
  function Pad(num: nat): (r: string)
    ensures AllDigits(r) && |r| >= 2 && DecimalValue(r) == num
    ensures |r| == if num < 10 then 2 else |Decimal(num)|
    ensures r[0] == '0' <==> num < 10
  {
    DecimalShape(num);
    DecimalRoundTrip(num);
    if num < 10 then
      LeadingZeroValue(Decimal(num));
      "0" + Decimal(num)
    else Decimal(num)
  }

  /** `formatTime`: empty without a date, otherwise the unpadded hour, ':'
      and the padded minute, which read back as the hour and minute. */
  function FormatTime(date: Option<LocalTime>): (r: string)
    ensures date.None? ==> r == ""
    ensures date.Some? ==> Split(r, ':') == [Decimal(date.value.hours), Pad(date.value.minutes)]
  {
    match date
    case None => ""
    case Some(t) =>
      var h, m := Decimal(t.hours), Pad(t.minutes);
      SplitAfterPiece(h, ':', m);
      assert IndexOf(m, ':') == -1;
      h + [':'] + m
  }

  lemma FormatTimeReadsBack(t: LocalTime)
    ensures var parts := Split(FormatTime(Some(t)), ':');
      |parts| == 2 && AllDigits(parts[0]) && AllDigits(parts[1]) &&
      DecimalValue(parts[0]) == t.hours && DecimalValue(parts[1]) == t.minutes
  {
    DecimalRoundTrip(t.hours);
  }
}
