# nolimits-parking-frontend — a Dafny model of the kiosk's decision logic

The parking kiosk front end lets a driver validate a parking ticket, either
by scanning its barcode or by typing its number on an on-screen keypad.
Staff log the kiosk in by scanning a `user:pass` badge. This project models
the logic behind those screens and proves properties of it:

- the ticket page's reducer, the scanned-code check, the scanner-read gate,
  the actions a submission dispatches, and the `H:MM` exit-time text;
- the keypad editor and the form's submit rule;
- the camera debouncer. A code is reported once three frames have shown it
  as their first barcode with no frame showing another code first in
  between. Frames without a barcode, failed detections and restarts do not
  reset that count, so right after a restart one further frame of the same
  code reports it again. Within one run of the component's effect, scanning
  pauses after a report, or after 100 frames without one, until the
  five-second restart fires;
- the login page's `user:pass` split and its scanner enablement;
- the earlier `App` reducer;
- the API client: the ticket-number guard, the request URLs and headers,
  the login expiry conversion, and the error messages;
- the token store over the browser's key-value storage;
- the login-token hook's state updates and its scheduled invalidation;
- the kiosk lock-down: the input events whose default action is prevented,
  and the idle counter that reloads the page;
- the wall clock's `HH:MM:SS` text.

Effects are replaced by inputs or events:
- the server is a function from request to response;
- the clock is a `now` parameter in milliseconds;
- camera frames are a stream of detection results;
- timers are explicit events: a `Reset` action, `RestartFired`, `Tick`,
  and the invalidation firing.

Module layout. There is one module per source file, plus three shared ones:
- `Wrappers`: `Option` for `null`/`undefined`, `Result` for thrown errors;
- `Text`: the string built-ins the code uses;
- `Dates`: the local-time fields that the `Date` getters return.

The token expiry units are modelled as the code has them:
- `login` turns the server's seconds into milliseconds;
- `store` writes those milliseconds;
- `getStoredToken` multiplies the stored number by 1000 again, both to
  check expiry and to rebuild the token.

`TokenStorage.StoreThenRead`, `TokenStorage.StoredTokenOutlivesExpiry` and
`UseLoginToken.ReloadAfterLoginScalesTwice` state the consequences.

## Model

| member | source | states |
|---|---|---|
| Text.MatchesDigitRun | src/clients/apiClient.ts:58 | the regular expression `/^[0-9]+$/` matches exactly the non-empty strings of decimal digits |
| Text.Decimal | src/components/Clock.tsx:6 | `toString` of a non-negative integer is a non-empty digit string |
| Text.DecimalRoundTrip | src/components/Clock.tsx:6 | reading back the decimal text of `n` gives `n` |
| Text.DecimalShape | src/components/ParkingTicketPage.tsx:97 | the decimal text has one digit iff `n < 10`, two iff `10 <= n < 100`, and starts with '0' only for 0 |
| Text.IndexOf | src/components/LoginPage.tsx:38 | `indexOf` is -1 iff the character is absent, otherwise the position of its first occurrence |
| Text.PadStart | src/components/Clock.tsx:6 | `padStart` has length max(len, width), ends with the original text and is filled with the fill character before it |
| Clock.PadTime | src/components/Clock.tsx:6 | `padTime` gives digits denoting `part`, two characters long for every part below 100 |
| Clock.PadTimeOneDigit | src/components/Clock.tsx:6 | a part 0..9 becomes '0' followed by its digit |
| Clock.PadTimeTwoDigits | src/components/Clock.tsx:6 | a part 10..99 is its plain two-digit decimal |
| Clock.FormatTime | src/components/Clock.tsx:8-9 | `formatTime` holds exactly two ':' and splits back into the three padded parts |
| Clock.FormatTimeReadsBack | src/components/Clock.tsx:8-9 | for a clock reading (h < 24, m, s < 60) the text is 8 characters and its three parts read back as h, m and s |
| ParkingTicketPage.ResetRestoresInitialState | src/components/ParkingTicketPage.tsx:59-70 | Reset yields the initial state from any state: not processing, empty ticket, scanner on, form hidden, no error, exit time or payment |
| ParkingTicketPage.Reducer | src/components/ParkingTicketPage.tsx:66-95 | every action keeps "processing implies scanner off"; each action's full effect is stated by the lemmas in the rows below |
| ParkingTicketPage.SubmittedFields | src/components/ParkingTicketPage.tsx:73-79 | Submitted records the ticket, starts processing, turns the scanner off and keeps every other field |
| ParkingTicketPage.SucceededFields | src/components/ParkingTicketPage.tsx:80-87 | Succeeded stops processing, turns the scanner on, records exit time and payment (null becomes absent) and keeps error, ticket and form flag |
| ParkingTicketPage.ErrorOccurredFields | src/components/ParkingTicketPage.tsx:71-72 | ErrorOccurred stops processing and records the message but does not turn the scanner back on |
| ParkingTicketPage.EditingActionsTouchOneField | src/components/ParkingTicketPage.tsx:88-91 | SetTicketId changes only the ticket; ShowForm changes only the form flag |
| ParkingTicketPage.DispatchKeepsScannerOffWhileProcessing | src/components/ParkingTicketPage.tsx:66-95 | every sequence of actions keeps the invariant "processing implies scanner off" |
| ParkingTicketPage.ValidateScannedCode | src/components/ParkingTicketPage.tsx:102 | a scanned code is valid iff it is non-empty and all decimal digits |
| ParkingTicketPage.OnBarcodeScannerRead | src/components/ParkingTicketPage.tsx:154-166 | a read is dropped iff the page is processing, shows a (non-empty) error or the code is invalid; otherwise it dispatches SetTicketId then Submitted with that code |
| ParkingTicketPage.ScannerReadSubmitsCode | src/components/ParkingTicketPage.tsx:154-166 | an accepted read leaves the page processing the scanned code with the scanner off, all else unchanged |
| ParkingTicketPage.ReadWhileProcessingIgnored | src/components/ParkingTicketPage.tsx:156-158 | after an accepted read and the re-render that follows, every further read is dropped until the validation settles |
| ParkingTicketPage.SubmitActions | src/components/ParkingTicketPage.tsx:126-149 | a submission dispatches Submitted, then Succeeded with the resolved exit time and payment or ErrorOccurred with the thrown message |
| ParkingTicketPage.SubmissionSettles | src/components/ParkingTicketPage.tsx:126-149 | once a submission settles the page is not processing and holds the ticket; success turns the scanner on and shows the result, failure leaves it off and records the message |
| ParkingTicketPage.ErrorBlocksScannerUntilReset | src/components/ParkingTicketPage.tsx:156-158 | after a failed validation the scanner path is blocked; after a Reset every valid code is accepted again and submitted |
| ParkingTicketPage.Pad | src/components/ParkingTicketPage.tsx:97 | `pad` keeps the value; a number below 10 becomes exactly two digits starting with '0', a larger one its plain decimal text |
| ParkingTicketPage.FormatTime | src/components/ParkingTicketPage.tsx:99-100 | no date gives ""; a date gives the unpadded hour and the padded minute separated by one ':' |
| ParkingTicketPage.FormatTimeReadsBack | src/components/ParkingTicketPage.tsx:99-100 | the two parts of the exit-time text read back as the hour and the minute |
| ParkingTicketPage.KeypadLockedAfterRead | src/components/ParkingTicketPage.tsx:211-219 | the keypad's `disabled` flag is set while an accepted read is validated and after it fails with a message or succeeds with an exit time, so no key press changes the ticket shown |
| ParkingTicketPage.FormDisabled | src/components/ParkingTicketPage.tsx:215-217 | the keypad's `disabled` flag; no contract of its own, stated by `ParkingTicketPage.KeypadLockedAfterRead` |
| ParkingForm.OnKeyPress | src/components/ParkingForm.tsx:34-45 | disabled: no call; bksp: drop the last character (empty stays empty); clear: ""; one digit: append it; any other button: no call |
| ParkingForm.IsSingleDigit | src/components/ParkingForm.tsx:42 | the test `/^\d$/`; no contract of its own, stated by `ParkingForm.OnKeyPress` |
| ParkingForm.KeysKeepDigits | src/components/ParkingForm.tsx:34-45 | a ticket number of digits stays all digits after any sequence of key presses |
| ParkingForm.DisabledKeysChangeNothing | src/components/ParkingForm.tsx:35-37 | on a disabled form no sequence of key presses changes the ticket number |
| ParkingForm.DigitsAppend | src/components/ParkingForm.tsx:42-44 | digits typed on an enabled form are appended in order |
| ParkingForm.HandleSubmit | src/components/ParkingForm.tsx:27-32 | `onSubmit` is called iff the ticket number is non-empty, and then with that number |
| ParkingForm.SubmitButtonDisabled | src/components/ParkingForm.tsx:78 | the button's `disabled` attribute; no contract of its own, related to `handleSubmit` by `ParkingForm.ButtonMatchesHandler` and `ParkingForm.EnabledButtonSubmits` |
| ParkingForm.ButtonMatchesHandler | src/components/ParkingForm.tsx:27-32 | on an enabled form the button is disabled iff `handleSubmit` would not submit; a disabled form's button is always disabled |
| ParkingForm.EnabledButtonSubmits | src/components/ParkingForm.tsx:78 | when the submit button is enabled, pressing it submits the ticket number shown |
| ParkingForm.KeypadForm.constructor | src/components/ParkingForm.tsx:25 | the form's scanner starts enabled |
| ParkingForm.KeypadForm.OnScannerRead | src/components/ParkingForm.tsx:84-88 | a scanner read turns the form's scanner off, then sets the ticket number to the code and submits it |
| CameraBarcodeScanner.FirstCode | src/components/CameraBarcodeScanner.tsx:57-59 | a frame's code is its first detected barcode; none when nothing was detected or detection failed |
| CameraBarcodeScanner.Step | src/components/CameraBarcodeScanner.tsx:43-94 | one frame: a paused scanner does nothing, a report is the frame's first code and pauses scanning, and the invariant is kept; the branches are stated by the lemmas below |
| CameraBarcodeScanner.Restart | src/components/CameraBarcodeScanner.tsx:71-75 | the restart timer resumes scanning with a zero budget, keeps the last code and its count, and keeps the invariant |
| CameraBarcodeScanner.EmptyFrameKeepsCode | src/components/CameraBarcodeScanner.tsx:57-81 | a frame without a barcode, or a failed detection, reports nothing and keeps the last code and its count |
| CameraBarcodeScanner.OnlyFirstBarcodeCounts | src/components/CameraBarcodeScanner.tsx:59 | frames that agree on their first barcode have the same effect |
| CameraBarcodeScanner.DebounceStep | src/components/CameraBarcodeScanner.tsx:61-76 | a repeated code increments the count, a new one restarts it at 1; a code is reported iff the count reaches 3, and then scanning stops |
| CameraBarcodeScanner.FrameBudget | src/components/CameraBarcodeScanner.tsx:83-94 | a frame that reports nothing uses one unit of the budget, and scanning stops iff the budget reaches 100 |
| CameraBarcodeScanner.PausedIgnoresFrames | src/components/CameraBarcodeScanner.tsx:44 | a paused scanner ignores every frame until restarted |
| CameraBarcodeScanner.RunKeepsInv | src/components/CameraBarcodeScanner.tsx:25-94 | the scanner invariant (budget at most 100, paused at 100, count zero iff no last code) holds after any run of frames and restarts |
| CameraBarcodeScanner.ThreeFramesReport | src/components/CameraBarcodeScanner.tsx:61-76 | three frames with the same new code report it exactly once and pause |
| CameraBarcodeScanner.RestartKeepsDebounce | src/components/CameraBarcodeScanner.tsx:71-75 | a restart keeps the last code and its count, so one more frame of that code reports it again |
| CameraBarcodeScanner.Scanner.constructor | src/components/CameraBarcodeScanner.tsx:25-31 | the effect starts with no last code, zero counts and scanning on |
| CameraBarcodeScanner.Scanner.ScanFrame | src/components/CameraBarcodeScanner.tsx:43-94 | the in-place frame update gives the state and the report of the step function |
| CameraBarcodeScanner.Scanner.RestartScanning | src/components/CameraBarcodeScanner.tsx:89-93 | the restart timer resumes scanning with a fresh budget and keeps the debounce state |
| CameraBarcodeScanner.Scanner.Teardown | src/components/CameraBarcodeScanner.tsx:105-106 | cleanup stops scanning and changes nothing else |
| CameraBarcodeScanner.Mount | src/components/CameraBarcodeScanner.tsx:16-23 | scanner state exists iff the component is enabled and the browser has a detector |
| LoginPage.FillFromScanner | src/components/LoginPage.tsx:37-48 | a value without ':' changes nothing and submits nothing; otherwise the form is filled and submitted with a colon-free user name and a password that join back to the value |
| LoginPage.SplitIsUnique | src/components/LoginPage.tsx:38-44 | the split is at the first ':': any colon-free user name that joins back to the value is the one submitted, whatever the password holds |
| LoginPage.HandleSubmit | src/components/LoginPage.tsx:28-31 | the form submits exactly the user name and password it holds |
| LoginPage.PhysicalScannerEnabled | src/components/LoginPage.tsx:104 | the physical scanner's `enabled` flag; no contract of its own, stated by `LoginPage.ScannerAfterErrorChange` and `LoginPage.ErrorPausesScanner` |
| LoginPage.ScannerAfterErrorChange | src/components/LoginPage.tsx:50-56 | right after the `error` prop changes, the physical scanner listens iff nothing is loading and the error is absent or empty |
| LoginPage.DisplayedAfterErrorChange | src/components/LoginPage.tsx:51 | the message shown after the `error` prop changes; no contract of its own, stated by `LoginPage.ScannerAfterErrorChange` and `LoginPage.ErrorPausesScanner` |
| LoginPage.ErrorPausesScanner | src/components/LoginPage.tsx:104 | a non-empty error message turns the physical scanner off; with no message it is on iff nothing is loading |
| App.ResetRestoresInitialState | src/components/App.tsx:47-55 | Reset yields the initial state from any state |
| App.Reducer | src/components/App.tsx:52-63 | no action starts processing |
| App.ActionFields | src/components/App.tsx:56-61 | Submitted changes only the ticket; ErrorOccurred and Succeeded stop processing and record their payload, all else unchanged |
| App.NeverProcessing | src/components/App.tsx:52-63 | no action sets processing, so it stays false after any sequence of actions |
| ApiClient.LoginRequest | src/clients/apiClient.ts:21-29 | login POSTs JSON `{ username, password }` to apiUrl + "/login" |
| ApiClient.LoginOutcome | src/clients/apiClient.ts:31-51 | non-200: the failure message with the error detail; 200: the key, with the expiry in seconds times 1000; an unparsable 200 body throws the parser's message |
| ApiClient.LoginErrorDetail | src/clients/apiClient.ts:33-42 | the detail is the body's `error` field, or "nieznany" when it is absent or the body does not parse |
| ApiClient.Login | src/clients/apiClient.ts:17-52 | a non-200 status always fails with the login failure prefix; a success comes only from a parsed 200 body, keeping its key and turning its seconds into milliseconds |
| ApiClient.LoginConvertsSeconds | src/clients/apiClient.ts:48-51 | a successful login keeps the key and gives the expiry in milliseconds, 1000 times the seconds sent |
| ApiClient.ValidateRequest | src/clients/apiClient.ts:61-68 | validation POSTs to apiUrl + "/validate/" + ticket with the header "Token " + token |
| ApiClient.ValidateOutcome | src/clients/apiClient.ts:70-79 | 200: the exit time; another status: the retry message; an unparsable body: the parser's message |
| ApiClient.ValidateTicketAndGetExitTime | src/clients/apiClient.ts:54-80 | an invalid ticket number is refused with the fixed message; a valid one is sent once and its response read |
| ApiClient.RefusedWithoutRequest | src/clients/apiClient.ts:58-60 | a refused ticket number does not depend on the server: no request is made |
| ApiClient.TicketGuard | src/clients/apiClient.ts:58 | the guard accepts exactly the non-empty digit strings of at most 100 characters |
| ApiClient.ValidTicketId | src/clients/apiClient.ts:58 | the ticket-number guard; no contract of its own, stated by `ApiClient.TicketGuard` |
| TokenStorage.ReadToken | src/service/tokenStorage.ts:15-30 | no record: nothing; stored expiry times 1000 before now: nothing; otherwise the key with the expiry times 1000 |
| TokenStorage.Storage.Store | src/service/tokenStorage.ts:5-13 | `store` writes the key and the expiry under "token", replacing any earlier record and keeping other keys |
| TokenStorage.Record | src/service/tokenStorage.ts:8-11 | the record `store` writes; no contract of its own, stated by `TokenStorage.StoreThenRead` |
| TokenStorage.Storage.GetStoredToken | src/service/tokenStorage.ts:15-30 | the stored token read at time `now` is the one `ReadToken` describes |
| TokenStorage.Storage.ClearStorage | src/service/tokenStorage.ts:32-34 | `clearStorage` removes only the "token" record |
| TokenStorage.StoreThenRead | src/service/tokenStorage.ts:5-30 | reading after a store gives the same key, with the stored milliseconds times 1000, and is judged on that scaled number |
| TokenStorage.StoredTokenOutlivesExpiry | src/service/tokenStorage.ts:22 | a stored token with a positive expiry is still returned after that expiry, up to 1000 times it |
| TokenStorage.ClearThenRead | src/service/tokenStorage.ts:32-34 | after clearing nothing is read, at any time |
| TokenStorage.StoreOverwrites | src/service/tokenStorage.ts:5-13 | storing twice keeps only the second token |
| UseLoginToken.InitialState | src/hooks/useLoginToken.ts:18-46 | the hook starts without error or loading, holding the stored token as the hook's copy of `getStoredToken` reads it |
| UseLoginToken.StartLoading | src/hooks/useLoginToken.ts:62 | refetch starts loading and clears the error, keeping the token |
| UseLoginToken.Settle | src/hooks/useLoginToken.ts:64-72 | success sets the token and keeps the error; failure records the message and keeps the token; loading ends either way |
| UseLoginToken.InvalidationDelay | src/hooks/useLoginToken.ts:48-55 | an invalidation is scheduled iff there is a token, due at its expiry |
| UseLoginToken.Invalidate | src/hooks/useLoginToken.ts:53-54 | the invalidation drops the token and keeps error and loading |
| UseLoginToken.ExposedToken | src/hooks/useLoginToken.ts:75 | the exposed token is the current key, absent without token data |
| UseLoginToken.FailedRefetchKeepsToken | src/hooks/useLoginToken.ts:62-72 | a failed refetch keeps the exposed token and reports the message |
| UseLoginToken.SuccessfulRefetchThenInvalidation | src/hooks/useLoginToken.ts:48-66 | a successful refetch exposes the new key and schedules its invalidation; once it fires, no token is exposed and nothing is scheduled |
| UseLoginToken.ReloadAfterLoginScalesTwice | src/hooks/useLoginToken.ts:8-33 | after a login and a reload the restored expiry is the server's seconds times 1000 times 1000 |
| UseLoginToken.LoginTokenHook.constructor | src/hooks/useLoginToken.ts:38-58 | mounting: the `useState` initialiser reads the stored token, and the first effect run schedules its invalidation iff one was restored, due at its expiry |
| UseLoginToken.LoginTokenHook.RunTokenEffect | src/hooks/useLoginToken.ts:48-58 | the effect cancels the pending invalidation and schedules one for the current token |
| UseLoginToken.LoginTokenHook.FireInvalidation | src/hooks/useLoginToken.ts:53-54 | the firing invalidation drops the token and leaves nothing scheduled |
| UseLoginToken.LoginTokenHook.Refetch | src/hooks/useLoginToken.ts:61-74 | refetch settles the state on the login outcome and stores the token only on success |
| KioskMode.Prevented | src/utils/kioskMode.ts:2-8 | whether a listener calls `preventDefault`; no contract of its own, its meaning for every input is stated by `KioskMode.PreventedInputs` |
| KioskMode.PreventedInputs | src/utils/kioskMode.ts:2-8 | for every input, `preventDefault` is called on each context menu, on a mouse press iff it is button 1, and on a touch iff more than one finger is down |
| KioskMode.IdleStep | src/utils/kioskMode.ts:14-22 | one listener or interval run on the count; no contract of its own, it is specified by `IdleCounter.OnEvent`/`OnTick`, `TickReloadsAt` and `IdleIsTicksSinceActivity` |
| KioskMode.TickReloadsAt | src/utils/kioskMode.ts:18-22 | without activity, each tick reloads iff the count then exceeds the threshold (strictly) |
| KioskMode.FirstReloadAfterSeconds | src/utils/kioskMode.ts:18-22 | from a fresh counter the first reload is on tick `seconds + 1` |
| KioskMode.IdleIsTicksSinceActivity | src/utils/kioskMode.ts:13-23 | for any position `k` of the last activity event, the counter equals the number of ticks after `k`; with no activity event it is the starting count plus all ticks |
| KioskMode.IdleCounter.constructor | src/utils/kioskMode.ts:12-13 | a counter starts at zero with the given threshold |
| KioskMode.IdleCounter.OnEvent | src/utils/kioskMode.ts:14-16 | mousemove, keydown, touchstart and input reset the count; other events leave it |
| KioskMode.IdleCounter.OnTick | src/utils/kioskMode.ts:18-22 | each tick adds exactly one and reloads iff the count exceeds the threshold |
| KioskMode.SetUpAutoRefresh | src/utils/kioskMode.ts:12-13 | the threshold defaults to 300 seconds |

## Left out

- Network, storage and device I/O are not performed:
  - `fetch` and JSON parsing: the server is a function, and a body either parses or throws its parser message;
  - `localStorage` and `JSON.parse`/`JSON.stringify`: the storage is a map of records;
  - `getUserMedia`, `BarcodeDetector` and the canvas;
  - fullscreen, `location.reload` (reported as a flag) and `console` logging.
- Real time:
  - `setTimeout`, `setInterval` and `requestAnimationFrame` become explicit events;
  - `setTimeout`'s limit on long delays is not modelled;
  - the module-level timer handles for the 15-second and 5-second resets are not modelled.
- CameraBarcodeScanner: the early returns taken when the video element or the canvas context is missing are not modelled.
- CameraBarcodeScanner.Scanner.Teardown: only sets `stopScanning`, and the model does not capture three consequences of the cleanup:
  - it does not cancel a pending restart timer, so a restart after cleanup resumes the old loop with its old `onRead` and its old count while the video element is still mounted (the model likewise allows `Teardown` followed by `RestartScanning`, but states nothing about it);
  - a frame whose detection is still pending at cleanup still updates the count and can report, whereas `Step` ignores every frame after `Teardown`;
  - the effect runs again whenever `onRead` changes, and the login page passes a new callback on every render, so there a report is followed at once by a fresh scanner with a zero count rather than by the five-second pause.
- CameraBarcodeScanner: `onRead` throwing inside the detection `try` is not modelled.
- ParkingTicketPage.SubmitActions: treats what `validateTicket` resolves with as an abstract exit time and payment. The imported `validateTicket` is not exported by the API client; it is not part of this model.
- ParkingTicketPage.Reducer: the `default` branch is unreachable for the typed actions and is not modelled.
- ParkingForm: it renders `./BarcodeScanner`, which is not part of this model. Only its `onRead` callback is modelled.
- PhysicalBarcodeScanner.tsx: a stub that only forwards `onRead`. It has no logic to model.
- SecretPressZone.tsx, ExitTime.tsx, SnackbarMessage and the other wrappers, providers and JSX rendering are out of scope.
- ParkingTicketPage.ReadWhileProcessingIgnored: assumes the page re-renders between two reads. `onBarcodeScannerRead` reads the state captured at the last render. So a second read that arrives after `Submitted` but before the re-render still sees `processing` false and submits again; the model does not capture that window.
- UseLoginToken.LoginTokenHook.Refetch: applies the loading update and the settling update as one step. The source awaits `login` between them, so another refetch can start in between (the camera scanner on the login page is not gated on `loading`). The model does not capture that interleaving.
- Strings are sequences of Unicode characters, while JavaScript strings are UTF-16. ParkingForm.OnKeyPress therefore drops one whole character on backspace where `slice(0, -1)` drops one UTF-16 unit. The two differ only on a ticket number ending in a character outside the Basic Multilingual Plane, which only the form's scanner can set.
- LoginPage: editing the fields by typing (`onChange`) is not modelled. The three-second timer that clears the error is the displayed message becoming "".
- Numbers:
  - all integers are unbounded (`int`/`nat`), with no floating point;
  - `Date` values are either epoch milliseconds or the local hour, minute and second;
  - time zones and `toLocaleTimeString` are not modelled.
- ApiClient.LoginOutcome: a 200 body that parses but lacks `key` or `expires` is not modelled. The parsed body always carries both fields.
- ApiClient.Login: `apiUrl` is a parameter rather than a build-time environment setting.
