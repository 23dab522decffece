# Bingo sales client — a Dafny model of its screen logic

This project models the decision and data logic of the "Bingo" sales client.
That client is a React Native app with which a vendor signs in, lists the
bingo numbers assigned to them, marks them sold or available, records the
monthly instalments paid, adds numbers in bulk and resets a password.

The model covers five parts of the app:

- **Home** (`home.dfy`): the vendor's list screen. It covers:
  - the search and month-range filter;
  - the "vendido" and "disponible" tabs and their counts;
  - the per-tab sort and its header toggling;
  - the row formatting;
  - the lines of the sold-items export.
- **AddNumero** (`addnumero.dfy`): the bulk-add dialog. Comma-separated
  input is trimmed and zero-padded to five digits, sent to the backend, and
  the reply decides what is kept.
- **EditNumero** (`editnumero.dfy`): the dialog that edits one number. It
  covers seeding the form from the record, the clamped 0..12 instalment
  counter, and the save outcome.
- **Auth** (`auth.dfy`): login, registration and the e-mailed verification
  code.
- **PasswordReset** (`passwordreset.dfy`): requesting a reset code, then the
  local checks on the code and the new password before the change is sent.
  The screen imports two client functions that the client module does not
  export, so as written both requests fail locally; the model states that
  behaviour and the intended one (see "## Findings").

The other files support these five:

- `api.dfy` holds the records, requests and replies exchanged with the
  backend. It also holds the fixed reply the client substitutes when a
  request fails.
- `jstext.dfy` states the JavaScript string primitives the screens rely on,
  over `seq<char>`. It covers:
  - `length` in UTF-16 code units;
  - `trim` with the ECMAScript whitespace set;
  - `padStart`, `split`, `includes` and `toLowerCase`;
  - `String(n)` and `localeCompare`.
- `seqs.dfy` holds `filter` and a reversed copy.
- `wrappers.dfy` holds `Option`.

Each screen whose handlers update component state is a `class`. Its fields
are the `useState` variables, and its methods are the event handlers. A
handler takes the backend's reply as a parameter and returns the requests it
sends and the alert, navigation or callback it triggers. The filtering,
sorting and formatting, which the source writes as expressions, are
functions with lemmas.

The model follows the code on these points:

- The bulk-add dialog pads every comma-separated piece. It has no range
  check, and it does not drop pieces that pad to "00000".
- The edit dialog's save guard checks only the client and the status. Its
  third test compares a number with `''`, so it can never hold.
- The success sentences the screens compare against are the Spanish
  literals of the code.
- The search compares the typed text with the number as stored, not with
  its zero-padded form.

## Model

| member | source | states |
|---|---|---|
| Api.FailureReply | services/apiClient.js:14-16 | a failed request yields a reply that carries only a message, with no vendor id and no list |
| Api.Truthy | screens/AuthScreen.js:34 | an absent vendor id and the id 0 are falsy; any other id is truthy |
| JsText.JsLength | screens/AuthScreen.js:56 | `length` counts UTF-16 code units: between one and two per character, exactly one per character of the Basic Multilingual Plane |
| JsText.JsLengthOfChar | screens/AuthScreen.js:56 | a character of the Basic Multilingual Plane counts one unit and any other character exactly two |
| JsText.JsLengthAppend | screens/AuthScreen.js:56 | the length of a concatenation is the sum of the lengths, so with `JsLengthOfChar` the length of every string is fixed |
| JsText.Trim | components/AddNumeroModal.js:13 | `trim` yields the slice of its input left when the whitespace before the first and after the last non-whitespace character is cut away: empty exactly when the input is whitespace only, otherwise starting and ending with non-whitespace |
| JsText.PadStartZeros | components/AddNumeroModal.js:18 | `padStart(w, '0')` leaves a string of length `w` or more alone; otherwise it prefixes only zeros until the length is `w` |
| JsText.Split | components/AddNumeroModal.js:18 | `split(',')` gives one piece more than there are commas, no piece holds a comma, and joining the pieces with commas gives back the input |
| JsText.CompareStrings | screens/HomeScreen.js:44-46 | `localeCompare` as a three-way comparison by character code, always -1, 0 or 1 |
| JsText.Contains | components/AddNumeroModal.js:26-27 | `includes`: the text occurs somewhere in the string as a contiguous slice |
| JsText.ToLower | screens/HomeScreen.js:157-159 | `toLowerCase` keeps the length, lowers each ASCII capital and leaves no ASCII capital in the result |
| JsText.IntToString | screens/HomeScreen.js:158 | `String(n)`: the decimal digits of `n` with no leading zero (only 0 itself starts with "0"), which read back as `n`, after a minus sign when `n` is negative |
| JsText.CompareStringsAntisymmetric | screens/HomeScreen.js:44-46 | the string comparison of the client sort is antisymmetric and is zero only for equal strings |
| JsText.CompareStringsTransitive | screens/HomeScreen.js:44-46 | the string comparison of the client sort is transitive |
| Seqs.Filter | screens/HomeScreen.js:337-338 | `filter` keeps the elements satisfying the predicate in their original order, each as many times as it occurs, and drops every other element |
| Seqs.FilterPartition | screens/HomeScreen.js:337-338 | two filters with disjoint predicates that together cover every element split the list: their contents add up, as a multiset, to the whole |
| Home.FilteredNumeros | screens/HomeScreen.js:153-170 | the filtered list keeps, in order, the object entries that match the search and whose paid count lies in the picked month range, each as many times as the list holds it, and nothing else |
| Home.MatchesSearch | screens/HomeScreen.js:157-160 | the lowered client contains the lowered search text, or the unpadded number contains the text as typed |
| Home.InMonthRange | screens/HomeScreen.js:163-169 | the paid count lies between the "Desde" month (0 when empty) and the "Hasta" month (12 when empty) |
| Home.EmptySearchMatchesAll | screens/HomeScreen.js:156-160 | an empty search text matches every item |
| Home.NoCriteriaKeepsRange | screens/HomeScreen.js:162-169 | with no search text and no month picked, the filter keeps exactly the items whose paid count is in 0..12 |
| Home.Vendidos | screens/HomeScreen.js:337 | the "vendido" tab is the filtered list filtered by the lowered status "vendido" |
| Home.Disponibles | screens/HomeScreen.js:338 | the "disponible" tab is the filtered list filtered by the lowered status "disponible" |
| Home.FilteredCount | screens/HomeScreen.js:202-204 | `getFilteredCount(estado)` is the number of filtered items whose lowered status equals the lowered argument |
| Home.TabsPartitionFiltered | screens/HomeScreen.js:337-338 | the two tabs are disjoint, order-preserving sublists of the filtered list; when every status is one of the two, each filtered item appears in exactly one tab |
| Home.CountsAreTabLengths | screens/HomeScreen.js:202-204 | `getFilteredCount` of "vendido" and of "disponible" equal the lengths of the two tabs |
| Home.HomeScreen.Counts | screens/HomeScreen.js:429-436 | the two labels are `getFilteredCount` of "vendido" and of "disponible" over the current filtered list |
| Home.CountsShowTabs | screens/HomeScreen.js:429-436 | the two labels count the tabs of the filtered list; their sum is at most the filtered length; the export has as many lines as the "Vendidos" label says |
| Home.Compare | screens/HomeScreen.js:40-51 | the comparator: numeric on "numero" and "cuotas", the clients compared as strings (absent as "") on "nombre", arguments swapped when descending, and 0 for any other key |
| Home.Toggle | screens/HomeScreen.js:31-38 | the chosen header becomes the sort key; the same header flips the direction, and another header starts ascending |
| Home.ToggleTwice | screens/HomeScreen.js:31-38 | pressing the current header twice restores the sort state |
| Home.ListaNumeros.ToggleSort | screens/HomeScreen.js:31-38 | the sort state after a header press is `Toggle` of the state before |
| Home.DescendingSwapsArguments | screens/HomeScreen.js:40-51 | the descending comparator is the ascending one with its arguments swapped |
| Home.CompareAntisymmetric | screens/HomeScreen.js:40-51 | the comparator is antisymmetric for every key and direction |
| Home.CompareTransitive | screens/HomeScreen.js:40-51 | the comparator is transitive for every key and direction, so the sort is well defined |
| Home.SortedData | screens/HomeScreen.js:40-51 | the sorted copy is a permutation of the list and is in order under the comparator |
| Home.SortedDataStable | screens/HomeScreen.js:40-51 | the sort is stable: for every item, the items comparing equal to it come out in the order they went in |
| Home.UnknownKeyKeepsOrder | screens/HomeScreen.js:50 | under a key other than the three headers every pair compares equal, and the stable sort keeps the list as it is |
| Home.SortDescendingIsReverse | screens/HomeScreen.js:40-51 | when no two items share a key, the descending list is the ascending list reversed |
| Home.ListaNumeros.Rows | screens/HomeScreen.js:40-51 | the displayed rows are a permutation of the tab's items, in order under the current header and direction |
| JsText.NatToStringLength | screens/HomeScreen.js:102 | a number below 10^k is written with at most k digits, so padding to five reaches exactly five |
| JsText.NatToStringLong | screens/HomeScreen.js:102 | a number of at least 10^k is written with more than k digits, so padding leaves it as it is |
| Home.FormatNumero | screens/HomeScreen.js:102 | a number in 0..99999 is shown as exactly five digits that read back as the number; a larger one is shown unpadded |
| Home.FormatCliente | screens/HomeScreen.js:109 | a row never shows an empty client: a missing or empty client reads "Sin asignar" |
| Home.MesDeCuotas | screens/HomeScreen.js:112 | a paid count of 1..12 shows that month's name and 0 shows "Ninguna"; the cell is blank exactly when the count is outside 0..12 |
| Home.MesDeCuotasInjective | screens/HomeScreen.js:112 | distinct paid counts never show the same text |
| Home.CuotaExportada | screens/HomeScreen.js:218 | the export's month: the month name for a count in 1..12, "Ninguna" for every other count |
| Home.PersonaDe | screens/HomeScreen.js:215-219 | one export line: the padded number, the client or "Sin asignar", and the exported month |
| Home.PersonasAsignadas | screens/HomeScreen.js:212-223 | the export has one line per item of the filtered "vendido" tab, in that order, each built from that item |
| Home.ExportAgreesWithRow | screens/HomeScreen.js:215-219 | an export line shows the same number and client as the item's row, and the same month unless the row's cell is blank, where the export says "Ninguna" |
| Home.HomeScreen.FetchNumeros | screens/HomeScreen.js:185-209 | the list becomes the reply's list or empty, loading ends, and the export lines are recomputed under the current filter |
| Home.HomeScreen.SetCriteria | screens/HomeScreen.js:146-148 | changing the filter inputs leaves the list and the export lines as they were; the export lines are brought up to date only by `GuardarBingosVendidos` |
| Home.HomeScreen.GuardarBingosVendidos | screens/HomeScreen.js:212-222 | the export lines become `PersonasAsignadas` of the list filtered under the current criteria; the list, the criteria, loading and the export flag are unchanged |
| Home.HomeScreen.HandleExportar | screens/HomeScreen.js:303-306 | before every export the export lines are rebuilt under the current filter, so by `CountsShowTabs` they are as many as the "Vendidos" label says, and the export flag is raised; the list, the criteria and loading are unchanged |
| AddNumero.PadToken | components/AddNumeroModal.js:18 | a trimmed piece shorter than five units becomes five units, zeros followed by the piece; a longer piece is kept |
| AddNumero.NormalizeTokens | components/AddNumeroModal.js:18 | one token per comma-separated piece, in input order, each padded from its trimmed piece |
| AddNumero.BlankPieceIsZeros | components/AddNumeroModal.js:18 | an empty or whitespace-only piece is sent as "00000" |
| AddNumero.AddSucceeded | components/AddNumeroModal.js:26 | the reply counts as success when its message contains the success sentence |
| AddNumero.Agregados | components/AddNumeroModal.js:27 | the added numbers are the sent tokens the reply mentions, in token order, a token sent twice appearing twice, and no other token |
| AddNumero.FailureReplyIsNotSuccess | components/AddNumeroModal.js:26 | the reply substituted for a failed request never counts as success |
| AddNumero.AfterReply | components/AddNumeroModal.js:22-39 | `onSuccess` is called exactly when the message is present and contains the success sentence; then the draft is cleared and the mentioned tokens are appended, otherwise draft and list are kept. A missing message gives the "No se pudieron agregar los números." alert; a present one is shown as "Resultado" exactly when it is non-empty |
| AddNumero.AddedOnlyGrow | components/AddNumeroModal.js:27-28 | the list of added numbers keeps its old contents as a prefix and grows only by tokens that were sent |
| AddNumero.AddNumeroModal.ApplyReply | components/AddNumeroModal.js:22-39 | the reply's effect on the draft, the list and the alert is the one `AfterReply` states; loading is untouched |
| AddNumero.AddNumeroModal.HandleAgregar | components/AddNumeroModal.js:12-44 | a blank draft is refused with no request, the error alert and the dialog open. Otherwise the padded tokens of the draft are sent, the reply has the effect `AfterReply` states, loading ends and the dialog closes |
| EditNumero.Bajar | components/EditNumeroModal.js:81 | the `-` button lowers the count by one but never below zero |
| EditNumero.Subir | components/EditNumeroModal.js:90 | the `+` button raises the count by one but never above twelve |
| EditNumero.BotonesKeepRange | components/EditNumeroModal.js:81-90 | a count in 0..12 stays in 0..12 whichever button is pressed |
| EditNumero.BotonesUndoEachOther | components/EditNumeroModal.js:81-90 | inside the range, `+` undoes `-` and `-` undoes `+` |
| EditNumero.SubirClampsLargeCount | components/EditNumeroModal.js:90 | a stored count above twelve is lowered to twelve by `+` |
| EditNumero.SeedCliente | components/EditNumeroModal.js:16 | the form's client is the record's client, or empty when it has none |
| EditNumero.EditNumeroModal.Seed | components/EditNumeroModal.js:14-20 | a present record replaces the three form fields; an absent one leaves them |
| EditNumero.EditNumeroModal.Decrement | components/EditNumeroModal.js:81 | the counter becomes `Bajar` of its value, nothing else changes |
| EditNumero.EditNumeroModal.Increment | components/EditNumeroModal.js:90 | the counter becomes `Subir` of its value, nothing else changes |
| EditNumero.FormComplete | components/EditNumeroModal.js:23 | saving needs a non-empty client and a non-empty status |
| EditNumero.SaveMessage | components/EditNumeroModal.js:33-38 | the message box reads "Éxito" exactly when the reply is the success sentence, and "Error" otherwise |
| EditNumero.FailureReplyIsError | components/EditNumeroModal.js:33-38 | the reply substituted for a failed request is reported as "Error" |
| EditNumero.EditNumeroModal.HandleSave | components/EditNumeroModal.js:22-44 | an empty client or status shows "Error" with no request. Otherwise the form is sent, `onSave` is called exactly on the success sentence, and loading ends. The form is unchanged |
| EditNumero.EditNumeroModal.HandleClose | components/EditNumeroModal.js:46-49 | closing clears the message, calls `onClose` and keeps the form |
| EditNumero.EditNumeroModal.DismissMessage | components/EditNumeroModal.js:108-111 | the message box's OK button clears the message, keeps the form and leaves the dialog open |
| Auth.FormComplete | screens/AuthScreen.js:16 | e-mail and password must be non-empty, and the name too when registering |
| Auth.AuthOutcome | screens/AuthScreen.js:24-46 | an unverified login or a registration returning an id moves to code entry. Only a login with a vendor id and no "unverified" message goes home, with the reply. Everything else shows the reply's message |
| Auth.RegistrationNeverNavigates | screens/AuthScreen.js:32-46 | a registration never opens the home screen directly |
| Auth.FailureReplyIsShown | screens/AuthScreen.js:42-46 | the reply substituted for a failed request is shown as the error alert |
| Auth.AuthOutcomeAsWritten | screens/AuthScreen.js:24-49 | as written, every path that should move to code entry ends in the generic error alert; all other paths are as intended |
| Auth.RegistrationFailsAsWritten | screens/AuthScreen.js:33-38 | a registration that returns a vendor id ends in the generic error as written, but in code entry as intended |
| Auth.VerifyOutcome | screens/AuthScreen.js:63-77 | only the exact validation sentence leads on. The home screen opens exactly when the repeated login then returns a vendor id. Any other validation reply shows "Código incorrecto" |
| Auth.VerifyOutcomeAsWritten | screens/AuthScreen.js:63-80 | as written, the path that should open the home screen ends in the generic error alert |
| Auth.VerifiedLoginFailsAsWritten | screens/AuthScreen.js:69-71 | a validated code followed by a successful login ends in the generic error as written, but opens the home screen as intended |
| Auth.AuthScreen.ToggleMode | screens/AuthScreen.js:137 | the link flips between login and registration and changes nothing else |
| Auth.AuthScreen.HandleAuth | screens/AuthScreen.js:15-53 | an incomplete form is refused with no request. Otherwise the login or registration is sent, and the outcome is `AuthOutcome`. Code entry switches on exactly when that outcome asks for it, and loading ends |
| Auth.AuthScreen.HandleVerifyCode | screens/AuthScreen.js:55-84 | a code that is not six units long is refused with no request. Otherwise the code is sent, and the login is repeated only after the validation sentence. The outcome is `VerifyOutcome`, and loading ends |
| PasswordReset.ChangeError | screens/PasswordReset.js:36-49 | the change may be sent exactly when all three fields are filled, the code is six units long and the password at least six. Otherwise the first failing check's message is given, in the screen's order |
| PasswordReset.WellFormedChangePasses | screens/PasswordReset.js:36-49 | a filled e-mail, a six-unit code and a password of six or more units pass every check |
| PasswordReset.ChangeEnabledFieldsFilled | screens/PasswordReset.js:115 | with the change button enabled, the "all fields" message can only come from an empty e-mail, which the button ignores |
| PasswordReset.ResendEnabledPassesGuard | screens/PasswordReset.js:88 | with the resend button enabled the e-mail is filled and no request is pending |
| PasswordReset.ResendEffectOf | screens/PasswordReset.js:19-32 | as intended, a resend requests the code for the e-mail, shows the reply's message, and shows the code fields once the reply confirms the code was sent; once shown they stay |
| PasswordReset.ResendEffectAsWritten | screens/PasswordReset.js:3 | as written, the call of the missing `reenviarCodigo` throws: no request is sent, the catch message is shown and the code fields stay as they were |
| PasswordReset.CodeFieldsNeverShownAsWritten | screens/PasswordReset.js:20-28 | as written a resend never matches the intended effect and never shows the code fields on a fresh screen; as intended the confirming reply shows them |
| PasswordReset.ChangeEffectOf | screens/PasswordReset.js:51-66 | as intended, a change that passed the checks is sent, the reply's message is shown, and the screen returns to sign-in exactly on the confirming reply |
| PasswordReset.ChangeEffectAsWritten | screens/PasswordReset.js:3 | as written, the call of the missing `cambiarContrasena` throws: no request is sent, the catch message is shown and the screen never returns to sign-in |
| PasswordReset.PasswordNeverChangedAsWritten | screens/PasswordReset.js:52-63 | as written a change never matches the intended effect and never returns to sign-in; as intended the confirming reply returns there |
| PasswordReset.PasswordResetScreen.HandleReenviarCodigo | screens/PasswordReset.js:13-33 | an empty e-mail is refused with no request and its message. Otherwise the resend has the intended effect `ResendEffectOf` states, and loading ends |
| PasswordReset.PasswordResetScreen.HandleCambiarContrasena | screens/PasswordReset.js:35-67 | a form that fails `ChangeError` shows that message with no request. Otherwise the change has the intended effect `ChangeEffectOf` states, and loading ends |
| PasswordReset.PasswordResetScreen.ResendDisabled | screens/PasswordReset.js:88 | the resend button is disabled while the e-mail is empty or a request is pending |
| PasswordReset.PasswordResetScreen.ChangeDisabled | screens/PasswordReset.js:115 | the change button is disabled while the code or the new password is empty or a request is pending; the e-mail is not looked at |

## Left out

- Export to PDF, printing and sharing are not modelled (screens/HomeScreen.js:225-300). They are file and device I/O; only the lines the export is built from and the flag that starts it are modelled. The effect that runs the export when the flag is raised and lines exist, and then lowers the flag, is part of that I/O.
- Deleting a number (`confirmarEliminarNumero`, its confirmation dialog and the `eliminarNumero` request) is not modelled. It is a confirmation dialog around one request, with no local logic to prove.
- Double-press detection on a row is not modelled, because it depends on the clock.
- Opening the dialogs, the side menu and logging out are not modelled; they are navigation and visibility flags.
- The transport in services/apiClient.js is not modelled: every reply is an input of the handler that receives it. Only the fixed reply it returns on failure is modelled.
- Concurrency between an awaited request and further user input is not modelled. Each handler runs to completion with its replies given in advance.
- Replies that are not JSON objects (`null`), a `numeros` value that is not an array, and records with a missing status, number or paid count are not modelled. A record is always fully typed, so the crash a missing status causes in `toLowerCase` does not arise.
- The edit dialog's catch branch, "Error al guardar los cambios", is not modelled. A record without a number still sends the request, with an undefined number; the catch is reached only by a reply that is not an object, which is left out above. Its visible effect would be that of a failing reply: the message box reads "Error", `onSave` is not called and loading ends. The two catch branches of PasswordReset.js are modelled by `ResendEffectAsWritten` and `ChangeEffectAsWritten`.
- The `ReenviarCodigo` and `CambiarContrasena` requests, and their action names "reenviarCodigo" and "cambiarContrasena", belong to the intended behaviour only. services/apiClient.js defines neither call, so the model names their actions after the imported functions.
- `console.log` and `console.error` calls are not modelled; they are logging only.
- `toLowerCase` is modelled on the ASCII letters only. Full Unicode case mapping is not part of this model.
- `localeCompare` is modelled as comparison by character code. Locale collation is not part of this model.
- The rendering, App.js and components/LoadingModal.js are not part of this model.
- Home.HomeScreen.FetchNumeros: a request that throws before any reply arrives is not modelled. The client's transport turns every failure into the fallback reply, so such a throw does not occur in the model.

## Findings

| source | as written | input that shows it | evidently intended | confidence | as-written member | corrected member |
|---|---|---|---|---|---|---|
| screens/AuthScreen.js:27-37 | `setVendedor` is called but never declared or imported. The call throws a ReferenceError, and the catch shows "Ocurrió un problema, inténtalo de nuevo." instead of switching to code entry | a registration whose reply carries `id_vendedor: 7`, or a login whose reply is the "cuenta no está verificada" message | the vendor is stored, the screen switches to code entry and the "Verificación" alert is shown | high; not executed | Auth.RegistrationFailsAsWritten | Auth.AuthOutcome |
| screens/AuthScreen.js:70 | the same undeclared `setVendedor` throws just before `navigation.replace('Home', ...)`, so a verified account never reaches the home screen from code entry | a validation reply "Código validado correctamente" followed by a login reply with `id_vendedor: 7` | the home screen opens with the vendor | high; not executed | Auth.VerifiedLoginFailsAsWritten | Auth.VerifyOutcome |
| screens/PasswordReset.js:21 | `reenviarCodigo` is imported at :3 from services/apiClient.js, which does not export it. The call throws a TypeError, so no code is ever requested, the catch message "Error al reenviar el código. Inténtalo nuevamente." is shown and the code fields (:93-119) never appear | the e-mail "a@b.com" and a press of "Reenviar Código" | the code is requested, the reply's message is shown and the code fields appear on "Código reenviado correctamente" | high; not executed | PasswordReset.CodeFieldsNeverShownAsWritten | PasswordReset.ResendEffectOf |
| screens/PasswordReset.js:53 | `cambiarContrasena`, imported at :3, is not exported by services/apiClient.js either. The call throws, the catch at :62 shows "Error al cambiar la contraseña. Inténtalo nuevamente." and the screen never returns to sign-in | the e-mail "a@b.com", the code "123456" and the password "secreto" | the change is sent and the screen returns to sign-in on "Contraseña actualizada correctamente" | high; not executed | PasswordReset.PasswordNeverChangedAsWritten | PasswordReset.ChangeEffectOf |
