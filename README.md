# Tap verification, admin language toggle and product list — a Dafny model

This project models the decision logic of a restaurant menu application:

- **The tap-verification endpoint** (`verify-tap`). A physical NFC tag (or a
  QR code standing in for it) opens a URL carrying `uid`, `counter`, `cmac`
  and `mode`. The handler answers a CORS preflight at once; otherwise it reads
  the parameters, resolves the active device for the uid, checks the tag's
  signature in prod mode only, rejects replayed counters, applies the 60-second
  per-device rate limit, commits the device counter, and then either awards a
  loyalty stamp to the signed-in user or redirects an anonymous user to login
  with a pending token. The store is two tables: `nfc_devices` (a map from
  `uid_hex` to a device row) and the append-only `loyalty_transactions` ledger.
  `VerifyTap.Handle` is the handler as a function of the store before the
  request; `VerifyTap.TapBackend.Serve` is the same handler written the way
  the source runs it, gate after gate with early returns, updating the store
  in place, and is proved equal to `Handle`.
- **The admin language atom** (`i18nStore`): Spanish by default, a toggle
  between Spanish and Chinese, and the two label tables.
- **The admin product list** (`MenuList`): the optimistic availability
  toggle, the optimistic delete that reverts to a snapshot on failure, and the
  storage key read out of a product's image URL.

The JavaScript built-ins these depend on (`parseInt`, the decimal text of an
integer in a template literal, `indexOf`, `split`, truthiness) are written out
in `JsText`. Everything the handler gets from outside (the clock, the user id
the identity provider resolved, the signature check, the award procedure's
answer, the random token) is a field of `VerifyTap.Env`.

Files: `options.dfy`, `js_text.dfy`, `verify_tap.dfy`,
`verify_tap_properties.dfy`, `i18n_store.dfy`, `menu_list.dfy`.

## Behaviour of the code worth knowing

These are consequences of the handler as written. The model keeps each one,
and a lemma shows it.

- The comment at `supabase/functions/verify-tap/index.ts:101` says the counter
  must increase. The test at line 102 only applies to a truthy counter. An
  absent counter reads as `parseInt('0')` (line 55), and an unreadable one as
  NaN; both are falsy. Such a tap skips the replay gate, and line 126 never
  commits it. Only the 60-second rate limit then separates repeated taps.
  `FalsyCounterSkipsReplayGate` and `ScenarioCounterlessTapRepeats` show a
  counter-less dev-mode tap earning a stamp twice.
- The counter is written (lines 126-131) before the award procedure is called
  (lines 144-161). A tap answered `award_failed` has therefore consumed its
  counter, and the same tag reading cannot be retried.
  `GatesPassedCommitCounter` states that the commit holds whatever the award
  returns.
- The signature check is a placeholder (TODO at line 214). Both of its
  branches accept the tag, so no request is ever answered
  `invalid_signature` (`PlaceholderNeverRejectsSignature`).
- The pending token for an anonymous tap is only generated. Storing it with a
  15-minute expiry is a TODO at line 253, so the model keeps no pending state
  (`AwardOrDefer`).
- In prod mode, the 400 for a missing cmac or counter (lines 86-88) comes
  after the device lookup (lines 71-81). An unknown device in prod mode is
  therefore answered `device_not_found` (`UnknownDeviceRejected`).
- Only a mode of exactly `prod` (line 84) runs the signature step. Any other
  non-empty value skips it (`SignatureConsultedOnlyInProd`).

## Model

| member | source | states |
|---|---|---|
| `JsText.ParseInt` | supabase/functions/verify-tap/index.ts:55 | `parseInt` without a radix: NaN when only white space is left, and a negative value only after a minus sign; `ParseIntOfDecimal` and `AbsentCounterIsZero` state what it reads back |
| `JsText.TrimStart` | supabase/functions/verify-tap/index.ts:55 | `parseInt` drops a prefix made only of JavaScript white space and stops at the first other character |
| `JsText.DigitRun` | supabase/functions/verify-tap/index.ts:55 | the digits `parseInt` reads are the longest prefix of radix digits, and the next character is not one |
| `JsText.NatToDecimal` | supabase/functions/verify-tap/index.ts:170 | the decimal text of a number is all digits with no leading zero |
| `JsText.IntToDecimal` | supabase/functions/verify-tap/index.ts:170 | the decimal text of an integer starts with a minus sign or a digit |
| `JsText.ParseIntOfDecimal` | supabase/functions/verify-tap/index.ts:55 | `parseInt` of the decimal text of any integer gives back that integer |
| `JsText.IndexOf` | src/components/admin/MenuList.tsx:100 | for the non-empty separator `split` passes, the result is an occurrence at or after `from`, and no earlier occurrence exists; None exactly when there is none |
| `JsText.Split` | src/components/admin/MenuList.tsx:100 | `split` with a non-empty string separator yields at least one piece; `JoinSplit`, `SplitPiecesFree` and `SecondPiece` state what the pieces are |
| `JsText.JoinSplit` | src/components/admin/MenuList.tsx:100 | joining the pieces of `split` with the separator rebuilds the original text |
| `JsText.SplitPiecesFree` | src/components/admin/MenuList.tsx:100 | no piece of `split` contains the separator |
| `JsText.SecondPiece` | src/components/admin/MenuList.tsx:100 | `split(sep)[1]` exists exactly when `sep` occurs, and is the text between its first occurrence and the next one or the end |
| `VerifyTap.QueryGet` | supabase/functions/verify-tap/index.ts:53-58 | `searchParams.get`; its first-match behaviour is stated by `QueryGetFirst` |
| `VerifyTap.ParseParams` | supabase/functions/verify-tap/index.ts:52-58 | the tap parameters, with an absent or empty uid and cmac read as empty, counter as `'0'` and mode as `'prod'`; stated by `ModeDefaultsToProd`, `AbsentCounterIsZero`, `DecimalCounterReadsBack` and `ParsesAs` |
| `VerifyTap.LookupActive` | supabase/functions/verify-tap/index.ts:71-81 | the device row for the uid with status `active`; its effect on the answer is stated by `UnknownDeviceRejected` |
| `VerifyTap.RecentTap` | supabase/functions/verify-tap/index.ts:113-123 | a ledger row of the device at or after `now - 60000`; stated by `RecentTapRateLimited` and `RateLimitAfterAward` |
| `VerifyTap.CommitCounter` | supabase/functions/verify-tap/index.ts:126-131 | the `last_counter` update by device id; `CommitCounterByUid` states that only the tapped uid's row changes |
| `VerifyTap.AuthenticatedUser` | supabase/functions/verify-tap/index.ts:140 | the signed-in user's id, where an empty id counts as no user; `AwardOrDefer` states what each case leads to |
| `VerifyTap.QueryGetFirst` | supabase/functions/verify-tap/index.ts:53-58 | `searchParams.get` finds a value exactly when the name occurs, and then it is the first occurrence's value |
| `VerifyTap.ValidateNtag424Cmac` | supabase/functions/verify-tap/index.ts:213-229 | the shipped signature check accepts every tag, with or without a master key |
| `VerifyTap.Handle` | supabase/functions/verify-tap/index.ts:45-190 | one request keeps the set of devices, keeps the old ledger as a prefix, and adds a ledger row exactly when it answers with the success redirect |
| `VerifyTap.HandleTap` | supabase/functions/verify-tap/index.ts:63-185 | the same frame for the handler from the uid check on |
| `VerifyTap.CheckDevice` | supabase/functions/verify-tap/index.ts:84-123 | the same frame for the signature, replay and rate-limit gates |
| `VerifyTap.CommitAndAward` | supabase/functions/verify-tap/index.ts:125-185 | the same frame for the commit and the award or login step |
| `VerifyTap.ErrorResponse` | supabase/functions/verify-tap/index.ts:196-201 | the JSON `{ error }` answer with a status; `Render` states that 400 and 500 carry a body and no Location |
| `VerifyTap.RedirectToError` | supabase/functions/verify-tap/index.ts:203-211 | the 302 to the error page; `Render` and `RedirectsReadBack` state that its Location gives back the reason |
| `VerifyTap.Render` | supabase/functions/verify-tap/index.ts:166-211 | an answer is a 302 exactly for the three redirects, carries a Location exactly when it is a 302, and carries a JSON error body exactly for 400 and 500 |
| `VerifyTap.TapBackend.Serve` | supabase/functions/verify-tap/index.ts:45-190 | the in-place handler returns the answer and leaves the store that `Handle` gives for the old store |
| `VerifyTapProperties.ModeDefaultsToProd` | supabase/functions/verify-tap/index.ts:57 | an absent or empty mode reads as `prod`; any other value is kept as sent |
| `VerifyTapProperties.AbsentCounterIsZero` | supabase/functions/verify-tap/index.ts:55 | an absent or empty counter reads as 0, which is falsy |
| `VerifyTapProperties.DecimalCounterReadsBack` | supabase/functions/verify-tap/index.ts:55 | a counter sent as the decimal text of `n` reads as `n` |
| `VerifyTapProperties.PreflightTouchesNothing` | supabase/functions/verify-tap/index.ts:47-49 | OPTIONS gets the preflight answer with the store unchanged and no gate evaluated |
| `VerifyTapProperties.MissingUidIsBadRequest` | supabase/functions/verify-tap/index.ts:63-65 | a missing or empty uid is a 400 JSON error with the store unchanged |
| `VerifyTapProperties.UnknownDeviceRejected` | supabase/functions/verify-tap/index.ts:71-81 | no device under that uid with status exactly `active` gives `device_not_found` with the store unchanged |
| `VerifyTapProperties.SignatureConsultedOnlyInProd` | supabase/functions/verify-tap/index.ts:84-99 | outside prod mode the answer and new store are the same for every signature predicate |
| `VerifyTapProperties.ProdNeedsCmacAndCounter` | supabase/functions/verify-tap/index.ts:86-88 | in prod mode, for a known device, an empty cmac or a falsy counter is a 400 with the store unchanged |
| `VerifyTapProperties.ProdBadSignatureRejected` | supabase/functions/verify-tap/index.ts:90-95 | in prod mode a refused tag gives `invalid_signature` with the counter and ledger unchanged |
| `VerifyTapProperties.ReplayRejected` | supabase/functions/verify-tap/index.ts:102-110 | a truthy counter at or below `last_counter` gives `replay_attack`, with no commit and no ledger row |
| `VerifyTapProperties.FalsyCounterSkipsReplayGate` | supabase/functions/verify-tap/index.ts:102 | a zero, absent or unreadable counter never gives `replay_attack` |
| `VerifyTapProperties.RecentTapRateLimited` | supabase/functions/verify-tap/index.ts:113-123 | a ledger row for the device with `created_at >= now - 60000` gives `rate_limit` with the store unchanged |
| `VerifyTapProperties.GatesPassedCommitCounter` | supabase/functions/verify-tap/index.ts:125-131 | once every gate passes, a truthy counter becomes `last_counter` and is above the old one, a falsy one leaves it, no other device changes, and this holds whatever the award does |
| `VerifyTapProperties.AwardOrDefer` | supabase/functions/verify-tap/index.ts:133-185 | with a user: `award_failed`, a 500, or the success redirect with exactly one new ledger row for this device, user and time; without one: the login redirect with the token and no ledger row |
| `VerifyTapProperties.FailedGateChangesNothing` | supabase/functions/verify-tap/index.ts:47-123 | a request stopped at any gate leaves devices and ledger exactly as they were |
| `VerifyTapProperties.HandleTapFailedGate` | supabase/functions/verify-tap/index.ts:63-123 | the same, for parameters already read |
| `VerifyTapProperties.PlaceholderNeverRejectsSignature` | supabase/functions/verify-tap/index.ts:213-229 | with the shipped signature check no request is ever answered `invalid_signature` |
| `VerifyTapProperties.AcceptedTagNotRejected` | supabase/functions/verify-tap/index.ts:84-95 | a request whose tag the signature check accepts (whenever prod parameters are present) is never answered `invalid_signature` |
| `VerifyTapProperties.EvolvesTransitive` | supabase/functions/verify-tap/index.ts:125-131 | moving the store forward twice is moving it forward |
| `VerifyTapProperties.StepEvolves` | supabase/functions/verify-tap/index.ts:45-190 | one request keeps each device's identity and status, never lowers a counter, only appends to the ledger, and keeps ids unique |
| `VerifyTapProperties.CommitCounterByUid` | supabase/functions/verify-tap/index.ts:126-131 | with unique ids, the update by device id changes only the row of the tapped uid |
| `VerifyTapProperties.CommitAndAwardDevices` | supabase/functions/verify-tap/index.ts:125-185 | after every gate the outcome is one of the post-gate answers, and only the tapped uid's row changes, taking a truthy counter as `last_counter` |
| `VerifyTapProperties.CommitAndAwardEvolves` | supabase/functions/verify-tap/index.ts:125-185 | the commit and award step moves the store forward and keeps ids unique |
| `VerifyTapProperties.PassedGatesCommitted` | supabase/functions/verify-tap/index.ts:71-123 | a request that got past every gate had an active device, an accepted signature, no replay and no recent tap |
| `VerifyTapProperties.AfterOneMore` | supabase/functions/verify-tap/index.ts:45-190 | the store after one more tap is that tap handled on the store before it |
| `VerifyTapProperties.RunEvolves` | supabase/functions/verify-tap/index.ts:45-190 | over any sequence of taps, counters never go down, the ledger only grows, and ids stay unique |
| `VerifyTapProperties.ReplayExclusion` | supabase/functions/verify-tap/index.ts:102-131 | two taps on the same uid that both passed every gate with truthy counters carried strictly increasing counters |
| `VerifyTapProperties.RateLimitAfterAward` | supabase/functions/verify-tap/index.ts:113-123 | after a stamp at time `t`, no later tap on the same uid passes every gate while its clock reads at most `t + 60000` |
| `VerifyTapProperties.RedirectsReadBack` | supabase/functions/verify-tap/index.ts:166-211 | an error page gives back its reason and no other redirect does; a success page gives back its stamp total through `parseInt`; a login page gives back its token |
| `VerifyTapProperties.ScenarioUnknownDevice` | supabase/functions/verify-tap/index.ts:71-81 | `uid=PROTO_001&counter=5&mode=dev` on an empty store gives `device_not_found` and changes nothing |
| `VerifyTapProperties.ParsesAs` | supabase/functions/verify-tap/index.ts:53-58 | a query `uid, counter, mode` reads as those values with an empty cmac |
| `VerifyTapProperties.AwardThenRetry` | supabase/functions/verify-tap/index.ts:102-172 | a device at counter 3 tapped with counter 4 by a user goes to counter 4 with one ledger row and the stamp total; the same request again is a replay that changes nothing |
| `VerifyTapProperties.AwardThenRetryParams` | supabase/functions/verify-tap/index.ts:102-172 | the same, for the parameters `PROTO_001`, counter 4, dev mode once read |
| `VerifyTapProperties.ScenarioAwardThenRetry` | supabase/functions/verify-tap/index.ts:102-172 | the same, for the concrete query `uid=PROTO_001&counter=4&mode=dev` |
| `VerifyTapProperties.AnonymousTap` | supabase/functions/verify-tap/index.ts:125-184 | the same tap with no user commits counter 4 and redirects to login with the token, with no ledger row |
| `VerifyTapProperties.ScenarioAnonymousTap` | supabase/functions/verify-tap/index.ts:125-184 | the same, for the concrete query |
| `VerifyTapProperties.CounterlessTapRepeats` | supabase/functions/verify-tap/index.ts:102-131 | a dev-mode tap with no counter earns a stamp again once the rate window has passed |
| `VerifyTapProperties.ScenarioCounterlessTapRepeats` | supabase/functions/verify-tap/index.ts:102-131 | the same, for the concrete query `uid=PROTO_001&mode=dev` |
| `I18nStore.Toggled` | src/stores/i18nStore.ts:8-11 | the toggle always yields a language code (`es` or `zh`), and never the one the atom held |
| `I18nStore.ToggleInvolution` | src/stores/i18nStore.ts:8-11 | toggling twice restores the language |
| `I18nStore.ToggleParity` | src/stores/i18nStore.ts:3-11 | after `n` toggles the language is the start for even `n` and the other one for odd `n` |
| `I18nStore.Translations` | src/stores/i18nStore.ts:13-40 | each table defines exactly the eleven label keys, none with an empty text |
| `I18nStore.KeyParity` | src/stores/i18nStore.ts:13-40 | the Spanish and Chinese tables have the same key set |
| `I18nStore.AdminLangAtom.constructor` | src/stores/i18nStore.ts:6 | the atom starts in Spanish |
| `I18nStore.AdminLangAtom.Toggle` | src/stores/i18nStore.ts:8-11 | the atom's new value is the toggle of its old value |
| `MenuList.WithAvailability` | src/components/admin/MenuList.tsx:62 | same length and order; matching items take the new availability and keep every other field; other items are untouched |
| `MenuList.ToggleNegates` | src/components/admin/MenuList.tsx:60-62 | called with an item's own status, the toggle negates that item's availability |
| `MenuList.WithAvailabilityUndo` | src/components/admin/MenuList.tsx:62 | setting availability back to the value all matching items had restores the list |
| `MenuList.WithoutId` | src/components/admin/MenuList.tsx:95 | an item is kept exactly when it was in the list and its id differs |
| `MenuList.WithoutIdConcat` | src/components/admin/MenuList.tsx:95 | the filter works piecewise over any cut of the list, so relative order is kept |
| `MenuList.WithoutIdLength` | src/components/admin/MenuList.tsx:95 | the list shrinks by exactly the number of items carrying the id |
| `MenuList.WithoutAbsentId` | src/components/admin/MenuList.tsx:95 | removing an id no item carries leaves the list as it was |
| `MenuList.StorageKey` | src/components/admin/MenuList.tsx:99-101 | `imageUrl.split('/menu-images/')[1]`, kept only when non-empty; stated by `StorageKeyBetweenMarkers` |
| `MenuList.StorageKeyBetweenMarkers` | src/components/admin/MenuList.tsx:99-101 | the key is the non-empty text between the first `/menu-images/` and the next one or the end; none when the marker is missing or that text is empty; a key never contains the marker |
| `MenuList.MenuListState.constructor` | src/components/admin/MenuList.tsx:26-27 | the list starts empty and loading |
| `MenuList.MenuListState.FetchItems` | src/components/admin/MenuList.tsx:35-58 | fetched rows replace the list; a fetch error keeps it; loading ends false |
| `MenuList.MenuListState.ToggleStock` | src/components/admin/MenuList.tsx:60-73 | the value sent is the negated status; the list is the optimistic flip, or the re-fetched rows when the update reports an error and that fetch succeeds; an update that throws skips the re-fetch and keeps the flip; `loading` is false after a re-fetch and untouched otherwise |
| `MenuList.MenuListState.DeleteProduct` | src/components/admin/MenuList.tsx:84-131 | a declined dialog changes nothing; storage removal is tried only with a key; a storage error does not stop the delete; the list ends filtered on success and equal to the snapshot on a database error or a throw, with the matching alert; `loading` is untouched |

## Left out

- The Deno `serve` wrapper, the Supabase client, CORS headers and console logging. The store is the two maps of `VerifyTap.Store`.
- URL parsing and percent-decoding. A request's query is the list of already-decoded name/value pairs in order.
- The `Authorization` header and `supabase.auth.getUser`. The model takes the user id the identity provider resolved (`Env.resolvedUser`) and applies `|| null` to it.
- NTAG 424 DNA / AES-CMAC computation. The source never implements it. The handler takes any signature predicate (`Env.cmacValid`), and the shipped placeholder is `ValidateNtag424Cmac`.
- The internals of the `award_loyalty_stamp` procedure. Its answer is an input: a stamp total (one ledger row for this device, user and time), an error (no row), or neither. For neither, the source's `result.current_stamps` throws and the catch answers 500. The model assumes such a call recorded nothing.
- `crypto.randomUUID` and `Date.now`. They are the inputs `Env.pendingToken` and `Env.now`.
- Pending-reward storage, its 15-minute expiry and claim redemption. They exist only as comments in the source.
- `logSuspiciousActivity`. It only logs.
- Store failures. In the source, a failed device read collapses into `device_not_found`. A failed rate-limit query lets the tap through. A failed counter update is ignored. Other unexpected throws become a 500. In the model, store reads and the counter write always succeed. The only 500 is the award answer with neither data nor error.
- More than one row under one uid, for instance an inactive row beside an active one. The source's `.eq('status', 'active').single()` picks the single active row, or fails if there are several. A map keyed by `uid_hex` holds at most one row per uid.
- Concurrent taps. The handler has no compare-and-swap, and the model handles taps one after another.
- `JsText.ParseInt`: JavaScript numbers are doubles. Counters beyond 2^53 lose precision in the source and are exact here. `-0` is modelled as 0, which is falsy, as in the source.
- `JsText.IntToDecimal`: gives the decimal text of integers only. Non-integer stamp totals and totals of 1e21 or more (exponent notation) are not modelled.
- The confirmation and alert dialogs in `MenuList`, and the list fetch. Their outcomes are inputs (`confirmed`, the call results, the fetched rows).
- The label texts `MenuList` reads as `t.confirmDelete`, `t.actionCantUndo`, `t.loadingProducts`, `t.noProducts`, `t.noProductsDesc` and `t.noCategory`. The label table does not define these keys, so they render as `undefined` in the source. The model does not render labels.
- The list state while the delete is in flight, and stale closures over `items`. `DeleteProduct` and `ToggleStock` state the final list only. The snapshot is the list when the call started.
- `MenuList.MenuListState.ToggleStock`: when the update throws, the source's call rejects with nothing to catch it. The model states the list and `loading` that this leaves but returns no rejection.
- `updatePrice`. It only sends the new price to the backend and does not touch the list.
- `MenuItem.price` is a whole number. No list operation reads it.
