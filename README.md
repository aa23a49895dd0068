# Donaty front-end: a Dafny model of its rules

Donaty is a donation platform. Its React front-end lets donors, collectors
(*recolectores*) and administrators sign in, register, reset passwords,
create and manage donations, and talk to each other in a chat room tied to
each donation. Most of the front-end is layout, but some parts follow rules
that can be stated and proved. This project models those parts:

- **The chat room** (`src/components/ChatRoom.jsx`), as the class
  `Chat.ChatRoom`. The model covers:
  - the guard on missing credentials;
  - the history load, which replaces the transcript;
  - live messages, which are only ever appended;
  - the `connecting` flag;
  - the typing indicator and its fire-and-forget 1200 ms clears, on a
    discrete clock;
  - send gating;
  - the teardown that emits `leaveRoom` and then disconnects.

  Every handler is a method. Its contract says that the new state is a
  pure transition (`OnConnect`, `OnMessage`, …) applied to the old state,
  and that the invariant `Inv` is kept.
- **URL and credential plumbing**:
  - base-URL normalisation in `src/lib/apiBase.js` (module `ApiBase`) and in
    the chat room;
  - the role → token key / path segment rule, which every page repeats
    (module `Roles`);
  - the `storeAuth` store (module `StoreAuth`), with zustand's `persist`:
    its state is saved under "auth-donaty" on every `set` and read back
    when the store is created.

  Login (`Login`) and the Google callback (`GoogleCallback`) are proved to
  write the token under exactly the key that the chat room's
  `getAuthToken` reads back.
- **Validators**:
  - the two yup schemas (`RegisterSchema`, `DonationSchema`), checked field
    by field in a fixed order;
  - the password guards of the reset page (`Reset`);
  - the account-creation guards of the admin dashboard (`AdminDashboard`).
- **Form and list state**:
  - the donation form (`DonationForm`): similarity threshold, duplicate
    blocking, payload, and which fields are cleared;
  - the donor's donation list (`DonationList`);
  - the public home page (`Home`): response fallbacks, card image, labels,
    and the order in which its views are chosen;
  - the registration page (`Register`).

Environment, storage and the network are inputs:

- `import.meta.env` is the record `ApiBase.Env`.
- `localStorage` is a `map<string, string>` passed in, with the new map
  returned.
- Every HTTP answer is an `Http.Outcome`: `Ok(body)`, or `Failed(msg)`
  carrying the server's `msg` if it sent one. Requests are recorded as
  values, such as `calls`, `outbox`, `handshakes` and `historyRequests`.
- Toasts are recorded as texts, or as the `Toast` values of the admin panel.
- `window.confirm` and the e-mail format check are parameters.
- Navigation is a recorded `Roles.Redirect` (path, delay, replace).

The helper modules:

- `Js`: truthiness, `||`, `trim`, `length` (UTF-16 code units, as
  JavaScript and yup count them), `endsWith`, `includes`, ASCII case mapping
  and the one-trailing-slash `replace`.
- `Json`: insertion-ordered string-valued objects, `{ ...o, k: v }`, and
  `JSON.stringify` without escaping.
- `Http`: the outcome type and the response shapes.

Some of the front-end's behaviour is easy to get wrong when reading it. In
these places the model states what the code does:

- **Typing indicator.** A later `typing` event does not restart the
  1200 ms window. Each event schedules its own clear, and an earlier clear
  hides a later sender early (`Chat.EarlierClearHidesLaterTyping`).
- **Transport loss.** There is no `Disconnected` state: the component has
  no `disconnect` listener. A lost transport only turns `socket.connected`
  off, and `connecting` keeps its value (`Chat.OnTransportLost`).
- **Reset page.** Choosing a role does not verify the token again. The
  verification runs on mount and when the token changes, with the role
  current at that time; on mount that role is "donante"
  (`Reset.ResetPage.SetRole`, `Reset.ResetPage.ChangeToken`).
- **Other bases.** The register page and the home page do not use
  `API_BASE`: each builds its own base from one variable
  (`Register.RegisterBaseVsApiBase`, `Home.HomeApiVsApiBase`).
- **Chat token.** The chat's token is recomputed only when the
  `tokenOverride` prop changes. Both effects then run again if its value
  changed. A new `roleOverride` reaches only the next socket
  (`Chat.ChangeTokenOverride`, `Chat.RoleOverrideWaitsForNextSocket`).
- **Home page.** The home page ignores a response that is a bare array.
  The donation list uses such a response as it is.
- **Logout.** `clearToken` keeps `donatyRole` and the admin and collector
  tokens (`StoreAuth.ClearKeepsStaffSession`).

## Model

| member | source | states |
|---|---|---|
| ApiBase.DropTrailingSlashOnce | src/lib/apiBase.js:7 | `.replace(/\/$/, "")` removes exactly one trailing "/" when there is one and nothing otherwise |
| ApiBase.RawBaseSource | src/lib/apiBase.js:3-7 | the raw base is the first truthy of VITE_API_URL, VITE_BACKEND_URL and "http://localhost:4000/api", with one trailing slash dropped |
| ApiBase.ApiBaseEndsWithApi | src/lib/apiBase.js:9 | `API_BASE` always ends with "/api"; it equals the raw base exactly when that ends with "/api", and is the raw base plus "/api" otherwise |
| ApiBase.SocketBaseAndApi | src/lib/apiBase.js:12 | `SOCKET_BASE + "/api" == API_BASE` |
| ApiBase.NormalisationIdempotent | src/lib/apiBase.js:3-9 | feeding `API_BASE` back in as VITE_API_URL gives `API_BASE` again |
| ApiBase.DefaultBases | src/lib/apiBase.js:3-12 | with no variables set, the bases are "http://localhost:4000/api" and "http://localhost:4000" |
| Roles.TokenKeySlots | src/pages/Login.jsx:60-65 | distinct known roles use distinct token keys; any other role shares the donor's "donatyToken" |
| Roles.SegmentMatchesTokenKey | src/pages/Login.jsx:33-38 | the role's path segment and its token key always pick the same one of the three roles |
| Roles.SessionKeysDistinct | src/pages/Login.jsx:66-71 | the token key of any role and the four other session keys are pairwise different, so no write overwrites another |
| Json.Put | src/pages/Login.jsx:68 | `{ ...data, role }`: the new property reads back as `role`, every other property reads as before, and the property is appended only if it was absent |
| Json.PutKeepsKeys | src/pages/Login.jsx:68 | overwriting an existing property keeps every property at its position |
| Chat.BackendBaseShape | src/components/ChatRoom.jsx:7-11 | `getBackendBase` is the configured URL minus at most one trailing "/" and then at most one trailing "/api", each removed exactly when present |
| Chat.DefaultBackendBase | src/components/ChatRoom.jsx:7-11 | without VITE_BACKEND_URL the chat's base is "http://localhost:4000" |
| Chat.BackendBaseIsSocketBase | src/components/ChatRoom.jsx:7-11 | when VITE_API_URL is unset, the chat's base is `SOCKET_BASE`, and its history URL is `API_BASE` + "/chat/" + room |
| Chat.ResolveTokenChoice | src/components/ChatRoom.jsx:13-19 | `tokenOverride \|\| getAuthToken()` (line 35): a truthy override wins; otherwise "admin" reads donatyAdminToken, "recolector" reads donatyRecolectorToken, and any other or missing role reads donatyToken |
| Chat.MessageKeyCollides | src/components/ChatRoom.jsx:147 | two different messages without `_id`, from the same sender at the same time, get the same React key |
| Chat.SocketEffect | src/components/ChatRoom.jsx:63-101 | the socket effect keeps the invariant when run on a mounted session that has no live socket |
| Chat.RunEffects | src/components/ChatRoom.jsx:45-101 | the two effects keep the invariant and never touch the transcript, the draft, `connecting` or the emitted events |
| Chat.Mount | src/components/ChatRoom.jsx:21-101 | the first render and its effects produce a session that satisfies the invariant |
| Chat.Cleanup | src/components/ChatRoom.jsx:97-100 | teardown keeps the invariant and leaves no live socket |
| Chat.ChangeDeps | src/components/ChatRoom.jsx:45-101 | a new value of either effect dependency, `roomId` or `token`, cleans up and re-runs both effects, keeping the invariant; equal values change nothing |
| Chat.ChangeRoom | src/components/ChatRoom.jsx:60 | a new `roomId` re-runs the effects in the new room with the same token, keeping the invariant |
| Chat.Unmount | src/components/ChatRoom.jsx:97-100 | unmounting keeps the invariant |
| Chat.OnHistory | src/components/ChatRoom.jsx:46-58 | a history answer keeps the invariant |
| Chat.OnConnect | src/components/ChatRoom.jsx:74-77 | `connect` keeps the invariant |
| Chat.OnTransportLost | src/components/ChatRoom.jsx:63-101 | a lost transport (no listener for it exists) keeps the invariant |
| Chat.OnMessage | src/components/ChatRoom.jsx:83-86 | `message` keeps the invariant |
| Chat.OnTyping | src/components/ChatRoom.jsx:88-91 | `typing` keeps the invariant: its clear is scheduled in the future |
| Chat.OnError | src/components/ChatRoom.jsx:93-95 | `error` keeps the invariant |
| Chat.Remaining | src/components/ChatRoom.jsx:90 | the clears still pending after time t are exactly those due later than t, and nothing changes if none is due |
| Chat.Tick | src/components/ChatRoom.jsx:90 | firing the due clears keeps the invariant |
| Chat.SetText | src/components/ChatRoom.jsx:165 | editing the draft keeps the invariant |
| Chat.SendMessage | src/components/ChatRoom.jsx:103-111 | `sendMessage` keeps the invariant |
| Chat.NotifyTyping | src/components/ChatRoom.jsx:113-115 | `notifyTyping` keeps the invariant |
| Chat.MountGuard | src/components/ChatRoom.jsx:59-71 | without a room or a token, no history request and no socket are made and the problem is reported; with both, exactly one history request (bearer token) and one handshake are made, and the session is connecting |
| Chat.HistoryReplaces | src/components/ChatRoom.jsx:46-58 | a successful load sets the transcript to `items \|\| []`; loading the same answer twice gives the same transcript; a failed load leaves it unchanged |
| Chat.ReceiveAllAppends | src/components/ChatRoom.jsx:83-86 | after any run of `message` events the transcript is the old one followed by exactly those messages, and earlier entries are unchanged |
| Chat.ConnectAndTeardown | src/components/ChatRoom.jsx:74-100 | `connect` clears `connecting` and emits one `joinRoom`; teardown then emits `leaveRoom` and disconnects, and a second teardown emits nothing |
| Chat.SendGating | src/components/ChatRoom.jsx:103-111 | a blank draft changes nothing; without a connected socket nothing is emitted, the draft is kept and an error is reported; otherwise the trimmed text is emitted, the draft is cleared, and the transcript is untouched |
| Chat.SpacesAreNotSent | src/components/ChatRoom.jsx:105 | a draft made only of white space is never emitted |
| Chat.TypingShownUntilDue | src/components/ChatRoom.jsx:88-91 | the sender (`nombre`, else `email`, else "Alguien") is shown until its own clear, 1200 ms later, is due |
| Chat.EarlierClearHidesLaterTyping | src/components/ChatRoom.jsx:88-91 | earlier timers are not cancelled: a typing event at T+500 is hidden at T+1200 by the clear of the event at T |
| Chat.RoomChangeKeepsState | src/components/ChatRoom.jsx:45-101 | a room change keeps the transcript and `connecting`, and emits `leaveRoom` for the old room when a socket was live |
| Chat.ChangeToken | src/components/ChatRoom.jsx:45-101 | a token of a new value re-runs the effects with that token in the same room, keeping the invariant |
| Chat.ChangeTokenOverride | src/components/ChatRoom.jsx:35 | the token is recomputed only for a new `tokenOverride`; the invariant is kept |
| Chat.ChangeRoleOverride | src/components/ChatRoom.jsx:68-71 | a new `roleOverride` sends nothing and keeps the invariant |
| Chat.TokenChangeReconnects | src/components/ChatRoom.jsx:35-101 | a new token leaves the old room; with a room, one history request and one handshake carry the new token; without a token nothing is requested and the problem is reported; the transcript is kept |
| Chat.RoleOverrideWaitsForNextSocket | src/components/ChatRoom.jsx:63-101 | a new `roleOverride` is not sent until the effect runs again; the next room change's handshake carries it |
| Chat.ChatRoom.constructor | src/components/ChatRoom.jsx:21-101 | the mounted component's state is `Mount(...)`, and the invariant holds |
| Chat.ChatRoom.RunSocketEffects | src/components/ChatRoom.jsx:45-101 | runs both effects: the new state is `RunEffects` of the old |
| Chat.ChatRoom.LoadHistory | src/components/ChatRoom.jsx:59 | with credentials, records one history request |
| Chat.ChatRoom.OpenSocket | src/components/ChatRoom.jsx:68-72 | with credentials, records one handshake and a live, unconnected socket |
| Chat.ChatRoom.CleanupSocket | src/components/ChatRoom.jsx:97-100 | the new state is `Cleanup` of the old; no socket is live afterwards |
| Chat.ChatRoom.SetRoom | src/components/ChatRoom.jsx:60 | the new state is `ChangeRoom` of the old |
| Chat.ChatRoom.SetTokenOverride | src/components/ChatRoom.jsx:35 | the new state is `ChangeTokenOverride` of the old |
| Chat.ChatRoom.ReplaceToken | src/components/ChatRoom.jsx:45-101 | the new state is `ChangeToken` of the old |
| Chat.ChatRoom.SetRoleOverride | src/components/ChatRoom.jsx:68-71 | the new state is `ChangeRoleOverride` of the old |
| Chat.ChatRoom.Dispose | src/components/ChatRoom.jsx:97-100 | the new state is `Unmount` of the old |
| Chat.ChatRoom.HistoryLoaded | src/components/ChatRoom.jsx:46-58 | the new state is `OnHistory` of the old |
| Chat.ChatRoom.Connect | src/components/ChatRoom.jsx:74-77 | the new state is `OnConnect` of the old |
| Chat.ChatRoom.TransportLost | src/components/ChatRoom.jsx:63-101 | the new state is `OnTransportLost` of the old |
| Chat.ChatRoom.ReceiveMessage | src/components/ChatRoom.jsx:83-86 | the new state is `OnMessage` of the old; the transcript gains the message at its end |
| Chat.ChatRoom.ReceiveTyping | src/components/ChatRoom.jsx:88-91 | the new state is `OnTyping` of the old |
| Chat.ChatRoom.ReceiveError | src/components/ChatRoom.jsx:93-95 | the new state is `OnError` of the old |
| Chat.ChatRoom.AdvanceClock | src/components/ChatRoom.jsx:90 | the new state is `Tick` of the old |
| Chat.ChatRoom.Type | src/components/ChatRoom.jsx:165 | the new state is `SetText` of the old |
| Chat.ChatRoom.Send | src/components/ChatRoom.jsx:103-111 | the new state is `SendMessage` of the old |
| Chat.ChatRoom.KeyDown | src/components/ChatRoom.jsx:113-115 | the new state is `NotifyTyping` of the old |
| RegisterSchema.ErrorsOf | src/validation/registerSchema.js:3-21 | each reported error names a checked field and that field's first failing rule; when the fields checked are distinct, no field is reported twice |
| RegisterSchema.ErrorsOfComplete | src/validation/registerSchema.js:3-21 | a field has a failing rule exactly when an error for it is reported |
| RegisterSchema.NoErrorsIff | src/validation/registerSchema.js:3-21 | no error is reported exactly when every field passes |
| RegisterSchema.ValidIff | src/validation/registerSchema.js:3-21 | valid exactly when: nombre, apellido and direccion are non-blank after trimming; the trimmed telefono is 6 to 15 ASCII digits; the trimmed email is non-empty and well-formed; the untrimmed password has a `length` of at least 6 UTF-16 code units |
| RegisterSchema.PasswordSpacesCount | src/validation/registerSchema.js:17-20 | six spaces are an acceptable password, but a blank nombre is refused |
| RegisterSchema.PasswordCountsCodeUnits | src/validation/registerSchema.js:17-20 | `min(6)` counts UTF-16 code units: "abcd😀" (five characters) passes, "abcde" fails |
| RegisterSchema.PhoneIsTrimmedFirst | src/validation/registerSchema.js:7-11 | the phone is trimmed before the digit pattern is applied, and the submitted value is the trimmed one |
| DonationSchema.FirstError | src/validation/donationSchema.js:3-35 | the reported error is a failing rule of a listed field, and nothing is reported exactly when every listed field passes |
| DonationSchema.ValidIff | src/validation/donationSchema.js:3-35 | a donation passes exactly when: tipo is "fisica" or "dinero"; the trimmed categoria has a `length` ≤ 120; the trimmed descripcion ≥ 3; the trimmed moneda ≤ 10 (all in UTF-16 code units); the amount, if given, is a number; "dinero" needs a positive amount and a known payment method; "fisica" needs a non-blank delivery point and phone |
| DonationSchema.EveryFieldPasses | src/validation/donationSchema.js:3-35 | a donation passes exactly when each of the eight fields passes |
| DonationSchema.ReportsFirstFailure | src/validation/donationSchema.js:3-35 | with `abortEarly`, every field before the reported one passes |
| DonationSchema.ConditionalFieldsAreFree | src/validation/donationSchema.js:12-34 | the fields conditional on one tipo are unconstrained for the other: no amount or payment method is needed for "fisica", and no delivery data for "dinero" |
| DonationSchema.NotANumberAlwaysFails | src/validation/donationSchema.js:12-14 | an amount that is not a number always fails with "Monto inválido", whatever the tipo |
| DonationForm.SetField | src/pages/DonationForm.jsx:49 | `setField` changes the named field only |
| DonationForm.Prefilled | src/pages/DonationForm.jsx:39-47 | the delivery point and phone are filled from the user only when empty; every other field is kept |
| DonationForm.ThresholdNonIncreasing | src/pages/DonationForm.jsx:69 | the threshold is 0.95, 0.85 or 0.8, and never grows with the description's length |
| DonationForm.Similar | src/pages/DonationForm.jsx:75-77 | the filter keeps exactly the matches whose score reaches the threshold |
| DonationForm.BlocksIff | src/pages/DonationForm.jsx:75-95 | creation is blocked exactly when the similarity call succeeds with a match scoring at least the threshold; a failing call never blocks |
| DonationForm.ValidFormPayload | src/pages/DonationForm.jsx:98-112 | the payload of a valid form: a known tipo, a trimmed descripcion of `length` ≥ 3 and a trimmed categoria of `length` ≤ 120 (UTF-16 code units); "dinero" carries an amount and a known lower-case payment method and no delivery data; "fisica" carries "ninguno", no amount, and a non-empty trimmed delivery point and phone |
| DonationForm.ValidRunsSimilarity | src/pages/DonationForm.jsx:55-67 | a form that passes validation always reaches the similarity check |
| DonationForm.Cleared | src/pages/DonationForm.jsx:136-141 | categoria, descripcion and montoUsd are emptied and every other field is kept |
| DonationForm.DonationFormPage.constructor | src/pages/DonationForm.jsx:24-47 | the initial form, prefilled when there is a user |
| DonationForm.DonationFormPage.Prefill | src/pages/DonationForm.jsx:39-47 | the form becomes `Prefilled` of the old form |
| DonationForm.DonationFormPage.Edit | src/pages/DonationForm.jsx:49 | the form becomes `SetField` of the old form |
| DonationForm.DonationFormPage.Clear | src/pages/DonationForm.jsx:339-345 | "Limpiar" applies `Cleared` |
| DonationForm.DonationFormPage.Submit | src/pages/DonationForm.jsx:51-149 | an invalid form reports the schema's first error and sends nothing; otherwise the similarity check is sent with the threshold for the trimmed description's `length` in UTF-16 code units, and it blocks exactly when `Blocks` holds; the creation request carries `BuildPayload`; a failure reports `msg` or the fallback; a duplicate carries exactly the matches at or above the threshold and sends no creation request; a successful creation redirects exactly when it has a truthy `checkoutUrl`, and only a success without one clears the form |
| DonationList.Normalize | src/pages/DonationList.jsx:47-51 | an array answer is used as is; otherwise `items`, else `donaciones`, else empty |
| DonationList.RemoveByIdCounts | src/pages/DonationList.jsx:102 | the filter removes every entry with that `_id` and keeps every other entry with its multiplicity |
| DonationList.RemoveByIdConcat | src/pages/DonationList.jsx:102 | the filter works piecewise on a concatenation, so the survivors keep their order |
| DonationList.RemoveByIdAbsent | src/pages/DonationList.jsx:102 | deleting an id that no entry has leaves the list unchanged |
| DonationList.RemoveByIdIdempotent | src/pages/DonationList.jsx:102 | deleting the same id twice is deleting it once |
| DonationList.EditFormOf | src/pages/DonationList.jsx:64-72 | each of the four edit fields is the donation's value, and is "" exactly when that value is absent or empty |
| DonationList.FmtMoney | src/pages/DonationList.jsx:8-15 | "-" exactly for null or undefined cents; otherwise the amount is cents / 100 |
| DonationList.DonationListPage.constructor | src/pages/DonationList.jsx:18-40 | empty list, loading, no selection, empty edit form |
| DonationList.DonationListPage.Load | src/pages/DonationList.jsx:43-57 | `cargar`: the list becomes `Normalize` of the answer; a failure keeps the list and reports `msg` or the fallback |
| DonationList.DonationListPage.Remove | src/pages/DonationList.jsx:97-106 | a declined confirmation sends nothing and changes nothing; otherwise a DELETE is sent, success removes exactly that id's entries, and failure keeps the list |
| DonationList.DonationListPage.OpenEdit | src/pages/DonationList.jsx:64-72 | selects the donation and copies its fields with `EditFormOf` |
| DonationList.DonationListPage.CancelEdit | src/pages/DonationList.jsx:307-315 | clears the selection and resets the four fields to "" |
| DonationList.DonationListPage.SaveEdit | src/pages/DonationList.jsx:74-95 | a PATCH of the edit form; success clears the selection and reloads; failure keeps the selection and the list |
| Reset.UrlsShareRoleAndToken | src/pages/Reset.jsx:26-32 | both URLs end with the token; the three roles reach three different endpoints, and any other role reaches the donor's (as lines 90-96 also choose) |
| Reset.CheckPasswordsIff | src/pages/Reset.jsx:66-85 | accepted exactly when both fields are non-empty, equal, and have a `length` of at least 6 UTF-16 code units; an empty field is reported first, then a mismatch, then shortness |
| Reset.EmojiPasswordAccepted | src/pages/Reset.jsx:80 | "abcd😀" typed twice is accepted: its `length` is 6 although it has five characters |
| Reset.ResetPage.constructor | src/pages/Reset.jsx:7-61 | the base is `API_BASE` of the environment; `tokenValid` null, role "donante", and one verification sent to the donante path on mount |
| Reset.ResetPage.SetRole | src/pages/Reset.jsx:156-187 | choosing a role changes only the role: nothing is sent, and the verification state, token, passwords, toasts, redirect and `loadingSubmit` are kept |
| Reset.ResetPage.ChangeToken | src/pages/Reset.jsx:21-61 | a new token sends a verification to the current role's path and hides the form; the passwords, toasts, redirect and `loadingSubmit` are kept |
| Reset.ResetPage.VerifyAnswered | src/pages/Reset.jsx:35-57 | `tokenValid` becomes true on success and false on failure, with the matching toast; the form is shown exactly after a success (line 201); the role, token, passwords, redirect and `loadingSubmit` are kept |
| Reset.ResetPage.SetPasswords | src/pages/Reset.jsx:18-19 | the two fields take the typed values and nothing else changes |
| Reset.ResetPage.Submit | src/pages/Reset.jsx:63-136 | a refused pair reports the first failed check and sends nothing; otherwise `{ password, confirmpassword: password2 }` goes to the role's path, and success schedules "/login"; pending verifications are untouched |
| Login.SessionAfterLoginWrites | src/pages/Login.jsx:58-71 | the token is written under the role's key only when present; donatyUser is the answer plus `role`; the role, "local" and "true" are written; no other key changes |
| Login.LoginTokenReachesChat | src/pages/Login.jsx:59-69 | after a login that returned a token, the chat's `getAuthToken` reads back that token, whatever the role |
| Login.LoginPage.constructor | src/pages/Login.jsx:12-19 | the base is `API_BASE` of the environment; role "donante", not loading |
| Login.LoginPage.SetRole | src/pages/Login.jsx:138 | the role changes and nothing else |
| Login.LoginPage.LoginUser | src/pages/Login.jsx:29-92 | posts to the role's login path; a failure stores nothing, reports `msg` or the fallback and does not navigate; success stores `SessionAfterLogin` and navigates to the role's dashboard after 2000 ms |
| GoogleCallback.SessionAfterCallbackWrites | src/pages/GoogleCallback.jsx:26-34 | the token goes under the role's key (an unknown `rol` uses donatyToken), donatyRole is the raw `rol`, and nothing else changes |
| GoogleCallback.CallbackTokenReachesChat | src/pages/GoogleCallback.jsx:26-34 | after the callback, the chat's `getAuthToken` reads back the token |
| GoogleCallback.HandleCallback | src/pages/GoogleCallback.jsx:10-46 | without a token nothing is stored: `msg` is shown if present, else the no-token error; with a token the session is stored with `rol` defaulting to "donante", and the role's dashboard replaces the page after 1200 ms |
| Register.AdminSecretHeader | src/pages/Register.jsx:54-67 | `x-admin-secret` is sent exactly when the role is admin and the secret is non-empty |
| Register.RegisterBaseVsApiBase | src/pages/Register.jsx:46 | when VITE_API_URL is unset, the register base agrees with `API_BASE` exactly when it ends with "/api"; with neither variable set they always agree |
| Register.RegisterPage.constructor | src/pages/Register.jsx:18-19 | role "donante", not loading |
| Register.RegisterPage.SetRole | src/pages/Register.jsx:190 | the role changes and nothing else |
| Register.RegisterPage.Submit | src/pages/Register.jsx:27-100 | an invalid form is refused with the schema's errors and sends nothing; a valid one posts the six trimmed fields to the role's path with the header rule; failure reports `msg` or the fallback; success schedules "/login" |
| StoreAuth.ClearedStorage | src/pages/storeAuth.jsx:15-18 | exactly donatyToken, donatyUser, donatyAuthProvider and donatyHasPassword are removed; every other key is untouched |
| StoreAuth.ClearIdempotent | src/pages/storeAuth.jsx:13-19 | clearing twice is clearing once |
| StoreAuth.Persist | src/pages/storeAuth.jsx:4-24 | every `set` writes the serialised state under "auth-donaty" and changes no other key |
| StoreAuth.ParseSerialize | src/pages/storeAuth.jsx:4-24 | reading back the saved text gives the saved `token` and `rol` (for strings without a quote, which would need escaping) |
| StoreAuth.ReloadSeesLastSet | src/pages/storeAuth.jsx:4-24 | a store created after a `set` starts from the state that `set` left |
| StoreAuth.ReloadAfterSignOut | src/pages/storeAuth.jsx:13-24 | a store created after `clearToken` starts with `token` and `rol` null |
| StoreAuth.ClearKeepsStaffSession | src/pages/storeAuth.jsx:13-19 | after sign-out the role and the admin and collector tokens survive, so a staff session still finds its token; a donor's token is gone |
| StoreAuth.AuthStore.constructor | src/pages/storeAuth.jsx:4-24 | `token` and `rol` are null (lines 7-8) overlaid by the state saved under "auth-donaty", when that can be read |
| StoreAuth.AuthStore.SetToken | src/pages/storeAuth.jsx:10 | changes `token` only, and saves the new state under "auth-donaty" |
| StoreAuth.AuthStore.SetRol | src/pages/storeAuth.jsx:11 | changes `rol` only, and saves the new state under "auth-donaty" |
| StoreAuth.AuthStore.ClearToken | src/pages/storeAuth.jsx:13-19 | both fields become null; the storage gets the null state under "auth-donaty" and loses the four keys, nothing else changing |
| Home.HomeApiVsApiBase | src/pages/Home.jsx:13-16 | when VITE_API_URL is set, the home base agrees with `API_BASE` exactly when it ends with "/api"; with neither variable set they always agree |
| Home.ImageOf | src/pages/Home.jsx:126-134 | the uploaded image first, then cash for "dinero", then clothes if the lower-cased category contains "ropa", then food if it contains "alimento", else toys, each exactly in its case |
| Home.ClothesBeforeFood | src/pages/Home.jsx:126-134 | a category mentioning both "ropa" and "alimento" shows clothes; a money donation shows cash whatever its category |
| Home.LabelsFallBack | src/pages/Home.jsx:139-150 | donor name `donante.nombre`, else `nombre`, else "Anónimo"; tipo `tipo`, else `tipoDonacion`, else "-"; category `categoria`, else "-"; none of these is empty; the text is `descripcion`, else `comentarios`, and is empty exactly when both are missing or empty |
| Home.ViewOf | src/pages/Home.jsx:117-124 | loading beats error, error beats empty, and cards are shown only for a non-empty list |
| Home.HomePage.constructor | src/pages/Home.jsx:18-25 | empty list, no error, and the fetch under way |
| Home.HomePage.Loaded | src/pages/Home.jsx:22-42 | success shows `items \|\| donaciones \|\| []` and clears the error; failure empties the list and shows `msg` or the fallback |
| AdminDashboard.CreateTarget | src/pages/AdminDashboard.jsx:255-260 | admin → "/admin/registro", plus "?force=true" exactly when forced; recolector → "/recolector/registro"; otherwise "/donante/registro" |
| AdminDashboard.CreatePayload | src/pages/AdminDashboard.jsx:268-269 | the six fields are copied, and `force` is set exactly for a forced admin |
| AdminDashboard.ToggledStatus | src/pages/AdminDashboard.jsx:154-172 | the status sent is `!status`: true exactly when the current one is not true |
| AdminDashboard.ToggleTwice | src/pages/AdminDashboard.jsx:154-172 | toggling twice gives back a set status; a missing one becomes false |
| AdminDashboard.CreateGuards | src/pages/AdminDashboard.jsx:248-265 | a form passes exactly when all six fields are filled and an admin has a configured secret; a missing field is reported first |
| AdminDashboard.SentRequestsAreAuthorised | src/pages/AdminDashboard.jsx:248-275 | every request sent has six filled fields; it carries the secret header exactly for an admin; `force` is only sent for an admin, with the forced path; with a stored admin token it carries the bearer |
| AdminDashboard.EveryCallCarriesBearer | src/pages/AdminDashboard.jsx:22-48 | every call of the `api` helper carries `Bearer` + the stored admin token, and no Authorization header without one; only a creation request with a secret carries "x-admin-secret" |
| AdminDashboard.AdminPanel.constructor | src/pages/AdminDashboard.jsx:22-80 | the `api` helper's bearer is read from storage once; an empty "donante" form, no forcing, no profile, empty password fields |
| AdminDashboard.AdminPanel.SelectRole | src/pages/AdminDashboard.jsx:522-526 | sets the role; choosing any role but admin clears `forceAdmin`; nothing else changes |
| AdminDashboard.AdminPanel.SetForceAdmin | src/pages/AdminDashboard.jsx:539 | sets `forceAdmin` only |
| AdminDashboard.AdminPanel.EditNewUser | src/pages/AdminDashboard.jsx:561-566 | replaces the form, and nothing else |
| AdminDashboard.AdminPanel.CreateUser | src/pages/AdminDashboard.jsx:248-300 | a refused form reports the first guard and sends nothing; otherwise `CreateRequest` is sent; success resets the form to empty "donante", clears forcing and reloads both tables; failure reports `msg` and keeps the form |
| AdminDashboard.AdminPanel.SetPassForm | src/pages/AdminDashboard.jsx:813-829 | replaces the password fields only |
| AdminDashboard.AdminPanel.ProfileLoaded | src/pages/AdminDashboard.jsx:123-139 | records the profile id and clears `loading` (the `finally`); the forms, calls and toasts are kept |
| AdminDashboard.AdminPanel.ChangePassword | src/pages/AdminDashboard.jsx:223-246 | no profile id: nothing happens; an empty field: reported, nothing sent; otherwise a PUT is sent, and success clears both fields |
| AdminDashboard.AdminPanel.SwitchAccountStatus | src/pages/AdminDashboard.jsx:154-178 | sends the negated status to the user or collector path; on success reloads that table, whose loader sets `loading` (lines 88, 100); a failure leaves `loading` as it was |

## Left out

- Floating point. `moneyToCents` (`Math.round(Number(usd) * 100)`) and
  `Number(...)` parsing are function parameters. Scores and amounts are
  exact reals, so rounding, `Infinity` and `toFixed` formatting are not
  modelled.
- DonationList.FmtMoney: the `Intl.NumberFormat` text is not modelled. The
  model keeps only the amount and the upper-cased currency code.
- The yup e-mail regex is the parameter `isEmail`. yup runs the fields in
  the order of its internal dependency sort. The model assumes declaration
  order, which decides which error `abortEarly` reports first when several
  fields fail.
- `JSON.stringify` string escaping, and JSON values other than strings in
  the login answer.
- socket.io internals, reconnection, backoff and the `joinedRoom` event.
  The socket is an outbox of emits plus the `connected` flag.
- `requestAnimationFrame` scrolling, React StrictMode's double effects, and
  hook scheduling. Timers are a discrete clock with a queue of due times.
- Toasts are recorded as texts or values. Their position and auto-close
  times are not modelled.
- Chat.ChatRoom.HistoryLoaded: history answers are taken one at a time, in
  the order given. Two loads in flight that answer out of order are not
  explored.
- Login: the inline `register` rules of the login form (react-hook-form)
  run before `loginUser` and are not modelled. Only `loginUser` is.
- The Google sign-in button's redirect (`loginWithGoogle`) is a plain
  navigation and is not modelled.
- AdminDashboard: the loaders' list contents, profile editing, donation
  status updates, categories and the other tables are left out. They are
  thin HTTP wrappers.
- `loading` flags are modelled only where a guard or a postcondition
  depends on them.
- The pages that are only layout or thin HTTP wrappers are not part of this
  model: `RecolectorDashboard.jsx`, `DashboardDonante.jsx`,
  `FormProfile.jsx`, `PaymentSuccess.jsx`, `PaymentCancel.jsx`,
  `AiSimilarity.jsx`, `PoliticasTerms.jsx` and the routing table
  `App.jsx`.
- Js.Length: Dafny strings hold Unicode scalar values, so a JavaScript string
  with a lone surrogate cannot be written down; every other string's
  `length` is modelled.
- StoreAuth.Parse reads back only text of the exact shape `persist` writes.
  Other JSON that `JSON.parse` would take (other spacing, other key order,
  escapes, a partial state) is treated as unreadable and leaves the initial
  state.
- ReloadSeesLastSet: a token or role containing `"` is not round-tripped,
  because JSON string escaping is not modelled.
- `toLowerCase` and `toUpperCase` act on ASCII letters only. Other Unicode
  case mappings are not modelled.
