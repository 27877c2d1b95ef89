# UGate super-admin console: a verified model

The UGate super-admin console is a React front end for the administrators of
the UGate platform: the people who approve trade unions ("syndicats"), watch
their members, payments and flagged content, and configure subscription
plans and lease ("bail") rules. This project models its logic in Dafny and
proves properties of that model. Three kinds of logic are modelled.

- **Session and token lifecycle.**
  - The four-entry session store in `localStorage`: access token, refresh
    token, user record and expiry.
  - The expiry check, which uses a one-minute safety margin.
  - Login, token refresh and logout.
  - The authenticated request wrapper. It attaches a bearer token
    (section 2.1 of RFC 6750), refreshes a stale token before sending, and
    on a 401 (section 15.5.2 of RFC 9110) refreshes once and retries once.
  - The session context, with its admin-role gate and its ten-minute
    refresh interval.
  - The direct login from pasted tokens.
- **Forms and small step machines.**
  - The ordered validation chains of registration, password reset,
    account settings and the demo login.
  - The view state of the root page and of the super-admin shell.
- **List screens.**
  - Multi-criteria filters over records.
  - Sums, counts and averages.
  - Ordered substring classifiers.
  - Feature-list editing.
  - Form prefill and reset.

How the modelling works:

- **The browser.** It is a class, `Browser.Window`, with four fields: the
  `localStorage` map, the log of requests sent, and two flags (a redirect
  home was asked for; a reload was asked for).
- **HTTP exchanges.** Each is an oracle value `Reply`: either a network
  failure or a response. A response has a status and a body, which is
  parsed JSON or a parse error.
- **The clock.** `Date.now()` is a `now` parameter.
- **Sample data.** The hard-coded lists the screens start from become
  parameters, so each screen is proved over any list, not only the sample
  one. `mockSyndicats`, `mockMembers`, `mockPayments`, `mockLogs`,
  `mockFlaggedPublications` and `mockFlaggedEvents` are constructor
  parameters (`ss`, `ms`, `ps`, `ls`, `ps` and `es`). `mockPlans` and
  `mockConfigs` are the list parameters of the functions computed from them
  (`FilterPlans`, `AutoDeactivateCount`, `AverageExpiryDays`).
- **JSON.** `JSON.stringify`/`JSON.parse` of user records is a pair of
  functions passed in.
- **Timers.** A timer is a flag or a queue, plus a method that fires it.
- **React components.** Each becomes a class whose fields are its state
  variables. Each handler is a method whose `ensures` equals the new state
  to a specification function of the old one. The properties are proved as
  lemmas about those functions.

Helper modules:

- `Wrappers`: `Option` and `Result`.
- `Text`: ASCII case mapping, `includes`, `trim`, `split` and `join`.
- `Decimal`: `Number#toString` and `parseInt` on integers.
- `Seqs`: filter, count, sum and de-duplication.
- `Http` and `Browser`.

## Model

| member | source | states |
|---|---|---|
| AuthService.GetUserInfo | lib/services/auth.service.ts:136-146 | a missing or empty user entry reads as null |
| AuthService.SaveAuthData | lib/services/auth.service.ts:84-105 | the store becomes `Saved(old store, data, now)`; nothing is sent, no redirect |
| AuthService.Logout | lib/services/auth.service.ts:230-240 | the store becomes `Cleared(old store)`; nothing else changes |
| AuthService.Saved | lib/services/auth.service.ts:84-105 | `saveAuthData`: the store with both tokens, the stringified user and the expiry `now + (expiresIn \|\| 3600)·1000` written (its laws: SavedSession, SavedDefaultLifetime) |
| AuthService.Cleared | lib/services/auth.service.ts:230-240 | `logout`: the store without the four session keys (its laws: ClearedSession, ClearedAfterSave) |
| AuthService.IsTokenExpired | lib/services/auth.service.ts:155-171 | `isTokenExpired`: expired without an expiry entry, never for an entry that parses to NaN, else iff now ≥ expiry − 60000 (stated by ExpiryEntryCases) |
| AuthService.IsAuthenticated | lib/services/auth.service.ts:249-252 | `isAuthenticated`: an access token is stored and is not expired (stated by AuthenticatedAfterSave) |
| AuthService.IsSuperAdmin | lib/services/auth.service.ts:295-310 | `isSuperAdmin`: `hasRole('SUPER_ADMIN') \|\| hasRole('ADMIN')` over the stored user (stated by SuperAdminIff) |
| AuthService.DecodeToken | lib/services/auth.service.ts:263-285 | `decodeToken`: null unless the token has three dot-separated parts, else the decoded middle part (stated by DecodeNeedsThreeParts, DecodeReadsPayload) |
| AuthService.LoginStep | lib/services/auth.service.ts:38-75 | `login`: one POST; a 2xx JSON body is saved and returned; otherwise the store is unchanged and the error is `message`, else `error`, else the default (stated by LoginFailure, LoginSuccess) |
| AuthService.RefreshStep | lib/services/auth.service.ts:180-223 | `refreshAccessToken`: no refresh token fails at once; a refusal clears the store; a grant renews both tokens and the expiry (stated by RefreshWithoutToken … RefreshWithLifetime) |
| AuthService.Login | lib/services/auth.service.ts:38-75 | result, store and requests sent equal those of `LoginStep` for the reply |
| AuthService.RefreshAccessToken | lib/services/auth.service.ts:180-223 | result, store and requests sent equal those of `RefreshStep` for the reply |
| AuthService.SavedSession | lib/services/auth.service.ts:84-101 | a save writes the four session entries from the response, overwriting earlier values, and keeps every other entry; the expiry reads back as now + expiresIn·1000 |
| AuthService.SavedDefaultLifetime | lib/services/auth.service.ts:99-100 | an absent or zero `expiresIn` gives 3 600 000 ms; any other value is used as given |
| AuthService.SavedExpiry | lib/services/auth.service.ts:155-171 | after a save, expired at t iff t ≥ now + expiresIn·1000 − 60000 |
| AuthService.ExpiredRightAfterSave | lib/services/auth.service.ts:155-171 | right after a save the token is expired iff its lifetime is at most 60 s |
| AuthService.AuthenticatedAfterSave | lib/services/auth.service.ts:249-252 | after a save, authenticated at t iff t is more than a minute before expiry |
| AuthService.SavedUserInfo | lib/services/auth.service.ts:94 | a saved user reads back, and the role check then looks at that user's roles |
| AuthService.ExpiryEntryCases | lib/services/auth.service.ts:155-171 | no expiry entry: expired; an entry that parses to NaN: never expired; otherwise expired iff now ≥ expiry − 60000 |
| AuthService.ClearedSession | lib/services/auth.service.ts:230-240 | logout removes exactly the four keys and keeps other entries; twice equals once; afterwards not authenticated |
| AuthService.ClearedAfterSave | lib/services/auth.service.ts:84-105 | logout after a save leaves the store logout alone would leave |
| AuthService.SuperAdminIff | lib/services/auth.service.ts:295-310 | isSuperAdmin iff the user entry parses and its roles contain SUPER_ADMIN or ADMIN; false without an entry |
| AuthService.RefreshWithoutToken | lib/services/auth.service.ts:184-188 | no refresh token: fails with 'Aucun refresh token disponible', sends nothing, store unchanged |
| AuthService.RefreshSendsOnce | lib/services/auth.service.ts:191-197 | with a refresh token exactly one request is sent, carrying it; never more than one |
| AuthService.RefreshFailureStore | lib/services/auth.service.ts:199-204 | a non-OK reply clears the store and fails 'Session expirée, veuillez vous reconnecter'; a network failure or bad body leaves the store alone |
| AuthService.RefreshSuccessStore | lib/services/auth.service.ts:206-218 | an OK refresh overwrites both tokens and the expiry and keeps the user entry and every other entry |
| AuthService.RefreshWithoutLifetime | lib/services/auth.service.ts:215-216 | a refresh with no `expiresIn` stores "NaN", and the token then never counts as expired |
| AuthService.RefreshWithLifetime | lib/services/auth.service.ts:215-216 | with `expiresIn`, authenticated at t iff t < now + expiresIn·1000 − 60000 |
| AuthService.LoginFailure | lib/services/auth.service.ts:52-60 | a failed login leaves the store unchanged; an error status fails with `message`, else `error`, else 'Échec de la connexion'; one request is sent |
| AuthService.LoginSuccess | lib/services/auth.service.ts:63-70 | a successful login returns the parsed body and the store is that body saved |
| AuthService.DecodeNeedsThreeParts | lib/services/auth.service.ts:267-271 | a token decodes only if it has exactly two dots |
| AuthService.DecodeReadsPayload | lib/services/auth.service.ts:274-280 | for header.payload.signature the decoder reads the middle segment |
| Decimal.ParseInt | lib/services/auth.service.ts:159 | `parseInt(s, 10)`: a leading run of digits after optional white space and sign, else NaN |
| Decimal.ParseIntToString | lib/services/auth.service.ts:101 | parsing what `toString` wrote gives back the integer |
| Decimal.ParseIntNoDigits | lib/services/auth.service.ts:159 | text that starts with a character that is not white space, a sign or a digit parses as NaN |
| Decimal.ParseIntNaN | lib/services/auth.service.ts:215-216 | "NaN" parses as NaN |
| Decimal.IntToString | lib/services/auth.service.ts:101 | `toString` of an integer: a minus sign, then digits without leading zeros |
| Text.Split | lib/services/auth.service.ts:267 | `split('.')` for one separator character |
| Text.JoinSplit | lib/services/auth.service.ts:267 | joining the pieces of a split gives back the string |
| Text.SplitJoin | lib/services/auth.service.ts:267 | splitting a join of separator-free pieces gives back the pieces |
| Text.SplitCount | lib/services/auth.service.ts:267-269 | a string has one more piece than separators |
| Http.MessageOrError | lib/services/auth.service.ts:59 | `message`, else `error`, else the fallback |
| Http.Bearer | lib/services/api.client.ts:61-63 | the header value `Bearer <token>` |
| Http.StatusMessage | lib/services/api.client.ts:110 | `Erreur <status>` in decimal |
| ApiClient.Call | lib/services/api.client.ts:29-120 | the result, store, redirect flag and requests sent equal those of `ApiCall` for the replies |
| ApiClient.SendRequest | lib/services/api.client.ts:55-114 | steps 2-6 equal `Send` |
| ApiClient.RequestHeaders | lib/services/api.client.ts:58-70 | the headers equal `BuildHeaders(caller headers, stored token)` |
| ApiClient.RetryRequest | lib/services/api.client.ts:80-103 | the 401 branch equals `Retry` |
| ApiClient.EndSession | lib/services/api.client.ts:46-49 | the store is cleared and the redirect home is recorded |
| ApiClient.ApiCall | lib/services/api.client.ts:29-120 | `apiClient`: refresh a stale token first, send, on a 401 refresh and retry once, map other errors to a message (stated by StaleTokenRefreshFails … CallBounds) |
| ApiClient.Send | lib/services/api.client.ts:55-114 | steps 2-6 of `apiClient` from the store the request is sent from, fresh or just refreshed (stated by SentShape, AcceptedReturned, SendOtherError, SendRetried, SendEndsSession) |
| ApiClient.Retry | lib/services/api.client.ts:80-103 | the 401 branch: one refresh, then one retry with the new token, or the end of the session (stated by UnauthorizedRetriedOnce, UnauthorizedEndsSession) |
| ApiClient.Verb | lib/services/api.client.ts:130-201 | one `apiClient` call with the verb, then the JSON body |
| ApiClient.ApiGet | lib/services/api.client.ts:130-135 | one `apiClient` call with GET and no body |
| ApiClient.ApiPost | lib/services/api.client.ts:146-152 | one `apiClient` call with POST and the body |
| ApiClient.ApiPut | lib/services/api.client.ts:163-169 | one `apiClient` call with PUT and the body |
| ApiClient.ApiPatch | lib/services/api.client.ts:180-186 | one `apiClient` call with PATCH and the body |
| ApiClient.ApiDelete | lib/services/api.client.ts:196-201 | one `apiClient` call with DELETE and no body |
| ApiClient.HeaderRules | lib/services/api.client.ts:58-70 | Authorization is set iff a token is stored; Content-Type is the caller's, else application/json; other caller headers are kept |
| ApiClient.StaleTokenRefreshFails | lib/services/api.client.ts:37-51 | a stale token whose refresh fails clears the store, redirects and fails with 'Session expirée, veuillez vous reconnecter'; no API request is sent |
| ApiClient.StaleTokenRefreshed | lib/services/api.client.ts:37-64 | after a successful pre-refresh the request carries the new token |
| ApiClient.FreshTokenSendsOnce | lib/services/api.client.ts:37-64 | with a fresh token no refresh happens and the request, sent first, carries `Bearer <stored token>`; unless it gets a 401 it is the only request |
| ApiClient.AcceptedReturned | lib/services/api.client.ts:107-114 | a 2xx first response is returned unchanged, without redirect |
| ApiClient.SentCallIsSend | lib/services/api.client.ts:29-114 | once the request is sent (fresh token, or a refresh before sending that succeeded), the call's result, store, redirect and request count are those of `Send` from the sending store, with one refresh more when the token was stale |
| ApiClient.SendOtherError | lib/services/api.client.ts:107-111 | from any store, another error status fails with `message`, else `Erreur <status>`, with one request, no refresh, and the store unchanged |
| ApiClient.OtherErrorStatus | lib/services/api.client.ts:29-111 | for the whole call, fresh token or refreshed first: another error status fails with `message`, else `Erreur <status>`; the store is the one the request was sent from (unchanged when the token was fresh) and the refresh count is 1 exactly when the token was stale |
| ApiClient.SendRetried | lib/services/api.client.ts:80-97 | from any store, a 401 makes one refresh and one retry carrying the refreshed token, and the retry's response is returned whatever its status |
| ApiClient.UnauthorizedRetriedOnce | lib/services/api.client.ts:29-97 | for the whole call on both paths: the 401 refresh starts from the sending store, the retry carries its token, the retry's response is returned, two requests, and one refresh more when the token was stale |
| ApiClient.SendEndsSession | lib/services/api.client.ts:98-103 | from any store, a failing refresh or retry after a 401 clears the store, redirects and fails with 'Session expirée' |
| ApiClient.UnauthorizedEndsSession | lib/services/api.client.ts:29-103 | for the whole call on both paths: a failing refresh or retry after a 401 leaves the caller's store cleared of the session, redirects and fails with 'Session expirée' |
| ApiClient.ClearedAfterRefresh | lib/services/api.client.ts:98-103 | logout after a refresh leaves the same store as logout before it |
| ApiClient.CallBounds | lib/services/api.client.ts:37-114 | at most two API requests and two refreshes per call; only a failed call redirects |
| ApiClient.SentShape | lib/services/api.client.ts:74-97 | every request sent is a refresh or goes to the URL with the caller's method and body |
| ApiClient.VerbSent | lib/services/api.client.ts:130-201 | each helper's non-refresh requests use its own method |
| AuthContext.AuthProvider.constructor | lib/contexts/AuthContext.tsx:61-64 | not authenticated, loading, no user, no error |
| AuthContext.AuthProvider.SyncRefreshTimer | lib/contexts/AuthContext.tsx:180-201 | the interval exists exactly while authenticated |
| AuthContext.AuthProvider.Logout | lib/contexts/AuthContext.tsx:153-160 | not authenticated, no user, no error, store cleared, timer gone |
| AuthContext.AuthProvider.CheckAuthentication | lib/contexts/AuthContext.tsx:71-104 | reads only 'accessToken'. No entry: not authenticated, store untouched. A non-admin user is logged out. Otherwise the user is restored. Loading ends false |
| AuthContext.AuthProvider.Login | lib/contexts/AuthContext.tsx:113-146 | state and store equal `ContextLogin` for the reply; the error is what is rethrown; loading ends false |
| AuthContext.ContextLogin | lib/contexts/AuthContext.tsx:113-146 | the context's `login`: the service login, then the admin-role gate that logs a non-admin out and rethrows (stated by ContextLoginIff, NonAdminLoginRejected, AdminLoginAccepted, FailedLoginRethrown) |
| AuthContext.AuthProvider.RefreshTimerFires | lib/contexts/AuthContext.tsx:186-196 | a tick refreshes. On failure it logs out and the timer goes; otherwise session state is kept |
| AuthContext.UseAuth | lib/contexts/AuthContext.tsx:246-254 | the provider's context, or an error outside any provider |
| AuthContext.LoginSessionNotRestored | lib/contexts/AuthContext.tsx:73 | a session saved by login is not restored on mount unless 'accessToken' was already stored |
| AuthContext.NoContextTokenNoSession | lib/contexts/AuthContext.tsx:73-79 | without 'accessToken' nothing is restored |
| AuthContext.NonAdminLoginRejected | lib/contexts/AuthContext.tsx:121-128 | a login whose user is not SUPER_ADMIN/ADMIN rethrows 'Accès réservé aux super administrateurs uniquement' and leaves no session entry |
| AuthContext.AdminLoginAccepted | lib/contexts/AuthContext.tsx:124-132 | an admin login resolves with the user and the saved session |
| AuthContext.FailedLoginRethrown | lib/contexts/AuthContext.tsx:136-142 | a failed login rethrows the service's message and leaves the store unchanged |
| AuthContext.ContextLoginIff | lib/contexts/AuthContext.tsx:113-146 | ends authenticated iff the response is a success and its user is an admin |
| AuthContext.ClearedOnce | lib/contexts/AuthContext.tsx:188-193 | logging out after a failed refresh leaves the store one logout would |
| DirectLogin.DirectLoginForm.constructor | components/DirectLogin.tsx:12-15 | empty tokens and error, not loading |
| DirectLogin.DirectLoginForm.Enter | components/DirectLogin.tsx:97-111 | the two inputs set the tokens |
| DirectLogin.DirectLoginForm.HandleDirectLogin | components/DirectLogin.tsx:17-66 | error, store and requests equal `DirectStep`; loading ends false after the request |
| DirectLogin.DirectStep | components/DirectLogin.tsx:17-66 | `handleDirectLogin`: reject empty tokens, store both tokens, check /auth/me, then store the user and a 15-minute expiry and reload (stated by EmptyTokenRejected … AcceptedTokenStored) |
| DirectLogin.EmptyTokenRejected | components/DirectLogin.tsx:21-24 | an empty token: 'Veuillez entrer les deux tokens', nothing written or sent |
| DirectLogin.TokensAlwaysStored | components/DirectLogin.tsx:32-41 | both tokens are stored before the /auth/me check whatever it answers; one request is sent |
| DirectLogin.RejectedTokenKeepsTokens | components/DirectLogin.tsx:43-45 | not OK: the tokens stay, user and expiry entries are not written, 'Token invalide ou expiré' |
| DirectLogin.AcceptedTokenStored | components/DirectLogin.tsx:47-58 | success stores the user, expiry now + 900 000, asks for a reload |
| DirectLogin.DirectSessionSeenByServiceOnly | components/DirectLogin.tsx:51-58 | after a direct login the service sees a session valid for 14 minutes, but the context's mount check does not restore it |
| Register.WithField | components/Register.tsx:39-44 | `handleChange` replaces exactly the named field |
| Register.RegisterPage.constructor | components/Register.tsx:25-37 | empty form, no error or success, not loading |
| Register.RegisterPage.HandleChange | components/Register.tsx:39-44 | the form gets the named field |
| Register.RegisterPage.HandleSubmit | components/Register.tsx:46-136 | error, success and requests equal `Submit`, which reads a refused body as written; loading ends false after a request |
| Register.EmailTestIsPattern | components/Register.tsx:72-73 | the computed e-mail test accepts exactly what `^[^\s@]+@[^\s@]+\.[^\s@]+$` matches |
| Register.EmailTestShape | components/Register.tsx:72-73 | an accepted address has exactly one '@' and no white space |
| Register.EmailTestSound | components/Register.tsx:72-73 | every accepted string matches the pattern |
| Register.EmailTestComplete | components/Register.tsx:72-73 | every matching string is accepted |
| Register.EmailSplitAccepted | components/Register.tsx:72-73 | non-empty plain parts around '@' and a later '.' are accepted |
| Register.ValidateAccepts | components/Register.tsx:52-76 | sent iff all required fields are filled, username ≥ 3, password ≥ 8 and equal to its confirmation, and the e-mail matches |
| Register.Validate | components/Register.tsx:52-76 | the five checks of `handleSubmit` in their order, lengths counted in UTF-16 units (stated by ValidateAccepts, ValidateOrder) |
| Register.ValidateOrder | components/Register.tsx:52-76 | each check's message is shown exactly when the checks before it pass and it fails: required fields, username ≥ 3, password ≥ 8, equal confirmation, e-mail pattern |
| Register.InvalidFormNotSent | components/Register.tsx:52-76 | an invalid form sends nothing and shows its message |
| Register.ValidFormSentOnce | components/Register.tsx:84-102 | a valid form is sent once with the fields, the phone only when entered, service 'SYNDICAT' and roles ['ADMIN'] |
| Register.RejectedMessageChoice | components/Register.tsx:112-116 | a JSON error body shows `message`, else `error`, else 'Échec de la création du compte' |
| Register.SuccessExcludesError | components/Register.tsx:126-133 | success and error never show together; success iff valid and the reply is 2xx JSON |
| Register.Submit | components/Register.tsx:46-136 | one submit: the validation message and no request, or one request and the shown reply, a refused body read as written (stated by InvalidFormNotSent … RefusedTextNotShown) |
| Register.RefusedTextNotShown | components/Register.tsx:113-133 | as written, a refused non-JSON body shows the second read's TypeError, never the body text, whatever the status |
| Register.RejectionMessage | components/Register.tsx:112-120 | corrected error message: the JSON body's fields, else the body text, else `Erreur <status>: <statusText>` |
| Register.RejectionMessageAsWritten | components/Register.tsx:112-120 | the refused-reply message as written: the JSON body's fields, else the TypeError of the consumed body's second read (stated by RejectionTextLost, RejectionJsonAgrees) |
| Register.RejectionTextLost | components/Register.tsx:113-120 | as written, a non-JSON body's text is replaced by the failed second read's message |
| Register.RejectionTextLostExample | components/Register.tsx:113-120 | a 502 'Bad Gateway' text body shows the read error as written, 'Bad Gateway' when corrected |
| Register.RejectionJsonAgrees | components/Register.tsx:113-116 | for a JSON body both versions show the same message |
| ForgotPassword.ForgotPasswordPage.constructor | components/ForgotPassword.tsx:12-19 | step 'email', empty fields and texts, not loading |
| ForgotPassword.ForgotPasswordPage.Enter | components/ForgotPassword.tsx:12-19 | the inputs set their fields; the step is kept |
| ForgotPassword.ForgotPasswordPage.Exchange | components/ForgotPassword.tsx:31-57 | one POST; error and success equal `Post`; loading ends false |
| ForgotPassword.ForgotPasswordPage.HandleSendCode | components/ForgotPassword.tsx:21-59 | equals `SendCode`; the step only moves forward |
| ForgotPassword.ForgotPasswordPage.HandleVerifyCode | components/ForgotPassword.tsx:61-99 | equals `VerifyCode`; the step only moves forward |
| ForgotPassword.ForgotPasswordPage.HandleResetPassword | components/ForgotPassword.tsx:101-156 | equals `ResetPassword`; the step stays 'password'; success schedules the return to login |
| ForgotPassword.PostOutcome | components/ForgotPassword.tsx:44-51 | a failed exchange shows an error and no success; an OK one shows the success text only |
| ForgotPassword.SendCodeContract | components/ForgotPassword.tsx:26-51 | empty e-mail: error, nothing sent; else one POST with the e-mail; advances iff the reply is OK |
| ForgotPassword.VerifyCodeContract | components/ForgotPassword.tsx:66-91 | empty code: error, nothing sent; else one POST with e-mail and code; advances iff OK |
| ForgotPassword.SendCode | components/ForgotPassword.tsx:21-59 | `handleSendCode`: reject an empty e-mail, else one POST whose reply decides the message (stated by SendCodeContract) |
| ForgotPassword.VerifyCode | components/ForgotPassword.tsx:61-99 | `handleVerifyCode`: reject an empty code, else one POST with e-mail and code (stated by VerifyCodeContract) |
| ForgotPassword.RefusedDefaults | components/ForgotPassword.tsx:45-46 | the per-step defaults when the body gives no message |
| ForgotPassword.ResetChecksContract | components/ForgotPassword.tsx:106-119 | sent iff both filled, length ≥ 8 in UTF-16 units and equal; an empty field, a short password and a mismatch each get their message in that order |
| ForgotPassword.ResetChecks | components/ForgotPassword.tsx:106-119 | the three reset checks in order (stated by ResetChecksContract) |
| ForgotPassword.ResetPassword | components/ForgotPassword.tsx:101-156 | `handleResetPassword`: the checks, then one POST of e-mail, code and new password (stated by ResetCarriesEarlierSteps, RefusedDefaults) |
| ForgotPassword.ResetCarriesEarlierSteps | components/ForgotPassword.tsx:126-136 | the reset posts the e-mail and code of the earlier steps with the new password |
| AccountSettings.StoredText | components/superadmin/AccountSettings.tsx:55-56 | `getItem(key) \|\| ''` |
| AccountSettings.SplitFullNameMeaning | components/superadmin/AccountSettings.tsx:59-63 | first name before the first space, last name after it; no space: all first name |
| AccountSettings.FullNameRoundTrip | components/superadmin/AccountSettings.tsx:59-63 | storing `first last` and splitting again gives both names back iff the first name has no space |
| AccountSettings.SplitFullName | components/superadmin/AccountSettings.tsx:59-63 | the stored name split at its first space (stated by SplitFullNameMeaning, FullNameRoundTrip) |
| AccountSettings.AccountSettingsPage.constructor | components/superadmin/AccountSettings.tsx:23-51 | empty profile with role SUPER_ADMIN, fields hidden, not loading |
| AccountSettings.AccountSettingsPage.LoadProfile | components/superadmin/AccountSettings.tsx:53-68 | the profile is the split stored name and the stored e-mail; role SUPER_ADMIN |
| AccountSettings.AccountSettingsPage.EditProfile | components/superadmin/AccountSettings.tsx:23-51 | the four inputs set the profile fields |
| AccountSettings.AccountSettingsPage.EditPasswords | components/superadmin/AccountSettings.tsx:40-44 | the three inputs set the password fields |
| AccountSettings.AccountSettingsPage.EditNotifications | components/superadmin/AccountSettings.tsx:46-51 | the checkboxes set the settings |
| AccountSettings.AccountSettingsPage.SetPasswordFieldsShown | components/superadmin/AccountSettings.tsx:346-440 | open shows the fields; cancel hides and clears them |
| AccountSettings.AccountSettingsPage.HandleProfileUpdate | components/superadmin/AccountSettings.tsx:70-113 | messages, store and calls equal `ProfileUpdate`; loading ends false |
| AccountSettings.AccountSettingsPage.HandlePasswordChange | components/superadmin/AccountSettings.tsx:115-167 | messages, fields and calls equal `PasswordUpdate`; loading ends false |
| AccountSettings.AccountSettingsPage.HandleNotificationUpdate | components/superadmin/AccountSettings.tsx:169-194 | logs the change, shows its message and schedules the clear |
| AccountSettings.AccountSettingsPage.ClearTimerFires | components/superadmin/AccountSettings.tsx:106 | the three-second timer clears the success message |
| AccountSettings.ProfileInvalidNoCall | components/superadmin/AccountSettings.tsx:77-80 | an empty name or e-mail: error, no call, store untouched |
| AccountSettings.ProfileStoredAfterSuccess | components/superadmin/AccountSettings.tsx:83-92 | the store changes only after `updateProfile` resolves, and only in the name and e-mail |
| AccountSettings.ProfileReloaded | components/superadmin/AccountSettings.tsx:59-63 | reloading after an update shows the saved e-mail, and both names iff the first has no space |
| AccountSettings.PasswordChecksContract | components/superadmin/AccountSettings.tsx:122-135 | attempted iff all filled, new = confirmation and length ≥ 8 in UTF-16 units; an empty field, then a mismatch, then a short password get their message |
| AccountSettings.PasswordChecks | components/superadmin/AccountSettings.tsx:122-135 | the three password checks in order (stated by PasswordChecksContract) |
| AccountSettings.ProfileUpdate | components/superadmin/AccountSettings.tsx:70-113 | `handleProfileUpdate`: the check, one `updateProfile` call, and on success the name and e-mail stored (stated by ProfileInvalidNoCall, ProfileStoredAfterSuccess, ProfileReloaded) |
| AccountSettings.PasswordUpdate | components/superadmin/AccountSettings.tsx:115-167 | `handlePasswordChange`: the checks, one `changePassword` call, and on success the fields cleared and hidden (stated by PasswordChangeClears) |
| AccountSettings.PasswordChangeClears | components/superadmin/AccountSettings.tsx:153-159 | success empties and hides the fields; a refused or failed change keeps them |
| Login.LoginForm.constructor | components/Login.tsx:12-15 | empty fields, no error, not loading, no timer |
| Login.LoginForm.Enter | components/Login.tsx:75-92 | the two inputs set e-mail and password |
| Login.LoginForm.HandleSubmit | components/Login.tsx:17-39 | a failed check sets its message; a passing one clears the error, starts loading and queues the timer with the e-mail |
| Login.LoginForm.TimerFires | components/Login.tsx:35-38 | the timer hands its e-mail to `onLogin` and ends loading |
| Login.LoginCheckAccepts | components/Login.tsx:21-30 | `onLogin` is reached iff both fields are filled and the e-mail contains 'superadmin' |
| Login.EmptinessCheckedFirst | components/Login.tsx:21-24 | an empty field gives 'Veuillez remplir tous les champs' |
| Login.NonAdminEmailRejected | components/Login.tsx:27-30 | a filled form without 'superadmin' gets the admin-only message |
| Login.LoginCheck | components/Login.tsx:21-30 | the two checks of `handleSubmit` in order (stated by LoginCheckAccepts, EmptinessCheckedFirst, NonAdminEmailRejected) |
| HomePage.Home.constructor | app/page.tsx:16-19 | unauthenticated, empty e-mail, view 'dashboard', no data |
| HomePage.Home.Shown | app/page.tsx:61-63 | the login form iff unauthenticated |
| HomePage.Home.HandleLogin | app/page.tsx:21-24 | stores the e-mail and authenticates; view kept |
| HomePage.Home.HandleLogout | app/page.tsx:26-31 | unauthenticated, '', 'dashboard', no data |
| HomePage.Home.HandleNavigate | app/page.tsx:33-36 | view and data set together |
| HomePage.Home.ChangeView | app/page.tsx:68 | sets only the view; the data stays |
| HomePage.Home.CompleteLogin | components/Login.tsx:35-37 | the login timer calls `handleLogin` with the captured e-mail |
| HomePage.RenderViewInverse | app/page.tsx:38-58 | each screen but the dashboard from exactly one id; 'settings' shows the lease configuration; unknown ids show the dashboard |
| HomePage.RenderView | app/page.tsx:38-58 | `renderView`: the screen for the current view id, the dashboard by default (stated by RenderViewInverse, MembersGetsNavigationData) |
| HomePage.MembersGetsNavigationData | app/page.tsx:44-45 | the members screen gets the navigation data's syndicat id |
| SuperAdminMain.MainShell.constructor | components/superadmin/SuperAdminMain.tsx:20 | view 'dashboard' |
| SuperAdminMain.MainShell.ChangeView | components/superadmin/SuperAdminMain.tsx:50 | sets the view; the screen is `RenderMain(view)` |
| SuperAdminMain.DisabledViewsShowDashboard | components/superadmin/SuperAdminMain.tsx:32-43 | 'plans', 'logs' and unknown ids show the dashboard; plans and logs screens never show |
| SuperAdminMain.SettingsAndBail | components/superadmin/SuperAdminMain.tsx:38-41 | 'bail' shows the lease configuration, 'settings' the account settings, unlike the root page |
| SuperAdminMain.RenderMain | components/superadmin/SuperAdminMain.tsx:22-45 | `renderView` of the shell, with the plans and logs cases commented out (stated by DisabledViewsShowDashboard, SettingsAndBail) |
| SubscriptionPlans.FilterPlansContract | components/SubscriptionPlans.tsx:124-127 | listed iff name or description contains the search ignoring case; order kept |
| SubscriptionPlans.FilterPlans | components/SubscriptionPlans.tsx:124-127 | `filteredPlans` (stated by FilterPlansContract, EmptySearchKeepsAll) |
| SubscriptionPlans.EmptySearchKeepsAll | components/SubscriptionPlans.tsx:124-127 | an empty search lists every plan |
| SubscriptionPlans.AddFeature | components/SubscriptionPlans.tsx:191-198 | a non-blank input appends its trimmed text and clears the input; a blank one changes nothing |
| SubscriptionPlans.RemoveAtContract | components/SubscriptionPlans.tsx:201-205 | deletes exactly position i, order kept; out of range: unchanged |
| SubscriptionPlans.RemoveUndoesAdd | components/SubscriptionPlans.tsx:191-205 | removing the feature just added restores the list |
| SubscriptionPlans.FormOfReadsBack | components/SubscriptionPlans.tsx:152-169 | the edit form copies the plan; price and duration read back as its numbers; limits empty |
| SubscriptionPlans.IconAndColorAgree | components/SubscriptionPlans.tsx:208-220 | icon and colour come from the same branch |
| SubscriptionPlans.ProfessionalTestRedundant | components/SubscriptionPlans.tsx:210 | Star iff the name contains 'pro' and not 'enterprise' |
| SubscriptionPlans.GetPlanIcon | components/SubscriptionPlans.tsx:208-213 | `getPlanIcon`: the substring tests in their order (stated by ProfessionalTestRedundant, IconAndColorAgree) |
| SubscriptionPlans.PlansPage.constructor | components/SubscriptionPlans.tsx:26-47 | no search, modals closed, default form |
| SubscriptionPlans.PlansPage.Edit | components/SubscriptionPlans.tsx:432-617 | the inputs set search, form and feature input |
| SubscriptionPlans.PlansPage.OpenCreateModal | components/SubscriptionPlans.tsx:232 | opens the create modal only |
| SubscriptionPlans.PlansPage.ResetForm | components/SubscriptionPlans.tsx:172-188 | default form and empty feature input |
| SubscriptionPlans.PlansPage.AddFeatureClicked | components/SubscriptionPlans.tsx:191-198 | form and input become `AddFeature` of the old ones |
| SubscriptionPlans.PlansPage.RemoveFeatureClicked | components/SubscriptionPlans.tsx:201-205 | features become `RemoveAt(old, i)` |
| SubscriptionPlans.PlansPage.OpenEditModal | components/SubscriptionPlans.tsx:152-170 | selects the plan, fills the form from it, opens edit |
| SubscriptionPlans.PlansPage.HandleCreatePlan | components/SubscriptionPlans.tsx:129-133 | closes the create modal and resets the form |
| SubscriptionPlans.PlansPage.HandleEditPlan | components/SubscriptionPlans.tsx:135-140 | closes edit, clears the selection, resets the form |
| SubscriptionPlans.PlansPage.CloseModal | components/SubscriptionPlans.tsx:408-412 | both modals closed, no selection, default form |
| SubscriptionPlans.PlansPage.SubmitModal | components/SubscriptionPlans.tsx:630 | create while the create modal is open, else edit; the form ends at defaults |
| BailConfiguration.FormOfReadsBack | components/BailConfiguration.tsx:81-90 | the edit form's day counts read back as the rule's numbers |
| BailConfiguration.AutoDeactivateCountContract | components/BailConfiguration.tsx:159 | the count is the number of auto-deactivating rules, at most the rule count |
| BailConfiguration.RoundedQuotient | components/BailConfiguration.tsx:175 | `Math.round(sum/n)`, the nearest integer with halves up |
| BailConfiguration.AverageExpiryDays | components/BailConfiguration.tsx:175 | absent (NaN) exactly for an empty list |
| BailConfiguration.AverageNearMean | components/BailConfiguration.tsx:175 | the average is within half a day of the mean |
| BailConfiguration.AverageBetween | components/BailConfiguration.tsx:175 | bounds on every rule's expiry bound the average |
| BailConfiguration.BailPage.constructor | components/BailConfiguration.tsx:21-30 | modals closed, no selection, default form |
| BailConfiguration.BailPage.EditForm | components/BailConfiguration.tsx:21-30 | the inputs set the form |
| BailConfiguration.BailPage.OpenCreateModal | components/BailConfiguration.tsx:21-22 | opens create only |
| BailConfiguration.BailPage.ResetForm | components/BailConfiguration.tsx:92-99 | empty fields, auto-deactivate true |
| BailConfiguration.BailPage.OpenEditModal | components/BailConfiguration.tsx:81-90 | selects the rule, fills the form from it, opens edit |
| BailConfiguration.BailPage.HandleCreateConfig | components/BailConfiguration.tsx:62-66 | closes create and resets the form |
| BailConfiguration.BailPage.HandleEditConfig | components/BailConfiguration.tsx:68-73 | closes edit, clears the selection, resets |
| BailConfiguration.BailPage.Cancel | components/BailConfiguration.tsx:284-289 | both modals closed, no selection, default form |
| BailConfiguration.BailPage.SubmitModal | components/BailConfiguration.tsx:387 | create or edit; with one modal open, both end closed |
| PaymentsManagement.FilterPaymentsContract | components/PaymentsManagement.tsx:88-96 | listed iff the search matches name, description or id ignoring case and the filter is 'all' or its status; order kept |
| PaymentsManagement.FilterPayments | components/PaymentsManagement.tsx:88-96 | `filteredPayments` (stated by FilterPaymentsContract, StatusFiltersPartition) |
| PaymentsManagement.StatusButtonSelects | components/PaymentsManagement.tsx:93 | each status button selects exactly its own status |
| PaymentsManagement.StatusFiltersPartition | components/PaymentsManagement.tsx:93 | each match is under exactly one status button; the four lengths add up to 'all' |
| PaymentsManagement.EmptySearchKeepsAll | components/PaymentsManagement.tsx:88-96 | 'all' with an empty search lists every payment |
| PaymentsManagement.SummaryContract | components/PaymentsManagement.tsx:98-106 | revenue sums COMPLETED, pending sums PENDING, failed counts FAILED; non-negative for non-negative amounts |
| PaymentsManagement.TotalRevenue | components/PaymentsManagement.tsx:98-100 | `totalRevenue`: the sum of the COMPLETED amounts (stated by SummaryContract, StatusSumsCover) |
| PaymentsManagement.StatusSumsCover | components/PaymentsManagement.tsx:98-104 | the four per-status sums total all amounts |
| PaymentsManagement.StatusMapsDefaults | components/PaymentsManagement.tsx:117-145 | the fallbacks ('default', the text, the dollar icon) iff the status is unknown |
| PaymentsManagement.StatusMapsDistinguish | components/PaymentsManagement.tsx:117-145 | the maps tell the four statuses apart |
| PaymentsManagement.PaymentsPage.constructor | components/PaymentsManagement.tsx:24-28 | empty search, both filters 'all', no detail |
| PaymentsManagement.PaymentsPage.SetSearch | components/PaymentsManagement.tsx:234 | sets the search |
| PaymentsManagement.PaymentsPage.SetFilterStatus | components/PaymentsManagement.tsx:255-287 | sets the status filter |
| PaymentsManagement.PaymentsPage.SetFilterPeriod | components/PaymentsManagement.tsx:242 | sets the period; the list is unchanged |
| PaymentsManagement.PaymentsPage.HandleViewDetail | components/PaymentsManagement.tsx:108-111 | selects the payment and opens the modal |
| PaymentsManagement.PaymentsPage.CloseDetail | components/PaymentsManagement.tsx:375 | closes the modal, the selection stays |
| ActivityLogs.FilterLogsContract | components/ActivityLogs.tsx:143-152 | listed iff user, entity name or action contains the search ignoring case and each filter is 'all' or equal; order kept |
| ActivityLogs.FilterLogs | components/ActivityLogs.tsx:143-152 | `filteredLogs` (stated by FilterLogsContract, EmptySearchKeepsAll) |
| ActivityLogs.EmptySearchKeepsAll | components/ActivityLogs.tsx:143-152 | 'all' filters and an empty search list every entry |
| ActivityLogs.OptionListsContract | components/ActivityLogs.tsx:154-155 | each distinct action and entity type once, in order of first appearance |
| ActivityLogs.ActionOptionSelectsSomething | components/ActivityLogs.tsx:154 | every action option lists at least one entry |
| ActivityLogs.ActiveUsersContract | components/ActivityLogs.tsx:265 | distinct user ids: at most the entry count, at least one when there is an entry |
| ActivityLogs.ActionLabelContract | components/ActivityLogs.tsx:166-179 | the ten mapped actions get their label; any other action is shown as is |
| ActivityLogs.GetActionColor | components/ActivityLogs.tsx:182-188 | `getActionColor`: the substring tests in their order (stated by ActionColorSuccess … ActionColorWarning) |
| ActivityLogs.ActionColorError | components/ActivityLogs.tsx:182-188 | 'error' iff no APPROVE and DELETE or DEACTIVATE; the DISAPPROVE test never decides |
| ActivityLogs.ActionColorInfo | components/ActivityLogs.tsx:182-188 | 'info' iff CREATE and none of APPROVE, DELETE, DEACTIVATE |
| ActivityLogs.ActionColorSuccess | components/ActivityLogs.tsx:183-184 | 'success' iff the action contains APPROVE |
| ActivityLogs.ActionColorWarning | components/ActivityLogs.tsx:182-188 | 'warning' iff UPDATE or ACTIVATE and none of the earlier words; 'default' iff none of the six words |
| ActivityLogs.EntityIconTotal | components/ActivityLogs.tsx:190-199 | every entity type gets an icon, unknown ones the default |
| ActivityLogs.ActivityLogsPage.constructor | components/ActivityLogs.tsx:22-27 | empty search, filters 'all', no detail |
| ActivityLogs.ActivityLogsPage.SetSearch | components/ActivityLogs.tsx:301 | sets the search |
| ActivityLogs.ActivityLogsPage.SetFilterAction | components/ActivityLogs.tsx:309 | sets the action filter |
| ActivityLogs.ActivityLogsPage.SetFilterEntity | components/ActivityLogs.tsx:322 | sets the entity filter |
| ActivityLogs.ActivityLogsPage.SetFilterPeriod | components/ActivityLogs.tsx:334-358 | sets the period; the list is unchanged |
| ActivityLogs.ActivityLogsPage.HandleViewDetail | components/ActivityLogs.tsx:157-160 | selects the entry and opens the modal |
| ActivityLogs.ActivityLogsPage.CloseDetail | components/ActivityLogs.tsx:426 | closes the modal, the selection stays |
| MembersManagement.ComputeMatchesStatus | components/MembersManagement.tsx:154-158 | the flag equals what the status button selects |
| MembersManagement.FilterMembersContract | components/MembersManagement.tsx:142-161 | listed iff all six criteria hold; order kept; the count is the number meeting them |
| MembersManagement.FilterMembersBy | components/MembersManagement.tsx:142-161 | `filteredMembers` (stated by FilterMembersContract, AllFiltersKeepAll) |
| MembersManagement.AllFiltersKeepAll | components/MembersManagement.tsx:142-160 | all at 'all' and an empty search list every member |
| MembersManagement.StatusComplement | components/MembersManagement.tsx:154-158 | 'verified' and 'pending' complementary, no details counting as pending; 'active'/'inactive' complementary |
| MembersManagement.ApprovalComplement | components/MembersManagement.tsx:150-152 | 'approved' and 'pending' complementary by `isApproved` |
| MembersManagement.SyndicatComparedWithName | components/MembersManagement.tsx:147 | a selection no syndicat name equals lists nobody |
| MembersManagement.InitialSyndicat | components/MembersManagement.tsx:31 | 'all' iff the prop is absent, empty or 'all' |
| MembersManagement.MembersPage.constructor | components/MembersManagement.tsx:28-36 | filters at 'all' except the syndicat, which starts from the prop |
| MembersManagement.MembersPage.SetSearch | components/MembersManagement.tsx:208 | sets the search |
| MembersManagement.MembersPage.SetSelects | components/MembersManagement.tsx:216-242 | sets syndicat, role and branch |
| MembersManagement.MembersPage.SetFilterStatus | components/MembersManagement.tsx:254-286 | sets the status filter |
| MembersManagement.MembersPage.SetFilterApproval | components/MembersManagement.tsx:293-308 | sets 'approved' or 'pending', never 'all' |
| MembersManagement.MembersPage.HandleViewProfile | components/MembersManagement.tsx:175-178 | selects the member and opens the profile |
| MembersManagement.MembersPage.CloseProfile | components/MembersManagement.tsx:427 | closes the profile, the selection stays |
| SyndicatsManagement.FilterSyndicatsContract | components/SyndicatsManagement.tsx:86-97 | listed iff name or domain contains the search ignoring case and the selected property holds; a sub-sequence |
| SyndicatsManagement.FilterSyndicats | components/SyndicatsManagement.tsx:86-97 | `filteredSyndicats` (stated by FilterSyndicatsContract, StatusPairsSplit) |
| SyndicatsManagement.StatusPairsSplit | components/SyndicatsManagement.tsx:91-94 | approved+pending and active+inactive each add up to 'all' |
| SyndicatsManagement.EmptySearchKeepsAll | components/SyndicatsManagement.tsx:87-90 | 'all' with an empty search lists every syndicat |
| SyndicatsManagement.CardButtonsContract | components/SyndicatsManagement.tsx:259-301 | exactly one of Approve/Disapprove by approval and one of Activate/Deactivate by activity |
| SyndicatsManagement.SyndicatsPage.constructor | components/SyndicatsManagement.tsx:26-34 | empty search, 'all', no profile |
| SyndicatsManagement.SyndicatsPage.SetSearch | components/SyndicatsManagement.tsx:151 | sets the search |
| SyndicatsManagement.SyndicatsPage.SetFilterStatus | components/SyndicatsManagement.tsx:157-189 | sets the status filter |
| SyndicatsManagement.SyndicatsPage.HandleViewProfile | components/SyndicatsManagement.tsx:115-118 | selects the syndicat and opens the profile |
| SyndicatsManagement.SyndicatsPage.CloseProfile | components/SyndicatsManagement.tsx:458-500 | closes the profile, the selection stays |
| SyndicatsManagement.SyndicatsPage.HandleViewMembers | components/SyndicatsManagement.tsx:120-124 | with the prop, navigates to 'members' with the id, which the members screen then gets; without it nothing changes |
| SuperAdminSyndicats.FilterByApprovalContract | components/superadmin/SyndicatsManagement.tsx:50-57 | listed iff the search matches name or domain and the approval filter holds; order kept |
| SuperAdminSyndicats.FilterByApproval | components/superadmin/SyndicatsManagement.tsx:50-57 | `filteredSyndicats` (stated by FilterByApprovalContract, ApprovalSplit) |
| SuperAdminSyndicats.ApprovalSplit | components/superadmin/SyndicatsManagement.tsx:53-55 | 'approved' and 'pending' are complementary and add up to 'all' |
| SuperAdminSyndicats.EmptySearchKeepsAll | components/superadmin/SyndicatsManagement.tsx:50-57 | 'all' with an empty search lists every syndicat |
| SuperAdminSyndicats.ApproveShownContract | components/superadmin/SyndicatsManagement.tsx:136-145 | the approve button iff not approved |
| SuperAdminSyndicats.ApprovalPage.constructor | components/superadmin/SyndicatsManagement.tsx:10-14 | empty search, 'all', no profile |
| SuperAdminSyndicats.ApprovalPage.SetSearch | components/superadmin/SyndicatsManagement.tsx:78 | sets the search |
| SuperAdminSyndicats.ApprovalPage.SetStatusFilter | components/superadmin/SyndicatsManagement.tsx:85-97 | sets the filter |
| SuperAdminSyndicats.ApprovalPage.HandleViewProfile | components/superadmin/SyndicatsManagement.tsx:59-62 | selects and opens the profile |
| SuperAdminSyndicats.ApprovalPage.CloseProfile | components/superadmin/SyndicatsManagement.tsx:158 | closes the profile |
| FlaggedContent.TagPublications | components/FlaggedContent.tsx:104 | every publication tagged 'publication', in order |
| FlaggedContent.TagEvents | components/FlaggedContent.tsx:105 | every event tagged 'event', in order |
| FlaggedContent.AllFlaggedContract | components/FlaggedContent.tsx:103-106 | the publications then the events, each in order |
| FlaggedContent.FilterContentContract | components/FlaggedContent.tsx:108-127 | listed iff the kind is allowed and the search matches the kind's fields; order kept; count |
| FlaggedContent.FilterContent | components/FlaggedContent.tsx:108-127 | `filteredContent` (stated by FilterContentContract, TypeFilterKinds) |
| FlaggedContent.TypeFilterKinds | components/FlaggedContent.tsx:109-111 | 'publications' lists only publications, 'events' only events |
| FlaggedContent.EmptySearchKeepsKind | components/FlaggedContent.tsx:115-122 | an empty search keeps every item the kind filter allows |
| FlaggedContent.FlaggedPage.constructor | components/FlaggedContent.tsx:22-25 | empty search, 'all', no detail |
| FlaggedContent.FlaggedPage.SetSearch | components/FlaggedContent.tsx:168 | sets the search |
| FlaggedContent.FlaggedPage.SetFilterType | components/FlaggedContent.tsx:174-190 | sets the kind filter |
| FlaggedContent.FlaggedPage.HandleViewDetail | components/FlaggedContent.tsx:137-140 | selects the item and opens the modal |
| FlaggedContent.FlaggedPage.CloseDetail | components/FlaggedContent.tsx:304 | closes the modal, the selection stays |
| Seqs.DistinctContract | components/ActivityLogs.tsx:154-155 | `Array.from(new Set(xs))`: the values of xs, each once, in order of first appearance |
| Text.TrimEmptyIffBlank | components/SubscriptionPlans.tsx:192 | `trim()` is empty iff the text is white space only |
| Text.Contains | components/SubscriptionPlans.tsx:125 | `includes` agrees with "occurs at some index" |
| Text.ContainsEmpty | components/SubscriptionPlans.tsx:124-127 | every string includes "" |
| Text.JsLength | components/Register.tsx:57-62 | `length` in UTF-16 code units: between the character count and twice it, 0 only for "" |
| Text.JsLengthBmp | components/Register.tsx:57-62 | without characters beyond U+FFFF, `length` is the character count |
| Text.JsLengthAstral | components/Register.tsx:62 | four emoji have `length` 8 |

## Left out

- HTTP itself: each fetch is an oracle `Reply`. Request bodies are JSON objects as abstract maps, unencoded.
- lib/services/superadmin.service.ts is left out. The console calls `updateProfile`, `changePassword` and `logActivity` from it; each becomes a boolean "resolved" parameter plus an entry in a call log. lib/services/superadmin.service.ts is not part of this model.
- components/RoleManager.tsx and components/RoleChecker.tsx are not part of this model: each is one HTTP call.
- `JSON.stringify`/`JSON.parse` of user records, and `atob` with `JSON.parse` inside `decodeToken`, are function parameters. Their results are not modelled, and no token signature is checked, as in the code.
- `Headers` compares names case-insensitively; the model uses exact-case map keys.
- ApiClient.HeaderRules: a caller header spelled `content-type`, with different case, is not recognised as the Content-Type.
- Text.Lower: `toLowerCase`/`toUpperCase` are modelled on ASCII letters only; other characters are unchanged.
- Text.JsLength: strings are sequences of Unicode scalar values, so a JavaScript string holding a lone surrogate cannot be represented.
- Http.MessageOrError: an error body is a map from strings to strings, so two kinds of JSON body cannot be represented. A `null` body makes reading its `message` throw; in the source the handlers' outer catch then shows that TypeError, where the model shows the fallback. A `message` or `error` field that is a number or an object is shown in the source converted to text; the model has no such field. This holds for AuthService.LoginStep, ApiClient.Send, ForgotPassword.SendCode, ForgotPassword.VerifyCode and ForgotPassword.ResetPassword. In Register.Submit a `null` body leads to the second read of the body, which a parser that maps `null` to "not JSON" represents.
- Floating point is left out. Amounts are integers, and numbers are shown with `toString` on integers. Locale formatting of amounts and dates is left out.
- PaymentsManagement.SummaryContract: the sums are exact integer sums, where the screen adds floating-point numbers.
- BailConfiguration.AverageExpiryDays: the empty list yields `None` where the page prints "NaN".
- Timers are modelled by presence, not by their durations:
  - the ten-minute interval exists as a flag exactly while authenticated;
  - the `setTimeout` calls in the login form, the password reset and account settings are queued flags with an explicit "fires" method.
- `Date.now()` is a parameter. Date-based displays, such as the count of today's activity entries, are left out.
- Concurrency is left out: handlers are atomic steps and no two requests interleave.
- Handlers that only log to the console or call `confirm` and change nothing are left out. These are:
  - approval, activation and deletion of syndicats, members, plans and flagged content;
  - `handleDeleteConfig` of the lease rules;
  - `handleExport`;
  - `handleToggleActive`.
  The modals that close after such an action are modelled by their close methods.
- The `FormData`/`Blob` packaging of the registration request is not modelled; the payload is the record inside it.
- The text of the TypeError with which a second read of a consumed response body rejects depends on the browser, so the registration page takes it as a parameter, `bodyUsed`.
- ActivityLogs.ActionLabelContract: the label lookup ignores keys inherited from `Object.prototype` (an action named `toString` would show a function, not its own name).
- The `details` field of an activity entry, icons as components, and all markup and styling are left out.
- The browser's own constraint validation is not modelled: the `type="email"` inputs (components/Login.tsx:73, components/Register.tsx:252, components/ForgotPassword.tsx:201) and the `maxLength={6}` code input (components/ForgotPassword.tsx:236). The handlers are modelled as if called on any input, including ones the browser would block or truncate.
- ForgotPassword.ForgotPasswordPage.HandleSendCode, HandleVerifyCode and HandleResetPassword each require the step whose form calls them, since each form exists only on its own step.
- Login.LoginForm.HandleSubmit: `isLoading` is unchanged by a failed check. DirectLogin.DirectLoginForm.HandleDirectLogin is the same for an empty token. Neither handler sets `isLoading` before returning early.
- `apiClient` maps a non-401 error response to its `message` field only, not to `error` as the other handlers do. The model follows the code.
- The context's mount check reads `'accessToken'`, a key the service never writes. The model follows the code (AuthContext.LoginSessionNotRestored).

## Findings

| source | as written | input that shows it | evidently intended | confidence | as-written member | corrected member |
|---|---|---|---|---|---|---|
| components/Register.tsx:113-120 | when `response.json()` fails on a non-JSON error body, the catch calls `response.text()` on the same, already consumed body, which throws again. The text and the `Erreur <status>: <statusText>` default are never shown; the message is the second read's error | a 502 reply with the text body `Bad Gateway`: the message is the read error, not `Bad Gateway` | show the body text, else `Erreur <status>: <statusText>` | high, not executed | Register.RejectionTextLost | Register.RejectionMessage |
