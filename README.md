# Equiply front end — a Dafny model of its client-side logic

This project models the logic of the Equiply React front end that works without a
screen: the token and session layer, the axios and `fetch` wrappers, the form
validators and the phone formatter, and the login throttle. It also covers the
chat page's state updates, how code blocks in messages are classified, the AI
settings helpers, the workspace listing hook and its two pages, the relative-date
labels and the header's scroll state.

Browser state is passed in explicitly:

- `localStorage` is a `map<string, string>`.
- The cookie jar is a sequence of `name=value` cookies, together with the
  `document.cookie` string the browser serialises from it.
- `window.location` is a pair of strings.
- "Is this a mobile device" is a boolean. It is computed separately by
  `ApiUtils.IsMobileDevice`.
- The clock is an integer number of milliseconds.

What a network call settled to is a parameter. So are the library primitives
the code calls: `atob`, `JSON.parse`, `JSON.stringify`, `decodeURIComponent`,
URL form encoding, and the locale date format.

The modules follow the source files:

- `Jwt`, `AuthApi`, `Api`, `ApiClient`, `ApiHandlers`, `ApiUtils`: the token
  and session layer.
- `Validation`, `Registration`, `Login`: the forms.
- `ChatApi`, `ChatPage`, `MessageContent`, `AiSettings`: the chat.
- `WorkspaceApi`, `UseWorkspaces`, `WorkspacePages`: the workspace list.
- `DateUtils`: the relative-date labels.
- `ScrollDirection`: the header's scroll state.
- `Wrappers`, `Js`, `Strings`, `Seqs`, `Dom`: shared definitions.
  - `Js` holds JavaScript values with their truthiness, `||`, property reads
    and `String()`.
  - `Strings` holds JavaScript `trim`, `split`, `indexOf` and the decimal
    conversions.
  - `Dom` holds the browser window.

Code that changes state step by step is written as classes with `modifies`
clauses:

- `Dom.Window`
- `Api.RequestConfig`
- `Registration.RegistrationPage`
- `Login.LoginPage`
- `ChatPage.ChatPage`
- `UseWorkspaces.WorkspaceList`
- `WorkspacePages.WorkspacesPage`
- `ScrollDirection.HeaderVisibility`

The source's own loops are methods with loop invariants:

- the cookie scan in `AuthApi.ReadToken`;
- the `forEach` that fills the query in `WorkspaceApi.BuildQuery`.

Each of these is proved equal to a function. Lemmas state the function's
properties.

The model follows the code as written, including where it departs from what a
reader might expect:

- **Interceptors.** The axios request interceptor reads the `'token'` key, not
  `'access_token'`. Its response interceptor neither refreshes nor retries,
  and nothing publishes authentication events.
- **Refresh.** `refreshAccessToken` swallows a failed exchange after clearing
  both tokens.
- **Registration.** The phone is always sent, because its `'+7 '` comparison
  runs after `trim`.
- **Workspace listing, 401.** A listing that the server answers with 401 still
  shows the error toast. `getWorkspaces` turns every non-ok status into an
  `Error` without a `status_code`.
- **Workspace listing, mount.** The hook always loads the list when it mounts.
  The Workspaces page's check of `isAuthenticated()` only adds a second load; it
  never prevents the first.
- **Workspace listing, no items.** A successful listing whose `data` lacks
  `items` still sets the rows (to `undefined`) and the total, and then shows
  the load error, because logging `items.length` throws.

## Model

| member | source | states |
|---|---|---|
| Jwt.Repeat | src/shared/utils/jwt.utils.ts:36 | `'='.repeat(n)` is n copies of '=' |
| Jwt.Padding | src/shared/utils/jwt.utils.ts:36 | the padding brings the payload to a multiple of four, uses at most three '=', and is empty for an aligned payload |
| Jwt.PaddedPayload | src/shared/utils/jwt.utils.ts:27-36 | the padded middle segment has a length that is a multiple of four and begins with the segment itself |
| Jwt.DecodeJwt | src/shared/utils/jwt.utils.ts:20-47 | null for the empty token and for any token that does not split into three parts; a base64 or JSON failure gives null instead of an exception; for a three-part token that decodes, the result is exactly what `JSON.parse` gives for the padded middle segment |
| Jwt.IsTokenExpired | src/shared/utils/jwt.utils.ts:55-74 | a token that does not decode is expired; otherwise the expiry test is applied to the decoded payload, each field compared with the current second after JavaScript's number conversion (arrays through their string form) |
| Jwt.ExpiryRule | src/shared/utils/jwt.utils.ts:61-73 | with now = floor(ms/1000): expired iff `expires_at` is nonzero and below now, or `exp` is nonzero and below now |
| Jwt.NoExpiryFieldsNeverExpire | src/shared/utils/jwt.utils.ts:64-73 | a payload with neither expiry field never expires |
| Jwt.ExpiryBoundary | src/shared/utils/jwt.utils.ts:61-66 | the comparison is strict: a token is not expired during its expiry second, and is expired from the next second on |
| Jwt.ArrayExpiry | src/shared/utils/jwt.utils.ts:64 | an `expires_at` of `[]` compares as 0 and has expired at any positive second; `[t]` compares as `t` |
| Jwt.ArrayFieldExpiry | src/shared/utils/jwt.utils.ts:64 | a payload with only a truthy `expires_at` expires exactly when that field compares below the current second |
| Js.ArraysCompareAsNumbers | src/shared/utils/jwt.utils.ts:64-69 | in `<` and `>` against a number, `[]` compares as 0 and `[n]` as `n`, as JavaScript converts arrays through their string form |
| Js.NaNNeverCompares | src/shared/utils/jwt.utils.ts:64-69 | `undefined` and objects convert to NaN and compare false on either side |
| Jwt.LessThanMonotone | src/shared/utils/jwt.utils.ts:64-69 | the JavaScript `<` test stays true as the bound grows |
| Jwt.ExpiryMonotone | src/shared/utils/jwt.utils.ts:55-74 | once expired, a token stays expired as the clock moves forward |
| Jwt.UserFromToken | src/shared/utils/jwt.utils.ts:82-99 | null exactly when the payload is missing or falsy; otherwise `user_id`, `sub`, `is_verified` and `role` are renamed to `userId`, `email`, `isVerified` and `role` |
| Jwt.NoUserMeansExpired | src/shared/utils/jwt.utils.ts:55-59 | a token that yields no user is always reported expired |
| Dom.CookieEntries | src/shared/api/auth.api.ts:28 | the pieces of `document.cookie` between semicolons: one per cookie, in order, each after its separating space |
| Dom.JarLookup | src/shared/api/auth.api.ts:29-36 | absent exactly when no cookie has the name |
| Dom.Expire | src/shared/api/auth.api.ts:134-135 | an expired cookie assignment removes every cookie of that name and keeps all others |
| Dom.ExpireHides | src/shared/api/auth.api.ts:134-135 | an expired name reads back as absent |
| Dom.ExpireKeepsOthers | src/shared/api/auth.api.ts:134-135 | expiring one name leaves every other name's lookup unchanged |
| Dom.ExpireWellFormed | src/shared/api/auth.api.ts:134-135 | expiring keeps the jar well formed |
| Dom.Window.constructor | src/shared/api/auth.api.ts:22-36 | the window starts with the given storage, jar and location |
| Dom.Window.GetItem | src/shared/api/auth.api.ts:24 | `localStorage.getItem` is the stored entry, or null when the key is missing |
| Dom.Window.SetItem | src/shared/api/auth.api.ts:119-121 | `setItem` updates one key and changes nothing else |
| Dom.Window.RemoveItem | src/shared/api/auth.api.ts:130-131 | `removeItem` drops one key and changes nothing else |
| Dom.Window.ExpireCookie | src/shared/api/auth.api.ts:134-135 | the jar loses the named cookies; storage and location are unchanged |
| Dom.Window.Navigate | src/shared/api/api.ts:28 | assigning `href` changes only `href` |
| AuthApi.CookieLookup | src/shared/api/auth.api.ts:28-36 | the scan finds nothing exactly when no entry has the name |
| AuthApi.StoredToken | src/shared/api/auth.api.ts:22-36 | on mobile, the `localStorage` entry or null; on the desktop, the scan of `document.cookie` split on ';' |
| AuthApi.ReadToken | src/shared/api/auth.api.ts:22-36 | the loop over cookie entries, with its early return, reads exactly the stored token |
| AuthApi.GetAccessToken | src/shared/api/auth.api.ts:22-37 | `getAccessToken` reads the `access_token` entry by the mobile or desktop rule |
| AuthApi.GetRefreshToken | src/shared/api/auth.api.ts:48-62 | `getRefreshToken` reads the `refresh_token` entry by the same rule |
| AuthApi.CookieLookupFirst | src/shared/api/auth.api.ts:29-33 | the scan answers with the decoded value of the first entry whose trimmed name matches |
| AuthApi.EntryParts | src/shared/api/auth.api.ts:30 | a cookie value is only the text between the first and the second '=' of the trimmed entry |
| AuthApi.EntryWithoutEquals | src/shared/api/auth.api.ts:30-32 | an entry without '=' is all name, and its value decodes the text "undefined" |
| AuthApi.CookieEntryReads | src/shared/api/auth.api.ts:28-30 | a well-formed cookie's entry reads back as its name, with its value cut at the first '=' |
| AuthApi.LookupAgrees | src/shared/api/auth.api.ts:28-36 | scanning the entries of a jar finds what a lookup in the jar finds |
| AuthApi.CookieReadsJar | src/shared/api/auth.api.ts:28-36 | reading a token from the serialised cookie string finds the first cookie of that name |
| AuthApi.SessionUrlsSkipInterceptor | src/shared/api/auth.api.ts:76 | the refresh and logout URLs contain `/auth`, so the request interceptor never adds a Bearer header to them |
| AuthApi.StoreRefreshed | src/shared/api/auth.api.ts:118-123 | after a successful mobile exchange, `access_token` is written when the body has one; `refresh_token` is written only when the body has one too; nothing is written otherwise |
| AuthApi.RefreshAccessToken | src/shared/api/auth.api.ts:95-138 | with no refresh token, it fails with 'No refresh token available' and touches nothing; otherwise it resolves and sends the token header on mobile only; a successful exchange stores tokens on mobile only; a failed one removes both tokens, from storage on mobile and as expired cookies on the desktop; the location is where the interceptor's 401 rule leaves it |
| AuthApi.Logout | src/shared/api/auth.api.ts:73-85 | it posts with `clear_cookies` set to the desktop flag; on success it removes both tokens on mobile only and the location is unchanged; a rejection changes only what the interceptor changed, storage and location alike |
| AuthApi.SessionCallsRedirectOn401 | src/shared/api/api.ts:22-31 | neither session URL mentions `password`, so a 401 from the refresh or logout call sends the user to `/login` from any other page |
| AuthApi.IsAuthenticated | src/shared/api/auth.api.ts:150-190 | true exactly for a non-empty access token that is not expired |
| AuthApi.GetCurrentUser | src/shared/api/auth.api.ts:171-178 | null without a token; otherwise the user projection of the token |
| AuthApi.AuthenticatedHasUser | src/shared/api/auth.api.ts:150-178 | an authenticated session always has a current user |
| AuthApi.FailedRefreshSignsOut | src/shared/api/auth.api.ts:125-137 | after the failure branch clears the tokens, the session reads as signed out with no user, on mobile and on the desktop |
| Api.RequestConfig.constructor | src/shared/api/api.ts:12 | a config holds its URL and header record |
| Api.InterceptorBearer | src/shared/api/api.ts:13-16 | a Bearer header is added iff `localStorage['token']` is non-empty and the URL does not contain '/auth' |
| Api.InterceptRequest | src/shared/api/api.ts:12-19 | the request interceptor sets only `Authorization`, and only in that case; the URL and all other headers are unchanged |
| Api.Classify | src/shared/api/api.ts:21-32 | axios resolves exactly for 2xx replies, with the body unchanged, and rejects otherwise, with or without a response |
| Api.InterceptError | src/shared/api/api.ts:23-31 | a 401 whose URL lacks 'password', seen away from '/login', removes 'token' and navigates to '/login'; every error is rejected unchanged |
| Api.StorageAfter | src/shared/api/api.ts:21-32 | the response interceptors only ever remove keys, and a success removes none |
| Api.Send | src/shared/api/api.ts:4-32 | one request: the default headers plus the interceptor's Bearer, the outcome classified with no refresh and no retry, and the storage and location effects of the 401 rule |
| Api.HrefAfter | src/shared/api/api.ts:22-31 | the location is `/login` exactly when the call failed under the 401 rule, and otherwise unchanged; a success never moves the user |
| Api.NoRedirectOnLoginPage | src/shared/api/api.ts:26 | no error sends the user to '/login' while on '/login' |
| Api.NoRedirectForPasswordRequests | src/shared/api/api.ts:25 | a failing password request never redirects |
| Api.InterceptorIgnoresAccessToken | src/shared/api/api.ts:13 | what the session layer keeps under 'access_token' never affects the interceptor's header |
| ApiClient.Spread | src/shared/api/api.client.ts:49-53 | `{...base, ...over}`: each property `over` has replaces the one in `base` |
| ApiClient.GetAuthToken | src/shared/api/api.client.ts:6-22 | `getAuthToken` uses the same read rule as the session layer's access-token reader |
| ApiClient.AuthHeaders | src/shared/api/api.client.ts:27-40 | `Content-Type` is JSON unless the caller sets it; caller headers are kept; `Authorization` is 'Bearer ' + token iff the token is non-empty, overriding the caller's |
| ApiClient.CreateApiHeaders | src/shared/api/api.client.ts:27-40 | the record built in place equals that header record for the stored token |
| ApiClient.Authorize | src/shared/api/api.client.ts:34-37 | on the default record merged with the caller's, adding a Bearer header for a non-empty token yields exactly the header record |
| ApiClient.ApiRequest | src/shared/api/api.client.ts:45-56 | caller options are spread last, so caller `headers` replace the computed ones entirely; `credentials` is 'include' unless overridden; method and body are the caller's |
| ApiClient.DefaultRequestAuthorization | src/shared/api/api.client.ts:49-53 | without caller headers, the request carries a Bearer header exactly when a non-empty token is stored, and JSON as its content type |
| ApiClient.JsonBody | src/shared/api/api.client.ts:71-81 | the body is `JSON.stringify(data)` exactly for truthy data |
| ApiClient.RequestOptions | src/shared/api/api.client.ts:61-90 | `apiGet` and `apiDelete` ask for their method with nothing else; `apiPost` and `apiPut` ask for theirs with a body iff the data is truthy, and that body is the JSON text of the data; no wrapper sets headers or credentials |
| ApiClient.WrapperRequestCarriesSession | src/shared/api/api.client.ts:45-90 | a wrapper's request keeps the computed headers and `credentials: 'include'`; its method is the wrapper's, and it has a body iff the wrapper is POST or PUT with truthy data |
| ApiHandlers.HandleApiResponse | src/shared/api/api.handlers.ts:29-34 | the body is returned iff 200 <= status < 300; otherwise it throws 'Unexpected response status: <status>' |
| ApiHandlers.ResolvedResponsesPass | src/shared/api/api.handlers.ts:29-34 | every response axios resolves with passes `handleApiResponse` unchanged |
| ApiHandlers.HandleApiError | src/shared/api/api.handlers.ts:15-27 | it never returns. Axios errors become a record whose message is `detail`, else `message`, else 'Неизвестная ошибка', and whose status is the response's or 500. A missing body throws a TypeError. Other errors are rethrown unchanged |
| ApiHandlers.ApiErrorIsInformative | src/shared/api/api.handlers.ts:18-21 | the record always carries a truthy message and a nonzero status |
| ApiHandlers.DetailFirst | src/shared/api/api.handlers.ts:19 | a truthy `detail` always wins over `message` |
| ApiHandlers.ApiCall | src/pages/Chat/Chat.api.ts:50-58 | a pass-through wrapper returns the body for a 2xx response and otherwise throws what the handlers throw |
| ApiHandlers.ApiCallReturnsIff2xx | src/pages/Chat/Chat.api.ts:50-58 | through the transport, a wrapper returns the body exactly for a 2xx reply |
| ApiUtils.HttpErrorRecord | src/shared/api/api.utils.ts:15-24 | the thrown `{error}` has `detail` 'HTTP <status>: <statusText>', `error_type` 'http_error', `status_code` equal to the status, and `request_id` 'unknown' |
| ApiUtils.ParseJsonResponse | src/shared/api/api.utils.ts:6-30 | not ok with JSON throws the parsed body; not ok without JSON throws the http_error record; ok gives the parsed JSON, or null when the response is not JSON; it only resolves for ok responses |
| ApiUtils.NonJsonIgnoresBody | src/shared/api/api.utils.ts:10-29 | a response that is not JSON never has its body read |
| ApiUtils.ContainsAny | src/shared/api/api.utils.ts:37 | the alternation matches iff some listed token occurs |
| ApiUtils.IsMobileDevice | src/shared/api/api.utils.ts:36-38 | true iff the lower-cased user agent contains one of the lower-cased device tokens |
| ApiUtils.LowerAsciiIdempotent | src/shared/api/api.utils.ts:37 | lower-casing twice is lower-casing once |
| ApiUtils.MobileCaseInsensitive | src/shared/api/api.utils.ts:37 | the device test ignores letter case |
| ApiUtils.IPhoneIsMobile | src/shared/api/api.utils.ts:37 | any user agent naming an iPhone is mobile |
| Validation.ValidateUsername | src/shared/utils/validation.ts:8-16 | whitespace-only gives the required error; otherwise an untrimmed length over 50 gives the range error; otherwise null, and each of these holds in both directions |
| Validation.OccursAtChar | src/shared/utils/validation.ts:25 | a one-character pattern occurs exactly where that character is |
| Validation.EmailCheckSound | src/shared/utils/validation.ts:25-26 | the first-'@' test implies the shape of the regular expression |
| Validation.EmailCheckComplete | src/shared/utils/validation.ts:25-26 | the shape of the regular expression implies the first-'@' test |
| Validation.EmailCheckIff | src/shared/utils/validation.ts:25-26 | the test and the regular expression accept the same strings |
| Validation.EmailNotBlank | src/shared/utils/validation.ts:22-26 | an address of the right shape is never blank |
| Validation.ValidateEmail | src/shared/utils/validation.ts:21-30 | blank gives the required error; otherwise null iff the input is one or more characters other than '@' or white space, an '@', then a domain with an inner '.' that has characters on both sides |
| Validation.ValidatePhone | src/shared/utils/validation.ts:35-44 | blank is accepted; otherwise null iff the input is exactly '+7 (ddd) ddd-dd-dd'; the only error is the format message |
| Validation.ValidatePassword | src/shared/utils/validation.ts:49-76 | the checks run in the fixed order empty, shorter than 8, uppercase, lowercase, digit, special character; each message appears exactly when its check is the first to fail, and null appears iff all pass |
| Validation.DigitsOf | src/shared/utils/validation.ts:84 | removing non-digits leaves only digits and never lengthens |
| Validation.DigitsOfConcat | src/shared/utils/validation.ts:84 | digit extraction distributes over concatenation |
| Validation.DigitsOfDigits | src/shared/utils/validation.ts:84 | a string of digits is its own extraction |
| Validation.DigitsOfNone | src/shared/utils/validation.ts:84 | a string without digits extracts to nothing |
| Validation.NormalizeDigits | src/shared/utils/validation.ts:91-106 | the normalised digits start with '7' (a leading '8' becomes '7', otherwise '7' is prepended) and are cut to at most 11; the remaining digits are kept in order |
| Validation.Layout | src/shared/utils/validation.ts:109-119 | every layout starts with '+7' |
| Validation.FormatPhoneNumber | src/shared/utils/validation.ts:81-121 | the output is '' iff the input has no digits |
| Validation.AppendDigits | src/shared/utils/validation.ts:84-118 | appending digits appends them to the extraction |
| Validation.AppendSeparator | src/shared/utils/validation.ts:84-118 | appending separators leaves the extraction unchanged |
| Validation.PrefixDigits | src/shared/utils/validation.ts:110-112 | the '+7' and '+7 (' prefixes contribute exactly the digit 7 |
| Validation.LayoutDigitsMid | src/shared/utils/validation.ts:115-116 | the 8- and 9-digit layouts keep exactly their digits |
| Validation.LayoutDigitsFull | src/shared/utils/validation.ts:117-118 | the 10- and 11-digit layouts keep exactly their digits |
| Validation.LayoutDigits | src/shared/utils/validation.ts:109-119 | every layout keeps exactly its digits |
| Validation.FormatKeepsDigits | src/shared/utils/validation.ts:81-121 | the digits of a formatted number are its normalised digits |
| Validation.FormatIdempotent | src/shared/utils/validation.ts:81-121 | formatting a formatted number changes nothing |
| Validation.FullLayoutMatches | src/shared/utils/validation.ts:39-118 | the 11-digit layout matches the phone pattern |
| Validation.FullNumberIsValid | src/shared/utils/validation.ts:35-118 | with 11 normalised digits, the formatted number passes `validatePhone` |
| Registration.FormErrorsEntries | src/pages/Registration/index.tsx:45-64 | the record has an entry exactly for each failing check, holding that check's message; a password mismatch is recorded as 'Пароли не совпадают' under `confirmPassword` |
| Registration.FormErrorsEmptyIff | src/pages/Registration/index.tsx:45-66 | the form passes iff every validator accepts its field and the passwords are equal |
| Registration.RequestBody | src/pages/Registration/index.tsx:95-100 | the body sends the trimmed username, email and phone (absent only for '+7 '), and the password as typed |
| Registration.PhoneAlwaysSent | src/pages/Registration/index.tsx:98 | the '+7 ' comparison never fires, so the trimmed phone is always sent |
| Registration.UntouchedPhoneRejected | src/pages/Registration/index.tsx:33-55 | the initial phone text '+7 ' fails phone validation |
| Registration.PassingFormEnablesButton | src/pages/Registration/index.tsx:131-242 | a form that passes validation has its button enabled when no request is loading |
| Registration.EnabledButtonMayFailValidation | src/pages/Registration/index.tsx:131-242 | an enabled button does not mean the form passes: a short password is one counterexample |
| Registration.OutcomeMessage | src/pages/Registration/index.tsx:102-125 | success shows nothing; a resolved failure shows the retry text; a rejection shows the message for its `error` field, or for itself when it has `error_type`, or the fixed fallback |
| Registration.RecordIfError | src/pages/Registration/index.tsx:48-58 | `if (err) newErrors[key] = err` adds that key exactly when there is an error |
| Registration.CollectFormErrors | src/pages/Registration/index.tsx:46-62 | the record filled step by step is the record of failing checks |
| Registration.RegistrationPage.constructor | src/pages/Registration/index.tsx:31-40 | the form starts empty with phone '+7 ', no errors, and nothing loading |
| Registration.RegistrationPage.ValidateForm | src/pages/Registration/index.tsx:45-66 | it stores the error record and returns true iff that record is empty |
| Registration.RegistrationPage.HandlePhoneChange | src/pages/Registration/index.tsx:71-79 | the phone becomes `formatPhoneNumber(input)` and a phone error is blanked |
| Registration.RegistrationPage.Settle | src/pages/Registration/index.tsx:94-125 | on success the page navigates home; otherwise it shows the outcome's message |
| Registration.RegistrationPage.Submit | src/pages/Registration/index.tsx:92-128 | it sends the shaped body, shows the outcome and lowers the loading flag afterwards |
| Registration.RegistrationPage.HandleRegistration | src/pages/Registration/index.tsx:84-129 | the request is sent iff validation passes; the errors always become the record of failing checks |
| Login.CeilSeconds | src/pages/Login/index.tsx:40-99 | `Math.ceil(ms/1000)` is the number of started seconds |
| Login.InitialAttempts | src/pages/Login/index.tsx:26 | attempts start at the stored number, or 0 when the entry is missing or not a number |
| Login.InitiallyBlocked | src/pages/Login/index.tsx:27-30 | the form starts blocked iff the stored `blockUntil` is a number greater than now |
| Login.PollOutcome | src/pages/Login/index.tsx:86-103 | no entry changes nothing; a deadline that has passed unblocks; otherwise the form stays blocked and shows ceil(remaining/1000) seconds, or NaN for a malformed deadline |
| Login.ReloadKeepsSubmitLocked | src/pages/Login/index.tsx:27-139 | after a reload during a lock written at time t, the submit button (disabled while blocked or with an empty field) stays disabled for every input until t + 300000, and from then on is enabled iff both fields are filled |
| Login.AttemptsRoundTrip | src/pages/Login/index.tsx:26-72 | a stored counter reads back as the number written |
| Login.BlockMessageSeconds | src/pages/Login/index.tsx:14-41 | the block message always names 300 seconds |
| Login.BlockLastsFullTime | src/pages/Login/index.tsx:27-101 | a block written at time t holds, on reload and on every poll, exactly until t + 300000, and its countdown stays between 1 and 300 |
| Login.MalformedDeadlineNeverUnblocks | src/pages/Login/index.tsx:29-100 | a stored deadline that is not a number never unblocks the form and shows a NaN countdown |
| Login.LoginPage.constructor | src/pages/Login/index.tsx:23-31 | the first render restores attempts and blocked status from storage |
| Login.LoginPage.Block | src/pages/Login/index.tsx:36-42 | blocking stores `blockUntil` = now + 300000 and shows the 300-second message |
| Login.LoginPage.HandleLogin | src/pages/Login/index.tsx:49-80 | while blocked, no login is sent and the too-many-attempts error is shown; a response with a token resets attempts to 0 in state and storage; a response without one leaves attempts unchanged; a throw adds exactly one stored attempt and blocks at the fifth, which disables the submit button for every input; the stored counter always matches the state |
| Login.LoginPage.LoginResolved | src/pages/Login/index.tsx:58-67 | a response with an access token stores and sets 0 attempts, clears the error and navigates to '/'; one without a token shows the invalid-credentials error and changes nothing else |
| Login.LoginPage.CountAttempt | src/pages/Login/index.tsx:70-72 | attempts grow by exactly one and the stored counter is that new number |
| Login.LoginPage.LoginThrew | src/pages/Login/index.tsx:68-79 | a failed login counts one attempt; at five or more the form blocks with the 300-second message and a stored deadline, and the submit button is disabled whatever the fields hold; otherwise the generic error shows |
| Login.LoginPage.CheckBlockStatus | src/pages/Login/index.tsx:86-103 | each poll does what `PollOutcome` decides: unblocking resets attempts, removes `blockUntil`, stores '0' and re-enables the submit button for filled fields; a poll before the deadline keeps the button disabled for every input |
| Login.LoginPage.Unblock | src/pages/Login/index.tsx:90-96 | the form unblocks with no error, no countdown and 0 attempts, and the submit button is enabled iff both fields are filled; `blockUntil` is removed and '0' is stored as the counter |
| ChatApi.DeleteRecord | src/pages/Chat/Chat.api.ts:109-121 | the record has exactly the `success` and `message` fields |
| ChatApi.DeleteChat | src/pages/Chat/Chat.api.ts:102-128 | `true` gives success with 'Чат успешно удален'; `false` gives failure with 'Ошибка удаления чата'; a truthy object goes through `handleApiResponse`; any other body gives success with 'Чат удален'; a rejection throws what the handlers throw |
| ChatApi.ObjectBodyNeeds2xx | src/pages/Chat/Chat.api.ts:113-115 | an object body is returned unchanged iff the status is 2xx |
| ChatApi.DeleteResolvesIff2xx | src/pages/Chat/Chat.api.ts:102-128 | through axios, deletion resolves exactly for a 2xx reply, and then with an object |
| ChatApi.OnlyFalseReportsFailure | src/pages/Chat/Chat.api.ts:107-122 | for a non-object 2xx body, only a literal `false` reports failure |
| ChatPage.Unselect | src/pages/Chat/index.tsx:79 | the filter keeps exactly the other ids |
| ChatPage.Toggle | src/pages/Chat/index.tsx:76-82 | the id is removed if present, otherwise appended; other ids are unaffected |
| ChatPage.ToggleNoDuplicates | src/pages/Chat/index.tsx:76-82 | toggling keeps the selection free of duplicates |
| ChatPage.ToggleTwice | src/pages/Chat/index.tsx:76-82 | toggling twice restores the same duplicate-free set of ids, and restores the exact sequence when the id was absent |
| ChatPage.RemoveChat | src/pages/Chat/index.tsx:381 | exactly the chats with that id are removed |
| ChatPage.RemoveChats | src/pages/Chat/index.tsx:348 | exactly the selected chats are removed |
| ChatPage.NextActive | src/pages/Chat/index.tsx:351-392 | removing the active chat activates the first remaining chat, or none; otherwise the active chat is kept |
| ChatPage.Find | src/pages/Chat/index.tsx:517 | `find` returns the first chat with the id, or nothing when there is none |
| ChatPage.ActiveTitle | src/pages/Chat/index.tsx:515-519 | 'Новый чат' when no chat is active, else the chat's non-empty title, else 'Чат с ИИ' |
| ChatPage.CreatedChatTitle | src/pages/Chat/index.tsx:515-519 | after a created chat is prepended and made active, the header shows its title, or 'Чат с ИИ' when the title is empty |
| ChatPage.HistoryMessages | src/pages/Chat/index.tsx:236-242 | the stored messages map one-to-one, in order, with ids `<chat_id>_<index>` |
| ChatPage.WithoutTyping | src/pages/Chat/index.tsx:589-602 | every 'typing' entry is removed and all other messages are kept |
| ChatPage.HistoryIds | src/pages/Chat/index.tsx:236-242 | loaded ids are distinct and never the typing marker's |
| ChatPage.TimeIdNotTyping | src/pages/Chat/index.tsx:557 | a time-stamp id is never 'typing' |
| ChatPage.UserMessage | src/pages/Chat/index.tsx:556-561 | the user's message carries the text and is not a typing marker |
| ChatPage.TypingMessage | src/pages/Chat/index.tsx:569-575 | the marker is an assistant message with id 'typing' |
| ChatPage.AnswerMessage | src/pages/Chat/index.tsx:582-600 | the answer is the first alternative's text, the fallback text when that is missing or empty, or the error text when the request threw |
| ChatPage.ExchangeAppendsTwo | src/pages/Chat/index.tsx:564-602 | a finished exchange adds exactly the user's message and one answer |
| ChatPage.ChatPage.constructor | src/pages/Chat/index.tsx:42-60 | the page starts with no chats, no selection and nothing in flight |
| ChatPage.ChatPage.ToggleBulkMode | src/pages/Chat/index.tsx:68-71 | bulk mode flips and the selection empties |
| ChatPage.ChatPage.ToggleChatSelection | src/pages/Chat/index.tsx:76-82 | the selection becomes the toggled one |
| ChatPage.ChatPage.LoadChatHistory | src/pages/Chat/index.tsx:229-254 | the messages become the mapped history, or empty when loading failed |
| ChatPage.ChatPage.HandleChatClick | src/pages/Chat/index.tsx:87-294 | in bulk mode a click toggles the selection; otherwise it activates the chat, closes the sidebar and loads the history |
| ChatPage.ChatPage.HandleCreateChat | src/pages/Chat/index.tsx:259-283 | no-op while a creation is running; on success the new chat is prepended and becomes active, the messages are emptied, and the search is cleared unless the creation was automatic |
| ChatPage.ChatPage.HandleDeleteChat | src/pages/Chat/index.tsx:373-438 | on a truthy `success`, the chat leaves the list; deleting the active chat activates the first remaining one, or none and empties the messages; other chats are untouched |
| ChatPage.ChatPage.HandleBulkDelete | src/pages/Chat/index.tsx:338-368 | no-op on an empty selection; otherwise it removes exactly the selected chats, picks the next active chat, clears the selection and leaves bulk mode |
| ChatPage.ChatPage.BeginSend | src/pages/Chat/index.tsx:555-576 | the user's message and then one typing marker are appended |
| ChatPage.ChatPage.FinishSend | src/pages/Chat/index.tsx:578-605 | every typing marker is removed and exactly one assistant message is appended |
| ChatPage.ChatPage.SendMessageToChat | src/pages/Chat/index.tsx:555-606 | overall, the conversation gains exactly the user's message and one answer |
| ChatPage.ChatPage.HandleSendMessage | src/pages/Chat/index.tsx:524-550 | nothing happens for blank input or while a send is running; without an active chat one is created first, and a failed creation ends the attempt |
| ChatPage.ChatPage.OpenCreatedChat | src/pages/Chat/index.tsx:533-534 | the created chat is prepended to the list and becomes active, and the header shows its title or 'Чат с ИИ'; nothing else changes |
| MessageContent.MatchFrom | src/shared/ui/MessageContent/MessageContent.tsx:59 | the search finds the first position where `language-` and a word character start |
| MessageContent.WordRunLength | src/shared/ui/MessageContent/MessageContent.tsx:59 | `\w+` is greedy: it takes every word character up to the first non-word character |
| MessageContent.Capture | src/shared/ui/MessageContent/MessageContent.tsx:59-60 | the capture is a non-empty maximal run of word characters after the prefix |
| MessageContent.Language | src/shared/ui/MessageContent/MessageContent.tsx:59-60 | the language is '' iff the class has no match, and otherwise the first capture |
| MessageContent.FinalLanguage | src/shared/ui/MessageContent/MessageContent.tsx:66-83 | the final language is the lower-cased language when supported, else 'text' |
| MessageContent.CodeString | src/shared/ui/MessageContent/MessageContent.tsx:64 | exactly one trailing '\n' is dropped when there is one |
| MessageContent.RenderCode | src/shared/ui/MessageContent/MessageContent.tsx:57-115 | a block is rendered iff there is a match and the children are non-empty; the header shows the language as written; inline code keeps the original class after the inline style |
| MessageContent.FinalLanguageStable | src/shared/ui/MessageContent/MessageContent.tsx:81-83 | normalising twice, or normalising after lower-casing, changes nothing |
| MessageContent.LanguageOfPrefixedClass | src/shared/ui/MessageContent/MessageContent.tsx:59-60 | a class `language-<word>` followed by a non-word character yields that word |
| MessageContent.FinalLanguageIsWord | src/shared/ui/MessageContent/MessageContent.tsx:81-83 | for any language the renderer extracts, the final language is a non-empty word |
| MessageContent.RenderedClassRoundTrip | src/shared/ui/MessageContent/MessageContent.tsx:102-103 | for any extracted language, the class the block emits classifies back to the same final language |
| MessageContent.LabelKeepsCase | src/shared/ui/MessageContent/MessageContent.tsx:81-89 | a block's header shows the language word as written, while the highlighter receives it lower-cased |
| MessageContent.OneNewlineDropped | src/shared/ui/MessageContent/MessageContent.tsx:64 | only one of two trailing newlines is removed |
| AiSettings.ModelName | src/widgets/settings/ui/AISettingsModal.tsx:106-116 | each listed model has its fixed non-empty display name; any other value displays as itself |
| AiSettings.ModelNamesDistinct | src/widgets/settings/ui/AISettingsModal.tsx:107-114 | distinct listed models have distinct names |
| AiSettings.StripDashes | src/widgets/settings/ui/AISettingsModal.tsx:144 | a leading '---' and the white space after it are removed, and nothing else |
| AiSettings.UserSystemMessage | src/widgets/settings/ui/AISettingsModal.tsx:131-148 | '' for a missing or empty message; a message without the divider is returned unchanged; with the divider, the result is trimmed |
| AiSettings.FirstDividerAfter | src/widgets/settings/ui/AISettingsModal.tsx:135 | with no divider in the prefix, the first divider found is the one after it |
| AiSettings.UserPartRecovered | src/widgets/settings/ui/AISettingsModal.tsx:142-147 | for `<prefix><divider>---<text>`, the result is the text after the first divider with the '---' marker removed |
| AiSettings.RemoveWhitespace | src/widgets/settings/ui/AISettingsModal.tsx:251 | the cleaned string has no white space |
| AiSettings.ParseTokens | src/widgets/settings/ui/AISettingsModal.tsx:250-257 | the parser reads a leading integer with white space removed; NaN gives 1; the result is clamped to [1, 32000] |
| AiSettings.GroupDigits | src/widgets/settings/ui/AISettingsModal.tsx:249 | a space is inserted before each group of three digits counted from the right, and nowhere else |
| AiSettings.JoinGroup | src/widgets/settings/ui/AISettingsModal.tsx:249 | appending a space and a group of three digits to a grouped string keeps spaces exactly at every fourth position from the right |
| AiSettings.StripSeparated | src/widgets/settings/ui/AISettingsModal.tsx:249-251 | removing white space from a head, a space and a digit group keeps the group |
| AiSettings.GroupDigitsStrip | src/widgets/settings/ui/AISettingsModal.tsx:249-251 | removing the spaces gives the digits back |
| AiSettings.FormatTokens | src/widgets/settings/ui/AISettingsModal.tsx:249 | the formatter groups the digits of the number, keeping a minus sign in front |
| AiSettings.ParseFormatRoundTrip | src/widgets/settings/ui/AISettingsModal.tsx:249-257 | parser(formatter(n)) = n for every n in [1, 32000] |
| AiSettings.FormatParseStable | src/widgets/settings/ui/AISettingsModal.tsx:249-257 | formatting and re-parsing a parsed value changes nothing |
| DateUtils.Elapsed | src/shared/lib/date.utils.ts:8 | the distance between now and the date, in either direction |
| DateUtils.CeilDays | src/shared/lib/date.utils.ts:9 | the number of started days: (d-1) days < elapsed <= d days |
| DateUtils.DiffDays | src/shared/lib/date.utils.ts:8-9 | diffDays = ceil(abs(now - date) / 86400000) |
| DateUtils.FormatDate | src/shared/lib/date.utils.ts:4-29 | an invalid date prints 'Invalid Date'; one started day gives 'Вчера'; the same instant gives '0 дн. назад'; more than 29 days gives the locale date |
| DateUtils.CeilDaysExact | src/shared/lib/date.utils.ts:9 | the started-day count is the unique k with (k-1) days < elapsed <= k days |
| DateUtils.CeilDaysMonotone | src/shared/lib/date.utils.ts:9 | more elapsed time never gives fewer days |
| DateUtils.FormatDateSymmetric | src/shared/lib/date.utils.ts:8-24 | past and future dates at the same distance get the same label |
| DateUtils.DaysAgo | src/shared/lib/date.utils.ts:13-14 | between one and six full days, the label counts the started days |
| DateUtils.WeeksAgo | src/shared/lib/date.utils.ts:15-17 | from 6 to 29 days, the label counts floor(d/7) weeks, from one to four |
| WorkspaceApi.QueryPairs | src/entities/api/workspace.api.ts:60-65 | the query has at most one pair per entry |
| WorkspaceApi.QueryPairsEmpty | src/entities/api/workspace.api.ts:61-64 | no pair is appended iff every value is undefined or null |
| WorkspaceApi.QueryPairsAppend | src/entities/api/workspace.api.ts:61-65 | the pairs of concatenated entries are concatenated pairs, so entry order is kept |
| WorkspaceApi.QueryPairsMembership | src/entities/api/workspace.api.ts:61-64 | a pair appears iff some entry with that key has a value other than undefined or null, whose `String` form is the pair's value |
| WorkspaceApi.BuildQuery | src/entities/api/workspace.api.ts:60-65 | the `forEach` loop appends exactly the query pairs |
| WorkspaceApi.Serialize | src/entities/api/workspace.api.ts:67 | the query string is empty iff there are no pairs |
| WorkspaceApi.ListUrl | src/entities/api/workspace.api.ts:67 | the URL is the path, followed by '?' and the query iff some value is present |
| WorkspaceApi.ErrorObject | src/entities/api/workspace.api.ts:95 | `new Error(m)` exposes only its message |
| WorkspaceApi.FailureMessage | src/entities/api/workspace.api.ts:86-95 | the message starts 'Workspaces request failed: <status> <statusText>' and adds ' - <json>' iff the body parsed |
| WorkspaceApi.Caught | src/entities/api/workspace.api.ts:103-107 | the `catch` rethrows the value unchanged |
| WorkspaceApi.ListResult | src/entities/api/workspace.api.ts:57-108 | a rejection is rethrown; a non-ok response throws the failure `Error`; an ok response gives the result of `parseJsonResponse` |
| WorkspaceApi.GetWorkspaces | src/entities/api/workspace.api.ts:57-108 | `getWorkspaces` requests the listing URL and settles as the listing result |
| WorkspaceApi.ListResolvesOnlyWhenOk | src/entities/api/workspace.api.ts:86-102 | the listing resolves only for ok responses, and a failed response's error carries no `status_code` |
| WorkspaceApi.CreateResult | src/entities/api/workspace.api.ts:23-40 | creation settles as `parseJsonResponse` decides and rethrows what it throws |
| WorkspaceApi.CreateFailsUnlessOk | src/entities/api/workspace.api.ts:34 | creation fails for every non-ok status, throwing the server's JSON body when there is one |
| UseWorkspaces.SortFieldName | src/shared/hooks/useWorkspaces.ts:20 | the sort fields are 'name', 'created_at' and 'updated_at' |
| UseWorkspaces.Merge | src/shared/hooks/useWorkspaces.ts:22-109 | each field the patch sets overrides, and all other fields are kept |
| UseWorkspaces.MergeNothing | src/shared/hooks/useWorkspaces.ts:109 | an empty patch changes nothing |
| UseWorkspaces.MergeIdempotent | src/shared/hooks/useWorkspaces.ts:109 | applying a patch twice is applying it once |
| UseWorkspaces.InitialParams | src/shared/hooks/useWorkspaces.ts:17-23 | defaults are skip 0, limit 10, `sort_by` 'updated_at' and `sort_desc` true, each overridable by the initial parameters |
| UseWorkspaces.ParamEntries | src/shared/hooks/useWorkspaces.ts:17-23 | the entries come in the fixed key order, and a value is nullish iff the parameter is unset |
| UseWorkspaces.RequestUrl | src/entities/api/workspace.api.ts:60-67 | the listing URL of the parameter record's entries |
| UseWorkspaces.DefaultsHaveQuery | src/shared/hooks/useWorkspaces.ts:17-23 | the default parameters always produce a query string |
| UseWorkspaces.ListEffectOf | src/shared/hooks/useWorkspaces.ts:41-61 | a successful response with `data.items` loads `data.items` and `data.total`; one whose `data.items` is missing or null loads them and then shows the load error (logging `items.length` throws); a 401 error stays quiet; anything else shows the load error |
| UseWorkspaces.AfterListing | src/shared/hooks/useWorkspaces.ts:42-61 | a load replaces the rows and total; a report appends exactly the load-error toast; a quiet failure changes nothing |
| UseWorkspaces.MissingItemsReported | src/shared/hooks/useWorkspaces.ts:42-61 | a successful listing without `data.items` leaves the rows undefined, sets the total, and still raises the load-error toast |
| UseWorkspaces.ListingAddsAtMostOneNotice | src/shared/hooks/useWorkspaces.ts:41-61 | a listing keeps every earlier toast and adds at most one |
| UseWorkspaces.HttpFailureIsReported | src/shared/hooks/useWorkspaces.ts:48-61 | every non-ok listing, 401 included, shows the error toast |
| UseWorkspaces.CreateEffectOf | src/shared/hooks/useWorkspaces.ts:78-98 | creation succeeds iff `success` is truthy, with its message or the default text; a 401 error fails quietly; anything else shows the creation error |
| UseWorkspaces.UnauthorizedBodyIsQuiet | src/shared/hooks/useWorkspaces.ts:91-95 | a JSON body with `status_code` 401 is the quiet creation failure |
| UseWorkspaces.WorkspaceList.constructor | src/shared/hooks/useWorkspaces.ts:12-27 | the hook starts mounted with no rows, total 0 and the initial parameters |
| UseWorkspaces.WorkspaceList.Settle | src/shared/hooks/useWorkspaces.ts:41-61 | the rows, total and toasts become `AfterListing` of the effect; parameters, requests and the mounted flag stay |
| UseWorkspaces.WorkspaceList.Fetch | src/shared/hooks/useWorkspaces.ts:29-67 | no-op once unmounted; otherwise it makes one request with the explicit parameters if given, else the current ones, and the rows, total and toasts become `AfterListing` of that request's effect |
| UseWorkspaces.WorkspaceList.Refresh | src/shared/hooks/useWorkspaces.ts:114-117 | no-op once unmounted; otherwise one request for the current parameters, and rows, total and toasts follow its effect |
| UseWorkspaces.WorkspaceList.UpdateParams | src/shared/hooks/useWorkspaces.ts:106-112 | no-op once unmounted; otherwise the merged parameters become current and are exactly the ones requested, and rows, total and toasts follow the request's effect |
| UseWorkspaces.WorkspaceList.CreateWorkspace | src/shared/hooks/useWorkspaces.ts:69-104 | returns true iff mounted and `success`; on success the success toast is appended, the current parameters are requested again and rows, total and toasts follow that listing; a refusal shows the creation error; unmounted or a 401, it shows nothing |
| UseWorkspaces.WorkspaceList.Unmount | src/shared/hooks/useWorkspaces.ts:123-126 | the cleanup clears the mounted flag and nothing else |
| WorkspacePages.OrNum | src/pages/Workspaces/index.tsx:128-129 | JS 'or' on numbers: `a` unless it is missing or 0, else `b` |
| WorkspacePages.PageSize | src/pages/Workspaces/index.tsx:364-367 | the page size, the limit or 10 when the limit is 0 or missing, is never 0 |
| WorkspacePages.FloorDiv | src/pages/Workspaces/index.tsx:367 | `Math.floor(a/b)` brackets `a` between consecutive multiples of `b` |
| WorkspacePages.FloorDivMultiple | src/pages/Workspaces/index.tsx:367 | a whole number of pages divides back exactly |
| WorkspacePages.CurrentPage | src/pages/Workspaces/index.tsx:367 | `skip` lies within the current page |
| WorkspacePages.PaginationIffSeveralPages | src/pages/Workspaces/index.tsx:364 | the pager's condition, total greater than (limit or 10), holds iff a numeric total fills at least two pages. The page also hides the pager while loading and for an empty list; that part is not modelled. The same condition appears in the Dashboard page at line 333 |
| WorkspacePages.PageChange | src/pages/Workspaces/index.tsx:126-131 | a page change sets skip = (page-1)·size, with size the first of pageSize, limit, 10 that is present and non-zero, and limit = pageSize or else the old limit, and nothing else; the same code appears in the Dashboard page at lines 95-100 |
| WorkspacePages.PageChangeRoundTrip | src/pages/Workspaces/index.tsx:128-367 | after a page change the pager shows the chosen page, for every page and page size; the same code appears in the Dashboard page at lines 97 and 336 |
| WorkspacePages.CurrentPageChange | src/pages/Workspaces/index.tsx:126-367 | choosing the shown page moves `skip` back, by less than a page, to that page's first row |
| WorkspacePages.SearchPatch | src/pages/Workspaces/index.tsx:110-113 | a search resets skip to 0, and an empty search becomes undefined |
| WorkspacePages.SortPatch | src/pages/Workspaces/index.tsx:115-118 | a sort change sets the field and resets skip to 0 |
| WorkspacePages.OrderPatch | src/pages/Workspaces/index.tsx:120-124 | an order change sets `sort_desc` and resets skip to 0 |
| WorkspacePages.FilterChangesResetToFirstPage | src/pages/Workspaces/index.tsx:110-124 | after a search, sort or order change the pager shows page 1; an empty search leaves `search` out of the query; the same code appears in the Dashboard page at lines 79-93 |
| WorkspacePages.RelativeAge | src/pages/Workspaces/index.tsx:155-170 | one started day gives 'вчера'; the same instant gives '0 дн. назад'; an invalid date prints 'NaN г. назад'; the same code appears in the Dashboard page at lines 124-139 |
| WorkspacePages.RelativeAgeMatchesShared | src/pages/Workspaces/index.tsx:161-164 | below 30 days, except for one day, the page label equals the shared label |
| WorkspacePages.RelativeAgeLongRanges | src/pages/Workspaces/index.tsx:165-166 | from 30 to 364 days, one to twelve months; from 365 on, floor(d/365) years |
| WorkspacePages.WorkspacesPage.constructor | src/pages/Workspaces/index.tsx:51-54 | the page starts with the default parameters, sorted by update date, descending |
| WorkspacePages.WorkspacesPage.Mount | src/pages/Workspaces/index.tsx:57-74 | the hook loads once, and the Workspaces page loads again iff `isAuthenticated()` holds (the Dashboard loads once); each load requests the current parameters, and the rows, total and toasts follow the loads' effects in order |
| WorkspacePages.WorkspacesPage.HandleSearch | src/pages/Workspaces/index.tsx:110-113 | the search text is stored, the search patch is merged into the parameters, one request is made for them, and the list follows its effect |
| WorkspacePages.WorkspacesPage.HandleSortChange | src/pages/Workspaces/index.tsx:115-118 | the sort field is stored and merged, one request is made for the new parameters, the list follows its effect, and the control keeps showing the requested sort |
| WorkspacePages.WorkspacesPage.HandleSortOrderChange | src/pages/Workspaces/index.tsx:120-124 | `sort_desc` becomes the negation of the current `sortDesc`, one request is made for the new parameters, and the list follows its effect |
| WorkspacePages.WorkspacesPage.HandlePageChange | src/pages/Workspaces/index.tsx:126-131 | after a page change the pager shows the chosen page; one request is made for the new parameters, and the list follows its effect |
| WorkspacePages.WorkspacesPage.HandleCreateModalOpen | src/pages/Workspaces/index.tsx:94 | the creation dialog opens |
| WorkspacePages.WorkspacesPage.HandleCreateWorkspace | src/pages/Workspaces/index.tsx:97-103 | the dialog closes iff creation succeeded; the list's requests, rows, total and toasts are those of the hook's creation; the same code appears in the Dashboard page at lines 66-72 |
| ScrollDirection.NextVisible | src/shared/hooks/useScrollDirection.ts:14-21 | visible when current < last or current < 100; hidden when current > last and current > 100; unchanged otherwise |
| ScrollDirection.HidesIffScrolledDownPastTop | src/shared/hooks/useScrollDirection.ts:14-20 | a visible header hides iff the page scrolled down past 100 |
| ScrollDirection.UnchangedCases | src/shared/hooks/useScrollDirection.ts:14-21 | current = last >= 100, and current = 100 > last, both leave visibility unchanged |
| ScrollDirection.HeaderVisibility.constructor | src/shared/hooks/useScrollDirection.ts:4-5 | the header starts visible with last position 0 |
| ScrollDirection.HeaderVisibility.HandleScroll | src/shared/hooks/useScrollDirection.ts:8-23 | visibility follows the transition rule; the last position becomes the current one; a hidden header always has a last position of at least 100 |

## Left out

- Network I/O: what each `fetch` or axios call settled to is a parameter. Login, registration and forgotten-password endpoint wrappers are not part of this model, nor are the `Workspaces.api.ts` wrappers.
- Library primitives are function parameters and are not themselves verified: `atob`, `JSON.parse`, `JSON.stringify`, `decodeURIComponent`, URL encoding and the `ru-RU` locale formats.
- `decodeURIComponent` throwing on a malformed escape is not modelled; the decoder is total.
- `Number()` and `parseInt` read only optionally signed decimal integers, after skipping white space as JavaScript does; fractions, exponents, hexadecimal and `Infinity` are not modelled.
- String lengths count code points, not UTF-16 code units.
- Lower-casing covers ASCII letters only; other letters keep their case. White space (`\s`, `trim`) is the full ECMAScript WhiteSpace and LineTerminator set.
- Time: `Date.now()` and `new Date()` are integer parameters.
- Date parsing is the caller's: an unparsable date arrives as `None`.
- Timers are out of scope: the login poll's interval, the delayed restore toast and the chat search debounce.
- Concurrency: each handler runs as one atomic step. Out of scope are the parallel deletions of `Promise.all`, an unmount during an in-flight request, and React's batching of state updates.
- Login.LoginPage.Block: both `Date.now()` reads in `block` are one instant, so the message always names 300 seconds.
- The temperature slider of the AI settings dialog works on floating-point numbers and is not modelled.
- The dialog's settings loading and saving are not modelled, because they are network I/O.
- `combineSystemMessages` is not part of this model, so no round trip between building and splitting a system message is stated.
- AiSettings.UserSystemMessage: with a divider, the contract states only that the result is trimmed; `UserPartRecovered` states the exact text, for messages laid out as prefix, divider, '---', user text.
- AiSettings.FormatTokens: the formatter is modelled on integers only; non-numeric field values are not.
- `ModelType`'s enum string values are not modelled; `Unlisted` stands for any other value.
- Chat page handlers outside the modelled set are not modelled:
  - loading and searching the chat list;
  - editing and saving a title;
  - restoring a chat;
  - statistics and chat info;
  - exporting;
  - clearing history.
- The chat file download in `Chat.api.ts` is not modelled.
- The `loading`, `creating` and `creatingChat` spinners are not modelled where nothing else reads them. In the workspace hook, both flags are left out.
- ChatPage.ChatPage.HandleSendMessage: a creation that resolves with a malformed body is not modelled; `created` is the created chat or `None`.
- ChatPage.ChatPage.HandleCreateChat: a creation reply that succeeds without a chat in its body is not modelled. The page then prepends `undefined` to the chat list, and reading `chat_id` of it throws, so the error toast follows. `created` is the created chat, or `None` when `createChat` threw.
- Numbers in response payloads are integers: the token's `exp` and `expires_at` and the listing's `total`. Fractional values are not modelled.
- Toast texts for chat deletion and creation are not modelled; only the state changes are.
- `isAuthenticated()` on the Workspaces page is a boolean parameter of `Mount`; `AuthApi.IsAuthenticated` computes it.
- `Api.Send`: axios' header-name case normalisation and the `baseURL` prefix are not modelled.
- Server-side `Set-Cookie` effects of the refresh and logout calls are not modelled.
- Cookies are assumed to be set with `path=/`, so the expired assignment removes them.
- `getErrorMessage` is a function parameter of the registration page, with no constraint: src/shared/api/api.handlers.ts exports only `handleApiResponse` and `handleApiError`, yet src/pages/Registration/index.tsx imports `getErrorMessage` from it (line 11) and calls it at lines 120 and 122. Its definition is not part of this model.
- Router navigation state, such as the message passed to `/` after registration, is not modelled; only the route is.
- Scroll positions are integers.
- The handlers of the Dashboard page are the same text as those of the Workspaces page and are modelled once, in `WorkspacePages`. The Dashboard's mount effect only logs, so it is `Mount` without the authentication check.
- JSX rendering, styling and theme configuration are not modelled.
