# Authenticated-user demo: a Dafny model

This project models the logic of a small demo application. In the frontend, a
user logs in, the session is kept in client state and cookies, and a profile
page loads and renames the user against a mocked authentication service. In the
backend, an AWS Lambda stores and serves user documents. Five pieces are
modelled, one Dafny module each:

- `MockHandlers` (`mock_handlers.dfy`): the mock service's request handlers. It
  is a class `MockServer` over the user table and the one current
  `(accessToken, refreshToken)` pair, with login, refresh, `GET /users/me` and
  `PUT /users/me`.
- `AuthContext` (`auth_context.dfy`): the client session store, a class
  `AuthProvider` over `user`, `accessToken`, `loading` and the cookie jar. It
  has `login`, `logout`, the initial load from cookies and `isAuthenticated`.
  `router.push` is a `Router` object that keeps the last navigation target.
- `ProfilePage` (`profile_page.dfy`): the `/me` page. The "refresh once, retry
  once" rule of `fetchProfile` and `handleUpdateName` is a pure decision from
  the first reply, the refresh outcome and the retry reply. The class `Page`
  executes that decision step by step over `userProfile`, `newName`, `error`,
  `message`, `editMode` and a log of the requests sent.
- `RouteGate` (`route_gate.dfy`): the Next.js middleware. It is a pure decision
  from the path and the cookies to "next" or a redirect to `/login`.
- `DocumentLambda` (`document_lambda.dfy`): the document Lambda. It covers the
  router, the payload checks, the S3 key, the path parser, and upload and get
  against S3 (a map from key to bytes) and DynamoDB (a set of metadata items).
  Failure flags say which store call raises a `ClientError`: the object and
  item writes of the upload, and the object read (any error other than
  `NoSuchKey`) and the query of the get.

Helper modules: `Wrappers` (Option, Result), `Identity` (the user record),
`Strings` (split/join on one character, decimal rendering, JavaScript `trim`
and truthiness), and `Base64`. `Base64` implements the encoder of section 4 of
RFC 4648 and the decoder of Python's non-validating `base64.b64decode`. That
decoder skips characters outside the alphabet, stops at complete padding, and
rejects a final quantum with one data character or with missing padding. The
module proves that decoding undoes encoding.

In these points the code does less than a session store usually does; the
model follows the code:

- `login` in the session store contacts no server. It builds a simulated user
  and token from the email and the clock, and ignores the password.
- On success, `login` sets `loading` and never clears it. Only the catch branch
  clears it.
- The session store keeps no refresh token, offers no refresh operation, and
  writes no cookie on login. Cookies are only read on load and removed on
  logout.
- The profile page calls a `refreshAccessToken` that the session store does not
  provide (see Findings).

Clock readings (`Date.now()`, `new Date().toISOString()`, `datetime.now`) are
parameters. Replies from the network are parameters, in the order the code
awaits them. The parse result of a JSON body is a parameter.

## Model

| member | source | states |
|---|---|---|
| MockHandlers.TokenFor | frontend/src/mocks/handlers.ts:30-31 | an issued token starts with its prefix, and the digits after `{prefix}{id}-` read back as the clock value |
| MockHandlers.AccessIsNotRefresh | frontend/src/mocks/handlers.ts:30-31 | no access token equals any refresh token |
| MockHandlers.AccessTokensDistinct | frontend/src/mocks/handlers.ts:30 | tokens issued to one user at different milliseconds differ |
| MockHandlers.IssuedTokenHasNoSpace | frontend/src/mocks/handlers.ts:30 | an issued access token has no space, so it survives the header split |
| MockHandlers.FindUser | frontend/src/mocks/handlers.ts:45 | the result is the first user whose email and password both equal the given ones; none means no user matches |
| MockHandlers.BearerToken | frontend/src/mocks/handlers.ts:82-83 | a second part exists exactly when a header is present and holds a space; that part holds no space |
| MockHandlers.Authorized | frontend/src/mocks/handlers.ts:85 | an accepted header holds a space and matches a stored token that is non-empty and has no space |
| MockHandlers.NothingAuthorizedBeforeLogin | frontend/src/mocks/handlers.ts:26 | while the stored token is `''`, no Authorization header is accepted |
| MockHandlers.BearerHeaderAccepted | frontend/src/mocks/handlers.ts:82-87 | the header `Bearer <t>` is accepted exactly when `t` is the stored token |
| MockHandlers.AuthorizedMeansCurrent | frontend/src/mocks/handlers.ts:101-106 | an accepted header's second space-separated part is the stored token, which is non-empty |
| MockHandlers.MockServer.constructor | frontend/src/mocks/handlers.ts:16-27 | one seeded test user; both tokens `''` |
| MockHandlers.MockServer.GenerateTokens | frontend/src/mocks/handlers.ts:29-35 | the stored pair becomes the returned pair |
| MockHandlers.MockServer.Login | frontend/src/mocks/handlers.ts:39-53 | with no exact email and password match: 401 "Invalid credentials" and tokens unchanged; otherwise the stored pair is fresh and returned |
| MockHandlers.MockServer.Refresh | frontend/src/mocks/handlers.ts:67-79 | 401 with tokens unchanged unless the presented token equals a non-empty stored refresh token; otherwise a new pair for the first user is stored and returned |
| MockHandlers.MockServer.GetMe | frontend/src/mocks/handlers.ts:81-98 | 401 unless authorized; otherwise the first user's id, email, name and createdAt, never the password |
| MockHandlers.MockServer.PutMe | frontend/src/mocks/handlers.ts:100-122 | authorization is checked before the name; an empty name is 400 with no change; otherwise only the first user's name changes |
| MockHandlers.RenameThenRead | frontend/src/mocks/handlers.ts:81-122 | a rename followed by a read returns the new name; other users and fields are unchanged |
| MockHandlers.LoginThenReadSeeded | frontend/src/mocks/handlers.ts:16-97 | the seeded user logs in, and the returned token reads the seeded profile |
| MockHandlers.WrongPasswordSeeded | frontend/src/mocks/handlers.ts:45-49 | a wrong password gives 401, both stored tokens stay `''`, and a bearer token that a login would have issued is refused |
| RouteGate.Middleware | frontend/middleware.ts:4-27 | next exactly for a path with prefix `/login` or `/api`, or a non-empty access-token cookie; a redirect keeps the URL with only the path set to `/login` |
| RouteGate.RefreshCookieIrrelevant | frontend/middleware.ts:5-6 | adding, changing or removing the refresh-token cookie never changes the decision |
| RouteGate.RedirectTargetPasses | frontend/middleware.ts:11-23 | the redirect target is itself let through with any cookies, so redirects never loop |
| RouteGate.ProtectedNeedsToken | frontend/middleware.ts:20-26 | on another path, a request passes exactly when the access-token cookie is present and non-empty |
| AuthContext.MockAccessToken | frontend/src/context/AuthContext.tsx:54 | the simulated token is non-empty, has no space, and starts with `mock-access-token-mock-user-id-` |
| AuthContext.AuthProvider.constructor | frontend/src/context/AuthContext.tsx:26-28 | no user, no token, loading |
| AuthContext.AuthProvider.Login | frontend/src/context/AuthContext.tsx:32-68 | empty email or password changes nothing; success stores the simulated user and token, leaves loading set and goes to `/dashboard`; the catch branch only clears loading |
| AuthContext.AuthProvider.Logout | frontend/src/context/AuthContext.tsx:70-78 | from any state: no user, no token, both cookies removed, target `/login` |
| AuthContext.AuthProvider.LoadInitialState | frontend/src/context/AuthContext.tsx:80-103 | both cookies set: the token comes from the cookie and the user is the fixed test user; otherwise user and token stay; loading ends false and cookies are untouched |
| AuthContext.AuthProvider.IsAuthenticated | frontend/src/context/AuthContext.tsx:108 | authenticated exactly when a non-empty access token is held |
| AuthContext.LoginAuthenticates | frontend/src/context/AuthContext.tsx:43-63 | after a login with non-empty fields the session is authenticated with a non-empty token and the user's email |
| AuthContext.LoadTwice | frontend/src/context/AuthContext.tsx:80-106 | a second load with the same cookies gives the state of the first, apart from createdAt |
| ProfilePage.FetchProfileFlow | frontend/src/app/me/page.tsx:29-69 | no token means no request; at most 2 profile requests and 1 refresh; a retry happens only after a 401 and a refresh that returned a token; a profile is loaded exactly from an ok JSON first reply or retry |
| ProfilePage.UnauthorizedTwiceLogsOut | frontend/src/app/me/page.tsx:39-57 | a 401 on the request and on the retry means 2 profile requests and 1 refresh, then logout |
| ProfilePage.FetchFailureLogsOut | frontend/src/app/me/page.tsx:52-68 | with a token, every outcome other than a loaded profile is logout |
| ProfilePage.AsWrittenFetchNeverRetries | frontend/src/app/me/page.tsx:15 | when `refreshAccessToken` is missing from the context, a 401 ends in logout with no refresh and no retry |
| ProfilePage.ServerError | frontend/src/app/me/page.tsx:130-133 | the error shown for another failed status is never empty |
| ProfilePage.PutFlow | frontend/src/app/me/page.tsx:92-137 | the untrimmed name is sent in every PUT; at most 2 PUTs and 1 refresh; a retry happens only after a 401 and a returned token; the update succeeds exactly on an ok JSON reply |
| ProfilePage.UpdateNameFlow | frontend/src/app/me/page.tsx:77-138 | a blank name is rejected before the token check, and neither rejection sends a request; the rest is `PutFlow` |
| ProfilePage.BlankNameRefusedFirst | frontend/src/app/me/page.tsx:82-85 | a name of white space only gives "Name cannot be empty." with no request, whatever the token |
| ProfilePage.UpdateAfter401 | frontend/src/app/me/page.tsx:102-124 | after a 401, an absent token or a failed retry each set their own error and send nothing more |
| ProfilePage.AsWrittenUpdateNeverRetries | frontend/src/app/me/page.tsx:103 | when `refreshAccessToken` is missing from the context, a 401 on update is "An unexpected error occurred during update." after one PUT |
| ProfilePage.Page.constructor | frontend/src/app/me/page.tsx:17-21 | no profile, empty name, message and error, not editing |
| ProfilePage.Page.RedirectEffect | frontend/src/app/me/page.tsx:23-27 | a settled, unauthenticated session goes to `/login`; otherwise nothing is pushed |
| ProfilePage.Page.FetchProfile | frontend/src/app/me/page.tsx:29-69 | the requests and the effect are those of `FetchProfileFlow`; a loaded profile also sets `newName` to its name; failures log out |
| ProfilePage.Page.FetchEffect | frontend/src/app/me/page.tsx:71-75 | the fetch runs only when authenticated with no profile yet; otherwise nothing changes; when it runs, the requests, profile, name and session are those of `FetchProfileFlow`, and edit mode, message and error are kept |
| ProfilePage.Page.HandleUpdateName | frontend/src/app/me/page.tsx:77-138 | error and message are cleared first; the outcome of `UpdateNameFlow` is shown; success sets the profile and message and leaves edit mode; it never logs out |
| ProfilePage.Page.GuardAndSend | frontend/src/app/me/page.tsx:82-137 | for the session's token, the guards, requests and outcome of an update are those of `UpdateNameFlow`; the page's other fields are untouched |
| ProfilePage.Page.SendChecked | frontend/src/app/me/page.tsx:92-137 | once the name is not blank and the token is non-empty (the guards at lines 82-90), the requests and outcome are those of `UpdateNameFlow` |
| ProfilePage.Page.SendUpdate | frontend/src/app/me/page.tsx:92-137 | the requests and outcome after the guards are those of `PutFlow` |
| ProfilePage.Page.Show | frontend/src/app/me/page.tsx:114-132 | a failure sets only the error; a success sets the profile and message and leaves edit mode |
| Strings.Split | backend/lambdas/lambda_function.py:110 | at least one part, and no part holds the separator |
| Strings.JoinSplit | backend/lambdas/lambda_function.py:110 | joining the parts with the separator gives back the string |
| Strings.SplitJoin | backend/lambdas/lambda_function.py:110 | splitting a join of separator-free parts gives back the parts |
| Strings.SplitCount | frontend/src/mocks/handlers.ts:83 | there is one part more than there are separators |
| Strings.DecimalRoundTrip | frontend/src/mocks/handlers.ts:30 | the decimal rendering of `Date.now()` reads back as the same number |
| Strings.Trim | frontend/src/app/me/page.tsx:82 | the result is a contiguous piece of the string, with no white space at either end |
| Strings.TrimDropsOnlyWhitespace | frontend/src/app/me/page.tsx:82 | every character `trim` drops, before or after the part it keeps, is white space |
| Strings.TrimEmptyIffBlank | frontend/src/app/me/page.tsx:82 | `!s.trim()` holds exactly for strings of white space only |
| Base64.Encode | backend/lambdas/lambda_function.py:145 | four alphabet or pad characters per started group of three bytes |
| Base64.Decode | backend/lambdas/lambda_function.py:52 | text with a non-ASCII character fails with that error and nothing else does; a decoding has at most one byte per character |
| Base64.DecodeEncode | backend/lambdas/lambda_function.py:145 | decoding an encoding gives back exactly the bytes |
| Base64.DecodeWithoutPadding | backend/lambdas/lambda_function.py:52 | text without `=` decodes exactly when its alphabet characters fill whole quanta; one character too many is `ExcessDataCharacter`, two or three are `IncorrectPadding` |
| Base64.RejectsExcessCharacter | backend/lambdas/lambda_function.py:51-57 | ASCII text without `=` whose alphabet characters are one more than a multiple of four is rejected |
| Base64.SkippedOnlyDecodesToEmpty | backend/lambdas/lambda_function.py:52 | text made only of skipped characters decodes to no bytes |
| Base64.DecodeIgnoresForeign | backend/lambdas/lambda_function.py:52 | an ASCII character outside the alphabet and other than `=`, inserted anywhere, leaves the result unchanged, errors included |
| DocumentLambda.PutItemKeepsKeysUnique | backend/lambdas/lambda_function.py:79-80 | with a unique primary key (user, upload time) before the write, it stays unique; the item is the only one under its key; the table grows by at most one; writing the item again changes nothing |
| DocumentLambda.MatchingAfterPut | backend/lambdas/lambda_function.py:80-129 | after a write, a query for the item's user and type finds it and every earlier match under another key; queries for other users or types find nothing new |
| DocumentLambda.IsoDate | backend/lambdas/lambda_function.py:59 | the date part holds no `T` |
| DocumentLambda.IsoDateLength | backend/lambdas/lambda_function.py:59 | a valid date renders in ten characters |
| DocumentLambda.IsoTimestamp | backend/lambdas/lambda_function.py:59-60 | the timestamp starts with the calendar date and `T` and ends in `Z`; the text before `T` is the calendar date, so the time of day never reaches the key |
| DocumentLambda.S3Key | backend/lambdas/lambda_function.py:60 | the key is the user id, `/`, the date, `_`, the type and `.pdf`, each piece recoverable at its position |
| DocumentLambda.S3KeyUserSegment | backend/lambdas/lambda_function.py:60 | for a user id without `/`, the user id is the key's first path segment |
| DocumentLambda.SameDaySameKey | backend/lambdas/lambda_function.py:59-60 | one user's uploads of one type on one day share a key |
| DocumentLambda.RouteOf | backend/lambdas/lambda_function.py:17-33 | upload exactly for POST on `/documents`; get exactly for GET with prefix `/documents/`; a GET without a path raises; everything else is 404 |
| DocumentLambda.RoutesDisjoint | backend/lambdas/lambda_function.py:25-27 | `/documents` itself never routes to get |
| DocumentLambda.Upload | backend/lambdas/lambda_function.py:35-103 | the status is 200, 400 or 500; 200 exactly for a well-formed payload with no store failure; a 400 writes nothing; the table changes only on 200; S3 changes only for a well-formed payload whose object write succeeds, and only at the upload's key |
| DocumentLambda.RejectedWritesNothing | backend/lambdas/lambda_function.py:40-57 | a non-JSON body, a missing or empty field, or undecodable content gives its 400 message with no store writes; a non-object body gives 500 |
| DocumentLambda.UploadWrites | backend/lambdas/lambda_function.py:59-91 | S3 is written before the table; an S3 failure writes nothing; a table failure leaves the object; success stores both and returns the key |
| DocumentLambda.SameDayOverwrites | backend/lambdas/lambda_function.py:59-64 | a same-day upload of the same type replaces the stored bytes |
| DocumentLambda.ParseDocumentPath | backend/lambdas/lambda_function.py:110-117 | a path parses exactly when it splits into at least four parts |
| DocumentLambda.ParseBuiltPath | backend/lambdas/lambda_function.py:110-117 | `/documents/{u}/{t}` reads back as `u` and `t` |
| DocumentLambda.ExtraSegmentsIgnored | backend/lambdas/lambda_function.py:116-117 | segments after the fourth part do not change the result |
| DocumentLambda.ShortPathRefused | backend/lambdas/lambda_function.py:111-115 | `/documents/{u}` has too few parts |
| DocumentLambda.UserOnlyPathRefused | backend/lambdas/lambda_function.py:110-115 | a get of `/documents/{u}` answers 400 "Ruta inválida" before any store is read |
| DocumentLambda.Serve | backend/lambdas/lambda_function.py:138-170 | a failed object read (an error other than `NoSuchKey`) gives 500 "Error al recuperar el documento de S3."; otherwise a missing object gives 404 "Archivo en S3 no encontrado, pero la metadata existe."; 200 exactly when the read succeeds and the object exists, and then the body carries the item's upload time and base64 that decodes to the stored bytes |
| DocumentLambda.GetFailures | backend/lambdas/lambda_function.py:119-177 | for any stores and a parsed path: a failed query gives 500 "Error interno del servidor." (the outer handler, :172-177); no matching metadata gives 404 "Documento no encontrado."; a failed object read gives 500 with its own message; and without faults the two 404s are told apart by whether any metadata matched |
| DocumentLambda.GetAllows | backend/lambdas/lambda_function.py:105-177 | an allowed answer is 200, 400, 404 or 500; 400 exactly for a path of fewer than four parts; a 200 names the parsed user and type and decodes to the stored bytes of a matching item with the same upload time |
| DocumentLambda.GetAfterUpload | backend/lambdas/lambda_function.py:105-170 | after a successful upload with no earlier item of that user and type, get answers 200 with base64 of exactly the uploaded bytes |
| DocumentLambda.GetWithObjectGone | backend/lambdas/lambda_function.py:146-152 | metadata present but the object missing gives 404 "Archivo en S3 no encontrado" |
| DocumentLambda.EmptyStoresScenario | backend/lambdas/lambda_function.py:132-136 | with nothing uploaded, a get answers 404 "Documento no encontrado." |
| DocumentLambda.GetAlwaysAnswers | backend/lambdas/lambda_function.py:105-177 | every request has an allowed answer |
| DocumentLambda.ExcessCharacterRefused | backend/lambdas/lambda_function.py:51-57 | content with one alphabet character too many is refused with 400 "Payload inválido" and nothing is written |
| DocumentLambda.OlderUploadMayBeServed | backend/lambdas/lambda_function.py:119-129 | as written, get may serve an older upload of the same type |
| DocumentLambda.LatestIsAllowed | backend/lambdas/lambda_function.py:119-139 | serving the latest item is one of the answers the code may give |
| DocumentLambda.LatestGetAfterUpload | backend/lambdas/lambda_function.py:119-170 | with the intended order, the upload that sorts last is what get serves |
| DocumentLambda.DocumentService.constructor | backend/lambdas/lambda_function.py:13-15 | empty bucket and table with the given failure flags |
| DocumentLambda.DocumentService.UploadDocument | backend/lambdas/lambda_function.py:35-103 | the response and the new stores are those of `Upload` |
| DocumentLambda.DocumentService.GetDocument | backend/lambdas/lambda_function.py:105-177 | the answer is one that `GetAllows` admits: 400 for a short path, 500 on a query error, 404 with no item, else the served item |
| DocumentLambda.DocumentService.Handler | backend/lambdas/lambda_function.py:17-33 | upload changes the stores as `Upload` says; every other route leaves them unchanged; an unknown route is 404 "Not Found"; a GET without a path raises |

## Left out

- Logging (`console.log`, `print`), JSX rendering, and the mock service worker's bootstrapping and app wiring.
- The `/dashboard` and `/login` GET mock handlers: they return fixed messages and touch no state.
- The middleware's `config.matcher` pattern, which decides which requests reach the middleware.
- JSON decoding is an input. A body field that is present but not a string (a number, say) is not modelled. The three upload fields are strings or absent.
- DynamoDB's rejection of an empty key attribute (a get of `/documents//x`) is not modelled. Any query error is the `dynamoQuery` fault flag.
- `ClientError` details beyond "missing key" and "other error" are not modelled.
- Exceptions other than `ClientError` from `put_object`, `put_item` or `get_object` are not modelled: a store call either succeeds or raises a `ClientError`. The outer handlers would answer such an exception with 500 "Error interno del servidor." (`backend/lambdas/lambda_function.py:98-103` and `:172-177`). The upload's only such 500 in the model is a body that is not a JSON object.
- The `headers` of the 200 reply to a get (`Content-Type: application/json`) are not modelled. A `Response` holds the status and the body only.
- A mock-handler request body on which `request.json()` throws (login, refresh and `PUT /users/me`) is not modelled. The handlers receive the parsed fields, so a malformed body never reaches them.
- The order in which a DynamoDB query returns items is not modelled. A get may serve any matching item (see Findings).
- Concurrency between React effects is not modelled. Each operation runs to completion.
- The UTF-8 text of the test documents is not modelled. Documents are byte sequences.
- AuthContext.AuthProvider.Login: the catch branch is reached through a clock reading of `None`. In practice `new Date().toISOString()` does not throw.

## Findings

| source | as written | input that shows it | evidently intended | confidence | as-written member | corrected member |
|---|---|---|---|---|---|---|
| frontend/src/app/me/page.tsx:15 | `refreshAccessToken` comes from a context that does not provide it, so calling it throws and `fetchProfile` logs out | any 401 from `GET /users/me` | refresh once and retry once, then log out | high, not executed | ProfilePage.AsWrittenFetchNeverRetries | ProfilePage.UnauthorizedTwiceLogsOut |
| frontend/src/app/me/page.tsx:103 | the same missing `refreshAccessToken` makes an unauthorized update report an unexpected error | any 401 from `PUT /users/me` | refresh once and retry once, with a specific error on failure | high, not executed | ProfilePage.AsWrittenUpdateNeverRetries | ProfilePage.UpdateAfter401 |
| backend/lambdas/lambda_function.py:119-129 | the query for "the latest" document sorts on `DocumentTypeIndex`, whose range key is `document_type`, the same for every match | two uploads of one type by one user on different days | serve the item with the latest `uploaded_at` | medium, not executed | DocumentLambda.OlderUploadMayBeServed | DocumentLambda.LatestGetAfterUpload |
