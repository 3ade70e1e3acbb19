# GitHub authenticator dialog, modelled in Dafny

This project models the core of `GithubAuthenticatorDialog`, an Android dialog that runs
the client side of GitHub's OAuth 2.0 authorization-code grant (section 4.1 of RFC 6749).
The model covers:

- **The construction check.** The application id, the application secret and the
  anti-forgery `state` must each contain a non-whitespace character. `trim()` and
  `isWhitespace()` are modelled exactly, Kotlin's whitespace set included.
- **The redirect classifier `onUrlChanged`.** For each URL the web view visits, it
  either ignores the URL, reports a state mismatch, reports GitHub's `error`, or
  launches the code exchange. The dialog is dismissed after each of the last three.
- **The code-exchange dispatch in `requestToken`.** This covers the request body,
  "status 200 goes to the parser", and "any other status becomes
  `Error(responseMessage, null)`".
- **`Parser.parseCodeExchangeResponse`.** An `access_token` gives a token whose scope is
  the exact `split(",")` of `scope`. Otherwise the result is `Error(error, json)`.

Modules, leaf first:

- `Wrappers`: `Option` (Kotlin's nullable values) and `Result`.
- `Text`: `trim`, `contains`, one-character `split` and `joinToString`.
- `Uri`: `Uri.getQueryParameter` without percent-decoding. The query runs from the first
  `?` to the `#`. It is cut at `&`, each name ends at its first `=`, and the first match
  wins.
- `Parser`: `GithubAuthToken`, `GitHubAuthResult`, a small JSON value type and the
  response parser.
- `GithubAuthenticator`: the credentials check, the URL classifier, the effects of a URL
  and of a finished exchange, and the class `GithubAuthenticatorDialog`.
- `Scenarios`: concrete token-endpoint answers.

The class records everything it does in a `trace` of events:

- `Delivered(result)` is `onProcessFinished(result)`.
- `ExchangeLaunched(code)` is the coroutine launch of `requestToken(code)`.
- `Dismissed` is `dialog?.dismiss()` on a dialog that exists.
- `Fault(kind)` is an exception that escapes, so nothing is delivered.

`dialogShown` stands for `dialog != null`. `CreateDialog` (`onCreateDialog`) sets it.

### Where the Kotlin code and the intended flow differ

The model follows the code in each of these cases:

- **No "finished" guard.** The class has no concluded flag, so a second terminal URL
  delivers a second result. `RepeatedRedirectDeliversTwice` proves this. Nothing in the
  model claims at-most-once delivery.
- **Delivery order.** The callback is invoked first and `dismiss()` runs afterwards in
  `finally`. So for a mismatch or a provider error, `Delivered` comes before `Dismissed`.
- **Malformed token response.** A 200 body with neither `access_token` nor `error`, or
  with a non-string field, makes the Kotlin code throw. The model returns `Malformed`
  (`Fault(MalformedResponse)` in the trace). It never builds a partial token and never
  delivers anything in that case.
- **Missing `code` parameter.** A URL can contain `code=` only inside another name, as
  in `?xcode=1&state=S`. If its state matches, `getQueryParameter("code")!!` throws.
  The model classifies it as `MissingCode` (`Fault(CodeParameterMissing)`) and still
  dismisses the dialog.
- **Absent `state` parameter.** It compares unequal, and the message shows it as
  `obtained "null"`, as Kotlin's string template does.

## Model

| member | source | states |
|---|---|---|
| `Text.LeadingWhitespace` | AndroidAuthenticator/src/main/java/dev/danielprado/androidauthenticator/GithubAuthenticator.kt:32 | the count is the longest all-whitespace prefix: every earlier char is whitespace and the next one is not |
| `Text.TrailingWhitespace` | AndroidAuthenticator/src/main/java/dev/danielprado/androidauthenticator/GithubAuthenticator.kt:32 | the count is the longest all-whitespace suffix |
| `Text.Trim` | AndroidAuthenticator/src/main/java/dev/danielprado/androidauthenticator/GithubAuthenticator.kt:32 | `trim()` (whitespace as `Text.IsWhitespace` defines it, Kotlin's `Char.isWhitespace`) is empty exactly when the string is all whitespace; otherwise it starts and ends with a non-whitespace char. The string is that result with whitespace only before and after it |
| `Text.TrimUnique` | AndroidAuthenticator/src/main/java/dev/danielprado/androidauthenticator/GithubAuthenticator.kt:32 | a non-empty core that starts and ends with a non-whitespace char and has only whitespace around it is exactly what `trim()` returns |
| `Text.ContainsIff` | AndroidAuthenticator/src/main/java/dev/danielprado/androidauthenticator/GithubAuthenticator.kt:87 | `contains(sub)` (`Text.Contains`) holds exactly when `sub` starts at some index of the string |
| `Text.ContainsAt` | AndroidAuthenticator/src/main/java/dev/danielprado/androidauthenticator/GithubAuthenticator.kt:105 | a substring found at a given index makes `contains` true |
| `Text.Split` | AndroidAuthenticator/src/main/java/dev/danielprado/androidauthenticator/GithubAuthenticator.kt:146 | `split(",")` has (number of commas + 1) parts, no part holds a comma, and joining the parts with `,` gives back the string |
| `Text.SplitOfJoin` | AndroidAuthenticator/src/main/java/dev/danielprado/androidauthenticator/GithubAuthenticator.kt:146 | splitting a join of comma-free parts gives back exactly those parts |
| `Uri.Query` | AndroidAuthenticator/src/main/java/dev/danielprado/androidauthenticator/GithubAuthenticator.kt:88 | a URL has a query exactly when a `?` comes before any `#`, and the query is the text between that first `?` and the `#` |
| `Uri.Lookup` | AndroidAuthenticator/src/main/java/dev/danielprado/androidauthenticator/GithubAuthenticator.kt:89 | a parameter is found exactly when some segment has that name, and its value is the value of the first such segment |
| `Uri.QueryParameterOfBuiltUrl` | AndroidAuthenticator/src/main/java/dev/danielprado/androidauthenticator/GithubAuthenticator.kt:88-89 | in `base?n1=v1&n2=v2&...` with unescaped names and values, `getQueryParameter(name)` (`Uri.QueryParameter`, also used at lines 93 and 107-108) is the value of the first pair with that name |
| `Parser.StringField` | AndroidAuthenticator/src/main/java/dev/danielprado/androidauthenticator/GithubAuthenticator.kt:145-151 | `obj[key] as String` succeeds exactly when the key is present with a string value, and yields that string |
| `Parser.ParseCodeExchangeResponse` | AndroidAuthenticator/src/main/java/dev/danielprado/androidauthenticator/GithubAuthenticator.kt:140-155 | `Success` exactly when `access_token`, `scope` and `token_type` are strings. The token carries those values, and its scope is the exact comma split (count + 1 parts, rejoins to `scope`). `Error` exactly when `access_token` is absent and `error` is a string; it then carries `error` and the whole text. Everything else is `Malformed`, never a partial token |
| `Parser.ParseOfIssuedToken` | AndroidAuthenticator/src/main/java/dev/danielprado/androidauthenticator/GithubAuthenticator.kt:143-148 | a response whose `scope` is the comma-join of some comma-free names parses to the token with exactly those names, value and type |
| `GithubAuthenticator.CheckCredentials` | AndroidAuthenticator/src/main/java/dev/danielprado/androidauthenticator/GithubAuthenticator.kt:31-34 | construction fails, with the `init` message, exactly when the id, the secret or the state is all whitespace (each position on its own) |
| `GithubAuthenticator.LoginUrlParameters` | AndroidAuthenticator/src/main/java/dev/danielprado/androidauthenticator/GithubAuthenticator.kt:48 | the login URL `LoginUrl` hands GitHub `client_id`, `state` and `allow_signup=false` unchanged, provided neither the id nor the state holds `&` or `#`: they are interpolated without URL encoding |
| `GithubAuthenticator.Classify` | AndroidAuthenticator/src/main/java/dev/danielprado/androidauthenticator/GithubAuthenticator.kt:83-117 | Ignored exactly when the URL is empty or has neither (`code=` and `state=`) nor `error=`. The exchange starts exactly for a code redirect whose `state` equals the expected state and which has a `code`, and it uses that code. A code redirect with another or absent state gives the exact mismatch message (`StateMismatchReason`, line 97). Otherwise `error=` gives `"<error>: <description>"` with the `"Error"` / `"Unknown reason"` defaults (`ProviderErrorReason`, lines 107-110). Every result carries the URL and is never `Success` |
| `GithubAuthenticator.UrlEffects` | AndroidAuthenticator/src/main/java/dev/danielprado/androidauthenticator/GithubAuthenticator.kt:87-116 | an ignored URL has no effect. Otherwise the URL delivers exactly one result if it finishes (else none) and launches exactly one exchange if it starts one (else none). The dismissal happens exactly when a dialog exists, and it comes last. Nothing else happens: one effect, plus one dismissal when a dialog exists |
| `GithubAuthenticator.CountsOfConcat` | AndroidAuthenticator/src/main/java/dev/danielprado/androidauthenticator/GithubAuthenticator.kt:96-110 | deliveries and launches of two runs of effects add up |
| `GithubAuthenticator.RepeatedRedirectDeliversTwice` | AndroidAuthenticator/src/main/java/dev/danielprado/androidauthenticator/GithubAuthenticator.kt:30 | with no finished flag, the same terminal URL seen twice delivers two results |
| `GithubAuthenticator.CodeRedirectParameters` | AndroidAuthenticator/src/main/java/dev/danielprado/androidauthenticator/GithubAuthenticator.kt:87-89 | `base?code=C&state=S` passes the substring test and its `code` and `state` parameters are C and S |
| `GithubAuthenticator.MatchingStateStartsExchange` | AndroidAuthenticator/src/main/java/dev/danielprado/androidauthenticator/GithubAuthenticator.kt:91-94 | a redirect carrying the expected state starts the exchange with its code |
| `GithubAuthenticator.OtherStateIsRejected` | AndroidAuthenticator/src/main/java/dev/danielprado/androidauthenticator/GithubAuthenticator.kt:95-99 | a redirect carrying another state yields `Error("State doesn't match: obtained \"S2\" but required \"S1\"", url)` and no exchange |
| `GithubAuthenticator.CodeOnlyInsideAnotherName` | AndroidAuthenticator/src/main/java/dev/danielprado/androidauthenticator/GithubAuthenticator.kt:93 | `base?xcode=V&state=S` with S expected passes the `code=` test but has no `code` parameter, so it reaches the missing-code fault |
| `GithubAuthenticator.ErrorRedirectParameters` | AndroidAuthenticator/src/main/java/dev/danielprado/androidauthenticator/GithubAuthenticator.kt:105-108 | `base?error=E&error_description=D` passes the `error=` test and its parameters are E and D |
| `GithubAuthenticator.ErrorRedirectIsReported` | AndroidAuthenticator/src/main/java/dev/danielprado/androidauthenticator/GithubAuthenticator.kt:105-110 | an error redirect that is not a code redirect reports `"<error>: <description>"` with the URL |
| `GithubAuthenticator.ProviderErrorIsReported` | AndroidAuthenticator/src/main/java/dev/danielprado/androidauthenticator/GithubAuthenticator.kt:105-114 | a denial redirect reports `"E: D"` with the URL |
| `GithubAuthenticator.ExchangeReply` | AndroidAuthenticator/src/main/java/dev/danielprado/androidauthenticator/GithubAuthenticator.kt:71-75 | a status other than 200 gives `Error(responseMessage, null)` whatever the body and the JSON reader; status 200 gives exactly the parser's result |
| `GithubAuthenticator.ExchangeEffects` | AndroidAuthenticator/src/main/java/dev/danielprado/androidauthenticator/GithubAuthenticator.kt:77-79 | a parsed reply is delivered exactly once; a malformed one is a fault with no delivery |
| `GithubAuthenticator.GithubAuthenticatorDialog.constructor` | AndroidAuthenticator/src/main/java/dev/danielprado/androidauthenticator/GithubAuthenticator.kt:22-34 | a dialog whose credentials passed `init` starts with no dialog shown and an empty trace, and keeps `Valid()` (the `init` check holds for its fields) |
| `GithubAuthenticator.GithubAuthenticatorDialog.Create` | AndroidAuthenticator/src/main/java/dev/danielprado/androidauthenticator/GithubAuthenticator.kt:31-34 | construction throws the `init` message exactly when one credential is all whitespace; otherwise it returns a fresh, `Valid()` dialog holding the three strings |
| `GithubAuthenticator.GithubAuthenticatorDialog.CreateDialog` | AndroidAuthenticator/src/main/java/dev/danielprado/androidauthenticator/GithubAuthenticator.kt:39-48 | after `onCreateDialog` the dialog exists and the web view loads the login URL; the trace is untouched |
| `GithubAuthenticator.GithubAuthenticatorDialog.RequestBody` | AndroidAuthenticator/src/main/java/dev/danielprado/androidauthenticator/GithubAuthenticator.kt:56-60 | the request body has exactly the keys `client_id`, `client_secret` and `code`, holding the id, the secret and the code |
| `GithubAuthenticator.GithubAuthenticatorDialog.OnUrlChanged` | AndroidAuthenticator/src/main/java/dev/danielprado/androidauthenticator/GithubAuthenticator.kt:83-117 | the trace grows by exactly the effects of the classified URL; nothing else changes |
| `GithubAuthenticator.LaunchedCodeIsPending` | AndroidAuthenticator/src/main/java/dev/danielprado/androidauthenticator/GithubAuthenticator.kt:92-93 | after a URL starts an exchange, the launch for its code is in the trace, so `requestToken` may run for it |
| `GithubAuthenticator.GithubAuthenticatorDialog.RequestToken` | AndroidAuthenticator/src/main/java/dev/danielprado/androidauthenticator/GithubAuthenticator.kt:54-79 | `requestToken(code)` runs only for a launched code, posts exactly `RequestBody(code)`, and the trace grows by exactly the effects of the endpoint's reply |
| `Scenarios.TokenResponse` | AndroidAuthenticator/src/main/java/dev/danielprado/androidauthenticator/GithubAuthenticator.kt:143-148 | `{"access_token":"tok123","scope":"repo,user","token_type":"bearer"}` parses to the token `tok123` with scopes `repo`, `user` and type `bearer` |
| `Scenarios.TrailingCommaScope` | AndroidAuthenticator/src/main/java/dev/danielprado/androidauthenticator/GithubAuthenticator.kt:146 | a trailing comma gives an empty last scope |
| `Scenarios.ErrorResponse` | AndroidAuthenticator/src/main/java/dev/danielprado/androidauthenticator/GithubAuthenticator.kt:150-153 | a 200 body holding only `error` becomes that error, carrying the whole body |
| `Scenarios.NotFoundResponse` | AndroidAuthenticator/src/main/java/dev/danielprado/androidauthenticator/GithubAuthenticator.kt:71-75 | a 404 becomes `Error("Not Found", null)` for every body |

## Left out

- **Android UI.** `onCreateDialog` builds an AlertDialog and configures the WebView and
  JavaScript; none of that is modelled. It is reduced to `dialogShown` plus the login
  URL. `doUpdateVisitedHistory` is reduced to calls of `OnUrlChanged` (a null URL
  arrives as "").
- **Coroutines and dispatchers.** `Dispatchers.Main`, `Dispatchers.IO` and
  `withContext` are not modelled. The launch is recorded as `ExchangeLaunched` in
  program order, before the dismissal. The exchange's end is a separate call,
  `RequestToken`, made by the environment for a code already launched. Two things follow:
  - In the Kotlin code the `!!` fault is raised inside the launched coroutine, after
    the dismissal. The model records it where the launch would be.
  - Interleavings across threads are not modelled.
- **Network I/O.**
  - The `HttpsURLConnection` POST and its headers are left out. The endpoint URL is
    kept as the constant `CodeExchangeUrl`.
  - `readStream` is left out. The body is given as a string; `readStream` joins the
    body's lines without their line terminators.
  - Transport exceptions escape the coroutine in the Kotlin code and deliver nothing.
    The model has no event for them.
- **`LoginUrlParameters`: URL encoding of the login parameters.** The id and the state are interpolated
  into the login URL without encoding. The model states what reaches GitHub only when they hold no `&` or
  `#`. A state holding `&` or `#` (or `%` or `+`, once GitHub decodes it) comes back different, so every
  later redirect reports a state mismatch. The model does not cover that case.
- **org.json.** Reading the JSON text (`JSONObject(text)`) is a parameter: the text
  together with the object it yields, or None where it throws. Serialising the request
  body is reduced to a map from keys to strings. Arrays and nested objects in a
  response are one opaque `JNested` value.
- **`Uri` details.** `getQueryParameter` percent-decodes the value and turns `+` into a
  space; the model returns the raw text. Opaque URIs (where it throws) and the encoding
  of the key are left out; the keys used here are unchanged by encoding.
- **`GithubAuthenticatorDialog.constructor`.** It requires the credentials check to have
  passed. The throwing path is `GithubAuthenticatorDialog.Create` and `CheckCredentials`.
- **The demo app.** `MainActivity` (activity lifecycle, a button handler, logging) is
  not part of this model.
