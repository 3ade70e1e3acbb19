/**
 * `GithubAuthenticatorDialog`: the client side of GitHub's OAuth 2.0
 * authorization-code grant (section 4.1 of RFC 6749).
 *
 * The dialog is a class whose observable effects (invoking the
 * `onProcessFinished` callback, launching the code exchange, dismissing the
 * dialog) are appended to a trace. Which effects one navigated URL causes is
 * decided by the pure functions `Classify` and `UrlEffects`; what the finished
 * exchange delivers is decided by `ExchangeReply`.
 */
module GithubAuthenticator {
  import opened Wrappers
  import opened Text
  import opened Uri
  import opened Parser

  const LoginUrlBase := "https://github.com/login/oauth/authorize"
  const CodeExchangeUrl := "https://github.com/login/oauth/access_token"
  const EmptyCredentialsMessage := "applicationId/applicationSecret/state cannot be empty"

  // ---------------------------------------------------------------------------
  // Construction check
  // ---------------------------------------------------------------------------

  /**
   * The `init` block: the message of the IllegalArgumentException thrown when
   * the application id, the application secret or the state is empty after
   * `trim()`, i.e. consists of whitespace only; None when construction goes on.
   */
  function CheckCredentials(state: string, applicationId: string, applicationSecret: string): (error: Option<string>)
    ensures error.Some? <==> AllWhitespace(applicationId) || AllWhitespace(applicationSecret) || AllWhitespace(state)
    ensures error.Some? ==> error.value == EmptyCredentialsMessage
  {
    if Trim(applicationId) == [] || Trim(applicationSecret) == [] || Trim(state) == [] then
      Some(EmptyCredentialsMessage)
    else
      None
  }

  /** The page the dialog's web view loads first. */
  function LoginUrl(applicationId: string, state: string): string {
    LoginUrlBase + "?client_id=" + applicationId + "&state=" + state + "&allow_signup=false"
  }

  /** The query pairs of the login page. */
  function LoginPairs(applicationId: string, state: string): seq<(string, string)> {
    [("client_id", applicationId), ("state", state), ("allow_signup", "false")]
  }

  lemma LoginUrlIsBuilt(applicationId: string, state: string)
    ensures LoginUrl(applicationId, state) == LoginUrlBase + "?" + BuildQuery(LoginPairs(applicationId, state))
  {
    var pairs := LoginPairs(applicationId, state);
    var tail := "state=" + state + "&allow_signup=false";
    assert BuildQuery(pairs[1..]) == tail by {
      BuildQuerySingle(pairs[2]);
      BuildQueryCons(pairs[1], [pairs[2]]);
      assert pairs[1..] == [pairs[1]] + [pairs[2]];
    }
    assert BuildQuery(pairs) == "client_id=" + applicationId + "&" + tail by {
      BuildQueryCons(pairs[0], pairs[1..]);
      assert pairs == [pairs[0]] + pairs[1..];
    }
  }

  lemma LoginUrlParameter(applicationId: string, state: string, name: string)
    requires '&' !in applicationId && '#' !in applicationId
    requires '&' !in state && '#' !in state
    ensures QueryParameter(LoginUrl(applicationId, state), name) == FirstValue(LoginPairs(applicationId, state), name)
  {
    var pairs := LoginPairs(applicationId, state);
    assert PlainPairs(pairs);
    assert '?' !in LoginUrlBase && '#' !in LoginUrlBase;
    LoginUrlIsBuilt(applicationId, state);
    QueryParameterOfBuiltUrl(LoginUrlBase, pairs, name);
  }

  /** The login page hands GitHub the application id and the state as they are. */
  lemma LoginUrlParameters(applicationId: string, state: string)
    requires '&' !in applicationId && '#' !in applicationId
    requires '&' !in state && '#' !in state
    ensures QueryParameter(LoginUrl(applicationId, state), "client_id") == Some(applicationId)
    ensures QueryParameter(LoginUrl(applicationId, state), "state") == Some(state)
    ensures QueryParameter(LoginUrl(applicationId, state), "allow_signup") == Some("false")
  {
    var url, pairs := LoginUrl(applicationId, state), LoginPairs(applicationId, state);
    assert QueryParameter(url, "client_id") == Some(applicationId) by {
      LoginUrlParameter(applicationId, state, "client_id");
    }
    assert QueryParameter(url, "state") == Some(state) by {
      LoginUrlParameter(applicationId, state, "state");
    }
    assert QueryParameter(url, "allow_signup") == Some("false") by {
      LoginUrlParameter(applicationId, state, "allow_signup");
      assert pairs[1..][1..] == [("allow_signup", "false")];
      assert FirstValue(pairs[1..], "allow_signup") == FirstValue(pairs[1..][1..], "allow_signup");
    }
  }

  // ---------------------------------------------------------------------------
  // Redirect-URL classifier (`onUrlChanged`)
  // ---------------------------------------------------------------------------

  /** What `onUrlChanged` decides to do with one URL. */
  datatype UrlAction =
    | Ignore                                    // not a redirect the dialog reacts to
    | StartExchange(code: string)               // launch `requestToken(code)`
    | MissingCode                               // state matched but `getQueryParameter("code")!!` is null
    | Finish(result: GitHubAuthResult)          // invoke `onProcessFinished(result)` now

  /** The URL looks like a successful redirect: it mentions both `code=` and `state=`. */
  predicate IsCodeRedirect(url: string) {
    Contains(url, "code=") && Contains(url, "state=")
  }

  /** The URL looks like a denied authorization: it mentions `error=`. */
  predicate IsErrorRedirect(url: string) {
    Contains(url, "error=")
  }

  /** Kotlin's string template of a `String?`: a null shows as "null". */
  function Show(v: Option<string>): string {
    v.GetOr("null")
  }

  /** The reason reported when the redirect's state is not the one the dialog was built with. */
  function StateMismatchReason(obtained: Option<string>, expected: string): string {
    "State doesn't match: obtained \"" + Show(obtained) + "\" but required \"" + expected + "\""
  }

  /** The reason reported for an `error=` redirect, with "Error" and "Unknown reason" for absent parameters. */
  function ProviderErrorReason(url: string): string {
    QueryParameter(url, "error").GetOr("Error") + ": " + QueryParameter(url, "error_description").GetOr("Unknown reason")
  }

  /**
   * The branch `onUrlChanged` takes. An empty URL, and one that is neither a
   * code redirect nor an error redirect, is ignored. A code redirect takes
   * precedence: it starts the exchange exactly when its `state` parameter is
   * the expected state (exact, case-sensitive) and a `code` parameter exists,
   * and otherwise reports the state mismatch. Any other error redirect reports
   * the provider's error. A URL never yields a token by itself.
   */
  function Classify(url: string, expected: string): (a: UrlAction)
    ensures a.Ignore? <==> url == [] || (!IsCodeRedirect(url) && !IsErrorRedirect(url))
    ensures a.StartExchange? <==>
              url != [] && IsCodeRedirect(url)
              && QueryParameter(url, "state") == Some(expected)
              && QueryParameter(url, "code").Some?
    ensures a.StartExchange? ==> QueryParameter(url, "code") == Some(a.code)
    ensures a.MissingCode? <==>
              url != [] && IsCodeRedirect(url)
              && QueryParameter(url, "state") == Some(expected)
              && QueryParameter(url, "code") == None
    ensures url != [] && IsCodeRedirect(url) && QueryParameter(url, "state") != Some(expected) ==>
              a == Finish(Error(StateMismatchReason(QueryParameter(url, "state"), expected), Some(url)))
    ensures url != [] && !IsCodeRedirect(url) && IsErrorRedirect(url) ==>
              a == Finish(Error(ProviderErrorReason(url), Some(url)))
    ensures a.Finish? ==> a.result.Error? && a.result.obtainedResponse == Some(url)
  {
    if url == [] then
      Ignore
    else if IsCodeRedirect(url) then
      var state := QueryParameter(url, "state");
      if state == Some(expected) then
        match QueryParameter(url, "code")
        case Some(code) => StartExchange(code)
        case None => MissingCode
      else
        Finish(Error(StateMismatchReason(state, expected), Some(url)))
    else if IsErrorRedirect(url) then
      Finish(Error(ProviderErrorReason(url), Some(url)))
    else
      Ignore
  }

  // ---------------------------------------------------------------------------
  // Observable effects
  // ---------------------------------------------------------------------------

  /** Where the Kotlin code throws instead of reporting. */
  datatype FaultKind = CodeParameterMissing | MalformedResponse

  /** One observable effect of the dialog. */
  datatype Event =
    | Delivered(result: GitHubAuthResult)       // `onProcessFinished(result)`
    | ExchangeLaunched(code: string)            // `launch { requestToken(code) }`
    | Dismissed                                 // `dialog?.dismiss()` on an existing dialog
    | Fault(kind: FaultKind)                    // an exception escapes; nothing is delivered

  /** How many results the events hand to the caller. */
  function Deliveries(events: seq<Event>): nat {
    if events == [] then 0 else (if events[0].Delivered? then 1 else 0) + Deliveries(events[1..])
  }

  /** How many code exchanges the events launch. */
  function Launches(events: seq<Event>): nat {
    if events == [] then 0 else (if events[0].ExchangeLaunched? then 1 else 0) + Launches(events[1..])
  }

  lemma {:induction false} CountsOfConcat(s: seq<Event>, t: seq<Event>)
    ensures Deliveries(s + t) == Deliveries(s) + Deliveries(t)
    ensures Launches(s + t) == Launches(s) + Launches(t)
  {
    if s == [] {
      assert s + t == t;
    } else {
      assert (s + t)[0] == s[0];
      assert (s + t)[1..] == s[1..] + t;
      CountsOfConcat(s[1..], t);
    }
  }

  /** `finally { dialog?.dismiss() }`: dismissing a dialog that was never created does nothing. */
  function Dismissal(dialogShown: bool): seq<Event> {
    if dialogShown then [Dismissed] else []
  }

  /**
   * The effects of one `onUrlChanged` call, in order. An ignored URL has
   * none. Every other URL delivers exactly one result when it is finished
   * and none otherwise, launches exactly one exchange when it starts one and
   * none otherwise, and ends with the dismissal when a dialog exists. A result
   * is delivered before the dismissal, never after it, and nothing else
   * happens: one effect, then at most one dismissal.
   */
  function UrlEffects(a: UrlAction, dialogShown: bool): (events: seq<Event>)
    ensures a.Ignore? <==> events == []
    ensures !a.Ignore? ==> |events| == 1 + (if dialogShown then 1 else 0)
    ensures Deliveries(events) == (if a.Finish? then 1 else 0)
    ensures Launches(events) == (if a.StartExchange? then 1 else 0)
    ensures !a.Ignore? ==> (Dismissed in events <==> dialogShown)
    ensures !a.Ignore? && dialogShown ==> events[|events| - 1] == Dismissed
    ensures a.Finish? ==> events[0] == Delivered(a.result)
    ensures a.StartExchange? ==> events[0] == ExchangeLaunched(a.code)
    ensures a.MissingCode? ==> events[0] == Fault(CodeParameterMissing)
  {
    var first := match a
      case Ignore => []
      case StartExchange(code) => [ExchangeLaunched(code)]
      case MissingCode => [Fault(CodeParameterMissing)]
      case Finish(result) => [Delivered(result)];
    if a.Ignore? then
      []
    else
      CountsOfConcat(first, Dismissal(dialogShown));
      first + Dismissal(dialogShown)
  }

  /** The exchange a URL launches is pending afterwards, for `RequestToken` to run. */
  lemma LaunchedCodeIsPending(before: seq<Event>, a: UrlAction, dialogShown: bool)
    requires a.StartExchange?
    ensures ExchangeLaunched(a.code) in before + UrlEffects(a, dialogShown)
  {
    var events := UrlEffects(a, dialogShown);
    assert (before + events)[|before|] == events[0];
  }

  /**
   * The dialog keeps no record of having finished: the same terminal URL seen
   * twice delivers a result twice.
   */
  lemma RepeatedRedirectDeliversTwice(url: string, expected: string, dialogShown: bool)
    requires Classify(url, expected).Finish?
    ensures Deliveries(UrlEffects(Classify(url, expected), dialogShown) + UrlEffects(Classify(url, expected), dialogShown)) == 2
  {
    var events := UrlEffects(Classify(url, expected), dialogShown);
    CountsOfConcat(events, events);
  }

  // ---------------------------------------------------------------------------
  // Redirects of the authorization-code grant
  // ---------------------------------------------------------------------------

  /** The redirect GitHub sends after the user authorized the application. */
  function CodeRedirectUrl(base: string, code: string, state: string): string {
    base + "?code=" + code + "&state=" + state
  }

  /** The redirect GitHub sends when authorization was denied. */
  function ErrorRedirectUrl(base: string, error: string, description: string): string {
    base + "?error=" + error + "&error_description=" + description
  }

  /** Looking a name up in `base?n1=v1&n2=v2`. */
  lemma TwoParameters(base: string, n1: string, v1: string, n2: string, v2: string, name: string)
    requires '?' !in base && '#' !in base
    requires PlainPairs([(n1, v1), (n2, v2)])
    ensures QueryParameter(base + "?" + n1 + "=" + v1 + "&" + n2 + "=" + v2, name) == FirstValue([(n1, v1), (n2, v2)], name)
  {
    var pairs := [(n1, v1), (n2, v2)];
    BuildQuerySingle(pairs[1]);
    BuildQueryCons(pairs[0], [pairs[1]]);
    assert pairs == [pairs[0]] + [pairs[1]];
    assert base + "?" + n1 + "=" + v1 + "&" + n2 + "=" + v2 == base + "?" + BuildQuery(pairs);
    QueryParameterOfBuiltUrl(base, pairs, name);
  }

  lemma CodeRedirectIsRecognised(base: string, code: string, state: string)
    ensures IsCodeRedirect(CodeRedirectUrl(base, code, state))
  {
    var url := CodeRedirectUrl(base, code, state);
    ContainsAt(url, |base| + 1, "code=");
    ContainsAt(url, |base| + 1 + |code| + 6, "state=");
  }

  lemma CodeRedirectParameter(base: string, code: string, state: string, name: string)
    requires '?' !in base && '#' !in base
    requires '&' !in code && '#' !in code && '&' !in state && '#' !in state
    ensures QueryParameter(CodeRedirectUrl(base, code, state), name) == FirstValue([("code", code), ("state", state)], name)
  {
    var url := CodeRedirectUrl(base, code, state);
    assert url == base + "?" + "code" + "=" + code + "&" + "state" + "=" + state;
    assert PlainPairs([("code", code), ("state", state)]);
    TwoParameters(base, "code", code, "state", state, name);
  }

  /** The `code` and `state` parameters of a code redirect are the code and the state it carries. */
  lemma CodeRedirectParameters(base: string, code: string, state: string)
    requires '?' !in base && '#' !in base
    requires '&' !in code && '#' !in code && '&' !in state && '#' !in state
    ensures IsCodeRedirect(CodeRedirectUrl(base, code, state))
    ensures QueryParameter(CodeRedirectUrl(base, code, state), "code") == Some(code)
    ensures QueryParameter(CodeRedirectUrl(base, code, state), "state") == Some(state)
  {
    CodeRedirectIsRecognised(base, code, state);
    CodeRedirectParameter(base, code, state, "code");
    CodeRedirectParameter(base, code, state, "state");
  }

  /** A redirect carrying the expected state starts exactly one exchange with its code. */
  lemma MatchingStateStartsExchange(base: string, code: string, expected: string)
    requires '?' !in base && '#' !in base
    requires '&' !in code && '#' !in code && '&' !in expected && '#' !in expected
    ensures Classify(CodeRedirectUrl(base, code, expected), expected) == StartExchange(code)
  {
    CodeRedirectParameters(base, code, expected);
  }

  /** A redirect carrying another state reports the mismatch and starts no exchange. */
  lemma OtherStateIsRejected(base: string, code: string, obtained: string, expected: string)
    requires '?' !in base && '#' !in base
    requires '&' !in code && '#' !in code && '&' !in obtained && '#' !in obtained
    requires obtained != expected
    ensures Classify(CodeRedirectUrl(base, code, obtained), expected) ==
              Finish(Error("State doesn't match: obtained \"" + obtained + "\" but required \"" + expected + "\"",
                           Some(CodeRedirectUrl(base, code, obtained))))
  {
    CodeRedirectParameters(base, code, obtained);
  }

  /** A redirect whose `code=` ends a longer parameter name, as in `?xcode=1&state=S`. */
  function EmbeddedCodeUrl(base: string, prefix: string, value: string, state: string): string {
    base + "?" + prefix + "code=" + value + "&state=" + state
  }

  lemma EmbeddedCodeIsRecognised(base: string, prefix: string, value: string, state: string)
    ensures IsCodeRedirect(EmbeddedCodeUrl(base, prefix, value, state))
  {
    var url := EmbeddedCodeUrl(base, prefix, value, state);
    ContainsAt(url, |base| + 1 + |prefix|, "code=");
    ContainsAt(url, |base| + 1 + |prefix| + 5 + |value| + 1, "state=");
  }

  lemma EmbeddedCodeParameter(base: string, prefix: string, value: string, state: string, name: string)
    requires '?' !in base && '#' !in base
    requires '&' !in prefix && '=' !in prefix && '#' !in prefix
    requires '&' !in value && '#' !in value && '&' !in state && '#' !in state
    ensures QueryParameter(EmbeddedCodeUrl(base, prefix, value, state), name) ==
              FirstValue([(prefix + "code", value), ("state", state)], name)
  {
    var url := EmbeddedCodeUrl(base, prefix, value, state);
    assert url == base + "?" + (prefix + "code") + "=" + value + "&" + "state" + "=" + state;
    assert PlainPairs([(prefix + "code", value), ("state", state)]);
    TwoParameters(base, prefix + "code", value, "state", state, name);
  }

  lemma EmbeddedCodeHasNoCode(base: string, prefix: string, value: string, state: string)
    requires '?' !in base && '#' !in base
    requires prefix != [] && '&' !in prefix && '=' !in prefix && '#' !in prefix
    requires '&' !in value && '#' !in value && '&' !in state && '#' !in state
    ensures QueryParameter(EmbeddedCodeUrl(base, prefix, value, state), "code") == None
  {
    var pairs := [(prefix + "code", value), ("state", state)];
    EmbeddedCodeParameter(base, prefix, value, state, "code");
    assert |prefix + "code"| != |"code"|;
    assert FirstValue(pairs, "code") == FirstValue(pairs[1..], "code");
    assert pairs[1..][1..] == [];
    assert FirstValue(pairs[1..], "code") == FirstValue(pairs[1..][1..], "code");
  }

  lemma EmbeddedNameIsNotState(prefix: string)
    requires prefix != []
    ensures prefix + "code" != "state"
  {
    if |prefix| == 1 {
      assert (prefix + "code")[1] == 'c';
    }
  }

  lemma EmbeddedCodeState(base: string, prefix: string, value: string, state: string)
    requires '?' !in base && '#' !in base
    requires prefix != [] && '&' !in prefix && '=' !in prefix && '#' !in prefix
    requires '&' !in value && '#' !in value && '&' !in state && '#' !in state
    ensures QueryParameter(EmbeddedCodeUrl(base, prefix, value, state), "state") == Some(state)
  {
    var pairs := [(prefix + "code", value), ("state", state)];
    EmbeddedNameIsNotState(prefix);
    assert FirstValue(pairs, "state") == Some(state) by {
      assert pairs[0].0 != "state";
      assert FirstValue(pairs, "state") == FirstValue(pairs[1..], "state");
    }
    EmbeddedCodeParameter(base, prefix, value, state, "state");
  }

  /**
   * A URL whose only `code=` ends another parameter's name passes the
   * substring test, yet has no `code` parameter: with the expected state it
   * reaches the Kotlin code's `!!`, here the missing-code fault.
   */
  lemma CodeOnlyInsideAnotherName(base: string, prefix: string, value: string, expected: string)
    requires '?' !in base && '#' !in base
    requires prefix != [] && '&' !in prefix && '=' !in prefix && '#' !in prefix
    requires '&' !in value && '#' !in value && '&' !in expected && '#' !in expected
    ensures Classify(EmbeddedCodeUrl(base, prefix, value, expected), expected) == MissingCode
  {
    EmbeddedCodeIsRecognised(base, prefix, value, expected);
    EmbeddedCodeHasNoCode(base, prefix, value, expected);
    EmbeddedCodeState(base, prefix, value, expected);
  }

  lemma ErrorRedirectParameterAt(base: string, error: string, description: string, name: string)
    requires '?' !in base && '#' !in base
    requires '&' !in error && '#' !in error && '&' !in description && '#' !in description
    ensures QueryParameter(ErrorRedirectUrl(base, error, description), name) ==
              FirstValue([("error", error), ("error_description", description)], name)
  {
    var url := ErrorRedirectUrl(base, error, description);
    assert url == base + "?" + "error" + "=" + error + "&" + "error_description" + "=" + description;
    assert PlainPairs([("error", error), ("error_description", description)]);
    TwoParameters(base, "error", error, "error_description", description, name);
  }

  lemma ErrorRedirectIsRecognised(base: string, error: string, description: string)
    ensures IsErrorRedirect(ErrorRedirectUrl(base, error, description))
  {
    ContainsAt(ErrorRedirectUrl(base, error, description), |base| + 1, "error=");
  }

  /** The `error` and `error_description` parameters of a denial redirect are the ones it carries. */
  lemma ErrorRedirectParameters(base: string, error: string, description: string)
    requires '?' !in base && '#' !in base
    requires '&' !in error && '#' !in error && '&' !in description && '#' !in description
    ensures IsErrorRedirect(ErrorRedirectUrl(base, error, description))
    ensures QueryParameter(ErrorRedirectUrl(base, error, description), "error") == Some(error)
    ensures QueryParameter(ErrorRedirectUrl(base, error, description), "error_description") == Some(description)
  {
    var url, pairs := ErrorRedirectUrl(base, error, description), [("error", error), ("error_description", description)];
    assert QueryParameter(url, "error") == Some(error) by {
      ErrorRedirectParameterAt(base, error, description, "error");
    }
    assert QueryParameter(url, "error_description") == Some(description) by {
      ErrorRedirectParameterAt(base, error, description, "error_description");
      assert "error" != "error_description";
      assert FirstValue(pairs, "error_description") == FirstValue(pairs[1..], "error_description");
    }
    ErrorRedirectIsRecognised(base, error, description);
  }

  lemma ErrorRedirectIsReported(url: string, error: string, description: string, expected: string)
    requires IsErrorRedirect(url) && !IsCodeRedirect(url)
    requires QueryParameter(url, "error") == Some(error)
    requires QueryParameter(url, "error_description") == Some(description)
    ensures Classify(url, expected) == Finish(Error(error + ": " + description, Some(url)))
  {
  }

  /** A denied authorization reports "<error>: <description>" with the URL. */
  lemma ProviderErrorIsReported(base: string, error: string, description: string, expected: string)
    requires '?' !in base && '#' !in base
    requires '&' !in error && '#' !in error && '&' !in description && '#' !in description
    requires !IsCodeRedirect(ErrorRedirectUrl(base, error, description))
    ensures Classify(ErrorRedirectUrl(base, error, description), expected) ==
              Finish(Error(error + ": " + description, Some(ErrorRedirectUrl(base, error, description))))
  {
    ErrorRedirectParameters(base, error, description);
    ErrorRedirectIsReported(ErrorRedirectUrl(base, error, description), error, description, expected);
  }

  // ---------------------------------------------------------------------------
  // Code exchange (`requestToken`)
  // ---------------------------------------------------------------------------

  /** Status line and body of the token endpoint's answer (the body as `readStream` returns it). */
  datatype HttpResponse = HttpResponse(status: int, message: string, body: string)

  /**
   * What the finished exchange hands to the caller. A status other than 200
   * gives `Error(responseMessage, null)` whatever the body; status 200 gives
   * exactly what the parser makes of the body. `jsonObject` is org.json's
   * `JSONObject(text)` (None where it throws).
   */
  function ExchangeReply(response: HttpResponse, jsonObject: string -> Option<JsonObject>): (r: ParseResult)
    ensures response.status != 200 ==> r == Parsed(Error(response.message, None))
    ensures response.status == 200 ==> r == ParseCodeExchangeResponse(response.body, jsonObject(response.body))
  {
    if response.status == 200 then
      ParseCodeExchangeResponse(response.body, jsonObject(response.body))
    else
      Parsed(Error(response.message, None))
  }

  /** The effects of the finished exchange: the result is delivered, or the parser's exception escapes. */
  function ExchangeEffects(reply: ParseResult): (events: seq<Event>)
    ensures Deliveries(events) == (if reply.Parsed? then 1 else 0)
    ensures reply.Parsed? ==> events == [Delivered(reply.result)]
    ensures reply.Malformed? ==> events == [Fault(MalformedResponse)]
  {
    match reply
    case Parsed(result) => [Delivered(result)]
    case Malformed => [Fault(MalformedResponse)]
  }

  // ---------------------------------------------------------------------------
  // The dialog
  // ---------------------------------------------------------------------------

  class GithubAuthenticatorDialog {
    const state: string
    const applicationId: string
    const applicationSecret: string
    /** `dialog != null`: set once `onCreateDialog` has built the AlertDialog. */
    var dialogShown: bool
    /** Every effect so far, oldest first. */
    var trace: seq<Event>

    /** The credentials passed the `init` check: none of them is whitespace only. */
    ghost predicate Valid() {
      CheckCredentials(state, applicationId, applicationSecret) == None
    }

    /** The object after its `init` check has passed. */
    constructor (state: string, applicationId: string, applicationSecret: string)
      requires CheckCredentials(state, applicationId, applicationSecret) == None
      ensures this.state == state && this.applicationId == applicationId
      ensures this.applicationSecret == applicationSecret
      ensures !dialogShown && trace == []
      ensures Valid()
    {
      this.state := state;
      this.applicationId := applicationId;
      this.applicationSecret := applicationSecret;
      dialogShown := false;
      trace := [];
    }

    /**
     * Construction, exception included: it fails with the init message exactly
     * when one of the three strings is whitespace only.
     */
    static method Create(state: string, applicationId: string, applicationSecret: string)
      returns (r: Result<GithubAuthenticatorDialog, string>)
      ensures r.Err? <==> AllWhitespace(applicationId) || AllWhitespace(applicationSecret) || AllWhitespace(state)
      ensures r.Err? ==> r.error == EmptyCredentialsMessage
      ensures r.Ok? ==> fresh(r.value) && r.value.trace == [] && !r.value.dialogShown
      ensures r.Ok? ==> r.value.state == state && r.value.applicationId == applicationId
      ensures r.Ok? ==> r.value.applicationSecret == applicationSecret
      ensures r.Ok? ==> r.value.Valid()
    {
      var error := CheckCredentials(state, applicationId, applicationSecret);
      if error.Some? {
        r := Err(error.value);
      } else {
        var dialog := new GithubAuthenticatorDialog(state, applicationId, applicationSecret);
        r := Ok(dialog);
      }
    }

    /** `onCreateDialog`: the dialog now exists and its web view loads the login page. */
    method CreateDialog() returns (loginUrl: string)
      modifies this`dialogShown
      ensures dialogShown && loginUrl == LoginUrl(applicationId, state)
    {
      dialogShown := true;
      loginUrl := LoginUrl(applicationId, state);
    }

    /** The JSON request body of the code exchange, as a map from keys to strings. */
    function RequestBody(code: string): (body: map<string, string>)
      ensures body.Keys == {"client_id", "client_secret", "code"}
      ensures body["client_id"] == applicationId && body["client_secret"] == applicationSecret
      ensures body["code"] == code
    {
      map["client_id" := applicationId, "client_secret" := applicationSecret, "code" := code]
    }

    /** `onUrlChanged(url)`: appends what `Classify` decides, then the dismissal. */
    method OnUrlChanged(url: string)
      modifies this`trace
      ensures trace == old(trace) + UrlEffects(Classify(url, state), dialogShown)
    {
      ghost var action := Classify(url, state);
      if url == [] {
        return;
      }
      if Contains(url, "code=") && Contains(url, "state=") {
        var obtained := QueryParameter(url, "state");
        if obtained == Some(state) {
          var code := QueryParameter(url, "code");
          if code.Some? {
            assert action == StartExchange(code.value);
            trace := trace + [ExchangeLaunched(code.value)];
          } else {
            assert action == MissingCode;
            trace := trace + [Fault(CodeParameterMissing)];
          }
        } else {
          assert action == Finish(Error(StateMismatchReason(obtained, state), Some(url)));
          trace := trace + [Delivered(Error(StateMismatchReason(obtained, state), Some(url)))];
        }
        if dialogShown {
          trace := trace + [Dismissed];
        }
      } else if Contains(url, "error=") {
        var error := QueryParameter(url, "error").GetOr("Error");
        var description := QueryParameter(url, "error_description").GetOr("Unknown reason");
        assert action == Finish(Error(error + ": " + description, Some(url)));
        trace := trace + [Delivered(Error(error + ": " + description, Some(url)))];
        if dialogShown {
          trace := trace + [Dismissed];
        }
      }
    }

    /**
     * `requestToken(code)`, run by the exchange that `OnUrlChanged` launched:
     * it posts the request body for that code, then delivers what the
     * endpoint's answer means. The answer is a parameter, since the HTTP
     * round trip is not modelled.
     */
    method RequestToken(code: string, response: HttpResponse, jsonObject: string -> Option<JsonObject>)
      returns (requestBody: map<string, string>)
      requires ExchangeLaunched(code) in trace
      modifies this`trace
      ensures requestBody == RequestBody(code)
      ensures trace == old(trace) + ExchangeEffects(ExchangeReply(response, jsonObject))
    {
      requestBody := RequestBody(code);
      var reply;
      if response.status == 200 {
        reply := ParseCodeExchangeResponse(response.body, jsonObject(response.body));
      } else {
        reply := Parsed(Error(response.message, None));
      }
      match reply
      case Parsed(result) =>
        trace := trace + [Delivered(result)];
      case Malformed =>
        trace := trace + [Fault(MalformedResponse)];
    }
  }
}
