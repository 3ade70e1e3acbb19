/**
 * The result types of the authenticator and the parser of GitHub's
 * code-exchange response (`Parser.parseCodeExchangeResponse(json: String)`).
 *
 * Reading the JSON text is org.json's `JSONObject(text)` and is not modelled:
 * the parser receives the text together with the object org.json reads from
 * it (None when that constructor throws).
 */
module Parser {
  import opened Wrappers
  import opened Text

  /** `GithubAuthToken(value, scope, type)`. */
  datatype GithubAuthToken = GithubAuthToken(value: string, scope: seq<string>, tokenType: string)

  /** `GitHubAuthResult`: `Success(token)` or `Error(reason, obtainedResponse)`; None is Kotlin's null. */
  datatype GitHubAuthResult =
    | Success(token: GithubAuthToken)
    | Error(reason: string, obtainedResponse: Option<string>)

  /** A member value of a JSON object; arrays and nested objects are never looked into. */
  datatype Json = JString(text: string) | JNumber(number: int) | JBool(truth: bool) | JNull | JNested

  type JsonObject = map<string, Json>

  /**
   * What parsing yields. `Malformed` stands for the exceptions the Kotlin code
   * throws instead of returning: the text is not a JSON object, a field that
   * is read is missing, or it is not a string.
   */
  datatype ParseResult = Parsed(result: GitHubAuthResult) | Malformed

  /** `obj[key] as String`: None where Kotlin throws. */
  function StringField(obj: JsonObject, key: string): (v: Option<string>)
    ensures v.Some? <==> key in obj && obj[key].JString?
    ensures v.Some? ==> obj[key] == JString(v.value)
  {
    if key in obj && obj[key].JString? then Some(obj[key].text) else None
  }

  /**
   * With `access_token` present the response is a token whose scope is the
   * exact comma split of `scope`; without it, the response is the error named
   * by `error`, carrying the whole text. Any field that is read and is not a
   * string, and a text that is no JSON object, make the response malformed:
   * a token is never built from missing fields.
   */
  function ParseCodeExchangeResponse(json: string, obj: Option<JsonObject>): (r: ParseResult)
    ensures (r.Parsed? && r.result.Success?) <==>
              && obj.Some? && "access_token" in obj.value
              && StringField(obj.value, "access_token").Some?
              && StringField(obj.value, "scope").Some?
              && StringField(obj.value, "token_type").Some?
    ensures r.Parsed? && r.result.Success? ==>
              && obj.value["access_token"] == JString(r.result.token.value)
              && obj.value["token_type"] == JString(r.result.token.tokenType)
              && obj.value["scope"].JString?
              && |r.result.token.scope| == Count(obj.value["scope"].text, ',') + 1
              && obj.value["scope"] == JString(Join(r.result.token.scope, ','))
              && (forall name :: name in r.result.token.scope ==> ',' !in name)
    ensures (r.Parsed? && r.result.Error?) <==>
              && obj.Some? && "access_token" !in obj.value
              && StringField(obj.value, "error").Some?
    ensures r.Parsed? && r.result.Error? ==>
              && obj.value["error"] == JString(r.result.reason)
              && r.result.obtainedResponse == Some(json)
  {
    match obj
    case None => Malformed
    case Some(fields) =>
      if "access_token" in fields then
        match (StringField(fields, "access_token"), StringField(fields, "scope"), StringField(fields, "token_type"))
        case (Some(value), Some(scope), Some(tokenType)) =>
          Parsed(Success(GithubAuthToken(value, Split(scope, ','), tokenType)))
        case _ => Malformed
      else
        match StringField(fields, "error")
        case Some(error) => Parsed(Error(error, Some(json)))
        case None => Malformed
  }

  /**
   * A response whose `scope` is the comma-join of some scope names parses to
   * a token with exactly those names.
   */
  lemma ParseOfIssuedToken(json: string, fields: JsonObject, value: string, scopes: seq<string>, tokenType: string)
    requires |scopes| > 0 && forall name :: name in scopes ==> ',' !in name
    requires "access_token" in fields && fields["access_token"] == JString(value)
    requires "scope" in fields && fields["scope"] == JString(Join(scopes, ','))
    requires "token_type" in fields && fields["token_type"] == JString(tokenType)
    ensures ParseCodeExchangeResponse(json, Some(fields)) == Parsed(Success(GithubAuthToken(value, scopes, tokenType)))
  {
    SplitOfJoin(scopes, ',');
  }
}
