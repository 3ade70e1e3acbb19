/**
 * Concrete answers of GitHub's token endpoint and what the authenticator
 * makes of them.
 */
module Scenarios {
  import opened Wrappers
  import opened Text
  import opened Parser
  import opened GithubAuthenticator

  /** The token response parses to the token with scopes ["repo", "user"]. */
  lemma TokenResponse(json: string)
    ensures ParseCodeExchangeResponse(json, Some(map["access_token" := JString("tok123"),
                                                     "scope" := JString("repo,user"),
                                                     "token_type" := JString("bearer")]))
            == Parsed(Success(GithubAuthToken("tok123", ["repo", "user"], "bearer")))
  {
    assert Join(["repo", "user"], ',') == "repo,user";
    ParseOfIssuedToken(json, map["access_token" := JString("tok123"), "scope" := JString("repo,user"),
                                 "token_type" := JString("bearer")],
                       "tok123", ["repo", "user"], "bearer");
  }

  /** A trailing comma in the scope gives an empty last scope, as Kotlin's split does. */
  lemma TrailingCommaScope()
    ensures Split("repo,", ',') == ["repo", ""]
  {
    assert Join(["repo", ""], ',') == "repo,";
    SplitOfJoin(["repo", ""], ',');
  }

  /** A 200 answer naming only an error becomes that error, carrying the whole body. */
  lemma ErrorResponse(json: string)
    ensures ParseCodeExchangeResponse(json, Some(map["error" := JString("bad_verification_code")]))
            == Parsed(Error("bad_verification_code", Some(json)))
  {
  }

  /** A 404 answer is reported with its status message; the body is never parsed. */
  lemma NotFoundResponse(body: string, jsonObject: string -> Option<JsonObject>)
    ensures ExchangeReply(HttpResponse(404, "Not Found", body), jsonObject) == Parsed(Error("Not Found", None))
  {
  }
}
