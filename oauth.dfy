/** GitHub OAuth login: the authorization request of RFC 6749 section 4.1.1 that
    `/login` hands the user, and the redirection endpoint of sections 4.1.2 and
    4.1.3 that exchanges the returned code for a token and stores it under the
    Telegram id the `state` parameter carries back. */
module OAuth {
  import opened Wrappers
  import opened Http
  import opened Credentials

  const AuthorizeEndpoint := "https://github.com/login/oauth/authorize"
  const TokenEndpoint := "https://github.com/login/oauth/access_token"

  /** `OAUTH_CALLBACK_URL`, built from the configured domain. */
  function CallbackUrl(domain: string): (url: string)
    ensures |url| == |"https://"| + |domain| + |"/callback"|
    ensures url[..8] == "https://" && url[8..8 + |domain|] == domain && url[8 + |domain|..] == "/callback"
  {
    "https://" + domain + "/callback"
  }

  /** The authorize URL before percent-encoding: endpoint and query parameters in order. */
  datatype AuthorizeLink = AuthorizeLink(endpoint: string, params: seq<(string, string)>)

  /** The value of the first parameter named `key`, as a query parser reads it. */
  function Param(params: seq<(string, string)>, key: string): Option<string>
  {
    if params == [] then None
    else if params[0].0 == key then Some(params[0].1)
    else Param(params[1..], key)
  }

  /** `login`: the five fixed parameters, in this order, with the Telegram id as `state`. */
  function LoginLink(clientId: string, domain: string, telegramId: int): (link: AuthorizeLink)
    ensures link.endpoint == AuthorizeEndpoint
    ensures |link.params| == 5
    ensures link.params[0].0 == "client_id" && link.params[1].0 == "redirect_uri" && link.params[2].0 == "scope"
    ensures link.params[3].0 == "state" && link.params[4].0 == "allow_signup"
  {
    AuthorizeLink(AuthorizeEndpoint,
      [("client_id", clientId),
       ("redirect_uri", CallbackUrl(domain)),
       ("scope", "repo"),
       ("state", IdString(telegramId)),
       ("allow_signup", "true")])
  }

  /** What the provider reads out of that link: the client, the fixed callback
      address, the `repo` scope, the id as `state`, sign-up allowed, and no
      `response_type` (which section 4.1.1 of RFC 6749 marks required; GitHub
      does not insist on it). */
  lemma {:induction false} LoginLinkParameters(clientId: string, domain: string, telegramId: int)
    ensures var params := LoginLink(clientId, domain, telegramId).params;
      && Param(params, "client_id") == Some(clientId)
      && Param(params, "redirect_uri") == Some(CallbackUrl(domain))
      && Param(params, "scope") == Some("repo")
      && Param(params, "state") == Some(IdString(telegramId))
      && Param(params, "allow_signup") == Some("true")
      && Param(params, "response_type") == None
  {
    var params := LoginLink(clientId, domain, telegramId).params;
    assert Param(params[5..], "response_type") == None;
    assert Param(params[4..], "allow_signup") == Some("true");
    assert Param(params[4..], "response_type") == None;
    assert Param(params[3..], "state") == Some(IdString(telegramId));
    assert Param(params[3..], "allow_signup") == Some("true");
    assert Param(params[3..], "response_type") == None;
    assert Param(params[2..], "scope") == Some("repo");
    assert Param(params[2..], "state") == Some(IdString(telegramId));
    assert Param(params[2..], "allow_signup") == Some("true");
    assert Param(params[2..], "response_type") == None;
    assert params[1..][1..] == params[2..];
  }

  /** The POST to the token endpoint (form body, JSON answer requested). */
  function TokenRequest(clientId: string, clientSecret: string, code: string, domain: string): (r: Request)
    ensures r.verb == POST && r.url == TokenEndpoint && r.headers == [("Accept", "application/json")]
    ensures |r.fields| == 4
    ensures r.fields[0].0 == "client_id" && r.fields[1].0 == "client_secret"
    ensures r.fields[2].0 == "code" && r.fields[3].0 == "redirect_uri"
  {
    Request(POST, TokenEndpoint, [("Accept", "application/json")],
      [("client_id", clientId), ("client_secret", clientSecret), ("code", code), ("redirect_uri", CallbackUrl(domain))])
  }

  /** What the token endpoint reads out of the form: the client and its
      secret, the code from the redirect, the same `redirect_uri` as the
      authorization request, and no `grant_type` (which section 4.1.3 of
      RFC 6749 marks required; GitHub does not insist on it). */
  lemma {:induction false} TokenRequestParameters(clientId: string, clientSecret: string, code: string, domain: string,
                                                  telegramId: int)
    ensures var fields := TokenRequest(clientId, clientSecret, code, domain).fields;
      && Param(fields, "client_id") == Some(clientId)
      && Param(fields, "client_secret") == Some(clientSecret)
      && Param(fields, "code") == Some(code)
      && Param(fields, "redirect_uri") == Some(CallbackUrl(domain))
      && Param(fields, "redirect_uri") == Param(LoginLink(clientId, domain, telegramId).params, "redirect_uri")
      && Param(fields, "grant_type") == None
  {
    var fields := TokenRequest(clientId, clientSecret, code, domain).fields;
    assert Param(fields[4..], "grant_type") == None;
    assert Param(fields[3..], "redirect_uri") == Some(CallbackUrl(domain));
    assert Param(fields[3..], "grant_type") == None;
    assert Param(fields[2..], "code") == Some(code);
    assert Param(fields[2..], "redirect_uri") == Some(CallbackUrl(domain));
    assert Param(fields[2..], "grant_type") == None;
    assert fields[1..][1..] == fields[2..];
    LoginLinkParameters(clientId, domain, telegramId);
  }

  /** The three ways the callback can end. */
  datatype Decision = MissingCodeOrState | NoAccessToken | Bind(telegramId: string, accessToken: string)

  const MissingParamsText := "Missing code or state"
  const NoTokenText := "Failed to get access token"
  const LoginSuccessText := "GitHub login successful! You can return to Telegram."

  /** The branching of `oauth_callback`, given the query of the redirect and the
      JSON object the token endpoint answered with. */
  function Decide(query: map<string, string>, tokenJson: map<string, string>): (d: Decision)
    ensures d == MissingCodeOrState <==> !Truthy(Get(query, "code")) || !Truthy(Get(query, "state"))
    ensures d == NoAccessToken <==>
      Truthy(Get(query, "code")) && Truthy(Get(query, "state")) && !Truthy(Get(tokenJson, "access_token"))
    ensures d.Bind? ==> Get(query, "state") == Some(d.telegramId) && d.telegramId != ""
    ensures d.Bind? ==> Get(tokenJson, "access_token") == Some(d.accessToken) && d.accessToken != ""
  {
    var code, state := Get(query, "code"), Get(query, "state");
    if !Truthy(code) || !Truthy(state) then MissingCodeOrState
    else
      var accessToken := Get(tokenJson, "access_token");
      if !Truthy(accessToken) then NoAccessToken
      else Bind(state.value, accessToken.value)
  }

  /** The web response for each outcome: 400 for the two failures, 200 otherwise. */
  function CallbackReply(d: Decision): (r: Reply)
    ensures r.status == 200 <==> d.Bind?
    ensures r.status == 200 || r.status == 400
    ensures d == MissingCodeOrState ==> r.text == MissingParamsText
    ensures d == NoAccessToken ==> r.text == NoTokenText
    ensures d.Bind? ==> r.text == LoginSuccessText
  {
    match d
    case MissingCodeOrState => Reply(MissingParamsText, 400)
    case NoAccessToken => Reply(NoTokenText, 400)
    case Bind(_, _) => Reply(LoginSuccessText, 200)
  }

  /** `oauth_callback`: on success the token is upserted under `state`; on
      either failure the store is untouched. The exchange is only attempted
      when both `code` and `state` are present and non-empty. */
  method OAuthCallback(store: CredentialStore, query: map<string, string>, tokenJson: map<string, string>,
                       clientId: string, clientSecret: string, domain: string)
    returns (reply: Reply, sent: seq<Request>)
    modifies store
    ensures var d := Decide(query, tokenJson);
      && reply == CallbackReply(d)
      && (d == MissingCodeOrState ==> sent == [])
      && (d != MissingCodeOrState ==> sent == [TokenRequest(clientId, clientSecret, query["code"], domain)])
      && store.tokens == (if d.Bind? then old(store.tokens)[d.telegramId := d.accessToken] else old(store.tokens))
  {
    var d := Decide(query, tokenJson);
    if d == MissingCodeOrState {
      return CallbackReply(d), [];
    }
    sent := [TokenRequest(clientId, clientSecret, query["code"], domain)];
    if d.Bind? {
      store.SaveToken(d.telegramId, d.accessToken);
    }
    reply := CallbackReply(d);
  }

  /** Login round trip: when the provider sends the user back with the `state`
      of the link `/login` produced, a non-empty code, and a token answer, the
      token is bound to the very Telegram id that asked, so that id's next
      `get_token` finds it. */
  lemma LoginThenCallback(clientId: string, domain: string, telegramId: int, code: string,
                          accessToken: string, tokens: map<string, string>)
    requires code != "" && accessToken != ""
    ensures Param(LoginLink(clientId, domain, telegramId).params, "state") == Some(IdString(telegramId))
    ensures var d := Decide(map["code" := code, "state" := IdString(telegramId)], map["access_token" := accessToken]);
      && d == Bind(IdString(telegramId), accessToken)
      && Get(tokens[d.telegramId := d.accessToken], IdString(telegramId)) == Some(accessToken)
  {
    LoginLinkParameters(clientId, domain, telegramId);
  }

  /** No server-side record ties `state` to a pending login: any non-empty
      `state` a caller puts in the query is the id the token is bound to. */
  lemma StateIsTrusted(code: string, state: string, accessToken: string)
    requires code != "" && state != "" && accessToken != ""
    ensures Decide(map["code" := code, "state" := state], map["access_token" := accessToken]) == Bind(state, accessToken)
  {
  }
}
