/** The GitHub REST calls the conversation makes, with every call replaced by
    the request it would send and the response it is given. */
module GitHubApi {
  import opened Wrappers
  import opened Http
  import opened CallbackData

  /** One element of the `/users/{login}/repos` or `/orgs/{login}/repos` array. */
  datatype Repo = Repo(name: string)

  /** Requests and what the caller gets out of their responses. */
  datatype Fetched<T> = Fetched(sent: seq<Request>, value: T)

  /** GET `/user`, authenticated when a token is known. */
  function UserRequest(token: Option<string>): (r: Request)
    ensures r.verb == GET && r.url == "https://api.github.com/user" && r.headers == AuthHeaders(token) && r.fields == []
  {
    Request(GET, GitHubApi + "/user", AuthHeaders(token), [])
  }

  /** GET `/user/orgs`, with the same headers. */
  function OrgsRequest(token: Option<string>): (r: Request)
    ensures r.verb == GET && r.url == "https://api.github.com/user/orgs" && r.headers == AuthHeaders(token) && r.fields == []
  {
    Request(GET, GitHubApi + "/user/orgs", AuthHeaders(token), [])
  }

  /** One `org` entry per organisation login, in response order. */
  function OrgAccounts(logins: seq<string>): (r: seq<Account>)
    ensures |r| == |logins|
    ensures forall i :: 0 <= i < |logins| ==> r[i] == Account(logins[i], OrgKind)
  {
    if logins == [] then [] else [Account(logins[0], OrgKind)] + OrgAccounts(logins[1..])
  }

  /** How many entries the `/user` response contributes. */
  function UserCount(user: Response<string>): nat
  {
    if user.status == 200 then 1 else 0
  }

  /** The account list `fetch_github_accounts` builds: the authenticated user's
      own account first when `/user` answers 200, then one `org` entry per
      element of a 200 `/user/orgs` answer; a non-200 answer adds nothing. */
  function Accounts(user: Response<string>, orgs: Response<seq<string>>): (r: seq<Account>)
    ensures |r| == UserCount(user) + (if orgs.status == 200 then |orgs.body| else 0)
    ensures user.status == 200 ==> r[0] == Account(user.body, UserKind)
    ensures orgs.status == 200 ==>
      forall i :: 0 <= i < |orgs.body| ==> r[UserCount(user) + i] == Account(orgs.body[i], OrgKind)
  {
    (if user.status == 200 then [Account(user.body, UserKind)] else [])
    + (if orgs.status == 200 then OrgAccounts(orgs.body) else [])
  }

  /** `fetch_github_accounts`: GET `/user`, then GET `/user/orgs`, appending to
      `accounts` as the answers allow. */
  method FetchAccounts(token: Option<string>, user: Response<string>, orgs: Response<seq<string>>)
    returns (sent: seq<Request>, accounts: seq<Account>)
    ensures sent == [UserRequest(token), OrgsRequest(token)]
    ensures accounts == Accounts(user, orgs)
  {
    var userRequest, orgsRequest := UserRequest(token), OrgsRequest(token);
    sent := [userRequest];
    accounts := [];
    if user.status == 200 {
      accounts := accounts + [Account(user.body, UserKind)];
    }
    sent := sent + [orgsRequest];
    if orgs.status == 200 {
      accounts := AppendOrgs(accounts, orgs.body);
    }
  }

  /** `for org in orgs: accounts.append({'type': 'org', 'login': org['login']})` */
  method AppendOrgs(head: seq<Account>, logins: seq<string>) returns (accounts: seq<Account>)
    ensures accounts == head + OrgAccounts(logins)
  {
    accounts := head;
    var i := 0;
    while i < |logins|
      invariant 0 <= i <= |logins|
      invariant accounts == head + OrgAccounts(logins[..i])
    {
      OrgAccountsAppend(logins[..i], logins[i]);
      assert logins[..i + 1] == logins[..i] + [logins[i]];
      accounts := accounts + [Account(logins[i], OrgKind)];
      i := i + 1;
    }
    assert logins[..i] == logins;
  }

  /** Appending one login appends one `org` entry. */
  lemma OrgAccountsAppend(logins: seq<string>, login: string)
    ensures OrgAccounts(logins + [login]) == OrgAccounts(logins) + [Account(login, OrgKind)]
  {
  }

  /** The repository list URL: `/orgs/{login}/repos` for an account whose type
      is exactly "org", `/users/{login}/repos` for every other type. */
  function ReposUrl(a: Account): (url: string)
    ensures url == GitHubApi + "/orgs/" + a.login + "/repos" <==> a.kind == OrgKind
    ensures url != GitHubApi + "/orgs/" + a.login + "/repos" ==> url == GitHubApi + "/users/" + a.login + "/repos"
  {
    if a.kind == OrgKind then GitHubApi + "/orgs/" + a.login + "/repos"
    else GitHubApi + "/users/" + a.login + "/repos"
  }

  /** `[repo['name'] for repo in data]` */
  function RepoNames(data: seq<Repo>): (names: seq<string>)
    ensures |names| == |data|
    ensures forall i :: 0 <= i < |data| ==> names[i] == data[i].name
  {
    if data == [] then [] else [data[0].name] + RepoNames(data[1..])
  }

  /** `fetch_github_repos`: no account, no request and no repositories;
      otherwise one GET of `ReposUrl`, whose 200 answer gives the names in
      order and whose any other answer gives none. */
  function FetchRepos(account: Option<Account>, token: Option<string>, response: Response<seq<Repo>>)
    : (r: Fetched<seq<string>>)
    ensures account.None? ==> r == Fetched([], [])
    ensures account.Some? ==> r.sent == [Request(GET, ReposUrl(account.value), AuthHeaders(token), [])]
    ensures account.Some? && response.status == 200 ==> r.value == RepoNames(response.body)
    ensures response.status != 200 ==> r.value == []
  {
    match account
    case None => Fetched([], [])
    case Some(a) =>
      var sent := [Request(GET, ReposUrl(a), AuthHeaders(token), [])];
      if response.status == 200 then Fetched(sent, RepoNames(response.body)) else Fetched(sent, [])
  }

  /** The issue `get_description` files: POST `{title, body: description}` to
      `repos/{login}/{repo}/issues`. */
  function IssueRequest(login: string, repo: string, title: string, description: string, token: Option<string>)
    : (r: Request)
    ensures r.verb == POST && r.headers == AuthHeaders(token)
    ensures r.url == "https://api.github.com/repos/" + login + "/" + repo + "/issues"
    ensures r.fields == [("title", title), ("body", description)]
  {
    Request(POST, GitHubApi + "/repos/" + login + "/" + repo + "/issues", AuthHeaders(token),
            [("title", title), ("body", description)])
  }

  const IssueCreatedPrefix := "Issue created successfully! View it here: "
  const IssueFailedText := "Failed to create issue. Please check your GitHub token and repository permissions."

  /** The chat reply to the issue POST; the body of the response is its `html_url`. */
  function IssueReplyText(response: Response<string>): (text: string)
    ensures response.status == 201 ==>
      && |text| == |IssueCreatedPrefix| + |response.body|
      && text[..|IssueCreatedPrefix|] == IssueCreatedPrefix
      && text[|IssueCreatedPrefix|..] == response.body
    ensures response.status != 201 ==> text == IssueFailedText
  {
    if response.status == 201 then IssueCreatedPrefix + response.body else IssueFailedText
  }

  /** A failed creation never shows anything the remote sent back. */
  lemma IssueFailureHidesBody(status: int, body1: string, body2: string)
    requires status != 201
    ensures IssueReplyText(Response(status, body1)) == IssueReplyText(Response(status, body2))
  {
  }

  /** Two different issue URLs give two different replies. */
  lemma IssueReplyShowsUrl(url1: string, url2: string)
    requires url1 != url2
    ensures IssueReplyText(Response(201, url1)) != IssueReplyText(Response(201, url2))
  {
  }
}
