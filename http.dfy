/** The HTTP vocabulary the bot uses: outgoing requests, incoming responses, and
    the replies its own web server writes. Nothing is sent; a request is a value
    and a response is an input. */
module Http {
  import opened Wrappers

  datatype Verb = GET | POST

  /** One outgoing request. `fields` is the JSON object or form body, in order. */
  datatype Request = Request(verb: Verb, url: string, headers: seq<(string, string)>, fields: seq<(string, string)>)

  /** A response from a remote server: its status code and its already decoded body. */
  datatype Response<T> = Response(status: int, body: T)

  /** A response written by the bot's own web server (`web.Response`). */
  datatype Reply = Reply(text: string, status: int)

  const GitHubApi := "https://api.github.com"

  /** `{'Authorization': f'token {token}'} if token else {}` */
  function AuthHeaders(token: Option<string>): (h: seq<(string, string)>)
    ensures h != [] <==> Truthy(token)
    ensures h != [] ==> |h| == 1 && h[0].0 == "Authorization" && h[0].1 == "token " + token.value
  {
    if Truthy(token) then [("Authorization", "token " + token.value)] else []
  }
}
