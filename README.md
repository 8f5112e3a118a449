# GitHub issue-filing Telegram bot: a Dafny model

This project models the decision logic of a Telegram bot that lets a user log in
to GitHub with OAuth and then file an issue through a short conversation. It
also models the signature check on GitHub's webhook deliveries. Every network
and database call is replaced by a value: a request is a datatype, a response is
an input, and the database is a map. With that, each handler is a deterministic
transition.

Modules, one per component:

- `Wrappers` (wrappers.dfy): `Option` and Python's truthiness of an optional string.
- `Http` (http.dfy): outgoing requests, remote responses, the bot's own web replies, and the `Authorization` header rule.
- `Credentials` (credentials.dfy): the `user_tokens` table as a class holding a `map<string, string>`, keyed by `str(telegram_id)`.
- `CallbackData` (callback_data.dfy): accounts, Python's `str.split(":")`, and the `login:type` button data.
- `GitHubApi` (github_api.dfy): `fetch_github_accounts` (its org loop appends in `AppendOrgs`), `fetch_github_repos`, and the issue request and its reply.
- `OAuth` (oauth.dfy): the `/login` authorization link (RFC 6749 section 4.1.1) and the `/callback` code exchange (sections 4.1.2 and 4.1.3).
- `Webhooks` (webhooks.dfy): `verify_signature` and the status branch of the `/webhook` route.
- `Engine` (engine.dfy): the `ConversationHandler` state table, the handlers, and a `Conversation` class holding one user's state and `user_data`.
- `EngineClient` (engine.dfy): `FileOneIssue`, a client that drives one conversation from `/start` to a filed issue. It reasons from `Handle`'s contract, with `Accounts` unfolded and `CallbackData.DecodeEncode` for the pressed button. It asserts the state after each step, and the issue request, the reply and the final `user_data` after the last one.

How the model is set up:

- **Inputs.** The HMAC-SHA256 hex digest is a function-valued parameter `hmacHex(secret, body)`. The configuration values (client id and secret, callback domain, webhook secret) are string parameters. Remote answers arrive as `Response(status, body)`, with the JSON already decoded to the fields the code reads.
- **`user_data`.** It is a record with one `Option` field per key the handlers write. `None` means the key was never set.
- **Exceptions.** A Python exception inside a handler is modelled as `Raised`, and the conversation state stays where it was. Three cases occur: the `IndexError` of `split(":")[1]`, and the `KeyError`s of `user_data['selected_repo']` and `user_data['title']`. In `verify_signature`, `hmac.compare_digest` raises `TypeError` for a `str` holding a non-ASCII character; that is the `CompareRaised` verdict, and the route answers it with aiohttp's 500.

Behaviour of the code worth knowing, which the model keeps:

- `/start` during a live conversation is ignored, because `allow_reentry` is off; it does not restart the conversation.
- `END` removes the conversation state but leaves `user_data` as it was; nothing clears it.
- `/cancel` outside a conversation gets no answer, because fallbacks are only consulted in a live conversation.
- The authorization link carries no `response_type`, and the token exchange carries no `grant_type`. RFC 6749 marks both REQUIRED; GitHub's endpoints accept requests without them.
- The `state` parameter is the raw Telegram id, and nothing on the server ties it to a pending login. `OAuth.StateIsTrusted` states this: any non-empty `state` in a callback is the identity the token is bound to.

## Model

| member | source | states |
|---|---|---|
| `Http.AuthHeaders` | main.py:91 | An `Authorization: token …` header is sent exactly when a non-empty token is known; otherwise no header. |
| `Credentials.IdString` | main.py:68 | `str(telegram_id)` is never empty and starts with '-' exactly for negative ids (so it is always a usable `state` and key). |
| `Credentials.DecimalRoundTrip` | main.py:68 | `str` of a natural number reads back, digit by digit, as that number. |
| `Credentials.IdStringInjective` | main.py:68 | Distinct Telegram ids give distinct keys, so one user's token is never found under another user's id. |
| `Credentials.SaveTwiceThenGet` | main.py:63-82 | After two saves for one id, `get_token` finds the second token; an id not written keeps its old lookup result. |
| `Credentials.CredentialStore.constructor` | main.py:51-60 | A freshly initialised table holds no rows. |
| `Credentials.CredentialStore.SaveToken` | main.py:63-71 | Upsert: afterwards the id maps to the new token, and every other id keeps its old lookup result. |
| `Credentials.CredentialStore.GetToken` | main.py:74-82 | The stored token for a saved id, `None` for an id never saved. |
| `CallbackData.Split` | main.py:158 | `str.split` yields at least one piece, exactly one iff the separator is absent, and no piece holds the separator. |
| `CallbackData.JoinSplit` | main.py:158 | Joining the pieces of a split with the separator gives the original string back. |
| `CallbackData.SplitWithoutSeparator` | main.py:158 | A string without ':' splits to itself alone. |
| `CallbackData.SplitAtFirst` | main.py:158 | Splitting `prefix + ":" + rest` with a ':'-free prefix yields the prefix, then the split of the rest. |
| `CallbackData.Encode` | main.py:143 | The button data is the login, one ':', then the type. |
| `CallbackData.Decode` | main.py:158-159 | Decoding fails (index 1 out of range) exactly when the data has no ':'; a decoded login and type hold no ':'; the login is the text before the first ':' and the type the text after it up to the next ':' or the end. |
| `CallbackData.DecodeEncode` | main.py:143 | Round trip: with ':'-free login and type, decoding the button data `login:type` gives back exactly that account. |
| `CallbackData.DecodeNeedsSeparator` | main.py:158-159 | Data without ':' fails at index 1. |
| `GitHubApi.UserRequest` | main.py:91-94 | A GET of `https://api.github.com/user` with the auth header and no body. |
| `GitHubApi.OrgsRequest` | main.py:99-100 | A GET of `https://api.github.com/user/orgs` with the same header and no body. |
| `GitHubApi.OrgAccounts` | main.py:104-105 | One `org` account per org login, same length, same order. |
| `GitHubApi.Accounts` | main.py:92-110 | The user's own account comes first iff `/user` answered 200, then one `org` entry per org in response order; a non-200 answer contributes nothing. |
| `GitHubApi.AppendOrgs` | main.py:104-105 | The `for org in orgs` loop appends exactly one `org` entry per login, in order, after what the list already held. |
| `GitHubApi.FetchAccounts` | main.py:88-110 | The appending loop sends GET `/user` then GET `/user/orgs` and builds exactly that account list. |
| `GitHubApi.ReposUrl` | main.py:118-121 | Type exactly "org" selects `/orgs/{login}/repos`; any other type selects `/users/{login}/repos`. |
| `GitHubApi.RepoNames` | main.py:126 | The repository names, one per element, in response order. |
| `GitHubApi.FetchRepos` | main.py:113-128 | No account: no request and `[]`. Otherwise one GET to the chosen URL; a 200 answer gives the names in order, any other status gives `[]`. |
| `GitHubApi.IssueRequest` | main.py:203-207 | The issue is a POST to `https://api.github.com/repos/{login}/{repo}/issues` with the auth header and the JSON fields `title` and `body` (the description), in that order. |
| `GitHubApi.IssueReplyText` | main.py:208-216 | A 201 reply is the success prefix followed by the returned `html_url` verbatim; any other status gives the fixed failure text. |
| `GitHubApi.IssueFailureHidesBody` | main.py:213-216 | On failure the reply does not depend on what the remote sent. |
| `GitHubApi.IssueReplyShowsUrl` | main.py:208-212 | Distinct issue URLs give distinct success replies. |
| `OAuth.CallbackUrl` | main.py:38 | The callback address is `https://`, the configured domain, then `/callback`. |
| `OAuth.LoginLink` | main.py:225-234 | The link points at GitHub's authorize endpoint with exactly five parameters in the order client_id, redirect_uri, scope, state, allow_signup. |
| `OAuth.LoginLinkParameters` | main.py:227-233 | The parameters read back as the client id, `https://{domain}/callback`, `repo`, the Telegram id, `true`, and there is no `response_type`. |
| `OAuth.TokenRequest` | main.py:244-253 | A POST to GitHub's token endpoint asking for JSON, with the form fields client_id, client_secret, code, redirect_uri in that order. |
| `OAuth.TokenRequestParameters` | main.py:245-250 | The form reads back as the client id, the client secret, the code, and the same `redirect_uri` as every user's login link; there is no `grant_type`. |
| `OAuth.Decide` | main.py:239-257 | "Missing code or state" iff code or state is absent or empty; "no token" iff both are present but `access_token` is absent or empty; otherwise the non-empty token is bound to the `state` value. |
| `OAuth.CallbackReply` | main.py:241-261 | Both failures answer 400 with their fixed texts; a binding answers 200 with "GitHub login successful! You can return to Telegram." |
| `OAuth.OAuthCallback` | main.py:238-261 | The exchange request is sent only when code and state are present. The store gets `state ↦ token` on success and is untouched on both failures. |
| `OAuth.LoginThenCallback` | main.py:225-258 | A callback carrying the `state` of a user's login link, a code and a token binds the token to that user's id, where that user's `get_token` then finds it. |
| `OAuth.StateIsTrusted` | main.py:239-258 | Any non-empty `state` in a callback is the id the token is bound to. |
| `Webhooks.ExpectedSignature` | utils/webhooks.py:17-20 | The expected signature is the prefix `sha256=` followed by the hex digest. |
| `Webhooks.HexSignatureIsAscii` | utils/webhooks.py:17-20 | A signature built from a hex digest is all ASCII, so `compare_digest` accepts it. |
| `Webhooks.VerifySignature` | utils/webhooks.py:5-24 | It raises exactly when the header is non-empty and it or the expected signature holds a non-ASCII character. Otherwise the status is 200 or 403, and the message is `None` iff the status is 200. `(None, 200)` holds iff the header equals the ASCII `"sha256=" + hmacHex(secret, body)`. |
| `Webhooks.MissingHeaderRefused` | utils/webhooks.py:15-16 | A missing or empty header gives `('x-hub-signature-256 header is missing!', 403)` for any body and secret. |
| `Webhooks.GenuineSignatureAccepted` | utils/webhooks.py:17-24 | With a hex digest, the header `"sha256=" + hmacHex(secret, body)` gives `(None, 200)`. |
| `Webhooks.OtherHeaderRefused` | utils/webhooks.py:21-22 | With a hex digest, any other non-empty ASCII header gives `("Request signatures didn't match!", 403)`. |
| `Webhooks.NonAsciiHeaderRaises` | utils/webhooks.py:21 | A header holding a non-ASCII character makes `compare_digest` raise `TypeError`. |
| `Webhooks.SignatureDeterminesDigest` | utils/webhooks.py:20 | The expected signature is the `sha256=` prefix followed by the digest, so equal signatures mean equal digests. |
| `Webhooks.TamperedMessageRefused` | utils/webhooks.py:17-22 | With hex digests, a signature made for one (secret, body) is refused as a mismatch for any (secret, body) whose digest differs. |
| `Webhooks.VerdictDependsOnDigestOnly` | utils/webhooks.py:5-24 | The verdict depends only on the header and the digest of (secret, body), and on no other state. |
| `Webhooks.WebhookReply` | main.py:293-306 | The route answers 200 "Webhook received" iff the signature matches, 500 iff `verify_signature` raised, and otherwise 403 with the missing-header text (exactly when the header is absent or empty) or the mismatch text. |
| `Engine.Route` | main.py:270-281 | `/start` is taken only outside a conversation, and `/cancel` only inside one. A button press is taken only in SELECT_ACCOUNT and SELECT_PROJECT, and non-command text only in GET_TITLE and GET_DESCRIPTION. Nothing else is taken. |
| `Engine.NoReentry` | main.py:270-271 | `/start` is ignored while a conversation is live. |
| `Engine.AccountButtons` | main.py:139-147 | One button per account, in order, labelled `login (type)` and carrying `login:type`. |
| `Engine.RepoButtons` | main.py:166 | One button per repository name, in order, labelled with it and carrying it. |
| `Engine.AccountButtonsDecode` | main.py:139-159 | With ':'-free logins, every button `start` offers decodes in `select_account` to the account it was made for. |
| `Engine.FetchToken` | main.py:90 | The fetches use the stored token of `str(user_id)`, and no token for a falsy id 0. |
| `Engine.StartHandler` | main.py:131-152 | Sends the two account requests. With no accounts it replies with the failure text and ends. Otherwise it offers exactly one button per account, in order, and moves to SELECT_ACCOUNT. |
| `Engine.CancelHandler` | main.py:220-222 | `cancel` replies "Operation canceled.", sends no request and ends. |
| `Engine.Conversation.constructor` | main.py:270-271 | A conversation begins outside the table with an empty `user_data`. |
| `Engine.Conversation.SelectAccountHandler` | main.py:155-171 | Data without ':' raises and changes nothing. Otherwise only `selected_account` is written and the repos request is sent. No repositories ends the conversation; otherwise their buttons are offered and the state moves to SELECT_PROJECT. |
| `Engine.Conversation.SelectProjectHandler` | main.py:174-181 | Writes only `selected_repo`, asks for the title, and moves to GET_TITLE. |
| `Engine.Conversation.GetTitleHandler` | main.py:184-187 | Writes only `title`, asks for the description, and moves to GET_DESCRIPTION. |
| `Engine.Conversation.GetDescriptionHandler` | main.py:190-217 | Writes only `description`. A missing repository or title raises. A missing account gives "Account selection missing", sends no request and ends. Otherwise it posts `{title, body}` to `repos/{login}/{repo}/issues`, replies per status, and ends. |
| `Engine.Conversation.Handle` | main.py:270-281 | An update the table does not take changes nothing. Each handler writes only its own key and moves to the state it returns (a raise keeps the state). `/cancel` ends the conversation, and `user_data` survives `END`. The table's invariant is kept, so GET_DESCRIPTION always files the issue with the stored account, repository and title. |

## Left out

- Database plumbing: connection pools, `init_db`'s DDL, and an unreachable store. The store is its map semantics only.
- HTTP transport: every aiohttp call. Requests are values and responses are inputs, with their JSON already decoded. Malformed JSON and missing JSON fields (`user['login']`, `repo['name']`, `data['html_url']`, a non-JSON token answer) are not modelled.
- Telegram transport: message delivery, `query.answer()`, keyboard rendering, and `ConversationHandler` internals beyond its declared table. Commands arrive already parsed into their names.
- Percent-encoding in `urlencode`: the authorization link is modelled as its endpoint and ordered parameter list, so the text of the `/login` reply is not modelled.
- Process wiring: `main()`, the polling loop, the concurrent web server and its TCP bind. These are concurrency and I/O.
- Static pages `/support` and `/privacy-policy`: these are file reads.
- Environment loading and module-level constants: they become string parameters, with `OAuth.CallbackUrl` forming `https://{domain}/callback`.
- HMAC-SHA256: an uninterpreted parameter. The constant-time property of `hmac.compare_digest` is a timing property and is modelled as plain string equality.
- Webhooks.WebhookReply: decoding the webhook body as JSON and logging its `action` are not modelled. A body that is not JSON raises in the code after a valid signature, and the model answers 200 "Webhook received" for it. The text of the 500 answer is aiohttp's plain-text error page; its HTML variant is not modelled.
- Webhooks.GenuineSignatureAccepted, Webhooks.OtherHeaderRefused, Webhooks.TamperedMessageRefused: `hmacHex` is uninterpreted, so these assume what `hexdigest()` guarantees, that the digest is lower-case hex.
- Logging everywhere.
