/** The issue-filing conversation: the `ConversationHandler` state table, its
    handlers, and the per-user `user_data` they fill in. */
module Engine {
  import opened Wrappers
  import opened Http
  import opened Credentials
  import opened CallbackData
  import opened GitHubApi

  /** The conversation state; `End` is `ConversationHandler.END`, no live conversation. */
  datatype Stage = End | SelectAccount | SelectProject | GetTitle | GetDescription

  /** What Telegram delivers: a command, a non-command text message, an inline
      button press carrying its callback data, or anything else. */
  datatype Update = Command(name: string) | Text(text: string) | Callback(data: string) | Other

  /** The callbacks the table can select. */
  datatype Handler = OnStart | OnSelectAccount | OnSelectProject | OnGetTitle | OnGetDescription | OnCancel

  const StartCommand := "start"
  const CancelCommand := "cancel"

  /** The table of `ConversationHandler(...)`: the `/start` entry point is
      consulted only when no conversation is live (re-entry is off); a live
      conversation tries its state's handler, then the `/cancel` fallback;
      whatever matches nothing is ignored. Takes `CallbackQueryHandler` for
      any button press, and `MessageHandler(TEXT & ~COMMAND)` for plain text. */
  function Route(stage: Stage, u: Update): (h: Option<Handler>)
    ensures h == Some(OnStart) <==> stage == End && u == Command(StartCommand)
    ensures h == Some(OnCancel) <==> stage != End && u == Command(CancelCommand)
    ensures h == Some(OnSelectAccount) <==> stage == SelectAccount && u.Callback?
    ensures h == Some(OnSelectProject) <==> stage == SelectProject && u.Callback?
    ensures h == Some(OnGetTitle) <==> stage == GetTitle && u.Text?
    ensures h == Some(OnGetDescription) <==> stage == GetDescription && u.Text?
  {
    var stateHandler :=
      match stage
      case End => None
      case SelectAccount => if u.Callback? then Some(OnSelectAccount) else None
      case SelectProject => if u.Callback? then Some(OnSelectProject) else None
      case GetTitle => if u.Text? then Some(OnGetTitle) else None
      case GetDescription => if u.Text? then Some(OnGetDescription) else None;
    if stage == End then
      (if u == Command(StartCommand) then Some(OnStart) else None)
    else if stateHandler.Some? then stateHandler
    else if u == Command(CancelCommand) then Some(OnCancel)
    else None
  }

  /** `/start` during a live conversation restarts nothing: it is ignored. */
  lemma NoReentry(stage: Stage)
    requires stage != End
    ensures Route(stage, Command(StartCommand)) == None
  {
  }

  /** One inline keyboard button: its caption and its callback data. */
  datatype Button = Button(caption: string, data: string)

  /** What a handler sends to the chat: nothing, a new message, or an edit of
      the message whose button was pressed, each with a one-column keyboard. */
  datatype Output = Silent | Send(text: string, buttons: seq<Button>) | Edit(text: string, buttons: seq<Button>)

  /** What a handler returns: the next state, or an exception (the state stays). */
  datatype Next = Goto(stage: Stage) | Raised

  /** The whole effect of one handler call. */
  datatype Step = Step(next: Next, output: Output, sent: seq<Request>)

  /** `context.user_data`, one field per key; `None` for a key never written. */
  datatype UserData = UserData(selectedAccount: Option<Account>, selectedRepo: Option<string>,
                               title: Option<string>, description: Option<string>)

  const EmptyUserData := UserData(None, None, None, None)

  /** The answers GitHub gives to the requests an update triggers. */
  datatype Remote = Remote(user: Response<string>, orgs: Response<seq<string>>,
                           repos: Response<seq<Repo>>, issue: Response<string>)

  const FetchFailedText := "Failed to fetch organizations or user info from GitHub. Please check your token or login again with /login command."
  const ChooseAccountText := "Choose an organization or your user account:"
  const NoReposText := "No repositories found for this account."
  const ChooseProjectText := "Choose a project to create an issue:"
  const AskDescriptionText := "Please provide the issue description:"
  const AccountMissingText := "Account selection missing. Please /start again."
  const CanceledText := "Operation canceled."

  function SelectedProjectText(repo: string): string
  {
    "Selected project: " + repo + ".\nPlease provide the issue title:"
  }

  /** The keyboard `start` offers: one button per account, in order, labelled
      `login (type)` and carrying `login:type`. */
  function AccountButtons(accounts: seq<Account>): (buttons: seq<Button>)
    ensures |buttons| == |accounts|
    ensures forall i :: 0 <= i < |accounts| ==>
      buttons[i] == Button(accounts[i].login + " (" + accounts[i].kind + ")", Encode(accounts[i]))
  {
    if accounts == [] then []
    else
      var a := accounts[0];
      [Button(a.login + " (" + a.kind + ")", Encode(a))] + AccountButtons(accounts[1..])
  }

  /** The keyboard `select_account` offers: one button per repository name,
      labelled with it and carrying it. */
  function RepoButtons(names: seq<string>): (buttons: seq<Button>)
    ensures |buttons| == |names|
    ensures forall i :: 0 <= i < |names| ==> buttons[i] == Button(names[i], names[i])
  {
    if names == [] then [] else [Button(names[0], names[0])] + RepoButtons(names[1..])
  }

  /** Every button `start` offers leads `select_account` back to its own
      account, when no login holds a ':' (GitHub logins cannot). */
  lemma AccountButtonsDecode(user: Response<string>, orgs: Response<seq<string>>)
    requires Separator !in user.body
    requires forall j :: 0 <= j < |orgs.body| ==> Separator !in orgs.body[j]
    ensures var accounts := Accounts(user, orgs);
      forall i :: 0 <= i < |accounts| ==> Decode(AccountButtons(accounts)[i].data) == Some(accounts[i])
  {
    var accounts := Accounts(user, orgs);
    var buttons := AccountButtons(accounts);
    forall i | 0 <= i < |accounts| ensures Decode(buttons[i].data) == Some(accounts[i]) {
      AccountHasNoSeparator(user, orgs, i);
      assert buttons[i].data == Encode(accounts[i]);
      DecodeEncode(accounts[i]);
    }
  }

  /** Each account `fetch_github_accounts` lists has a ':'-free login and type. */
  lemma AccountHasNoSeparator(user: Response<string>, orgs: Response<seq<string>>, i: nat)
    requires Separator !in user.body
    requires forall j :: 0 <= j < |orgs.body| ==> Separator !in orgs.body[j]
    requires i < |Accounts(user, orgs)|
    ensures Separator !in Accounts(user, orgs)[i].login && Separator !in Accounts(user, orgs)[i].kind
  {
    var accounts, n := Accounts(user, orgs), UserCount(user);
    if i < n {
      assert accounts[i] == Account(user.body, UserKind);
    } else {
      assert accounts[n + (i - n)] == Account(orgs.body[i - n], OrgKind);
    }
  }

  /** The token the account and repository fetches use: `get_token(user_id) if user_id else None`. */
  function FetchToken(tokens: map<string, string>, userId: int): (token: Option<string>)
    ensures userId == 0 ==> token == None
    ensures userId != 0 ==> (token.Some? <==> IdString(userId) in tokens)
    ensures token.Some? ==> token.value == tokens[IdString(userId)]
  {
    if userId != 0 then Get(tokens, IdString(userId)) else None
  }

  /** `start`: fetch the accounts; with none, apologise and end; otherwise
      offer one button per account and wait for a choice. */
  method StartHandler(token: Option<string>, user: Response<string>, orgs: Response<seq<string>>)
    returns (step: Step)
    ensures step.sent == [UserRequest(token), OrgsRequest(token)]
    ensures Accounts(user, orgs) == [] ==> step.next == Goto(End) && step.output == Send(FetchFailedText, [])
    ensures Accounts(user, orgs) != [] ==>
      step.next == Goto(SelectAccount) && step.output == Send(ChooseAccountText, AccountButtons(Accounts(user, orgs)))
  {
    var sent, accounts := FetchAccounts(token, user, orgs);
    if accounts == [] {
      return Step(Goto(End), Send(FetchFailedText, []), sent);
    }
    step := Step(Goto(SelectAccount), Send(ChooseAccountText, AccountButtons(accounts)), sent);
  }

  /** `cancel`: say so and end, with no request and no change to `user_data`. */
  method CancelHandler() returns (step: Step)
    ensures step.next == Goto(End) && step.output == Send(CanceledText, []) && step.sent == []
  {
    step := Step(Goto(End), Send(CanceledText, []), []);
  }

  /** The conversation of one Telegram user. */
  class Conversation {
    const userId: int
    var stage: Stage
    var userData: UserData

    /** Before the first `/start`: no conversation and an empty `user_data`. */
    constructor (userId: int)
      ensures this.userId == userId && stage == End && userData == EmptyUserData
    {
      this.userId := userId;
      stage := End;
      userData := EmptyUserData;
    }

    /** What the state table guarantees: each state after the first has the
        keys its predecessors wrote. */
    ghost predicate Consistent()
      reads this
    {
      && (stage in {SelectProject, GetTitle, GetDescription} ==> userData.selectedAccount.Some?)
      && (stage in {GetTitle, GetDescription} ==> userData.selectedRepo.Some?)
      && (stage == GetDescription ==> userData.title.Some?)
    }

    /** `select_account`: decode the pressed button (IndexError without a ':'),
        store the account, fetch its repositories, and offer them or end. */
    method SelectAccountHandler(data: string, token: Option<string>, repos: Response<seq<Repo>>)
      returns (step: Step)
      modifies this`userData
      ensures Decode(data).None? ==> step == Step(Raised, Silent, []) && userData == old(userData)
      ensures Decode(data).Some? ==>
        var account := Decode(data).value;
        var fetched := FetchRepos(Some(account), token, repos);
        && userData == old(userData).(selectedAccount := Some(account))
        && step.sent == fetched.sent
        && (fetched.value == [] ==> step.next == Goto(End) && step.output == Edit(NoReposText, []))
        && (fetched.value != [] ==>
              step.next == Goto(SelectProject) && step.output == Edit(ChooseProjectText, RepoButtons(fetched.value)))
    {
      var decoded := Decode(data);
      if decoded.None? {
        return Step(Raised, Silent, []);
      }
      var account := decoded.value;
      userData := userData.(selectedAccount := Some(account));
      var fetched := FetchRepos(Some(account), token, repos);
      if fetched.value == [] {
        return Step(Goto(End), Edit(NoReposText, []), fetched.sent);
      }
      step := Step(Goto(SelectProject), Edit(ChooseProjectText, RepoButtons(fetched.value)), fetched.sent);
    }

    /** `select_project`: store the pressed repository and ask for a title. */
    method SelectProjectHandler(data: string) returns (step: Step)
      modifies this`userData
      ensures userData == old(userData).(selectedRepo := Some(data))
      ensures step == Step(Goto(GetTitle), Edit(SelectedProjectText(data), []), [])
    {
      userData := userData.(selectedRepo := Some(data));
      step := Step(Goto(GetTitle), Edit(SelectedProjectText(data), []), []);
    }

    /** `get_title`: store the text and ask for a description. */
    method GetTitleHandler(text: string) returns (step: Step)
      modifies this`userData
      ensures userData == old(userData).(title := Some(text))
      ensures step == Step(Goto(GetDescription), Send(AskDescriptionText, []), [])
    {
      userData := userData.(title := Some(text));
      step := Step(Goto(GetDescription), Send(AskDescriptionText, []), []);
    }

    /** `get_description`: store the text, read back repository and title
        (KeyError when absent), refuse without an account, and otherwise file
        the issue and report its URL or a generic failure. Ends the conversation
        unless it raised. */
    method GetDescriptionHandler(text: string, token: Option<string>, issue: Response<string>)
      returns (step: Step)
      modifies this`userData
      ensures userData == old(userData).(description := Some(text))
      ensures old(userData).selectedRepo.None? || old(userData).title.None? ==> step == Step(Raised, Silent, [])
      ensures old(userData).selectedRepo.Some? && old(userData).title.Some? && old(userData).selectedAccount.None? ==>
        step == Step(Goto(End), Send(AccountMissingText, []), [])
      ensures old(userData).selectedRepo.Some? && old(userData).title.Some? && old(userData).selectedAccount.Some? ==>
        step == Step(Goto(End), Send(IssueReplyText(issue), []),
                     [IssueRequest(old(userData).selectedAccount.value.login, old(userData).selectedRepo.value,
                                   old(userData).title.value, text, token)])
    {
      userData := userData.(description := Some(text));
      if userData.selectedRepo.None? || userData.title.None? {
        return Step(Raised, Silent, []);
      }
      var repo, title, description := userData.selectedRepo.value, userData.title.value, userData.description.value;
      if userData.selectedAccount.None? {
        return Step(Goto(End), Send(AccountMissingText, []), []);
      }
      var request := IssueRequest(userData.selectedAccount.value.login, repo, title, description, token);
      step := Step(Goto(End), Send(IssueReplyText(issue), []), [request]);
    }

    /** One update through the `ConversationHandler`: pick the handler from the
        table, run it, and move to the state it returns (an exception leaves
        the state as it was). An update no handler takes changes nothing.
        `user_data` is never cleared, not even at `End`. */
    method Handle(u: Update, store: CredentialStore, remote: Remote) returns (step: Option<Step>)
      modifies this
      ensures step.Some? <==> Route(old(stage), u).Some?
      ensures step.None? ==> stage == old(stage) && userData == old(userData)
      ensures step.Some? ==> stage == (if step.value.next.Goto? then step.value.next.stage else old(stage))
      ensures Route(old(stage), u) == Some(OnStart) ==>
        && userData == old(userData)
        && stage == (if Accounts(remote.user, remote.orgs) == [] then End else SelectAccount)
        && step.value.sent == [UserRequest(FetchToken(store.tokens, userId)), OrgsRequest(FetchToken(store.tokens, userId))]
      ensures Route(old(stage), u) == Some(OnCancel) ==>
        userData == old(userData) && stage == End && step == Some(Step(Goto(End), Send(CanceledText, []), []))
      ensures Route(old(stage), u) == Some(OnSelectAccount) && Decode(u.data).None? ==>
        userData == old(userData) && stage == old(stage)
      ensures Route(old(stage), u) == Some(OnSelectAccount) && Decode(u.data).Some? ==>
        && userData == old(userData).(selectedAccount := Decode(u.data))
        && stage == (if FetchRepos(Decode(u.data), FetchToken(store.tokens, userId), remote.repos).value == []
                     then End else SelectProject)
      ensures Route(old(stage), u) == Some(OnSelectProject) ==>
        userData == old(userData).(selectedRepo := Some(u.data)) && stage == GetTitle
      ensures Route(old(stage), u) == Some(OnGetTitle) ==>
        userData == old(userData).(title := Some(u.text)) && stage == GetDescription
      ensures Route(old(stage), u) == Some(OnGetDescription) ==>
        userData == old(userData).(description := Some(u.text)) && (stage == End || stage == old(stage))
      ensures old(Consistent()) ==> Consistent()
      ensures old(Consistent()) && Route(old(stage), u) == Some(OnGetDescription) ==>
        && stage == End
        && step.value.output == Send(IssueReplyText(remote.issue), [])
        && step.value.sent == [IssueRequest(old(userData).selectedAccount.value.login, old(userData).selectedRepo.value,
                                            old(userData).title.value, u.text, Get(store.tokens, IdString(userId)))]
    {
      var handler := Route(stage, u);
      if handler.None? {
        return None;
      }
      var s: Step;
      match handler.value {
        case OnStart =>
          var token := None;
          if userId != 0 {
            token := store.GetToken(IdString(userId));
          }
          s := StartHandler(token, remote.user, remote.orgs);
        case OnSelectAccount =>
          var token := None;
          if userId != 0 {
            token := store.GetToken(IdString(userId));
          }
          s := SelectAccountHandler(u.data, token, remote.repos);
        case OnSelectProject =>
          s := SelectProjectHandler(u.data);
        case OnGetTitle =>
          s := GetTitleHandler(u.text);
        case OnGetDescription =>
          var token := store.GetToken(IdString(userId));
          s := GetDescriptionHandler(u.text, token, remote.issue);
        case OnCancel =>
          s := CancelHandler();
      }
      if s.next.Goto? {
        stage := s.next.stage;
      }
      step := Some(s);
    }
  }
}

/** A client of the engine: the contracts of `Handle` alone carry one user from
    `/start` to a filed issue. */
module EngineClient {
  import opened Wrappers
  import opened Http
  import opened Credentials
  import opened CallbackData
  import opened GitHubApi
  import opened Engine

  /** One user account "alice" with one repository "proj"; the issue POST answers 201. */
  method FileOneIssue(store: CredentialStore)
  {
    var url := "https://github.com/alice/proj/issues/1";
    var remote := Remote(Response(200, "alice"), Response(200, []), Response(200, [Repo("proj")]), Response(201, url));
    var c := new Conversation(7);
    var step := c.Handle(Command(StartCommand), store, remote);
    assert Accounts(remote.user, remote.orgs) == [Account("alice", UserKind)];
    assert c.stage == SelectAccount;
    DecodeEncode(Account("alice", UserKind));
    step := c.Handle(Callback(Encode(Account("alice", UserKind))), store, remote);
    assert c.stage == SelectProject;
    step := c.Handle(Callback("proj"), store, remote);
    assert c.stage == GetTitle;
    step := c.Handle(Text("Bug"), store, remote);
    assert c.stage == GetDescription;
    step := c.Handle(Text("Crashes on load"), store, remote);
    assert c.stage == End;
    assert step.value.sent == [IssueRequest("alice", "proj", "Bug", "Crashes on load", Get(store.tokens, IdString(7)))];
    assert step.value.output == Send(IssueCreatedPrefix + url, []);
    // `END` keeps what the conversation wrote
    assert c.userData == UserData(Some(Account("alice", UserKind)), Some("proj"), Some("Bug"), Some("Crashes on load"));
  }
}
