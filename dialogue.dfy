/**
 * The /add conversation: the handlers `add_start`, `add_name`, `add_url`,
 * `add_user`, `add_pass` and `cancel`. Each handler receives the user's
 * text and the conversation's `user_data` and returns the next state.
 */
module Dialogue {
  import opened Wrappers
  import opened Text
  import opened Panel
  import opened Registry

  /** The conversation states NAME, URL, USERNAME, PASSWORD and ConversationHandler.END. */
  datatype ConvState = Name | Url | Username | Password | End

  /** `context.user_data`: the answers collected so far. */
  type UserData = map<string, string>

  /** A handler's return value together with the `user_data` it leaves behind. */
  datatype Step = Step(next: ConvState, data: UserData)

  /** The URL check of `add_url`: the text starts with "http". */
  predicate IsHttpUrl(text: string) {
    StartsWith(text, "http")
  }

  /** Everything a state needs has been collected, and an accepted URL passed the check. */
  ghost predicate Collected(state: ConvState, data: UserData) {
    match state
    case Name => true
    case End => true
    case Url => "name" in data
    case Username => "name" in data && "url" in data && IsHttpUrl(data["url"])
    case Password => "name" in data && "url" in data && "username" in data && IsHttpUrl(data["url"])
  }

  /** `add_start`: an unauthorised user ends the conversation; otherwise ask for the name. */
  function AddStart(authorised: bool, data: UserData): (s: Step)
    ensures s.data == data
    ensures s.next == End <==> !authorised
    ensures s.next == End || s.next == Name
  {
    if !authorised then Step(End, data) else Step(Name, data)
  }

  /** `add_name`: store the name, ask for the URL. */
  function AddName(data: UserData, text: string): (s: Step)
    ensures s.next == Url && Collected(s.next, s.data)
    ensures "name" in s.data && s.data["name"] == text
    ensures forall k :: k in data && k != "name" ==> k in s.data && s.data[k] == data[k]
  {
    Step(Url, data["name" := text])
  }

  /** `add_url`: a text starting with "http" is stored and moves on; any other text keeps asking. */
  function AddUrl(data: UserData, text: string): (s: Step)
    ensures s.next == Username <==> IsHttpUrl(text)
    ensures s.next == Url || s.next == Username
    ensures s.next == Url ==> s.data == data
    ensures s.next == Username ==> "url" in s.data && s.data["url"] == text
    ensures s.next == Username ==> forall k :: k in data && k != "url" ==> k in s.data && s.data[k] == data[k]
    ensures Collected(Url, data) ==> Collected(s.next, s.data)
  {
    if !IsHttpUrl(text) then Step(Url, data) else Step(Username, data["url" := text])
  }

  /** `add_user`: store the username, ask for the password. */
  function AddUser(data: UserData, text: string): (s: Step)
    ensures s.next == Password
    ensures "username" in s.data && s.data["username"] == text
    ensures forall k :: k in data && k != "username" ==> k in s.data && s.data[k] == data[k]
    ensures Collected(Username, data) ==> Collected(Password, s.data)
  {
    Step(Password, data["username" := text])
  }

  /** `cancel`: ends the conversation from any state. */
  function Cancel(data: UserData): (s: Step)
    ensures s.next == End && s.data == data
  {
    Step(End, data)
  }

  /**
   * The states table of the conversation: text in NAME, URL and USERNAME goes
   * to that state's handler. The text after PASSWORD is the password, which
   * `AddPass` handles, so feeding stops there and at END.
   */
  function Feed(state: ConvState, data: UserData, texts: seq<string>): Step
    decreases |texts|
  {
    if texts == [] then Step(state, data)
    else match state
      case Name => var s := AddName(data, texts[0]); Feed(s.next, s.data, texts[1..])
      case Url => var s := AddUrl(data, texts[0]); Feed(s.next, s.data, texts[1..])
      case Username => var s := AddUser(data, texts[0]); Feed(s.next, s.data, texts[1..])
      case Password => Step(state, data)
      case End => Step(state, data)
  }

  /** However the user answers, every state reached has the answers it needs. */
  lemma {:induction false} FeedKeepsCollected(state: ConvState, data: UserData, texts: seq<string>)
    requires Collected(state, data)
    ensures Collected(Feed(state, data, texts).next, Feed(state, data, texts).data)
    decreases |texts|
  {
    if texts != [] {
      match state
      case Name => var s := AddName(data, texts[0]); FeedKeepsCollected(s.next, s.data, texts[1..]);
      case Url => var s := AddUrl(data, texts[0]); FeedKeepsCollected(s.next, s.data, texts[1..]);
      case Username => var s := AddUser(data, texts[0]); FeedKeepsCollected(s.next, s.data, texts[1..]);
      case Password =>
      case End =>
    }
  }

  /** At the URL step, texts not starting with "http" are refused one by one and change nothing. */
  lemma {:induction false} UrlRetries(data: UserData, refused: seq<string>, rest: seq<string>)
    requires forall i :: 0 <= i < |refused| ==> !IsHttpUrl(refused[i])
    ensures Feed(Url, data, refused + rest) == Feed(Url, data, rest)
  {
    if refused != [] {
      assert (refused + rest)[0] == refused[0];
      assert AddUrl(data, refused[0]) == Step(Url, data);
      assert (refused + rest)[1..] == refused[1..] + rest;
      assert Feed(Url, data, refused + rest) == Feed(Url, data, refused[1..] + rest);
      UrlRetries(data, refused[1..], rest);
    } else {
      assert refused + rest == rest;
    }
  }

  /**
   * A name, any number of refused URLs, an accepted URL and a username bring
   * the conversation from NAME to PASSWORD with exactly those answers stored.
   */
  lemma FeedReachesPassword(data: UserData, name: string, refused: seq<string>, url: string, user: string)
    requires forall i :: 0 <= i < |refused| ==> !IsHttpUrl(refused[i])
    requires IsHttpUrl(url)
    ensures Feed(Name, data, [name] + refused + [url, user]) ==
      Step(Password, data["name" := name]["url" := url]["username" := user])
  {
    var texts := [name] + refused + [url, user];
    assert texts[0] == name && texts[1..] == refused + [url, user];
    UrlRetries(data["name" := name], refused, [url, user]);
    assert [url, user][1..] == [user];
    assert [user][1..] == [];
    var d1 := data["name" := name];
    assert Feed(Name, data, texts) == Feed(Url, d1, refused + [url, user]);
    var d2 := d1["url" := url];
    assert AddUrl(d1, url) == Step(Username, d2);
    assert Feed(Url, d1, [url, user]) == Feed(Username, d2, [user]);
    assert AddUser(d2, user) == Step(Password, d2["username" := user]);
    assert Feed(Username, d2, [user]) == Feed(Password, d2["username" := user], []);
  }

  /** The record `add_pass` builds from the answers: no 'db_path' key yet. */
  function Entered(data: UserData, password: string): (s: Server)
    requires "name" in data && "url" in data && "username" in data
    ensures s.dbPath == None && s.password == password
    ensures s.name == data["name"] && s.url == data["url"] && s.username == data["username"]
  {
    Server(data["name"], data["url"], data["username"], password, None)
  }

  /**
   * `add_pass`: test the entered server with a full backup attempt; on
   * success append it, with the discovered path, to the stored list and
   * save. The conversation always ends.
   */
  method AddPass(store: ServerStore, data: UserData, password: string, net: Network)
    returns (next: ConvState, result: BackupResult)
    requires "name" in data && "url" in data && "username" in data
    modifies store
    ensures next == End
    ensures result == Attempt(Entered(data, password), net).result
    ensures result.Success? ==> result.path in PossiblePaths
    ensures result.Success? ==>
      store.persisted == old(store.persisted) + [Entered(data, password).(dbPath := Some(result.path))] &&
      store.saves == old(store.saves) + 1
    ensures result.Failure? ==> store.persisted == old(store.persisted) && store.saves == old(store.saves)
  {
    var tempServer := Server(data["name"], data["url"], data["username"], password, None);
    ghost var probed: seq<string>;
    result, probed := PerformBackupLogic(tempServer, net);
    SuccessPathIsCandidate(tempServer, net);
    if result.Success? {
      tempServer := tempServer.(dbPath := Some(result.path));
      var servers := store.Load();
      servers := servers + [tempServer];
      store.Save(servers);
    }
    next := End;
  }
}
