/**
 * The backup-and-discovery procedure `perform_backup_logic` of main.py.
 * The panel's HTTP answers are not computed here: a `Network` value is an
 * oracle that says what the login POST and each database GET return.
 */
module Panel {
  import opened Wrappers
  import opened Text

  /** The well-known database endpoints, probed in this order. */
  const PossiblePaths: seq<string> :=
    ["/panel/api/server/getDb", "/server/getDb", "/xui/server/getDb", "/api/server/getDb"]

  const LoginFailedMessage: string := "Login Failed (Check User/Pass)"
  const NotFoundMessage: string := "Database path not found (404)"
  /** A login body containing this marker counts as a successful login. */
  const SuccessMarker: string := "success"
  /** A download must be strictly longer than this many bytes to count as a database. */
  const MinDatabaseSize: nat := 1000

  /** One entry of servers.json; `dbPath` is `None` when the record has no 'db_path' key. */
  datatype Server = Server(name: string, url: string, username: string, password: string, dbPath: Option<string>)

  /** The form POST sent to the login URL. */
  datatype LoginRequest = LoginRequest(url: string, username: string, password: string)
  /** What the login answer exposes: its status, whether the session's cookie jar is non-empty, and its text. */
  datatype LoginResponse = LoginResponse(status: int, hasCookies: bool, body: string)
  datatype LoginOutcome = LoginRaised(message: string) | LoginAnswered(response: LoginResponse)
  /** A database GET either raises (including a failure to write the file) or answers with a status and a body length. */
  datatype FetchOutcome = FetchRaised | Fetched(status: int, contentLength: nat)
  datatype Network = Network(login: LoginRequest -> LoginOutcome, fetch: string -> FetchOutcome)

  /** The pair `(filepath, result)`: a truthy filepath with the working path, or `None` with a reason. */
  datatype BackupResult = Success(path: string) | Failure(reason: string)

  /** A scan of candidate paths: the path found, and the paths that were requested, in order. */
  datatype Discovery = Discovery(found: Option<string>, probed: seq<string>)
  /** A whole backup attempt: its result and the database paths it requested. */
  datatype Attempted = Attempted(result: BackupResult, probed: seq<string>)

  function BaseUrl(url: string): string { StripTrailingSlashes(url) }
  function LoginUrl(base: string): string { base + "/login" }
  function DbUrl(base: string, path: string): string { base + path }

  /** The login answer the panel gives for this server's credentials. */
  function LoginAnswer(server: Server, net: Network): LoginOutcome {
    net.login(LoginRequest(LoginUrl(BaseUrl(server.url)), server.username, server.password))
  }

  predicate LoginAccepted(res: LoginResponse) {
    res.status == 200 && (res.hasCookies || Contains(res.body, SuccessMarker))
  }

  predicate IsDatabase(o: FetchOutcome) {
    o.Fetched? && o.status == 200 && o.contentLength > MinDatabaseSize
  }

  /** The paths to try: the remembered path alone when it is set and non-empty, else the fixed list. */
  function Candidates(dbPath: Option<string>): (c: seq<string>)
    ensures forall i :: 0 <= i < |c| ==> c[i] != ""
    ensures |c| == 1 <==> dbPath.Some? && dbPath.value != ""
    ensures |c| == 1 ==> dbPath.Some? && c == [dbPath.value]
    ensures |c| != 1 ==> c == PossiblePaths
  {
    if dbPath.Some? && dbPath.value != "" then [dbPath.value] else PossiblePaths
  }

  /** Candidate `path` is requested and its answer is accepted as the database. */
  predicate Hit(base: string, path: string, fetch: string -> FetchOutcome) {
    path != "" && IsDatabase(fetch(DbUrl(base, path)))
  }

  /** The paths of `ps` the scan actually requests: empty ones are skipped. */
  function SkipEmpty(ps: seq<string>): seq<string> {
    if ps == [] then [] else (if ps[0] == "" then [] else [ps[0]]) + SkipEmpty(ps[1..])
  }

  lemma {:induction false} SkipEmptyAppend(a: seq<string>, b: seq<string>)
    ensures SkipEmpty(a + b) == SkipEmpty(a) + SkipEmpty(b)
  {
    if a == [] {
      assert a + b == b;
    } else {
      assert (a + b)[1..] == a[1..] + b;
      SkipEmptyAppend(a[1..], b);
    }
  }

  lemma {:induction false} SkipEmptyKeepsAll(ps: seq<string>)
    requires forall i :: 0 <= i < |ps| ==> ps[i] != ""
    ensures SkipEmpty(ps) == ps
  {
    if ps != [] {
      SkipEmptyKeepsAll(ps[1..]);
    }
  }

  /** The discovery loop as a function of its inputs: first hit wins, raised requests are skipped. */
  function Discover(base: string, paths: seq<string>, fetch: string -> FetchOutcome): Discovery
    decreases |paths|
  {
    if paths == [] then Discovery(None, [])
    else if paths[0] == "" then Discover(base, paths[1..], fetch)
    else if IsDatabase(fetch(DbUrl(base, paths[0]))) then Discovery(Some(paths[0]), [paths[0]])
    else
      var rest := Discover(base, paths[1..], fetch);
      Discovery(rest.found, [paths[0]] + rest.probed)
  }

  /** The scan stops at the first hit, having requested every non-empty path up to it. */
  lemma {:induction false} DiscoverFirstHit(base: string, paths: seq<string>, fetch: string -> FetchOutcome, k: nat)
    requires k < |paths| && Hit(base, paths[k], fetch)
    requires forall j :: 0 <= j < k ==> !Hit(base, paths[j], fetch)
    ensures Discover(base, paths, fetch) == Discovery(Some(paths[k]), SkipEmpty(paths[..k + 1]))
  {
    if k == 0 {
      assert paths[..1] == [paths[0]];
      assert SkipEmpty([paths[0]]) == [paths[0]] + SkipEmpty([paths[0]][1..]);
    } else {
      assert !Hit(base, paths[0], fetch);
      forall j | 0 <= j < k - 1 ensures !Hit(base, paths[1..][j], fetch) {
        assert paths[1..][j] == paths[j + 1];
      }
      DiscoverFirstHit(base, paths[1..], fetch, k - 1);
      assert paths[..k + 1][1..] == paths[1..][..k];
    }
  }

  /** The scan finds nothing exactly when no candidate is a hit; then it has requested them all. */
  lemma {:induction false} DiscoverMisses(base: string, paths: seq<string>, fetch: string -> FetchOutcome)
    ensures Discover(base, paths, fetch).found.None? <==>
      forall j :: 0 <= j < |paths| ==> !Hit(base, paths[j], fetch)
    ensures Discover(base, paths, fetch).found.None? ==>
      Discover(base, paths, fetch).probed == SkipEmpty(paths)
  {
    if paths != [] {
      DiscoverMisses(base, paths[1..], fetch);
      assert forall j :: 1 <= j < |paths| ==> paths[j] == paths[1..][j - 1];
      if forall j :: 0 <= j < |paths| ==> !Hit(base, paths[j], fetch) {
        assert forall j :: 0 <= j < |paths| - 1 ==> !Hit(base, paths[1..][j], fetch) by {
          forall j | 0 <= j < |paths| - 1 ensures !Hit(base, paths[1..][j], fetch) {
            assert paths[1..][j] == paths[j + 1];
          }
        }
      }
    }
  }

  /** A path the scan finds is a hit in the list, and every candidate before it failed. */
  lemma {:induction false} DiscoverSound(base: string, paths: seq<string>, fetch: string -> FetchOutcome)
    ensures Discover(base, paths, fetch).found.Some? ==>
      exists k :: 0 <= k < |paths| && paths[k] == Discover(base, paths, fetch).found.value
        && Hit(base, paths[k], fetch) && forall j :: 0 <= j < k ==> !Hit(base, paths[j], fetch)
  {
    if paths != [] {
      var d := Discover(base, paths, fetch);
      DiscoverSound(base, paths[1..], fetch);
      if Hit(base, paths[0], fetch) {
        assert paths[0] == d.found.value;
      } else if d.found.Some? {
        var rest := paths[1..];
        var k :| 0 <= k < |rest| && rest[k] == d.found.value
          && Hit(base, rest[k], fetch) && forall j :: 0 <= j < k ==> !Hit(base, rest[j], fetch);
        forall j | 0 <= j < k + 1 ensures !Hit(base, paths[j], fetch) {
          if j > 0 { assert paths[j] == rest[j - 1]; }
        }
        assert paths[k + 1] == rest[k];
      }
    }
  }

  /** `perform_backup_logic` as a function of the server record and the network's answers. */
  function Attempt(server: Server, net: Network): Attempted {
    var base := BaseUrl(server.url);
    match LoginAnswer(server, net)
    case LoginRaised(message) => Attempted(Failure(message), [])
    case LoginAnswered(res) =>
      if !LoginAccepted(res) then Attempted(Failure(LoginFailedMessage), [])
      else
        var d := Discover(base, Candidates(server.dbPath), net.fetch);
        match d.found
        case Some(path) => Attempted(Success(path), d.probed)
        case None => Attempted(Failure(NotFoundMessage), d.probed)
  }

  /**
   * The `for path in paths_to_try` loop: request each non-empty candidate in
   * turn and stop at the first answer with status 200 and more than 1000
   * bytes; a request that raises moves on to the next candidate. `probed`
   * records the paths requested, in order.
   */
  method ScanCandidates(base: string, paths: seq<string>, fetch: string -> FetchOutcome)
    returns (found: Option<string>, ghost probed: seq<string>)
    ensures found == Discover(base, paths, fetch).found
    ensures probed == Discover(base, paths, fetch).probed
  {
    probed := [];
    for i := 0 to |paths|
      invariant probed == SkipEmpty(paths[..i])
      invariant forall j :: 0 <= j < i ==> !Hit(base, paths[j], fetch)
    {
      var path := paths[i];
      SkipEmptyAppend(paths[..i], [path]);
      assert paths[..i + 1] == paths[..i] + [path];
      if path == "" {
        continue;
      }
      var fullUrl := base + path;
      probed := probed + [path];
      var outcome := fetch(fullUrl);
      if outcome.Fetched? && outcome.status == 200 && outcome.contentLength > MinDatabaseSize {
        DiscoverFirstHit(base, paths, fetch, i);
        return Some(path), probed;
      }
    }
    assert paths[..|paths|] == paths;
    DiscoverMisses(base, paths, fetch);
    return None, probed;
  }

  /**
   * `perform_backup_logic`: log in at the stripped base URL plus "/login",
   * reject the login unless the status is 200 and a cookie or the success
   * marker came back, then scan the candidate paths.
   */
  method PerformBackupLogic(server: Server, net: Network) returns (r: BackupResult, ghost probed: seq<string>)
    ensures r == Attempt(server, net).result
    ensures probed == Attempt(server, net).probed
  {
    var base := StripTrailingSlashes(server.url);
    var loginUrl := base + "/login";
    var answer := net.login(LoginRequest(loginUrl, server.username, server.password));
    if answer.LoginRaised? {
      return Failure(answer.message), [];
    }
    var res := answer.response;
    if res.status != 200 || (!res.hasCookies && !Contains(res.body, SuccessMarker)) {
      return Failure(LoginFailedMessage), [];
    }
    var paths := Candidates(server.dbPath);
    var found;
    found, probed := ScanCandidates(base, paths, net.fetch);
    if found.Some? {
      r := Success(found.value);
    } else {
      r := Failure(NotFoundMessage);
    }
  }

  /**
   * Login rule: once the panel answers, the attempt fails with the login
   * message exactly when the status is not 200 or neither a cookie nor the
   * marker "success" came back; then no database request is made, whatever
   * the database endpoints would have answered.
   */
  lemma LoginRule(server: Server, net: Network, otherFetch: string -> FetchOutcome)
    requires LoginAnswer(server, net).LoginAnswered?
    ensures var res := LoginAnswer(server, net).response;
      Attempt(server, net).result == Failure(LoginFailedMessage) <==>
        !(res.status == 200 && (res.hasCookies || exists i :: OccursAt(res.body, SuccessMarker, i)))
    ensures Attempt(server, net).result == Failure(LoginFailedMessage) ==>
      Attempt(server, net).probed == [] && Attempt(server, net.(fetch := otherFetch)) == Attempt(server, net)
  {
  }

  /** A backup succeeds exactly when login is accepted and some candidate is a hit. */
  lemma SuccessIff(server: Server, net: Network)
    ensures Attempt(server, net).result.Success? <==>
      LoginAnswer(server, net).LoginAnswered? && LoginAccepted(LoginAnswer(server, net).response) &&
      exists k :: 0 <= k < |Candidates(server.dbPath)| && Hit(BaseUrl(server.url), Candidates(server.dbPath)[k], net.fetch)
  {
    DiscoverMisses(BaseUrl(server.url), Candidates(server.dbPath), net.fetch);
  }

  /**
   * A successful result's path is a candidate that answered with a database;
   * with a remembered path, that path is the only one ever requested or returned.
   */
  lemma SuccessPathIsCandidate(server: Server, net: Network)
    ensures Attempt(server, net).result.Success? ==>
      Attempt(server, net).result.path in Candidates(server.dbPath) &&
      Hit(BaseUrl(server.url), Attempt(server, net).result.path, net.fetch)
    ensures server.dbPath.Some? && server.dbPath.value != "" ==>
      (Attempt(server, net).result.Success? ==> Attempt(server, net).result.path == server.dbPath.value) &&
      (Attempt(server, net).probed == [] || Attempt(server, net).probed == [server.dbPath.value])
  {
    var base, cands := BaseUrl(server.url), Candidates(server.dbPath);
    DiscoverSound(base, cands, net.fetch);
    DiscoverMisses(base, cands, net.fetch);
    SkipEmptyKeepsAll(cands);
  }

  /**
   * Candidates are tried in list order: when login is accepted and the `k`-th
   * candidate is the first hit, the backup returns it after requesting exactly
   * the first `k + 1` candidates.
   */
  lemma ScanInOrder(server: Server, net: Network, k: nat)
    requires LoginAnswer(server, net).LoginAnswered? && LoginAccepted(LoginAnswer(server, net).response)
    requires k < |Candidates(server.dbPath)|
    requires Hit(BaseUrl(server.url), Candidates(server.dbPath)[k], net.fetch)
    requires forall j :: 0 <= j < k ==> !Hit(BaseUrl(server.url), Candidates(server.dbPath)[j], net.fetch)
    ensures Attempt(server, net) == Attempted(Success(Candidates(server.dbPath)[k]), Candidates(server.dbPath)[..k + 1])
  {
  }

  /** When login is accepted and no candidate is a hit, every candidate is requested and the result is "not found". */
  lemma ScanNotFound(server: Server, net: Network)
    requires LoginAnswer(server, net).LoginAnswered? && LoginAccepted(LoginAnswer(server, net).response)
    requires forall j :: 0 <= j < |Candidates(server.dbPath)| ==> !Hit(BaseUrl(server.url), Candidates(server.dbPath)[j], net.fetch)
    ensures Attempt(server, net) == Attempted(Failure(NotFoundMessage), Candidates(server.dbPath))
  {
    var cands := Candidates(server.dbPath);
    DiscoverMisses(BaseUrl(server.url), cands, net.fetch);
    SkipEmptyKeepsAll(cands);
  }

  /** Trailing slashes on the configured URL change no request and no result. */
  lemma TrailingSlashesIrrelevant(server: Server, net: Network, k: nat)
    ensures Attempt(server.(url := server.url + Slashes(k)), net) == Attempt(server, net)
  {
    StripIgnoresTrailingSlashes(server.url, k);
  }
}
