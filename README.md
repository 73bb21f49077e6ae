# x-ui backup bot: a Dafny model of the backup and discovery logic

This project models the core of `main.py` in the x-ui backup bot. The bot
logs in to remote x-ui panels and downloads each panel's database file. It
finds the download endpoint by probing, and it remembers the path that
worked for each server in `servers.json`.

The model covers:

- **Login rule.** The login is accepted when the status is 200 and either
  the cookie jar is non-empty or the body contains `"success"`.
- **Candidate paths.** A server with a non-empty remembered `db_path` is
  probed at that path only. Any other server is probed at the four fixed
  `POSSIBLE_PATHS`, in their order.
- **Discovery scan.** The scan returns the first candidate that answers with
  status 200 and more than 1000 bytes. A request that raises, or a backup
  file that cannot be written, moves the scan on to the next candidate.
- **URLs.** Trailing `/` are stripped from the configured URL. Then
  `/login` or the candidate path is appended.
- **`backup_now`.** Every server is backed up in turn. A success whose path
  is new is stored in the record and the list is saved.
- **`/add` dialogue.** The states run NAME → URL → USERNAME → PASSWORD → END.
  `add_pass` tests the server and, on success, appends it to the list
  together with the path it discovered.

The panel's HTTP behaviour is an input. A `Panel.Network` value gives the
outcome of the login POST for each request, and the outcome of the database
GET for each URL. `backup_now` receives one `Network` per server, so each
server may see a different panel. `Panel.Attempt` is `perform_backup_logic`
written as a function of the server record and the network. The methods are
proved against it: `Panel.PerformBackupLogic` and `Panel.ScanCandidates`
hold the loop. The lemmas state what the function guarantees.

In this revision of the code:

- there are no login retries or timing profiles;
- passwords are stored in plain text;
- there is no scheduler and no status poller;
- a download is accepted on size alone (more than 1000 bytes), with no
  check of the file signature;
- a remembered path is the only path tried, with no fallback to the fixed
  list;
- the URL check in the dialogue only tests that the text starts with
  `"http"`, so `"httpfoo"` is accepted.

Files: `wrappers.dfy` (Option), `text.dfy` (the Python string operations
used), `panel.dfy` (`perform_backup_logic`), `registry.dfy` (the server list
and `backup_now`), `dialogue.dfy` (the `/add` conversation).

## Model

| member | source | states |
|---|---|---|
| Text.StripTrailingSlashes | main.py:51 | The base URL is a prefix of the configured URL. It does not end in `/`, and everything the strip removed is `/`. |
| Text.StripUnique | main.py:51 | Any split of a URL into a prefix that does not end in `/` plus a run of slashes has exactly the stripped base URL as its prefix. |
| Text.StripIgnoresTrailingSlashes | main.py:51 | Adding any number of trailing slashes to a URL leaves its base URL unchanged. |
| Text.Contains | main.py:58 | The substring test `pat in text` is true exactly when `pat` occurs at some index of `text`. |
| Panel.Candidates | main.py:27-63 | No candidate is empty. The list has one element exactly when a non-empty `db_path` is remembered, and then it is that path. Otherwise it is the four fixed paths in their order. |
| Panel.DiscoverFirstHit | main.py:65-75 | When candidate `k` is the first that answers status 200 with more than 1000 bytes, the scan returns it after requesting the non-empty candidates `0..k` and no others. |
| Panel.DiscoverMisses | main.py:65-78 | The scan finds nothing exactly when no candidate qualifies (raised requests never qualify). In that case it has requested every non-empty candidate. |
| Panel.DiscoverSound | main.py:65-75 | A path the scan returns is a candidate that qualified, and every candidate before it did not qualify. |
| Panel.ScanCandidates | main.py:65-78 | The loop returns the scan's result and requests the same paths in the same order. |
| Panel.PerformBackupLogic | main.py:49-80 | The method's result and the database paths it requests are those of `Attempt`: login at base + `/login`, the login rule, candidate selection, then the scan. |
| Panel.LoginRule | main.py:56-59 | Once the panel answers the login, the result is "Login Failed (Check User/Pass)" exactly when the status is not 200 or neither a cookie nor `"success"` came back. In that case no database request is made, and the result does not depend on the database endpoints. |
| Panel.SuccessIff | main.py:58-78 | A backup succeeds exactly when the login is answered and accepted and some candidate qualifies. |
| Panel.SuccessPathIsCandidate | main.py:62-75 | A successful path is a candidate that answered with a database. With a remembered path, that path is the only one ever requested and the only one ever returned. |
| Panel.ScanInOrder | main.py:63-75 | After an accepted login, when candidate `k` is the first to qualify, the result is that candidate and exactly the first `k + 1` candidates were requested. |
| Panel.ScanNotFound | main.py:65-78 | After an accepted login with no qualifying candidate, the result is "Database path not found (404)" and every candidate was requested. |
| Panel.TrailingSlashesIrrelevant | main.py:51-67 | Trailing slashes on the configured URL change neither the requests nor the result. |
| Registry.Memoise | main.py:113-115 | A successful backup leaves `db_path` equal to the returned path. A failed one leaves the record unchanged. No other field changes. The record changes exactly when `db_path` was absent or different. |
| Registry.SaveCount | main.py:114-116 | `backup_now` saves at most once per server. |
| Registry.SaveCountZero | main.py:114-116 | `backup_now` saves nothing exactly when no server's success brings a new path. |
| Registry.ResultsAt | main.py:110-112 | Server `i`'s result is its own attempt, whatever happened to the other servers. |
| Registry.MemoiseAllAt | main.py:110-115 | Record `i` after the loop is record `i` memoised with its own result. |
| Registry.MemoiseSettles | main.py:62-116 | After a successful backup, every later backup of the stored record requests only the stored path and never saves again. |
| Registry.ResultsExtend | main.py:110-112 | Backing up one more server appends that server's attempt to the results. |
| Registry.MemoiseExtend | main.py:113-115 | Writing the path into record `i` in place extends the memoised prefix by one record and leaves the rest of the list alone. |
| Registry.SaveCountExtend | main.py:114-116 | The save count grows by one exactly when record `i` needs a save. |
| Registry.ServerStore.Load | main.py:37-41 | Loading returns the stored list. |
| Registry.ServerStore.Save | main.py:43-44 | Saving stores the whole list and counts one write. |
| Registry.ServerStore.BackUpOne | main.py:111-116 | One pass backs up server `i`. It writes the returned path into record `i` exactly when `db_path` was absent or different, and asks for a save exactly then. |
| Registry.ServerStore.BackUpEach | main.py:110-116 | The sequential loop gives every server's result in order. The stored list becomes every record memoised with its own result, and the number of writes is the save count. |
| Registry.ServerStore.BackupNow | main.py:102-124 | An unauthorised call changes nothing. Otherwise every server is attempted, a failure does not stop the loop, and the list keeps its length. Each record is memoised with its own result and the file is written once per new path. |
| Dialogue.AddStart | main.py:131-134 | An unauthorised user ends the conversation. Otherwise it moves to NAME. `user_data` is untouched. |
| Dialogue.AddName | main.py:136-139 | The name is stored, all other answers are kept, and the conversation moves to URL. |
| Dialogue.AddUrl | main.py:141-148 | The conversation moves to USERNAME exactly when the text starts with `"http"`, and then the URL is stored. Otherwise it stays at URL with `user_data` unchanged. |
| Dialogue.AddUser | main.py:150-153 | The username is stored and the conversation moves to PASSWORD. |
| Dialogue.Cancel | main.py:174-176 | `/cancel` ends the conversation. |
| Dialogue.FeedKeepsCollected | main.py:180-187 | For any sequence of texts, every state reached has the answers it needs. So PASSWORD is reached only with name, username and an accepted URL stored. |
| Dialogue.UrlRetries | main.py:141-145 | Rejected URLs keep the conversation at URL and change nothing. |
| Dialogue.FeedReachesPassword | main.py:131-153 | A name, any number of rejected URLs, an accepted URL and a username take the conversation from NAME to PASSWORD with exactly those answers stored. |
| Dialogue.Entered | main.py:160 | The tested record holds the entered name, URL, username and password, with no `db_path`. |
| Dialogue.AddPass | main.py:155-172 | The conversation always ends. On a successful test, exactly one record is appended: the entered fields with `db_path` set to the discovered path, which is one of the four fixed paths. On failure the list and the file are unchanged. |

## Left out

- Telegram: messages, documents, message edits and deletions, and the
  `Application` and `ConversationHandler` wiring and `main()` are user
  interface. Only the states table is modelled, as `Dialogue.Feed`.
  `/start`, `/list` and `/delete` only send text.
- HTTP: sessions, disabled TLS verification and timeouts are not modelled.
  Each request's outcome is an input (`Panel.Network`). The input assumes
  the same request always gets the same answer within one attempt.
- Cookies are reduced to a flag that says whether the jar is non-empty after
  the login.
- File I/O: `servers.json` is modelled as the field
  `ServerStore.persisted`, and each write as a step of `saves`.
  `load_servers` returning `[]` for a missing or unreadable file is not
  modelled. Writing and deleting the backup file and `os.makedirs` are not
  modelled. A failed write is the candidate's `FetchRaised` outcome.
- The timestamped backup file name comes from the clock, so a success
  carries only the path (`Panel.BackupResult.Success`).
- `check_auth` compares against external configuration, so it is the
  parameter `authorised`.
- An exception raised by the login request becomes an opaque message
  (`LoginRaised`). Its text is whatever `str(e)` gives.
- Server records are assumed to hold string `name`, `url`, `username` and
  `password`. A `db_path` of JSON `null` behaves exactly like `""` in both
  places the backup logic reads it, so it is modelled as `Some("")`.
- Registry.ServerStore.BackupNow: assumes the Telegram calls in the loop body
  never raise. The loop body of main.py:110-123 has no `try`; only
  `perform_backup_logic` catches its own exceptions. An exception from `reply_text`, sending or removing the backup file,
  `delete_message` or `edit_text` leaves `backup_now`. For example, Telegram
  can refuse a Markdown caption that holds an unescaped server name. The
  later servers are then never tried. The current record was already saved
  at line 116. The model always attempts every server.
- Dialogue.AddPass: requires that name, URL and username are in
  `user_data`. The source would raise `KeyError` otherwise, but the
  conversation never reaches PASSWORD without them
  (`Dialogue.FeedKeepsCollected`).
