# Code-judge leaderboard: a Dafny model

This project models the logic of a small programming-contest application.

- **Grading engine.** It receives a submission and a list of tests. For each test it runs the submission's entry function on the test input. Any fault becomes an `ERROR: <Kind>: <message>` text. The output is compared with the expected text after stripping surrounding whitespace. The per-test outcomes are then summed into a verdict.
- **Backend around the engine.** This covers:
  - the leaderboard table, its default ordering and its display text;
  - score bookkeeping with case-insensitive lookup and scores clamped at zero;
  - the leaderboard and text-processing views;
  - the OAuth session views;
  - two management commands that seed problems and test cases.
- **Frontend authentication service.** It caches the "am I logged in?" answer for five seconds.

Modules, one per source file or shared concept:

| module | file | models |
|---|---|---|
| `Optional`, `Json`, `Text`, `Http` | `optional.dfy`, `json.dfy`, `text.dfy`, `http.dfy` | `Option`; JSON/Python values and their truthiness; Python's `strip`, `split` and reversal, `iexact` case folding and `str(int)`; Django responses |
| `Grader` | `grader.dfy` | `grader/main.py` |
| `Leaderboard` | `leaderboard.dfy` | `backend/api/models.py` |
| `Scores` | `scores.dfy` | `backend/api/utils.py` |
| `Views` | `views.dfy` | `backend/api/views.py` |
| `Auth`, `AuthViews` | `auth.dfy`, `auth_views.dfy` | `backend/api/auth.py`, `backend/api/auth_views.py` |
| `AddProblems`, `AddTestcases` | `add_problems.dfy`, `add_testcases.dfy` | the `add_problems` and `add_testcases` management commands |
| `AuthService` | `auth_cache.dfy` | `frontend/src/services/auth.ts` |

A submission cannot be run in Dafny, so it is represented by what the interpreter makes of it:

- the namespace that `exec` leaves behind, as an ordered list of `(name, isCallable)` bindings, or the exception `exec` raised;
- a function from a binding and its call arguments to the `str()` of the result, or to the exception the call raised.

Other foreign or nondeterministic inputs become parameters of the operations:

- the clock;
- the random draws;
- the OAuth token exchange and the user-info request;
- the outcome of `fetch`;
- `str.upper`.

The model follows the code in its edge cases. A request with no tests is graded **correct**: `correct` starts true and only a failing test clears it (grader/main.py:63-70). The last ensures of `Grader.Grade` states this.

Another quirk the model keeps concerns `callback`. It stores the user and the token in the session before it imports a helper from the views module, and the views module does not define that helper. When that import fails, the login ends in an error redirect, yet the session stays authenticated (`AuthViews.FailedImportLeavesSessionAuthenticated`).

## Model

| member | source | states |
|---|---|---|
| `Grader.FindEntry` | grader/main.py:34-38 | the chosen binding is the first one in namespace order that is callable and not named with a leading `__`; none is chosen exactly when no binding qualifies |
| `Grader.FirstDefinedWins` | grader/main.py:34-38 | with two eligible functions defined, only the first is called, whatever follows it |
| `Grader.SingleUnderscoreIsEligible` | grader/main.py:35-36 | a `__`-prefixed name is skipped but a `_`-prefixed one is called |
| `Grader.Dispatch` | grader/main.py:44-49 | a list input becomes positional arguments (an empty list, none), a dict becomes keyword arguments, and any other value, strings included, is the one argument |
| `Grader.DispatchCollisions` | grader/main.py:44-49 | because the shape decides the call, `[v]` and `v` make the same call for a scalar `v`, and `[]` and `{}` both make a call with no arguments |
| `Grader.Execute` | grader/main.py:21-54 | a load fault gives `ERROR: Kind: msg`; no eligible function gives exactly `ERROR: No function found in code`; otherwise the output is the rendered outcome of calling the first eligible function with the dispatched arguments |
| `Grader.FaultsBecomeErrorText` | grader/main.py:26-54 | every fault (load, discovery, call) yields a text starting with `ERROR: `, and a fault-free run yields a text some binding actually returned |
| `Grader.Judge` | grader/main.py:66-79 | a result copies the test's id, input, expected text and `is_public`, keeps the unstripped output, and passes iff the stripped output equals the stripped expected text |
| `Grader.PaddingNeverFails` | grader/main.py:67 | whitespace added around either side never changes whether a test passes |
| `Grader.NoFunctionEveryTest` | grader/main.py:40-41 | with no eligible function every test outputs the fixed `ERROR: No function found in code` text, and passes only if its expected text strips to it |
| `Grader.CountPassedBounds` | grader/main.py:85 | the count of passed results is at most the number of results, with equality iff every result passed |
| `Grader.Grade` | grader/main.py:57-86 | one result per test in test order; `total_tests` is the test count; `passed_tests` counts the passed results and is at most the total; `correct` holds iff every result passed, hence for an empty test list too |
| `Grader.JudgeAllInOrder` | grader/main.py:66-79 | result `k` of the whole run is the judgement of test `k` |
| `Grader.RunTests` | grader/main.py:62-79 | the loop judges the tests in order and its `all_passed` flag is true iff every result passed |
| `Grader.SumPassed` | grader/main.py:85 | the summing loop returns the number of passed results |
| `Grader.TestsArePublicByDefault` | grader/main.py:14 | a test built without the flag is public |
| `Text.StripShape` | grader/main.py:67 | stripping removes exactly a whitespace prefix and suffix, leaving no whitespace at either end |
| `Text.StripIgnoresPadding` | grader/main.py:67 | whitespace around a text does not change its stripped form |
| `Text.StripIdempotent` | backend/api/management/commands/add_problems.py:24 | stripping twice is stripping once |
| `Text.Split` | backend/api/views.py:79 | `split()` yields only non-empty words free of whitespace |
| `Text.SplitCountsWordStarts` | backend/api/views.py:79 | the number of words `split()` yields equals the number of places where a non-space character follows a space or the start |
| `Text.Reverse` | backend/api/views.py:80 | `text[::-1]` has the same length and holds character `n-1-i` at position `i` |
| `Text.ReverseInvolutive` | backend/api/views.py:80 | reversing twice gives the text back |
| `Text.IntToStringRoundTrip` | backend/api/models.py:15 | `str(score)` is a minus sign followed by digits, or digits alone, and reads back as the same integer |
| `Leaderboard.PrecedesIsTotalPreorder` | backend/api/models.py:10 | the default ordering (score descending, then creation time ascending) is reflexive, total and transitive |
| `Leaderboard.Insert` | backend/api/models.py:10 | inserting into an ordered list keeps it ordered and adds exactly the new entry |
| `Leaderboard.SortDefault` | backend/api/models.py:10 | the default order is a permutation of the table in which higher scores come first and, among equal scores, earlier creation times |
| `Leaderboard.DisplayRoundTrip` | backend/api/models.py:14-15 | the display text is the name, `" - "`, and the score, which reads back from the text |
| `Leaderboard.FirstMatching` | backend/api/utils.py:17 | the position found is the first whose name matches case-insensitively; none is found iff no name matches |
| `Leaderboard.FindByName` | backend/api/utils.py:17 | the entry found is a case-insensitive match that comes first in the default ordering among all matches; none is found iff no entry matches |
| `Leaderboard.SetScore` | backend/api/utils.py:26-32 | saving changes the score and `updated_at` of the saved row and nothing else |
| `Scores.AddScoreDelta` | backend/api/utils.py:4-46 | with no match the result is `Player "<name>" not found` and the table is unchanged; otherwise the rows carrying the id of the match that comes first in the default ordering (and no others) get the score `max(0, old + delta)` and the new timestamp, and the result reports the stored name, the old score, the new score and the requested (unclamped) delta |
| `Scores.OnlyMatchedRowChanges` | backend/api/utils.py:17-32 | when ids are unique, as the primary key guarantees, an applied update changes exactly one row, a matching one, to the new score and timestamp |
| `Scores.AddScoreDeltaPreservesInvariants` | backend/api/utils.py:25-32 | an update keeps every score non-negative and every name within 100 characters |
| `Scores.IncreaseScore` | backend/api/utils.py:48-59 | increasing by `n` is adding the delta `n`: same table and result, failing iff no name matches, with new score `max(0, old + n)` |
| `Scores.DecreaseScore` | backend/api/utils.py:61-72 | decreasing by `n` is adding the delta `-n`: same table and result, failing iff no name matches, with new score `max(0, old - n)`; for a non-negative `n` it never raises a non-negative score |
| `Scores.UpdatedPlayerIsFoundAgain` | backend/api/utils.py:17-32 | after updating a uniquely named player, the lookup finds that player again with the new score |
| `Scores.IncreaseThenDecreaseRestores` | backend/api/utils.py:48-72 | increasing and then decreasing a uniquely named player's non-negative score by the same amount restores it |
| `Scores.RandomScoreIncrease` | backend/api/utils.py:74-87 | an empty range raises before the table is touched; otherwise the outcome is adding some delta drawn from the bounds, inclusive, and a non-negative range never lowers the score |
| `Scores.GetPlayerScore` | backend/api/utils.py:89-118 | read-only: the name and score of the case-insensitively matching player that comes first in the default ordering, or `Player "<name>" not found` iff none matches |
| `Scores.ReadAfterUpdate` | backend/api/utils.py:89-112 | after an update of a uniquely named player, reading the score gives the reported new score |
| `Views.AddCors` | backend/api/views.py:9-13 | exactly the three `Access-Control-*` headers are set, to their fixed values; status, body and all other headers are unchanged |
| `Views.Rank` | backend/api/views.py:33-40 | rows are ranked 1..n consecutively in entry order, each carrying its entry's name and score unchanged and one of the 25 avatar emoji |
| `Views.LeaderboardListing` | backend/api/views.py:28-40 | the listing ranks 1..n, never places a lower score above a higher one, and holds exactly the table's names and scores |
| `Views.GetLeaderboard` | backend/api/views.py:22-46 | OPTIONS answers `{'success': True}`; otherwise the body holds exactly `success: True` and a leaderboard whose row `i` is the JSON of the `i`-th ranked row of the default order, with its avatar as an emoji string; CORS headers are always set |
| `Views.LeaderboardResponseRanks` | backend/api/views.py:33-40 | row `i` of the returned leaderboard has rank `i + 1` |
| `Views.LeaderboardResponseAvatars` | backend/api/views.py:15-39 | every row of the returned leaderboard carries one of the 25 avatar emoji as a string |
| `Views.LeaderboardResponseOrdered` | backend/api/views.py:28-40 | no row of the returned leaderboard has a lower score than a row below it |
| `Views.Analyse` | backend/api/views.py:76-82 | the report gives the text's length, its whitespace-separated word count, and its reversal |
| `Views.HenryBump` | backend/api/views.py:70 | the bump applied to Henry Davis is between 100 and 200 points, and fails iff nobody of that name is on the board |
| `Views.RenderReport` | backend/api/views.py:77-88 | the processed text starts with the analysis and goes on with the bonus lines about Henry's bump exactly when the bump succeeded |
| `Views.TextReply` | backend/api/views.py:72-100 | blank text gets the fixed "No text provided…" message, other text its report, which extends the report without a bonus exactly when the bump applied; `score_update` is present exactly when the bump applied |
| `Views.ProcessPayload` | backend/api/views.py:66-103 | the bump happens first; a `text` that is not a string is a 500 with Python's AttributeError message, a string gets the text reply |
| `Views.ProcessText` | backend/api/views.py:55-117 | OPTIONS answers success, other non-POST methods 405 `Method not allowed`, malformed JSON 400 `Invalid JSON data`, a body that does not decode as text a 500 with the decoder's message, non-dict JSON a 500, and a dict the payload handling; CORS headers are always set |
| `Views.HenryBumpedOnEveryPayload` | backend/api/views.py:66-73 | every POST of a JSON dict updates Henry Davis's row (when present) to the reported new score, with a reported delta of 100 to 200, blank or non-string text included, and leaves the rows with other ids alone |
| `Auth.GetCurrentUser` | backend/api/auth.py:116-126 | the stored user, or `None` when there is none |
| `Auth.LoginRequired` | backend/api/auth.py:96-113 | a 401 with `login_url '/api/auth/login'` and the session untouched exactly when no user is stored; otherwise the wrapped view's reply to the unchanged request |
| `Auth.AuthenticatedPassesLoginRequired` | backend/api/auth.py:104-110 | an authenticated request always reaches the wrapped view |
| `Auth.LoginRequiredAdmitsTokenlessSession` | backend/api/auth.py:129-139 | a session with a user but no token is not authenticated, yet passes `login_required` |
| `AuthViews.Login` | backend/api/auth_views.py:20-49 | methods other than GET and POST get 405; a provider failure gives 500 `Failed to initiate login` with details and no session change; otherwise the state is stored and nothing else changes, then GET redirects to the authorization URL and POST returns it as JSON |
| `AuthViews.LoginKeepsAuthentication` | backend/api/auth_views.py:33 | starting a login changes nobody's authentication |
| `AuthViews.ChosenUserInfo` | backend/api/auth_views.py:80-94 | user information comes from the token's `user`, else its `userinfo`, else the request made with its `access_token` |
| `AuthViews.TokenUserInfoOverridesFetch` | backend/api/auth_views.py:81-94 | when the token carries user information the user-info request plays no part |
| `AuthViews.Callback` | backend/api/auth_views.py:52-129 | a failed exchange or user-info fetch redirects with `login=error` and leaves the session as it was; otherwise user and token are stored, and on success the state is removed and the browser is sent to the requested path with `login=success` |
| `AuthViews.FailedImportLeavesSessionAuthenticated` | backend/api/auth_views.py:105-114 | when the helper import fails, the reply is an error redirect over an authenticated session |
| `AuthViews.Logout` | backend/api/auth_views.py:132-153 | the session is emptied, so it holds neither user nor token and is not authenticated |
| `AuthViews.GetProfile` | backend/api/auth_views.py:156-182 | 401 `Not authenticated` iff the session is not authenticated, otherwise the stored user; the session is untouched |
| `AuthViews.UserSummary` | backend/api/auth_views.py:198-205 | the summary has exactly `id`, `username`, `name` and `picture`, with `name` falling back to `username` |
| `AuthViews.CheckAuth` | backend/api/auth_views.py:185-207 | reports the authentication flag, and the user summary when authenticated with a dict user; an authenticated session whose user is not a dict gets a 500 |
| `AuthViews.DebugToken` | backend/api/auth_views.py:223-247 | non-GET gets 405; an unauthenticated session gets `Not authenticated`; an authenticated one gets a report iff its token and user are both dicts, and the report holds only whether the token has an access token, its type, and the user's keys, username and name |
| `AuthViews.DebugTokenHidesToken` | backend/api/auth_views.py:236-247 | two tokens that agree on having an access token and on their type give the same report |
| `AddProblems.CheckItem` | backend/api/management/commands/add_problems.py:23-34 | an item is accepted iff it is a dict whose stripped name is non-empty and whose points are an int (a bool counts); the problem gets the stripped name, the points and the assignment or `""`; an item raises iff it is not a dict or its name is truthy and not a string; a dict with a string name that strips to nothing, or with non-int points, is skipped |
| `AddProblems.AcceptedNameIsStripped` | backend/api/management/commands/add_problems.py:24 | an accepted name is non-empty and has no whitespace at either end |
| `AddProblems.BoolPointsAccepted` | backend/api/management/commands/add_problems.py:25-28 | `True` as points is accepted and stored as 1 |
| `AddProblems.ScanItems` | backend/api/management/commands/add_problems.py:22-34 | when no item raises, every item is counted once, either as a created problem or as a skipped position |
| `AddProblems.ScanRaisesIffItemRaises` | backend/api/management/commands/add_problems.py:23-34 | the loop ends in an exception exactly when some item's body raises |
| `AddProblems.SkippedItemsAreInvalid` | backend/api/management/commands/add_problems.py:23-32 | every reported position is 1-based, within the list, and names an item that is skipped: a dict whose string name strips to nothing or whose points are not an int |
| `AddProblems.InvalidItemsAreSkipped` | backend/api/management/commands/add_problems.py:23-32 | every skipped item (a dict whose string name strips to nothing or whose points are not an int) has its 1-based position reported |
| `AddProblems.AcceptedPositionsIncrease` | backend/api/management/commands/add_problems.py:22-34 | the positions of the valid items are listed in increasing order, each within the list |
| `AddProblems.AcceptedPositionsCover` | backend/api/management/commands/add_problems.py:22-34 | every valid item's position is listed |
| `AddProblems.AcceptedInInputOrder` | backend/api/management/commands/add_problems.py:22-34 | the accepted problems are exactly one per valid item: problem `k` is the one built from the `k`-th valid item in input order |
| `AddProblems.AcceptedProblemsSnoc` | backend/api/management/commands/add_problems.py:22-34 | appending an item appends its problem when it is valid and nothing otherwise |
| `AddProblems.ScanCreatesAcceptedProblems` | backend/api/management/commands/add_problems.py:22-34 | a scan that raised nothing has queued exactly the accepted problems, in input order |
| `AddProblems.ScanStopsAtRaise` | backend/api/management/commands/add_problems.py:23-34 | the first item that raises ends the scan |
| `AddProblems.Handle` | backend/api/management/commands/add_problems.py:8-41 | an empty or non-list `PROBLEMS` creates nothing; an item that raises fails the command; otherwise the created batch is exactly the accepted problems (one per valid item, in input order) together with the skipped positions, and no valid item means nothing is created |
| `AddTestcases.FindProblem` | backend/api/management/commands/add_testcases.py:17 | the problem found is the first with exactly that name; none is found iff no problem has it |
| `AddTestcases.CaseFrom` | backend/api/management/commands/add_testcases.py:28-33 | a case is created iff the item is a dict with `input_data` and `expected_output`, copied verbatim, and `is_public` defaults to true |
| `AddTestcases.CreateCases` | backend/api/management/commands/add_testcases.py:27-34 | at most one case is created per item, and exactly one per item when no item raises |
| `AddTestcases.CreateCasesInOrder` | backend/api/management/commands/add_testcases.py:27-34 | case `k` is the one built from item `k`, and the creation fails exactly when some item raises |
| `AddTestcases.CreateCasesStops` | backend/api/management/commands/add_testcases.py:27-34 | the first item that raises ends the creation for that problem |
| `AddTestcases.HandleProblem` | backend/api/management/commands/add_testcases.py:15-44 | a missing problem skips all its cases and creates none; otherwise the created cases are those of the per-item creation, nothing is skipped, `added` grows by one per created case, and a failed creation counts all of that problem's cases as errors |
| `AddTestcases.ProblemErrorsIffItemRaises` | backend/api/management/commands/add_testcases.py:27-44 | for an existing problem there are errors iff some item lacks a field, then as many as the items; created case `k` is the one built from item `k` |
| `AddTestcases.Run` | backend/api/management/commands/add_testcases.py:14-44 | `added` equals the number of created cases |
| `AddTestcases.RunBounds` | backend/api/management/commands/add_testcases.py:14-44 | added plus skipped never exceeds the total number of cases, and equals it when there are no errors |
| `AddTestcases.Handle` | backend/api/management/commands/add_testcases.py:9-53 | the nested loops compute exactly what the entry-by-entry definition does |
| `AddTestcases.HandleOne` | backend/api/management/commands/add_testcases.py:17-34 | one iteration of the outer loop computes one entry's effect |
| `AddTestcases.CreateAll` | backend/api/management/commands/add_testcases.py:27-34 | the inner loop computes the cases created for one problem |
| `AddTestcases.CountsCanExceedTotal` | backend/api/management/commands/add_testcases.py:34-44 | a problem whose second case is malformed ends with one added and two errors out of two cases |
| `AuthService.CheckAuth` | frontend/src/services/auth.ts:28-50 | the cache answers, unchanged and without a request, iff the refresh is not forced, the cache is truthy and younger than 5000 ms; a fetched answer is cached with the reading taken before the request; a failed request answers `{success: false, authenticated: false}` and leaves the cache alone |
| `AuthService.ClearCache` | frontend/src/services/auth.ts:55-58 | the cache becomes empty and the timestamp 0 |
| `AuthService.CheckAfterClearAsks` | frontend/src/services/auth.ts:55-58 | after clearing, the next check always asks the backend |
| `AuthService.FreshnessWindow` | frontend/src/services/auth.ts:23-43 | a truthy answer fetched at `t` is served from the cache by every unforced check before `t + 5000`, and the backend is asked again from then on |
| `AuthService.Login` | frontend/src/services/auth.ts:63-67 | the browser goes to the backend's login URL, remembering the current path |
| `AuthService.Logout` | frontend/src/services/auth.ts:72-88 | the cache is cleared once a body was parsed; the result is `data.success`, or `false` when anything threw |
| `AuthService.GetProfile` | frontend/src/services/auth.ts:93-104 | `data.user` when `data.authenticated` is truthy, `null` otherwise or on failure |
| `AuthService.MergedOptions` | frontend/src/services/auth.ts:109-118 | caller headers replace the merged default headers wholesale; without them the JSON content type is sent; credentials default to `include` |
| `AuthService.CallerHeadersDropContentType` | frontend/src/services/auth.ts:110-118 | headers from the caller that omit `Content-Type` are sent without it |
| `AuthService.AuthenticatedFetch` | frontend/src/services/auth.ts:109-127 | a 401 sends the browser to login and throws; any other status is returned; a rejected request is passed on |

## Left out

- Running Python: `exec`, `str()` of results and what user functions compute are parameters (`Grader.Program`). The model treats a submission as deterministic: calling the same binding with the same arguments gives the same outcome. Standard output of the submission is not captured by the code and not modelled.
- `BaseException`s that are not `Exception`s (`SystemExit`, `KeyboardInterrupt`) escape `execute_code`. The model renders every raise as error text.
- Timeouts and resource limits: the code has none, so there is nothing to model.
- The FastAPI request parsing, the HTTP 500 mapping of `grade_submission` (grader/main.py:88-89) and the health route: service plumbing.
- Floating-point JSON numbers: only null, booleans, integers, strings, lists and objects are modelled.
- Unicode: `iexact` is modelled with ASCII case folding only, and `str.upper` is a parameter. Python's whitespace set for `strip`/`split` is listed explicitly.
- Database failures in `add_score_delta`, `get_player_score`, `get_leaderboard`, `TestCase.objects.create` and `bulk_create`: these are the `except` branches that report `str(e)`. Only the failures that come from the data itself are modelled.
- `Scores.AddScoreDelta`: scores are unbounded integers. A new score outside the `IntegerField` column range fails on save and is reported as `{'success': False, 'error': str(e)}`; the model always succeeds there.
- Ties in the database order: entries equal in score and creation time keep the table's order in the model, whereas the database leaves their order unspecified. `Problem` rows have no ordering in the code; `AddTestcases.FindProblem` takes the first match in the order of the sequence it is given, which stands for the order the database returns.
- Randomness: `random.randint` and `random.choice` are a `choice` parameter folded into the allowed range.
- The OAuth provider: `get_oauth_session`, `create_authorization_url`, `fetch_token` and `get_user_info` (with its endpoint loop) are outcomes passed in. CSRF checking of the state is done by the OAuth library and is not modelled.
- Percent-encoding of the callback's error message (`urllib.parse.quote`): the message is carried as is.
- Messages of exceptions raised by foreign code are inputs. Python's own messages for `AttributeError` (`'<type>' object has no attribute '<name>'`) and for the `KeyError` on `access_token` are reproduced.
- `AuthViews.DebugToken`: `user_keys` is reported as a set, because the model's dictionaries do not keep insertion order.
- `test_route` in the auth views: a constant reply plus `is_authenticated`, which is already modelled.
- The import of `PROBLEMS` failing in `add_problems` (add_problems.py:9-16) re-raises, and the commands' console messages are not modelled beyond the skipped positions and the three counters.
- The frontend: `Date.now()` is a parameter; `sessionStorage` and `window.location` become the returned `Navigation` record; concurrent `checkAuth` calls and the `Headers`/array forms of `RequestInit.headers` are not modelled; `AuthService.AuthenticatedFetch` passes a rejection on without modelling its error value.
- Django's `HttpResponseNotAllowed` is modelled by its status and `Allow` header only.
