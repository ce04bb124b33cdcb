# FinSentinal core, modelled in Dafny

FinSentinal is a fraud-detection demo. A React frontend lets an administrator
sign in, enter a transaction by hand or run an automated feed of synthetic
transactions, and look at the scored results. A Python backend scores each
transaction with an ensemble of fraud models, a multi-model agent
(behaviour, fraud, compliance and network analyses) and a language-model
compliance score.

This project models the deterministic logic of both halves:

- **Demo authentication.** The `AuthProvider` keeps `currentUser`, `loading`
  and the browser's local storage. `login`, `logout`, `isAdmin`, the mount
  effect, the login page's validation, and the route guard are all modelled.
- **The automated feed page.** Its controller is a class:
  - the running flag;
  - progress, in steps of 20 modulo 100;
  - the ten-entry, newest-first history;
  - the error;
  - interval handles;
  - the scoring requests still in flight.

  Start, stop, timer firings, the toggle button and the unmount cleanup are
  its methods. Posting a transaction and receiving its response are
  separate methods, so a response can arrive after a stop, after a restart,
  or ahead of an older one. The generator of synthetic transactions reads its random
  numbers from a sequence of draws.
- **The results page.** It covers the 0–1 risk levels and colours, the demo
  fallback, the statistics cards, pagination and the bar-chart window.
- **The manual-entry wizard.** It covers the step counter under its button
  guards and every form handler. The transaction sequence is a 5 × 11
  `array2` written in place. It also covers payload assembly and the submit
  outcomes.
- **The backend.**
  - `classify_risk` and `/detect_fraud` (`backend/main.py`).
  - The ensemble's `load_models` and its `predict` loop. The loop's stale
    `proba` variable is modelled (`backend/ensemble.py`).
  - `extract_risk_score` and the status branch of `get_compliance_risk`
    (`backend/core.py`).
  - The agent's key gating, its fallbacks, the fraud combination and the
    network-score aggregation (`backend/agents/core.py`).
  - The service's generator, the Plaid and Stripe fetchers,
    `process_transaction` and `start_automated_feed`
    (`backend/transaction_service.py`).

Scores are exact `real`s. Everything that crosses the program's boundary is
a parameter:
- random numbers (draws in [0, 1));
- clocks;
- the HTTP outcome of a scoring or compliance request;
- model predictions and networkx centralities;
- whether a storage write throws;
- the text of an exception.

Dynamic JavaScript objects and Python dicts are `map<string, Value>` over a
small `Value` datatype.

Files:
- Shared definitions:
  - `values.dfy`: `Option`, `Value`, JavaScript truthiness and `||`.
  - `random_draws.dfy`: `Math.floor(r·n)`, `randint`, `uniform`, `choice`.
  - `numbers.dfy`: `trim`, `parseFloat`, `parseInt` and Python `float`.
  - `transactions.dfy`: the synthetic transaction shared by both generators.
- Frontend:
  - `auth_context.dfy`, `login_page.dfy`, `protected_route.dfy`;
  - `automated_feed.dfy`, `results_page.dfy`, `manual_input.dfy`.
- Backend:
  - `detect_fraud.dfy`, `ensemble.dfy`, `compliance.dfy`;
  - `fraud_agent.dfy`, `transaction_service.dfy`.

## Model

| member | source | states |
|---|---|---|
| AuthContext.DecodeEncodeUser | frontend/src/contexts/AuthContext.jsx:19-25 | The JSON text login writes under the key is parsed back by the mount effect into the same user |
| AuthContext.EncodeUser | frontend/src/contexts/AuthContext.jsx:38 | `JSON.stringify({username, role})` is the compact object text: its length is the sum of its pieces, and it opens and closes with the fixed key text |
| AuthContext.DecodeUser | frontend/src/contexts/AuthContext.jsx:22 | A decoded user is one whose fields have no quote or backslash, and encoding it gives back exactly the text decoded |
| AuthContext.StoredText | frontend/src/contexts/AuthContext.jsx:20-21 | The stored text is present iff the key holds a non-empty text (empty text is falsy), and then it is that text |
| AuthContext.StoredUser | frontend/src/contexts/AuthContext.jsx:20-22 | A stored user exists iff the stored text is present and decodes, and it encodes back to that text |
| AuthContext.ParseStored | frontend/src/contexts/AuthContext.jsx:22 | `JSON.parse` on a text login wrote yields that user; on any other text it yields the given outcome, a value or a throw |
| AuthContext.MountAuth | frontend/src/contexts/AuthContext.jsx:19-25 | Mounting keeps the storage. No stored text: loading ends and the user is kept. A text login wrote: that user is restored. Any other text: `JSON.parse` either yields a value, which becomes the user, or throws, which leaves the state as it was and loading true |
| AuthContext.LoginAuth | frontend/src/contexts/AuthContext.jsx:28-42 | Login is rejected exactly for credentials other than the administrator's, and a rejection leaves the state unchanged. Otherwise it signs the administrator in. A throwing write keeps the storage |
| AuthContext.LogoutAuth | frontend/src/contexts/AuthContext.jsx:45-48 | Logout clears the user and removes exactly the key. Every other storage entry is kept |
| AuthContext.LoginSucceedsIff | frontend/src/contexts/AuthContext.jsx:7-42 | Login returns true iff the username is `admin`, the password is `password123` and the write succeeds. Then the user is {admin, admin}, stored without a password under `finsentinal_user`, and other keys are kept |
| AuthContext.FailedLoginChangesNothing | frontend/src/contexts/AuthContext.jsx:41 | Wrong credentials return false and change neither the state nor the storage |
| AuthContext.ThrowingLoginKeepsStorage | frontend/src/contexts/AuthContext.jsx:37-38 | The user is set before the write, so a write that throws leaves the administrator signed in but not stored |
| AuthContext.LoginThenLogoutClearsKey | frontend/src/contexts/AuthContext.jsx:28-48 | Login followed by logout leaves the storage as it was, minus the key, and no user |
| AuthContext.LoginSurvivesRemount | frontend/src/contexts/AuthContext.jsx:19-39 | A provider mounted over the storage a successful login left restores the administrator |
| AuthContext.LogoutSurvivesRemount | frontend/src/contexts/AuthContext.jsx:19-48 | After logout, a remount restores nobody |
| AuthContext.ChildrenRenderAfterMount | frontend/src/contexts/AuthContext.jsx:16-65 | Children never render before the mount effect. After it they render iff nothing is stored, or the stored text parses, or loading was already over; a text `JSON.parse` rejects keeps them hidden |
| AuthContext.IsAdmin | frontend/src/contexts/AuthContext.jsx:51-53 | Only a signed-in user can be an administrator, and the administrator login signs in is one |
| AuthContext.ForeignAdminRestored | frontend/src/contexts/AuthContext.jsx:19-53 | A stored text login never wrote that parses to an object with role "admin" is restored as an administrator |
| AuthContext.UnparsableTextBlocksChildren | frontend/src/contexts/AuthContext.jsx:19-65 | A stored text that `JSON.parse` rejects leaves the provider loading, so its children never render |
| AuthContext.AuthProvider.constructor | frontend/src/contexts/AuthContext.jsx:15-16 | The provider starts with no user, loading, over the given storage |
| AuthContext.AuthProvider.Mount | frontend/src/contexts/AuthContext.jsx:19-25 | The mount effect updates the provider's fields as MountAuth says |
| AuthContext.AuthProvider.Login | frontend/src/contexts/AuthContext.jsx:28-42 | The outcome and the new fields are those of LoginAuth |
| AuthContext.AuthProvider.Logout | frontend/src/contexts/AuthContext.jsx:45-48 | The new fields are those of LogoutAuth |
| LoginPage.View | frontend/src/pages/Login.jsx:33-35 | The page redirects home exactly when a user is signed in |
| LoginPage.BlankIsTrimmedEmpty | frontend/src/pages/Login.jsx:41 | Validation fails exactly when the username trimmed of JavaScript whitespace (Unicode spaces, line terminators and the byte-order mark included) is empty, or the password is empty |
| LoginPage.UnicodeSpacesBlank | frontend/src/pages/Login.jsx:41 | A username of a no-break space and an ideographic space counts as blank, whatever the password |
| LoginPage.Submit | frontend/src/pages/Login.jsx:37-64 | A blank form sets the missing-fields error and calls nothing. Otherwise login is called once with the untrimmed username, the provider changes as login says, and loading ends false |
| LoginPage.SubmitOutcomes | frontend/src/pages/Login.jsx:51-63 | A filled-in submit navigates home iff the credentials are the administrator's and the write succeeds. It shows the invalid message iff the credentials are wrong, and the failure message iff the write throws |
| LoginPage.PaddedUsernameRefused | frontend/src/pages/Login.jsx:41-56 | " admin" passes validation (trimmed) but login refuses it (untrimmed), and the provider is unchanged |
| LoginPage.SignedInAfterLogin | frontend/src/pages/Login.jsx:33-54 | After a submit with the administrator's credentials the page redirects home |
| LoginPage.LoginPage.constructor | frontend/src/pages/Login.jsx:23-27 | The form starts empty, with no error and not loading |
| LoginPage.LoginPage.SetUsername | frontend/src/pages/Login.jsx:23 | Only the username changes |
| LoginPage.LoginPage.SetPassword | frontend/src/pages/Login.jsx:24 | Only the password changes |
| LoginPage.LoginPage.HandleSubmit | frontend/src/pages/Login.jsx:37-64 | The page and the provider change together as Submit says |
| ProtectedRoute.Guard | frontend/src/components/ProtectedRoute.jsx:5-15 | Children render iff `isAdmin()`. Every other case is `Navigate to="/login" replace`, including no user |
| ProtectedRoute.NonAdminRedirected | frontend/src/components/ProtectedRoute.jsx:9-10 | A signed-in user whose role is not admin is redirected |
| ProtectedRoute.LoggedInUserAdmitted | frontend/src/components/ProtectedRoute.jsx:6-14 | A user signed in by login is admitted, and so is the user restored from storage after a reload |
| ProtectedRoute.ForeignAdminAdmitted | frontend/src/components/ProtectedRoute.jsx:6-14 | After a reload, a stored object with role "admin" that login never wrote is admitted |
| ProtectedRoute.LoggedOutRedirected | frontend/src/components/ProtectedRoute.jsx:9-10 | After logout every protected page redirects to the login page |
| ResultsPage.RiskLevel | frontend/src/pages/Results.jsx:171-175 | Low iff risk < 0.3, Medium iff 0.3 ≤ risk < 0.7, High iff risk ≥ 0.7 |
| ResultsPage.ColorMatchesLevel | frontend/src/pages/Results.jsx:164-175 | `getRiskColor` is the level's colour (success, warning, error), so colour and level always agree |
| ResultsPage.RiskLevelMonotone | frontend/src/pages/Results.jsx:171-175 | A higher risk never gets a lower level |
| ResultsPage.DisplayResults | frontend/src/pages/Results.jsx:122 | The displayed list is never empty. It is the results, or the demo rows when there are none |
| ResultsPage.CountsPartition | frontend/src/pages/Results.jsx:137-139 | The high, medium and low counts add up to the list's length, and each equals the number of rows `getRiskLevel` puts at that level |
| ResultsPage.CountHigh | frontend/src/pages/Results.jsx:137 | The high count is at most the row count and equals the number of rows `getRiskLevel` calls High |
| ResultsPage.CountMedium | frontend/src/pages/Results.jsx:138 | The medium count is at most the row count and equals the number of rows `getRiskLevel` calls Medium |
| ResultsPage.CountLow | frontend/src/pages/Results.jsx:139 | The low count is at most the row count and equals the number of rows `getRiskLevel` calls Low |
| ResultsPage.ComputeStats | frontend/src/pages/Results.jsx:135-150 | The total is the row count. Each card's count is the number of rows at its own level, the three counts partition the total, and the average times the count is the sum of `overall_risk` |
| ResultsPage.PageStats | frontend/src/pages/Results.jsx:122-150 | The statistics are never over an empty list. With no results they count the 5 demo rows |
| ResultsPage.SumRiskBounds | frontend/src/pages/Results.jsx:140 | With every risk in [lo, hi], the sum lies in [n·lo, n·hi] |
| ResultsPage.AverageWithin | frontend/src/pages/Results.jsx:140 | With every risk in [lo, hi], the average lies in [lo, hi] |
| ResultsPage.DemoStats | frontend/src/pages/Results.jsx:37-150 | The demo rows give 5 transactions: 2 high, 1 medium, 2 low, average 0.486 |
| ResultsPage.Visible | frontend/src/pages/Results.jsx:350 | The table shows at most rpp rows: exactly the rows from page·rpp on, in order, as many as remain |
| ResultsPage.RowOnItsPage | frontend/src/pages/Results.jsx:350 | Row i appears on page i / rpp at position i % rpp, so every row is on a page |
| ResultsPage.RowsPerPageOptionsParse | frontend/src/pages/Results.jsx:445 | Each option 5, 10, 25 reads back through `parseInt` as itself |
| ResultsPage.BarChartData | frontend/src/pages/Results.jsx:190-196 | The chart has min(10, n) bars, the first ten rows in reverse order |
| ResultsPage.BarOf | frontend/src/pages/Results.jsx:190-196 | A bar keeps its row's timestamp, has an overall in [0, 100] for a risk in [0, 1], and keeps the row's overall-equals-mean relation in percent |
| ResultsPage.PieChartData | frontend/src/pages/Results.jsx:183-187 | Three slices, each painted with its level's colour |
| ResultsPage.PieSlicesCountTheirLevels | frontend/src/pages/Results.jsx:135-187 | Over the computed statistics, each pie slice's value is the number of rows at its own level |
| ResultsPage.ResultsTable.constructor | frontend/src/pages/Results.jsx:124-125 | Page 0, 10 rows per page |
| ResultsPage.ResultsTable.Rows | frontend/src/pages/Results.jsx:350 | The body shows at most rowsPerPage rows, the current page's slice |
| ResultsPage.ResultsTable.HandleChangePage | frontend/src/pages/Results.jsx:153-155 | The page changes and rows-per-page is kept |
| ResultsPage.ResultsTable.HandleChangeRowsPerPage | frontend/src/pages/Results.jsx:158-161 | Rows-per-page becomes the parsed value and the page resets to 0 |
| AutomatedFeed.SequenceOf | frontend/src/pages/AutomatedInput.jsx:79-83 | The generated sequence has exactly 5 rows |
| AutomatedFeed.MockTransactionOf | frontend/src/pages/AutomatedInput.jsx:40-186 | The amount is the first draw's formula, and the text is one of the ten descriptions |
| AutomatedFeed.NodeIdsDistinct | frontend/src/pages/AutomatedInput.jsx:101-103 | The user, bank and recipient ids are distinct |
| AutomatedFeed.MockTransactionShaped | frontend/src/pages/AutomatedInput.jsx:79-157 | Any draws give two edges and three nodes, with both edges carrying the amount and a second timestamp one later. metadata.user_id is the first edge's source, and there are 5 rows of 11 repeating the fields |
| AutomatedFeed.NetworkOfShaped | frontend/src/pages/AutomatedInput.jsx:105-147 | Two edges user → bank → recipient with the transaction's amount, timestamps dt and dt+1, over three distinct nodes |
| AutomatedFeed.SequenceOfShaped | frontend/src/pages/AutomatedInput.jsx:79-83 | Every row is a fresh amount followed by the ten card, address, distance, C and D fields |
| AutomatedFeed.MockTransactionInRange | frontend/src/pages/AutomatedInput.jsx:42-83 | Any draws give card1 in [1000,9999], card2, card3, card5 and addr1 in [100,999], dist1 in [0,4999], C1 in [0,9], C2 and D15 in [0,4], D1 in [0,29], and V95, V96, V97, V126 and V127 in [-2,2). The amount is in [10,10000) and the 5 row amounts are in [50,2050) |
| AutomatedFeed.GenerateMockTransaction | frontend/src/pages/AutomatedInput.jsx:40-186 | The loop that pushes rows builds exactly MockTransactionOf |
| AutomatedFeed.RiskColorAgreesWithResultsPage | frontend/src/pages/AutomatedInput.jsx:276-280 | The feed page's `getRiskColor` equals the results page's, so it is the colour of the 0.3/0.7 level |
| AutomatedFeed.RiskColor | frontend/src/pages/AutomatedInput.jsx:276-280 | Green iff the risk is below 0.3, red iff it is 0.7 or more |
| AutomatedFeed.ResultWithInfo | frontend/src/pages/AutomatedInput.jsx:251-257 | The stored result has the response's keys plus the four info keys. It carries the timestamp, amount, text and source, and every other response field is kept |
| AutomatedFeed.RequestResultDescribesTransaction | frontend/src/pages/AutomatedInput.jsx:239-257 | A stored result carries the amount and text generated from the draws of the transaction that was posted, the source captured when it was posted, and the arrival time |
| AutomatedFeed.GeneratedAmountAndText | frontend/src/pages/AutomatedInput.jsx:42-98 | The generated amount and text are those the draws give |
| AutomatedFeed.Recent | frontend/src/pages/AutomatedInput.jsx:263 | The new history has the new result at its head, then the old history, truncated to 10 |
| AutomatedFeed.ScoredTick | frontend/src/pages/AutomatedInput.jsx:251-266 | A successful tick calls addResult once, puts the result at the head (at most 10 kept), advances progress by 20 mod 100, and changes nothing else |
| AutomatedFeed.StopPreservesInvariant | frontend/src/pages/AutomatedInput.jsx:230-236 | Stopping clears the handle and the live interval and sets running false. History, error, results and progress are kept |
| AutomatedFeed.TickPreservesInvariant | frontend/src/pages/AutomatedInput.jsx:239-273 | A tick keeps progress in {0,20,40,60,80}, history ≤ 10, and at most the one handle live |
| AutomatedFeed.FailedTick | frontend/src/pages/AutomatedInput.jsx:268-272 | A failed tick adds no result and keeps progress. The error is `detail` if truthy, else the generic message, and the feed stops with no live interval |
| AutomatedFeed.StartEffects | frontend/src/pages/AutomatedInput.jsx:215-227 | Starting from stopped clears the error, resets progress and installs one fresh interval. If the first response arrives before any other event and is scored: running, progress 20, one result added at the head; if it failed: stopped, nothing added, a truthy error |
| AutomatedFeed.ToggleKeepsOneTimer | frontend/src/pages/AutomatedInput.jsx:388 | The button stops while running (no interval left) and starts otherwise (exactly the fresh one). At most one interval is ever live |
| AutomatedFeed.StartWhileRunningLeaksTimer | frontend/src/pages/AutomatedInput.jsx:215-227 | Start itself has no guard: its synchronous part, run while an interval is live, leaves two live intervals (the button never does this) |
| AutomatedFeed.UnmountReleasesTimer | frontend/src/pages/AutomatedInput.jsx:201-207 | The unmount cleanup leaves no live interval |
| AutomatedFeed.StopState | frontend/src/pages/AutomatedInput.jsx:230-236 | Stopping leaves the feed not running with no handle. It clears the handle's interval, starts no new one, and keeps the history, results, error and pending requests |
| AutomatedFeed.TickState | frontend/src/pages/AutomatedInput.jsx:239-273 | A tick whose response arrives before any other event keeps the source, the timer counter and the pending requests. A scored tick adds exactly one result and keeps running and the error; a failed one adds none, stops, and sets a truthy error |
| AutomatedFeed.SendState | frontend/src/pages/AutomatedInput.jsx:239-248 | Posting changes no page state; the request joins the end of those in flight |
| AutomatedFeed.Settle | frontend/src/pages/AutomatedInput.jsx:250-272 | Applying an outcome keeps the sources, the timer counter and the pending requests. A scored one adds exactly one result and keeps running and the error; a failed one adds none, stops and sets a truthy error. Neither checks whether the feed is still running |
| AutomatedFeed.ScoredSettle | frontend/src/pages/AutomatedInput.jsx:251-266 | A scored outcome, in whatever state it arrives, logs exactly its request's result, puts it at the head of the history, advances progress by 20 mod 100, and changes nothing else |
| AutomatedFeed.ResolveState | frontend/src/pages/AutomatedInput.jsx:248-273 | The arriving response's request leaves the pending list. A scored one adds one result and keeps running as it was; a failed one adds none and stops with no handle |
| AutomatedFeed.TickIsSendThenResolve | frontend/src/pages/AutomatedInput.jsx:239-273 | A tick equals a post followed at once by the arrival of that post's response |
| AutomatedFeed.BeginState | frontend/src/pages/AutomatedInput.jsx:215-223 | Start's synchronous part: running, progress 0, empty error, one new interval added, and the current source fixed for the session. Results, history and pending requests are kept |
| AutomatedFeed.SendPreservesInvariant | frontend/src/pages/AutomatedInput.jsx:239-248 | A post keeps the invariant |
| AutomatedFeed.SettlePreservesInvariant | frontend/src/pages/AutomatedInput.jsx:250-272 | Applying an outcome keeps the invariant |
| AutomatedFeed.ResolvePreservesInvariant | frontend/src/pages/AutomatedInput.jsx:248-273 | Every response, whenever it arrives, keeps progress in {0,20,40,60,80}, the history at most 10 long, and at most the one handle live |
| AutomatedFeed.BeginEffects | frontend/src/pages/AutomatedInput.jsx:215-223 | Beginning from stopped keeps the invariant and leaves exactly the fresh interval live |
| AutomatedFeed.LateSuccessAfterStop | frontend/src/pages/AutomatedInput.jsx:230-266 | A success arriving after stop still reaches addResult, heads the history and advances progress, while the feed stays stopped |
| AutomatedFeed.StaleFailureStopsNewSession | frontend/src/pages/AutomatedInput.jsx:215-271 | A failure from a request posted before a restart stops the new session: the shared ref clears the new interval |
| AutomatedFeed.StaleSuccessKeepsItsSource | frontend/src/pages/AutomatedInput.jsx:215-257 | A success from before a restart is stored with its own session's source, not the new one |
| AutomatedFeed.ResponsesOutOfOrder | frontend/src/pages/AutomatedInput.jsx:221-266 | When the newer of two pending responses arrives first, the older result ends at the head of the history and last in addResult's list |
| AutomatedFeed.StartState | frontend/src/pages/AutomatedInput.jsx:215-227 | Start followed at once by the first response fixes the session's source and installs one new interval. After a scored first response the feed runs on that interval, with progress 20 and the error cleared; after a failed one it is stopped with no handle |
| AutomatedFeed.ToggleState | frontend/src/pages/AutomatedInput.jsx:388 | While running the button stops and adds nothing. Otherwise it runs, installs one interval, adds nothing yet, and posts one request carrying the current source |
| AutomatedFeed.UnmountState | frontend/src/pages/AutomatedInput.jsx:201-207 | The cleanup clears the handle's interval and starts none; the ref and the running flag stay as they were |
| AutomatedFeed.RecentIsTake | frontend/src/pages/AutomatedInput.jsx:263 | `[x, ...h].slice(0, 10)` is the first ten of x followed by h |
| AutomatedFeed.PushAllKeepsNewest | frontend/src/pages/AutomatedInput.jsx:263 | Pushing results one tick at a time keeps the ten newest, newest first |
| AutomatedFeed.ProgressAfterClosed | frontend/src/pages/AutomatedInput.jsx:266 | n steps of +20 mod 100 give (p + 20n) mod 100 |
| AutomatedFeed.ProgressFromZero | frontend/src/pages/AutomatedInput.jsx:217-266 | From 0, n steps give 20n mod 100 |
| AutomatedFeed.ProgressAfterInSteps | frontend/src/pages/AutomatedInput.jsx:266 | Progress never leaves {0,20,40,60,80} |
| AutomatedFeed.ResultsOf | frontend/src/pages/AutomatedInput.jsx:251-260 | One stored result per successful tick |
| AutomatedFeed.RunResultsEffects | frontend/src/pages/AutomatedInput.jsx:260-266 | Storing results one at a time appends them all to the parent's list and pushes them onto the history |
| AutomatedFeed.RunTicksStoresResults | frontend/src/pages/AutomatedInput.jsx:239-266 | A run of successful ticks stores exactly their results |
| AutomatedFeed.SuccessfulTicks | frontend/src/pages/AutomatedInput.jsx:260-263 | n successful ticks append their n results to addResult's list and keep the ten newest, newest first |
| AutomatedFeed.SuccessfulTicksProgress | frontend/src/pages/AutomatedInput.jsx:266 | n successful ticks advance progress by 20n mod 100 |
| AutomatedFeed.TickAdvancesProgress | frontend/src/pages/AutomatedInput.jsx:266 | A scored tick moves progress by 20 mod 100 |
| AutomatedFeed.RunTicksProgress | frontend/src/pages/AutomatedInput.jsx:266 | n successful ticks advance progress n steps of 20 mod 100 |
| AutomatedFeed.ElevenTicks | frontend/src/pages/AutomatedInput.jsx:263 | After eleven successful ticks from an empty history, it holds the ten newest: the first result is dropped and the last is at the head |
| AutomatedFeed.NewestTen | frontend/src/pages/AutomatedInput.jsx:263 | Eleven results pushed onto an empty history leave the ten newest, newest first |
| AutomatedFeed.ProgressCycles | frontend/src/pages/AutomatedInput.jsx:217-266 | From a fresh start progress is 20n mod 100, in {0,20,40,60,80} |
| AutomatedFeed.FeedController.constructor | frontend/src/pages/AutomatedInput.jsx:191-198 | Stopped, progress 0, empty history, no error, no interval, source plaid |
| AutomatedFeed.FeedController.HandleApiSourceChange | frontend/src/pages/AutomatedInput.jsx:210-212 | Only the selected source changes |
| AutomatedFeed.FeedController.SendTransaction | frontend/src/pages/AutomatedInput.jsx:239-248 | Returns exactly the generated transaction. The page state is unchanged except that one request joins those in flight, carrying the session's captured source |
| AutomatedFeed.FeedController.ReceiveResponse | frontend/src/pages/AutomatedInput.jsx:248-273 | The response to any pending request changes the fields as ResolveState says, whatever the page state is by then, and keeps the invariant |
| AutomatedFeed.FeedController.RecordResult | frontend/src/pages/AutomatedInput.jsx:251-266 | A scored response stores the merged result and advances progress, as Settle says |
| AutomatedFeed.FeedController.RecordFailure | frontend/src/pages/AutomatedInput.jsx:268-272 | A failed response records `detail` or the generic message and stops, as StopState says |
| AutomatedFeed.FeedController.StopAutomatedFeed | frontend/src/pages/AutomatedInput.jsx:230-236 | The fields change as StopState says and the invariant is kept |
| AutomatedFeed.FeedController.StartAutomatedFeed | frontend/src/pages/AutomatedInput.jsx:215-227 | From stopped, the fields change as BeginState then SendState say: running, progress 0, no error, and exactly one fresh live interval. It returns the first posted transaction; the first response is not awaited |
| AutomatedFeed.FeedController.Toggle | frontend/src/pages/AutomatedInput.jsx:388 | Stop when running, else start and post. At most one interval is live afterwards |
| AutomatedFeed.FeedController.TimerFires | frontend/src/pages/AutomatedInput.jsx:221-223 | A live interval's firing posts one more request with the session's source, whether or not earlier responses have arrived |
| AutomatedFeed.FeedController.Unmount | frontend/src/pages/AutomatedInput.jsx:201-207 | The cleanup clears the live interval and leaves none |
| ManualInput.NumberOrZeroCases | frontend/src/pages/ManualInput.jsx:130-136 | `parseFloat(v) \|\| 0` is the number read, or 0 for NaN |
| ManualInput.FieldValueCases | frontend/src/pages/ManualInput.jsx:125 | A non-amount field stores the raw text. The amount stores a non-zero number, or '' for NaN and 0 |
| ManualInput.AmountFieldValue | frontend/src/pages/ManualInput.jsx:125 | The stored amount is the number entered when non-zero, else '' |
| ManualInput.UpdateTransactionData | frontend/src/pages/ManualInput.jsx:121-127 | Exactly the named field is written. Every other field is kept |
| ManualInput.SetEdgeAmounts | frontend/src/pages/ManualInput.jsx:129-137 | Every edge gets the amount, and all its other fields are kept |
| ManualInput.SyncEdgeAmounts | frontend/src/pages/ManualInput.jsx:129-138 | Only an amount edit touches the edges: it sets every edge's amount to `parseFloat(v) \|\| 0` |
| ManualInput.AmountEditAgreement | frontend/src/pages/ManualInput.jsx:121-138 | After an amount edit with a non-zero number, the form's amount and every edge's amount are that number |
| ManualInput.NodeFieldValue | frontend/src/pages/ManualInput.jsx:156 | `is_business` is `parseInt(v)` without a radix (so `0x` reads as hex); any other node field becomes `parseFloat(v) \|\| 0` |
| ManualInput.UpdateNode | frontend/src/pages/ManualInput.jsx:149-160 | Only the named field of the named node changes, and other nodes are kept. A missing node starts empty |
| ManualInput.UpdateEdge | frontend/src/pages/ManualInput.jsx:163-176 | Only the edge at the index changes, and only in the named field. `is_international` is `parseInt(v)` without a radix, and other fields keep the text |
| ManualInput.UpdateEdgeOutOfRange | frontend/src/pages/ManualInput.jsx:166-173 | An index naming no edge changes nothing |
| ManualInput.UpdateMetadata | frontend/src/pages/ManualInput.jsx:179-185 | Only the named field changes. `account_age_days` is `parseInt(v) \|\| 0` without a radix, and other fields keep the text |
| ManualInput.HexFieldsRead | frontend/src/pages/ManualInput.jsx:156-183 | "0x10" is stored as 16 in `is_business`, `is_international` and `account_age_days` |
| ManualInput.SequenceAfterChange | frontend/src/pages/ManualInput.jsx:142-146 | Only cell [index][position] changes, to `parseFloat(v) \|\| 0` |
| ManualInput.RowValue | frontend/src/pages/ManualInput.jsx:218 | A sequence row is sent as an array of the row's numbers, cell for cell |
| ManualInput.PayloadFields | frontend/src/pages/ManualInput.jsx:216-222 | The payload has exactly the five top-level keys. It carries the form's data, text and metadata as entered, every node under its own id, and one row of numbers per sequence row, cell for cell |
| ManualInput.PayloadEdgesCarryAmount | frontend/src/pages/ManualInput.jsx:207-213 | Whatever amounts the edges held, every edge sent carries the form's `TransactionAmt` |
| ManualInput.Payload | frontend/src/pages/ManualInput.jsx:216-222 | The request body is an object with exactly the keys transaction_data, transaction_sequence, transaction_text, network_data and metadata |
| ManualInput.ResultWithTimestampFields | frontend/src/pages/ManualInput.jsx:228-233 | The stored result keeps every response field and sets the timestamp, amount and text |
| ManualInput.StepsStayInRange | frontend/src/pages/ManualInput.jsx:535-557 | Pressing only rendered, enabled buttons keeps the step in [0, 2] |
| ManualInput.GridValues | frontend/src/pages/ManualInput.jsx:54-60 | The grid's rows as values: the same dimensions and cells |
| ManualInput.GridCellWritten | frontend/src/pages/ManualInput.jsx:143-145 | Two 5 × 11 grids that differ only in one cell are related by a single cell update |
| ManualInput.InitialTransactionData | frontend/src/pages/ManualInput.jsx:31-51 | The form starts with the listed fields and an empty amount |
| ManualInput.InitialNodes | frontend/src/pages/ManualInput.jsx:67-89 | The form starts with the user, recipient and bank nodes |
| ManualInput.InitialEdges | frontend/src/pages/ManualInput.jsx:90-107 | Two edges user → bank → recipient, with amount 0 |
| ManualInput.InitialMetadata | frontend/src/pages/ManualInput.jsx:111-118 | The six metadata fields, with login_time the current time |
| ManualInput.ManualEntry.constructor | frontend/src/pages/ManualInput.jsx:26-118 | Step 0, no error, not loading, zero sequence grid, the initial form |
| ManualInput.ManualEntry.HandleTransactionDataChange | frontend/src/pages/ManualInput.jsx:121-139 | The field and the edges change as UpdateTransactionData and SyncEdgeAmounts say. Nothing else may change |
| ManualInput.ManualEntry.SetTransactionText | frontend/src/pages/ManualInput.jsx:385-386 | Only the text changes: the method may write no other field |
| ManualInput.ManualEntry.HandleSequenceChange | frontend/src/pages/ManualInput.jsx:142-146 | The grid, written in place, equals SequenceAfterChange of the old grid |
| ManualInput.ManualEntry.HandleNetworkDataChange | frontend/src/pages/ManualInput.jsx:149-160 | The nodes become UpdateNode of the old nodes, and no other field may change |
| ManualInput.ManualEntry.HandleEdgeChange | frontend/src/pages/ManualInput.jsx:163-176 | The edges become UpdateEdge of the old edges, and no other field may change |
| ManualInput.ManualEntry.HandleMetadataChange | frontend/src/pages/ManualInput.jsx:179-185 | The metadata becomes UpdateMetadata of the old metadata, and no other field may change |
| ManualInput.ManualEntry.HandleNext | frontend/src/pages/ManualInput.jsx:191-193 | The step goes up by one, reachable only while Next is shown, and no other field may change |
| ManualInput.ManualEntry.HandleBack | frontend/src/pages/ManualInput.jsx:196-198 | The step goes down by one, reachable only while Back is enabled, and no other field may change |
| ManualInput.ManualEntry.HandleSubmit | frontend/src/pages/ManualInput.jsx:201-246 | Exactly one payload, built from the form and grid before the call, is sent, and loading ends false. Success adds one result and navigates to /results. Failure sets the error to `detail` or the generic message, adds nothing and does not navigate. The form, the step and the grid cannot change |
| ManualInput.ManualEntry.SubmitSucceeded | frontend/src/pages/ManualInput.jsx:236-239 | Records the payload and the result, navigates to /results, clears the error; the form and the step cannot change |
| ManualInput.ManualEntry.SubmitFailed | frontend/src/pages/ManualInput.jsx:240-242 | Records the payload and sets the error, with nothing added, no navigation, and the form and the step unchanged |
| DetectFraud.ClassifyRisk | backend/main.py:37-44 | Low iff score < 33, Medium iff 33 ≤ score < 66, High iff score ≥ 66 |
| DetectFraud.ClassifyMonotone | backend/main.py:37-44 | A higher score never gets a lower class |
| DetectFraud.LabelsDistinct | backend/main.py:37-44 | The three labels are distinct, so the label determines the class |
| DetectFraud.OverallRisk | backend/main.py:62 | Three times the overall risk is the sum of the three percentages, so three equal scores give that score |
| DetectFraud.CompliancePercent | backend/main.py:55-59 | The compliance score when there is one; otherwise the `uniform(20, 80)` fallback, which lies in [20, 80] |
| DetectFraud.DetectFraud | backend/main.py:46-74 | Every error is a 500. No models and zero weight carry the ensemble's messages; a raising compliance request or an "N/A" anomaly carries the exception text |
| DetectFraud.ScoredIff | backend/main.py:46-74 | The endpoint answers with scores iff the ensemble predicted with an anomaly score and the compliance request did not raise. Every failure is a 500 |
| DetectFraud.ScoredFields | backend/main.py:52-71 | Fraud and anomaly are passed through. overall is the mean of the three, and risk_class is classify_risk(overall) |
| DetectFraud.ComplianceFallback | backend/main.py:55-59 | With no compliance score (a status other than 200 or no match), compliance lies in [20, 80]. Otherwise it is the extracted score |
| DetectFraud.OverallBetween | backend/main.py:62 | The mean lies between the smallest and the largest bound of the three |
| DetectFraud.NoForestAlwaysFails | backend/main.py:62-74 | Without the isolation forest the anomaly is "N/A" and the endpoint always answers 500 |
| DetectFraud.NoModelsMessagePassed | backend/main.py:73-74 | With no model files, the 500 carries the ensemble's "No models found" message |
| DetectFraud.UnclampedCompliance | backend/main.py:55-62 | A reply "5" gives 500 percent compliance: the value is not clamped |
| DetectFraud.NumberReply5 | backend/core.py:74-75 | The reply "5" is scored 500 |
| DetectFraud.ForestAloneScored | backend/main.py:52-71 | With only the forest loaded, the answer has fraud 0, the forest's anomaly, and their mean with compliance |
| DetectFraud.DetectFraudEndpoint | backend/main.py:46-74 | The endpoint over the ensemble object answers as DetectFraud of its predict outcome |
| Ensemble.Weight | backend/ensemble.py:15-20 | Each configured weight is non-negative |
| Ensemble.TotalWeightValue | backend/ensemble.py:15-20 | The weights sum to 0.9 |
| Ensemble.PresentMembers | backend/ensemble.py:46-54 | A name is kept iff it is in the table and its file is present |
| Ensemble.PresentSplit | backend/ensemble.py:46-54 | Filtering distributes over concatenation, so the table order is kept |
| Ensemble.Present | backend/ensemble.py:46-54 | Filtering never lengthens the table |
| Ensemble.LoadedIff | backend/ensemble.py:42-54 | The loaded models are exactly the table names whose file exists |
| Ensemble.LoadedForestLast | backend/ensemble.py:15-54 | The isolation forest, when loaded, is the last model |
| Ensemble.LoadModels | backend/ensemble.py:42-54 | The loop that fills the dict builds exactly the table names whose file exists, in table order |
| Ensemble.Step | backend/ensemble.py:91-104 | A raising call changes nothing. Any model but the forest binds `proba` and adds it times its weight. The forest sets the anomaly to (1 − x)·100 and keeps the earlier `proba`, adding nothing when none is bound |
| Ensemble.Run | backend/ensemble.py:91-104 | The anomaly is only ever set by the isolation forest |
| Ensemble.StepCases | backend/ensemble.py:91-104 | One iteration as a whole accumulator, in each of its four cases, including the forest adding the earlier `proba` |
| Ensemble.RunUnfolds | backend/ensemble.py:91-104 | Running from model i is model i's iteration followed by the run from model i + 1 |
| Ensemble.AllRaisedKeepsAcc | backend/ensemble.py:103-104 | When every call raises, the loop leaves the sum, `proba` and the anomaly as they were |
| Ensemble.Outcome | backend/ensemble.py:76-111 | No models iff none is loaded. Otherwise the fraud value is the loop's weighted sum divided by the 0.9 total, in percent, and the anomaly is the loop's |
| Ensemble.FraudEnsembleModel.constructor | backend/ensemble.py:8-54 | The object holds the loaded names |
| Ensemble.FraudEnsembleModel.Predict | backend/ensemble.py:76-111 | The loop over the models computes Outcome: no models raises, and otherwise the weighted fraud percentage and the anomaly |
| Ensemble.RunSplit | backend/ensemble.py:91-104 | The loop over a + b is the loop over b continued from the loop over a |
| Ensemble.RaisingModelIgnored | backend/ensemble.py:103-104 | A model whose call raises can be dropped without changing the result |
| Ensemble.StepBounds | backend/ensemble.py:91-104 | One iteration adds between 0 and the model's weight, and keeps `proba` in [0, 1] |
| Ensemble.RunBounds | backend/ensemble.py:91-104 | The loop adds between 0 and the sum of the loaded weights |
| Ensemble.PresentWeightBound | backend/ensemble.py:46-54 | The loaded models' weights sum to at most the table's |
| Ensemble.SumWeightsSplit | backend/ensemble.py:88 | The weight sum distributes over concatenation |
| Ensemble.NeverZeroWeight | backend/ensemble.py:88-107 | The total is the whole table's 0.9, so the zero-weight error never happens. No models is the only error |
| Ensemble.FraudWithinPercent | backend/ensemble.py:81-111 | With probabilities in [0, 1] the fraud percentage lies in [0, 100] |
| Ensemble.UntaggedKeepsAnomaly | backend/ensemble.py:93-95 | Models other than the forest leave the anomaly score alone |
| Ensemble.AnomalyOfLoaded | backend/ensemble.py:93-111 | The anomaly is set iff the forest is loaded and returns |
| Ensemble.FullTableSum | backend/ensemble.py:91-104 | With all four returning, the forest adds LightGBM's stale proba × 0.30, and the anomaly is (1 − x)·100 |
| Ensemble.StaleProbaAfterRaise | backend/ensemble.py:93-104 | When LightGBM raises, the forest reuses CatBoost's probability |
| Ensemble.ForestAlone | backend/ensemble.py:93-111 | With only the forest loaded, the addition raises and is skipped: fraud 0, anomaly (1 − x)·100 |
| Ensemble.ForestTest | backend/ensemble.py:93 | Of the table's file names only the forest's contains "isolation_forest" |
| ComplianceScore.GroupAt | backend/core.py:77 | A group found at a position has the shape `\d*\.?\d+` |
| ComplianceScore.SearchFrom | backend/core.py:77 | A search result has the group's shape |
| ComplianceScore.GroupValue | backend/core.py:78 | `float(group)` is non-negative |
| ComplianceScore.MarkedScore | backend/core.py:77-78 | A score exists iff the pattern matches, and it is non-negative |
| ComplianceScore.NumericReplyScaled | backend/core.py:74-78 | A reply that parses as a number once stripped gives that number × 100. Otherwise the marked score decides |
| ComplianceScore.ExtractRiskScore | backend/core.py:69-78 | None iff the stripped reply is not a number and the pattern matches nowhere; when the reply is not a number, the score is the first match's |
| ComplianceScore.FirstMatchScored | backend/core.py:77-78 | The first match's group × 100 is the score |
| ComplianceScore.SearchFindsFirst | backend/core.py:77 | The leftmost match wins |
| ComplianceScore.ComplianceRisk | backend/core.py:110-115 | None for any status but 200. Otherwise the extracted score |
| ComplianceScore.LetterFirstMarked | backend/core.py:74-78 | A reply starting with a letter is not a number, so it is scored by its marker |
| ComplianceScore.MarkedWholeNumber | backend/core.py:74-78 | `risk score of **n**` at the start yields n × 100 |
| ComplianceScore.MarkedDecimal | backend/core.py:77-78 | `risk score of **0.75**` is scored 75: the group's fraction is read |
| ComplianceScore.ShapedMarkerGroup | backend/core.py:77 | Any group of the shape `\d*\.?\d+` between the marker and `**` is matched and captured whole |
| ComplianceScore.NoMarkerSearch | backend/core.py:77 | With no marker at or after a position, the search from there finds nothing |
| ComplianceScore.TrailingDotRejected | backend/core.py:77 | A marker, digits and dots ending in a dot, then `**`, is not a match there: the group must end with a digit |
| ComplianceScore.NoMarkerNoScore | backend/core.py:74-78 | A reply that is not a number and has no marker yields None |
| FraudAgent.CheckFraudWithin | backend/agents/core.py:125-152 | With the autoencoder the fraud score is (xgb + min(error, 1)) / 2, and it stays in [0, 1] |
| FraudAgent.AnalyzeBehavior | backend/agents/core.py:106-123 | A raising model scores 0.0, and an output in [0, 1] stays in [0, 1] |
| FraudAgent.CheckFraud | backend/agents/core.py:125-152 | A raising XGBoost or autoencoder step scores 0.0. Without an autoencoder prediction the score is XGBoost's |
| FraudAgent.CheckCompliance | backend/agents/core.py:154-169 | The FinBERT probabilities, or [0.5, 0.5] when it raises |
| FraudAgent.NodeRisk | backend/agents/core.py:217-228 | Without a truthy `risk_score` the node risk is 0.3·degree + 0.4·betweenness + 0.3·PageRank; equal measures give that measure |
| FraudAgent.NetworkScore | backend/agents/core.py:171-260 | The score lies in [0, 1], and a failure scores 0.5 |
| FraudAgent.CountAbove | backend/agents/core.py:244-250 | The outlier count is at most the number of edges |
| FraudAgent.Clamp | backend/agents/core.py:253 | The clamp lies in [0, 1] and keeps values already there |
| FraudAgent.NodeRisks | backend/agents/core.py:217-230 | One risk per node, each the node's weighted centralities |
| FraudAgent.AnalyzeNetwork | backend/agents/core.py:171-260 | The loop over nodes and the penalties compute NetworkScore |
| FraudAgent.NetworkScoreWithin | backend/agents/core.py:253-260 | The network score lies in [0, 1]. A failure, or a graph without nodes, scores 0.5 |
| FraudAgent.PenaltiesCapped | backend/agents/core.py:238-250 | The cycle penalty is in [0, 0.2] and is 0 iff there are no cycles. The outlier penalty is in [0, 0.15] |
| FraudAgent.MoreCyclesNoLower | backend/agents/core.py:238-253 | More cycles never lower the score |
| FraudAgent.NodeRiskWithin | backend/agents/core.py:217-230 | With centralities and attribute in [0, 1], node risk is in [0, 1] |
| FraudAgent.MeanRiskWithin | backend/agents/core.py:233-234 | With unit nodes the mean node risk is in [0, 1] |
| FraudAgent.PlainGraphScoreIsMean | backend/agents/core.py:233-253 | With unit nodes, no cycles and no outliers, the score is the mean node risk |
| FraudAgent.SumAboveCount | backend/agents/core.py:244-250 | Amounts above a threshold add up to more than count × threshold |
| FraudAgent.OutliersFewerThanThird | backend/agents/core.py:244-250 | With non-negative amounts, fewer than a third of the edges are outliers |
| FraudAgent.NumList | backend/agents/core.py:154-169 | The probabilities as a list, entry by entry |
| FraudAgent.Results | backend/agents/core.py:84-104 | Only the keys behavior, fraud, compliance and network can appear, and a network entry is a number in [0, 1] |
| FraudAgent.ResultKeys | backend/agents/core.py:84-104 | Each key is present iff its input key is there and its model is loaded |
| FraudAgent.ResultValues | backend/agents/core.py:84-104 | The values present are the analyses' results |
| FraudAgent.FallbacksOnError | backend/agents/core.py:106-169 | When every analysis raises, the entries present are behaviour 0.0, fraud 0.0, compliance [0.5,0.5] and network 0.5 |
| FraudAgent.FraudDetectionAgent.constructor | backend/agents/core.py:13-73 | The agent holds the outcome of each loader, with FinBERT and its tokenizer loading together |
| FraudAgent.FraudDetectionAgent.Predict | backend/agents/core.py:84-104 | The dict filled key by key equals Results |
| TransactionService.ServiceSequenceOf | backend/transaction_service.py:76-79 | The sequence has exactly 5 rows |
| TransactionService.ServiceMockOf | backend/transaction_service.py:34-181 | The generated transaction's data is that of the draws |
| TransactionService.ServiceDataOf | backend/transaction_service.py:36-74 | TransactionDT is the clock's seconds, ProductCD is one of the five codes and the e-mail domain one of the six |
| TransactionService.ServiceNodeIdsDistinct | backend/transaction_service.py:97-99 | The user, bank and recipient ids are distinct |
| TransactionService.ServiceMockShaped | backend/transaction_service.py:76-153 | Two edges carrying the amount, the second's timestamp one later, three nodes. metadata.user_id is the first edge's source, and there are 5 rows of 11 |
| TransactionService.ServiceNetworkShaped | backend/transaction_service.py:101-143 | Two edges user → bank → recipient with the amount, timestamps dt and dt+1, over three distinct nodes |
| TransactionService.ServiceSequenceShaped | backend/transaction_service.py:76-79 | Every row is a fresh amount followed by the card, addr, dist, C and D fields |
| TransactionService.ServiceMockInRange | backend/transaction_service.py:39-79 | card1 is in [1000,9999]; card2, card3, card5 and addr1 in [100,999]; dist1 in [0,5000]; C1 in [0,9]; C2 in [0,4]; D1 in [0,29]; D15 in [0,4]; V95, V96, V97, V126 and V127 in [-2,2]. The amount is in [10,10000] and the row amounts in [50,2000] |
| TransactionService.Get | backend/transaction_service.py:224-234 | `.get` returns the entry when present, else the default |
| TransactionService.ProcessResults | backend/transaction_service.py:215-269 | The record is the full response, carrying the agent's results as details and the time, or the two-key error record |
| TransactionService.ProcessedShape | backend/transaction_service.py:215-269 | The record is either the full response or the error record with exactly `error` and `timestamp` |
| TransactionService.OverallWithin | backend/transaction_service.py:237-249 | The weights 0.4, 0.2, 0.2, 0.2 sum to 1, so scores in [lo, hi] give an overall in [lo, hi] |
| TransactionService.EmptyResultsDefaults | backend/transaction_service.py:224-249 | With no agent results, fraud, behaviour and network are 0.0, compliance is 0.5, and overall is 0.1 |
| TransactionService.ComplianceEntry | backend/transaction_service.py:228-230 | A compliance list of length ≤ 1 counts as 0.5. Otherwise its second entry counts |
| TransactionService.NonNumericScoreFails | backend/transaction_service.py:237-269 | A non-numeric fraud score makes the record the error record |
| TransactionService.AgentResultsShaped | backend/transaction_service.py:215-261 | Whatever the agent returns, shaping succeeds with the full response |
| TransactionService.NumericResultsShaped | backend/transaction_service.py:224-261 | Numeric scores and a compliance list of numbers always give the full response, with a numeric overall risk and the list's second entry as compliance when it has one |
| TransactionService.GeneratedAmountCarried | backend/transaction_service.py:252-261 | For a generated transaction the full record carries its amount and text |
| TransactionService.RecordCarriesInput | backend/transaction_service.py:252-261 | The full record copies the request's amount and text |
| TransactionService.Lower | backend/transaction_service.py:299 | Lower-casing keeps the length |
| TransactionService.SourceOf | backend/transaction_service.py:299-309 | Plaid iff the lower-cased name is "plaid". Stripe iff it is "stripe" |
| TransactionService.FetchCount | backend/transaction_service.py:183-213 | Nothing is fetched iff the source is unsupported or Stripe with a limit ≤ 0; Stripe with a positive limit fetches exactly limit |
| TransactionService.FeedResults | backend/transaction_service.py:271-325 | No records when `now − timedelta(hours=interval)` overflows; otherwise one record per fetched transaction, in order, each the processed record of that transaction |
| TransactionService.ProcessedItems | backend/transaction_service.py:312-315 | n records, the k-th being the processed record of the k-th fetched transaction |
| TransactionService.DefaultIntervalFits | backend/transaction_service.py:295 | The default 12-hour window never overflows once the clock is 12 hours past the earliest date |
| TransactionService.OverflowEmptiesFeed | backend/transaction_service.py:295-325 | A window reaching back before the earliest date makes the feed empty, whatever the source |
| TransactionService.Appended | backend/transaction_service.py:191 | Appending the next generated transaction keeps the list equal to the generator's outputs |
| TransactionService.FetchedFeed | backend/transaction_service.py:294-315 | When the window does not overflow, scoring the fetched transactions one by one gives FeedResults |
| TransactionService.SourceCaseInsensitive | backend/transaction_service.py:299-305 | "plaid", "Plaid" and "PLAID" select Plaid, and likewise for Stripe |
| TransactionService.FeedCounts | backend/transaction_service.py:299-315 | When the window does not overflow, Plaid gives 5 records and Stripe gives max(limit, 0). Any other source gives [] |
| TransactionService.FeedRecordsDescribeTransactions | backend/transaction_service.py:312-315 | Every feed record carries its transaction's amount and text |
| TransactionService.TransactionServiceState.constructor | backend/transaction_service.py:17-32 | The service owns the given agent |
| TransactionService.TransactionServiceState.GenerateMockTransaction | backend/transaction_service.py:34-181 | The loop that appends rows builds exactly ServiceMockOf |
| TransactionService.TransactionServiceState.GetPlaidTransactions | backend/transaction_service.py:183-197 | Exactly 5 transactions, the generator's outputs in order |
| TransactionService.TransactionServiceState.GetStripeTransactions | backend/transaction_service.py:199-213 | Exactly max(limit, 0) transactions, the generator's outputs in order |
| TransactionService.TransactionServiceState.GenerateN | backend/transaction_service.py:191 | n transactions, the generator's outputs in order |
| TransactionService.TransactionServiceState.ProcessTransaction | backend/transaction_service.py:215-269 | The agent's prediction followed by the shaping |
| TransactionService.TransactionServiceState.ScoreTransactions | backend/transaction_service.py:312-315 | One record per transaction, in order |
| TransactionService.TransactionServiceState.StartAutomatedFeed | backend/transaction_service.py:271-325 | The method's result equals FeedResults |
| Transactions.PrefixesDiffer | backend/transaction_service.py:97-99 | Ids with different first letters differ |
| Transactions.RowTail | backend/transaction_service.py:79 | The ten values after a row's amount |
| Transactions.ToValue | backend/transaction_service.py:155-181 | The request body has the five keys, carrying the amount and the text |
| Numbers.TrimBlank | frontend/src/pages/Login.jsx:41 | Trimming leaves nothing iff every character is whitespace of the language in question, Unicode spaces included |
| Numbers.Trim | frontend/src/pages/Login.jsx:41 | The trimmed text is no longer than the input and neither starts nor ends with whitespace |
| Numbers.BlanksDiffer | backend/core.py:74 | JavaScript `trim` removes the byte-order mark and Python `strip` does not; Python removes U+0085 and JavaScript does not; both remove the no-break space |
| Numbers.ParseFloat | frontend/src/pages/ManualInput.jsx:125-135 | `parseFloat` reads a number only when, after leading whitespace, the text starts with a sign, a digit or a dot |
| Numbers.PyFloat | backend/core.py:74 | `float(s)` succeeds only on a non-blank stripped text that starts like a number |
| Numbers.ParseInt | frontend/src/pages/Results.jsx:158-161 | `parseInt(s, 10)` is a number iff a digit follows the whitespace and the sign |
| Numbers.ParseIntAuto | frontend/src/pages/ManualInput.jsx:156-183 | `parseInt(s)` without a radix agrees with radix 10 unless the text, after the sign, starts with `0x` or `0X` |
| Numbers.HexSixteen | frontend/src/pages/ManualInput.jsx:156 | "0x10" is 16 without a radix and 0 with radix 10 |
| Numbers.HexPrefixRead | frontend/src/pages/ManualInput.jsx:156-183 | Hex digits after `0x` are read as a hex number without a radix, while radix 10 stops at the `x` and reads 0 |
| Numbers.NatToStringParses | frontend/src/pages/Results.jsx:158-161 | A rendered natural reads back as itself under parseFloat, float and parseInt |
| Numbers.ParseFloatValue | frontend/src/pages/ManualInput.jsx:125 | `parseFloat` gives a number or NaN |
| Numbers.ParseIntValue | frontend/src/pages/ManualInput.jsx:170 | `parseInt(s)` without a radix gives a number or NaN |
| RandomDraws.FloorScale | frontend/src/pages/AutomatedInput.jsx:45-48 | `Math.floor(r·n)` lies in [0, n) |
| RandomDraws.RandInt | backend/transaction_service.py:42-55 | `randint(a, b)` lies in [a, b], both ends included |
| RandomDraws.Uniform | backend/transaction_service.py:39 | `uniform(a, b)` lies in [a, b] |
| RandomDraws.Choice | backend/transaction_service.py:73 | `choice(xs)` is an element of xs |
| RandomDraws.Flag | backend/transaction_service.py:108 | `1 if random() > p else 0` is 1 iff the draw exceeds p |
| Values.Or | frontend/src/pages/ManualInput.jsx:242 | `a \|\| b` is truthy iff a or b is, and it is one of the two: a when a is truthy, else b |

## Left out

- Rounding is not modelled: `round(…, 2)`, `toFixed` and `round(compliance_risk)`. All arithmetic is exact.
  - In `detect_fraud`, `classify_risk` is applied to the rounded average. The model classifies the exact average.
- Floating-point details are simplified:
  - NaN is treated as "not a number" (`None`).
  - Infinity and exponent notation are not part of the number grammar, in `parseFloat` or `float()`.
  - Python's `float()` reads ASCII digits only. Unicode digits and `_` separators are not part of its grammar here.
- Lower-casing is ASCII-only. Unicode case folding is not modelled.
- `JSON.parse` is decoded by the model only for the text `JSON.stringify` writes for a user. For any other stored text, its outcome (the value it yields, or a throw) is a parameter of the mount effect.
- I/O is not modelled. This covers the axios and `requests` calls, the Groq HTTP request, FastAPI routing, CORS and background tasks (`backend/api.py`), and an exception's message text. Each appears as an injected outcome or a string parameter.
- Machine-learning and library internals are given as inputs:
  - XGBoost, CatBoost, LightGBM, the isolation forest, the LSTM and the autoencoder;
  - FinBERT and its tokenizer, which load together;
  - the GNN;
  - networkx centralities, PageRank and cycle enumeration;
  - sklearn preprocessing.
- Randomness, the clock and timers are explicit:
  - `Math.random` and `random.*` are draws in [0, 1). `randint(a, b)` is one draw.
  - `Date.now`, `time.time` and `datetime.now` are parameters.
  - The 12-second `setInterval` and `time.sleep` are explicit events. How long a scoring request takes is not modelled; only the order in which posts, responses and other events happen is.
- The presentational and routing code is not part of this model: Home, Dashboard, MainLayout, components/Results, components/ManualInput, WelcomeAnimation, App and main. Neither are services/api.js and the test scripts.
- The `api_key` argument of the service's fetchers is ignored by the source and is left out.
- ComplianceScore.ExtractRiskScore: the `\d` of the score patterns matches ASCII digits only, and so does `IsDigit` in ComplianceScore.MarkedScore and ComplianceScore.GroupAt. Python 3's `\d` matches every Unicode decimal digit, and `float()` reads them, so a reply such as `risk score of **٧**` scores 700.0 in the source and yields no score here.
- ComplianceScore.MarkedScore: matches ASCII digits only, for the reason given under ComplianceScore.ExtractRiskScore.
- AutomatedFeed.TickState: covers a post whose response arrives before any other event, and so do the runs built on it (RunTicks, SuccessfulTicks, ElevenTicks, ProgressCycles). Late and out-of-order responses are modelled by SendState and ResolveState instead.
- AutomatedFeed.StartState: covers a start whose first response arrives before any other event. FeedController.StartAutomatedFeed itself only posts, as BeginState and SendState say.
- AutomatedFeed.FeedController.ReceiveResponse: a response that arrives after the page unmounted still reaches the parent's `addResult` in the source, while React drops its state updates on the unmounted page. The model does not mark the page as unmounted and applies those updates as well.
- ComplianceScore.ComplianceRisk: does not model `round(risk_score)` on the returned score, because rounding is left out.
- DetectFraud.CompliancePercent: a model reply outside [0, 100] is not clamped in the source either. `UnclampedCompliance` exhibits this.
- LoginPage.Submit: `loading` is true only while the synchronous `login` call runs. The model records only its final false value.
- ManualInput.ManualEntry.HandleSubmit: the request is resolved at once, so the window while it is awaited is not modelled. During that window the source sets `loading := true`, which disables Submit and shows the spinner, and clears the error Alert. The model states only the values after the response. Back and the form edits stay possible during the wait, and they touch none of what the response writes, so no final state is lost.
- ManualInput.ManualEntry.HandleTransactionDataChange: the fields it leaves alone are stated by its field-granular `modifies` clause rather than by `unchanged` clauses.
- ResultsPage.CountsPartition: every row's `overall_risk` is a number here. In the source a row with no numeric `overall_risk` falls into none of the three counts, so the counts can add up to less than the total.
- ResultsPage.BarOf: a bar is labelled with the row's timestamp text. The source labels it with the time part of the locale-formatted date, `formatDate(t).split(',')[1].trim()`, which depends on the locale. The `toFixed(1)` rounding of the bar values is left out with the other rounding.
- TransactionService.FeedResults: `datetime.now()` is given as two exact distances, in hours, from the earliest and to the latest date a `datetime` can hold. The `strftime` text of the window is not modelled, since the fetchers ignore it.
