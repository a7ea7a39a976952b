# Elementry, modelled in Dafny

Elementry takes a business idea, has an LLM break it down into its "elements", and lets the signed-in user follow pivots of the idea from a dashboard. This project models the parts of Elementry that decide things:

- **Backend** (FastAPI):
  - the AI-usage quota gate, and the `/deconstruct` endpoint that runs it;
  - the bearer-token dependency;
  - the engine's fence stripping and its attempt/back-off/fallback loop;
  - the dashboard statistics, usage meter, alert rules, recent-alerts query and growth series;
  - the create, dismiss, update, delete and get operations on the document store.
- **Client** (React):
  - the strategy board's filters, kanban and tab counts;
  - the pivot page's list of strategies and its pipeline counters;
  - the strategy details lookup;
  - the project and resource filters;
  - the comparison charts' data;
  - the dashboard cards, relative times and fallbacks;
  - the two zustand stores.

The document store is the class `Store.Firestore`, with one map field per collection. A `null` store stands for the backend running without credentials, which every backend function checks first. These operations become parameters:

- the identity provider's token check: `verifyIdToken`;
- the LLM call: `reply`, what attempt `k` gets back;
- JSON decoding and schema validation: `parse`;
- server timestamps: `now`;
- generated document ids: `newId`/`newIds`, assumed fresh;
- `crypto.randomUUID`: `freshId`.

Methods model the code that updates state in place or works in loops:

- `IncrementAiUsage`, `SyncUserToFirestore` and `Deconstruct`;
- `GetUserStats` and `GetProjectGrowth`, with their accumulator loops;
- `GenerateAiAlerts` and the create/dismiss/update/delete operations;
- `AnalyzeWithRetries`, the attempt loop;
- `KanbanColumns` and `RadarData`, the `forEach` passes that push into or mutate local objects;
- the two client stores, as the classes `StrategyStore.Store` and `AuthStore.Session`.

Each method is proved against a function or predicate, and lemmas prove the properties of those functions. Pure client logic is written as functions with lemmas.

Modules:

| module | file |
|---|---|
| `Lists`, `Text` | shared helpers: filtering, counting, sums, JavaScript/Python string behaviour (`toLowerCase`, `includes`, `trim`, `strip`, `parseInt`, `split`) |
| `Store` | the documents and the store |
| `Auth` | backend/auth.py |
| `Api` | backend/main.py |
| `Engine` | backend/engine.py |
| `FirestoreUtils`, `FirestoreQueries` | backend/firestore_utils.py |
| `StrategyBoard` | StrategyBoard.jsx |
| `PivotPage` | PivotPage.jsx |
| `StrategyDetails` | StrategyDetailsPage.jsx |
| `SavedProjects` | SavedProjectsPage.jsx |
| `Resources` | ResourcesPage.jsx |
| `Comparison` | ComparisonView.jsx |
| `DashboardOverview` | DashboardOverview.jsx |
| `StrategyStore` | useStrategyStore.js |
| `AuthStore` | useAuthStore.js |

## Model

| member | source | states |
|---|---|---|
| Auth.PlanLimit | backend/auth.py:114-121 | starter 10, pro 150, empire 999999; any other plan name gets 10 |
| Auth.Admits | backend/auth.py:97-122 | a uid without a user document is rejected; otherwise admitted iff usage (a missing document or field counts as 0) is below the limit of the plan (missing plan = starter) |
| Auth.CheckAiLimit | backend/auth.py:93-122 | without a store every uid is admitted; with one the decision is `Admits` on the store's users and usage |
| Auth.Incremented | backend/auth.py:128-135 | the charged user's count goes up by exactly one (a missing document becomes count 1); the set of documents grows by that uid at most and every other user's document is unchanged |
| Auth.IncrementAiUsage | backend/auth.py:124-135 | without a store nothing changes; otherwise the usage documents become `Incremented` of the old ones and no other collection changes |
| Auth.AdmitsUntilLimit | backend/auth.py:112-122 | at limit−1 the gate admits, and after one charge the same user is rejected |
| Auth.IncrementIsolated | backend/auth.py:124-135 | charging one user never changes another user's admission |
| Auth.ServeRequestsReachesLimit | backend/auth.py:93-135 | n requests of one user, each charged only when admitted, raise the count to min(count + n, limit) and never past the limit |
| Auth.ServeRequestsUnknownUser | backend/auth.py:99-100 | a uid without a user document is never charged, however many times it asks |
| Auth.VerifyToken | backend/auth.py:44-56 | without a store the fixed mock identity (uid "mock-uid"); otherwise the provider's answer, None when it rejects the token |
| Auth.SyncUserToFirestore | backend/auth.py:58-91 | without a store the claims come back unchanged; a missing uid claim raises and writes nothing; otherwise email/name default to "N/A", the photo and login time are written, an existing plan is kept, a missing plan becomes "starter", only that user's document changes, and the stored document is returned |
| Api.BearerToken | backend/main.py:36 | the token is the header text after "Bearer " up to the next space, and contains no space |
| Api.BearerTokenOfHeader | backend/main.py:36 | "Bearer " + a token without spaces (+ further space-separated fields) hands exactly that token to the verifier |
| Api.GetToken | backend/main.py:33-40 | 401 "Invalid authentication credentials" without the "Bearer " prefix; 401 "Invalid token" when verification gives nothing or an empty (falsy) result; otherwise the decoded claims unchanged |
| Api.GetTokenWithoutStore | backend/main.py:33-40 | without a store any "Bearer " header authenticates as the mock identity |
| Api.GetTokenWithStore | backend/main.py:33-40 | with a store an accepted token yields exactly the provider's claims and a rejected token yields 401 |
| Api.Deconstruct | backend/main.py:55-66 | an auth failure is returned as is; a missing uid claim is a 500; a rejected gate is a 403 with no engine call and no charge; an admitted request runs the engine with currency "USD" and is charged exactly once afterwards, even when the engine fell back to canned data; no other collection changes |
| Engine.StripFences | backend/engine.py:121-127 | the stripped text is a substring of the reply, at most 10 characters shorter than the whitespace-stripped reply |
| Engine.StripFencesUnwraps | backend/engine.py:121-127 | a "```json … ```" block gives back exactly its body |
| Engine.StripFencesIgnoresPadding | backend/engine.py:121 | whitespace around a fenced reply does not change the result |
| Engine.StripFencesKeepsBareJson | backend/engine.py:124-127 | a bare JSON object is left unchanged |
| Engine.StripFencesKeepsUntaggedOpening | backend/engine.py:124-127 | an opening fence without the json tag is not removed; only the closing one is |
| Engine.StripFencesKeepsTruncatedBody | backend/engine.py:124-127 | a "```json" reply cut off before its closing fence loses the tag and keeps the rest exactly |
| Engine.Backoff | backend/engine.py:135 | the pause after failed attempt k is base_delay·2^k, at least 2 s |
| Engine.Pauses | backend/engine.py:134-135 | after n failed attempts the pauses taken are exactly Backoff(0..n−1) |
| Engine.FirstSuccess | backend/engine.py:103-130 | the first attempt whose reply parses: every earlier attempt failed; None iff all failed |
| Engine.AnalyzeWithRetries | backend/engine.py:100-141 | the loop returns the first parsed reply or the fallback; it makes ProviderCalls calls and takes one pause after each failure except the last |
| Engine.CallsBounded | backend/engine.py:100-103 | at most three provider calls; the pauses are 2 s then 4 s (see also lines 134-135) |
| Engine.FallbackIffAllFail | backend/engine.py:132-141 | with a client, the fallback comes back after three calls when every attempt fails; otherwise the first successful parse comes back |
| Engine.ResultIsFallbackOrParsed | backend/engine.py:100-141 | the result is always the fallback or one of the parsed replies |
| Engine.FirstTryCostsOneCall | backend/engine.py:129-130 | a first attempt that parses costs one call |
| Engine.MockFunding | backend/engine.py:162-166 | three funding steps, each amount ending in the requested currency |
| Engine.MockData | backend/engine.py:143-179 | seven elements, the idea echoed, the requested currency, overall score 85, and every cost in that currency |
| Engine.MockPivotData | backend/engine.py:272-291 | the first recommended action names the pivot and has High priority; viability 85, market fit 78, risk Medium, "$5k", "12 weeks" |
| Engine.DeconstructBusinessIdea | backend/engine.py:27-141 | with no client, the canned deconstruction and no call; otherwise the attempt loop over the provider's replies, at most three calls |
| Engine.GeneratePivotAnalysis | backend/engine.py:182-270 | the same loop with the canned pivot analysis as the fallback |
| Engine.GenerateDiagnosis | backend/engine.py:293-369 | the same loop with the fixed diagnosis (viability 65) as the fallback |
| Store.StreamDocs | backend/firestore_utils.py:31 | streaming a collection yields each document exactly once, in some order |
| Store.ListingsArePermutations | backend/firestore_utils.py:31 | two streams of the same collection are permutations of each other |
| Store.ListingLength | backend/firestore_utils.py:31 | a stream yields as many documents as the collection holds |
| FirestoreUtils.StatsOf | backend/firestore_utils.py:38-53 | ideas analysed = the number of projects; active ≤ ideas, and 0 iff no project is "active"; no projects gives all zeros; otherwise success rate × count = score total |
| FirestoreUtils.GetUserStats | backend/firestore_utils.py:10-53 | zeros without a store; otherwise the loop's accumulators equal `StatsOf` of the streamed projects |
| FirestoreUtils.Totals | backend/firestore_utils.py:38-44 | the loop counts every streamed project, sums the streams and the scores (missing ones as 0) and counts the "active" ones, exactly as the listing functions do |
| FirestoreUtils.StatsDependOnDocumentsOnly | backend/firestore_utils.py:31-53 | the statistics do not depend on the order of the stream, and ideas analysed = the number of project documents |
| FirestoreUtils.UsageStatsOf | backend/firestore_utils.py:229-254 | the plan defaults to starter (also for a missing user document), usage defaults to 0, the limit comes from the gate's table, and percentage × limit = usage × 100 |
| FirestoreUtils.GetUserUsageStats | backend/firestore_utils.py:210-254 | starter 0/10 at 0% without a store, `UsageStatsOf` otherwise |
| FirestoreUtils.UsageMeterAgreesWithGate | backend/firestore_utils.py:246-247 | for a user with a document and the exact (unrounded) percentage, the gate admits exactly while the meter is below 100% |
| FirestoreUtils.UsageMeterOfUnknownUser | backend/firestore_utils.py:232 | a user without a document is shown a starter meter, although the gate rejects them |
| FirestoreUtils.AlertsFor | backend/firestore_utils.py:166-208 | at most three alerts, in the order warning, info, success, each about the project |
| FirestoreUtils.WarningRule | backend/firestore_utils.py:175-178 | a warning iff no stream name contains "marketplace" or "platform", ignoring the case of ASCII letters |
| FirestoreUtils.InfoRule | backend/firestore_utils.py:188-189 | an info iff more than three streams score below 50 (a missing score counts as 100) |
| FirestoreUtils.SuccessRule | backend/firestore_utils.py:199 | a success iff the overall score (0 when missing) is at least 85 |
| FirestoreUtils.StampedAlert | backend/firestore_utils.py:144-145 | the stored alert is stamped now and has dismissed = false, whatever the caller passed; its other fields are kept |
| FirestoreUtils.CreateAlert | backend/firestore_utils.py:132-151 | the mock id without a store; otherwise the stamped alert is stored under the new id and nothing else changes |
| FirestoreUtils.AddedAlertsContents | backend/firestore_utils.py:166-208 | with fresh distinct ids, each created alert is stored as asked and every earlier alert is kept |
| FirestoreUtils.GenerateAiAlerts | backend/firestore_utils.py:166-208 | one id per rule that fires, in rule order (the mock id without a store); with a store the alerts collection is the old one plus those alerts, and other users and collections are unchanged |
| FirestoreUtils.GeneratedAlertsStored | backend/firestore_utils.py:166-208 | each generated alert is stored stamped and undismissed, and earlier alerts are untouched |
| FirestoreUtils.StampedProject | backend/firestore_utils.py:122-124 | both timestamps set and status forced to "active"; the other fields are kept |
| FirestoreUtils.CreateProject | backend/firestore_utils.py:110-130 | the mock id without a store; otherwise the stamped project is stored under the new id, `GetProject` then finds it, and nothing else changes |
| FirestoreUtils.StampedPivot | backend/firestore_utils.py:374-375 | creation stamp set and status forced to "active"; name, project and analysis are kept |
| FirestoreUtils.CreatePivot | backend/firestore_utils.py:362-381 | the mock id without a store; otherwise the stamped pivot is stored under the new id and nothing else changes |
| FirestoreUtils.DismissAlert | backend/firestore_utils.py:153-164 | only `dismissed` changes, to true, and the answer is true; a missing alert raises NotFound and changes nothing |
| FirestoreUtils.UpdateProjectStatus | backend/firestore_utils.py:317-331 | only status and the update stamp change, and the answer is true; a missing project raises NotFound |
| FirestoreUtils.DeleteProject | backend/firestore_utils.py:304-315 | the project is gone afterwards, nothing else changes, and the answer is always true |
| FirestoreUtils.GetProject | backend/firestore_utils.py:333-360 | None without a store or for a missing document; otherwise the document with its id added |
| FirestoreQueries.SortNewestFirst | backend/firestore_utils.py:64 | the same alerts (a permutation), newest first |
| FirestoreQueries.GetUserAlerts | backend/firestore_utils.py:55-80 | empty without a store; otherwise stored undismissed alerts, each at most once, newest first, at most `limit` of them; an eligible alert is left out only when the limit is reached and it is no newer than the last one shown |
| FirestoreQueries.DismissedAlertHidden | backend/firestore_utils.py:64 | after dismissal an alert is never returned by the recent-alerts query (see also line 162) |
| FirestoreQueries.DateOf | backend/firestore_utils.py:277-289 | the day of a stamp is non-empty; for a string it is the prefix before the first 'T' |
| FirestoreQueries.DateOfIsoText | backend/firestore_utils.py:286-287 | an ISO timestamp string is counted under its date part |
| FirestoreQueries.DateCountsAreCounts | backend/firestore_utils.py:275-290 | each day's tally is the number of projects created on that day |
| FirestoreQueries.SortedDays | backend/firestore_utils.py:293 | the days, strictly ascending, each exactly once |
| FirestoreQueries.GetProjectGrowth | backend/firestore_utils.py:256-302 | empty without a store; otherwise one point per creation day, in ascending order, each counting the projects created on or before it; counts strictly increase, and the last one counts every project with a usable creation stamp |
| FirestoreQueries.GrowthIncreasing | backend/firestore_utils.py:295-300 | the counts of the series are strictly increasing |
| FirestoreQueries.GrowthTotal | backend/firestore_utils.py:295-300 | the last count is the number of dated projects; an empty series means there are none |
| FirestoreQueries.GroupByDay | backend/firestore_utils.py:275-290 | the grouping loop computes `DateCounts` of the stream |
| FirestoreQueries.Accumulate | backend/firestore_utils.py:295-300 | the accumulation loop gives each day the running total of the tallies up to that day |
| FirestoreQueries.GrowthMeaning | backend/firestore_utils.py:273-300 | the accumulated series over the sorted days is the cumulative count per day |
| StrategyBoard.FilteredStrategies | frontend/src/components/StrategyBoard.jsx:103-132 | an order-preserving subsequence; on the pivot and fix tabs every result has that type and is not potential; a status filter other than "all" is matched exactly; every result matches the search (ASCII case folding); and every strategy the predicate accepts is kept |
| StrategyBoard.UnfilteredShowsAll | frontend/src/components/StrategyBoard.jsx:104-131 | the "all" tab with no search and status "all" shows every strategy, in order |
| StrategyBoard.SearchOnly | frontend/src/components/StrategyBoard.jsx:119-125 | on the "all" tab with status "all", a strategy stays iff the query occurs, ignoring the case of ASCII letters, in its title or description |
| StrategyBoard.KanbanColumns | frontend/src/components/StrategyBoard.jsx:135-148 | exactly the four columns, each holding the filtered strategies of its status, in order |
| StrategyBoard.KanbanPlacement | frontend/src/components/StrategyBoard.jsx:142-146 | a strategy of a kanban status sits in its own column and in no other; any other status appears in no column |
| StrategyBoard.TabCount | frontend/src/components/StrategyBoard.jsx:162-170 | a badge never exceeds the number of strategies, and "all" counts every one |
| StrategyBoard.TabCountCanExceedShown | frontend/src/components/StrategyBoard.jsx:111-116 | the pivot and fix badges are at least the number of cards shown, and more when a potential strategy of that type exists (see also lines 162-170) |
| PivotPage.ActiveEntry | frontend/src/pages/PivotPage.jsx:122-130 | title = pivot name, type pivot, status defaults to "discovery"; the description is the market fit, or "Active pivot strategy" when the pivot has no analysis |
| PivotPage.RemainingOptions | frontend/src/pages/PivotPage.jsx:131-134 | the options no active pivot is named after, as an order-preserving subsequence; every such option is kept |
| PivotPage.PotentialEntries | frontend/src/pages/PivotPage.jsx:135-141 | the j-th remaining option becomes card potential-j, status "potential" |
| PivotPage.Strategies | frontend/src/pages/PivotPage.jsx:121-142 | the active cards in order, then the remaining options' cards; length = active + remaining |
| PivotPage.PotentialCardsAreInactiveOptions | frontend/src/pages/PivotPage.jsx:131-141 | an option appears as a potential card iff no active pivot has its name; every potential card is a "potential" pivot |
| PivotPage.PotentialIdsDistinct | frontend/src/pages/PivotPage.jsx:136 | distinct positions get distinct potential ids |
| PivotPage.PipelineCount | frontend/src/pages/PivotPage.jsx:471-507 | a counter never exceeds the number of active pivots |
| PivotPage.DiscoveryCounterMissesUnstatused | frontend/src/pages/PivotPage.jsx:127 | the Discovery counter reads the stored status: it is at most the number of discovery cards, and smaller when a pivot has no status (see also lines 474-475) |
| PivotPage.RunDiagnosis | frontend/src/pages/PivotPage.jsx:222-242 | no request when neither the override nor the selected project is set; the override wins; empty challenges become "General diagnosis" |
| PivotPage.CreateAndDiagnose | frontend/src/pages/PivotPage.jsx:244-255 | an idea that is blank after trim is refused; otherwise it is sent as typed |
| StrategyDetails.FindById | frontend/src/pages/StrategyDetailsPage.jsx:93 | the first active pivot with the id, None iff there is none |
| StrategyDetails.ResolveStrategy | frontend/src/pages/StrategyDetailsPage.jsx:89-117 | no selection gives null; a matching active pivot wins, as type pivot with a defaulted status; otherwise only a "potential-" id with a non-empty option at that index of the full option list resolves |
| StrategyDetails.IndexOfPotentialId | frontend/src/pages/StrategyDetailsPage.jsx:101 | the index parsed from potential-i is i |
| StrategyDetails.OutOfRangeIsNull | frontend/src/pages/StrategyDetailsPage.jsx:101-103 | an index past the end of the options gives null (see also line 116) |
| StrategyDetails.NonNumericIsNull | frontend/src/pages/StrategyDetailsPage.jsx:101-103 | a non-numeric index gives null (see also line 116) |
| StrategyDetails.SchemesAgreeWithoutActiveOptions | frontend/src/pages/PivotPage.jsx:131-141 | when no option is already active, card potential-j of the pivot page resolves to option j |
| StrategyDetails.PotentialIdMismatch | frontend/src/pages/StrategyDetailsPage.jsx:100-103 | with options [A, B] and A active, the pivot page labels B potential-0 but the lookup resolves potential-0 to A |
| StrategyDetails.ResolveStrategyConsistent | frontend/src/pages/StrategyDetailsPage.jsx:89-117 | the lookup with the pivot page's numbering: a potential id resolves to a remaining option |
| StrategyDetails.CardsResolveToThemselves | frontend/src/pages/PivotPage.jsx:121-142 | with the corrected lookup, every card of the pivot page resolves to itself (id, title, status) |
| StrategyDetails.FormFor | frontend/src/pages/StrategyDetailsPage.jsx:128-138 | title = pivot name; description = market fit or ""; confidence = viability score, or 50 when it is missing or 0; type pivot, impact Medium |
| StrategyDetails.FormAfter | frontend/src/pages/StrategyDetailsPage.jsx:119-139 | the form is refilled when a strategy is found and kept otherwise |
| SavedProjects.FilterProjects | frontend/src/pages/SavedProjectsPage.jsx:75-82 | no data gives nothing; a project without a name throws; otherwise an order-preserving subsequence of the projects whose status matches the tab and whose name contains the query, ignoring the case of ASCII letters, with every such project kept |
| SavedProjects.AllTabShowsEverything | frontend/src/pages/SavedProjectsPage.jsx:76-80 | "all" with an empty query shows every project |
| SavedProjects.StatusTabRefinesAll | frontend/src/pages/SavedProjectsPage.jsx:76-77 | a status tab shows exactly the projects of that status among those the "all" tab shows |
| SavedProjects.MenuStatusesHaveTabs | frontend/src/pages/SavedProjectsPage.jsx:124 | each status the menu sets has a tab, under which the updated project is shown (see also lines 176, 188, 200) |
| Resources.ResourcesOf | frontend/src/pages/ResourcesPage.jsx:61-63 | the elements in order, each tagged "element", fields copied |
| Resources.FilteredResources | frontend/src/pages/ResourcesPage.jsx:65-72 | an order-preserving subsequence that is sound and complete for the tab and search clauses (ASCII case folding); on a tab other than "all" every result has a category |
| Resources.EmptySearchShowsDescribed | frontend/src/pages/ResourcesPage.jsx:68-70 | with an empty query the "all" tab shows exactly the resources that have a name or a description |
| Resources.TabRefinesAll | frontend/src/pages/ResourcesPage.jsx:66-67 | a tab shows exactly the resources of that category among those "all" shows |
| Comparison.RiskScore | frontend/src/components/ComparisonView.jsx:60-66 | a missing risk level scores 50, and every score is one of 20, 40, 50, 60, 90 |
| Comparison.RiskScoreIgnoresCase | frontend/src/components/ComparisonView.jsx:66 | the score does not depend on letter case |
| Comparison.RiskScoresDecrease | frontend/src/components/ComparisonView.jsx:61-66 | low 90, medium 60, medium-high 40, high 20, unknown 50 |
| Comparison.ActionPercent | frontend/src/components/ComparisonView.jsx:68-73 | 0 unless the total is positive; NaN when the completed count is missing; otherwise completed/total·100 rounded half up |
| Comparison.ActionPercentRange | frontend/src/components/ComparisonView.jsx:68-73 | for 0 ≤ completed ≤ total the percentage lies in 0..100, is 0 for none and 100 for all |
| Comparison.RadarData | frontend/src/components/ComparisonView.jsx:49-80 | five rows with their metrics and fullMark 100; row r holds exactly the keys pivot_0..pivot_(n−1), with pivot i's value of that metric |
| Comparison.PivotKeyInjective | frontend/src/components/ComparisonView.jsx:75-79 | distinct pivots write distinct keys |
| Comparison.Investment | frontend/src/components/ComparisonView.jsx:87-94 | 0 for a missing or empty estimate or one without digits; otherwise the value of the first run of digits |
| Comparison.InvestmentTakesFirstNumber | frontend/src/components/ComparisonView.jsx:89-91 | in text whose first number is n, the investment is n |
| Comparison.BarData | frontend/src/components/ComparisonView.jsx:83-101 | one entry per pivot, in order, with index i, the pivot's name, its timeline (0 by default) and its investment |
| Comparison.NoAnalysisIsNeutral | frontend/src/components/ComparisonView.jsx:59 | a pivot without analysis charts as 0 everywhere except risk safety 50 (see also line 84) |
| DashboardOverview.FallbacksMatchServer | frontend/src/pages/DashboardOverview.jsx:52-64 | the fallback stats are zeros and the fallback meter is starter 0/10 at 0%, which is what the server reports without a store; the cards then trend down |
| DashboardOverview.StatCards | frontend/src/pages/DashboardOverview.jsx:70-99 | four cards; ideas and streams always trend up; success trends up iff the rate ≥ 70; active trends up iff n > 0, showing "+n", otherwise "0" |
| DashboardOverview.SuccessCardOfMean | frontend/src/pages/DashboardOverview.jsx:89 | for the exact (unrounded) mean, the success card trends up iff the score total reaches 70 per project |
| DashboardOverview.ActiveCardOfListing | frontend/src/pages/DashboardOverview.jsx:96-97 | the active card trends up iff some project is active |
| DashboardOverview.FormatTimestamp | frontend/src/pages/DashboardOverview.jsx:102-114 | "Just now" iff there is no timestamp; otherwise floor minutes below 60, then floor hours below 24, then floor days |
| DashboardOverview.BucketsByElapsedTime | frontend/src/pages/DashboardOverview.jsx:107-113 | minutes below one hour, hours from one hour to below one day, days from one day on |
| DashboardOverview.Render | frontend/src/pages/DashboardOverview.jsx:103-113 | the text of each bucket |
| DashboardOverview.RecentShown | frontend/src/pages/DashboardOverview.jsx:204 | the first min(2, n) projects |
| StrategyStore.Stamped | frontend/src/store/useStrategyStore.js:38 | the new item keeps the input's fields, with a fresh id and the forced fields overriding them (see also lines 50, 64) |
| StrategyStore.Updated | frontend/src/store/useStrategyStore.js:54 | same length and order; only entries with the id change, by merging in the data (see also line 68) |
| StrategyStore.Removed | frontend/src/store/useStrategyStore.js:45 | every entry with the id is dropped and the rest kept in order (see also lines 58, 73) |
| StrategyStore.RemoveAbsent | frontend/src/store/useStrategyStore.js:58 | removing an absent id changes nothing |
| StrategyStore.UpdateAbsent | frontend/src/store/useStrategyStore.js:54 | updating an absent id changes nothing |
| StrategyStore.RemoveUndoesAdd | frontend/src/store/useStrategyStore.js:50 | removing a freshly added item restores the list (see also line 58) |
| StrategyStore.UpdateIdempotent | frontend/src/store/useStrategyStore.js:54 | applying the same update twice is the same as once |
| StrategyStore.RemoveAfterUpdate | frontend/src/store/useStrategyStore.js:54 | removing after updating is the same as removing (see also line 58) |
| StrategyStore.Store.constructor | frontend/src/store/useStrategyStore.js:4-15 | the initial market analysis, no risks, no timeline |
| StrategyStore.Store.SetMarketAnalysis | frontend/src/store/useStrategyStore.js:18-23 | one section replaced, the others and the lists unchanged |
| StrategyStore.Store.UpdateMarketSize | frontend/src/store/useStrategyStore.js:25-33 | the data merged into the named tier only; the other tiers and sections unchanged |
| StrategyStore.Store.AddCompetitor | frontend/src/store/useStrategyStore.js:35-40 | one competitor appended with a fresh id |
| StrategyStore.Store.RemoveCompetitor | frontend/src/store/useStrategyStore.js:42-47 | the competitors without that id |
| StrategyStore.Store.AddRisk | frontend/src/store/useStrategyStore.js:49-51 | one risk appended with a fresh id and status "identified"; earlier risks and the other fields unchanged |
| StrategyStore.Store.UpdateRisk | frontend/src/store/useStrategyStore.js:53-55 | the risks merged by id |
| StrategyStore.Store.RemoveRisk | frontend/src/store/useStrategyStore.js:57-59 | the risks without that id |
| StrategyStore.Store.SetRisks | frontend/src/store/useStrategyStore.js:61 | the risks replaced |
| StrategyStore.Store.AddTimelinePhase | frontend/src/store/useStrategyStore.js:63-65 | one phase appended with a fresh id and status "pending" |
| StrategyStore.Store.UpdateTimelinePhase | frontend/src/store/useStrategyStore.js:67-69 | the phases merged by id |
| StrategyStore.Store.RemoveTimelinePhase | frontend/src/store/useStrategyStore.js:72-74 | the phases without that id |
| StrategyStore.Store.SetStrategyDetails | frontend/src/store/useStrategyStore.js:76-80 | all three fields replaced |
| StrategyStore.Store.Reset | frontend/src/store/useStrategyStore.js:83-96 | exactly the initial state |
| StrategyStore.AddThenRemoveRisk | frontend/src/store/useStrategyStore.js:49-59 | adding a risk and removing it by its fresh id leaves the store as it was |
| AuthStore.Session.constructor | frontend/src/store/useAuthStore.js:4-6 | no user, not authenticated, page "home" |
| AuthStore.Session.Login | frontend/src/store/useAuthStore.js:8 | user set, authenticated, page "dashboard"; the session is consistent iff a user was given |
| AuthStore.Session.Logout | frontend/src/store/useAuthStore.js:9 | no user, not authenticated, page "home" |
| AuthStore.Session.SetCurrentPage | frontend/src/store/useAuthStore.js:10 | only the page changes, so consistency is preserved |

## Left out

- Rate limiting and response caching: backend/main.py and backend/auth.py have neither, so the quota gate is the only admission control modelled.
- Concurrency: the read-then-increment in `deconstruct` and the exists-then-set in `increment_ai_usage` can race. Only sequential runs are modelled.
- Firestore itself is not modelled: query execution, `SERVER_TIMESTAMP` and the ISO conversion of stamps in `get_user_alerts`, `get_user_projects` and `get_project`. The store is maps of records; the stream order is arbitrary (`Store.StreamDocs`); stamps are integers, or a date with milliseconds.
- `get_user_projects` and `get_pivots` (backend/firestore_utils.py:82-108, 383-411) are not modelled: they are plain ordered reads with no decision beyond the query.
- The endpoints `/auth/sync`, `/dashboard/stats`, `/dashboard/alerts`, `/dashboard/projects` and `/dashboard/alerts/{id}/dismiss` are not modelled as endpoints. They only pass the `uid` claim from `get_token` to functions that are modelled.
- The LLM provider is a parameter: the prompts, the HTTP call, `json.loads` and the pydantic validation are left out. `reply` gives each attempt's outcome and `parse` decodes and validates. `asyncio.sleep` is recorded as the list of pauses.
- Engine.DeconstructBusinessIdea: backend/models.py's result classes are not part of this model. The fields follow what engine.py passes to `DeconstructionResult(...)`.
- Firebase initialisation, credentials and the environment scripts are left out.
- FirestoreUtils.StatsOf: the success rate is the exact mean; Python's `round(x, 1)` is not modelled.
- FirestoreUtils.UsageStatsOf: the percentage is exact; Python's `round(x, 1)` is not modelled.
- FirestoreUtils.UsageMeterAgreesWithGate: holds for the exact percentage only. With `round(percentage, 1)` (backend/firestore_utils.py:253) an empire user at 999500 to 999998 of 999999 is shown 100.0 while the gate still admits them.
- DashboardOverview.SuccessCardOfMean: holds for the exact mean only. With `round(success_rate, 1)` (backend/firestore_utils.py:51) a score total of 2099 over 30 projects is shown as 70.0 and the card trends up, although the total is below 70 per project.
- Text.Lower: Python's `str.lower` and JavaScript's `toLowerCase` fold every Unicode letter; the model folds the ASCII letters A to Z only. Every search and rule built on it is therefore exact for ASCII text only: "CAFÉ" does not match "café", and a "marketplace" spelt with the Kelvin sign (U+212A) is not recognised.
- FirestoreUtils.WarningRule: "ignoring case" covers ASCII letters only (see Text.Lower); a stream name that Python lower-cases to "marketplace" or "platform" only through a non-ASCII letter still raises the warning in the model, not in the source.
- StrategyBoard.FilteredStrategies: the search clause folds ASCII letters only (see Text.Lower); a title matching the query only after folding a non-ASCII letter is dropped by the model and kept by the source.
- StrategyBoard.SearchOnly: "ignoring case" covers ASCII letters only (see Text.Lower).
- SavedProjects.FilterProjects: the name search folds ASCII letters only (see Text.Lower).
- Resources.FilteredResources: the name and description search folds ASCII letters only (see Text.Lower).
- DashboardOverview.StatCards: the JavaScript rendering of the success rate as text is not modelled; the card carries the number.
- Comparison.ActionPercent: the rounding is exact (half up) on rationals. Floating-point error in `completed / total * 100` and non-integer counts are not modelled.
- Comparison.RiskScore: the lookup `{...}[level]` also finds `Object.prototype` members such as "constructor"; these are not modelled. Unknown levels score 50.
- StrategyBoard.KanbanColumns: `cols[s.status]` likewise finds `Object.prototype` members; a status named after one of them is treated as having no column.
- Comparison.Investment: `parseInt` of a digit run longer than double precision can represent is taken as the exact integer.
- DashboardOverview.FormatTimestamp: date parsing is left out; the alert time and the current time are milliseconds. An unparsable date (NaN in JavaScript) is not modelled.
- JavaScript's `null` and `undefined` are both `None`. `Option` fields stand for missing keys, and `||` defaults are modelled with `StrOr`/`IntOr`.
- useAuthStore.js defines only `user`, `isAuthenticated` and `currentPage`. The pages also read `selectedProjectId`, `setSelectedProjectId`, `selectedStrategyId`, `currency`, `settings` and `updateSettings` from it, which it does not define, so those are inputs of the page functions.
- StrategyStore.Store.SetMarketAnalysis: only the four known sections are modelled, as a `Section` datatype. A call with any other section name adds a key that the store never reads, and that is not modelled.
- StrategyStore.Stamped: `crypto.randomUUID` is the `freshId` parameter.
- PivotPage's and the other pages' React Query wiring, toasts, routing, layouts, animations and the presentation-only files are not part of this model.
- The network calls the pages make and that neither api.js nor main.py defines (`getProject`, `getPivots`, `createPivot`, `diagnoseProject`, `deleteProject`, `updateProjectStatus`) are not modelled. Only the page-side decisions before them are.
- `deconstruct` returns no `project_id`, so after creating a project the pivot page falls back to the selected project. That flow is not modelled beyond `PivotPage.CreateAndDiagnose`.

## Findings

| source | as written | input that shows it | evidently intended | confidence | as-written member | corrected member |
|---|---|---|---|---|---|---|
| frontend/src/pages/StrategyDetailsPage.jsx:100-103 vs frontend/src/pages/PivotPage.jsx:131-141 | "potential-N" is resolved as `pivot_options[N]` in the full option list, while the pivot page numbers its potential cards after removing the options that are already active. No shipped screen opens the details page by a card id yet (nothing sets `selectedStrategyId`, and the board edits a card in a modal), so this is a latent inconsistency between the two numbering schemes | options ["A", "B"] with an active pivot named "A": the board numbers the card titled B as potential-0, and the details page resolves potential-0 to A; it surfaces as soon as a card opens the details page by its id | the details page resolves potential-N to the N-th option that is not yet active, so every card opens itself | not executed | StrategyDetails.PotentialIdMismatch (on StrategyDetails.ResolveStrategy) | StrategyDetails.ResolveStrategyConsistent, proved by StrategyDetails.CardsResolveToThemselves |
