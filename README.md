# ai-agent-eval: admission and aggregation engine in Dafny

This project models the logic of an evaluation service for AI agents.

- **Ingest.** An evaluation (interaction id, prompt, response, score, latency, flags, redacted-token count) is posted to an ingest endpoint.
- **Admission.** An admission pipeline decides whether the evaluation is stored:
  1. validation;
  2. a settings read that fails closed;
  3. a sampling check;
  4. a daily quota;
  5. the insert with defaults.
- **Reading back.** Stored evaluations are read back as:
  - a paged, searchable, flag-filtered list;
  - single records;
  - server-side KPIs and per-day trends over 7 and 30 days;
  - a flag-frequency distribution.
- **Dashboard.** The dashboard page computes its own dense day grids, KPIs and search filter on the client.

Modules, one per source file, plus a module of shared definitions:

| module | file | models |
|---|---|---|
| `Common` | common.dfy | Timestamps and day numbers, `Math.round`, sums and means, ASCII lower-casing and substring search, ordered de-duplication, and the stable sort used for every `ORDER BY` and `Array.sort`. |
| `Schema` | schema.dfy | `shared/schema.ts`: the table rows, the column defaults, and the two insert schemas as parsers over a small JSON value type. |
| `Aggregation` | aggregation.dfy | The pure and loop parts of `server/storage.ts` statistics: windows, KPIs, the `Map`-filling loops of `getTrend`, the trends, and the flag tally and distribution. |
| `Storage` | storage.dfy | `server/storage.ts`: the paged query of `getEvals`, the lookups, and the `Store` class whose methods insert and update rows. |
| `IngestRoute` | ingest.dfy | `app/api/evals/ingest/route.ts`: the admission decision as a function (`Admit`), and `Post`, which runs it against a `Store`. |
| `Routes` | routes.dfy | `server/routes.ts`: `requireAuth`, the settings lifecycle, signup, the Express ingest, pagination, lookup of one evaluation, and the statistics routes. |
| `Dashboard` | dashboard.dfy | `app/dashboard/page.tsx`: the 7- and 30-slot grids as arrays filled and averaged in place, the page's KPIs, and `filteredEvals`. |

Conventions:

- **Time.** Times are integers in milliseconds. A day number is `t / 86_400_000`.
  - The route's "today" starts at the start of the current day number.
  - Server trend keys are day numbers.
  - Dashboard grid keys are day numbers.
- **Inputs become parameters.**
  - The random draw `Math.random() * 100` is a `real` parameter.
  - The clock is a `now` parameter.
  - Database failures are parameters: `settingsFault`, `countFault`, `insertFault`, `fault`, `queryFault`.
- **Ids.** Row ids are drawn from a counter, where the tables use random UUIDs.
- **Order.** Tables are sequences in insertion order.
  - `ORDER BY created_at DESC` is modelled as a stable sort of that order. PostgreSQL leaves rows with equal `created_at` in no defined order; the model fixes them in table order (see `Storage.Ordered` under "## Left out").
  - JavaScript's `Array.sort` is stable, so it is modelled as a stable sort.
  - A JavaScript `Map` iterates in insertion order, so it is modelled as a list of keys in first-seen order plus a `map`.

Where the model follows the code rather than the documented intent:

- The Next.js route rejects only a missing or zero `latency_ms`. A negative latency is accepted and stored.
- The server's `avgLatency` is an unrounded mean. Only the dashboard rounds.
- The Express ingest (`/api/evals/ingest` in `server/routes.ts`) checks no score range, no sampling and no quota.
- The Express ingest requires `createdAt`. The Next.js route defaults it to now.
- The schema comments document `runPolicy` as `always` or `sampled`, `sampleRatePct` as 0 to 100 and `score` as 0 to 1. No column or insert schema enforces these ranges (`Schema.RangesNotEnforced`).
- The dashboard's age check counts whole 24-hour periods, and the grid counts calendar days. An evaluation less than 7 × 24 hours old from the day before the grid's first day is dropped (`Dashboard.RecentButOffGrid`).
- The daily quota is checked as `count && count >= max`. A count of 0 never hits the quota, so a cap of 0 still admits the first evaluation of each day (`IngestRoute.QuotaExact`).

## Model

| member | source | states |
|---|---|---|
| Common.StartOfDay | app/api/evals/ingest/route.ts:73-74 | Today's midnight is at or before now, and less than one day before it. |
| Common.DaysAgo | app/dashboard/page.tsx:99-100 | The whole days elapsed: `d` days fit in `now - t` and `d + 1` do not. This is floor division, also for future timestamps. |
| Common.Round | app/dashboard/page.tsx:125 | `Math.round`: the result lies within half a unit of the argument, and halves round up. |
| Common.Mean | server/storage.ts:146-147 | The mean is 0 for no values; otherwise the mean times the count is the sum. |
| Common.MeanBounds | server/storage.ts:146 | A mean of values that all lie in `[lo, hi]` lies in `[lo, hi]`. |
| Common.Fraction | server/storage.ts:148-149 | A count divided by a total: in `[0, 1]`, times the total gives the count, and 0 for an empty total. |
| Common.ContainsAt | server/storage.ts:91 | `includes`/`ILIKE '%t%'` holds exactly when the term occurs at some position of the text. |
| Common.ContainsEmpty | app/dashboard/page.tsx:163-168 | Every string contains the empty string. |
| Common.Distinct | server/storage.ts:236-244 | A `Map`'s keys: no duplicates, exactly the members of the input, and no more of them than the input has. |
| Common.SortBy | server/storage.ts:101 | The stable sort: sorted by the key, a permutation of the input, and unchanged relative order among equal keys. |
| Common.InsertBySorted | server/storage.ts:169 | Inserting into a sorted list keeps it sorted (the step of the sort behind every trend and order-by). |
| Common.InsertByStable | server/storage.ts:245 | Inserting keeps the relative order of elements with the same key (the stability that keeps first-seen order among tied flag counts). |
| Schema.ParseSettings | shared/schema.ts:45-50 | `insertEvalSettingsSchema`: accepted exactly when every present key has its column's type; each given value is kept, and a column is left out exactly when its key is absent. |
| Schema.InsertedPolicy | shared/schema.ts:18-21 | An insert: each column is the given value when the body provides it and otherwise its column default (`always`, 100, `false`, 10000), whichever other columns are given; an empty body gives exactly the default policy. |
| Schema.UpdatedPolicy | server/storage.ts:77-83 | An update changes exactly the columns the body provides; an empty body changes nothing. |
| Schema.ParseEval | shared/schema.ts:52-57 | `insertEvalSchema`: accepted exactly when the text, number and optional columns have their types and `createdAt` is a string. It copies every value: `flags` and `piiTokensRedacted` are kept when given and left out exactly when absent, and inputs with no fractional part are taken as numbers. |
| Schema.InsertedEval | shared/schema.ts:35-37 | The row columns of a parsed body: `flags` defaults to `[]`, `piiTokensRedacted` to 0, and a `createdAt` that JavaScript cannot read yields no row. |
| Schema.EvalColumnDefaults | shared/schema.ts:35-37 | On the schema path, a body without `flags` is stored with `[]` and one without `piiTokensRedacted` with 0; given values are stored as given. |
| Schema.CreatedAtRequired | shared/schema.ts:56 | A body without `createdAt` is refused by the schema. |
| Schema.RangesNotEnforced | shared/schema.ts:18-19 | An unknown run policy, a sample rate of 250, a score of 5 and a negative latency all pass the schemas. |
| Aggregation.Window | server/storage.ts:131-133 | The window query holds exactly this user's evaluations created at or after the bound, each as often as the table holds it, sorted newest first. |
| Aggregation.OwnedSinceCounts | server/storage.ts:131-132 | The `WHERE` of the window keeps each matching row as often as the table holds it, no other row, and table order. |
| Aggregation.NarrowerWindowContained | server/storage.ts:188-200 | A later bound selects a subset of an earlier bound's window. |
| Aggregation.ServerKpis | server/storage.ts:135-149 | What it returns in each case: <ul><li>All four KPIs are 0 on an empty window.</li><li>Otherwise `avgScore` and `avgLatency` are sums divided by the count, `redactionRate` is the fraction with `piiTokensRedacted > 0`, and `successRate` is the fraction with `score >= 0.7`.</li><li>Both rates lie in `[0, 1]`, and so does `avgScore` when every score lies in `[0, 1]`.</li></ul> |
| Aggregation.GroupByDay | server/storage.ts:151-162 | The `forEach` loop that fills both `Map`s: <ul><li>The keys are the distinct day keys in order of first occurrence.</li><li>Both maps have exactly those keys.</li><li>Each entry is the day's scores, or the day's latencies, in order.</li></ul> |
| Aggregation.DayPoints | server/storage.ts:164-168 | The `map` step: one point per distinct day key, in first-seen order, holding the mean of that day's values. |
| Aggregation.GetTrend | server/storage.ts:202-231 | `getTrend` computes exactly the sparse score and latency trends (`Trend`) of its input. |
| Aggregation.TrendLength | server/storage.ts:164-176 | A trend has exactly one point per distinct day key. |
| Aggregation.TrendAscending | server/storage.ts:169 | A trend's dates are strictly ascending. |
| Aggregation.TrendMembers | server/storage.ts:164-176 | A point is in the trend exactly when its date is a day with evaluations and its value is that day's mean. |
| Aggregation.TrendsShareDates | server/storage.ts:156-159 | The score trend and the latency trend list the same dates. |
| Aggregation.DayCountsSum | server/storage.ts:154-162 | The per-day counts over the day keys add up to the number of evaluations. |
| Aggregation.TallyFlags | server/storage.ts:238-240 | The inner loop adds one evaluation's flags to a correct tally and leaves a correct tally: the names in first-seen order, and each name's occurrence count. |
| Aggregation.CountFlags | server/storage.ts:236-241 | `flagsMap`: its keys are the distinct flags in first-seen order, and each count is the number of occurrences across all evaluations (repeats within one evaluation included). |
| Aggregation.GetFlagDistribution | server/storage.ts:236-245 | Computes exactly `FlagDistribution`: the counted entries, stably sorted by descending count. |
| Aggregation.FlagMembers | server/storage.ts:243-244 | An entry is in the distribution exactly when its name is some flag and its count is that flag's number of occurrences. |
| Aggregation.FlagNamesDistinct | server/storage.ts:236-245 | No flag is listed twice. |
| Aggregation.FlagCountsDescending | server/storage.ts:245 | Counts never increase along the list, and flags with equal counts keep their first-seen order over the window's rows. |
| Storage.Select | server/storage.ts:88-100 | The `WHERE` clause: the rows kept are exactly this user's rows that match the search and the flag, and there are no more of them than rows. |
| Storage.SelectCounts | server/storage.ts:88-100 | The `WHERE` clause keeps each matching row as often as the table holds it, drops every other row, and keeps table order. |
| Storage.Ordered | server/storage.ts:101 | The matching rows, sorted newest first. |
| Storage.OrderedPermutes | server/storage.ts:101 | `ORDER BY created_at DESC` is a permutation of the matching rows; under the model's tie convention, rows created at the same instant keep their table order. |
| Storage.Page | server/storage.ts:102-103 | `LIMIT`/`OFFSET`: the length is `min(limit, n - offset)` (0 past the end), and the i-th element is the element at `offset + i`. |
| Storage.QueryEvals | server/storage.ts:85-106 | `getEvals` with its defaults 20 and 0: <ul><li>It fails exactly for a negative limit or offset.</li><li>Otherwise it returns only matching rows of this user, newest first, at most `limit` of them.</li><li>It skips exactly `offset` of the ordered matches.</li></ul> |
| Storage.FirstPageBefore | server/storage.ts:101-102 | With `LIMIT` from offset 0 on a sorted list, no row on the page has a larger key than a row left out. |
| Storage.OrderedIgnoresPaging | server/storage.ts:88-101 | The matches and their order depend on the search and the flag only, not on limit or offset. |
| Storage.QueryComplete | server/storage.ts:85-106 | A first page at least as long as the table returns every matching row. |
| Storage.PagesConcatenate | server/storage.ts:102-103 | Two consecutive pages together are one page of their combined size. |
| Storage.SearchIgnoresCase | server/storage.ts:91 | Lower-casing the search term changes no result (the `ILIKE` is case-insensitive). |
| Storage.AnyFlagIsNoFilter | server/storage.ts:94 | The flag `all` gives the same result as no flag. |
| Storage.EvalById | server/storage.ts:113-118 | `getEvalById` returns a row only when both the id and the user match, and returns none exactly when no row matches both. |
| Storage.FirstSettings | server/storage.ts:67-70 | `getSettings` returns a settings row of this user, and returns none exactly when the user has no settings row. |
| Storage.UserWithEmail | server/storage.ts:43-46 | `getUserByEmail` returns a user with this e-mail, and returns none exactly when no such user exists. |
| Storage.UpdateWhere | server/storage.ts:78-81 | The `UPDATE … WHERE user_id`: the same number of rows, this user's rows updated, and every other row unchanged. |
| Storage.UpdateWhereScope | server/storage.ts:77-83 | An update keeps every row's id, owner and creation time, sets this user's `updatedAt` to now, and leaves other users' rows equal; the user has a row after exactly when before. |
| Storage.EmptyPatchTouchesOnly | server/storage.ts:79 | An update with no columns changes no policy. |
| Storage.EmptyWindowStats | server/storage.ts:135-144 | The general computation on an empty window gives the same zeros and empty trends as the early return. |
| Storage.Store.constructor | shared/schema.ts:7-38 | An empty store is valid and holds one settings row per user. |
| Storage.Store.CreateUser | server/storage.ts:48-55 | Succeeds exactly when the e-mail is new, appending a user with a fresh id; otherwise nothing changes. |
| Storage.Store.CreateSettings | server/storage.ts:72-75 | Succeeds exactly when the user exists (`user_id` is a foreign key), appending the row with a fresh id; validity is kept. |
| Storage.Store.UpdateSettings | server/storage.ts:77-83 | The table becomes `UpdateWhere` of the old table, and the result is the user's first updated row. The result is none exactly when the user had no row. One row per user holds after exactly when it held before. |
| Storage.Store.CreateEval | server/storage.ts:108-111 | Succeeds exactly when there is no database fault and the user exists, appending the row with a fresh id; otherwise nothing changes. |
| Storage.Store.GetDashboardStats | server/storage.ts:120-179 | The KPIs and both trends of the user's last-30-day window; `NoStats` when that window is empty. |
| Storage.Store.GetAnalytics | server/storage.ts:181-254 | The score and latency trends of the 7-day and 30-day windows, and the flag distribution of the 30-day window. |
| Storage.AnalyticsWindowsNested | server/storage.ts:188-200 | Every evaluation of the 7-day window is in the 30-day window. |
| IngestRoute.Inserted | app/api/evals/ingest/route.ts:93-103 | The five required fields are copied unchanged; `flags` defaults to `[]`, `pii_tokens_redacted` to 0 and `created_at` to the given instant. |
| IngestRoute.Admit | app/api/evals/ingest/route.ts:25-110 | Each outcome holds exactly under its condition, in the route's order: <ul><li>401 without a user.</li><li>400 for a missing field or a score outside `[0, 1]`.</li><li>500 for a settings error other than `PGRST116`.</li><li>202 when the policy is `sampled` and the draw exceeds the rate.</li><li>500 when the count query fails, and 429 at the quota (both only with a settings row).</li><li>Otherwise either 201 with the inserted row or a save failure.</li></ul> |
| IngestRoute.ScoreBoundsInclusive | app/api/evals/ingest/route.ts:47-49 | Scores of exactly 0 and 1 pass the range check. |
| IngestRoute.ZeroLatencyIsMissing | app/api/evals/ingest/route.ts:33-44 | A latency of 0 counts as a missing field (400), whatever follows. |
| IngestRoute.ValidationPrecedesReads | app/api/evals/ingest/route.ts:25-49 | A payload that fails validation gets the same answer whatever the settings, the draw, the count and the insert would have been: nothing is read or inserted. |
| IngestRoute.NoSettingsSkipsChecks | app/api/evals/ingest/route.ts:64-90 | Without a settings row, the draw and the count are never consulted, and the outcome is never sampled-out, count-failed or limit-reached. |
| IngestRoute.SampledOutBeforeCount | app/api/evals/ingest/route.ts:64-69 | A sampled-out outcome does not depend on the count or the insert. |
| IngestRoute.FullRateNeverSamples | app/api/evals/ingest/route.ts:65-66 | At a sample rate of 100, a draw in `[0, 100)` is never sampled out. |
| IngestRoute.QuotaExact | app/api/evals/ingest/route.ts:87 | A count of 0 never hits the quota; any other count hits it exactly when it reaches the cap. |
| IngestRoute.OnlyCreatedIs201 | app/api/evals/ingest/route.ts:105-110 | The status is 201 exactly for the created outcome. |
| IngestRoute.SingleSettings | app/api/evals/ingest/route.ts:52-56 | `.single()` on the user's settings rows: with exactly one row it returns that row's policy and no error; with none or several it returns no data and the error code `PGRST116`. |
| IngestRoute.NoSettingsRowInserts | app/api/evals/ingest/route.ts:52-110 | A user without a settings row, with no database fault, gets a valid payload with a readable date inserted, whatever the draw and the count. |
| IngestRoute.Post | app/api/evals/ingest/route.ts:15-110 | The answer is `Admit` applied to the answers the store gives: <ul><li>the settings row (or fault);</li><li>the count of the user's evaluations since midnight (or fault);</li><li>the insert.</li></ul> A row is appended exactly on 201, and users and settings never change. A known user without a settings row and with no fault gets a valid payload inserted. |
| Routes.RequireAuth | server/routes.ts:15-20 | The handler runs exactly when the session has a user, and runs with that user; otherwise the answer is 401. |
| Routes.GetSettings | server/routes.ts:87-106 | What it does in each case: <ul><li>401 without a session.</li><li>An existing row is returned with nothing written.</li><li>A user without a row gets exactly one new row holding the default policy.</li><li>A session user with no `users` row gets 500 and nothing is written.</li><li>After a 200 the user has a row, so a repeated call writes nothing.</li><li>One row per user is kept.</li></ul> |
| Routes.PutSettings | server/routes.ts:108-131 | What it does in each case: <ul><li>401 without a session.</li><li>400 with nothing written when the schema refuses the body.</li><li>Otherwise the existing row is updated with exactly the given columns, or a row is created with the defaults for the rest.</li><li>A session user with no `users` row gets 500 and nothing is written.</li><li>One row per user is kept.</li></ul> |
| Routes.Signup | server/routes.ts:24-54 | What it does in each case: <ul><li>400 with nothing created for a missing or empty e-mail or password, or an e-mail already registered.</li><li>Otherwise 200 exactly: the user and their default settings row are appended and the session is set to the new user.</li></ul> |
| Routes.Ingest | server/routes.ts:134-158 | What it does in each case: <ul><li>401 without an `x-user-id` header and without a session; the header wins when both are present.</li><li>400 with nothing written when the schema refuses the body.</li><li>Otherwise 200 exactly when the date is readable, the user exists and there is no database fault. The row is inserted as parsed, with no sampling and no quota.</li></ul> |
| Routes.IntOr | server/routes.ts:163-164 | `parseInt(x) \|\| d`: an unparseable value or 0 falls back to the default, and any other value is kept. |
| Routes.PageQuery | server/routes.ts:163-173 | `limit = pageSize` and `offset = (page - 1) * pageSize` after the defaults 1 and 20; search and flag are passed through. |
| Routes.ListEvals | server/routes.ts:161-180 | 401 without a session. Otherwise 200 with exactly the query's page, or 500 exactly when the database refuses the query. |
| Routes.ListDefaults | server/routes.ts:163-164 | Without `page` and `pageSize` the query is limit 20, offset 0, and the answer is 200 with at most 20 rows. |
| Routes.PageListing | server/routes.ts:168-173 | Page `k` is the `size` matching rows after the first `(k - 1) * size`, newest first. |
| Routes.ConsecutivePages | server/routes.ts:168-173 | Pages `k` and `k + 1` together are the matching rows from position `(k - 1) * size` on, in the model's order: none is skipped or repeated, given that ties keep one fixed order across queries. |
| Routes.QueriesJoin | server/storage.ts:102-103 | Two queries of one size at consecutive offsets together return the ordered matches of one query of twice the size, in the model's order. |
| Routes.NegativePageFails | server/routes.ts:163-179 | A negative page gives a negative offset, which the database refuses: 500. |
| Routes.GetEval | server/routes.ts:182-195 | 401 without a session; 404 exactly when no row has this id and belongs to the user; 200 carries such a row. |
| Routes.DashboardStatsRoute | server/routes.ts:198-206 | 401 without a session; otherwise 200 with the KPIs and trends of the user's 30-day window. |
| Routes.AnalyticsRoute | server/routes.ts:208-216 | 401 without a session; otherwise 200 with the trends of both windows and the 30-day flag distribution. |
| Dashboard.Fetched | app/dashboard/page.tsx:60-65 | At most 100 of the user's evaluations, newest first: exactly the first 100 of the user's rows in `created_at DESC` order. |
| Dashboard.FetchedNewest | app/dashboard/page.tsx:60-65 | These are the newest: no evaluation of the user that is left out is newer than one on the page, and none is left out when the user has at most 100. |
| Dashboard.BuildGrid | app/dashboard/page.tsx:84-95 | A grid of exactly `n` empty slots whose keys run from `n - 1` days ago to today, oldest first. The keys are pairwise distinct and depend only on `now`. |
| Dashboard.FindSlot | app/dashboard/page.tsx:104 | The lookup `trend[date]`: it returns an index of a slot with this key, or -1 exactly when no slot has it. |
| Dashboard.AddToGrid | app/dashboard/page.tsx:102-117 | Each slot afterwards is the slot with this evaluation added when it qualifies for that slot, and unchanged otherwise, so at most one slot changes. |
| Dashboard.Accumulate | app/dashboard/page.tsx:98-119 | After the `forEach`, every slot of both grids has accumulated exactly the evaluations that qualify for it, in order. |
| Dashboard.AverageGrid | app/dashboard/page.tsx:122-134 | In place on each slot: the sums become means (latency rounded), and an empty slot is unchanged. |
| Dashboard.FetchTrends | app/dashboard/page.tsx:84-137 | Exactly 7 and 30 points; point `j` is the averaged accumulation of the evaluations of day `today - (n - 1) + j`. |
| Dashboard.FetchData | app/dashboard/page.tsx:50-137 | What it leaves on the page in each case: <ul><li>No user: a redirect to login.</li><li>A failed query: an error, with no evaluations and no series.</li><li>Otherwise: the newest 100 evaluations and their two series.</li></ul> |
| Dashboard.Qualifying | app/dashboard/page.tsx:100-104 | The evaluations that count towards a slot: exactly those less than `w` whole days old that fall on the slot's day. |
| Dashboard.QualifyingCounts | app/dashboard/page.tsx:98-104 | A slot counts each qualifying evaluation as often as the list holds it, no other, in list order. |
| Dashboard.AccumulatedTotals | app/dashboard/page.tsx:98-119 | Accumulating into an empty slot sums the scores and the latencies of the qualifying evaluations and counts them. |
| Dashboard.SlotMeans | app/dashboard/page.tsx:122-134 | An averaged slot holds the mean score and the rounded mean latency of its qualifying evaluations, and the count; a slot nothing qualified for stays 0. |
| Dashboard.RecordInOneSlot | app/dashboard/page.tsx:100-117 | In a grid as long as its age limit, an evaluation counts towards a slot exactly when it falls on that slot's day: the age check adds nothing to the key lookup, and at most one slot is hit. |
| Dashboard.RecentButOffGrid | app/dashboard/page.tsx:100-104 | An evaluation 6 whole days old can fall on the day before the 7-day grid starts, and is then counted in no slot. |
| Dashboard.PageKpis | app/dashboard/page.tsx:155-161 | What each KPI is: <ul><li>All four are 0 without evaluations.</li><li>The average score is the server's mean times 100, and the latency is the server's mean rounded.</li><li>The redaction rate is the redacted tokens per evaluation times 100.</li><li>The success rate is the fraction of scores of at least 0.8, times 100, so it lies in `[0, 100]`.</li><li>The score lies in `[0, 100]` when scores lie in `[0, 1]`.</li></ul> |
| Dashboard.RedactionRatesAgreeOnUnitCounts | app/dashboard/page.tsx:158-159 | When every evaluation redacts at most one token, the page's redaction rate equals 100 times the server's. |
| Dashboard.RedactionRatesDiffer | app/dashboard/page.tsx:158-159 | One evaluation with three redacted tokens shows 300% on the page and 1.0 on the server. |
| Dashboard.ClientSuccessStricter | app/dashboard/page.tsx:160-161 | The page's success rate (threshold 0.8) never exceeds 100 times the server's (threshold 0.7). |
| Dashboard.FilterEvals | app/dashboard/page.tsx:163-168 | An evaluation is kept exactly when the lower-cased term occurs in its lower-cased interaction id, prompt or some flag; the result is an order-preserving subsequence. |
| Dashboard.EmptyTermKeepsAll | app/dashboard/page.tsx:163-168 | An empty search term keeps every evaluation, in order. |

## Left out

- Rendering, the settings pages and the seed scripts: no decision logic.
- Login, logout and password hashing (`verifyPassword`, bcrypt, express-session): the session is a parameter, an optional user id.
- The error messages of the dashboard's failed query: the page state only records that an error is shown.
- `toFixed` formatting of the KPIs: float-to-string work. The KPIs are kept as reals.
- IEEE floating point: scores, means and rates are exact reals, and `Math.round` is exact rounding with halves up.
- Local time:
  - The route's local midnight, local `MMM dd` grid keys and daylight saving time all use UTC day numbers.
  - Two dates a year apart share a `MMM dd` key, so a row dated a year in the future could land in the page's grid. The model keys by day number and does not reproduce this.
- `setDate(getDate() - 30)` is exactly 30 times 24 hours: the model does not capture calendar-month or daylight-saving effects.
- Text search:
  - `ILIKE` wildcards inside the search term (`%`, `_`) are not modelled.
  - Case folding is ASCII only, where JavaScript and PostgreSQL fold Unicode.
- Concurrency: the race between the quota count and the insert in `app/api/evals/ingest/route.ts` is not modelled; the model is sequential.
- The Next.js payload is typed as the interface says:
  - a present field has its declared type;
  - values of other JSON types (a string score, a null latency) and unparseable bodies, which reach the route's catch-all 500, are not modelled.
- IngestRoute.Post: a database insert error is a single flag, and the stored row's id comes from the store's counter rather than a UUID.
- Routes.Ingest: the `x-user-id` header is modelled as a present or absent user id. An empty header string, which falls back to the session, is the absent case. Ids are counter values (`nat`), so a non-empty header that is not a UUID cannot be expressed; in the source PostgreSQL rejects it at the insert and the handler answers 500.
- Routes: database failures of the Express handlers beyond the foreign-key and unique-e-mail checks (for example, a failing `getSettings` read) are not modelled.
- Storage.Ordered: PostgreSQL leaves rows with equal `created_at` in no defined order, and may order them differently from one query to the next; the model fixes them in table order. These facts hold only under that convention:
  - the tie clause of `Storage.OrderedPermutes`;
  - `Routes.ConsecutivePages` and `Routes.QueriesJoin`: real pages can skip or repeat tied rows that straddle a page boundary;
  - which of several rows tied at the 100th place `Dashboard.Fetched` keeps;
  - the first-seen order among flags with equal counts in `Aggregation.FlagCountsDescending`, which follows the window's row order.
- Integer columns: `sample_rate_pct`, `max_eval_per_day`, `latency_ms` and `pii_tokens_redacted` are 32-bit PostgreSQL `integer` columns, and the model's integers are unbounded.
  - A value above 2147483647 is accepted by the model; in the source the schema or the database refuses it, with 400 or 500 depending on the schema library's version.
  - The model refuses a fractional number for these columns with 400; in the source that answer also depends on the schema library's version.
  - A fractional `latency_ms` on the Next.js route cannot be expressed (the payload holds an integer); in the source it fails at the insert with 500.
- Routes.GetEval: ids are counter values (`nat`), so an id that is not a UUID cannot be expressed; in the source PostgreSQL rejects such an id and the route answers 500.
- Storage.Store: `.returning()` row shapes (timestamps generated by `defaultNow()`) are taken from the `now` parameter.
