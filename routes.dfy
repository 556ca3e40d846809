/** The HTTP handlers of the Express server: the session guard, the settings
    lifecycle (default at signup, get-or-create, create-or-update), the ingest
    endpoint without sampling or quota, the paged evaluation list, the lookup of
    one evaluation, and the two statistics endpoints. */
module Routes {
  import opened Common
  import opened Schema
  import opened Aggregation
  import opened Storage

  datatype Body =
    | Text(message: string)
    | SchemaErrors(message: string)
    | SettingsJson(settings: SettingsRow)
    | UserJson(id: Id, email: string)
    | EvalJson(record: EvalRow)
    | EvalsJson(rows: seq<EvalRow>)
    | StatsJson(stats: DashboardStats)
    | AnalyticsJson(analytics: Analytics)

  datatype Response = Response(status: int, body: Body)

  const Unauthorized: Response := Response(401, Text("Unauthorized"))

  /** `requireAuth`: the handler runs only for a session with a user. */
  function RequireAuth(session: Option<Id>): (r: Result<Id, Response>)
    ensures r.Ok? <==> session.Some?
    ensures r.Ok? ==> r.value == session.value
    ensures r.Err? ==> r.error.status == 401
  {
    if session.None? then Err(Unauthorized) else Ok(session.value)
  }

  // ---------------------------------------------------------------------------
  // Settings.

  /** GET `/api/settings`: the user's settings, created with the column
      defaults when there are none. */
  method GetSettings(st: Store, session: Option<Id>, now: Timestamp) returns (resp: Response)
    requires st.Valid()
    modifies st
    ensures st.Valid()
    ensures st.users == old(st.users) && st.evals == old(st.evals)
    ensures session.None? ==> resp == Unauthorized && st.settings == old(st.settings)
    ensures session.Some? && FirstSettings(old(st.settings), session.value).Some? ==>
              st.settings == old(st.settings)
              && resp == Response(200, SettingsJson(FirstSettings(old(st.settings), session.value).value))
    ensures session.Some? && FirstSettings(old(st.settings), session.value).None? && session.value in old(st.UserIds()) ==>
              var row := SettingsRow(old(st.nextId), session.value, DefaultPolicy, now, now);
              st.settings == old(st.settings) + [row] && resp == Response(200, SettingsJson(row))
    ensures session.Some? && session.value !in old(st.UserIds()) ==> resp.status == 500 && st.settings == old(st.settings)
    ensures resp.status == 200 ==> session.Some? && FirstSettings(st.settings, session.value).Some?
    ensures old(st.OneSettingsPerUser()) ==> st.OneSettingsPerUser()
  {
    var auth := RequireAuth(session);
    if auth.Err? {
      return auth.error;
    }
    var userId := auth.value;
    var settings := FirstSettings(st.settings, userId);
    if settings.None? {
      var created := st.CreateSettings(userId, DefaultPolicy, now);
      if created.Err? {
        return Response(500, Text(created.error));
      }
      settings := Some(created.value);
      assert created.value in st.settings;
    }
    resp := Response(200, SettingsJson(settings.value));
  }

  /** PUT `/api/settings`: a body the schema refuses is answered with 400 and
      nothing written; otherwise the settings are created (columns left out take
      their defaults) or updated (columns left out keep their values). */
  method PutSettings(st: Store, session: Option<Id>, body: SettingsBody, now: Timestamp) returns (resp: Response)
    requires st.Valid()
    modifies st
    ensures st.Valid()
    ensures st.users == old(st.users) && st.evals == old(st.evals)
    ensures session.None? ==> resp == Unauthorized && st.settings == old(st.settings)
    ensures session.Some? && ParseSettings(body).Err? ==> resp.status == 400 && st.settings == old(st.settings)
    ensures session.Some? && ParseSettings(body).Ok? && FirstSettings(old(st.settings), session.value).Some? ==>
              st.settings == UpdateWhere(old(st.settings), session.value, ParseSettings(body).value, now)
              && resp == Response(200, SettingsJson(FirstSettings(st.settings, session.value).value))
    ensures session.Some? && ParseSettings(body).Ok? && FirstSettings(old(st.settings), session.value).None?
            && session.value in old(st.UserIds()) ==>
              var row := SettingsRow(old(st.nextId), session.value, InsertedPolicy(ParseSettings(body).value), now, now);
              st.settings == old(st.settings) + [row] && resp == Response(200, SettingsJson(row))
    ensures session.Some? && ParseSettings(body).Ok? && session.value !in old(st.UserIds()) ==>
              resp.status == 500 && st.settings == old(st.settings)
    ensures old(st.OneSettingsPerUser()) ==> st.OneSettingsPerUser()
  {
    var auth := RequireAuth(session);
    if auth.Err? {
      return auth.error;
    }
    var userId := auth.value;
    var data := ParseSettings(body);
    if data.Err? {
      return Response(400, SchemaErrors(data.error));
    }
    var settings := FirstSettings(st.settings, userId);
    if settings.None? {
      var created := st.CreateSettings(userId, InsertedPolicy(data.value), now);
      if created.Err? {
        return Response(500, Text(created.error));
      }
      resp := Response(200, SettingsJson(created.value));
    } else {
      var updated := st.UpdateSettings(userId, data.value, now);
      resp := Response(200, SettingsJson(updated.value));
    }
  }

  /** POST `/api/auth/signup`: refuses a missing or empty e-mail or password and
      an e-mail already registered; otherwise creates the user with the default
      settings and signs the user in. */
  method Signup(st: Store, email: Option<string>, password: Option<string>, now: Timestamp)
    returns (resp: Response, session: Option<Id>)
    requires st.Valid()
    modifies st
    ensures st.Valid()
    ensures st.evals == old(st.evals)
    ensures (email.None? || email == Some("") || password.None? || password == Some("")) ==>
              resp.status == 400 && session.None? && st.users == old(st.users) && st.settings == old(st.settings)
    ensures email.Some? && UserWithEmail(old(st.users), email.value).Some? ==>
              resp.status == 400 && session.None? && st.users == old(st.users) && st.settings == old(st.settings)
    ensures resp.status == 200 <==>
              email.Some? && email.value != "" && password.Some? && password.value != ""
              && UserWithEmail(old(st.users), email.value).None?
    ensures resp.status == 200 ==>
              var id := old(st.nextId);
              st.users == old(st.users) + [User(id, email.value)]
              && st.settings == old(st.settings) + [SettingsRow(id + 1, id, DefaultPolicy, now, now)]
              && session == Some(id) && resp == Response(200, UserJson(id, email.value))
    ensures old(st.OneSettingsPerUser()) ==> st.OneSettingsPerUser()
  {
    session := None;
    if email.None? || email.value == "" || password.None? || password.value == "" {
      return Response(400, Text("Email and password required")), None;
    }
    if UserWithEmail(st.users, email.value).Some? {
      return Response(400, Text("User already exists")), None;
    }
    var user := st.CreateUser(email.value);
    var u := user.value;
    assert u.id in st.UserIds() by {
      assert st.users[|st.users| - 1] == u;
    }
    assert forall s :: s in st.settings ==> s.userId != u.id;
    var created := st.CreateSettings(u.id, DefaultPolicy, now);
    session := Some(u.id);
    resp := Response(200, UserJson(u.id, u.email));
  }

  // ---------------------------------------------------------------------------
  // Ingest.

  /** POST `/api/evals/ingest` of the Express server: the user comes from the
      `x-user-id` header, else from the session; the body must pass the insert
      schema; the row is inserted with no sampling and no quota. `fault` is a
      database error of the insert. */
  method Ingest(st: Store, header: Option<Id>, session: Option<Id>, body: EvalBody, fault: bool) returns (resp: Response)
    requires st.Valid()
    modifies st
    ensures st.Valid()
    ensures st.users == old(st.users) && st.settings == old(st.settings)
    ensures header.None? && session.None? ==> resp.status == 401 && st.evals == old(st.evals)
    ensures header.Some? || session.Some? ==>
              var userId := if header.Some? then header.value else session.value;
              && (ParseEval(body).Err? ==> resp.status == 400 && st.evals == old(st.evals))
              && (resp.status == 200 <==>
                    ParseEval(body).Ok? && InsertedEval(userId, ParseEval(body).value).Some?
                    && userId in old(st.UserIds()) && !fault)
              && (resp.status == 200 ==>
                    var row := Persisted(old(st.nextId), InsertedEval(userId, ParseEval(body).value).value);
                    st.evals == old(st.evals) + [row] && resp == Response(200, EvalJson(row)))
              && (resp.status != 200 ==> st.evals == old(st.evals))
  {
    var userId := if header.Some? then header else session;
    if userId.None? {
      return Response(401, Text("User ID required"));
    }
    var data := ParseEval(body);
    if data.Err? {
      return Response(400, SchemaErrors(data.error));
    }
    var e := InsertedEval(userId.value, data.value);
    if e.None? {
      return Response(500, Text("Invalid time value"));
    }
    var saved := st.CreateEval(e.value, fault);
    if saved.Err? {
      return Response(500, Text(saved.error));
    }
    resp := Response(200, EvalJson(saved.value));
  }

  // ---------------------------------------------------------------------------
  // Evaluations.

  const DefaultPage: int := 1
  const DefaultPageSize: int := 20

  /** `parseInt(x) || d`: an unparseable value (`None`, JavaScript's `NaN`) and 0
      both fall back to `d`. */
  function IntOr(parsed: Option<int>, d: int): (r: int)
    ensures parsed.None? || parsed == Some(0) ==> r == d
    ensures parsed.Some? && parsed.value != 0 ==> r == parsed.value
  {
    if parsed.None? || parsed.value == 0 then d else parsed.value
  }

  /** The query of GET `/api/evals`: page `page` of size `pageSize`. */
  function PageQuery(page: Option<int>, pageSize: Option<int>, search: Option<string>, flag: Option<string>): (q: EvalQuery)
    ensures q.limit == Some(IntOr(pageSize, DefaultPageSize))
    ensures q.offset == Some((IntOr(page, DefaultPage) - 1) * IntOr(pageSize, DefaultPageSize))
    ensures q.search == search && q.flag == flag
  {
    var p, size := IntOr(page, DefaultPage), IntOr(pageSize, DefaultPageSize);
    EvalQuery(Some(size), Some((p - 1) * size), search, flag)
  }

  /** GET `/api/evals`. */
  function ListEvals(rows: seq<EvalRow>, session: Option<Id>, page: Option<int>, pageSize: Option<int>,
                     search: Option<string>, flag: Option<string>): (resp: Response)
    ensures session.None? ==> resp.status == 401
    ensures session.Some? ==>
              var q := PageQuery(page, pageSize, search, flag);
              QueryEvals(rows, session.value, q).Ok? ==> resp == Response(200, EvalsJson(QueryEvals(rows, session.value, q).value))
    ensures session.Some? ==> (resp.status == 500 <==> QueryEvals(rows, session.value, PageQuery(page, pageSize, search, flag)).Err?)
  {
    var auth := RequireAuth(session);
    if auth.Err? then auth.error
    else
      var r := QueryEvals(rows, auth.value, PageQuery(page, pageSize, search, flag));
      if r.Err? then Response(500, Text(r.error)) else Response(200, EvalsJson(r.value))
  }

  /** Without `page` and `pageSize` the list is the newest 20 matching rows. */
  lemma ListDefaults(rows: seq<EvalRow>, userId: Id, search: Option<string>, flag: Option<string>)
    ensures var q := PageQuery(None, None, search, flag);
            q.limit == Some(20) && q.offset == Some(0)
            && ListEvals(rows, Some(userId), None, None, search, flag).status == 200
            && |ListEvals(rows, Some(userId), None, None, search, flag).body.rows| <= 20
  {
  }

  lemma NextPageStart(k: int, size: int, start: nat)
    requires start == (k - 1) * size
    ensures start + size == (k + 1 - 1) * size
  {
  }

  /** Page `k` of size `size` is the `size` matching rows after the first
      `start = (k - 1) * size`, newest first. */
  lemma PageListing(rows: seq<EvalRow>, userId: Id, k: int, size: int, start: nat, search: Option<string>, flag: Option<string>)
    requires k >= 1 && size >= 1 && start == (k - 1) * size
    ensures QueryEvals(rows, userId, PageQuery(Some(k), Some(size), search, flag))
            == Ok(Page(Ordered(rows, userId, EvalQuery(None, None, search, flag)), start, size))
  {
    var q := PageQuery(Some(k), Some(size), search, flag);
    assert q == EvalQuery(Some(size), Some(start), search, flag);
    OrderedIgnoresPaging(rows, userId, q, EvalQuery(None, None, search, flag));
    PageOfQuery(rows, userId, q);
  }

  /** Pages `k` and `k + 1` of one size hold, together, the matching rows from
      position `start = (k - 1) * size` on, with nothing skipped or repeated. */
  lemma ConsecutivePages(rows: seq<EvalRow>, userId: Id, k: int, size: int, start: nat, search: Option<string>, flag: Option<string>)
    requires k >= 1 && size >= 1 && start == (k - 1) * size
    ensures QueryEvals(rows, userId, PageQuery(Some(k), Some(size), search, flag)).Ok?
    ensures QueryEvals(rows, userId, PageQuery(Some(k + 1), Some(size), search, flag)).Ok?
    ensures QueryEvals(rows, userId, PageQuery(Some(k), Some(size), search, flag)).value
            + QueryEvals(rows, userId, PageQuery(Some(k + 1), Some(size), search, flag)).value
            == Page(Ordered(rows, userId, EvalQuery(None, None, search, flag)), start, 2 * size)
  {
    NextPageStart(k, size, start);
    assert PageQuery(Some(k), Some(size), search, flag) == EvalQuery(Some(size), Some(start), search, flag);
    assert PageQuery(Some(k + 1), Some(size), search, flag) == EvalQuery(Some(size), Some(start + size), search, flag);
    QueriesJoin(rows, userId, start, size, search, flag);
  }

  /** Two queries of one size at consecutive offsets join into one query of
      twice the size. */
  lemma QueriesJoin(rows: seq<EvalRow>, userId: Id, start: nat, size: nat, search: Option<string>, flag: Option<string>)
    ensures QueryEvals(rows, userId, EvalQuery(Some(size), Some(start), search, flag)).Ok?
    ensures QueryEvals(rows, userId, EvalQuery(Some(size), Some(start + size), search, flag)).Ok?
    ensures QueryEvals(rows, userId, EvalQuery(Some(size), Some(start), search, flag)).value
            + QueryEvals(rows, userId, EvalQuery(Some(size), Some(start + size), search, flag)).value
            == Page(Ordered(rows, userId, EvalQuery(None, None, search, flag)), start, 2 * size)
  {
    var q1, q2 := EvalQuery(Some(size), Some(start), search, flag), EvalQuery(Some(size), Some(start + size), search, flag);
    var none := EvalQuery(None, None, search, flag);
    var all := Ordered(rows, userId, none);
    OrderedIgnoresPaging(rows, userId, q1, none);
    OrderedIgnoresPaging(rows, userId, q2, none);
    PageOfQuery(rows, userId, q1);
    PageOfQuery(rows, userId, q2);
    PagesJoin(QueryEvals(rows, userId, q1), QueryEvals(rows, userId, q2), all, start, size);
  }

  lemma PagesJoin<T>(a: Result<seq<T>, string>, b: Result<seq<T>, string>, all: seq<T>, start: nat, size: nat)
    requires a == Ok(Page(all, start, size)) && b == Ok(Page(all, start + size, size))
    ensures a.value + b.value == Page(all, start, 2 * size)
  {
    PagesConcatenate(all, start, size, size);
    assert size + size == 2 * size;
  }

  /** An accepted query returns exactly its page of the ordered matches. */
  lemma PageOfQuery(rows: seq<EvalRow>, userId: Id, q: EvalQuery)
    requires q.limit.Some? && q.offset.Some? && q.limit.value >= 0 && q.offset.value >= 0
    ensures QueryEvals(rows, userId, q) == Ok(Page(Ordered(rows, userId, q), q.offset.value, q.limit.value))
  {
  }

  /** A negative page (or page size) reaches the database as a negative offset
      (or limit), which it refuses: the answer is 500. */
  lemma NegativePageFails(rows: seq<EvalRow>, userId: Id, page: int, search: Option<string>, flag: Option<string>)
    requires page < 0
    ensures ListEvals(rows, Some(userId), Some(page), None, search, flag).status == 500
  {
  }

  /** GET `/api/evals/:id`: 404 unless a row has this id and belongs to the user. */
  function GetEval(rows: seq<EvalRow>, session: Option<Id>, id: Id): (resp: Response)
    ensures session.None? ==> resp.status == 401
    ensures session.Some? ==>
              (resp.status == 404 <==> forall e :: e in rows ==> !(e.id == id && e.userId == session.value))
    ensures resp.status == 200 ==>
              resp.body.EvalJson? && resp.body.record in rows && resp.body.record.id == id && resp.body.record.userId == session.value
  {
    var auth := RequireAuth(session);
    if auth.Err? then auth.error
    else
      var e := EvalById(rows, id, auth.value);
      if e.None? then Response(404, Text("Evaluation not found")) else Response(200, EvalJson(e.value))
  }

  // ---------------------------------------------------------------------------
  // Statistics.

  /** GET `/api/stats/dashboard`. */
  method DashboardStatsRoute(st: Store, session: Option<Id>, now: Timestamp) returns (resp: Response)
    ensures session.None? ==> resp == Unauthorized
    ensures session.Some? ==>
              var w := Window(st.evals, session.value, ThirtyDaysAgo(now));
              resp == Response(200, StatsJson(DashboardStats(ServerKpis(w), Trend(w, ScoreMetric), Trend(w, LatencyMetric))))
  {
    var auth := RequireAuth(session);
    if auth.Err? {
      return auth.error;
    }
    var stats := st.GetDashboardStats(auth.value, now);
    resp := Response(200, StatsJson(stats));
  }

  /** GET `/api/analytics`. */
  method AnalyticsRoute(st: Store, session: Option<Id>, now: Timestamp) returns (resp: Response)
    ensures session.None? ==> resp == Unauthorized
    ensures session.Some? ==> resp.status == 200 && resp.body.AnalyticsJson?
    ensures session.Some? ==>
              var w7, w30 := Window(st.evals, session.value, SevenDaysAgo(now)), Window(st.evals, session.value, ThirtyDaysAgo(now));
              resp.body.analytics == Analytics(Trend(w7, ScoreMetric), Trend(w30, ScoreMetric),
                                               Trend(w7, LatencyMetric), Trend(w30, LatencyMetric), FlagDistribution(w30))
  {
    var auth := RequireAuth(session);
    if auth.Err? {
      return auth.error;
    }
    var analytics := st.GetAnalytics(auth.value, now);
    resp := Response(200, AnalyticsJson(analytics));
  }
}
