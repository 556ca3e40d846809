/** The storage layer (`DBStorage`): the three tables as sequences in insertion
    order, the lookups and inserts over them, the paged evaluation query, and the
    two statistics endpoints built on the aggregation engine. */
module Storage {
  import opened Common
  import opened Schema
  import opened Aggregation

  // ---------------------------------------------------------------------------
  // The evaluation query of `getEvals`.

  const DefaultLimit: int := 20
  const DefaultOffset: int := 0

  /** The flag filter value that means "any flag". */
  const AnyFlag: string := "all"

  /** The options of `getEvals`; every one may be left out. */
  datatype EvalQuery = EvalQuery(limit: Option<int>, offset: Option<int>, search: Option<string>, flag: Option<string>)

  /** The `ILIKE '%search%'` condition, added only for a non-empty term. */
  predicate SearchMatches(r: EvalRow, search: Option<string>)
  {
    search.None? || search.value == "" || Contains(Lower(r.interactionId), Lower(search.value))
  }

  /** The `flag = ANY(flags)` condition, added only for a non-empty flag other
      than `all`. */
  predicate FlagMatches(r: EvalRow, flag: Option<string>)
  {
    flag.None? || flag.value == "" || flag.value == AnyFlag || flag.value in r.flags
  }

  predicate Matches(r: EvalRow, userId: Id, q: EvalQuery)
  {
    r.userId == userId && SearchMatches(r, q.search) && FlagMatches(r, q.flag)
  }

  /** The rows satisfying every condition, in table order. */
  function Select(rows: seq<EvalRow>, userId: Id, q: EvalQuery): (s: seq<EvalRow>)
    ensures forall r :: r in s <==> r in rows && Matches(r, userId, q)
    ensures |s| <= |rows|
  {
    if rows == [] then []
    else
      var init := Select(rows[..|rows| - 1], userId, q);
      var r := rows[|rows| - 1];
      assert rows == rows[..|rows| - 1] + [r];
      if Matches(r, userId, q) then init + [r] else init
  }

  /** The `WHERE` clause keeps each matching row as often as the table holds
      it, drops every other row, and keeps table order. */
  lemma {:induction false} SelectCounts(rows: seq<EvalRow>, userId: Id, q: EvalQuery)
    ensures forall r :: multiset(Select(rows, userId, q))[r] == if Matches(r, userId, q) then multiset(rows)[r] else 0
    ensures IsSubsequence(Select(rows, userId, q), rows)
  {
    if rows != [] {
      var n := |rows| - 1;
      var r := rows[n];
      SelectCounts(rows[..n], userId, q);
      assert rows == rows[..n] + [r];
      SelectStep(Select(rows[..n], userId, q), rows[..n], r, Matches(r, userId, q));
    }
  }

  /** The matching rows, newest first (rows created at the same instant keep their
      table order). */
  function Ordered(rows: seq<EvalRow>, userId: Id, q: EvalQuery): (s: seq<EvalRow>)
    ensures forall r :: r in s <==> r in rows && Matches(r, userId, q)
    ensures SortedBy(s, NewestFirst)
  {
    var s := SortBy(Select(rows, userId, q), NewestFirst);
    assert forall r :: r in s <==> r in multiset(Select(rows, userId, q));
    s
  }

  /** The ordering is a permutation of the matching rows, and rows created at
      the same instant keep their table order. */
  lemma OrderedPermutes(rows: seq<EvalRow>, userId: Id, q: EvalQuery)
    ensures multiset(Ordered(rows, userId, q)) == multiset(Select(rows, userId, q))
    ensures forall key :: WithKey(Ordered(rows, userId, q), NewestFirst, key) == WithKey(Select(rows, userId, q), NewestFirst, key)
  {
  }

  function Min(a: int, b: int): int
  {
    if a <= b then a else b
  }

  /** `OFFSET offset LIMIT limit`: the `limit` elements after the first `offset`,
      or fewer at the end. */
  function Page<T>(s: seq<T>, offset: nat, limit: nat): (p: seq<T>)
    ensures |p| == if offset >= |s| then 0 else Min(limit, |s| - offset)
    ensures forall i :: 0 <= i < |p| ==> p[i] == s[offset + i]
  {
    if offset >= |s| then []
    else if limit >= |s| - offset then s[offset..]
    else s[offset..offset + limit]
  }

  lemma PageMembers<T>(s: seq<T>, offset: nat, limit: nat)
    ensures forall x :: x in Page(s, offset, limit) ==> x in s
  {
    var p := Page(s, offset, limit);
    forall x | x in p ensures x in s {
      var i :| 0 <= i < |p| && p[i] == x;
      assert s[offset + i] == x;
    }
  }

  lemma PageSorted<T>(s: seq<T>, offset: nat, limit: nat, key: T -> int)
    requires SortedBy(s, key)
    ensures SortedBy(Page(s, offset, limit), key)
  {
    var p := Page(s, offset, limit);
    forall i, j | 0 <= i < j < |p| ensures key(p[i]) <= key(p[j]) {
      assert p[i] == s[offset + i] && p[j] == s[offset + j];
    }
  }

  /** On a sorted sequence, a first page holds no element with a larger key
      than one it leaves out. */
  lemma FirstPageBefore<T>(s: seq<T>, limit: nat, key: T -> int, x: T, y: T)
    requires SortedBy(s, key) && x in s && x !in Page(s, 0, limit) && y in Page(s, 0, limit)
    ensures key(y) <= key(x)
  {
    var p := Page(s, 0, limit);
    assert s == p + s[|p|..];
    assert x in s[|p|..];
    var j :| 0 <= j < |s| - |p| && s[|p|..][j] == x;
    var i :| 0 <= i < |p| && p[i] == y;
    assert s[i] == y && s[|p| + j] == x;
  }

  /** `getEvals`: the user's rows satisfying the search and flag conditions,
      newest first, after `offset` rows, at most `limit` of them. The database
      refuses a negative limit or offset. */
  function QueryEvals(rows: seq<EvalRow>, userId: Id, q: EvalQuery): (r: Result<seq<EvalRow>, string>)
    ensures r.Ok? <==> OrElse(q.limit, DefaultLimit) >= 0 && OrElse(q.offset, DefaultOffset) >= 0
    ensures r.Ok? ==> forall e :: e in r.value ==> e in rows && Matches(e, userId, q)
    ensures r.Ok? ==> SortedBy(r.value, NewestFirst)
    ensures r.Ok? ==> |r.value| <= OrElse(q.limit, DefaultLimit)
    ensures r.Ok? ==> |r.value| == if OrElse(q.offset, DefaultOffset) >= |Ordered(rows, userId, q)| then 0
                                   else Min(OrElse(q.limit, DefaultLimit), |Ordered(rows, userId, q)| - OrElse(q.offset, DefaultOffset))
    ensures r.Ok? ==> forall i :: 0 <= i < |r.value| ==>
                         r.value[i] == Ordered(rows, userId, q)[OrElse(q.offset, DefaultOffset) + i]
  {
    var limit, offset := OrElse(q.limit, DefaultLimit), OrElse(q.offset, DefaultOffset);
    if limit < 0 then Err("LIMIT must not be negative")
    else if offset < 0 then Err("OFFSET must not be negative")
    else
      var all := Ordered(rows, userId, q);
      PageMembers(all, offset, limit);
      PageSorted(all, offset, limit, NewestFirst);
      Ok(Page(all, offset, limit))
  }

  /** The ordered matches depend on the search and the flag only. */
  lemma {:induction false} OrderedIgnoresPaging(rows: seq<EvalRow>, userId: Id, q: EvalQuery, q': EvalQuery)
    requires q.search == q'.search && q.flag == q'.flag
    ensures Select(rows, userId, q) == Select(rows, userId, q')
    ensures Ordered(rows, userId, q) == Ordered(rows, userId, q')
  {
    if rows != [] {
      OrderedIgnoresPaging(rows[..|rows| - 1], userId, q, q');
    }
  }

  /** A first page large enough holds every matching row. */
  lemma QueryComplete(rows: seq<EvalRow>, userId: Id, q: EvalQuery)
    requires q.offset.None? || q.offset == Some(0)
    requires q.limit.Some? && q.limit.value >= |rows|
    ensures QueryEvals(rows, userId, q).Ok?
    ensures forall e :: e in rows && Matches(e, userId, q) ==> e in QueryEvals(rows, userId, q).value
  {
    var all := Ordered(rows, userId, q);
    assert |all| <= |rows| by {
      assert |multiset(all)| == |multiset(Select(rows, userId, q))|;
    }
    assert Page(all, 0, q.limit.value) == all;
    assert QueryEvals(rows, userId, q) == Ok(all);
  }

  /** Two consecutive pages are one page of their combined size. */
  lemma PagesConcatenate<T>(s: seq<T>, offset: nat, a: nat, b: nat)
    ensures Page(s, offset, a) + Page(s, offset + a, b) == Page(s, offset, a + b)
  {
    var l, r, w := Page(s, offset, a), Page(s, offset + a, b), Page(s, offset, a + b);
    assert |l + r| == |w|;
    forall i | 0 <= i < |w| ensures (l + r)[i] == w[i] {
      if i < |l| {
        assert (l + r)[i] == l[i];
      } else {
        assert (l + r)[i] == r[i - |l|];
      }
    }
  }

  lemma LowerCharIdempotent(c: char)
    ensures LowerChar(LowerChar(c)) == LowerChar(c)
  {
  }

  lemma LowerIdempotent(s: string)
    ensures Lower(Lower(s)) == Lower(s)
  {
    forall i | 0 <= i < |s| ensures Lower(Lower(s))[i] == Lower(s)[i] {
      LowerCharIdempotent(s[i]);
    }
  }

  /** The search ignores the case of the term. */
  lemma SearchIgnoresCase(rows: seq<EvalRow>, userId: Id, q: EvalQuery)
    requires q.search.Some?
    ensures QueryEvals(rows, userId, q) == QueryEvals(rows, userId, q.(search := Some(Lower(q.search.value))))
  {
    var q' := q.(search := Some(Lower(q.search.value)));
    LowerIdempotent(q.search.value);
    forall r ensures Matches(r, userId, q) == Matches(r, userId, q') {
      if q.search.value != "" {
        assert Lower(q.search.value) != [] by {
          assert |Lower(q.search.value)| == |q.search.value|;
        }
      }
    }
    SelectAgrees(rows, userId, q, q');
  }

  lemma {:induction false} SelectAgrees(rows: seq<EvalRow>, userId: Id, q: EvalQuery, q': EvalQuery)
    requires q.limit == q'.limit && q.offset == q'.offset
    requires forall r :: Matches(r, userId, q) == Matches(r, userId, q')
    ensures Select(rows, userId, q) == Select(rows, userId, q')
    ensures QueryEvals(rows, userId, q) == QueryEvals(rows, userId, q')
  {
    if rows != [] {
      SelectAgrees(rows[..|rows| - 1], userId, q, q');
    }
  }

  /** The flag `all` is no filter at all. */
  lemma AnyFlagIsNoFilter(rows: seq<EvalRow>, userId: Id, q: EvalQuery)
    requires q.flag == Some(AnyFlag)
    ensures QueryEvals(rows, userId, q) == QueryEvals(rows, userId, q.(flag := None))
  {
    SelectAgrees(rows, userId, q, q.(flag := None));
  }

  // ---------------------------------------------------------------------------
  // Lookups.

  /** `getEvalById`: the row with this id, provided it belongs to this user. */
  function EvalById(rows: seq<EvalRow>, id: Id, userId: Id): (r: Option<EvalRow>)
    ensures r.Some? ==> r.value in rows && r.value.id == id && r.value.userId == userId
    ensures r.None? <==> forall e :: e in rows ==> !(e.id == id && e.userId == userId)
  {
    if rows == [] then None
    else if rows[0].id == id && rows[0].userId == userId then Some(rows[0])
    else
      var rest := EvalById(rows[1..], id, userId);
      assert rows == [rows[0]] + rows[1..];
      rest
  }

  /** `getSettings`: the first settings row of this user. */
  function FirstSettings(rows: seq<SettingsRow>, userId: Id): (r: Option<SettingsRow>)
    ensures r.Some? ==> r.value in rows && r.value.userId == userId
    ensures r.None? <==> forall s :: s in rows ==> s.userId != userId
  {
    if rows == [] then None
    else if rows[0].userId == userId then Some(rows[0])
    else
      var rest := FirstSettings(rows[1..], userId);
      assert rows == [rows[0]] + rows[1..];
      rest
  }

  /** Every settings row of this user, in table order. */
  function SettingsOf(rows: seq<SettingsRow>, userId: Id): (s: seq<SettingsRow>)
    ensures forall r :: r in s <==> r in rows && r.userId == userId
  {
    if rows == [] then []
    else
      var init := SettingsOf(rows[..|rows| - 1], userId);
      var r := rows[|rows| - 1];
      assert rows == rows[..|rows| - 1] + [r];
      if r.userId == userId then init + [r] else init
  }

  /** `getUserByEmail`. */
  function UserWithEmail(users: seq<User>, email: string): (r: Option<User>)
    ensures r.Some? ==> r.value in users && r.value.email == email
    ensures r.None? <==> forall u :: u in users ==> u.email != email
  {
    if users == [] then None
    else if users[0].email == email then Some(users[0])
    else
      var rest := UserWithEmail(users[1..], email);
      assert users == [users[0]] + users[1..];
      rest
  }

  /** The row of `updateSettings`: new policy values for the columns provided,
      and a new `updatedAt`. */
  function UpdatedRow(s: SettingsRow, patch: PolicyPatch, now: Timestamp): SettingsRow
  {
    s.(policy := UpdatedPolicy(s.policy, patch), updatedAt := now)
  }

  /** `UPDATE eval_settings SET … WHERE user_id = userId`. */
  function UpdateWhere(rows: seq<SettingsRow>, userId: Id, patch: PolicyPatch, now: Timestamp): (r: seq<SettingsRow>)
    ensures |r| == |rows|
    ensures forall i :: 0 <= i < |rows| ==> r[i] == if rows[i].userId == userId then UpdatedRow(rows[i], patch, now) else rows[i]
  {
    seq(|rows|, i requires 0 <= i < |rows| => if rows[i].userId == userId then UpdatedRow(rows[i], patch, now) else rows[i])
  }

  /** An update keeps every row's identity, owner and creation time, and the
      rows of every other user unchanged. */
  lemma UpdateWhereScope(rows: seq<SettingsRow>, userId: Id, patch: PolicyPatch, now: Timestamp)
    ensures forall i :: 0 <= i < |rows| ==>
              var r := UpdateWhere(rows, userId, patch, now)[i];
              r.id == rows[i].id && r.userId == rows[i].userId && r.createdAt == rows[i].createdAt
              && (rows[i].userId != userId ==> r == rows[i])
              && (rows[i].userId == userId ==> r.updatedAt == now)
    ensures FirstSettings(UpdateWhere(rows, userId, patch, now), userId).Some? <==> FirstSettings(rows, userId).Some?
  {
    var u := UpdateWhere(rows, userId, patch, now);
    if FirstSettings(rows, userId).Some? {
      var s := FirstSettings(rows, userId).value;
      var i :| 0 <= i < |rows| && rows[i] == s;
      assert u[i].userId == userId;
      assert u[i] in u;
    }
    if FirstSettings(u, userId).Some? {
      var s := FirstSettings(u, userId).value;
      var i :| 0 <= i < |u| && u[i] == s;
      assert rows[i] in rows;
    }
  }

  /** An empty patch changes only the `updatedAt` of this user's rows. */
  lemma EmptyPatchTouchesOnly(rows: seq<SettingsRow>, userId: Id, now: Timestamp)
    ensures forall i :: 0 <= i < |rows| ==>
              UpdateWhere(rows, userId, PolicyPatch(None, None, None, None), now)[i].policy == rows[i].policy
  {
  }

  // ---------------------------------------------------------------------------
  // Statistics.

  /** `getDashboardStats` and `getAnalytics` look back 30 and 7 days from now. */
  function ThirtyDaysAgo(now: Timestamp): Timestamp
  {
    now - 30 * DayMs
  }

  function SevenDaysAgo(now: Timestamp): Timestamp
  {
    now - 7 * DayMs
  }

  datatype DashboardStats = DashboardStats(kpis: Kpis, scoresTrend: seq<TrendPoint>, latencyTrend: seq<TrendPoint>)

  datatype Analytics = Analytics(
    scoresTrend7d: seq<TrendPoint>,
    scoresTrend30d: seq<TrendPoint>,
    latencyTrend7d: seq<TrendPoint>,
    latencyTrend30d: seq<TrendPoint>,
    flagsDistribution: seq<FlagCount>)

  const NoStats: DashboardStats := DashboardStats(Kpis(0.0, 0.0, 0.0, 0.0), [], [])

  /** What the general branch of `getDashboardStats` computes yields the same
      zeros as its early return on an empty window. */
  lemma EmptyWindowStats()
    ensures DashboardStats(ServerKpis([]), Trend([], ScoreMetric), Trend([], LatencyMetric)) == NoStats
  {
    assert DayKeys([]) == [];
  }

  // ---------------------------------------------------------------------------
  // The store.

  class Store {
    var users: seq<User>
    var settings: seq<SettingsRow>
    var evals: seq<EvalRow>
    /** Source of fresh row ids (the tables draw random UUIDs). */
    var nextId: nat

    function UserIds(): set<Id>
      reads this
    {
      set u | u in users :: u.id
    }

    /** Ids are fresh and unique, e-mails are unique, and every settings and
        evaluation row references an existing user. */
    ghost predicate Valid()
      reads this
    {
      && (forall i :: 0 <= i < |users| ==> users[i].id < nextId)
      && (forall i :: 0 <= i < |settings| ==> settings[i].id < nextId)
      && (forall i :: 0 <= i < |evals| ==> evals[i].id < nextId)
      && (forall i, j :: 0 <= i < j < |users| ==> users[i].id != users[j].id && users[i].email != users[j].email)
      && (forall i, j :: 0 <= i < j < |settings| ==> settings[i].id != settings[j].id)
      && (forall i, j :: 0 <= i < j < |evals| ==> evals[i].id != evals[j].id)
      && (forall i :: 0 <= i < |settings| ==> settings[i].userId in UserIds())
      && (forall i :: 0 <= i < |evals| ==> evals[i].userId in UserIds())
    }

    /** The handlers keep at most one settings row per user (the table itself
        does not require it). */
    ghost predicate OneSettingsPerUser()
      reads this
    {
      forall i, j :: 0 <= i < j < |settings| ==> settings[i].userId != settings[j].userId
    }

    constructor ()
      ensures Valid() && OneSettingsPerUser()
      ensures users == [] && settings == [] && evals == []
    {
      users, settings, evals, nextId := [], [], [], 0;
    }

    /** `createUser`: the `email` column is unique. */
    method CreateUser(email: string) returns (r: Result<User, string>)
      requires Valid()
      modifies this
      ensures Valid()
      ensures r.Ok? <==> UserWithEmail(old(users), email).None?
      ensures r.Ok? ==> r.value == User(old(nextId), email) && users == old(users) + [r.value]
      ensures r.Ok? ==> nextId == old(nextId) + 1
      ensures r.Err? ==> users == old(users)
      ensures settings == old(settings) && evals == old(evals)
      ensures r.Ok? ==> r.value.id !in old(UserIds())
    {
      if UserWithEmail(users, email).Some? {
        return Err("duplicate key value violates unique constraint on email");
      }
      var u := User(nextId, email);
      users := users + [u];
      nextId := nextId + 1;
      assert forall i :: 0 <= i < |old(users)| ==> users[i] == old(users)[i];
      r := Ok(u);
    }

    /** `createSettings`: a new row with the given policy; `user_id` must
        reference a user. */
    method CreateSettings(userId: Id, p: Policy, now: Timestamp) returns (r: Result<SettingsRow, string>)
      requires Valid()
      modifies this
      ensures Valid()
      ensures r.Ok? <==> userId in UserIds()
      ensures r.Ok? ==> r.value == SettingsRow(old(nextId), userId, p, now, now) && settings == old(settings) + [r.value]
      ensures r.Ok? ==> nextId == old(nextId) + 1
      ensures r.Err? ==> settings == old(settings)
      ensures users == old(users) && evals == old(evals)
    {
      if userId !in UserIds() {
        return Err("insert violates foreign key constraint on user_id");
      }
      var s := SettingsRow(nextId, userId, p, now, now);
      settings := settings + [s];
      nextId := nextId + 1;
      r := Ok(s);
    }

    /** `updateSettings`: every row of the user takes the provided columns; the
        first updated row is returned, none when the user has no row. */
    method UpdateSettings(userId: Id, patch: PolicyPatch, now: Timestamp) returns (r: Option<SettingsRow>)
      requires Valid()
      modifies this
      ensures Valid()
      ensures settings == UpdateWhere(old(settings), userId, patch, now)
      ensures r == FirstSettings(settings, userId)
      ensures r.Some? <==> FirstSettings(old(settings), userId).Some?
      ensures users == old(users) && evals == old(evals)
      ensures OneSettingsPerUser() <==> old(OneSettingsPerUser())
    {
      UpdateWhereScope(settings, userId, patch, now);
      settings := UpdateWhere(settings, userId, patch, now);
      r := FirstSettings(settings, userId);
    }

    /** `createEval`: the row with a fresh id; `user_id` must reference a user
        and the insert may fail in the database (`fault`). */
    method CreateEval(e: NewEval, fault: bool) returns (r: Result<EvalRow, string>)
      requires Valid()
      modifies this
      ensures Valid()
      ensures r.Ok? <==> !fault && e.userId in UserIds()
      ensures r.Ok? ==> r.value == Persisted(old(nextId), e) && evals == old(evals) + [r.value]
      ensures r.Ok? ==> nextId == old(nextId) + 1
      ensures r.Err? ==> evals == old(evals)
      ensures users == old(users) && settings == old(settings)
    {
      if fault {
        return Err("insert failed");
      }
      if e.userId !in UserIds() {
        return Err("insert violates foreign key constraint on user_id");
      }
      var row := Persisted(nextId, e);
      evals := evals + [row];
      nextId := nextId + 1;
      r := Ok(row);
    }

    /** `getDashboardStats`: KPIs and trends over the user's last 30 days. */
    method GetDashboardStats(userId: Id, now: Timestamp) returns (stats: DashboardStats)
      ensures var w := Window(evals, userId, ThirtyDaysAgo(now));
              stats == DashboardStats(ServerKpis(w), Trend(w, ScoreMetric), Trend(w, LatencyMetric))
      ensures Window(evals, userId, ThirtyDaysAgo(now)) == [] ==> stats == NoStats
    {
      var recent := Window(evals, userId, ThirtyDaysAgo(now));
      EmptyWindowStats();
      if |recent| == 0 {
        return NoStats;
      }
      var kpis := ServerKpis(recent);
      var scoresTrend, latencyTrend := GetTrend(recent);
      stats := DashboardStats(kpis, scoresTrend, latencyTrend);
    }

    /** `getAnalytics`: trends over the last 7 and 30 days and the flag
        distribution over the last 30. */
    method GetAnalytics(userId: Id, now: Timestamp) returns (a: Analytics)
      ensures var w7, w30 := Window(evals, userId, SevenDaysAgo(now)), Window(evals, userId, ThirtyDaysAgo(now));
              a == Analytics(Trend(w7, ScoreMetric), Trend(w30, ScoreMetric),
                             Trend(w7, LatencyMetric), Trend(w30, LatencyMetric), FlagDistribution(w30))
    {
      var evals7d := Window(evals, userId, SevenDaysAgo(now));
      var evals30d := Window(evals, userId, ThirtyDaysAgo(now));
      var scores7d, latency7d := GetTrend(evals7d);
      var scores30d, latency30d := GetTrend(evals30d);
      var dist := GetFlagDistribution(evals30d);
      a := Analytics(scores7d, scores30d, latency7d, latency30d, dist);
    }
  }

  /** The 7-day window of `getAnalytics` lies inside its 30-day window. */
  lemma AnalyticsWindowsNested(rows: seq<EvalRow>, userId: Id, now: Timestamp)
    ensures forall r :: r in Window(rows, userId, SevenDaysAgo(now)) ==> r in Window(rows, userId, ThirtyDaysAgo(now))
  {
    NarrowerWindowContained(rows, userId, ThirtyDaysAgo(now), SevenDaysAgo(now));
  }
}
