/** The aggregation engine of the storage layer: KPI means and rates over a
    window of evaluations, sparse per-day trend series, and the flag-frequency
    distribution. */
module Aggregation {
  import opened Common
  import opened Schema

  /** `getDashboardStats` counts an evaluation as a success at this score or above. */
  const ServerSuccessThreshold: real := 0.7

  datatype TrendPoint = TrendPoint(date: int, value: real)

  datatype FlagCount = FlagCount(name: string, count: nat)

  datatype Kpis = Kpis(avgScore: real, avgLatency: real, redactionRate: real, successRate: real)

  // ---------------------------------------------------------------------------
  // Windows.

  function NewestFirst(r: EvalRow): int
  {
    -r.createdAt
  }

  function OwnedSince(rows: seq<EvalRow>, userId: Id, since: Timestamp): seq<EvalRow>
  {
    if rows == [] then []
    else
      var init := OwnedSince(rows[..|rows| - 1], userId, since);
      var r := rows[|rows| - 1];
      if r.userId == userId && r.createdAt >= since then init + [r] else init
  }

  /** The window query: the user's evaluations created at or after `since`,
      newest first. */
  function Window(rows: seq<EvalRow>, userId: Id, since: Timestamp): (w: seq<EvalRow>)
    ensures forall r :: r in w <==> r in rows && r.userId == userId && r.createdAt >= since
    ensures forall r :: multiset(w)[r] == if r.userId == userId && r.createdAt >= since then multiset(rows)[r] else 0
    ensures multiset(w) == multiset(OwnedSince(rows, userId, since))
    ensures SortedBy(w, NewestFirst)
  {
    OwnedSinceMembers(rows, userId, since);
    OwnedSinceCounts(rows, userId, since);
    var w := SortBy(OwnedSince(rows, userId, since), NewestFirst);
    assert forall r :: r in w <==> r in multiset(OwnedSince(rows, userId, since));
    w
  }

  lemma {:induction false} OwnedSinceMembers(rows: seq<EvalRow>, userId: Id, since: Timestamp)
    ensures forall r :: r in OwnedSince(rows, userId, since) <==> r in rows && r.userId == userId && r.createdAt >= since
  {
    if rows != [] {
      var n := |rows| - 1;
      OwnedSinceMembers(rows[..n], userId, since);
      assert rows == rows[..n] + [rows[n]];
    }
  }

  /** The window query keeps each matching row as often as the table holds it,
      and in table order. */
  lemma {:induction false} OwnedSinceCounts(rows: seq<EvalRow>, userId: Id, since: Timestamp)
    ensures forall r :: multiset(OwnedSince(rows, userId, since))[r] ==
                          if r.userId == userId && r.createdAt >= since then multiset(rows)[r] else 0
    ensures IsSubsequence(OwnedSince(rows, userId, since), rows)
  {
    if rows != [] {
      var n := |rows| - 1;
      var r := rows[n];
      OwnedSinceCounts(rows[..n], userId, since);
      assert rows == rows[..n] + [r];
      SelectStep(OwnedSince(rows[..n], userId, since), rows[..n], r, r.userId == userId && r.createdAt >= since);
    }
  }

  /** A window that starts later holds no evaluation that the earlier one lacks
      (so the 7-day set is contained in the 30-day set). */
  lemma NarrowerWindowContained(rows: seq<EvalRow>, userId: Id, wide: Timestamp, narrow: Timestamp)
    requires wide <= narrow
    ensures forall r :: r in Window(rows, userId, narrow) ==> r in Window(rows, userId, wide)
  {
  }

  // ---------------------------------------------------------------------------
  // KPIs.

  function Scores(rows: seq<EvalRow>): (s: seq<real>)
    ensures |s| == |rows| && forall i :: 0 <= i < |rows| ==> s[i] == rows[i].score
  {
    seq(|rows|, i requires 0 <= i < |rows| => rows[i].score)
  }

  function Latencies(rows: seq<EvalRow>): (s: seq<real>)
    ensures |s| == |rows| && forall i :: 0 <= i < |rows| ==> s[i] == rows[i].latencyMs as real
  {
    seq(|rows|, i requires 0 <= i < |rows| => rows[i].latencyMs as real)
  }

  /** The number of evaluations with at least one redacted token. */
  function CountRedacted(rows: seq<EvalRow>): (n: nat)
    ensures n <= |rows|
  {
    if rows == [] then 0
    else CountRedacted(rows[..|rows| - 1]) + (if rows[|rows| - 1].piiTokensRedacted > 0 then 1 else 0)
  }

  /** The number of evaluations scoring at least `threshold`. */
  function CountAtLeast(rows: seq<EvalRow>, threshold: real): (n: nat)
    ensures n <= |rows|
  {
    if rows == [] then 0
    else CountAtLeast(rows[..|rows| - 1], threshold) + (if rows[|rows| - 1].score >= threshold then 1 else 0)
  }

  predicate ScoresInUnitRange(rows: seq<EvalRow>)
  {
    forall i :: 0 <= i < |rows| ==> 0.0 <= rows[i].score <= 1.0
  }

  /** The four KPIs of `getDashboardStats`: means of score and latency, the
      fraction of redacted evaluations and the fraction of successes; all 0 on an
      empty window. */
  function ServerKpis(rows: seq<EvalRow>): (k: Kpis)
    ensures |rows| == 0 ==> k == Kpis(0.0, 0.0, 0.0, 0.0)
    ensures |rows| > 0 ==> k.avgScore == Sum(Scores(rows)) / |rows| as real
    ensures |rows| > 0 ==> k.avgLatency == Sum(Latencies(rows)) / |rows| as real
    ensures |rows| > 0 ==> k.redactionRate == CountRedacted(rows) as real / |rows| as real
    ensures |rows| > 0 ==> k.successRate == CountAtLeast(rows, ServerSuccessThreshold) as real / |rows| as real
    ensures 0.0 <= k.redactionRate <= 1.0 && 0.0 <= k.successRate <= 1.0
    ensures ScoresInUnitRange(rows) ==> 0.0 <= k.avgScore <= 1.0
  {
    var n := |rows|;
    var k := Kpis(Mean(Scores(rows)), Mean(Latencies(rows)),
                  Fraction(CountRedacted(rows), n), Fraction(CountAtLeast(rows, ServerSuccessThreshold), n));
    assert ScoresInUnitRange(rows) ==> 0.0 <= k.avgScore <= 1.0 by {
      if ScoresInUnitRange(rows) && n > 0 { MeanBounds(Scores(rows), 0.0, 1.0); }
    }
    k
  }

  // ---------------------------------------------------------------------------
  // Per-day trends.

  datatype Metric = ScoreMetric | LatencyMetric

  function Value(r: EvalRow, m: Metric): real
  {
    match m
    case ScoreMetric => r.score
    case LatencyMetric => r.latencyMs as real
  }

  /** The day key of each evaluation (its UTC calendar day). */
  function Days(rows: seq<EvalRow>): (ds: seq<int>)
    ensures |ds| == |rows| && forall i :: 0 <= i < |rows| ==> ds[i] == DayOf(rows[i].createdAt)
  {
    seq(|rows|, i requires 0 <= i < |rows| => DayOf(rows[i].createdAt))
  }

  /** The distinct day keys in order of first occurrence (the key order of the
      source's `Map`). */
  function DayKeys(rows: seq<EvalRow>): seq<int>
  {
    Distinct(Days(rows))
  }

  /** The metric values of the evaluations on day `d`, in order. */
  function ValuesOn(rows: seq<EvalRow>, m: Metric, d: int): seq<real>
  {
    if rows == [] then []
    else
      var r := rows[|rows| - 1];
      ValuesOn(rows[..|rows| - 1], m, d) + (if DayOf(r.createdAt) == d then [Value(r, m)] else [])
  }

  lemma DaysSnoc(rows: seq<EvalRow>, i: nat)
    requires i < |rows|
    ensures Days(rows[..i + 1]) == Days(rows[..i]) + [DayOf(rows[i].createdAt)]
    ensures DayKeys(rows[..i + 1]) ==
              if DayOf(rows[i].createdAt) in DayKeys(rows[..i]) then DayKeys(rows[..i])
              else DayKeys(rows[..i]) + [DayOf(rows[i].createdAt)]
  {
    assert Days(rows[..i + 1])[..i] == Days(rows[..i]);
  }

  lemma {:induction false} ValuesOnAbsent(rows: seq<EvalRow>, m: Metric, d: int)
    requires d !in Days(rows)
    ensures ValuesOn(rows, m, d) == []
  {
    if rows != [] {
      var n := |rows| - 1;
      assert Days(rows[..n]) == Days(rows)[..n];
      ValuesOnAbsent(rows[..n], m, d);
      assert Days(rows)[n] == DayOf(rows[n].createdAt);
    }
  }

  lemma ValuesOnSnoc(rows: seq<EvalRow>, i: nat, m: Metric, d: int)
    requires i < |rows|
    ensures ValuesOn(rows[..i + 1], m, d) ==
              ValuesOn(rows[..i], m, d) + (if DayOf(rows[i].createdAt) == d then [Value(rows[i], m)] else [])
  {
    assert rows[..i + 1][..i] == rows[..i];
  }

  /** `byDate` holds, for each day of `dates` and no other, the values of
      metric `m` of that day in `rows`. */
  ghost predicate GroupedBy(rows: seq<EvalRow>, dates: seq<int>, byDate: map<int, seq<real>>, m: Metric)
  {
    && (forall d :: d in byDate <==> d in dates)
    && (forall d :: d in byDate ==> byDate[d] == ValuesOn(rows, m, d))
  }

  /** `dates`, `scoresByDate` and `latencyByDate` group `rows` by day. */
  ghost predicate Grouped(rows: seq<EvalRow>, dates: seq<int>, scoresByDate: map<int, seq<real>>, latencyByDate: map<int, seq<real>>)
  {
    && dates == DayKeys(rows)
    && GroupedBy(rows, dates, scoresByDate, ScoreMetric)
    && GroupedBy(rows, dates, latencyByDate, LatencyMetric)
  }

  lemma GroupedBySeen(rows: seq<EvalRow>, i: nat, dates: seq<int>, byDate: map<int, seq<real>>, m: Metric)
    requires i < |rows| && GroupedBy(rows[..i], dates, byDate, m)
    requires DayOf(rows[i].createdAt) in byDate
    ensures var date := DayOf(rows[i].createdAt);
            GroupedBy(rows[..i + 1], dates, byDate[date := byDate[date] + [Value(rows[i], m)]], m)
  {
    forall d ensures ValuesOn(rows[..i + 1], m, d) ==
                       ValuesOn(rows[..i], m, d) + (if DayOf(rows[i].createdAt) == d then [Value(rows[i], m)] else [])
    {
      ValuesOnSnoc(rows, i, m, d);
    }
  }

  lemma GroupedByNew(rows: seq<EvalRow>, i: nat, dates: seq<int>, byDate: map<int, seq<real>>, m: Metric)
    requires i < |rows| && GroupedBy(rows[..i], dates, byDate, m)
    requires dates == DayKeys(rows[..i])
    requires DayOf(rows[i].createdAt) !in byDate
    ensures var date := DayOf(rows[i].createdAt);
            GroupedBy(rows[..i + 1], dates + [date], byDate[date := [Value(rows[i], m)]], m)
  {
    var date := DayOf(rows[i].createdAt);
    ValuesOnAbsent(rows[..i], m, date);
    forall d ensures ValuesOn(rows[..i + 1], m, d) ==
                       ValuesOn(rows[..i], m, d) + (if date == d then [Value(rows[i], m)] else [])
    {
      ValuesOnSnoc(rows, i, m, d);
    }
  }

  lemma GroupedSeen(rows: seq<EvalRow>, i: nat, dates: seq<int>, scoresByDate: map<int, seq<real>>, latencyByDate: map<int, seq<real>>)
    requires i < |rows| && Grouped(rows[..i], dates, scoresByDate, latencyByDate)
    requires DayOf(rows[i].createdAt) in scoresByDate
    ensures var date := DayOf(rows[i].createdAt);
            Grouped(rows[..i + 1], dates,
                    scoresByDate[date := scoresByDate[date] + [rows[i].score]],
                    latencyByDate[date := latencyByDate[date] + [rows[i].latencyMs as real]])
  {
    DaysSnoc(rows, i);
    GroupedBySeen(rows, i, dates, scoresByDate, ScoreMetric);
    GroupedBySeen(rows, i, dates, latencyByDate, LatencyMetric);
  }

  lemma GroupedNew(rows: seq<EvalRow>, i: nat, dates: seq<int>, scoresByDate: map<int, seq<real>>, latencyByDate: map<int, seq<real>>)
    requires i < |rows| && Grouped(rows[..i], dates, scoresByDate, latencyByDate)
    requires DayOf(rows[i].createdAt) !in scoresByDate
    ensures var date := DayOf(rows[i].createdAt);
            Grouped(rows[..i + 1], dates + [date],
                    scoresByDate[date := [rows[i].score]],
                    latencyByDate[date := [rows[i].latencyMs as real]])
  {
    DaysSnoc(rows, i);
    GroupedByNew(rows, i, dates, scoresByDate, ScoreMetric);
    GroupedByNew(rows, i, dates, latencyByDate, LatencyMetric);
  }

  /** The loop of `getTrend` (and of `getDashboardStats`): the day keys in order
      of first occurrence, and per key the scores and the latencies of that day. */
  method GroupByDay(rows: seq<EvalRow>) returns (dates: seq<int>, scoresByDate: map<int, seq<real>>, latencyByDate: map<int, seq<real>>)
    ensures dates == DayKeys(rows)
    ensures forall d :: d in scoresByDate <==> d in dates
    ensures forall d :: d in latencyByDate <==> d in dates
    ensures forall d :: d in scoresByDate ==> scoresByDate[d] == ValuesOn(rows, ScoreMetric, d)
    ensures forall d :: d in latencyByDate ==> latencyByDate[d] == ValuesOn(rows, LatencyMetric, d)
  {
    dates, scoresByDate, latencyByDate := [], map[], map[];
    var i := 0;
    while i < |rows|
      invariant 0 <= i <= |rows|
      invariant Grouped(rows[..i], dates, scoresByDate, latencyByDate)
    {
      var e := rows[i];
      var date := DayOf(e.createdAt);
      if date !in scoresByDate {
        GroupedNew(rows, i, dates, scoresByDate, latencyByDate);
        dates := dates + [date];
        scoresByDate := scoresByDate[date := []];
        latencyByDate := latencyByDate[date := []];
      } else {
        GroupedSeen(rows, i, dates, scoresByDate, latencyByDate);
      }
      scoresByDate := scoresByDate[date := scoresByDate[date] + [e.score]];
      latencyByDate := latencyByDate[date := latencyByDate[date] + [e.latencyMs as real]];
      i := i + 1;
    }
    assert rows[..i] == rows;
  }

  function DateOf(p: TrendPoint): int
  {
    p.date
  }

  /** One point per listed day: the day and the mean of its values in `byDate`
      (the `map` step of `getTrend`). */
  function MeanPoints(dates: seq<int>, byDate: map<int, seq<real>>): (ps: seq<TrendPoint>)
    requires forall i :: 0 <= i < |dates| ==> dates[i] in byDate
    ensures |ps| == |dates|
    ensures forall i :: 0 <= i < |dates| ==> ps[i] == TrendPoint(dates[i], Mean(byDate[dates[i]]))
  {
    seq(|dates|, i requires 0 <= i < |dates| => TrendPoint(dates[i], Mean(byDate[dates[i]])))
  }

  /** One point per day key, in first-seen order, holding the mean of that day. */
  function DayPoints(rows: seq<EvalRow>, m: Metric): (ps: seq<TrendPoint>)
    ensures |ps| == |DayKeys(rows)|
    ensures forall i :: 0 <= i < |ps| ==> ps[i] == TrendPoint(DayKeys(rows)[i], Mean(ValuesOn(rows, m, DayKeys(rows)[i])))
  {
    var keys := DayKeys(rows);
    seq(|keys|, i requires 0 <= i < |keys| => TrendPoint(keys[i], Mean(ValuesOn(rows, m, keys[i]))))
  }

  /** The sparse trend of `getTrend`: one point per day that has evaluations,
      holding that day's mean, sorted by date. */
  function Trend(rows: seq<EvalRow>, m: Metric): seq<TrendPoint>
  {
    SortBy(DayPoints(rows, m), DateOf)
  }

  /** `getTrend` over one window. */
  method GetTrend(rows: seq<EvalRow>) returns (scoresTrend: seq<TrendPoint>, latencyTrend: seq<TrendPoint>)
    ensures scoresTrend == Trend(rows, ScoreMetric)
    ensures latencyTrend == Trend(rows, LatencyMetric)
  {
    var dates, scoresByDate, latencyByDate := GroupByDay(rows);
    forall i | 0 <= i < |dates| ensures dates[i] in scoresByDate && dates[i] in latencyByDate {
      assert dates[i] in dates;
    }
    var sp, lp := MeanPoints(dates, scoresByDate), MeanPoints(dates, latencyByDate);
    assert sp == DayPoints(rows, ScoreMetric);
    assert lp == DayPoints(rows, LatencyMetric);
    scoresTrend := SortBy(sp, DateOf);
    latencyTrend := SortBy(lp, DateOf);
  }

  ghost predicate StrictlyAscending(t: seq<TrendPoint>)
  {
    forall i, j :: 0 <= i < j < |t| ==> t[i].date < t[j].date
  }

  /** A trend has exactly one point per distinct day key. */
  lemma TrendLength(rows: seq<EvalRow>, m: Metric)
    ensures |Trend(rows, m)| == |DayKeys(rows)|
  {
    var t, ps := Trend(rows, m), DayPoints(rows, m);
    assert |multiset(t)| == |multiset(ps)|;
  }

  /** The dates of a trend strictly ascend (each day appears once, in order). */
  lemma TrendAscending(rows: seq<EvalRow>, m: Metric)
    ensures StrictlyAscending(Trend(rows, m))
  {
    var t, ps := Trend(rows, m), DayPoints(rows, m);
    DistinctImagesPreserved(t, ps, DateOf);
    forall i, j | 0 <= i < j < |t| ensures t[i].date < t[j].date {
      assert DateOf(t[i]) <= DateOf(t[j]) && DateOf(t[i]) != DateOf(t[j]);
    }
  }

  /** The points of a trend are exactly the pairs of a day that has evaluations
      and the mean of that day's values. */
  lemma TrendMembers(rows: seq<EvalRow>, m: Metric)
    ensures forall p :: p in Trend(rows, m) <==>
                          p.date in Days(rows) && p.value == Mean(ValuesOn(rows, m, p.date))
  {
    var keys, t, ps := DayKeys(rows), Trend(rows, m), DayPoints(rows, m);
    forall p ensures p in t <==> p.date in Days(rows) && p.value == Mean(ValuesOn(rows, m, p.date)) {
      assert p in t <==> p in multiset(ps);
      if p.date in Days(rows) && p.value == Mean(ValuesOn(rows, m, p.date)) {
        assert p.date in keys;
        var i :| 0 <= i < |keys| && keys[i] == p.date;
        assert ps[i] == p;
      }
    }
  }

  function TrendDates(t: seq<TrendPoint>): (ds: seq<int>)
    ensures |ds| == |t| && forall i :: 0 <= i < |t| ==> ds[i] == t[i].date
  {
    seq(|t|, i requires 0 <= i < |t| => t[i].date)
  }

  lemma {:induction false} AscendingUnique(a: seq<int>, b: seq<int>)
    requires forall i, j :: 0 <= i < j < |a| ==> a[i] < a[j]
    requires forall i, j :: 0 <= i < j < |b| ==> b[i] < b[j]
    requires forall x :: x in a <==> x in b
    ensures a == b
    decreases |a|
  {
    if a != [] {
      assert a[0] in a;
    }
    if b != [] {
      assert b[0] in b;
    }
    if a != [] && b != [] {
      assert a[0] in b;
      assert b[0] in a;
      assert a[0] == b[0] by {
        var i :| 0 <= i < |b| && b[i] == a[0];
        var j :| 0 <= j < |a| && a[j] == b[0];
        assert b[0] <= b[i] && a[0] <= a[j];
      }
      forall x ensures x in a[1..] <==> x in b[1..] {
        if x in a[1..] {
          var i :| 1 <= i < |a| && a[i] == x;
          assert x != a[0];
          assert x in b;
        }
        if x in b[1..] {
          var i :| 1 <= i < |b| && b[i] == x;
          assert x != b[0];
          assert x in a;
        }
      }
      AscendingUnique(a[1..], b[1..]);
      assert a == [a[0]] + a[1..] && b == [b[0]] + b[1..];
    }
  }

  /** The score trend and the latency trend list the same dates. */
  lemma TrendsShareDates(rows: seq<EvalRow>)
    ensures TrendDates(Trend(rows, ScoreMetric)) == TrendDates(Trend(rows, LatencyMetric))
  {
    var s, l := Trend(rows, ScoreMetric), Trend(rows, LatencyMetric);
    TrendMembers(rows, ScoreMetric);
    TrendMembers(rows, LatencyMetric);
    TrendAscending(rows, ScoreMetric);
    TrendAscending(rows, LatencyMetric);
    var a, b := TrendDates(s), TrendDates(l);
    forall x ensures x in a <==> x in b {
      if x in a {
        var i :| 0 <= i < |a| && a[i] == x;
        assert s[i] in s;
        assert TrendPoint(x, Mean(ValuesOn(rows, LatencyMetric, x))) in l;
        var j :| 0 <= j < |l| && l[j] == TrendPoint(x, Mean(ValuesOn(rows, LatencyMetric, x)));
        assert b[j] == x;
      }
      if x in b {
        var i :| 0 <= i < |b| && b[i] == x;
        assert l[i] in l;
        assert TrendPoint(x, Mean(ValuesOn(rows, ScoreMetric, x))) in s;
        var j :| 0 <= j < |s| && s[j] == TrendPoint(x, Mean(ValuesOn(rows, ScoreMetric, x)));
        assert a[j] == x;
      }
    }
    AscendingUnique(a, b);
  }

  /** The number of evaluations on the listed days. */
  function CountOnDays(rows: seq<EvalRow>, ds: seq<int>): nat
  {
    if ds == [] then 0 else CountOnDays(rows, ds[..|ds| - 1]) + |ValuesOn(rows, ScoreMetric, ds[|ds| - 1])|
  }

  lemma {:induction false} CountOnDaysSnoc(rows: seq<EvalRow>, r: EvalRow, ds: seq<int>)
    requires NoDuplicates(ds)
    ensures CountOnDays(rows + [r], ds) == CountOnDays(rows, ds) + (if DayOf(r.createdAt) in ds then 1 else 0)
  {
    if ds != [] {
      var n := |ds| - 1;
      assert (rows + [r])[..|rows|] == rows;
      CountOnDaysSnoc(rows, r, ds[..n]);
      assert ds == ds[..n] + [ds[n]];
      assert DayOf(r.createdAt) in ds <==> DayOf(r.createdAt) in ds[..n] || DayOf(r.createdAt) == ds[n];
      assert ds[n] !in ds[..n];
    }
  }

  /** The per-day counts of a trend add up to the number of evaluations. */
  lemma {:induction false} DayCountsSum(rows: seq<EvalRow>)
    ensures CountOnDays(rows, DayKeys(rows)) == |rows|
  {
    if rows != [] {
      var n := |rows| - 1;
      var init, r := rows[..n], rows[n];
      assert rows == init + [r];
      DayCountsSum(init);
      DaysSnoc(rows, n);
      assert rows[..n + 1] == rows;
      var k := DayKeys(init);
      CountOnDaysSnoc(init, r, k);
      if DayOf(r.createdAt) !in k {
        ValuesOnAbsent(init, ScoreMetric, DayOf(r.createdAt));
        assert (k + [DayOf(r.createdAt)])[..|k|] == k;
      }
    }
  }

  // ---------------------------------------------------------------------------
  // Flag distribution.

  /** Every flag of every evaluation, in order, repetitions kept. */
  function AllFlags(rows: seq<EvalRow>): seq<string>
  {
    if rows == [] then [] else AllFlags(rows[..|rows| - 1]) + rows[|rows| - 1].flags
  }

  /** `names` and `counts` tally the flags in `seen`. */
  ghost predicate Tallied(seen: seq<string>, names: seq<string>, counts: map<string, nat>)
  {
    && names == Distinct(seen)
    && (forall f :: f in counts <==> f in names)
    && (forall f :: f in counts ==> counts[f] == multiset(seen)[f])
  }

  lemma TalliedSeen(seen: seq<string>, flag: string, names: seq<string>, counts: map<string, nat>)
    requires Tallied(seen, names, counts) && flag in counts
    ensures Tallied(seen + [flag], names, counts[flag := counts[flag] + 1])
  {
    assert (seen + [flag])[..|seen|] == seen;
    assert multiset(seen + [flag]) == multiset(seen) + multiset{flag};
  }

  lemma TalliedNew(seen: seq<string>, flag: string, names: seq<string>, counts: map<string, nat>)
    requires Tallied(seen, names, counts) && flag !in counts
    ensures Tallied(seen + [flag], names + [flag], counts[flag := 1])
  {
    assert (seen + [flag])[..|seen|] == seen;
    assert multiset(seen + [flag]) == multiset(seen) + multiset{flag};
    assert flag !in seen;
  }

  lemma AllFlagsSnoc(rows: seq<EvalRow>, i: nat)
    requires i < |rows|
    ensures AllFlags(rows[..i + 1]) == AllFlags(rows[..i]) + rows[i].flags
  {
    assert rows[..i + 1][..i] == rows[..i];
  }

  /** The inner loop of the tally: adds one evaluation's flags to the tally of
      the flags seen so far. */
  method TallyFlags(flags: seq<string>, ghost seen: seq<string>, names: seq<string>, counts: map<string, nat>)
    returns (names': seq<string>, counts': map<string, nat>)
    requires Tallied(seen, names, counts)
    ensures Tallied(seen + flags, names', counts')
  {
    names', counts' := names, counts;
    ghost var done := seen;
    var j := 0;
    while j < |flags|
      invariant 0 <= j <= |flags|
      invariant seen + flags == done + flags[j..]
      invariant Tallied(done, names', counts')
    {
      var flag := flags[j];
      assert flags[j..] == [flag] + flags[j + 1..];
      assert done + flags[j..] == (done + [flag]) + flags[j + 1..];
      if flag in counts' {
        TalliedSeen(done, flag, names', counts');
        counts' := counts'[flag := counts'[flag] + 1];
      } else {
        TalliedNew(done, flag, names', counts');
        counts' := counts'[flag := 1];
        names' := names' + [flag];
      }
      done := done + [flag];
      j := j + 1;
    }
    assert done + flags[j..] == done;
  }

  /** The loop that fills `flagsMap`: the distinct flags in order of first
      occurrence, and per flag the number of its occurrences. */
  method CountFlags(rows: seq<EvalRow>) returns (names: seq<string>, counts: map<string, nat>)
    ensures names == Distinct(AllFlags(rows))
    ensures forall f :: f in counts <==> f in names
    ensures forall f :: f in counts ==> counts[f] == multiset(AllFlags(rows))[f]
  {
    names, counts := [], map[];
    var i := 0;
    while i < |rows|
      invariant 0 <= i <= |rows|
      invariant Tallied(AllFlags(rows[..i]), names, counts)
    {
      AllFlagsSnoc(rows, i);
      names, counts := TallyFlags(rows[i].flags, AllFlags(rows[..i]), names, counts);
      i := i + 1;
    }
    assert rows[..i] == rows;
  }

  function ByCountDescending(c: FlagCount): int
  {
    -(c.count as int)
  }

  /** The distribution before sorting: one entry per distinct flag, in order of
      first occurrence. */
  function FlagEntries(names: seq<string>, counts: map<string, nat>): (es: seq<FlagCount>)
    requires forall i :: 0 <= i < |names| ==> names[i] in counts
    ensures |es| == |names|
    ensures forall i :: 0 <= i < |names| ==> es[i] == FlagCount(names[i], counts[names[i]])
  {
    seq(|names|, i requires 0 <= i < |names| => FlagCount(names[i], counts[names[i]]))
  }

  function Occurrences(rows: seq<EvalRow>): map<string, nat>
  {
    map f | f in AllFlags(rows) :: multiset(AllFlags(rows))[f]
  }

  /** The flag distribution of `getAnalytics`: sorted by count descending,
      keeping first-seen order among equal counts. */
  function FlagDistribution(rows: seq<EvalRow>): seq<FlagCount>
  {
    SortBy(FlagEntries(Distinct(AllFlags(rows)), Occurrences(rows)), ByCountDescending)
  }

  method GetFlagDistribution(rows: seq<EvalRow>) returns (dist: seq<FlagCount>)
    ensures dist == FlagDistribution(rows)
  {
    var names, counts := CountFlags(rows);
    assert counts == Occurrences(rows);
    dist := SortBy(FlagEntries(names, counts), ByCountDescending);
  }

  function FlagName(c: FlagCount): string
  {
    c.name
  }

  /** Each distinct flag is listed with the number of its occurrences (a flag
      repeated inside one evaluation counts twice), and nothing else is listed. */
  lemma FlagMembers(rows: seq<EvalRow>)
    ensures forall c :: c in FlagDistribution(rows) <==>
                          c.name in AllFlags(rows) && c.count == multiset(AllFlags(rows))[c.name]
  {
    var names := Distinct(AllFlags(rows));
    var es := FlagEntries(names, Occurrences(rows));
    var d := FlagDistribution(rows);
    forall c ensures c in d <==> c.name in AllFlags(rows) && c.count == multiset(AllFlags(rows))[c.name] {
      assert c in d <==> c in multiset(es);
      if c.name in AllFlags(rows) && c.count == multiset(AllFlags(rows))[c.name] {
        var i :| 0 <= i < |names| && names[i] == c.name;
        assert es[i] == c;
      }
    }
  }

  /** No flag is listed twice. */
  lemma FlagNamesDistinct(rows: seq<EvalRow>)
    ensures forall i, j :: 0 <= i < j < |FlagDistribution(rows)| ==>
                             FlagDistribution(rows)[i].name != FlagDistribution(rows)[j].name
  {
    var es := FlagEntries(Distinct(AllFlags(rows)), Occurrences(rows));
    DistinctImagesPreserved(FlagDistribution(rows), es, FlagName);
  }

  /** Counts never increase along the list, and among equal counts the flags
      keep their first-seen order. */
  lemma FlagCountsDescending(rows: seq<EvalRow>)
    ensures forall i, j :: 0 <= i < j < |FlagDistribution(rows)| ==>
                             FlagDistribution(rows)[i].count >= FlagDistribution(rows)[j].count
    ensures forall n :: WithKey(FlagDistribution(rows), ByCountDescending, n)
                        == WithKey(FlagEntries(Distinct(AllFlags(rows)), Occurrences(rows)), ByCountDescending, n)
  {
    var d := FlagDistribution(rows);
    forall i, j | 0 <= i < j < |d| ensures d[i].count >= d[j].count {
      assert ByCountDescending(d[i]) <= ByCountDescending(d[j]);
    }
  }
}
