/** The client-side computations of the dashboard page: the dense 7- and 30-day
    grids filled in place from the newest evaluations, the KPI expressions, and
    the search filter. */
module Dashboard {
  import opened Common
  import opened Schema
  import opened Aggregation
  import opened Storage

  /** The page asks for the user's newest 100 evaluations. */
  const FetchLimit: int := 100

  /** The client counts a success from this score on (the server uses 0.7). */
  const ClientSuccessThreshold: real := 0.8

  /** The evaluations the page works on. */
  function Fetched(rows: seq<EvalRow>, userId: Id): (r: seq<EvalRow>)
    ensures |r| <= FetchLimit
    ensures forall e :: e in r ==> e in rows && e.userId == userId
    ensures SortedBy(r, NewestFirst)
    ensures r == Page(Ordered(rows, userId, EvalQuery(None, None, None, None)), 0, FetchLimit)
  {
    var q := QueryEvals(rows, userId, EvalQuery(Some(FetchLimit), None, None, None));
    OrderedIgnoresPaging(rows, userId, EvalQuery(Some(FetchLimit), None, None, None), EvalQuery(None, None, None, None));
    q.value
  }

  /** The page holds the user's newest evaluations: one it leaves out is no
      newer than any it holds, and it leaves none out when the user has at most
      100. */
  lemma FetchedNewest(rows: seq<EvalRow>, userId: Id)
    ensures forall e, f :: e in rows && e.userId == userId && e !in Fetched(rows, userId) && f in Fetched(rows, userId)
                           ==> f.createdAt >= e.createdAt
    ensures |Ordered(rows, userId, EvalQuery(None, None, None, None))| <= FetchLimit ==>
              Fetched(rows, userId) == Ordered(rows, userId, EvalQuery(None, None, None, None))
  {
    var all := Ordered(rows, userId, EvalQuery(None, None, None, None));
    var r := Fetched(rows, userId);
    forall e, f | e in rows && e.userId == userId && e !in r && f in r ensures f.createdAt >= e.createdAt {
      assert Matches(e, userId, EvalQuery(None, None, None, None));
      FirstPageBefore(all, FetchLimit, NewestFirst, e, f);
    }
  }

  // ---------------------------------------------------------------------------
  // Day grids.

  /** One day of a grid: its day key, and the running totals (after averaging,
      the means) of score and latency, and the number of evaluations. */
  datatype Slot = Slot(date: int, score: real, latency: real, count: nat)

  function EmptySlot(date: int): Slot
  {
    Slot(date, 0.0, 0.0, 0)
  }

  /** The grid's day keys are pairwise distinct (they are keys of one object). */
  ghost predicate DistinctDates(g: seq<Slot>)
  {
    forall i, j :: 0 <= i < j < |g| ==> g[i].date != g[j].date
  }

  /** The grid of `n` days ending today, oldest first, every slot empty. */
  method BuildGrid(now: Timestamp, n: nat) returns (g: array<Slot>)
    ensures fresh(g) && g.Length == n
    ensures forall j :: 0 <= j < n ==> g[j] == EmptySlot(DayOf(now) - (n - 1) + j)
    ensures DistinctDates(g[..])
  {
    g := new Slot[n];
    var i := n - 1;
    while i >= 0
      invariant -1 <= i <= n - 1
      invariant forall j :: 0 <= j < n - 1 - i ==> g[j] == EmptySlot(DayOf(now) - (n - 1) + j)
    {
      g[n - 1 - i] := EmptySlot(DayOf(now) - i);
      i := i - 1;
    }
  }

  /** Whether evaluation `e` counts towards the slot of day `date` in a grid of
      `w` days: it is less than `w` whole days old and falls on that day. */
  predicate Qualifies(e: EvalRow, now: Timestamp, w: int, date: int)
  {
    DaysAgo(now, e.createdAt) < w && DayOf(e.createdAt) == date
  }

  /** A slot after it has seen evaluation `e`. */
  function Add(s: Slot, e: EvalRow, now: Timestamp, w: int): (r: Slot)
    ensures r.date == s.date
  {
    if Qualifies(e, now, w, s.date) then
      s.(score := s.score + e.score, latency := s.latency + e.latencyMs as real, count := s.count + 1)
    else s
  }

  /** A slot after it has seen every evaluation of `rows`, in order. */
  function AddAll(s: Slot, rows: seq<EvalRow>, now: Timestamp, w: int): (r: Slot)
    ensures r.date == s.date
  {
    if rows == [] then s else Add(AddAll(s, rows[..|rows| - 1], now, w), rows[|rows| - 1], now, w)
  }

  /** The lookup `trend[date]`: the slot with this key, or -1. */
  method FindSlot(g: array<Slot>, date: int) returns (idx: int)
    ensures -1 <= idx < g.Length
    ensures idx >= 0 ==> g[idx].date == date
    ensures idx < 0 ==> forall j :: 0 <= j < g.Length ==> g[j].date != date
  {
    idx := 0;
    while idx < g.Length
      invariant 0 <= idx <= g.Length
      invariant forall j :: 0 <= j < idx ==> g[j].date != date
    {
      if g[idx].date == date {
        return;
      }
      idx := idx + 1;
    }
    idx := -1;
  }

  /** One grid's part of the per-evaluation step: the evaluation is added to the
      slot of its day if it is recent enough and that day is in the grid. */
  method AddToGrid(g: array<Slot>, e: EvalRow, now: Timestamp, w: int)
    requires DistinctDates(g[..])
    modifies g
    ensures forall j :: 0 <= j < g.Length ==> g[j] == Add(old(g[j]), e, now, w)
  {
    var daysAgo := DaysAgo(now, e.createdAt);
    if daysAgo < w {
      var date := DayOf(e.createdAt);
      var idx := FindSlot(g, date);
      if idx >= 0 {
        g[idx] := g[idx].(score := g[idx].score + e.score,
                          latency := g[idx].latency + e.latencyMs as real,
                          count := g[idx].count + 1);
        assert forall j :: 0 <= j < g.Length && j != idx ==> old(g[j]).date != date by {
          forall j | 0 <= j < g.Length && j != idx ensures old(g[j]).date != date {
            assert old(g[..])[j] == old(g[j]) && old(g[..])[idx] == old(g[idx]);
          }
        }
      }
    }
  }

  /** The `forEach` over the evaluations, filling both grids. */
  method Accumulate(g7: array<Slot>, g30: array<Slot>, rows: seq<EvalRow>, now: Timestamp)
    requires g7 != g30
    requires DistinctDates(g7[..]) && DistinctDates(g30[..])
    modifies g7, g30
    ensures forall j :: 0 <= j < g7.Length ==> g7[j] == AddAll(old(g7[j]), rows, now, 7)
    ensures forall j :: 0 <= j < g30.Length ==> g30[j] == AddAll(old(g30[j]), rows, now, 30)
  {
    var i := 0;
    while i < |rows|
      invariant 0 <= i <= |rows|
      invariant forall j :: 0 <= j < g7.Length ==> g7[j] == AddAll(old(g7[j]), rows[..i], now, 7)
      invariant forall j :: 0 <= j < g30.Length ==> g30[j] == AddAll(old(g30[j]), rows[..i], now, 30)
      invariant DistinctDates(g7[..]) && DistinctDates(g30[..])
    {
      assert rows[..i + 1][..i] == rows[..i];
      AddToGrid(g7, rows[i], now, 7);
      AddToGrid(g30, rows[i], now, 30);
      i := i + 1;
    }
    assert rows[..i] == rows;
  }

  /** A slot after averaging: the mean score and the rounded mean latency, or
      the slot unchanged when it saw nothing. */
  function Averaged(s: Slot): Slot
  {
    if s.count > 0 then s.(score := s.score / s.count as real, latency := Round(s.latency / s.count as real) as real)
    else s
  }

  /** The averaging pass over a grid, in place. */
  method AverageGrid(g: array<Slot>)
    modifies g
    ensures forall j :: 0 <= j < g.Length ==> g[j] == Averaged(old(g[j]))
  {
    var j := 0;
    while j < g.Length
      invariant 0 <= j <= g.Length
      invariant forall k :: 0 <= k < j ==> g[k] == Averaged(old(g[k]))
      invariant forall k :: j <= k < g.Length ==> g[k] == old(g[k])
    {
      if g[j].count > 0 {
        g[j] := g[j].(score := g[j].score / g[j].count as real,
                      latency := Round(g[j].latency / g[j].count as real) as real);
      }
      j := j + 1;
    }
  }

  /** `fetchData`'s trend part: the 7- and 30-day series of the page. */
  method FetchTrends(rows: seq<EvalRow>, now: Timestamp) returns (trend7d: seq<Slot>, trend30d: seq<Slot>)
    ensures |trend7d| == 7 && |trend30d| == 30
    ensures forall j :: 0 <= j < 7 ==> trend7d[j] == Averaged(AddAll(EmptySlot(DayOf(now) - 6 + j), rows, now, 7))
    ensures forall j :: 0 <= j < 30 ==> trend30d[j] == Averaged(AddAll(EmptySlot(DayOf(now) - 29 + j), rows, now, 30))
  {
    var g7 := BuildGrid(now, 7);
    var g30 := BuildGrid(now, 30);
    Accumulate(g7, g30, rows, now);
    AverageGrid(g7);
    AverageGrid(g30);
    trend7d, trend30d := g7[..], g30[..];
  }

  /** What `fetchData` leaves on the page: the evaluations, the two series,
      whether a database error is shown, and whether it sent the visitor to
      the login page. */
  datatype PageState = PageState(evals: seq<EvalRow>, trend7d: seq<Slot>, trend30d: seq<Slot>,
                                 dbError: bool, toLogin: bool)

  /** `fetchData`: no user sends the visitor to log in; a failed query shows
      an error with no evaluations and no series; otherwise the newest 100
      evaluations and their day series. */
  method FetchData(rows: seq<EvalRow>, user: Option<Id>, queryFault: bool, now: Timestamp) returns (st: PageState)
    ensures user.None? ==> st == PageState([], [], [], false, true)
    ensures user.Some? && queryFault ==> st == PageState([], [], [], true, false)
    ensures user.Some? && !queryFault ==>
              && st.evals == Fetched(rows, user.value) && !st.dbError && !st.toLogin
              && |st.trend7d| == 7 && |st.trend30d| == 30
              && (forall j :: 0 <= j < 7 ==>
                    st.trend7d[j] == Averaged(AddAll(EmptySlot(DayOf(now) - 6 + j), st.evals, now, 7)))
              && (forall j :: 0 <= j < 30 ==>
                    st.trend30d[j] == Averaged(AddAll(EmptySlot(DayOf(now) - 29 + j), st.evals, now, 30)))
  {
    if user.None? {
      return PageState([], [], [], false, true);
    }
    if queryFault {
      return PageState([], [], [], true, false);
    }
    var evals := Fetched(rows, user.value);
    var t7, t30 := FetchTrends(evals, now);
    st := PageState(evals, t7, t30, false, false);
  }

  /** The evaluations that count towards the slot of day `date`, in order. */
  function Qualifying(rows: seq<EvalRow>, now: Timestamp, w: int, date: int): (q: seq<EvalRow>)
    ensures forall e :: e in q <==> e in rows && Qualifies(e, now, w, date)
  {
    if rows == [] then []
    else
      var init := Qualifying(rows[..|rows| - 1], now, w, date);
      var e := rows[|rows| - 1];
      assert rows == rows[..|rows| - 1] + [e];
      if Qualifies(e, now, w, date) then init + [e] else init
  }

  /** A slot counts each qualifying evaluation as often as the list holds it,
      and no other, in list order. */
  lemma {:induction false} QualifyingCounts(rows: seq<EvalRow>, now: Timestamp, w: int, date: int)
    ensures forall e :: multiset(Qualifying(rows, now, w, date))[e] == if Qualifies(e, now, w, date) then multiset(rows)[e] else 0
    ensures IsSubsequence(Qualifying(rows, now, w, date), rows)
  {
    if rows != [] {
      var n := |rows| - 1;
      var e := rows[n];
      var init := Qualifying(rows[..n], now, w, date);
      QualifyingCounts(rows[..n], now, w, date);
      assert rows == rows[..n] + [e];
      SelectStep(init, rows[..n], e, Qualifies(e, now, w, date));
      forall y ensures multiset(Qualifying(rows, now, w, date))[y] == if Qualifies(y, now, w, date) then multiset(rows)[y] else 0 {
        CountStep(init, rows[..n], e, Qualifies(e, now, w, date), y, Qualifies(y, now, w, date));
      }
    }
  }

  lemma SumSnoc(s: seq<real>, x: real)
    ensures Sum(s + [x]) == Sum(s) + x
  {
    assert (s + [x])[..|s|] == s;
  }

  /** Accumulation sums the scores and the latencies of the qualifying
      evaluations and counts them. */
  lemma {:induction false} AccumulatedTotals(rows: seq<EvalRow>, now: Timestamp, w: int, date: int)
    ensures var q := Qualifying(rows, now, w, date);
            AddAll(EmptySlot(date), rows, now, w) == Slot(date, Sum(Scores(q)), Sum(Latencies(q)), |q|)
  {
    if rows != [] {
      var n := |rows| - 1;
      var e := rows[n];
      AccumulatedTotals(rows[..n], now, w, date);
      var q := Qualifying(rows[..n], now, w, date);
      if Qualifies(e, now, w, date) {
        assert Scores(q + [e]) == Scores(q) + [e.score];
        assert Latencies(q + [e]) == Latencies(q) + [e.latencyMs as real];
        SumSnoc(Scores(q), e.score);
        SumSnoc(Latencies(q), e.latencyMs as real);
      }
    }
  }

  /** After averaging, a slot holds the mean score and the rounded mean latency
      of the evaluations that count towards it, and an empty slot stays 0. */
  lemma SlotMeans(rows: seq<EvalRow>, now: Timestamp, w: int, date: int)
    ensures var q := Qualifying(rows, now, w, date);
            var s := Averaged(AddAll(EmptySlot(date), rows, now, w));
            && s.date == date && s.count == |q|
            && (|q| == 0 ==> s == EmptySlot(date))
            && (|q| > 0 ==> s.score == Mean(Scores(q)) && s.latency == Round(Mean(Latencies(q))) as real)
  {
    AccumulatedTotals(rows, now, w, date);
  }

  /** In a grid as long as its age limit (7 slots and `< 7`, 30 and `< 30`) the
      age check is implied by the key lookup: an evaluation counts towards
      exactly the slot of its own day, so towards at most one slot. */
  lemma RecordInOneSlot(e: EvalRow, now: Timestamp, n: nat, j: int)
    requires 0 <= j < n
    ensures Qualifies(e, now, n, DayOf(now) - (n - 1) + j) <==> DayOf(e.createdAt) == DayOf(now) - (n - 1) + j
  {
    var first := DayOf(now) - (n - 1);
    if DayOf(e.createdAt) == first + j {
      assert e.createdAt >= first * DayMs;
      assert now < (DayOf(now) + 1) * DayMs;
      assert now - e.createdAt < n * DayMs;
      var d := DaysAgo(now, e.createdAt);
      assert d * DayMs < n * DayMs;
    }
  }

  /** An evaluation less than 7 whole days old can still fall on the day before
      the first slot, and then it is counted in no slot: one second past
      midnight of day 7, an evaluation from day 0 is 6 whole days old. */
  lemma RecentButOffGrid(e: EvalRow)
    requires e.createdAt == 3000
    ensures var now := 7 * DayMs + 1000;
            DaysAgo(now, e.createdAt) == 6
            && forall d :: DayOf(now) - 6 <= d <= DayOf(now) ==> !Qualifies(e, now, 7, d)
  {
  }

  // ---------------------------------------------------------------------------
  // KPIs of the page.

  /** The four KPI cards, before `toFixed` formatting: percentages for score,
      redaction and success, and whole milliseconds for latency. */
  datatype ClientKpis = ClientKpis(avgScorePct: real, avgLatency: int, redactionRatePct: real, successRatePct: real)

  /** The sum of the redacted-token counts. */
  function TotalRedacted(rows: seq<EvalRow>): int
  {
    if rows == [] then 0 else TotalRedacted(rows[..|rows| - 1]) + rows[|rows| - 1].piiTokensRedacted
  }

  /** The KPI expressions of the page: the server's mean score as a
      percentage, its mean latency rounded, the redacted tokens per evaluation
      (times 100, so not a fraction of evaluations) and the share of scores of
      at least 0.8 as a percentage; all 0 on an empty list. */
  function PageKpis(rows: seq<EvalRow>): (k: ClientKpis)
    ensures |rows| == 0 ==> k == ClientKpis(0.0, 0, 0.0, 0.0)
    ensures |rows| > 0 ==> k.avgScorePct == 100.0 * ServerKpis(rows).avgScore
    ensures |rows| > 0 ==> k.avgLatency == Round(ServerKpis(rows).avgLatency)
    ensures |rows| > 0 ==> k.redactionRatePct == TotalRedacted(rows) as real / |rows| as real * 100.0
    ensures |rows| > 0 ==> k.successRatePct == Fraction(CountAtLeast(rows, ClientSuccessThreshold), |rows|) * 100.0
    ensures 0.0 <= k.successRatePct <= 100.0
    ensures ScoresInUnitRange(rows) ==> 0.0 <= k.avgScorePct <= 100.0
  {
    if |rows| == 0 then ClientKpis(0.0, 0, 0.0, 0.0)
    else
      var n := |rows|;
      ClientKpis(Mean(Scores(rows)) * 100.0, Round(Mean(Latencies(rows))),
                 (TotalRedacted(rows) as real / n as real) * 100.0,
                 Fraction(CountAtLeast(rows, ClientSuccessThreshold), n) * 100.0)
  }

  /** When every evaluation redacts at most one token, the page's redaction rate
      is the server's fraction as a percentage; in general it is not. */
  lemma {:induction false} RedactionRatesAgreeOnUnitCounts(rows: seq<EvalRow>)
    requires forall i :: 0 <= i < |rows| ==> 0 <= rows[i].piiTokensRedacted <= 1
    ensures TotalRedacted(rows) == CountRedacted(rows)
    ensures PageKpis(rows).redactionRatePct == 100.0 * ServerKpis(rows).redactionRate
  {
    if rows != [] {
      RedactionRatesAgreeOnUnitCounts(rows[..|rows| - 1]);
    }
  }

  /** One evaluation with three redacted tokens: 300% on the page, 1.0 on the
      server. */
  lemma RedactionRatesDiffer(e: EvalRow)
    requires e.piiTokensRedacted == 3
    ensures PageKpis([e]).redactionRatePct == 300.0
    ensures ServerKpis([e]).redactionRate == 1.0
  {
    assert [e][..0] == [];
    assert TotalRedacted([e]) == 3;
    assert CountRedacted([e]) == 1;
  }

  lemma {:induction false} CountAtLeastMonotone(rows: seq<EvalRow>, lo: real, hi: real)
    requires lo <= hi
    ensures CountAtLeast(rows, hi) <= CountAtLeast(rows, lo)
  {
    if rows != [] {
      CountAtLeastMonotone(rows[..|rows| - 1], lo, hi);
    }
  }

  lemma FractionMonotone(a: nat, b: nat, n: nat)
    requires a <= b <= n && n > 0
    ensures Fraction(a, n) <= Fraction(b, n)
  {
    var inv := 1.0 / n as real;
    assert inv > 0.0;
    assert Fraction(a, n) == a as real * inv;
    assert Fraction(b, n) == b as real * inv;
    assert b as real * inv - a as real * inv == (b - a) as real * inv;
    assert (b - a) as real * inv >= 0.0;
  }

  /** The page's success rate never exceeds the server's (as a percentage):
      its threshold is stricter. */
  lemma ClientSuccessStricter(rows: seq<EvalRow>)
    requires |rows| > 0
    ensures PageKpis(rows).successRatePct <= 100.0 * ServerKpis(rows).successRate
  {
    var n := |rows|;
    var c8, c7 := CountAtLeast(rows, ClientSuccessThreshold), CountAtLeast(rows, ServerSuccessThreshold);
    CountAtLeastMonotone(rows, ServerSuccessThreshold, ClientSuccessThreshold);
    FractionMonotone(c8, c7, n);
    assert ServerKpis(rows).successRate == Fraction(c7, n);
  }

  // ---------------------------------------------------------------------------
  // Search filter.

  /** Some flag contains `t`. */
  predicate AnyFlagContains(flags: seq<string>, t: string)
  {
    flags != [] && (Contains(Lower(flags[0]), t) || AnyFlagContains(flags[1..], t))
  }

  /** The filter condition of the page for the lower-cased term `t`. */
  predicate Hit(e: EvalRow, t: string)
  {
    Contains(Lower(e.interactionId), t) || Contains(Lower(e.prompt), t) || AnyFlagContains(e.flags, t)
  }

  /** `filteredEvals`: the evaluations whose interaction id, prompt or some flag
      contains the search term, ignoring case, in their order. */
  function FilterEvals(rows: seq<EvalRow>, term: string): (r: seq<EvalRow>)
    ensures forall e :: e in r <==> e in rows && Hit(e, Lower(term))
    ensures IsSubsequence(r, rows)
  {
    if rows == [] then []
    else
      var init := FilterEvals(rows[..|rows| - 1], term);
      var e := rows[|rows| - 1];
      assert rows == rows[..|rows| - 1] + [e];
      SelectStep(init, rows[..|rows| - 1], e, Hit(e, Lower(term)));
      if Hit(e, Lower(term)) then init + [e] else init
  }

  /** An empty search keeps every evaluation. */
  lemma {:induction false} EmptyTermKeepsAll(rows: seq<EvalRow>)
    ensures FilterEvals(rows, "") == rows
  {
    if rows != [] {
      var n := |rows| - 1;
      EmptyTermKeepsAll(rows[..n]);
      EmptyTermHits(rows[n]);
      assert rows[..n] + [rows[n]] == rows;
    }
  }

  lemma EmptyTermHits(e: EvalRow)
    ensures Hit(e, Lower(""))
  {
    ContainsEmpty(Lower(e.interactionId));
    assert Lower("") == "";
  }
}
