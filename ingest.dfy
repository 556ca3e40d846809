/** The admission pipeline of the evaluation ingest route (`POST
    /api/evals/ingest` of the Next application): authentication, payload
    validation, a fail-closed settings read, sampling, the daily quota, and the
    insert with its defaults. */
module IngestRoute {
  import opened Common
  import opened Schema
  import opened Aggregation
  import opened Storage

  /** The error code of `.single()` when the query does not return exactly one row. */
  const NoRowCode: string := "PGRST116"

  /** The `created_at` of a payload: missing, the empty string, a string the
      database reads as the instant `t`, or one it cannot read. */
  datatype CreatedAtField = Missing | Empty | Readable(t: Timestamp) | Unreadable(s: string)

  /** The JSON payload; a missing key is `None`. */
  datatype Payload = Payload(
    interactionId: Option<string>,
    prompt: Option<string>,
    response: Option<string>,
    score: Option<real>,
    latencyMs: Option<int>,
    flags: Option<seq<string>>,
    piiTokensRedacted: Option<int>,
    createdAt: CreatedAtField)

  /** The answer of the settings query: the row's policy, or an error code. */
  datatype SettingsRead = SettingsRead(data: Option<Policy>, error: Option<string>)

  /** The answer of the count query. */
  datatype CountRead = CountRead(count: nat, failed: bool)

  /** The outcomes of the route, in the order its checks run. */
  datatype Admission =
    | Unauthorized
    | MissingFields
    | ScoreOutOfRange
    | SettingsFailed
    | SampledOut
    | CountFailed
    | LimitReached
    | SaveFailed
    | Created(row: NewEval)

  function Status(a: Admission): int
  {
    match a
    case Unauthorized => 401
    case MissingFields => 400
    case ScoreOutOfRange => 400
    case SettingsFailed => 500
    case SampledOut => 202
    case CountFailed => 500
    case LimitReached => 429
    case SaveFailed => 500
    case Created(_) => 201
  }

  /** JavaScript truthiness of an optional string. */
  predicate Filled(s: Option<string>)
  {
    s.Some? && s.value != ""
  }

  /** The required-fields check: the three texts non-empty, a score present, and
      a latency present and non-zero. */
  predicate Complete(p: Payload)
  {
    Filled(p.interactionId) && Filled(p.prompt) && Filled(p.response) && p.score.Some?
    && p.latencyMs.Some? && p.latencyMs.value != 0
  }

  predicate ScoreInRange(p: Payload)
    requires p.score.Some?
  {
    0.0 <= p.score.value <= 1.0
  }

  /** The payload passes both validation steps. */
  predicate Admissible(user: Option<Id>, p: Payload)
  {
    user.Some? && Complete(p) && ScoreInRange(p)
  }

  /** A settings error other than "no row" stops the route. */
  predicate ReadFailed(s: SettingsRead)
  {
    s.error.Some? && s.error.value != NoRowCode
  }

  /** The sampling check: it applies to a `sampled` policy and rejects a draw
      above the sample rate. */
  predicate Sampled(s: SettingsRead, draw: real)
  {
    s.data.Some? && s.data.value.runPolicy == SampledRunPolicy && draw > s.data.value.sampleRatePct as real
  }

  /** The quota check `count && count >= max`: a count of 0 is falsy. */
  predicate OverQuota(count: nat, max: int)
  {
    count != 0 && count >= max
  }

  /** The timestamp written for `created_at`: the payload's, or `now` for a
      missing or empty string; `None` for a string the database cannot read. */
  function CreatedAtValue(f: CreatedAtField, now: Timestamp): Option<Timestamp>
  {
    match f
    case Missing => Some(now)
    case Empty => Some(now)
    case Readable(t) => Some(t)
    case Unreadable(_) => None
  }

  /** The row inserted for a valid payload: the five required fields copied,
      `flags` defaulting to `[]` and `pii_tokens_redacted` to 0 (both by
      truthiness, so an explicit 0 stays 0). */
  function Inserted(userId: Id, p: Payload, createdAt: Timestamp): (e: NewEval)
    requires Complete(p)
    ensures e.userId == userId && e.interactionId == p.interactionId.value && e.prompt == p.prompt.value
    ensures e.response == p.response.value && e.score == p.score.value && e.latencyMs == p.latencyMs.value
    ensures e.flags == (if p.flags.Some? then p.flags.value else [])
    ensures e.piiTokensRedacted == (if p.piiTokensRedacted.Some? then p.piiTokensRedacted.value else 0)
    ensures e.createdAt == createdAt
  {
    NewEval(userId, p.interactionId.value, p.prompt.value, p.response.value, p.score.value, p.latencyMs.value,
            OrElse(p.flags, []), OrElse(p.piiTokensRedacted, 0), createdAt)
  }

  /** The decision of the route. `settings` and `count` are the answers the two
      queries would give, `draw` is `Math.random() * 100`, and `insertFails`
      says whether the database refuses the insert. */
  function Admit(user: Option<Id>, p: Payload, settings: SettingsRead, draw: real, count: CountRead,
                 insertFails: bool, now: Timestamp): (a: Admission)
    ensures a.Unauthorized? <==> user.None?
    ensures a.MissingFields? <==> user.Some? && !Complete(p)
    ensures a.ScoreOutOfRange? <==> user.Some? && Complete(p) && !ScoreInRange(p)
    ensures a.SettingsFailed? <==> Admissible(user, p) && ReadFailed(settings)
    ensures a.SampledOut? <==> Admissible(user, p) && !ReadFailed(settings) && Sampled(settings, draw)
    ensures a.CountFailed? <==>
              Admissible(user, p) && !ReadFailed(settings) && !Sampled(settings, draw) && settings.data.Some? && count.failed
    ensures a.LimitReached? <==>
              Admissible(user, p) && !ReadFailed(settings) && !Sampled(settings, draw) && settings.data.Some?
              && !count.failed && OverQuota(count.count, settings.data.value.maxEvalPerDay)
    ensures a.Created? ==> Admissible(user, p) && !insertFails && CreatedAtValue(p.createdAt, now).Some?
                           && a.row == Inserted(user.value, p, CreatedAtValue(p.createdAt, now).value)
    ensures a.SaveFailed? ==> Admissible(user, p) && (insertFails || CreatedAtValue(p.createdAt, now).None?)
    ensures a.Created? || a.SaveFailed? <==>
              Admissible(user, p) && !ReadFailed(settings) && !Sampled(settings, draw)
              && (settings.data.Some? ==> !count.failed && !OverQuota(count.count, settings.data.value.maxEvalPerDay))
  {
    if user.None? then Unauthorized
    else if !Complete(p) then MissingFields
    else if !ScoreInRange(p) then ScoreOutOfRange
    else if ReadFailed(settings) then SettingsFailed
    else if Sampled(settings, draw) then SampledOut
    else if settings.data.Some? && count.failed then CountFailed
    else if settings.data.Some? && OverQuota(count.count, settings.data.value.maxEvalPerDay) then LimitReached
    else
      var createdAt := CreatedAtValue(p.createdAt, now);
      if createdAt.None? || insertFails then SaveFailed
      else Created(Inserted(user.value, p, createdAt.value))
  }

  /** The bounds 0 and 1 are accepted scores. */
  lemma ScoreBoundsInclusive(p: Payload)
    requires Complete(p) && (p.score.value == 0.0 || p.score.value == 1.0)
    ensures ScoreInRange(p)
  {
  }

  /** A latency of 0 counts as missing. */
  lemma ZeroLatencyIsMissing(user: Id, p: Payload, settings: SettingsRead, draw: real, count: CountRead,
                             insertFails: bool, now: Timestamp)
    requires p.latencyMs == Some(0)
    ensures Admit(Some(user), p, settings, draw, count, insertFails, now) == MissingFields
  {
  }

  /** Validation runs before any query: a payload it refuses gets the same answer
      whatever the database and the draw would have said. */
  lemma ValidationPrecedesReads(user: Option<Id>, p: Payload, s1: SettingsRead, s2: SettingsRead, d1: real, d2: real,
                                c1: CountRead, c2: CountRead, f1: bool, f2: bool, now: Timestamp)
    requires !Admissible(user, p)
    ensures Admit(user, p, s1, d1, c1, f1, now) == Admit(user, p, s2, d2, c2, f2, now)
  {
  }

  /** Without a settings row (or with two, which `.single()` also reports as
      "no row") neither sampling nor the quota applies: the draw and the count are
      never consulted. */
  lemma NoSettingsSkipsChecks(user: Option<Id>, p: Payload, settings: SettingsRead, d1: real, d2: real,
                              c1: CountRead, c2: CountRead, insertFails: bool, now: Timestamp)
    requires settings.data.None?
    ensures Admit(user, p, settings, d1, c1, insertFails, now) == Admit(user, p, settings, d2, c2, insertFails, now)
    ensures Admit(user, p, settings, d1, c1, insertFails, now) !in {SampledOut, CountFailed, LimitReached}
  {
  }

  /** A sampled-out evaluation is decided before the count query and the insert. */
  lemma SampledOutBeforeCount(user: Option<Id>, p: Payload, settings: SettingsRead, draw: real,
                              c1: CountRead, c2: CountRead, f1: bool, f2: bool, now: Timestamp)
    requires Admit(user, p, settings, draw, c1, f1, now) == SampledOut
    ensures Admit(user, p, settings, draw, c2, f2, now) == SampledOut
  {
  }

  /** At a sample rate of 100 a draw in [0, 100) is never sampled out. */
  lemma FullRateNeverSamples(s: SettingsRead, draw: real)
    requires s.data.Some? && s.data.value.sampleRatePct == 100
    requires 0.0 <= draw < 100.0
    ensures !Sampled(s, draw)
  {
  }

  /** A count of 0 never hits the quota, even with a cap of 0; any other count
      hits it exactly when it reaches the cap. */
  lemma QuotaExact(count: nat, max: int)
    ensures count == 0 ==> !OverQuota(count, max)
    ensures count > 0 ==> (OverQuota(count, max) <==> count >= max)
  {
  }

  /** Only the last outcome writes a row. */
  lemma OnlyCreatedIs201(a: Admission)
    ensures Status(a) == 201 <==> a.Created?
  {
  }

  // ---------------------------------------------------------------------------
  // The route against the store.

  /** `.single()` on the user's settings rows: the one row, or "no row" for none
      and for several. */
  function SingleSettings(rows: seq<SettingsRow>, userId: Id): (r: SettingsRead)
    ensures r.error.None? <==> |SettingsOf(rows, userId)| == 1
    ensures r.data.Some? ==> exists s :: s in rows && s.userId == userId && s.policy == r.data.value
    ensures |SettingsOf(rows, userId)| == 1 ==> r == SettingsRead(Some(SettingsOf(rows, userId)[0].policy), None)
    ensures |SettingsOf(rows, userId)| != 1 ==> r == SettingsRead(None, Some(NoRowCode))
  {
    var mine := SettingsOf(rows, userId);
    if |mine| == 1 then
      assert mine[0] in mine;
      SettingsRead(Some(mine[0].policy), None)
    else SettingsRead(None, Some(NoRowCode))
  }

  /** The settings answer: a database fault, or `.single()` over the table. */
  function SettingsAnswer(rows: seq<SettingsRow>, userId: Id, fault: Option<string>): SettingsRead
  {
    if fault.Some? then SettingsRead(None, fault) else SingleSettings(rows, userId)
  }

  /** A user without a settings row is admitted without sampling or quota: with
      no database fault, a valid payload with a readable date is inserted. */
  lemma NoSettingsRowInserts(rows: seq<SettingsRow>, userId: Id, p: Payload, draw: real, count: CountRead,
                             now: Timestamp)
    requires SettingsOf(rows, userId) == []
    requires Admissible(Some(userId), p) && CreatedAtValue(p.createdAt, now).Some?
    ensures Admit(Some(userId), p, SettingsAnswer(rows, userId, None), draw, count, false, now)
            == Created(Inserted(userId, p, CreatedAtValue(p.createdAt, now).value))
  {
  }

  /** The evaluations this user created since the start of today. */
  function CountToday(rows: seq<EvalRow>, userId: Id, now: Timestamp): nat
  {
    |OwnedSince(rows, userId, StartOfDay(now))|
  }

  /** `POST`: runs the pipeline against the store. `settingsFault` and
      `countFault` are database errors of the two queries, `insertFault` one of
      the insert. A row is appended exactly when the outcome is `Created`. */
  method Post(st: Store, user: Option<Id>, p: Payload, draw: real, settingsFault: Option<string>,
              countFault: bool, insertFault: bool, now: Timestamp) returns (a: Admission)
    requires st.Valid()
    modifies st
    ensures st.Valid()
    ensures user.Some? ==>
              a == Admit(user, p, SettingsAnswer(old(st.settings), user.value, settingsFault), draw,
                         CountRead(CountToday(old(st.evals), user.value, now), countFault),
                         insertFault || user.value !in old(st.UserIds()), now)
    ensures user.None? ==> a == Unauthorized
    ensures user.Some? && user.value in old(st.UserIds()) && SettingsOf(old(st.settings), user.value) == []
            && Admissible(user, p) && CreatedAtValue(p.createdAt, now).Some? && settingsFault.None? && !insertFault
            ==> a == Created(Inserted(user.value, p, CreatedAtValue(p.createdAt, now).value))
    ensures a.Created? ==> st.evals == old(st.evals) + [Persisted(old(st.nextId), a.row)]
    ensures !a.Created? ==> st.evals == old(st.evals)
    ensures st.users == old(st.users) && st.settings == old(st.settings)
  {
    if user.None? {
      return Unauthorized;
    }
    var userId := user.value;
    if !Complete(p) {
      return MissingFields;
    }
    if !ScoreInRange(p) {
      return ScoreOutOfRange;
    }
    var settings := SettingsAnswer(st.settings, userId, settingsFault);
    if ReadFailed(settings) {
      return SettingsFailed;
    }
    if Sampled(settings, draw) {
      return SampledOut;
    }
    if settings.data.Some? {
      var count := CountRead(CountToday(st.evals, userId, now), countFault);
      if count.failed {
        return CountFailed;
      }
      if OverQuota(count.count, settings.data.value.maxEvalPerDay) {
        return LimitReached;
      }
    }
    var createdAt := CreatedAtValue(p.createdAt, now);
    if createdAt.None? {
      return SaveFailed;
    }
    var e := Inserted(userId, p, createdAt.value);
    var saved := st.CreateEval(e, insertFault);
    if saved.Err? {
      return SaveFailed;
    }
    a := Created(e);
  }
}
