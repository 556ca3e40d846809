/** The stored entities (the `users`, `eval_settings` and `evals` tables), their
    column defaults, and the two insert schemas that validate request bodies. */
module Schema {
  import opened Common

  /** Row identifiers. The tables use random UUIDs; the model numbers rows instead. */
  type Id = nat

  // Column defaults of `eval_settings`.
  const AlwaysRunPolicy: string := "always"
  const SampledRunPolicy: string := "sampled"
  const DefaultSampleRatePct: int := 100
  const DefaultObfuscatePii: bool := false
  const DefaultMaxEvalPerDay: int := 10000

  /** The policy columns of `eval_settings`. The columns are plain text, integer,
      boolean and integer: the documented ranges (`always` or `sampled`, 0 to 100)
      are not enforced anywhere. */
  datatype Policy = Policy(runPolicy: string, sampleRatePct: int, obfuscatePii: bool, maxEvalPerDay: int)

  const DefaultPolicy: Policy :=
    Policy(AlwaysRunPolicy, DefaultSampleRatePct, DefaultObfuscatePii, DefaultMaxEvalPerDay)

  datatype User = User(id: Id, email: string)

  datatype SettingsRow = SettingsRow(id: Id, userId: Id, policy: Policy, createdAt: Timestamp, updatedAt: Timestamp)

  datatype EvalRow = EvalRow(
    id: Id,
    userId: Id,
    interactionId: string,
    prompt: string,
    response: string,
    score: real,
    latencyMs: int,
    flags: seq<string>,
    piiTokensRedacted: int,
    createdAt: Timestamp)

  /** The column values of an `evals` insert; the store adds the `id`. */
  datatype NewEval = NewEval(
    userId: Id,
    interactionId: string,
    prompt: string,
    response: string,
    score: real,
    latencyMs: int,
    flags: seq<string>,
    piiTokensRedacted: int,
    createdAt: Timestamp)

  function Persisted(id: Id, e: NewEval): (r: EvalRow)
    ensures r.id == id
    ensures r.userId == e.userId && r.interactionId == e.interactionId && r.prompt == e.prompt
    ensures r.response == e.response && r.score == e.score && r.latencyMs == e.latencyMs
    ensures r.flags == e.flags && r.piiTokensRedacted == e.piiTokensRedacted && r.createdAt == e.createdAt
  {
    EvalRow(id, e.userId, e.interactionId, e.prompt, e.response, e.score, e.latencyMs,
            e.flags, e.piiTokensRedacted, e.createdAt)
  }

  // ---------------------------------------------------------------------------
  // Request bodies.

  /** A JSON value as the insert schemas see it: `Absent` is a missing key, `Int`
      and `Frac` are numbers with and without a fractional part. */
  datatype Json =
    | Absent
    | Null
    | Bool(b: bool)
    | Int(i: int)
    | Frac(r: real)
    | Str(s: string)
    | StrArray(items: seq<string>)
    | Other

  /** The `createdAt` value of an evaluation body: a missing key, a value that is
      not a string, a string that JavaScript's `Date` reads as the instant `t`, or
      a string it cannot read. */
  datatype DateJson = NoDate | NotAString | DateString(t: Timestamp) | BadDateString(s: string)

  /** The keys of a settings body that `insertEvalSettingsSchema` keeps. It omits
      `id`, `userId`, `createdAt` and `updatedAt`, and strips unknown keys, so a
      body cannot choose them. */
  datatype SettingsBody = SettingsBody(runPolicy: Json, sampleRatePct: Json, obfuscatePii: Json, maxEvalPerDay: Json)

  /** A settings body that passed the schema: each policy column is optional
      because each has a column default. */
  datatype PolicyPatch = PolicyPatch(
    runPolicy: Option<string>,
    sampleRatePct: Option<int>,
    obfuscatePii: Option<bool>,
    maxEvalPerDay: Option<int>)

  function OptString(j: Json): Result<Option<string>, string>
  {
    match j
    case Absent => Ok(None)
    case Str(s) => Ok(Some(s))
    case _ => Err("expected string")
  }

  function OptInt(j: Json): Result<Option<int>, string>
  {
    match j
    case Absent => Ok(None)
    case Int(i) => Ok(Some(i))
    case _ => Err("expected integer")
  }

  function OptBool(j: Json): Result<Option<bool>, string>
  {
    match j
    case Absent => Ok(None)
    case Bool(b) => Ok(Some(b))
    case _ => Err("expected boolean")
  }

  /** `insertEvalSettingsSchema.parse`. */
  function ParseSettings(b: SettingsBody): (r: Result<PolicyPatch, string>)
    ensures r.Ok? <==>
              ((b.runPolicy.Absent? || b.runPolicy.Str?)
               && (b.sampleRatePct.Absent? || b.sampleRatePct.Int?)
               && (b.obfuscatePii.Absent? || b.obfuscatePii.Bool?)
               && (b.maxEvalPerDay.Absent? || b.maxEvalPerDay.Int?))
    ensures r.Ok? && b.sampleRatePct.Int? ==> r.value.sampleRatePct == Some(b.sampleRatePct.i)
    ensures r.Ok? && b.maxEvalPerDay.Int? ==> r.value.maxEvalPerDay == Some(b.maxEvalPerDay.i)
    ensures r.Ok? && b.runPolicy.Str? ==> r.value.runPolicy == Some(b.runPolicy.s)
    ensures r.Ok? && b.obfuscatePii.Bool? ==> r.value.obfuscatePii == Some(b.obfuscatePii.b)
    ensures r.Ok? ==> (r.value.runPolicy.None? <==> b.runPolicy.Absent?) && (r.value.sampleRatePct.None? <==> b.sampleRatePct.Absent?)
                      && (r.value.obfuscatePii.None? <==> b.obfuscatePii.Absent?) && (r.value.maxEvalPerDay.None? <==> b.maxEvalPerDay.Absent?)
  {
    var runPolicy := OptString(b.runPolicy);
    var rate := OptInt(b.sampleRatePct);
    var obfuscate := OptBool(b.obfuscatePii);
    var cap := OptInt(b.maxEvalPerDay);
    if runPolicy.Err? then Err("runPolicy: " + runPolicy.error)
    else if rate.Err? then Err("sampleRatePct: " + rate.error)
    else if obfuscate.Err? then Err("obfuscatePii: " + obfuscate.error)
    else if cap.Err? then Err("maxEvalPerDay: " + cap.error)
    else Ok(PolicyPatch(runPolicy.value, rate.value, obfuscate.value, cap.value))
  }

  function OrElse<T>(o: Option<T>, d: T): T
  {
    if o.Some? then o.value else d
  }

  /** An insert: columns the body leaves out take their column defaults. */
  function InsertedPolicy(p: PolicyPatch): (r: Policy)
    ensures p == PolicyPatch(None, None, None, None) ==> r == DefaultPolicy
    ensures r.runPolicy == (if p.runPolicy.Some? then p.runPolicy.value else AlwaysRunPolicy)
    ensures r.sampleRatePct == (if p.sampleRatePct.Some? then p.sampleRatePct.value else DefaultSampleRatePct)
    ensures r.obfuscatePii == (if p.obfuscatePii.Some? then p.obfuscatePii.value else DefaultObfuscatePii)
    ensures r.maxEvalPerDay == (if p.maxEvalPerDay.Some? then p.maxEvalPerDay.value else DefaultMaxEvalPerDay)
  {
    Policy(OrElse(p.runPolicy, AlwaysRunPolicy), OrElse(p.sampleRatePct, DefaultSampleRatePct),
           OrElse(p.obfuscatePii, DefaultObfuscatePii), OrElse(p.maxEvalPerDay, DefaultMaxEvalPerDay))
  }

  /** An update: only the columns the body provides change. */
  function UpdatedPolicy(was: Policy, p: PolicyPatch): (r: Policy)
    ensures p == PolicyPatch(None, None, None, None) ==> r == was
    ensures r.runPolicy == (if p.runPolicy.Some? then p.runPolicy.value else was.runPolicy)
    ensures r.sampleRatePct == (if p.sampleRatePct.Some? then p.sampleRatePct.value else was.sampleRatePct)
    ensures r.obfuscatePii == (if p.obfuscatePii.Some? then p.obfuscatePii.value else was.obfuscatePii)
    ensures r.maxEvalPerDay == (if p.maxEvalPerDay.Some? then p.maxEvalPerDay.value else was.maxEvalPerDay)
  {
    Policy(OrElse(p.runPolicy, was.runPolicy), OrElse(p.sampleRatePct, was.sampleRatePct),
           OrElse(p.obfuscatePii, was.obfuscatePii), OrElse(p.maxEvalPerDay, was.maxEvalPerDay))
  }

  /** The keys of an evaluation body that `insertEvalSchema` keeps. It omits `id`
      and `userId`. */
  datatype EvalBody = EvalBody(
    interactionId: Json,
    prompt: Json,
    response: Json,
    score: Json,
    latencyMs: Json,
    flags: Json,
    piiTokensRedacted: Json,
    createdAt: DateJson)

  /** An evaluation body that passed the schema. `createdAt` is `None` when the
      string is not a date (JavaScript's invalid `Date`). */
  datatype EvalInsert = EvalInsert(
    interactionId: string,
    prompt: string,
    response: string,
    score: real,
    latencyMs: int,
    flags: Option<seq<string>>,
    piiTokensRedacted: Option<int>,
    createdAt: Option<Timestamp>)

  /** `insertEvalSchema.parse`: the text columns, `score`, `latencyMs` and
      `createdAt` are required; `flags` and `piiTokensRedacted` are optional
      because they have column defaults. No range is checked. */
  function ParseEval(b: EvalBody): (r: Result<EvalInsert, string>)
    ensures r.Ok? <==>
              (b.interactionId.Str? && b.prompt.Str? && b.response.Str?
               && (b.score.Int? || b.score.Frac?) && b.latencyMs.Int?
               && (b.flags.Absent? || b.flags.StrArray?)
               && (b.piiTokensRedacted.Absent? || b.piiTokensRedacted.Int?)
               && (b.createdAt.DateString? || b.createdAt.BadDateString?))
    ensures r.Ok? && b.score.Frac? ==> r.value.score == b.score.r
    ensures r.Ok? && b.score.Int? ==> r.value.score == b.score.i as real
    ensures r.Ok? ==> r.value.latencyMs == b.latencyMs.i
    ensures r.Ok? ==> r.value.interactionId == b.interactionId.s && r.value.prompt == b.prompt.s
                      && r.value.response == b.response.s
    ensures r.Ok? ==> (r.value.createdAt.Some? <==> b.createdAt.DateString?)
    ensures r.Ok? && b.createdAt.DateString? ==> r.value.createdAt == Some(b.createdAt.t)
    ensures r.Ok? ==> r.value.flags == (if b.flags.StrArray? then Some(b.flags.items) else None)
    ensures r.Ok? ==> r.value.piiTokensRedacted == (if b.piiTokensRedacted.Int? then Some(b.piiTokensRedacted.i) else None)
  {
    if !b.interactionId.Str? then Err("interactionId: expected string")
    else if !b.prompt.Str? then Err("prompt: expected string")
    else if !b.response.Str? then Err("response: expected string")
    else if !(b.score.Int? || b.score.Frac?) then Err("score: expected number")
    else if !b.latencyMs.Int? then Err("latencyMs: expected integer")
    else if !(b.flags.Absent? || b.flags.StrArray?) then Err("flags: expected array of strings")
    else if !(b.piiTokensRedacted.Absent? || b.piiTokensRedacted.Int?) then Err("piiTokensRedacted: expected integer")
    else if !(b.createdAt.DateString? || b.createdAt.BadDateString?) then Err("createdAt: expected string")
    else
      Ok(EvalInsert(
           b.interactionId.s, b.prompt.s, b.response.s,
           if b.score.Int? then b.score.i as real else b.score.r,
           b.latencyMs.i,
           if b.flags.StrArray? then Some(b.flags.items) else None,
           if b.piiTokensRedacted.Int? then Some(b.piiTokensRedacted.i) else None,
           if b.createdAt.DateString? then Some(b.createdAt.t) else None))
  }

  /** The columns written for a parsed evaluation: `flags` defaults to the empty
      array and `piiTokensRedacted` to 0; `createdAt` has no default. */
  function InsertedEval(userId: Id, e: EvalInsert): (r: Option<NewEval>)
    ensures r.Some? <==> e.createdAt.Some?
    ensures r.Some? ==> r.value.userId == userId && r.value.createdAt == e.createdAt.value
    ensures r.Some? ==> r.value.interactionId == e.interactionId && r.value.prompt == e.prompt
                        && r.value.response == e.response && r.value.score == e.score
                        && r.value.latencyMs == e.latencyMs
    ensures r.Some? ==> r.value.flags == (if e.flags.Some? then e.flags.value else [])
    ensures r.Some? ==> r.value.piiTokensRedacted == (if e.piiTokensRedacted.Some? then e.piiTokensRedacted.value else 0)
  {
    if e.createdAt.None? then None
    else Some(NewEval(userId, e.interactionId, e.prompt, e.response, e.score, e.latencyMs,
                      OrElse(e.flags, []), OrElse(e.piiTokensRedacted, 0), e.createdAt.value))
  }

  /** On the schema path a body that leaves out `flags` or `piiTokensRedacted`
      is stored with `[]` or 0, and one that gives them is stored with its own. */
  lemma EvalColumnDefaults(userId: Id, b: EvalBody)
    requires ParseEval(b).Ok? && b.createdAt.DateString?
    ensures InsertedEval(userId, ParseEval(b).value).Some?
    ensures InsertedEval(userId, ParseEval(b).value).value.flags == (if b.flags.Absent? then [] else b.flags.items)
    ensures InsertedEval(userId, ParseEval(b).value).value.piiTokensRedacted
            == (if b.piiTokensRedacted.Absent? then 0 else b.piiTokensRedacted.i)
  {
  }

  /** The schema requires `createdAt`: a body without it is refused. */
  lemma CreatedAtRequired(b: EvalBody)
    requires b.createdAt.NoDate?
    ensures ParseEval(b).Err?
  {
  }

  /** The documented ranges are not enforced: a sample rate of 250, an unknown run
      policy and a score of 5 all pass the schemas. */
  lemma RangesNotEnforced()
    ensures ParseSettings(SettingsBody(Str("weekly"), Int(250), Absent, Int(-1))).Ok?
    ensures ParseEval(EvalBody(Str(""), Str(""), Str(""), Int(5), Int(-3), Absent, Absent, DateString(0))).Ok?
  {
  }
}
