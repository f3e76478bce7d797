/**
 * The token lifecycle of TokenManager as functions from the state before a
 * call to the state after it and the call's result. The state is the tokens
 * table, the limiter backend, the log of dispatched events and the number of
 * generate() calls made so far; `now` is the clock reading of the call.
 */
module Lifecycle {
  import opened Wrappers
  import opened TokenEntity
  import opened Errors
  import opened Repository
  import opened RateLimiter
  import opened Tokens

  const SecondsPerMinute := 60
  const MaxTokenLength := 255

  /** A token type given by its defined name or as a Token object. */
  datatype TokenRef = ByName(name: string) | ByObject(tokenType: TokenType)

  /** The token string a caller hands in: a string, or any other PHP value. */
  datatype TokenInput = Text(text: string) | NotText

  /** What the caller's callback does when it runs: return false, return anything else, or throw. */
  datatype Callback = ReturnsFalse | Returns | Throws(reason: string)

  /** TokenCreated and TokenUsed, with the row and the type name. */
  datatype Event = Created(token: Token, typeName: string) | Used(token: Token, typeName: string)

  /** The manager's configuration: definitions, defaults, the container's classes, the generation budget. */
  datatype Setup = Setup(tokens: map<string, Overrides>, defaults: Options, classes: map<string, Instance>, generationAttempts: int)

  /**
   * `draws` counts the generate() calls made so far: the k-th call of a
   * generator answers `next(k)`, so no call sees a string again unless the
   * generator itself repeats it.
   */
  datatype State = State(rows: seq<Token>, nextId: nat, windows: Windows, events: seq<Event>, draws: nat)

  datatype Step<T> = Step(state: State, result: Result<T>)

  /** A checked throttle: the limiter key, at least one attempt, and the window length in seconds. */
  datatype Settings = Settings(key: string, attempts: int, decay: int)

  predicate WellFormed(st: State)
  {
    TableInvariant(st.rows, st.nextId)
  }

  /** resolveToken: a Token object is used as is; a name must be defined and becomes an OptionsToken. */
  function ResolveToken(s: Setup, ref: TokenRef, ip: string): (r: Result<TokenType>)
    ensures r.Err? <==> ref.ByName? && ref.name !in s.tokens
    ensures r.Err? ==> r.error == NotDefined(ref.name)
    ensures ref.ByObject? ==> r == Ok(ref.tokenType)
    ensures ref.ByName? && r.Ok? ==>
      r.value == OptionsToken(ref.name, s.tokens[ref.name], s.defaults, ip, s.classes)
    ensures ref.ByName? && r.Ok? ==>
      r.value.name == ref.name && r.value.generationLimit.Some? && r.value.usageLimit.Some? &&
      r.value.generationLimit.value.key == GenerationLimiterKey(ref.name, ip) &&
      r.value.usageLimit.value.key == UsageLimiterKey(ref.name, ip)
  {
    match ref
    case ByObject(t) => Ok(t)
    case ByName(name) =>
      if name !in s.tokens then Err(NotDefined(name))
      else Ok(OptionsToken(name, s.tokens[name], s.defaults, ip, s.classes))
  }

  /**
   * getExpirationDate: an interval is added to now, a positive int counts
   * minutes from now, a moment must lie strictly in the future.
   */
  function ExpirationDate(ttl: Lifetime, name: string, now: int): (r: Result<int>)
    ensures r.Ok? <==> ttl.Interval? || (ttl.Minutes? && ttl.minutes > 0) || (ttl.Moment? && ttl.at > now)
    ensures r.Err? ==> r.error == InvalidTtl(name)
    ensures r.Ok? && !ttl.Interval? ==> r.value > now
    ensures r.Ok? && ttl.Minutes? ==> r.value == now + SecondsPerMinute * ttl.minutes
    ensures r.Ok? && ttl.Interval? ==> r.value == now + ttl.seconds
    ensures r.Ok? && ttl.Moment? ==> r.value == ttl.at
  {
    match ttl
    case Interval(d) => Ok(now + d)
    case Minutes(m) => if m > 0 then Ok(now + SecondsPerMinute * m) else Err(InvalidTtl(name))
    case Moment(at) => if at > now then Ok(at) else Err(InvalidTtl(name))
    case Unrecognised => Err(InvalidTtl(name))
  }

  /**
   * parseInterval: the window length in seconds. A positive int counts
   * minutes, an interval is taken as it is, a future moment gives the time
   * left until it.
   */
  function ParseInterval(interval: Lifetime, now: int): (r: Result<int>)
    ensures r.Ok? <==>
      interval.Interval? || (interval.Minutes? && interval.minutes > 0) || (interval.Moment? && interval.at > now)
    ensures r.Err? ==> r.error == InvalidInterval
    ensures r.Ok? && !interval.Interval? ==> r.value > 0
    ensures r.Ok? && interval.Minutes? ==> r.value == SecondsPerMinute * interval.minutes
    ensures r.Ok? && interval.Interval? ==> r.value == interval.seconds
    ensures r.Ok? && interval.Moment? ==> now + r.value == interval.at
  {
    match interval
    case Minutes(m) => if m > 0 then Ok(SecondsPerMinute * m) else Err(InvalidInterval)
    case Interval(d) => Ok(d)
    case Moment(at) => if at > now then Ok(at - now) else Err(InvalidInterval)
    case Unrecognised => Err(InvalidInterval)
  }

  /** PHP's truthiness of a string: "" and "0" are false. */
  predicate IsTruthy(s: string)
  {
    s != "" && s != "0"
  }

  /** validateToken: a truthy string of at most 255 characters. */
  function ValidateToken(input: TokenInput): (r: Result<string>)
    ensures r.Ok? <==> input.Text? && input.text != "" && input.text != "0" && |input.text| <= MaxTokenLength
    ensures r.Ok? ==> r.value == input.text
    ensures r.Err? ==> r.error == InvalidToken
  {
    if input.Text? && IsTruthy(input.text) && |input.text| <= MaxTokenLength then Ok(input.text) else Err(InvalidToken)
  }

  /** guardInvalidAttempts. */
  function GuardInvalidAttempts(attempts: int): (r: Result<int>)
    ensures r.Ok? <==> attempts >= 1
    ensures r.Ok? ==> r.value == attempts
    ensures r.Err? ==> r.error == InvalidAttempts
  {
    if attempts < 1 then Err(InvalidAttempts) else Ok(attempts)
  }

  /**
   * The limiter arguments, in PHP's argument order: the key, then the
   * checked attempts, then the parsed interval.
   */
  function ThrottleSettings(th: Throttle, now: int): (r: Result<Settings>)
    ensures r.Ok? <==> th.attempts >= 1 && ParseInterval(th.interval, now).Ok?
    ensures r.Err? ==> r.error == if th.attempts < 1 then InvalidAttempts else InvalidInterval
    ensures r.Ok? ==>
      r.value.key == th.key && r.value.attempts == th.attempts &&
      r.value.decay == ParseInterval(th.interval, now).value
  {
    match GuardInvalidAttempts(th.attempts)
    case Err(e) => Err(e)
    case Ok(attempts) =>
      match ParseInterval(th.interval, now)
      case Err(e) => Err(e)
      case Ok(decay) => Ok(Settings(th.key, attempts, decay))
  }

  /** The on/off method where the type has one, and otherwise whether it implements the limit. */
  predicate ThrottlingEnabled(limit: Option<Throttle>)
  {
    match limit
    case None => false
    case Some(th) => if th.enabled.Some? then th.enabled.value else true
  }

  predicate IsGenerationThrottlingEnabled(t: TokenType)
  {
    ThrottlingEnabled(t.generationLimit)
  }

  predicate IsUsageThrottlingEnabled(t: TokenType)
  {
    ThrottlingEnabled(t.usageLimit)
  }

  /** No visible row holds `value` for the type `name`. */
  predicate Free(rows: seq<Token>, value: string, name: string)
  {
    FindByTokenAndName(rows, value, name).None?
  }

  /** The first k in [from, budget) whose candidate is free, if any. */
  function FirstFree(rows: seq<Token>, name: string, g: Generator, from: nat, budget: int): (r: Option<nat>)
    ensures r.Some? ==> from <= r.value < budget && Free(rows, g.next(r.value), name)
    ensures r.Some? ==> forall j :: from <= j < r.value ==> !Free(rows, g.next(j), name)
    ensures r.None? ==> forall j :: from <= j < budget ==> !Free(rows, g.next(j), name)
    decreases budget - from
  {
    if from >= budget then None
    else if Free(rows, g.next(from), name) then Some(from)
    else FirstFree(rows, name, g, from + 1, budget)
  }

  /** The outcome of generateUniqueTokenString and the draw count after it. */
  datatype Draw = Draw(result: Result<string>, draws: nat)

  /**
   * generateUniqueTokenString: at most `budget` generate() calls, the first
   * of them the call number `from`, returning the first value no visible row
   * of the type holds.
   */
  function UniqueTokenString(rows: seq<Token>, t: TokenType, budget: int, from: nat): (r: Draw)
    ensures from <= r.draws <= from + (if budget > 0 then budget else 0)
    ensures r.result.Ok? ==>
      t.generator.Some? && from < r.draws && r.result.value == t.generator.value.next(r.draws - 1) &&
      Free(rows, r.result.value, t.name) &&
      forall j :: from <= j < r.draws - 1 ==> !Free(rows, t.generator.value.next(j), t.name)
    ensures r.result.Err? ==> r.result.error == GenerationExhausted(t.name) || r.result.error == InvalidGenerator(t.name)
    ensures r.result == Err(InvalidGenerator(t.name)) <==> budget > 0 && t.generator.None?
    ensures r.result == Err(InvalidGenerator(t.name)) ==> r.draws == from
    ensures r.result == Err(GenerationExhausted(t.name)) <==>
      budget <= 0 || (t.generator.Some? && forall j :: from <= j < from + budget ==> !Free(rows, t.generator.value.next(j), t.name))
    ensures r.result == Err(GenerationExhausted(t.name)) ==> r.draws == from + (if budget > 0 then budget else 0)
  {
    if budget <= 0 then Draw(Err(GenerationExhausted(t.name)), from)
    else if t.generator.None? then Draw(Err(InvalidGenerator(t.name)), from)
    else
      match FirstFree(rows, t.name, t.generator.value, from, from + budget)
      case None => Draw(Err(GenerationExhausted(t.name)), from + budget)
      case Some(k) => Draw(Ok(t.generator.value.next(k)), k + 1)
  }

  /** createFreshTokenEntity: the unique string first, then the expiry, then the insert. */
  function CreateFreshTokenEntity(s: Setup, st: State, owner: Owner, t: TokenType, now: int): Step<Token>
  {
    var drawn := UniqueTokenString(st.rows, t, s.generationAttempts, st.draws);
    var st' := st.(draws := drawn.draws);
    match drawn.result
    case Err(e) => Step(st', Err(e))
    case Ok(value) =>
      match ExpirationDate(t.ttl, t.name, now)
      case Err(e) => Step(st', Err(e))
      case Ok(expiresAt) =>
        var record := NewRecord(st.nextId, owner, t.name, value, expiresAt);
        Step(st'.(rows := st.rows + [record], nextId := st.nextId + 1), Ok(record))
  }

  /** 'reuse': extend an active row of the owner, or create one when there is none. */
  function GenerateUsingReuseStrategy(s: Setup, st: State, owner: Owner, t: TokenType, now: int): Step<Token>
  {
    match FindActiveByNameFor(st.rows, owner, t.name, now)
    case None => CreateFreshTokenEntity(s, st, owner, t, now)
    case Some(previous) =>
      match ExpirationDate(t.ttl, t.name, now)
      case Err(e) => Step(st, Err(e))
      case Ok(date) =>
        Step(st.(rows := UpdateWhere(st.rows, previous.id, ContinueTo(date))), Ok(Changed(previous, ContinueTo(date))))
  }

  /** The state after the soft delete of an active row of the owner, if one exists. */
  function RemovePrevious(st: State, owner: Owner, t: TokenType, now: int): State
  {
    match FindActiveByNameFor(st.rows, owner, t.name, now)
    case None => st
    case Some(previous) => st.(rows := UpdateWhere(st.rows, previous.id, SoftDelete(now)))
  }

  /** 'remove': soft-delete an active row of the owner, then create a fresh one. */
  function GenerateUsingRemoveStrategy(s: Setup, st: State, owner: Owner, t: TokenType, now: int): Step<Token>
  {
    CreateFreshTokenEntity(s, RemovePrevious(st, owner, t, now), owner, t, now)
  }

  /** 'keep': create a fresh row and leave the others alone. */
  function GenerateUsingKeepStrategy(s: Setup, st: State, owner: Owner, t: TokenType, now: int): Step<Token>
  {
    CreateFreshTokenEntity(s, st, owner, t, now)
  }

  /** generate: the switch on the "previous" strategy. */
  function Generate(s: Setup, st: State, owner: Owner, t: TokenType, now: int): Step<Token>
  {
    if t.previous == "reuse" then GenerateUsingReuseStrategy(s, st, owner, t, now)
    else if t.previous == "remove" then GenerateUsingRemoveStrategy(s, st, owner, t, now)
    else if t.previous == "keep" then GenerateUsingKeepStrategy(s, st, owner, t, now)
    else Step(st, Err(InvalidStrategy(t.name)))
  }

  /** The generation throttle: nothing when disabled, otherwise the checked settings and an attempt. */
  function ThrottleGeneration(ws: Windows, t: TokenType, now: int): Result<Windows>
  {
    if !IsGenerationThrottlingEnabled(t) then Ok(ws)
    else
      match ThrottleSettings(t.generationLimit.value, now)
      case Err(e) => Err(e)
      case Ok(c) => Attempted(ws, c.key, c.attempts, c.decay, now)
  }

  /** generateFor: resolve, throttle, generate, and dispatch TokenCreated for the returned row. */
  function GenerateFor(s: Setup, st: State, owner: Owner, ref: TokenRef, ip: string, now: int): Step<Token>
  {
    match ResolveToken(s, ref, ip)
    case Err(e) => Step(st, Err(e))
    case Ok(t) =>
      match ThrottleGeneration(st.windows, t, now)
      case Err(e) => Step(st, Err(e))
      case Ok(ws) =>
        var step := Generate(s, st.(windows := ws), owner, t, now);
        if step.result.Ok? then
          Step(step.state.(events := step.state.events + [Created(step.result.value, t.name)]), step.result)
        else step
  }

  /**
   * guardTokenOwner(owner, tokenable). The manager passes the row's owner
   * first and the expected owner second, so a mismatch reports the row's owner.
   */
  function GuardTokenOwner(owner: Owner, tokenable: Option<Owner>): (r: Option<Error>)
    ensures r.Some? <==> tokenable.Some? && tokenable.value != owner
    ensures r.Some? ==> r.value == AccessDenied(owner)
  {
    if tokenable.Some? && tokenable.value != owner then Some(AccessDenied(owner)) else None
  }

  /** The guards of findAndUseToken in their order: expired, used, owner. */
  function GuardToken(record: Token, expected: Option<Owner>, now: int): (r: Option<Error>)
    ensures r.None? <==> !IsExpired(record, now) && !IsUsed(record) && (expected.None? || expected.value == record.owner)
    ensures IsExpired(record, now) ==> r == Some(Expired(record))
    ensures !IsExpired(record, now) && IsUsed(record) ==> r == Some(AlreadyUsed(record))
    ensures !IsExpired(record, now) && !IsUsed(record) && r.Some? ==> r == Some(AccessDenied(record.owner))
  {
    if IsExpired(record, now) then Some(Expired(record))
    else if IsUsed(record) then Some(AlreadyUsed(record))
    else GuardTokenOwner(record.owner, expected)
  }

  /**
   * findAndUseToken: validate, look up, guard, run the callback; unless it
   * returned false, mark the row used and dispatch TokenUsed.
   */
  function FindAndUseToken(st: State, input: TokenInput, t: TokenType, callback: Callback, expected: Option<Owner>, now: int): Step<Owner>
  {
    match ValidateToken(input)
    case Err(e) => Step(st, Err(e))
    case Ok(value) =>
      match GetByTokenAndName(st.rows, value, t.name)
      case Err(e) => Step(st, Err(e))
      case Ok(record) =>
        match GuardToken(record, expected, now)
        case Some(e) => Step(st, Err(e))
        case None =>
          match callback
          case ReturnsFalse => Step(st, Ok(record.owner))
          case Throws(reason) => Step(st, Err(CallbackThrew(reason)))
          case Returns =>
            Step(st.(rows := UpdateWhere(st.rows, record.id, MarkUsed(now)),
                     events := st.events + [Used(Changed(record, MarkUsed(now)), t.name)]),
                 Ok(record.owner))
  }

  /** findAndUseToken neither reads nor writes the limiter backend. */
  lemma FindAndUseTokenIgnoresLimiter(st: State, ws: Windows, input: TokenInput, t: TokenType, callback: Callback, expected: Option<Owner>, now: int)
    ensures var step := FindAndUseToken(st, input, t, callback, expected, now);
      FindAndUseToken(st.(windows := ws), input, t, callback, expected, now) == Step(step.state.(windows := ws), step.result)
  {
  }

  /** limit with findAndUseToken as its callback, for checked settings `c`. */
  function FindAndUseTokenUnderLimit(st: State, input: TokenInput, t: TokenType, callback: Callback, expected: Option<Owner>, c: Settings, now: int): Step<Owner>
  {
    var call := FindAndUseToken(st, input, t, callback, expected, now);
    var limited := Limited(st.windows, c.key, c.attempts, c.decay, now, call.result);
    Step((if limited.invoked then call.state else st).(windows := limited.windows), limited.result)
  }

  /**
   * use: resolve, then findAndUseToken, under limit when usage throttling is
   * on. The callback of limit reads and writes only the table and the event
   * log, so what it would do is computed from the state before the call.
   */
  function Use(s: Setup, st: State, input: TokenInput, ref: TokenRef, callback: Callback, expected: Option<Owner>, ip: string, now: int): Step<Owner>
  {
    match ResolveToken(s, ref, ip)
    case Err(e) => Step(st, Err(e))
    case Ok(t) =>
      if !IsUsageThrottlingEnabled(t) then FindAndUseToken(st, input, t, callback, expected, now)
      else
        match ThrottleSettings(t.usageLimit.value, now)
        case Err(e) => Step(st, Err(e))
        case Ok(c) => FindAndUseTokenUnderLimit(st, input, t, callback, expected, c, now)
  }

  /** useFor: use with the access check, returning nothing. */
  function UseFor(s: Setup, st: State, input: TokenInput, ref: TokenRef, owner: Owner, callback: Callback, ip: string, now: int): Step<()>
  {
    var step := Use(s, st, input, ref, callback, Some(owner), ip, now);
    Step(step.state, if step.result.Ok? then Ok(()) else Err(step.result.error))
  }
}
