/**
 * TokenManager: the definitions it holds, and the generation and usage
 * operations over the tokens table and the rate limiter. Each operation is
 * proved to leave the state, and to answer, as the matching function of
 * the Lifecycle module says.
 */
module Manager {
  import opened Wrappers
  import opened TokenEntity
  import opened Errors
  import opened Repository
  import opened RateLimiter
  import opened Tokens
  import opened Lifecycle

  /** The generation budget when the constructor is not given one. */
  const DefaultGenerationAttempts := 10

  class TokenManager {
    var tokens: map<string, Overrides>
    const repository: TokenRepository
    const limiter: CacheRateLimiter
    const defaults: Options
    const classes: map<string, Instance>
    const generationAttempts: int
    /** How many generate() calls the manager has made: the position in the generators' output. */
    var draws: nat
    /** The events handed to the dispatcher, in order. */
    ghost var events: seq<Event>

    ghost predicate Valid()
      reads this, repository
    {
      repository.Valid()
    }

    function Config(): Setup
      reads this
    {
      Setup(tokens, defaults, classes, generationAttempts)
    }

    ghost function Snapshot(): State
      reads this, repository, limiter
    {
      State(repository.rows, repository.nextId, limiter.windows, events, draws)
    }

    constructor (repository: TokenRepository, limiter: CacheRateLimiter, defaults: Options,
                 classes: map<string, Instance>, generationAttempts: int := DefaultGenerationAttempts)
      requires repository.Valid()
      ensures Valid() && tokens == map[] && events == [] && draws == 0
      ensures this.repository == repository && this.limiter == limiter
      ensures Config() == Setup(map[], defaults, classes, generationAttempts)
    {
      this.repository := repository;
      this.limiter := limiter;
      this.defaults := defaults;
      this.classes := classes;
      this.generationAttempts := generationAttempts;
      tokens := map[];
      events := [];
      draws := 0;
    }

    /** define: (re)define the type `name` by its options. */
    method Define(name: string, options: Overrides)
      modifies this`tokens
      ensures tokens == old(tokens)[name := options]
    {
      tokens := tokens[name := options];
    }

    /** generateUniqueTokenString: the do-while over generate() with the attempts guard first. */
    method GenerateUniqueTokenString(t: TokenType) returns (r: Result<string>)
      modifies this`draws
      ensures var drawn := UniqueTokenString(repository.rows, t, generationAttempts, old(draws));
        r == drawn.result && draws == drawn.draws
    {
      var attempts := 0;
      while true
        invariant 0 <= attempts && draws == old(draws) + attempts
        invariant attempts > 0 ==> attempts <= generationAttempts && t.generator.Some?
        invariant forall j :: old(draws) <= j < draws ==> !Free(repository.rows, t.generator.value.next(j), t.name)
        decreases generationAttempts - attempts
      {
        if attempts >= generationAttempts {
          return Err(GenerationExhausted(t.name));
        }
        if t.generator.None? {
          return Err(InvalidGenerator(t.name));
        }
        var candidate := t.generator.value.next(draws);
        draws := draws + 1;
        attempts := attempts + 1;
        if Free(repository.rows, candidate, t.name) {
          return Ok(candidate);
        }
      }
    }

    /** createFreshTokenEntity. */
    method CreateFreshTokenEntity(t: TokenType, owner: Owner, now: int) returns (r: Result<Token>)
      requires Valid()
      modifies this`draws, repository
      ensures Valid()
      ensures var step := Lifecycle.CreateFreshTokenEntity(Config(), old(Snapshot()), owner, t, now);
        Snapshot() == step.state && r == step.result
    {
      var unique := GenerateUniqueTokenString(t);
      if unique.Err? {
        return Err(unique.error);
      }
      var expiresAt := ExpirationDate(t.ttl, t.name, now);
      if expiresAt.Err? {
        return Err(expiresAt.error);
      }
      var record := repository.CreateFor(owner, t.name, unique.value, expiresAt.value);
      return Ok(record);
    }

    /** generateUsingReuseStrategy. */
    method GenerateUsingReuseStrategy(t: TokenType, owner: Owner, now: int) returns (r: Result<Token>)
      requires Valid()
      modifies this`draws, repository
      ensures Valid()
      ensures var step := Lifecycle.GenerateUsingReuseStrategy(Config(), old(Snapshot()), owner, t, now);
        Snapshot() == step.state && r == step.result
    {
      var previous := FindActiveByNameFor(repository.rows, owner, t.name, now);
      if previous.None? {
        r := CreateFreshTokenEntity(t, owner, now);
        return;
      }
      var date := ExpirationDate(t.ttl, t.name, now);
      if date.Err? {
        return Err(date.error);
      }
      repository.ContinueTo(previous.value, date.value);
      return Ok(Changed(previous.value, Change.ContinueTo(date.value)));
    }

    /** generateUsingRemoveStrategy. */
    method GenerateUsingRemoveStrategy(t: TokenType, owner: Owner, now: int) returns (r: Result<Token>)
      requires Valid()
      modifies this`draws, repository
      ensures Valid()
      ensures var step := Lifecycle.GenerateUsingRemoveStrategy(Config(), old(Snapshot()), owner, t, now);
        Snapshot() == step.state && r == step.result
    {
      var previous := FindActiveByNameFor(repository.rows, owner, t.name, now);
      if previous.Some? {
        repository.Delete(previous.value, now);
      }
      r := CreateFreshTokenEntity(t, owner, now);
    }

    /** generateUsingKeepStrategy. */
    method GenerateUsingKeepStrategy(t: TokenType, owner: Owner, now: int) returns (r: Result<Token>)
      requires Valid()
      modifies this`draws, repository
      ensures Valid()
      ensures var step := Lifecycle.GenerateUsingKeepStrategy(Config(), old(Snapshot()), owner, t, now);
        Snapshot() == step.state && r == step.result
    {
      r := CreateFreshTokenEntity(t, owner, now);
    }

    /** generate: dispatch on the "previous" strategy. */
    method Generate(t: TokenType, owner: Owner, now: int) returns (r: Result<Token>)
      requires Valid()
      modifies this`draws, repository
      ensures Valid()
      ensures var step := Lifecycle.Generate(Config(), old(Snapshot()), owner, t, now);
        Snapshot() == step.state && r == step.result
    {
      if t.previous == "reuse" {
        r := GenerateUsingReuseStrategy(t, owner, now);
      } else if t.previous == "remove" {
        r := GenerateUsingRemoveStrategy(t, owner, now);
      } else if t.previous == "keep" {
        r := GenerateUsingKeepStrategy(t, owner, now);
      } else {
        r := Err(InvalidStrategy(t.name));
      }
    }

    /** generateFor. */
    method GenerateFor(owner: Owner, ref: TokenRef, ip: string, now: int) returns (r: Result<Token>)
      requires Valid()
      modifies this`events, this`draws, repository, limiter
      ensures Valid()
      ensures var step := Lifecycle.GenerateFor(Config(), old(Snapshot()), owner, ref, ip, now);
        Snapshot() == step.state && r == step.result
    {
      var resolved := ResolveToken(Config(), ref, ip);
      if resolved.Err? {
        return Err(resolved.error);
      }
      var t := resolved.value;
      if IsGenerationThrottlingEnabled(t) {
        var settings := ThrottleSettings(t.generationLimit.value, now);
        if settings.Err? {
          return Err(settings.error);
        }
        var attempt := limiter.Attempt(settings.value.key, settings.value.attempts, settings.value.decay, now);
        if attempt.Err? {
          return Err(attempt.error);
        }
      }
      r := Generate(t, owner, now);
      if r.Ok? {
        events := events + [Created(r.value, t.name)];
      }
    }

    /** findAndUseToken. */
    method FindAndUseToken(input: TokenInput, t: TokenType, callback: Callback, expected: Option<Owner>, now: int)
      returns (r: Result<Owner>)
      requires Valid()
      modifies this`events, repository
      ensures Valid()
      ensures var step := Lifecycle.FindAndUseToken(old(Snapshot()), input, t, callback, expected, now);
        Snapshot() == step.state && r == step.result
    {
      var value := ValidateToken(input);
      if value.Err? {
        return Err(value.error);
      }
      var found := GetByTokenAndName(repository.rows, value.value, t.name);
      if found.Err? {
        return Err(found.error);
      }
      var record := found.value;
      var refused := GuardToken(record, expected, now);
      if refused.Some? {
        return Err(refused.value);
      }
      match callback {
        case ReturnsFalse =>
          return Ok(record.owner);
        case Throws(reason) =>
          return Err(CallbackThrew(reason));
        case Returns =>
          repository.MarkAsUsed(record, now);
          events := events + [Used(Changed(record, MarkUsed(now)), t.name)];
          return Ok(record.owner);
      }
    }

    /**
     * use. Under usage throttling this is limit with findAndUseToken as its
     * callback: attempt, the callback, then clear after a normal return.
     */
    method Use(input: TokenInput, ref: TokenRef, callback: Callback, expected: Option<Owner>, ip: string, now: int)
      returns (r: Result<Owner>)
      requires Valid()
      modifies this`events, repository, limiter
      ensures Valid()
      ensures var step := Lifecycle.Use(Config(), old(Snapshot()), input, ref, callback, expected, ip, now);
        Snapshot() == step.state && r == step.result
    {
      var resolved := ResolveToken(Config(), ref, ip);
      if resolved.Err? {
        return Err(resolved.error);
      }
      var t := resolved.value;
      if !IsUsageThrottlingEnabled(t) {
        r := FindAndUseToken(input, t, callback, expected, now);
        return;
      }
      var settings := ThrottleSettings(t.usageLimit.value, now);
      if settings.Err? {
        return Err(settings.error);
      }
      r := FindAndUseTokenUnderLimit(input, t, callback, expected, settings.value, now);
    }

    /** limit(key, attempts, interval, findAndUseToken), for checked settings `c`. */
    method FindAndUseTokenUnderLimit(input: TokenInput, t: TokenType, callback: Callback, expected: Option<Owner>, c: Settings, now: int)
      returns (r: Result<Owner>)
      requires Valid()
      modifies this`events, repository, limiter
      ensures Valid()
      ensures var step := Lifecycle.FindAndUseTokenUnderLimit(old(Snapshot()), input, t, callback, expected, c, now);
        Snapshot() == step.state && r == step.result
    {
      ghost var before := Snapshot();
      var attempt := limiter.Attempt(c.key, c.attempts, c.decay, now);
      if attempt.Err? {
        return Err(attempt.error);
      }
      FindAndUseTokenIgnoresLimiter(before, limiter.windows, input, t, callback, expected, now);
      r := FindAndUseToken(input, t, callback, expected, now);
      if r.Ok? {
        limiter.Clear(c.key);
      }
    }

    /** useFor: use with the access check; the caller gets nothing back but the errors. */
    method UseFor(input: TokenInput, ref: TokenRef, owner: Owner, callback: Callback, ip: string, now: int)
      returns (r: Result<()>)
      requires Valid()
      modifies this`events, repository, limiter
      ensures Valid()
      ensures var step := Lifecycle.UseFor(Config(), old(Snapshot()), input, ref, owner, callback, ip, now);
        Snapshot() == step.state && r == step.result
    {
      var used := Use(input, ref, callback, Some(owner), ip, now);
      r := if used.Ok? then Ok(()) else Err(used.error);
    }
  }
}
