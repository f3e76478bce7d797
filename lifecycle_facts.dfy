/** Properties of the token lifecycle, stated over the Lifecycle functions. */
module LifecycleFacts {
  import opened Wrappers
  import opened TokenEntity
  import opened Errors
  import opened Repository
  import opened RateLimiter
  import opened Tokens
  import opened Lifecycle
  import Config

  /** A fresh row of `t` for `owner` under the next id, holding a value no visible row of the type held. */
  predicate IsFreshRecord(st: State, r: Token, owner: Owner, t: TokenType, now: int)
  {
    r.id == st.nextId && r.owner == owner && r.name == t.name && !IsUsed(r) && !IsTrashed(r) &&
    Free(st.rows, r.value, t.name) && ExpirationDate(t.ttl, t.name, now) == Ok(r.expiresAt)
  }

  /**
   * createFreshTokenEntity appends one fresh row, whose value is the latest
   * generate() call's, and changes nothing else; when generation or the ttl
   * fails, no row is written, though the generate() calls made stay made.
   */
  lemma CreateFreshAppendsOneRow(s: Setup, st: State, owner: Owner, t: TokenType, now: int)
    ensures var step := CreateFreshTokenEntity(s, st, owner, t, now);
      st.draws <= step.state.draws &&
      (step.result.Err? ==> step.state == st.(draws := step.state.draws)) &&
      (step.result.Ok? ==>
        step.state == st.(rows := st.rows + [step.result.value], nextId := st.nextId + 1, draws := step.state.draws) &&
        IsFreshRecord(st, step.result.value, owner, t, now) &&
        t.generator.Some? && st.draws < step.state.draws &&
        step.result.value.value == t.generator.value.next(step.state.draws - 1))
  {
  }

  /** An update by id over a well-formed table touches exactly the row found among its rows. */
  lemma {:induction false} UpdateFoundRow(rows: seq<Token>, nextId: nat, found: Token, c: Change)
    requires TableInvariant(rows, nextId) && found in rows
    ensures exists k :: 0 <= k < |rows| && rows[k] == found &&
                      UpdateWhere(rows, found.id, c)[k] == Changed(rows[k], c) &&
                      forall i :: 0 <= i < |rows| && i != k ==> UpdateWhere(rows, found.id, c)[i] == rows[i]
  {
    var k :| 0 <= k < |rows| && rows[k] == found;
    UpdateWhereTouchesOneRow(rows, nextId, k, c);
  }

  /**
   * The first half of 'remove': with no active row of the owner nothing
   * changes; otherwise exactly one such row is soft-deleted now.
   */
  lemma {:induction false} RemovePreviousDeletesOneActiveRow(st: State, owner: Owner, t: TokenType, now: int)
    requires WellFormed(st)
    ensures var st' := RemovePrevious(st, owner, t, now);
      WellFormed(st') && |st'.rows| == |st.rows| && st' == st.(rows := st'.rows) &&
      ((forall i :: 0 <= i < |st.rows| ==> !ActiveFor(st.rows[i], owner, t.name, now)) ==> st' == st) &&
      ((exists i :: 0 <= i < |st.rows| && ActiveFor(st.rows[i], owner, t.name, now)) ==>
        exists k :: 0 <= k < |st.rows| && ActiveFor(st.rows[k], owner, t.name, now) &&
          st'.rows[k] == Changed(st.rows[k], SoftDelete(now)) &&
          forall i :: 0 <= i < |st.rows| && i != k ==> st'.rows[i] == st.rows[i])
  {
    match FindActiveByNameFor(st.rows, owner, t.name, now)
    case None =>
    case Some(previous) =>
      UpdateFoundRow(st.rows, st.nextId, previous, SoftDelete(now));
      UpdateWhereKeepsInvariant(st.rows, st.nextId, previous.id, SoftDelete(now));
  }

  /**
   * 'remove' deletes first and creates second: a failed creation leaves the
   * previous row deleted, a successful one appends a fresh row after it.
   */
  lemma RemoveStrategyDeletesBeforeCreating(s: Setup, st: State, owner: Owner, t: TokenType, now: int)
    requires t.previous == "remove"
    ensures var st' := RemovePrevious(st, owner, t, now);
      var step := Generate(s, st, owner, t, now);
      (step.result.Err? ==> step.state == st'.(draws := step.state.draws)) &&
      (step.result.Ok? ==>
        step.state.rows == st'.rows + [step.result.value] &&
        IsFreshRecord(st', step.result.value, owner, t, now))
  {
    CreateFreshAppendsOneRow(s, RemovePrevious(st, owner, t, now), owner, t, now);
  }

  /** At most one active row of the owner and type. */
  predicate AtMostOneActive(rows: seq<Token>, owner: Owner, name: string, now: int)
  {
    forall i, j :: 0 <= i < j < |rows| && ActiveFor(rows[i], owner, name, now) ==> !ActiveFor(rows[j], owner, name, now)
  }

  /**
   * Under 'remove' an owner keeps a single active token per type: if there
   * was at most one before, the new row is the only active one afterwards.
   */
  lemma {:induction false} RemoveStrategyLeavesOneActive(s: Setup, st: State, owner: Owner, t: TokenType, now: int)
    requires WellFormed(st) && t.previous == "remove"
    requires AtMostOneActive(st.rows, owner, t.name, now)
    ensures var step := Generate(s, st, owner, t, now);
      step.result.Ok? && step.result.value.expiresAt > now ==>
        var rows := step.state.rows;
        ActiveFor(rows[|rows| - 1], owner, t.name, now) &&
        forall i :: 0 <= i < |rows| - 1 ==> !ActiveFor(rows[i], owner, t.name, now)
  {
    var st' := RemovePrevious(st, owner, t, now);
    RemovePreviousDeletesOneActiveRow(st, owner, t, now);
    RemoveStrategyDeletesBeforeCreating(s, st, owner, t, now);
    var step := Generate(s, st, owner, t, now);
    if step.result.Ok? && step.result.value.expiresAt > now {
      forall i | 0 <= i < |st'.rows|
        ensures !ActiveFor(st'.rows[i], owner, t.name, now)
      {
        if exists j :: 0 <= j < |st.rows| && ActiveFor(st.rows[j], owner, t.name, now) {
          var k :| 0 <= k < |st.rows| && ActiveFor(st.rows[k], owner, t.name, now) &&
            st'.rows[k] == Changed(st.rows[k], SoftDelete(now)) &&
            forall i :: 0 <= i < |st.rows| && i != k ==> st'.rows[i] == st.rows[i];
          if i != k {
            assert !ActiveFor(st.rows[i], owner, t.name, now);
          }
        }
      }
    }
  }

  /**
   * 'reuse' with an active row of the owner: that row, and no other, gets the
   * new expiry and is returned; no row is added. A bad ttl writes nothing.
   */
  lemma {:induction false} ReuseStrategyExtendsActiveRow(s: Setup, st: State, owner: Owner, t: TokenType, now: int)
    requires WellFormed(st) && t.previous == "reuse"
    requires exists i :: 0 <= i < |st.rows| && ActiveFor(st.rows[i], owner, t.name, now)
    ensures var step := Generate(s, st, owner, t, now);
      (step.result.Err? ==> step.state == st && step.result.error == InvalidTtl(t.name)) &&
      (step.result.Ok? ==>
        var r := step.result.value;
        ExpirationDate(t.ttl, t.name, now) == Ok(r.expiresAt) &&
        step.state == st.(rows := step.state.rows) && |step.state.rows| == |st.rows| &&
        exists k :: 0 <= k < |st.rows| && ActiveFor(st.rows[k], owner, t.name, now) &&
          r == Changed(st.rows[k], ContinueTo(r.expiresAt)) && step.state.rows[k] == r &&
          forall i :: 0 <= i < |st.rows| && i != k ==> step.state.rows[i] == st.rows[i])
  {
    var previous := FindActiveByNameFor(st.rows, owner, t.name, now).value;
    match ExpirationDate(t.ttl, t.name, now)
    case Err(_) =>
    case Ok(date) =>
      UpdateFoundRow(st.rows, st.nextId, previous, ContinueTo(date));
  }

  /** 'reuse' without an active row of the owner creates one, as 'keep' does. */
  lemma ReuseStrategyWithoutActiveRowCreates(s: Setup, st: State, owner: Owner, t: TokenType, now: int)
    requires t.previous == "reuse"
    requires forall i :: 0 <= i < |st.rows| ==> !ActiveFor(st.rows[i], owner, t.name, now)
    ensures Generate(s, st, owner, t, now) == CreateFreshTokenEntity(s, st, owner, t, now)
  {
  }

  /** 'keep' leaves every existing row as it was. */
  lemma KeepStrategyKeepsRows(s: Setup, st: State, owner: Owner, t: TokenType, now: int)
    requires t.previous == "keep"
    ensures var step := Generate(s, st, owner, t, now);
      (step.result.Err? ==> step.state == st.(draws := step.state.draws)) &&
      (step.result.Ok? ==> step.state.rows == st.rows + [step.result.value] && IsFreshRecord(st, step.result.value, owner, t, now))
  {
    CreateFreshAppendsOneRow(s, st, owner, t, now);
  }

  /** Any other strategy name fails and writes nothing. */
  lemma UnknownStrategyWritesNothing(s: Setup, st: State, owner: Owner, t: TokenType, now: int)
    requires t.previous != "reuse" && t.previous != "remove" && t.previous != "keep"
    ensures Generate(s, st, owner, t, now) == Step(st, Err(InvalidStrategy(t.name)))
  {
  }

  /** generate touches only the table. */
  lemma GenerateTouchesOnlyTable(s: Setup, st: State, owner: Owner, t: TokenType, now: int)
    ensures var step := Generate(s, st, owner, t, now);
      step.state.windows == st.windows && step.state.events == st.events
  {
  }

  /** Every strategy keeps the table well-formed. */
  lemma {:induction false} GenerateKeepsWellFormed(s: Setup, st: State, owner: Owner, t: TokenType, now: int)
    requires WellFormed(st)
    ensures WellFormed(Generate(s, st, owner, t, now).state)
  {
    var step := Generate(s, st, owner, t, now);
    if t.previous == "reuse" {
      match FindActiveByNameFor(st.rows, owner, t.name, now)
      case None => CreateFreshKeepsWellFormed(s, st, owner, t, now);
      case Some(previous) =>
        match ExpirationDate(t.ttl, t.name, now)
        case Err(_) =>
        case Ok(date) => UpdateWhereKeepsInvariant(st.rows, st.nextId, previous.id, ContinueTo(date));
    } else if t.previous == "remove" {
      RemovePreviousDeletesOneActiveRow(st, owner, t, now);
      CreateFreshKeepsWellFormed(s, RemovePrevious(st, owner, t, now), owner, t, now);
    } else if t.previous == "keep" {
      CreateFreshKeepsWellFormed(s, st, owner, t, now);
    }
  }

  lemma {:induction false} CreateFreshKeepsWellFormed(s: Setup, st: State, owner: Owner, t: TokenType, now: int)
    requires WellFormed(st)
    ensures WellFormed(CreateFreshTokenEntity(s, st, owner, t, now).state)
  {
    var step := CreateFreshTokenEntity(s, st, owner, t, now);
    if step.result.Ok? {
      AppendKeepsInvariant(st.rows, st.nextId, step.result.value);
    }
  }

  /**
   * generateFor: an unknown name or a bad throttle setting fails before
   * anything is written; a lockout fails with the window's end and writes
   * nothing; otherwise the attempt is counted and never cleared, whatever
   * generation then does, and TokenCreated is dispatched exactly for a
   * returned row (a reused one included).
   */
  lemma {:induction false} GenerateForThrottlesAndDispatches(s: Setup, st: State, owner: Owner, ref: TokenRef, ip: string, now: int)
    requires ResolveToken(s, ref, ip).Ok?
    ensures var t := ResolveToken(s, ref, ip).value;
      var step := GenerateFor(s, st, owner, ref, ip, now);
      var generated := Generate(s, st.(windows := step.state.windows), owner, t, now);
      (!IsGenerationThrottlingEnabled(t) ==> step.state.windows == st.windows) &&
      (IsGenerationThrottlingEnabled(t) ==>
        match ThrottleSettings(t.generationLimit.value, now)
        case Err(e) => step == Step(st, Err(e))
        case Ok(c) =>
          (IsLocked(st.windows, c.key, c.attempts, now) ==> step == Step(st, Err(Lockout(st.windows[c.key].endsAt)))) &&
          (!IsLocked(st.windows, c.key, c.attempts, now) ==> step.state.windows == Hit(st.windows, c.key, c.decay, now))) &&
      (step.result.Ok? ==>
        step.result == generated.result && step.state.rows == generated.state.rows &&
        step.state.draws == generated.state.draws &&
        step.state.events == st.events + [Created(step.result.value, t.name)]) &&
      (step.result.Err? ==> step.state.events == st.events)
  {
    var t := ResolveToken(s, ref, ip).value;
    match ThrottleGeneration(st.windows, t, now)
    case Err(_) =>
    case Ok(ws) => GenerateTouchesOnlyTable(s, st.(windows := ws), owner, t, now);
  }

  /** generateFor keeps the table well-formed. */
  lemma {:induction false} GenerateForKeepsWellFormed(s: Setup, st: State, owner: Owner, ref: TokenRef, ip: string, now: int)
    requires WellFormed(st)
    ensures WellFormed(GenerateFor(s, st, owner, ref, ip, now).state)
  {
    match ResolveToken(s, ref, ip)
    case Err(_) =>
    case Ok(t) =>
      match ThrottleGeneration(st.windows, t, now)
      case Err(_) =>
      case Ok(ws) => GenerateKeepsWellFormed(s, st.(windows := ws), owner, t, now);
  }

  /**
   * findAndUseToken: the checks in their order, each failure writing
   * nothing; the owner check reports the row's own owner. Only a callback
   * that returns something other than false marks the row used and
   * dispatches TokenUsed.
   */
  lemma FindAndUseTokenOutcomes(st: State, input: TokenInput, t: TokenType, callback: Callback, expected: Option<Owner>, now: int)
    ensures var step := FindAndUseToken(st, input, t, callback, expected, now);
      (step.result.Err? || callback.ReturnsFalse? ==> step.state == st) &&
      (ValidateToken(input).Err? ==> step.result == Err(InvalidToken)) &&
      (ValidateToken(input).Ok? ==>
        var value := input.text;
        match FindByTokenAndName(st.rows, value, t.name)
        case None => step.result == Err(NotFound(value, t.name))
        case Some(record) =>
          (IsExpired(record, now) ==> step.result == Err(Expired(record))) &&
          (!IsExpired(record, now) && IsUsed(record) ==> step.result == Err(AlreadyUsed(record))) &&
          (!IsExpired(record, now) && !IsUsed(record) && expected.Some? && expected.value != record.owner ==>
            step.result == Err(AccessDenied(record.owner))) &&
          (!IsExpired(record, now) && !IsUsed(record) && (expected.None? || expected.value == record.owner) ==>
            match callback
            case ReturnsFalse => step.result == Ok(record.owner)
            case Throws(reason) => step.result == Err(CallbackThrew(reason))
            case Returns =>
              step.result == Ok(record.owner) &&
              step.state == st.(rows := UpdateWhere(st.rows, record.id, MarkUsed(now)),
                                events := st.events + [Used(Changed(record, MarkUsed(now)), t.name)])))
  {
  }

  /**
   * use under usage throttling: a lockout fails before the token is looked
   * at; otherwise the attempt counts, and any normal return of the callback,
   * false included, resets the counter, while a failure keeps it.
   */
  lemma {:induction false} UseUnderThrottle(s: Setup, st: State, input: TokenInput, ref: TokenRef, callback: Callback, expected: Option<Owner>, ip: string, now: int)
    requires ResolveToken(s, ref, ip).Ok?
    requires IsUsageThrottlingEnabled(ResolveToken(s, ref, ip).value)
    requires ThrottleSettings(ResolveToken(s, ref, ip).value.usageLimit.value, now).Ok?
    ensures var t := ResolveToken(s, ref, ip).value;
      var c := ThrottleSettings(t.usageLimit.value, now).value;
      var step := Use(s, st, input, ref, callback, expected, ip, now);
      var call := FindAndUseToken(st, input, t, callback, expected, now);
      (IsLocked(st.windows, c.key, c.attempts, now) ==> step == Step(st, Err(Lockout(st.windows[c.key].endsAt)))) &&
      (!IsLocked(st.windows, c.key, c.attempts, now) ==>
        step.result == call.result && step.state.rows == call.state.rows && step.state.events == call.state.events &&
        (call.result.Ok? ==> c.key !in step.state.windows) &&
        (call.result.Err? ==> step.state.windows == Hit(st.windows, c.key, c.decay, now)))
  {
    var t := ResolveToken(s, ref, ip).value;
    var c := ThrottleSettings(t.usageLimit.value, now).value;
    FindAndUseTokenOutcomes(st, input, t, callback, expected, now);
  }

  /** use without usage throttling leaves the limiter alone. */
  lemma UseWithoutThrottle(s: Setup, st: State, input: TokenInput, ref: TokenRef, callback: Callback, expected: Option<Owner>, ip: string, now: int)
    requires ResolveToken(s, ref, ip).Ok?
    requires !IsUsageThrottlingEnabled(ResolveToken(s, ref, ip).value)
    ensures Use(s, st, input, ref, callback, expected, ip, now)
      == FindAndUseToken(st, input, ResolveToken(s, ref, ip).value, callback, expected, now)
    ensures Use(s, st, input, ref, callback, expected, ip, now).state.windows == st.windows
  {
    FindAndUseTokenOutcomes(st, input, ResolveToken(s, ref, ip).value, callback, expected, now);
  }

  /** The row a lookup of a fresh value finds is the row just created for it. */
  lemma {:induction false} FreshValueFindsNewRow(rows: seq<Token>, r: Token)
    requires Free(rows, r.value, r.name) && !IsTrashed(r)
    ensures FindByTokenAndName(rows + [r], r.value, r.name) == Some(r)
  {
    var found := FindByTokenAndName(rows + [r], r.value, r.name);
    assert (rows + [r])[|rows|] == r;
  }

  /**
   * A created token can be used once: while it has not expired, its owner
   * can use it (the callback returning normally), which marks exactly that
   * row used; a second use then fails as already used.
   */
  lemma {:induction false} CreatedTokenIsUsableOnce(s: Setup, st: State, owner: Owner, t: TokenType, now: int, later: int, again: int)
    requires WellFormed(st)
    requires CreateFreshTokenEntity(s, st, owner, t, now).result.Ok?
    requires var r := CreateFreshTokenEntity(s, st, owner, t, now).result.value;
      ValidateToken(Text(r.value)).Ok? && later <= r.expiresAt && again <= r.expiresAt
    ensures var created := CreateFreshTokenEntity(s, st, owner, t, now);
      var r := created.result.value;
      var first := FindAndUseToken(created.state, Text(r.value), t, Returns, Some(owner), later);
      first.result == Ok(owner) &&
      first.state.rows == st.rows + [Changed(r, MarkUsed(later))] &&
      FindAndUseToken(first.state, Text(r.value), t, Returns, Some(owner), again).result
        == Err(AlreadyUsed(Changed(r, MarkUsed(later))))
  {
    var created := CreateFreshTokenEntity(s, st, owner, t, now);
    var r := created.result.value;
    CreateFreshAppendsOneRow(s, st, owner, t, now);
    FreshValueFindsNewRow(st.rows, r);
    var rows := st.rows + [r];
    var used := UpdateWhere(rows, r.id, MarkUsed(later));
    assert used == st.rows + [Changed(r, MarkUsed(later))] by {
      forall i | 0 <= i < |st.rows|
        ensures used[i] == rows[i]
      {
        assert rows[i].id < st.nextId;
      }
      assert used[|st.rows|] == Changed(r, MarkUsed(later));
    }
    FindAndUseTokenOutcomes(created.state, Text(r.value), t, Returns, Some(owner), later);
    var first := FindAndUseToken(created.state, Text(r.value), t, Returns, Some(owner), later);
    assert Free(st.rows, r.value, t.name);
    FreshValueFindsNewRow(st.rows, Changed(r, MarkUsed(later)));
    FindAndUseTokenOutcomes(first.state, Text(r.value), t, Returns, Some(owner), again);
  }

  /**
   * A type defined with no options of its own behaves as the shipped
   * defaults say: thirty days of life, the previous token removed, three
   * generations and five uses per ten minutes and client IP.
   */
  lemma DefaultTypeBehaviour(name: string, ip: string, classes: map<string, Instance>, now: int)
    ensures var t := OptionsToken(name, NoOverrides, Config.Defaults, ip, classes);
      t.previous == "remove" &&
      ExpirationDate(t.ttl, name, now) == Ok(now + 30 * 24 * 60 * 60) &&
      IsGenerationThrottlingEnabled(t) && IsUsageThrottlingEnabled(t) &&
      ThrottleSettings(t.generationLimit.value, now) == Ok(Settings(GenerationLimiterKey(name, ip), 3, 600)) &&
      ThrottleSettings(t.usageLimit.value, now) == Ok(Settings(UsageLimiterKey(name, ip), 5, 600))
  {
  }

  /**
   * useFor succeeds only for the row's owner: whenever it succeeds, the
   * token it was given is a live row of the type owned by that owner.
   */
  lemma {:induction false} UseForChecksOwner(s: Setup, st: State, input: TokenInput, ref: TokenRef, owner: Owner, callback: Callback, ip: string, now: int)
    requires ResolveToken(s, ref, ip).Ok?
    ensures var t := ResolveToken(s, ref, ip).value;
      UseFor(s, st, input, ref, owner, callback, ip, now).result.Ok? ==>
        ValidateToken(input).Ok? &&
        var found := FindByTokenAndName(st.rows, input.text, t.name);
        found.Some? && found.value.owner == owner && !IsExpired(found.value, now) && !IsUsed(found.value)
  {
    var t := ResolveToken(s, ref, ip).value;
    FindAndUseTokenOutcomes(st, input, t, callback, Some(owner), now);
    if IsUsageThrottlingEnabled(t) && ThrottleSettings(t.usageLimit.value, now).Ok? {
      UseUnderThrottle(s, st, input, ref, callback, Some(owner), ip, now);
    }
  }

  /** `value` is what one of the generate() calls numbered `from` to `to - 1` answered. */
  ghost predicate DrawnBetween(t: TokenType, value: string, from: nat, to: nat)
  {
    t.generator.Some? && exists k :: from <= k < to && value == t.generator.value.next(k)
  }

  /**
   * generate never goes back in the generator's output, and a newly created
   * row holds a string drawn during this very call.
   */
  lemma {:induction false} FreshRowsTakeNewDraws(s: Setup, st: State, owner: Owner, t: TokenType, now: int)
    requires WellFormed(st)
    ensures var step := Generate(s, st, owner, t, now);
      st.draws <= step.state.draws &&
      (step.result.Ok? && step.result.value.id == st.nextId ==>
        DrawnBetween(t, step.result.value.value, st.draws, step.state.draws))
  {
    var step := Generate(s, st, owner, t, now);
    if t.previous == "reuse" {
      match FindActiveByNameFor(st.rows, owner, t.name, now)
      case None => CreateFreshAppendsOneRow(s, st, owner, t, now);
      case Some(previous) =>
        var k :| 0 <= k < |st.rows| && st.rows[k] == previous;
        assert previous.id < st.nextId;
    } else if t.previous == "remove" {
      CreateFreshAppendsOneRow(s, RemovePrevious(st, owner, t, now), owner, t, now);
    } else if t.previous == "keep" {
      CreateFreshAppendsOneRow(s, st, owner, t, now);
    }
  }

  /** A generator that never answers the same string twice. */
  ghost predicate NeverRepeats(g: Generator)
  {
    forall i, j :: 0 <= i < j ==> g.next(i) != g.next(j)
  }

  /**
   * Two generations in a row that both create a row hand out different
   * strings, whatever the strategy, when the generator never repeats: the
   * second call draws after the first, so a removed token's string does not
   * come back and live tokens do not use up the attempts.
   */
  lemma {:induction false} RepeatedGenerationDrawsNewString(s: Setup, st: State, owner: Owner, t: TokenType, now1: int, now2: int)
    requires WellFormed(st) && t.generator.Some? && NeverRepeats(t.generator.value)
    ensures var first := Generate(s, st, owner, t, now1);
      var second := Generate(s, first.state, owner, t, now2);
      first.result.Ok? && first.result.value.id == st.nextId &&
      second.result.Ok? && second.result.value.id == first.state.nextId ==>
        first.result.value.value != second.result.value.value
  {
    var first := Generate(s, st, owner, t, now1);
    FreshRowsTakeNewDraws(s, st, owner, t, now1);
    GenerateKeepsWellFormed(s, st, owner, t, now1);
    FreshRowsTakeNewDraws(s, first.state, owner, t, now2);
    var second := Generate(s, first.state, owner, t, now2);
    if first.result.Ok? && first.result.value.id == st.nextId &&
       second.result.Ok? && second.result.value.id == first.state.nextId {
      var k1 :| st.draws <= k1 < first.state.draws && first.result.value.value == t.generator.value.next(k1);
      var k2 :| first.state.draws <= k2 < second.state.draws && second.result.value.value == t.generator.value.next(k2);
      assert k1 < k2;
    }
  }

  /** An undefined type name fails before anything is counted or written. */
  lemma UndefinedTypeChangesNothing(s: Setup, st: State, owner: Owner, name: string, input: TokenInput,
                                    callback: Callback, expected: Option<Owner>, ip: string, now: int)
    requires name !in s.tokens
    ensures GenerateFor(s, st, owner, ByName(name), ip, now) == Step(st, Err(NotDefined(name)))
    ensures Use(s, st, input, ByName(name), callback, expected, ip, now) == Step(st, Err(NotDefined(name)))
    ensures UseFor(s, st, input, ByName(name), owner, callback, ip, now) == Step(st, Err(NotDefined(name)))
  {
  }

  /** With the shipped configuration no name is defined, so every name fails that way. */
  lemma ShippedConfigurationDefinesNothing(s: Setup, name: string, ip: string)
    requires s.tokens == Config.Defined
    ensures ResolveToken(s, ByName(name), ip) == Err(NotDefined(name))
  {
  }

  /**
   * use with usage throttling on but an attempts count below one or an
   * unusable interval fails with that error before the limiter is touched.
   */
  lemma UseWithBadThrottleWritesNothing(s: Setup, st: State, input: TokenInput, ref: TokenRef, callback: Callback, expected: Option<Owner>, ip: string, now: int)
    requires ResolveToken(s, ref, ip).Ok?
    requires IsUsageThrottlingEnabled(ResolveToken(s, ref, ip).value)
    requires ThrottleSettings(ResolveToken(s, ref, ip).value.usageLimit.value, now).Err?
    ensures var th := ResolveToken(s, ref, ip).value.usageLimit.value;
      Use(s, st, input, ref, callback, expected, ip, now)
        == Step(st, Err(if th.attempts < 1 then InvalidAttempts else InvalidInterval))
  {
  }
}
