# Tokens: a verified model of the token lifecycle

This project models the core of the Laravel package `nevadskiy/tokens` in Dafny.
The package issues one-time tokens: password resets, e-mail verification codes and the like.
A **token type** is either a name defined in the configuration (an `OptionsToken`) or a token class.
It fixes the lifetime and the **generation strategy** for a previous token of the same owner:

- `reuse` extends the active token;
- `remove` soft-deletes it;
- `keep` leaves it.

It also fixes the generator of token strings and two rate limits. One limit covers generation and one covers usage, each counted per type and client IP.

**The token manager** does three things:

- It generates a token for an owner (`generateFor`).
- It uses a token string (`use`, `useFor`). Using runs these checks in order: the string is valid, the row exists, the token has not expired, it has not been used, and it belongs to the expected owner. Only then does it run the caller's callback. If the callback returns anything but `false`, the row is marked used and `TokenUsed` is dispatched.
- Its console command `tokens:clear` force-deletes every dead row.

The model is organised like this:

- **Tables and values:** the tokens table is a sequence of rows behind the `TokenRepository` class. The rate limiter is a map from keys to counting windows behind the `CacheRateLimiter` class. Lifetimes and intervals are integer seconds measured from a `now` parameter.
- **The manager's behaviour** is written twice. `Lifecycle` has it as pure functions from a state (rows, next id, limiter windows, event log, and the number of `generate()` calls made so far) to a new state and a result. `Manager.TokenManager` is a class whose methods change the repository, the limiter and the event log, and each method is proved to end in exactly the state and result the matching `Lifecycle` function gives.
- **Properties** are proved about the pure functions in `LifecycleFacts`, `RateLimiter`, `Repository`, `ClearCommand`, `Tokens` and `ShortCode`.

Where the code differs from the package's documentation, the model follows the code:

- **Owner check:** `useFor` with the wrong owner raises `TokenAccessException`, and the owner inside it is the token's own owner, not the caller's. `findAndUseToken` passes the two arguments to `guardTokenOwner` in swapped order, and `tests/Feature/TokenUsageTest.php` expects exactly this result (`Lifecycle.GuardTokenOwner`, `LifecycleFacts.FindAndUseTokenOutcomes`).
- **Expiry instant:** a token is expired only strictly after its expiry date (`isPast`). At the expiry instant it is neither active nor dead (`TokenEntity.ActiveAndDeadLeaveBoundary`).

## Model

| member | source | states |
|---|---|---|
| TokenEntity.IsActive | src/TokenEntity.php:129-132 | an active row (not trashed, unused, expiring after now) is none of dead, expired or used |
| TokenEntity.Changed | src/TokenEntity.php:139-150 | continueTo and markAsUsed change only their own column; id, value, name and owner stay |
| TokenEntity.LatestWhere | src/TokenEntity.php:48-51 | nothing iff no row matches; otherwise a matching row with the highest id |
| TokenEntity.Last | src/TokenEntity.php:48-51 | the non-trashed row with the highest id, or nothing if every row is trashed |
| TokenEntity.IsExpired | src/TokenEntity.php:157-160 | expired iff the expiry date lies strictly before now |
| TokenEntity.IsUsed | src/TokenEntity.php:167-170 | used iff used_at is set |
| TokenEntity.IsDead | src/TokenEntity.php:101-107 | dead iff used, expired before now, or soft-deleted |
| TokenEntity.ForTokenable | src/TokenEntity.php:90-93 | the row's owner morph type and id are the tokenable's |
| TokenEntity.ActiveAndDeadLeaveBoundary | src/TokenEntity.php:101-132 | no row is both active and dead; every unused, visible row whose expiry is exactly now is neither active, dead nor expired |
| Repository.FindByTokenAndName | src/Repository/TokenRepository.php:59-62 | nothing iff no visible row holds the value and type; otherwise the latest such row |
| Repository.GetByTokenAndName | src/Repository/TokenRepository.php:41-50 | NotFound carrying the value and type exactly when the find gives nothing, otherwise the found row |
| Repository.FindActiveByNameFor | src/Repository/TokenRepository.php:71-78 | nothing iff the owner has no active row of the type; otherwise such a row of the table |
| Repository.UpdateWhere | src/TokenEntity.php:139-150 | saving a changed entity rewrites exactly the rows with its id and keeps the row count |
| Repository.UpdateWhereKeepsInvariant | src/TokenEntity.php:139-150 | updating a row keeps ids increasing and below the next id |
| Repository.UpdateWhereTouchesOneRow | src/TokenEntity.php:139-150 | in a well-formed table an update by id changes one row and leaves every other row |
| Repository.AppendKeepsInvariant | src/Repository/TokenRepository.php:21-31 | appending a row under the next id keeps the table well-formed |
| Repository.TokenRepository.constructor | src/Repository/TokenRepository.php:21-31 | an empty table whose next id is 1 |
| Repository.TokenRepository.CreateFor | src/Repository/TokenRepository.php:21-31 | appends one unused, undeleted row for owner, type, value and expiry under the next id; the table stays well-formed |
| Repository.TokenRepository.MarkAsUsed | src/TokenEntity.php:147-150 | the row with the token's id gets used_at = now; nothing else changes |
| Repository.TokenRepository.ContinueTo | src/TokenEntity.php:139-142 | the row with the token's id gets the new expiry; nothing else changes |
| Repository.TokenRepository.Delete | src/TokenManager.php:172-181 | the row with the token's id is soft-deleted now; nothing else changes |
| RateLimiter.Hit | src/RateLimiter/CacheRateLimiter.php:94-98 | one more attempt in the open window without moving its end; a closed window restarts with end now + decay; other keys untouched |
| RateLimiter.Cleared | src/RateLimiter/CacheRateLimiter.php:80-83 | the key is forgotten and no other key changes |
| RateLimiter.IsLocked | src/RateLimiter/CacheRateLimiter.php:69-72 | locked iff the key's window is still open and holds at least the maximum number of attempts |
| RateLimiter.GuardTooManyAttempts | src/RateLimiter/CacheRateLimiter.php:55-72 | fails iff the window is open with at least max attempts, and reports the window's end as the unlock time |
| RateLimiter.Attempted | src/RateLimiter/CacheRateLimiter.php:94-112 | a locked key fails and counts nothing; otherwise the attempt is counted |
| RateLimiter.Limited | src/RateLimiter/CacheRateLimiter.php:37-46 | locked: the callback is not run and nothing changes; else the attempt counts, success clears the key, a failure keeps the count and is passed on |
| RateLimiter.AttemptsFillWindow | src/RateLimiter/CacheRateLimiter.php:94-98 | attempts within one window from a fresh key count one each and keep the first attempt's end |
| RateLimiter.LockoutAfterMaxAttempts | src/RateLimiter/CacheRateLimiter.php:55-60 | after max attempts in one window, the next one fails with the window's end as unlock time |
| RateLimiter.CountingRestartsAfterWindow | src/RateLimiter/CacheRateLimiter.php:94-98 | after the window ends, the next attempt is accepted and counting starts again at one |
| RateLimiter.CacheRateLimiter.constructor | src/RateLimiter/CacheRateLimiter.php:22-25 | no windows |
| RateLimiter.CacheRateLimiter.Attempt | src/RateLimiter/CacheRateLimiter.php:94-98 | result and new windows are those of Attempted |
| RateLimiter.CacheRateLimiter.Clear | src/RateLimiter/CacheRateLimiter.php:80-83 | the windows become Cleared |
| RateLimiter.CacheRateLimiter.Limit | src/RateLimiter/CacheRateLimiter.php:37-46 | result and new windows are those of Limited |
| Tokens.MergeOptions | src/Tokens/OptionsToken.php:50-53 | array_merge of defaults and definition, key by key; its properties are Tokens.MergeOptionsProperties |
| Tokens.GenerationLimiterKey | src/Tokens/OptionsToken.php:111-114 | "_tok:gen:" + name + ":" + ip; its properties are Tokens.LimiterKeysSeparate |
| Tokens.UsageLimiterKey | src/Tokens/OptionsToken.php:151-154 | "_tok:use:" + name + ":" + ip; its properties are Tokens.LimiterKeysSeparate |
| Tokens.MergeOptionsProperties | src/Tokens/OptionsToken.php:50-53 | every defined option overrides its default and every absent one falls back to it |
| Tokens.ColonIndexOfJoin | src/Tokens/OptionsToken.php:111-114 | in name + ":" + ip the first colon sits right after a colon-free name |
| Tokens.ColonJoinInjective | src/Tokens/OptionsToken.php:111-114 | two joins of colon-free names are equal only for equal names and IPs |
| Tokens.LimiterKeysSeparate | src/Tokens/OptionsToken.php:111-154 | generation and usage keys never collide; each kind is unique per colon-free type name and IP |
| Tokens.ColonInNameSharesKey | src/Tokens/OptionsToken.php:111-114 | type names with colons can share a limiter key: "a:b" at IP "c" and "a" at IP "b:c" |
| Tokens.ResolveGenerator | src/Tokens/OptionsToken.php:181-194 | a class name gives the container's instance only when it is a Generator; anything else gives none |
| Tokens.OptionsToken | src/Tokens/OptionsToken.php:36-174 | each getter gives the defined option or the default; keys are built per type and IP; both throttles answer their flag |
| ShortCode.Repeat | src/Generator/ShortCodeGenerator.php:34-37 | n copies of the pool: length pool·n, characters from the pool |
| ShortCode.Shuffled | src/Generator/ShortCodeGenerator.php:34-37 | a shuffle has the input's length and takes every character from the input |
| ShortCode.ShuffleKeepsCharacters | src/Generator/ShortCodeGenerator.php:34-37 | a shuffle is a permutation: it holds each character exactly as often as the input does (equal multisets) |
| ShortCode.Generate | src/Generator/ShortCodeGenerator.php:23-37 | fails iff the length is negative; otherwise exactly length characters (none for an empty pool), each from the pool |
| ShortCode.SingleCharacterPool | src/Generator/ShortCodeGenerator.php:34-37 | a one-character pool yields that character length times, whatever the shuffle |
| ShortCode.DefaultCodes | src/Generator/ShortCodeGenerator.php:23-27 | the default generator yields 8 characters with no 0, O, 1 or I |
| ClearCommand.Survivors | src/Console/ClearCommand.php:27-31 | a row remains iff it was in the table and is not dead |
| ClearCommand.SurvivorsKeepInvariant | src/Console/ClearCommand.php:27-31 | clearing keeps the table well-formed |
| ClearCommand.ClearIsIdempotent | src/Console/ClearCommand.php:27-31 | clearing twice is clearing once |
| ClearCommand.ClearKeepsLiveTable | src/Console/ClearCommand.php:27-31 | a table without dead rows is left as it is |
| ClearCommand.Handle | src/Console/ClearCommand.php:27-31 | the repository's rows become the survivors, still well-formed |
| Lifecycle.ResolveToken | src/TokenManager.php:352-373 | a Token object as is; an undefined name fails with NotDefined; a defined one becomes the OptionsToken of its definition over the defaults, with its own generation and usage keys |
| Lifecycle.ExpirationDate | src/TokenManager.php:323-344 | positive minutes ×60, an interval, or a future moment give the date; anything else fails with InvalidTtl |
| Lifecycle.ParseInterval | src/TokenManager.php:449-468 | positive minutes ×60, an interval, or the time until a future moment; anything else fails |
| Lifecycle.ValidateToken | src/TokenManager.php:546-551 | accepted iff a string that is neither "" nor "0" and at most 255 long |
| Lifecycle.GuardInvalidAttempts | src/TokenManager.php:410-415 | accepted iff at least one attempt |
| Lifecycle.ThrottleSettings | src/TokenManager.php:381-468 | the key, the checked attempts and the parsed interval; attempts are checked before the interval |
| Lifecycle.FirstFree | src/TokenManager.php:291-302 | the first call number in range whose string no visible row of the type holds, and only if there is one |
| Lifecycle.UniqueTokenString | src/TokenManager.php:291-315 | starting at the manager's next generate() call: the first free string within the attempts, with the calls made counted; or GenerationExhausted after the attempts, or InvalidGenerator before any call |
| Lifecycle.IsGenerationThrottlingEnabled | src/TokenManager.php:516-523 | the type's own flag where it has one, otherwise whether it has a generation limit |
| Lifecycle.IsUsageThrottlingEnabled | src/TokenManager.php:531-538 | the type's own flag where it has one, otherwise whether it has a usage limit |
| Lifecycle.CreateFreshTokenEntity | src/TokenManager.php:202-210 | unique string, then expiry, then insert; its properties are LifecycleFacts.CreateFreshAppendsOneRow |
| Lifecycle.GenerateUsingReuseStrategy | src/TokenManager.php:152-163 | extend an active row or create one; its properties are LifecycleFacts.ReuseStrategyExtendsActiveRow and ReuseStrategyWithoutActiveRowCreates |
| Lifecycle.GenerateUsingRemoveStrategy | src/TokenManager.php:172-181 | soft-delete an active row, then create; its properties are LifecycleFacts.RemoveStrategyDeletesBeforeCreating and RemoveStrategyLeavesOneActive |
| Lifecycle.GenerateUsingKeepStrategy | src/TokenManager.php:190-193 | create; its properties are LifecycleFacts.KeepStrategyKeepsRows |
| Lifecycle.Generate | src/TokenManager.php:131-143 | the switch on the strategy; its properties are LifecycleFacts.UnknownStrategyWritesNothing, GenerateKeepsWellFormed and FreshRowsTakeNewDraws |
| Lifecycle.GenerateFor | src/TokenManager.php:107-124 | resolve, throttle, generate, dispatch; its properties are LifecycleFacts.GenerateForThrottlesAndDispatches and UndefinedTypeChangesNothing |
| Lifecycle.GuardTokenOwner | src/TokenManager.php:503-508 | refuses iff an expected owner is given and differs, reporting the first argument, which the manager passes as the row's owner |
| Lifecycle.GuardToken | src/TokenManager.php:256-258 | passes iff unexpired, unused and owned as expected; otherwise Expired, then AlreadyUsed, then AccessDenied with the row's owner, in that order |
| Lifecycle.FindAndUseToken | src/TokenManager.php:250-269 | validate, look up, guard, call back, mark used; its properties are LifecycleFacts.FindAndUseTokenOutcomes |
| Lifecycle.Use | src/TokenManager.php:222-238 | findAndUseToken, under limit when usage throttling is on; its properties are LifecycleFacts.UseUnderThrottle, UseWithoutThrottle and UseWithBadThrottleWritesNothing |
| Lifecycle.UseFor | src/TokenManager.php:280-283 | use with the owner check; its properties are LifecycleFacts.UseForChecksOwner |
| Lifecycle.FindAndUseTokenIgnoresLimiter | src/TokenManager.php:222-238 | finding and using a token does not depend on the limiter windows and keeps them |
| LifecycleFacts.CreateFreshAppendsOneRow | src/TokenManager.php:202-210 | one fresh, unused row with a previously free value, the latest generate() call's, the owner, the type and the computed expiry is appended; a failure writes no row |
| LifecycleFacts.UpdateFoundRow | src/TokenEntity.php:139-150 | saving a row read from a well-formed table rewrites only that row |
| LifecycleFacts.RemovePreviousDeletesOneActiveRow | src/TokenManager.php:172-181 | with no active row nothing changes; otherwise exactly one active row of the owner is soft-deleted now |
| LifecycleFacts.RemoveStrategyDeletesBeforeCreating | src/TokenManager.php:172-181 | the delete happens first: a failed creation leaves the previous row deleted and adds none, a success appends a fresh row |
| LifecycleFacts.RemoveStrategyLeavesOneActive | src/TokenManager.php:172-181 | after a successful 'remove' the new row is the owner's only active token of the type |
| LifecycleFacts.ReuseStrategyExtendsActiveRow | src/TokenManager.php:152-163 | 'reuse' returns the active row with the new expiry, changes no other row and adds none; a bad ttl writes nothing |
| LifecycleFacts.ReuseStrategyWithoutActiveRowCreates | src/TokenManager.php:152-163 | without an active row 'reuse' creates a fresh token |
| LifecycleFacts.KeepStrategyKeepsRows | src/TokenManager.php:190-193 | 'keep' leaves all rows and appends one fresh row, or writes no row on failure |
| LifecycleFacts.UnknownStrategyWritesNothing | src/TokenManager.php:131-143 | any other strategy fails with InvalidStrategy and changes nothing |
| LifecycleFacts.GenerateTouchesOnlyTable | src/TokenManager.php:131-210 | the strategies change neither limiter nor events |
| LifecycleFacts.GenerateKeepsWellFormed | src/TokenManager.php:131-210 | every strategy keeps the table well-formed |
| LifecycleFacts.CreateFreshKeepsWellFormed | src/TokenManager.php:202-210 | creating a row keeps the table well-formed |
| LifecycleFacts.GenerateForThrottlesAndDispatches | src/TokenManager.php:107-124 | bad settings or a lockout change nothing; otherwise the attempt counts and is never cleared; TokenCreated is dispatched exactly for a returned row |
| LifecycleFacts.GenerateForKeepsWellFormed | src/TokenManager.php:107-124 | generateFor keeps the table well-formed |
| LifecycleFacts.FindAndUseTokenOutcomes | src/TokenManager.php:250-269 | checks in order invalid, not found, expired, used, owner (reporting the row's owner); failures and a false callback write nothing; success marks used and dispatches TokenUsed |
| LifecycleFacts.UseUnderThrottle | src/TokenManager.php:222-238 | a lockout writes nothing; otherwise any normal return, false included, clears the key, and a failure keeps the counted attempt |
| LifecycleFacts.UseWithoutThrottle | src/TokenManager.php:222-238 | without usage throttling, use is findAndUseToken and the limiter is untouched |
| LifecycleFacts.FreshValueFindsNewRow | src/Repository/TokenRepository.php:59-62 | looking up a freshly generated value finds the new row |
| LifecycleFacts.CreatedTokenIsUsableOnce | src/TokenManager.php:202-269 | before expiry a created token can be used by its owner, which marks only it used; a second use fails as already used |
| LifecycleFacts.DefaultTypeBehaviour | config/tokens.php:34-44 | a type with no options of its own: 30 days of life, 'remove', 3 generations and 5 uses per 600 s |
| LifecycleFacts.UseForChecksOwner | src/TokenManager.php:280-283 | useFor succeeds only on a valid string whose row is unexpired, unused and owned by the given owner |
| LifecycleFacts.FreshRowsTakeNewDraws | src/TokenManager.php:291-302 | generate never goes back in the generator's output; a created row's string comes from a generate() call of this very generation |
| LifecycleFacts.RepeatedGenerationDrawsNewString | src/TokenManager.php:131-210 | with a generator that never repeats, two successive generations that both create a row hand out different strings, under any strategy |
| LifecycleFacts.UndefinedTypeChangesNothing | src/TokenManager.php:352-373 | generateFor, use and useFor with an undefined name fail with NotDefined and change nothing |
| LifecycleFacts.ShippedConfigurationDefinesNothing | config/tokens.php:10-15 | with the shipped definitions every name is undefined |
| LifecycleFacts.UseWithBadThrottleWritesNothing | src/TokenManager.php:222-238 | use with fewer than one attempt or an unusable interval fails with that error and changes nothing |
| Manager.TokenManager.constructor | src/TokenManager.php:65-76 | no token types defined and no generate() calls made; holds the repository, limiter, defaults and the generation attempts, 10 unless given |
| Manager.TokenManager.Define | src/TokenManager.php:84-87 | the name maps to the given options; other definitions remain |
| Manager.TokenManager.GenerateUniqueTokenString | src/TokenManager.php:291-315 | the loop's result and the calls it makes are UniqueTokenString's from the manager's draw count; no row is written |
| Manager.TokenManager.CreateFreshTokenEntity | src/TokenManager.php:202-210 | state and result are those of Lifecycle.CreateFreshTokenEntity |
| Manager.TokenManager.GenerateUsingReuseStrategy | src/TokenManager.php:152-163 | state and result are those of Lifecycle.GenerateUsingReuseStrategy |
| Manager.TokenManager.GenerateUsingRemoveStrategy | src/TokenManager.php:172-181 | state and result are those of Lifecycle.GenerateUsingRemoveStrategy |
| Manager.TokenManager.GenerateUsingKeepStrategy | src/TokenManager.php:190-193 | state and result are those of Lifecycle.GenerateUsingKeepStrategy |
| Manager.TokenManager.Generate | src/TokenManager.php:131-143 | state and result are those of Lifecycle.Generate |
| Manager.TokenManager.GenerateFor | src/TokenManager.php:107-124 | state and result are those of Lifecycle.GenerateFor |
| Manager.TokenManager.FindAndUseToken | src/TokenManager.php:250-269 | state and result are those of Lifecycle.FindAndUseToken |
| Manager.TokenManager.Use | src/TokenManager.php:222-238 | state and result are those of Lifecycle.Use |
| Manager.TokenManager.FindAndUseTokenUnderLimit | src/TokenManager.php:228-236 | state and result are those of Lifecycle.FindAndUseTokenUnderLimit |
| Manager.TokenManager.UseFor | src/TokenManager.php:280-283 | state and result are those of Lifecycle.UseFor |

## Left out

- **Persistence:** Eloquent, the database, the `tokens` table migration and the configurable table name are not modelled. `created_at`/`updated_at` are left out.
- **Service provider:** the service provider and facade are not modelled as code. The manager is built with its arguments given directly; the constructor's default of ten generation attempts is the default of its parameter.
- **Clock:** time is integer seconds, and each call reads the clock once, as the `now` parameter. Carbon's calendar arithmetic and sub-second precision are not modelled.
- **Token strings:** `RandomHashGenerator` and `HashIdGenerator` are not modelled. A generator is given as the string it answers at each position, and the manager counts its generate() calls across every generation it makes, so call number k answers `next(k)`; this is where randomness and `str_shuffle` enter. All generators share the one count, so the model does not capture a generator instance with an output stream of its own.
- **Options:** options of the wrong PHP type (coercion, `TypeError`) are not modelled. A ttl or interval that is neither an int, an interval nor a date is `Unrecognised`.
- **Events:** event listeners and queues are not modelled. Dispatched events are appended to a log.
- **Exceptions:** exception classes and their messages are not modelled; each exception is an `Error` constructor with the data it carries.
- **Concurrency:** concurrent requests and the cache store's own locking are not modelled. Each limiter operation is atomic.
- **Entity aliasing:** `TokenEntity` instances are row values. The PHP object that `generateFor` returns and the row it was saved from are not aliased.
- **getDefined:** `TokenManager::getDefined` returns the definitions map and is left out; its state is the `tokens` field.
- **Entity helpers:** `TokenEntity::fillTokenable`, `tokenable`, `toString` and the constructor that sets the table name are not modelled.
- Repository.FindActiveByNameFor: promises only "an active row of the owner" (the model takes the first in table order), because the SQL query has no ORDER BY.
- **Throttle flags without a limit:** a token class with an `is…ThrottlingEnabled` method but without the `GenerationLimit` or `UsageLimit` interface is not modelled; in the model a flag always comes with its limit's key, attempts and interval.
- **Deleted owners:** a token whose owner no longer exists is not modelled. The owner check compares the stored morph type and id.
- ShortCode.Generate: the pool is a sequence of characters, each taken as one unit. PHP's `str_repeat`, `str_shuffle` and `substr` work on bytes, so for a pool holding a multi-byte UTF-8 character (say `é`) PHP can return a lone byte that is not a pool character. The model's "every character is from the pool" holds for single-byte pools only, such as the default ASCII pool.
- ShortCode.SingleCharacterPool: holds for a character that is one byte in UTF-8. A multi-byte character is split into its bytes by PHP's shuffle and cut by `substr`, which the model does not capture.
