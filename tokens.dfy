/**
 * Token types: the Token interface with its optional GenerationLimit and
 * UsageLimit parts, and OptionsToken, the type built from a definition
 * merged over the configured defaults.
 */
module Tokens {
  import opened Wrappers

  /**
   * An expiry or interval option: a positive int counts minutes, a
   * DateInterval is a span of seconds (its sign is not checked), a
   * DateTimeInterface is a moment; anything else is not understood.
   */
  datatype Lifetime = Minutes(minutes: int) | Interval(seconds: int) | Moment(at: int) | Unrecognised

  /** A token generator: `next(k)` is what its (k+1)-th generate() call returns. */
  datatype Generator = Generator(next: nat -> string)

  /** The generator option: a class name, a generator object, or anything else. */
  datatype GeneratorOption = GeneratorClass(className: string) | GeneratorObject(generator: Generator) | NotAGenerator

  /** What the container builds for an existing class. */
  datatype Instance = GeneratorInstance(generator: Generator) | OtherInstance

  /** A complete options array, one field per key. */
  datatype Options = Options(
    ttl: Lifetime,
    previous: string,
    generationThrottling: bool,
    generationAttempts: int,
    generationAttemptsInterval: Lifetime,
    usageThrottling: bool,
    usageAttempts: int,
    usageAttemptsInterval: Lifetime,
    generator: GeneratorOption)

  /** The options a definition gives; an absent key falls back to the default. */
  datatype Overrides = Overrides(
    ttl: Option<Lifetime>,
    previous: Option<string>,
    generationThrottling: Option<bool>,
    generationAttempts: Option<int>,
    generationAttemptsInterval: Option<Lifetime>,
    usageThrottling: Option<bool>,
    usageAttempts: Option<int>,
    usageAttemptsInterval: Option<Lifetime>,
    generator: Option<GeneratorOption>)

  /** define(name) with an empty options array. */
  const NoOverrides := Overrides(None, None, None, None, None, None, None, None, None)

  function Override<T>(given: Option<T>, default: T): T
  {
    if given.Some? then given.value else default
  }

  /** mergeOptions: array_merge(defaults, options), a key-by-key, shallow override. */
  function MergeOptions(options: Overrides, defaults: Options): Options
  {
    Options(
      Override(options.ttl, defaults.ttl),
      Override(options.previous, defaults.previous),
      Override(options.generationThrottling, defaults.generationThrottling),
      Override(options.generationAttempts, defaults.generationAttempts),
      Override(options.generationAttemptsInterval, defaults.generationAttemptsInterval),
      Override(options.usageThrottling, defaults.usageThrottling),
      Override(options.usageAttempts, defaults.usageAttempts),
      Override(options.usageAttemptsInterval, defaults.usageAttemptsInterval),
      Override(options.generator, defaults.generator))
  }

  /**
   * Every option a definition gives wins over its default and every option
   * it leaves out falls back to it; merging nothing keeps the defaults, and
   * merging the same options twice changes nothing more.
   */
  lemma MergeOptionsProperties(options: Overrides, defaults: Options)
    ensures var m := MergeOptions(options, defaults);
      (options.ttl.Some? ==> m.ttl == options.ttl.value) && (options.ttl.None? ==> m.ttl == defaults.ttl) &&
      (options.previous.Some? ==> m.previous == options.previous.value) &&
      (options.previous.None? ==> m.previous == defaults.previous) &&
      (options.generationThrottling.Some? ==> m.generationThrottling == options.generationThrottling.value) &&
      (options.generationThrottling.None? ==> m.generationThrottling == defaults.generationThrottling) &&
      (options.generationAttempts.Some? ==> m.generationAttempts == options.generationAttempts.value) &&
      (options.generationAttempts.None? ==> m.generationAttempts == defaults.generationAttempts) &&
      (options.generationAttemptsInterval.Some? ==> m.generationAttemptsInterval == options.generationAttemptsInterval.value) &&
      (options.generationAttemptsInterval.None? ==> m.generationAttemptsInterval == defaults.generationAttemptsInterval) &&
      (options.usageThrottling.Some? ==> m.usageThrottling == options.usageThrottling.value) &&
      (options.usageThrottling.None? ==> m.usageThrottling == defaults.usageThrottling) &&
      (options.usageAttempts.Some? ==> m.usageAttempts == options.usageAttempts.value) &&
      (options.usageAttempts.None? ==> m.usageAttempts == defaults.usageAttempts) &&
      (options.usageAttemptsInterval.Some? ==> m.usageAttemptsInterval == options.usageAttemptsInterval.value) &&
      (options.usageAttemptsInterval.None? ==> m.usageAttemptsInterval == defaults.usageAttemptsInterval) &&
      (options.generator.Some? ==> m.generator == options.generator.value) &&
      (options.generator.None? ==> m.generator == defaults.generator)
    ensures MergeOptions(NoOverrides, defaults) == defaults
    ensures MergeOptions(options, MergeOptions(options, defaults)) == MergeOptions(options, defaults)
  {
  }

  /** The throttling part of GenerationLimit or UsageLimit, with the optional on/off method. */
  datatype Throttle = Throttle(key: string, attempts: int, interval: Lifetime, enabled: Option<bool>)

  /**
   * A token type as the manager sees it. `generator` is None when generate()
   * raises because no generator can be resolved.
   */
  datatype TokenType = TokenType(
    name: string,
    generator: Option<Generator>,
    ttl: Lifetime,
    previous: string,
    generationLimit: Option<Throttle>,
    usageLimit: Option<Throttle>)

  const GenerationKeyPrefix := "_tok:gen:"
  const UsageKeyPrefix := "_tok:use:"

  /** getGenerationLimiterKey: "_tok:gen:<name>:<ip>". */
  function GenerationLimiterKey(name: string, ip: string): string
  {
    GenerationKeyPrefix + name + ":" + ip
  }

  /** getUsageLimiterKey: "_tok:use:<name>:<ip>". */
  function UsageLimiterKey(name: string, ip: string): string
  {
    UsageKeyPrefix + name + ":" + ip
  }

  /** The index of the first colon of `s`, or its length when it has none. */
  function ColonIndex(s: string): nat
  {
    if s == [] || s[0] == ':' then 0 else 1 + ColonIndex(s[1..])
  }

  lemma {:induction false} ColonIndexOfJoin(a: string, b: string)
    requires ':' !in a
    ensures ColonIndex(a + ":" + b) == |a|
  {
    if a != [] {
      assert (a + ":" + b)[1..] == a[1..] + ":" + b;
      ColonIndexOfJoin(a[1..], b);
    }
  }

  /** Two colon-joined pairs are equal only when both parts are, if the left parts have no colon. */
  lemma {:induction false} ColonJoinInjective(a1: string, b1: string, a2: string, b2: string)
    requires ':' !in a1 && ':' !in a2
    requires a1 + ":" + b1 == a2 + ":" + b2
    ensures a1 == a2 && b1 == b2
  {
    var s := a1 + ":" + b1;
    ColonIndexOfJoin(a1, b1);
    ColonIndexOfJoin(a2, b2);
    assert a1 == s[..|a1|] && a2 == s[..|a2|];
    assert b1 == s[|a1| + 1..] && b2 == s[|a2| + 1..];
  }

  /**
   * The limiter keys keep generation and usage apart, and, for type names
   * without a colon, keep every (type, client IP) pair apart.
   */
  lemma {:induction false} LimiterKeysSeparate(n1: string, ip1: string, n2: string, ip2: string)
    ensures GenerationLimiterKey(n1, ip1) != UsageLimiterKey(n2, ip2)
    ensures ':' !in n1 && ':' !in n2 && GenerationLimiterKey(n1, ip1) == GenerationLimiterKey(n2, ip2)
      ==> n1 == n2 && ip1 == ip2
    ensures ':' !in n1 && ':' !in n2 && UsageLimiterKey(n1, ip1) == UsageLimiterKey(n2, ip2)
      ==> n1 == n2 && ip1 == ip2
  {
    assert GenerationLimiterKey(n1, ip1)[5] == 'g' && UsageLimiterKey(n2, ip2)[5] == 'u';
    var g1 := GenerationLimiterKey(n1, ip1);
    var g2 := GenerationLimiterKey(n2, ip2);
    if ':' !in n1 && ':' !in n2 && g1 == g2 {
      assert g1[9..] == n1 + ":" + ip1 && g2[9..] == n2 + ":" + ip2;
      ColonJoinInjective(n1, ip1, n2, ip2);
    }
    var u1 := UsageLimiterKey(n1, ip1);
    var u2 := UsageLimiterKey(n2, ip2);
    if ':' !in n1 && ':' !in n2 && u1 == u2 {
      assert u1[9..] == n1 + ":" + ip1 && u2[9..] == n2 + ":" + ip2;
      ColonJoinInjective(n1, ip1, n2, ip2);
    }
  }

  /** A type name holding a colon can share its counter with another type and client. */
  lemma ColonInNameSharesKey()
    ensures GenerationLimiterKey("a:b", "c") == GenerationLimiterKey("a", "b:c")
  {
    assert GenerationLimiterKey("a:b", "c") == "_tok:gen:a:b:c";
    assert GenerationLimiterKey("a", "b:c") == "_tok:gen:a:b:c";
  }

  /**
   * resolveGenerator: a class name the container knows is built first; the
   * result must be a generator, or resolution fails.
   */
  function ResolveGenerator(option: GeneratorOption, classes: map<string, Instance>): (r: Option<Generator>)
    ensures option.GeneratorObject? ==> r == Some(option.generator)
    ensures option.GeneratorClass? ==>
      (r.Some? <==> option.className in classes && classes[option.className].GeneratorInstance?)
    ensures r.Some? && option.GeneratorClass? ==> r.value == classes[option.className].generator
    ensures option.NotAGenerator? ==> r.None?
  {
    match option
    case GeneratorObject(g) => Some(g)
    case GeneratorClass(c) =>
      if c in classes && classes[c].GeneratorInstance? then Some(classes[c].generator) else None
    case NotAGenerator => None
  }

  /**
   * OptionsToken: each getter answers the defined option where the
   * definition gives one and the default otherwise; throttling is switched
   * by the two flags and counted per type and client IP.
   */
  function OptionsToken(name: string, options: Overrides, defaults: Options, ip: string, classes: map<string, Instance>): (t: TokenType)
    ensures t.name == name
    ensures t.ttl == (if options.ttl.Some? then options.ttl.value else defaults.ttl)
    ensures t.previous == (if options.previous.Some? then options.previous.value else defaults.previous)
    ensures t.generator == ResolveGenerator(if options.generator.Some? then options.generator.value else defaults.generator, classes)
    ensures t.generationLimit.Some? && t.usageLimit.Some?
    ensures t.generationLimit.value.key == GenerationLimiterKey(name, ip)
    ensures t.usageLimit.value.key == UsageLimiterKey(name, ip)
    ensures t.generationLimit.value.enabled
      == Some(if options.generationThrottling.Some? then options.generationThrottling.value else defaults.generationThrottling)
    ensures t.usageLimit.value.enabled
      == Some(if options.usageThrottling.Some? then options.usageThrottling.value else defaults.usageThrottling)
    ensures t.generationLimit.value.attempts
      == (if options.generationAttempts.Some? then options.generationAttempts.value else defaults.generationAttempts)
    ensures t.usageLimit.value.attempts
      == (if options.usageAttempts.Some? then options.usageAttempts.value else defaults.usageAttempts)
    ensures t.generationLimit.value.interval
      == (if options.generationAttemptsInterval.Some? then options.generationAttemptsInterval.value else defaults.generationAttemptsInterval)
    ensures t.usageLimit.value.interval
      == (if options.usageAttemptsInterval.Some? then options.usageAttemptsInterval.value else defaults.usageAttemptsInterval)
  {
    var o := MergeOptions(options, defaults);
    TokenType(
      name,
      ResolveGenerator(o.generator, classes),
      o.ttl,
      o.previous,
      Some(Throttle(GenerationLimiterKey(name, ip), o.generationAttempts, o.generationAttemptsInterval, Some(o.generationThrottling))),
      Some(Throttle(UsageLimiterKey(name, ip), o.usageAttempts, o.usageAttemptsInterval, Some(o.usageThrottling))))
  }
}
