/** The package configuration as shipped. */
module Config {
  import opened Wrappers
  import opened Tokens

  const RandomHashGeneratorClass := "Nevadskiy\\Tokens\\Generator\\RandomHashGenerator"

  /** The default options: a 30-day ttl in minutes, 'remove', both throttles on. */
  const Defaults := Options(
    ttl := Minutes(43200),
    previous := "remove",
    generationThrottling := true,
    generationAttempts := 3,
    generationAttemptsInterval := Minutes(10),
    usageThrottling := true,
    usageAttempts := 5,
    usageAttemptsInterval := Minutes(10),
    generator := GeneratorClass(RandomHashGeneratorClass))

  /** No token type is defined by the shipped configuration. */
  const Defined: map<string, Overrides> := map[]
}
