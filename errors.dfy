/** The exceptions the lifecycle raises, as values. */
module Errors {
  import opened TokenEntity

  datatype Error =
    | NotDefined(typeName: string)          // LogicException: token type is not defined
    | InvalidAttempts                       // UnexpectedValueException: attempts below one
    | InvalidInterval                       // UnexpectedValueException: interval not understood
    | InvalidStrategy(typeName: string)     // UnexpectedValueException: unknown "previous" strategy
    | InvalidTtl(typeName: string)          // UnexpectedValueException: ttl not understood
    | InvalidGenerator(typeName: string)    // UnexpectedValueException: generator not resolvable
    | GenerationExhausted(typeName: string) // RuntimeException: no unique string within the budget
    | Lockout(unlockAt: int)                // LockoutException with its unlock time
    | InvalidToken                          // TokenInvalidException
    | NotFound(value: string, typeName: string) // TokenNotFoundException
    | Expired(token: Token)                 // TokenExpiredException
    | AlreadyUsed(token: Token)             // TokenAlreadyUsedException
    | AccessDenied(owner: Owner)            // TokenAccessException
    | CallbackThrew(reason: string)         // whatever the caller's callback threw

  datatype Result<+T> = Ok(value: T) | Err(error: Error)
}
