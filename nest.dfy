/**
 * The outcome of a server operation: its value, or the exception it raises.
 * `NotFound` is NestJS's `NotFoundException` with its message; `Failure` is
 * any other rejection.
 */
module Nest {

  datatype Result<+T> = Success(value: T) | NotFound(message: string) | Failure(message: string)
}
