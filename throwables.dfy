/**
 * The exceptions a page source can throw. Only the distinctions the paging code
 * makes are kept: `IOException` (mapped to a network error by the app),
 * `CancellationException` (rethrown by the engine) and any other exception.
 *
 * Kotlin compares exceptions by identity, and the load states and errors that
 * hold them inherit that comparison. `id` stands for the identity of the thrown
 * object: two exceptions thrown separately carry different ids, so they differ
 * even when their messages agree.
 */
module Throwables {

  datatype Throwable =
    | IOException(id: nat, message: string)
    | CancellationException(id: nat)
    | OtherException(id: nat, message: string)
}
