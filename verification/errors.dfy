/** The crate-wide error enum (src/error.rs), restricted to the variants the core raises. */
module Errors {

  datatype Error =
    | Regex                        // a route pattern failed to compile
    | InvalidRoute(route: string)  // a method the request builder has no verb for
    | Custom(message: string)      // every other failure, carrying its message text
}
