/** Result types shared by every module, and the exceptions the services raise. */
module Prelude {

  datatype Option<+T> = None | Some(value: T)

  /** What a call gives back: a value, or the exception that left it. */
  datatype Result<+T> = Ok(value: T) | Err(error: Error)

  datatype Error =
    | TenantNotFound       // ValueError of start_tenant, HTTP 404 of the resolver
    | UnknownProvider      // ValueError of get_provider
    | ProviderUnconfigured // HTTP 400: no API key on the server
    | SlugTaken            // HTTP 409
    | IntegrityError       // unique or foreign key constraint
    | AttributeError       // attribute of None
    | MalformedConfig      // a config value that is not an object where one is needed
    | MultipleResults      // scalar_one_or_none saw more than one row
    | InvalidTag           // authenticated decryption failed
    | OnboardingFailed     // HTTP 500: the init container reported failure
    | NotAvailable         // HTTP 503
    | MalformedReply       // a reply whose body is not JSON
    | TransportError       // a request got no reply
    | DockerError          // the Docker daemon or the host's file system refused or dropped a call
    | DatabaseError        // the database connection was lost

  /** Something outside the program that may go wrong, unless it is said to be reliable. */
  method Happens(reliable: bool) returns (ok: bool)
    ensures reliable ==> ok
  {
    ok := *;
    ok := ok || reliable;
  }
}
