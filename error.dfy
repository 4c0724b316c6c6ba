/**
 * The framework's error type (crates/rustapi-core/src/error.rs): five variants,
 * each carrying a message, each displayed as a fixed prefix followed by that
 * message, and one constructor function per variant.
 */
module Errors {
  import opened Common

  datatype Error =
    | ServiceNotFound(msg: string)
    | RegistrationError(msg: string)
    | ServerError(msg: string)
    | RouteError(msg: string)
    | Other(msg: string)

  const ServiceNotFoundPrefix: string := "Service not found: "
  const RegistrationPrefix: string := "Service registration failed: "
  const ServerPrefix: string := "HTTP server error: "
  const RoutePrefix: string := "Route registration failed: "
  const OtherPrefix: string := "Error: "

  /** The fixed text `Display` writes before the message of each variant. */
  function Prefix(e: Error): string {
    match e
    case ServiceNotFound(_) => ServiceNotFoundPrefix
    case RegistrationError(_) => RegistrationPrefix
    case ServerError(_) => ServerPrefix
    case RouteError(_) => RoutePrefix
    case Other(_) => OtherPrefix
  }

  /** `e.to_string()`, as the `#[error("…: {0}")]` attributes define it. */
  function Display(e: Error): (s: string)
    ensures ParseDisplay(s) == Some(e)
  {
    DisplayRoundTrip(e);
    Prefix(e) + e.msg
  }

  /**
   * Reads a displayed error back: the variant is the one whose prefix the text
   * starts with, the message is the rest.  No prefix is a prefix of another's,
   * so the order of the tests does not matter.
   */
  function ParseDisplay(s: string): Option<Error> {
    if ServiceNotFoundPrefix <= s then Some(ServiceNotFound(s[|ServiceNotFoundPrefix|..]))
    else if RegistrationPrefix <= s then Some(RegistrationError(s[|RegistrationPrefix|..]))
    else if ServerPrefix <= s then Some(ServerError(s[|ServerPrefix|..]))
    else if RoutePrefix <= s then Some(RouteError(s[|RoutePrefix|..]))
    else if OtherPrefix <= s then Some(Other(s[|OtherPrefix|..]))
    else None
  }

  /** The displayed text determines the error: variant and message are both recovered. */
  lemma DisplayRoundTrip(e: Error)
    ensures ParseDisplay(Prefix(e) + e.msg) == Some(e)
  {
    var s := Prefix(e) + e.msg;
    assert s[..|Prefix(e)|] == Prefix(e);
    assert s[|Prefix(e)|..] == e.msg;
    match e
    case ServiceNotFound(_) =>
    case RegistrationError(_) =>
      assert s[8] == 'r';
    case ServerError(_) =>
      assert s[0] == 'H';
    case RouteError(_) =>
      assert s[0] == 'R';
    case Other(_) =>
      assert s[0] == 'E';
  }

  /** Two errors that display alike are the same error. */
  lemma DisplayInjective(e1: Error, e2: Error)
    ensures Display(e1) == Display(e2) ==> e1 == e2
  {
    DisplayRoundTrip(e1);
    DisplayRoundTrip(e2);
  }

  /** `Error::service_not_found`. */
  function NewServiceNotFound(serviceName: string): (e: Error)
    ensures e.ServiceNotFound? && e.msg == serviceName
    ensures Display(e) == "Service not found: " + serviceName
  {
    ServiceNotFound(serviceName)
  }

  /** `Error::registration_error`. */
  function NewRegistrationError(msg: string): (e: Error)
    ensures e.RegistrationError? && e.msg == msg
    ensures Display(e) == "Service registration failed: " + msg
  {
    RegistrationError(msg)
  }

  /** `Error::server_error`. */
  function NewServerError(msg: string): (e: Error)
    ensures e.ServerError? && e.msg == msg
    ensures Display(e) == "HTTP server error: " + msg
  {
    ServerError(msg)
  }

  /** `Error::route_error`. */
  function NewRouteError(msg: string): (e: Error)
    ensures e.RouteError? && e.msg == msg
    ensures Display(e) == "Route registration failed: " + msg
  {
    RouteError(msg)
  }

  /** `Error::other`. */
  function NewOther(msg: string): (e: Error)
    ensures e.Other? && e.msg == msg
    ensures Display(e) == "Error: " + msg
  {
    Other(msg)
  }
}
