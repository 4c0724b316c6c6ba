/**
 * The server builder (crates/rustapi-core/src/server.rs): a router with a host
 * and a port, builder setters that each overwrite one field, and `serve`,
 * whose address formatting and error mapping are modelled.  Parsing the
 * address, binding the socket and running the engine's accept loop are
 * outside the model and arrive as parameters.
 */
module Server {
  import opened Common
  import opened Fmt
  import opened Engine
  import opened Errors

  type u16 = x: int | 0 <= x < 0x1_0000

  const DefaultHost: string := "0.0.0.0"
  const DefaultPort: u16 := 3000

  /** `RustAPI`: the router to serve and where to listen. */
  datatype RustApi = RustApi(router: Router, port: u16, host: string) {

    /** `port`: a copy listening on `p`, everything else kept. */
    function Port(p: u16): (s: RustApi)
      ensures s.port == p && s.host == host && s.router == router
    {
      this.(port := p)
    }

    /** `host`: a copy binding to `h`, everything else kept. */
    function Host(h: string): (s: RustApi)
      ensures s.host == h && s.port == port && s.router == router
    {
      this.(host := h)
    }
  }

  /** `RustAPI::new`: the given router on `0.0.0.0:3000`. */
  function New(router: Router): (s: RustApi)
    ensures s.router == router && s.port == 3000 && s.host == "0.0.0.0"
  {
    RustApi(router, DefaultPort, DefaultHost)
  }

  /** The two setters touch different fields, so their order does not matter, and the last call of each wins. */
  lemma SettersCompose(s: RustApi, p: u16, q: u16, h: string, k: string)
    ensures s.Port(p).Host(h) == s.Host(h).Port(p)
    ensures s.Port(p).Port(q) == s.Port(q)
    ensures s.Host(h).Host(k) == s.Host(k)
  {
  }

  /** The builder test: `new(r).port(8080).host("127.0.0.1")`. */
  lemma BuilderExample(r: Router)
    ensures var s := New(r).Port(8080).Host("127.0.0.1");
            s.port == 8080 && s.host == "127.0.0.1" && s.router == r
  {
  }

  /** `format!("{}:{}", host, port)`: the address text `serve` parses. */
  function Address(s: RustApi): (a: string)
    ensures SplitHostPort(a) == Some((s.host, s.port))
  {
    AddressRoundTrip(s.host, s.port);
    s.host + ":" + Decimal(s.port)
  }

  /**
   * Splits an address text at its last ':' into a host and a decimal port, as
   * a `host:port` reader does.
   */
  function SplitHostPort(addr: string): Option<(string, nat)> {
    match LastIndexOf(addr, ':')
    case None => None
    case Some(i) =>
      var portText := addr[i + 1..];
      if |portText| >= 1 && AllDigits(portText) then Some((addr[..i], ParseDecimal(portText))) else None
  }

  /**
   * The address text names exactly the configured host and port: reading it
   * back at its last ':' gives both, even when the host itself holds colons.
   */
  lemma AddressRoundTrip(host: string, port: u16)
    ensures SplitHostPort(host + ":" + Decimal(port)) == Some((host, port))
  {
    var digits := Decimal(port);
    DigitsExclude(digits, ':');
    LastIndexOfJoin(host, ':', digits);
    var a := host + ":" + digits;
    assert a == host + [':'] + digits;
    assert a[|host| + 1..] == digits;
    assert a[..|host|] == host;
    DecimalRoundTrip(port);
  }

  /** What `serve` ends with when it is not stopped by an error: the engine ran on this listener and router. */
  datatype Served = Served(listener: Listener, router: Router)

  /**
   * `serve`: format the address, parse it (an error becomes "Invalid address
   * …"), bind once (an error becomes "Failed to bind to …", with no retry),
   * then run the engine's accept loop (an error becomes "Server error: …").
   * `parse`, `bind` and `run` are the library calls the model cannot see.
   */
  function Serve(
    s: RustApi,
    parse: string -> Result<SocketAddr, string>,
    bind: SocketAddr -> Result<Listener, string>,
    run: (Listener, Router) -> Result<(), string>
  ): (r: Result<Served, Error>)
    ensures r.Err? ==> r.error.ServerError?
    ensures parse(Address(s)).Err? ==>
              r == Err(ServerError("Invalid address " + Address(s) + ": " + parse(Address(s)).error))
    ensures parse(Address(s)).Ok? ==>
              var sa := parse(Address(s)).value;
              && (bind(sa).Err? ==> r == Err(ServerError("Failed to bind to " + sa.display + ": " + bind(sa).error)))
              && (bind(sa).Ok? && run(bind(sa).value, s.router).Err? ==>
                    r == Err(ServerError("Server error: " + run(bind(sa).value, s.router).error)))
              && (bind(sa).Ok? && run(bind(sa).value, s.router).Ok? ==> r == Ok(Served(bind(sa).value, s.router)))
  {
    var addr := Address(s);
    match parse(addr)
    case Err(e) => Err(NewServerError("Invalid address " + addr + ": " + e))
    case Ok(socketAddr) =>
      match bind(socketAddr)
      case Err(e) => Err(NewServerError("Failed to bind to " + socketAddr.display + ": " + e))
      case Ok(listener) =>
        match run(listener, s.router)
        case Err(e) => Err(NewServerError("Server error: " + e))
        case Ok(_) => Ok(Served(listener, s.router))
  }

  /** Every failure of `serve` displays as an HTTP server error. */
  lemma ServeFailureDisplay(
    s: RustApi,
    parse: string -> Result<SocketAddr, string>,
    bind: SocketAddr -> Result<Listener, string>,
    run: (Listener, Router) -> Result<(), string>
  )
    ensures var r := Serve(s, parse, bind, run);
            r.Err? ==> ParseDisplay(Display(r.error)) == Some(r.error) && ServerPrefix <= Display(r.error)
  {
    var r := Serve(s, parse, bind, run);
    if r.Err? {
      DisplayRoundTrip(r.error);
    }
  }
}
