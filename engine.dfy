/**
 * Stand-ins for the values of the external HTTP engine (axum and tokio) that
 * the core hands around without looking inside.
 */
module Engine {

  /**
   * axum's `Router`: the engine does all routing, so the model keeps only the
   * descriptions of the routes mounted on it.
   */
  datatype Router = Router(mounted: seq<string>)

  /** `Router::new()`: a router with nothing mounted. */
  const EmptyRouter: Router := Router([])

  /** `std::net::SocketAddr`, known to the model only by its `Display` text. */
  datatype SocketAddr = SocketAddr(display: string)

  /** `tokio::net::TcpListener`, bound to a local address. */
  datatype Listener = Listener(local: SocketAddr)
}
