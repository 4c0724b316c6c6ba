/**
 * The application builder (crates/rustapi-core/src/app.rs): a DI container
 * and a router.  The container is changed in place through the reference
 * `container_mut` hands out; `build` gives the router back.
 */
module AppBuilder {
  import opened Common
  import opened Engine
  import opened Errors
  import Registry

  class App<V> {
    const container: Registry.Container<V>
    var router: Router

    ghost predicate Valid()
      reads this, container
    {
      container.Valid()
    }

    /** `App::new`: an empty container and an empty router. */
    constructor ()
      ensures Valid() && fresh(container)
      ensures container.services == map[] && container.IsEmpty()
      ensures router == EmptyRouter
    {
      container := new Registry.Container();
      router := EmptyRouter;
    }

    /** `container`: the builder's own container. */
    function Container(): (c: Registry.Container<V>)
      ensures c == container
    {
      container
    }

    /** `container_mut`: the builder's own container, to be changed in place. */
    method ContainerMut() returns (c: Registry.Container<V>)
      ensures c == container
    {
      c := container;
    }

    /** `router`: the router built so far. */
    function Router(): (r: Engine.Router)
      reads this
      ensures r == router
    {
      router
    }

    /**
     * `build`: gives back the router.  No method of the builder mounts routes,
     * so it is the empty router `new` created.
     */
    method Build() returns (r: Engine.Router)
      ensures r == router
    {
      r := router;
    }

    /**
     * `create_listener_at`: binds once; a failure becomes
     * "Failed to bind to <addr>: <reason>".
     */
    static function CreateListenerAt(addr: SocketAddr, bind: SocketAddr -> Result<Listener, string>): (r: Result<Listener, Error>)
      ensures bind(addr).Ok? ==> r == Ok(bind(addr).value)
      ensures bind(addr).Err? ==> r == Err(ServerError("Failed to bind to " + addr.display + ": " + bind(addr).error))
    {
      match bind(addr)
      case Ok(listener) => Ok(listener)
      case Err(e) => Err(NewServerError("Failed to bind to " + addr.display + ": " + e))
    }

    /** `run_server_on`: the engine's accept loop; a failure becomes "Server error: <reason>". */
    static function RunServerOn(listener: Listener, router: Engine.Router, run: (Listener, Engine.Router) -> Result<(), string>): (r: Result<(), Error>)
      ensures r.Ok? <==> run(listener, router).Ok?
      ensures r.Err? ==> r.error == ServerError("Server error: " + run(listener, router).error)
    {
      match run(listener, router)
      case Ok(_) => Ok(())
      case Err(e) => Err(NewServerError("Server error: " + e))
    }

    /**
     * `serve`: bind, and only if that succeeds run the engine on the
     * builder's router; a bind failure aborts before anything is served.
     */
    function Serve(addr: SocketAddr, bind: SocketAddr -> Result<Listener, string>, run: (Listener, Engine.Router) -> Result<(), string>): (r: Result<(), Error>)
      reads this
      ensures bind(addr).Err? ==> r == Err(ServerError("Failed to bind to " + addr.display + ": " + bind(addr).error))
      ensures bind(addr).Ok? ==> r == RunServerOn(bind(addr).value, router, run)
      ensures r.Err? ==> r.error.ServerError?
    {
      match CreateListenerAt(addr, bind)
      case Err(e) => Err(e)
      case Ok(listener) => RunServerOn(listener, router, run)
    }
  }

  /** `App::default`: the same as `App::new`. */
  method Default<V>() returns (app: App<V>)
    ensures app.Valid() && fresh(app) && fresh(app.container)
    ensures app.container.services == map[] && app.container.IsEmpty()
    ensures app.router == EmptyRouter
  {
    app := new App();
  }

  /**
   * Registering through `container_mut` is seen through `container`: both are
   * the builder's one container.
   */
  method RegisterThroughBuilder<V>(app: App<V>, service: Registry.ServiceBox<V>)
    requires app.Valid()
    modifies app.container
    ensures app.Valid()
    ensures app.Container().Resolve(service.tag) == Some(service)
    ensures app.Container().Contains(service.tag)
  {
    var c := app.ContainerMut();
    c.Register(service);
  }

  /** The builder tests: a new or default builder starts with an empty container. */
  method NewAndDefaultStartEmpty<V>() returns (newEmpty: bool, defaultEmpty: bool, r: Router)
    ensures newEmpty && defaultEmpty && r == EmptyRouter
  {
    var a := new App<V>();
    newEmpty := a.Container().IsEmpty();
    var b := Default<V>();
    defaultEmpty := b.Container().IsEmpty();
    r := a.Build();
  }
}
