/**
 * The dependency-injection container (crates/rusty-resty-core/src/di.rs): a
 * table from the identity of a concrete service type to one shared, type-erased
 * handle of that type.  `register` replaces, `resolve` looks up and then
 * downcasts, `resolve_or_panic` fails fast.
 */
module Registry {
  import opened Common

  /**
   * `std::any::TypeId` of a concrete service type.  Distinct types have
   * distinct tags; the name is what `std::any::type_name` gives.
   */
  datatype TypeTag = TypeTag(name: string)

  /**
   * `Arc<dyn Any + Send + Sync>`: a shared handle that has forgotten its static
   * type but still knows, at run time, the tag of the concrete type it holds.
   */
  datatype ServiceBox<V> = ServiceBox(tag: TypeTag, val: V)

  /**
   * `Arc::downcast::<T>`: hands the handle back, now typed, exactly when the
   * value inside is of the requested type; never coerces.
   */
  function Downcast<V>(boxed: ServiceBox<V>, t: TypeTag): (r: Option<ServiceBox<V>>)
    ensures r.Some? <==> boxed.tag == t
    ensures r.Some? ==> r.value == boxed && r.value.tag == t
  {
    if boxed.tag == t then Some(boxed) else None
  }

  /** `create_service`: runs the factory and wraps its product as a handle of type `t`. */
  function CreateService<V>(t: TypeTag, factory: () -> V): (s: ServiceBox<V>)
    ensures s.tag == t && s.val == factory()
  {
    ServiceBox(t, factory())
  }

  /** The panic message of `resolve_or_panic` for a missing service. */
  function NotRegisteredMessage(t: TypeTag): string {
    "Service " + t.name + " not registered"
  }

  class Container<V> {
    var services: map<TypeTag, ServiceBox<V>>

    /** Every handle is stored under the tag of its own concrete type. */
    ghost predicate Valid()
      reads this
    {
      forall t :: t in services ==> services[t].tag == t
    }

    /** `Container::new` (and `Default`): no services. */
    constructor ()
      ensures Valid()
      ensures services == map[]
    {
      services := map[];
    }

    /** `#[derive(Clone)]`: a new table sharing the same handles. */
    method Clone() returns (c: Container<V>)
      ensures fresh(c)
      ensures c.services == services
    {
      c := new Container();
      c.services := services;
    }

    /** `insert_service`: stores `service` under `typeId`, replacing what was there. */
    method InsertService(typeId: TypeTag, service: ServiceBox<V>)
      modifies this
      ensures services == old(services)[typeId := service]
    {
      services := services[typeId := service];
    }

    /**
     * `register::<T>`: stores the handle under its own type, replacing an
     * earlier handle of that type; every other type keeps its entry.
     */
    method Register(service: ServiceBox<V>)
      requires Valid()
      modifies this
      ensures Valid()
      ensures services == old(services)[service.tag := service]
      ensures Resolve(service.tag) == Some(service)
      ensures forall t :: t != service.tag ==> Resolve(t) == old(Resolve(t))
      ensures Len() == if old(Contains(service.tag)) then old(Len()) else old(Len()) + 1
    {
      InsertService(service.tag, service);
    }

    /**
     * `register_factory::<T>`: runs the factory once and registers its product
     * as a handle of type `t`, exactly as `register(Arc::new(factory()))`.
     */
    method RegisterFactory(t: TypeTag, factory: () -> V)
      requires Valid()
      modifies this
      ensures Valid()
      ensures services == old(services)[t := ServiceBox(t, factory())]
      ensures Resolve(t) == Some(ServiceBox(t, factory()))
      ensures forall u :: u != t ==> Resolve(u) == old(Resolve(u))
    {
      var service := CreateService(t, factory);
      Register(service);
    }

    /** `lookup_service`: the entry under `t`, if any, downcast to `t`. */
    function LookupService(t: TypeTag): (r: Option<ServiceBox<V>>)
      reads this
      ensures r.Some? <==> t in services && services[t].tag == t
      ensures r.Some? ==> r.value == services[t]
    {
      if t in services then Downcast(services[t], t) else None
    }

    /**
     * `resolve::<T>`: absent when `T` was never registered; otherwise the handle
     * registered for `T` and nothing else.  In a valid table the downcast never
     * fails, so presence alone decides.
     */
    function Resolve(t: TypeTag): (r: Option<ServiceBox<V>>)
      reads this
      ensures r.Some? ==> t in services && r.value == services[t] && r.value.tag == t
      ensures t !in services ==> r.None?
      ensures Valid() ==> (r.Some? <==> t in services)
    {
      LookupService(t)
    }

    /**
     * `resolve_or_panic::<T>`: the same handle as `resolve`, or a panic (here
     * `Err` with the panic message) when `resolve` gives nothing.
     */
    function ResolveOrPanic(t: TypeTag): (r: Result<ServiceBox<V>, string>)
      reads this
      ensures r.Ok? <==> Resolve(t).Some?
      ensures r.Ok? ==> r.value == Resolve(t).value
      ensures r.Err? ==> r.error == "Service " + t.name + " not registered"
    {
      match Resolve(t)
      case Some(s) => Ok(s)
      case None => Err(NotRegisteredMessage(t))
    }

    /** `contains::<T>`: whether some handle is stored for `T`. */
    function Contains(t: TypeTag): (b: bool)
      reads this
      ensures b <==> t in services
      ensures Valid() ==> (b <==> Resolve(t).Some?)
    {
      t in services
    }

    /** `len`: the number of registered types. */
    function Len(): (n: nat)
      reads this
      ensures n == |services.Keys|
    {
      |services|
    }

    /** `is_empty`: no type is registered. */
    function IsEmpty(): (b: bool)
      reads this
      ensures b <==> Len() == 0
      ensures b ==> forall t :: !Contains(t)
    {
      services == map[]
    }

    /** `clear`: removes every entry. */
    method Clear()
      modifies this
      ensures Valid()
      ensures services == map[]
      ensures Len() == 0 && IsEmpty()
      ensures forall t :: !Contains(t) && Resolve(t).None?
    {
      services := map[];
    }
  }

  /**
   * The registration scenario of the tests: a database handle, then a service
   * holding a reference to it, both registered and both resolvable afterwards.
   */
  method RegisterTwoAndResolve<V>(first: ServiceBox<V>, second: ServiceBox<V>)
    returns (r1: Option<ServiceBox<V>>, r2: Option<ServiceBox<V>>, n: nat)
    requires first.tag != second.tag
    ensures r1 == Some(first) && r2 == Some(second) && n == 2
  {
    var c := new Container<V>();
    c.Register(first);
    c.Register(second);
    r1 := c.Resolve(first.tag);
    r2 := c.Resolve(second.tag);
    n := c.Len();
  }

  /**
   * Registering twice under one type leaves one entry, and only the later
   * handle resolves.
   */
  method RegisterTwiceKeepsLatest<V>(earlier: ServiceBox<V>, later: ServiceBox<V>)
    returns (r: Option<ServiceBox<V>>, n: nat)
    requires earlier.tag == later.tag
    ensures r == Some(later) && n == 1
  {
    var c := new Container<V>();
    c.Register(earlier);
    c.Register(later);
    r := c.Resolve(later.tag);
    n := c.Len();
  }

  /** A fresh container resolves nothing: `resolve` is absent and `resolve_or_panic` panics. */
  method ResolveOnEmpty<V>(t: TypeTag) returns (r: Option<ServiceBox<V>>, p: Result<ServiceBox<V>, string>, empty: bool)
    ensures r.None? && p == Err(NotRegisteredMessage(t)) && empty
  {
    var c := new Container<V>();
    r := c.Resolve(t);
    p := c.ResolveOrPanic(t);
    empty := c.IsEmpty();
  }

  /** After a registration and `clear`, the container is empty again. */
  method RegisterThenClear<V>(t: TypeTag, factory: () -> V) returns (before: nat, after: nat, empty: bool, present: bool)
    ensures before == 1 && after == 0 && empty && !present
  {
    var c := new Container<V>();
    c.RegisterFactory(t, factory);
    before := c.Len();
    c.Clear();
    after := c.Len();
    empty := c.IsEmpty();
    present := c.Contains(t);
  }
}
