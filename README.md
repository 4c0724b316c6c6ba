# rusty-resty bootstrap core, modelled in Dafny

rusty-resty is a small Rust web framework layered over axum.  What it does
itself, before handing over to axum and tokio, is bootstrap bookkeeping, and
that is what this project models and proves things about:

- **the DI container** (`Registry`, di.rs): a table from a concrete service
  type's identity (`TypeId`, here `TypeTag`) to one shared, type-erased handle
  (`Arc<dyn Any>`, here `ServiceBox`, which remembers its concrete type's tag).
  `Container` is a class whose `services` map the registering methods update
  in place.  Its invariant `Valid()` says every handle sits under its own
  type's tag, so the checked downcast in `resolve` never fails on a present
  key, and `contains` and `resolve` agree;
- **the route attributes** (`Route`, route.rs; `Macros`, lib.rs): the
  expansion of `#[get("/path")]` and its four siblings, over an abstract token
  model.  The argument must be exactly one string literal.  The output is the
  function unchanged followed by `const __<name>_route: &str = "/path"` with
  the function's visibility.  The verb is not used;
- **the server builder** (`Server`, server.rs): defaults `0.0.0.0:3000`, setters
  that change one field each, the address text `host:port`, and the error
  mapping of `serve`;
- **the application builder** (`AppBuilder`, app.rs): a class holding a
  container and a router, the in-place registration through `container_mut`,
  `build`, and the bind-error mapping of `serve`;
- **the error type** (`Errors`, error.rs): five variants, one constructor and
  one display prefix each;
- **the echo service** (`Echo`, echo_service.rs): a counter class whose `echo`
  increments and answers `"<count>: <value>"`.

`Common` holds `Option` and `Result`.  `Fmt` holds the decimal rendering that
`format!` performs, with its inverse.  `Engine` holds opaque stand-ins for
axum's `Router`, `SocketAddr` and tokio's `TcpListener`.

Partners: decimal text and error displays are proved to read back
(`DecimalRoundTrip`, `DisplayRoundTrip`).  The server address is proved to
split back into host and port (`AddressRoundTrip`).  An echo response's text is
proved to give back its count and value (`ResponseRoundTrip`).  A route helper
constant's name is proved to lead back to its handler (`HelperNameRoundTrip`).
The container's methods are proved against the `services` map and keep `Valid()`.

The generated route constant holds only the path, as a bare `&str`
(route.rs:94), and `ExpansionIgnoresMethod` proves the verb makes no
difference.  The examples use the constant as a tuple (`__root_route.0`,
examples/with_macros.rs:81), which does not match that expansion; that use is
not modelled.  Also, `App` has no
method that mounts routes, so `build` always returns the empty router that
`new` created.

## Model

| member | source | states |
|---|---|---|
| `Fmt.Decimal` | crates/rustapi-core/src/server.rs:55 | `{}` of an unsigned integer: at least one digit, only digits, a leading '0' exactly for 0 |
| `Fmt.DecimalRoundTrip` | src/services/echo_service.rs:41 | reading the decimal text of n back gives n |
| `Fmt.DecimalInjective` | src/services/echo_service.rs:41 | distinct counts have distinct decimal texts |
| `Errors.NewServiceNotFound` | crates/rustapi-core/src/error.rs:34-36 | builds `ServiceNotFound(name)`, displayed "Service not found: " + name |
| `Errors.NewRegistrationError` | crates/rustapi-core/src/error.rs:39-41 | builds `RegistrationError(msg)`, displayed "Service registration failed: " + msg |
| `Errors.NewServerError` | crates/rustapi-core/src/error.rs:44-46 | builds `ServerError(msg)`, displayed "HTTP server error: " + msg |
| `Errors.NewRouteError` | crates/rustapi-core/src/error.rs:49-51 | builds `RouteError(msg)`, displayed "Route registration failed: " + msg |
| `Errors.NewOther` | crates/rustapi-core/src/error.rs:54-56 | builds `Other(msg)`, displayed "Error: " + msg |
| `Errors.Display` | crates/rustapi-core/src/error.rs:12-28 | the displayed text reads back as the same variant and message |
| `Errors.DisplayRoundTrip` | crates/rustapi-core/src/error.rs:12-28 | prefix followed by message determines variant and message: no variant's prefix shadows another's |
| `Errors.DisplayInjective` | crates/rustapi-core/src/error.rs:9-30 | two errors that display alike are equal |
| `Registry.Downcast` | crates/rusty-resty-core/src/di.rs:114-116 | yields the handle exactly when its concrete type is the requested one, never another value |
| `Registry.CreateService` | crates/rusty-resty-core/src/di.rs:85-90 | the handle holds the factory's product, typed as the requested type |
| `Registry.Container.constructor` | crates/rusty-resty-core/src/di.rs:36-40 | a new container is valid and has no entries |
| `Registry.Container.Clone` | crates/rusty-resty-core/src/di.rs:29-32 | a fresh container with the same entries |
| `Registry.Container.InsertService` | crates/rusty-resty-core/src/di.rs:63-65 | the map gains or replaces the entry under the given key, nothing else changes |
| `Registry.Container.Register` | crates/rusty-resty-core/src/di.rs:42-55 | stores the handle under its own type; it then resolves to exactly that handle; every other type resolves as before; `len` grows by one only for a new type |
| `Registry.Container.RegisterFactory` | crates/rusty-resty-core/src/di.rs:67-82 | same new state as registering the factory's product; that product then resolves |
| `Registry.Container.LookupService` | crates/rusty-resty-core/src/di.rs:107-111 | present exactly when the key is in the map and its handle has that type; then that handle |
| `Registry.Container.Resolve` | crates/rusty-resty-core/src/di.rs:92-104 | absent for a type never registered; otherwise only the handle stored under that type; in a valid container present iff registered |
| `Registry.Container.ResolveOrPanic` | crates/rusty-resty-core/src/di.rs:118-126 | fails exactly when `resolve` is absent, with "Service <name> not registered"; otherwise the same handle |
| `Registry.Container.Contains` | crates/rusty-resty-core/src/di.rs:128-132 | true iff the type's key is present; in a valid container iff `resolve` succeeds |
| `Registry.Container.Len` | crates/rusty-resty-core/src/di.rs:134-137 | the number of registered types |
| `Registry.Container.IsEmpty` | crates/rusty-resty-core/src/di.rs:139-142 | true iff `len` is 0, and then nothing is contained |
| `Registry.Container.Clear` | crates/rusty-resty-core/src/di.rs:144-147 | no entries remain: `len` 0, empty, every `contains` false, every `resolve` absent |
| `Registry.RegisterTwoAndResolve` | crates/rusty-resty-core/src/di.rs:215-236 | two registrations of different types both resolve to what was registered, and `len` is 2 |
| `Registry.RegisterTwiceKeepsLatest` | crates/rusty-resty-core/src/di.rs:42-45 | registering the same type twice leaves one entry, resolving to the later handle |
| `Registry.ResolveOnEmpty` | crates/rusty-resty-core/src/di.rs:201-213 | on a new container `resolve` is absent, `resolve_or_panic` panics and `is_empty` holds |
| `Registry.RegisterThenClear` | crates/rusty-resty-core/src/di.rs:247-260 | `len` is 1 after a factory registration, and after `clear` it is 0, empty and not containing the type |
| `Route.AsStr` | crates/rustapi-macros/src/route.rs:31-40 | each verb's token GET/POST/PUT/DELETE/PATCH reads back as that verb, so the tokens are distinct |
| `Route.ParseMethodSound` | crates/rustapi-macros/src/route.rs:104-111 | a token that reads as a verb is exactly that verb's `as_str` |
| `Route.AxumMethod` | crates/rustapi-macros/src/route.rs:20-29 | the routing-function name is the ASCII lower-case of the verb's method token |
| `Route.AxumMethodIsLowerAsStr` | crates/rustapi-macros/src/route.rs:20-29 | the routing-function name is the ASCII lower-case of the method token |
| `Route.ParseRouteArgs` | crates/rustapi-macros/src/route.rs:48-53 | succeeds exactly when the stream starts with a string literal, which it takes as the path, leaving the rest |
| `Route.ParseArgsInput` | crates/rustapi-macros/src/route.rs:74-75 | the argument is accepted exactly when it is one string literal, and the path is that literal |
| `Route.ParseItemFn` | crates/rustapi-macros/src/route.rs:78-80 | accepts exactly a function item, unchanged |
| `Route.NewIdent` | crates/rustapi-macros/src/route.rs:83-86 | accepts exactly legal identifiers |
| `Route.HelperTextAsWritten` | crates/rustapi-macros/src/route.rs:84 | through `Display`, the helper text is the intended name for an ordinary identifier and is illegal for a raw one |
| `Route.HelperNameIsIdentifier` | crates/rustapi-macros/src/route.rs:83-86 | `"__" + name + "_route"` is always a legal identifier |
| `Route.HelperNameRoundTrip` | crates/rustapi-macros/src/route.rs:84 | the constant's name leads back to the handler's name |
| `Route.HelperNameInjective` | crates/rustapi-macros/src/route.rs:84 | distinct handlers get distinct constants |
| `Route.ExpandAsWritten` | crates/rustapi-macros/src/route.rs:68-98 | the expansion as written: a bad argument fails first, then a non-function item; for an ordinary handler name the intended output; for a raw-identifier handler with a good argument, a compile failure on the `Display`-formatted name |
| `Route.RawIdentHandlerRejected` | crates/rustapi-macros/src/route.rs:83-86 | `#[get("/")] pub async fn r#type()` fails on the illegal name `__r#type_route` |
| `Route.ExpandRouteMacro` | crates/rustapi-macros/src/route.rs:68-98 | a bad argument fails first, then a non-function item; otherwise the function unchanged, then `__<name>_route` with its visibility holding the path |
| `Route.ExpansionIgnoresMethod` | crates/rustapi-macros/src/route.rs:68-98 | the output is the same for every verb |
| `Route.ExpansionDescriptor` | crates/rustapi-macros/src/route.rs:88-95 | for a literal path and a function: two items, the function first, then a constant with its visibility and the path, named after the handler |
| `Macros.Get` | crates/rustapi-macros/src/lib.rs:24-27 | `#[get]` produces the route expansion of its argument and item |
| `Macros.Post` | crates/rustapi-macros/src/lib.rs:39-42 | `#[post]` produces the route expansion of its argument and item |
| `Macros.Put` | crates/rustapi-macros/src/lib.rs:54-57 | `#[put]` produces the route expansion of its argument and item |
| `Macros.Delete` | crates/rustapi-macros/src/lib.rs:69-72 | `#[delete]` produces the route expansion of its argument and item |
| `Macros.Patch` | crates/rustapi-macros/src/lib.rs:84-87 | `#[patch]` produces the route expansion of its argument and item |
| `Macros.AllVerbsExpandAlike` | crates/rustapi-macros/src/lib.rs:24-87 | the five attributes produce identical output |
| `Server.New` | crates/rustapi-core/src/server.rs:28-37 | keeps the router, port 3000, host "0.0.0.0" |
| `Server.RustApi.Port` | crates/rustapi-core/src/server.rs:39-43 | sets the port, keeps host and router |
| `Server.RustApi.Host` | crates/rustapi-core/src/server.rs:45-49 | sets the host, keeps port and router |
| `Server.SettersCompose` | crates/rustapi-core/src/server.rs:40-49 | the setters commute and the last call of each wins |
| `Server.BuilderExample` | crates/rustapi-core/src/server.rs:84-92 | `new(r).port(8080).host("127.0.0.1")` has port 8080, host "127.0.0.1", router r |
| `Server.Address` | crates/rustapi-core/src/server.rs:55 | the address text splits back at its last ':' into exactly the configured host and port |
| `Server.AddressRoundTrip` | crates/rustapi-core/src/server.rs:55 | `host + ":" + decimal(port)` splits back at its last ':' into exactly that host and port, even when the host holds colons |
| `Server.Serve` | crates/rustapi-core/src/server.rs:54-69 | parse failure gives "Invalid address <addr>: …", bind failure "Failed to bind to <addr>: …" with no retry, engine failure "Server error: …"; every failure is a `ServerError` |
| `Server.ServeFailureDisplay` | crates/rustapi-core/src/server.rs:56-61 | every failure of `serve` displays with the "HTTP server error: " prefix and reads back as itself |
| `AppBuilder.App.constructor` | crates/rustapi-core/src/app.rs:32-38 | a new builder has an empty, valid container and the empty router |
| `AppBuilder.App.Container` | crates/rustapi-core/src/app.rs:40-43 | the builder's own container |
| `AppBuilder.App.ContainerMut` | crates/rustapi-core/src/app.rs:45-48 | the same container object, for in-place changes |
| `AppBuilder.App.Router` | crates/rustapi-core/src/app.rs:50-53 | the builder's router |
| `AppBuilder.App.Build` | crates/rustapi-core/src/app.rs:55-58 | returns exactly the builder's router |
| `AppBuilder.App.CreateListenerAt` | crates/rustapi-core/src/app.rs:74-79 | the bound listener, or "Failed to bind to <addr>: <reason>" as a `ServerError` |
| `AppBuilder.App.RunServerOn` | crates/rustapi-core/src/app.rs:81-89 | succeeds when the engine does; otherwise "Server error: <reason>" as a `ServerError` |
| `AppBuilder.App.Serve` | crates/rustapi-core/src/app.rs:60-72 | a bind failure aborts with its error before anything is served; otherwise the engine runs on the builder's router |
| `AppBuilder.Default` | crates/rustapi-core/src/app.rs:92-96 | the same as `new`: empty container, empty router |
| `AppBuilder.RegisterThroughBuilder` | crates/rustapi-core/src/app.rs:40-48 | a registration through `container_mut` is seen through `container` |
| `AppBuilder.NewAndDefaultStartEmpty` | crates/rustapi-core/src/app.rs:102-112 | `new` and `default` both start with an empty container; `build` gives the empty router |
| `Echo.CreateResponse` | src/services/echo_service.rs:38-43 | the response carries the count, and its text gives back exactly that count and the value |
| `Echo.ResponseRoundTrip` | src/services/echo_service.rs:41 | the text `"<count>: <value>"` gives back exactly its count and value, even when the value holds colons |
| `Echo.EchoService.constructor` | src/services/echo_service.rs:20-24 | a new service has counted no calls |
| `Echo.EchoService.IncrementCounter` | src/services/echo_service.rs:33-36 | the counter goes up by one, modulo 2^64, and the new value is returned |
| `Echo.EchoService.Echo` | src/services/echo_service.rs:26-31 | the counter goes up by one; the answer reports the new count and the text `"<count>: <value>"` |
| `Echo.EchoInSequence` | src/services/echo_service.rs:26-36 | n calls on a fresh service answer with counts 1, 2, …, n in order, each echoing its value |

## Findings

| source | as written | input that shows it | evidently intended | confidence | as-written member | corrected member |
|---|---|---|---|---|---|---|
| crates/rustapi-macros/src/route.rs:83-86 | the constant's name is formatted from the identifier's `Display`, which keeps the `r#` of a raw identifier, and `syn::Ident::new` panics on the result | `#[get("/")] pub async fn r#type()` gives `"__r#type_route"` | name the constant from the identifier without `r#` (`__type_route`), so every handler gets a constant | medium, not executed | `Route.ExpandAsWritten`, `Route.RawIdentHandlerRejected` | `Route.ExpandRouteMacro`, `Route.HelperNameIsIdentifier` |

The rest of the model (`Macros`) uses the corrected expansion.  For every
handler whose name is not a raw identifier, the two agree (`ExpandAsWritten`).

## Left out

- Socket-address parsing, `TcpListener::bind` and `axum::serve` are library and network calls.  They enter `Server.Serve` and `AppBuilder.App.Serve` as function parameters, so the model fixes only what is done with their results.
- `tracing` log lines and `local_addr().unwrap()` in `run_server_on` are left out: they are logging and cannot fail once the listener is bound.
- Server.Serve: the source returns `Ok(())` when the engine stops without error.  The model returns `Served(listener, router)` to record what was served.
- axum's `Router` is opaque (`Engine.Router`): routing and request dispatch belong to the engine.  crates/rustapi-core/src/router.rs is not part of this model.
- `TypeId` is a tag and `type_name` is the tag's name.  Arc reference counting, freeing and `Send`/`Sync` are not modelled.
- Registry.Container.RegisterFactory: the factory is a pure Dafny function, so "runs exactly once" holds by construction rather than being stated.
- The `di` module that crates/rustapi-core/src/app.rs imports is not part of this model.  It is taken to be the container of crates/rusty-resty-core/src/di.rs.
- AppBuilder.App.Build: Rust's move of `self` is not modelled.  The Dafny builder stays usable after `Build`.
- Echo.EchoService.IncrementCounter: models release-build arithmetic, where the `+ 1` after `fetch_add` wraps at 2^64.  A debug build would panic on that call when the counter was `u64::MAX`.
- Concurrency is left out: the atomic's `SeqCst` ordering and the no-lost-updates property under concurrent callers.  Calls are modelled one at a time.
- Route tokens are abstract.  Spans, the exact syn error texts (kept as error kinds), `to_compile_error`, `#[allow(non_upper_case_globals)]` and non-ASCII identifiers are not modelled.
- Macros.Get, Macros.Post, Macros.Put, Macros.Delete, Macros.Patch: model the corrected expansion `Route.ExpandRouteMacro` of the Findings row, not the as-written one lib.rs calls.  They therefore succeed on a handler named with a raw identifier and a good argument, where the source's macro panics; `Route.ExpandAsWritten` and `Route.RawIdentHandlerRejected` capture that failure.
- Application and example wiring is not part of this model: src/main.rs, src/lib.rs, the controllers, examples/ and the crates' lib.rs re-exports.
