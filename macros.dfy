/**
 * The five attribute macros `#[get]`, `#[post]`, `#[put]`, `#[delete]` and
 * `#[patch]` (crates/rustapi-macros/src/lib.rs): each hands its argument and
 * item unchanged to the route expansion with its own verb.
 */
module Macros {
  import opened Common
  import Route

  /** `#[get("…")]`. */
  function Get(args: seq<Route.Token>, input: Route.Item): (r: Result<seq<Route.Emitted>, Route.CompileError>)
    ensures Route.IsRouteExpansion(args, input, r)
  {
    Route.ExpandRouteMacro(Route.Get, args, input)
  }

  /** `#[post("…")]`. */
  function Post(args: seq<Route.Token>, input: Route.Item): (r: Result<seq<Route.Emitted>, Route.CompileError>)
    ensures Route.IsRouteExpansion(args, input, r)
  {
    Route.ExpandRouteMacro(Route.Post, args, input)
  }

  /** `#[put("…")]`. */
  function Put(args: seq<Route.Token>, input: Route.Item): (r: Result<seq<Route.Emitted>, Route.CompileError>)
    ensures Route.IsRouteExpansion(args, input, r)
  {
    Route.ExpandRouteMacro(Route.Put, args, input)
  }

  /** `#[delete("…")]`. */
  function Delete(args: seq<Route.Token>, input: Route.Item): (r: Result<seq<Route.Emitted>, Route.CompileError>)
    ensures Route.IsRouteExpansion(args, input, r)
  {
    Route.ExpandRouteMacro(Route.Delete, args, input)
  }

  /** `#[patch("…")]`. */
  function Patch(args: seq<Route.Token>, input: Route.Item): (r: Result<seq<Route.Emitted>, Route.CompileError>)
    ensures Route.IsRouteExpansion(args, input, r)
  {
    Route.ExpandRouteMacro(Route.Patch, args, input)
  }

  /**
   * Since the verb is not used by the expansion, the five attributes produce
   * the same items: the route constant records the path only.
   */
  lemma AllVerbsExpandAlike(args: seq<Route.Token>, input: Route.Item)
    ensures Get(args, input) == Post(args, input) == Put(args, input) == Delete(args, input) == Patch(args, input)
  {
    Route.ExpansionIgnoresMethod(Route.Get, Route.Patch, args, input);
  }
}
