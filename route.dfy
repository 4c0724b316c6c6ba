/**
 * The route attribute expansion (crates/rustapi-macros/src/route.rs), over an
 * abstract token model: the attribute's argument is a token stream, the
 * annotated item is either a function (visibility, name, signature, body) or
 * something else, and the output is the list of items emitted.
 */
module Route {
  import opened Common
  import opened Fmt

  datatype HttpMethod = Get | Post | Put | Delete | Patch

  /** `axum_method`: the name of axum's routing function for the verb. */
  function AxumMethod(m: HttpMethod): (r: string)
    ensures r == AsciiLower(AsStr(m))
  {
    match m
    case Get => "get"
    case Post => "post"
    case Put => "put"
    case Delete => "delete"
    case Patch => "patch"
  }

  /** `as_str`: the method token of the verb. */
  function AsStr(m: HttpMethod): (r: string)
    ensures ParseMethod(r) == Some(m)
  {
    match m
    case Get => "GET"
    case Post => "POST"
    case Put => "PUT"
    case Delete => "DELETE"
    case Patch => "PATCH"
  }

  /** The verb a method token names, if any; the inverse of `AsStr`. */
  function ParseMethod(s: string): Option<HttpMethod> {
    if s == "GET" then Some(Get)
    else if s == "POST" then Some(Post)
    else if s == "PUT" then Some(Put)
    else if s == "DELETE" then Some(Delete)
    else if s == "PATCH" then Some(Patch)
    else None
  }

  /** A token that reads as a verb is exactly that verb's token. */
  lemma ParseMethodSound(s: string)
    ensures ParseMethod(s).Some? ==> AsStr(ParseMethod(s).value) == s
  {
  }

  function AsciiLowerChar(c: char): char {
    if 'A' <= c <= 'Z' then (c as int - 'A' as int + 'a' as int) as char else c
  }

  /** ASCII lower-casing, character by character. */
  function AsciiLower(s: string): (r: string)
    ensures |r| == |s|
    ensures forall i :: 0 <= i < |s| ==> r[i] == AsciiLowerChar(s[i])
  {
    if s == [] then [] else [AsciiLowerChar(s[0])] + AsciiLower(s[1..])
  }

  /** The routing-function name is the lower-case form of the method token. */
  lemma AxumMethodIsLowerAsStr(m: HttpMethod)
    ensures AxumMethod(m) == AsciiLower(AsStr(m))
  {
    var lower := AsciiLower(AsStr(m));
    assert |lower| == |AxumMethod(m)|;
    forall i | 0 <= i < |lower| ensures lower[i] == AxumMethod(m)[i] {
    }
  }

  // ---------------------------------------------------------------------
  // Tokens and items

  predicate IsIdentStart(c: char) {
    'a' <= c <= 'z' || 'A' <= c <= 'Z' || c == '_'
  }

  predicate IsIdentContinue(c: char) {
    IsIdentStart(c) || IsDigit(c)
  }

  /** An ASCII Rust identifier other than `_`: the names `syn::Ident::new` is given here. */
  predicate IsIdentifier(s: string) {
    && |s| >= 1
    && s != "_"
    && IsIdentStart(s[0])
    && forall i :: 1 <= i < |s| ==> IsIdentContinue(s[i])
  }

  /** An identifier token; `raw` marks the `r#name` spelling. */
  datatype RawIdent = RawIdent(sym: string, raw: bool)
  type Ident = id: RawIdent | IsIdentifier(id.sym) witness RawIdent("f", false)

  /** `Display` of an identifier: raw identifiers keep their `r#`. */
  function IdentDisplay(id: Ident): string {
    (if id.raw then "r#" else "") + id.sym
  }

  datatype Token = LitStr(value: string) | IdentToken(id: Ident) | Punct(ch: char)

  /** `pub`, `pub(crate)`, `pub(in path)` or nothing. */
  datatype Visibility = Inherited | Public | Restricted(path: string)

  /** `syn::ItemFn`, reduced to what the expansion looks at; the rest is kept as tokens. */
  datatype ItemFn = ItemFn(vis: Visibility, name: Ident, sig: seq<Token>, body: seq<Token>)

  /** The item the attribute is placed on. */
  datatype Item = FnItem(f: ItemFn) | OtherItem(tokens: seq<Token>)

  /** The compile errors the expansion can produce instead of output. */
  datatype CompileError =
    | ExpectedStringLiteral
    | UnexpectedToken(t: Token)
    | ExpectedFunction
    | InvalidIdent(text: string)

  datatype RouteArgs = RouteArgs(path: string)

  /** An emitted item: the handler as it was, or a `const NAME: &str = "…";`. */
  datatype Emitted = EmitFn(f: ItemFn) | EmitConst(vis: Visibility, name: string, value: string)

  /**
   * `RouteArgs::parse`: takes one string literal off the front of the stream
   * and leaves the rest.
   */
  function ParseRouteArgs(stream: seq<Token>): (r: Result<(RouteArgs, seq<Token>), CompileError>)
    ensures r.Ok? <==> |stream| >= 1 && stream[0].LitStr?
    ensures r.Ok? ==> [LitStr(r.value.0.path)] + r.value.1 == stream
    ensures r.Err? ==> r.error == ExpectedStringLiteral
  {
    if |stream| >= 1 && stream[0].LitStr? then Ok((RouteArgs(stream[0].value), stream[1..]))
    else Err(ExpectedStringLiteral)
  }

  /**
   * `parse_macro_input!(args as RouteArgs)`: the parse must consume the whole
   * argument, so the argument is accepted exactly when it is one string literal.
   */
  function ParseArgsInput(args: seq<Token>): (r: Result<RouteArgs, CompileError>)
    ensures r.Ok? <==> |args| == 1 && args[0].LitStr?
    ensures r.Ok? ==> args == [LitStr(r.value.path)]
  {
    match ParseRouteArgs(args)
    case Err(e) => Err(e)
    case Ok((parsed, rest)) =>
      if rest == [] then Ok(parsed) else Err(UnexpectedToken(rest[0]))
  }

  /** `parse_macro_input!(input as ItemFn)`. */
  function ParseItemFn(input: Item): (r: Result<ItemFn, CompileError>)
    ensures r.Ok? <==> input.FnItem?
    ensures r.Ok? ==> r.value == input.f
  {
    match input
    case FnItem(f) => Ok(f)
    case OtherItem(_) => Err(ExpectedFunction)
  }

  /** `syn::Ident::new`: accepts legal identifiers and panics on anything else. */
  function NewIdent(text: string): (r: Result<string, CompileError>)
    ensures r.Ok? <==> IsIdentifier(text)
    ensures r.Ok? ==> r.value == text
  {
    if IsIdentifier(text) then Ok(text) else Err(InvalidIdent(text))
  }

  // ---------------------------------------------------------------------
  // The helper constant's name

  /** `format!("__{}_route", func_name)` as route.rs:84 writes it, through `Display`. */
  /**
   * Spelled through `Display`, the helper's text is the intended name for an
   * ordinary identifier, and is no identifier at all for a raw one.
   */
  function HelperTextAsWritten(name: Ident): (h: string)
    ensures !name.raw ==> h == HelperName(name)
    ensures name.raw ==> !IsIdentifier(h)
  {
    var h := "__" + IdentDisplay(name) + "_route";
    assert name.raw ==> h[3] == '#';
    h
  }

  /** The helper constant's name, from the identifier's own spelling without `r#`. */
  function HelperName(name: Ident): string {
    "__" + name.sym + "_route"
  }

  /** Every helper name is a legal identifier, so naming the constant never panics. */
  lemma HelperNameIsIdentifier(name: Ident)
    ensures IsIdentifier(HelperName(name))
  {
    var h := HelperName(name);
    forall i | 1 <= i < |h| ensures IsIdentContinue(h[i]) {
      if 2 <= i < 2 + |name.sym| {
        assert h[i] == name.sym[i - 2];
      }
    }
  }

  /** The handler whose helper constant is called `constName`, if it is one. */
  function HandlerNameOf(constName: string): Option<string> {
    if |constName| >= 8 && constName[..2] == "__" && constName[|constName| - 6..] == "_route"
    then Some(constName[2..|constName| - 6])
    else None
  }

  /** The helper's name leads back to its handler. */
  lemma HelperNameRoundTrip(name: Ident)
    ensures HandlerNameOf(HelperName(name)) == Some(name.sym)
  {
    var h := HelperName(name);
    assert h[..2] == "__";
    assert h[|h| - 6..] == "_route";
    assert h[2..|h| - 6] == name.sym;
  }

  /** Distinct handlers get distinct helper constants. */
  lemma HelperNameInjective(a: Ident, b: Ident)
    ensures HelperName(a) == HelperName(b) ==> a.sym == b.sym
  {
    HelperNameRoundTrip(a);
    HelperNameRoundTrip(b);
  }

  // ---------------------------------------------------------------------
  // The expansion

  /**
   * What the expansion must produce, independent of the verb: a compile error
   * for a bad argument (checked first) or a non-function item; otherwise the
   * function as it was, followed by the helper constant with the function's
   * visibility holding the path.
   */
  ghost predicate IsRouteExpansion(args: seq<Token>, input: Item, out: Result<seq<Emitted>, CompileError>) {
    if |args| == 0 || !args[0].LitStr? then out == Err(ExpectedStringLiteral)
    else if |args| > 1 then out == Err(UnexpectedToken(args[1]))
    else if !input.FnItem? then out == Err(ExpectedFunction)
    else out == Ok([EmitFn(input.f), EmitConst(input.f.vis, HelperName(input.f.name), args[0].value)])
  }

  /**
   * `expand_route_macro` as route.rs:68-98 writes it: the helper name comes
   * from the identifier's `Display`, and `syn::Ident::new` rejects it for a raw
   * identifier.
   */
  function ExpandAsWritten(verb: HttpMethod, args: seq<Token>, input: Item): (r: Result<seq<Emitted>, CompileError>)
    ensures !(input.FnItem? && input.f.name.raw && ParseArgsInput(args).Ok?) ==> IsRouteExpansion(args, input, r)
    ensures input.FnItem? && input.f.name.raw && ParseArgsInput(args).Ok? ==>
              r == Err(InvalidIdent(HelperTextAsWritten(input.f.name)))
  {
    match ParseArgsInput(args)
    case Err(e) => Err(e)
    case Ok(routeArgs) =>
      match ParseItemFn(input)
      case Err(e) => Err(e)
      case Ok(func) =>
        HelperNameIsIdentifier(func.name);
        match NewIdent(HelperTextAsWritten(func.name))
        case Err(e) => Err(e)
        case Ok(helper) =>
          Ok([EmitFn(func), EmitConst(func.vis, helper, routeArgs.path)])
  }

  /**
   * A handler named with a raw identifier (`async fn r#type()`) makes the
   * expansion as written fail: `"__r#type_route"` is not an identifier.
   */
  lemma RawIdentHandlerRejected()
    ensures ExpandAsWritten(Get, [LitStr("/")], FnItem(ItemFn(Public, RawIdent("type", true), [], [])))
            == Err(InvalidIdent("__r#type_route"))
  {
    var name: Ident := RawIdent("type", true);
    assert IdentDisplay(name) == "r#type";
    assert HelperTextAsWritten(name) == "__r#type_route";
  }

  /**
   * `expand_route_macro`, naming the helper from the identifier without its
   * `r#`: parse the argument, then the item, then emit the function unchanged
   * and the path constant.
   */
  function ExpandRouteMacro(verb: HttpMethod, args: seq<Token>, input: Item): (r: Result<seq<Emitted>, CompileError>)
    ensures IsRouteExpansion(args, input, r)
  {
    match ParseArgsInput(args)
    case Err(e) => Err(e)
    case Ok(routeArgs) =>
      match ParseItemFn(input)
      case Err(e) => Err(e)
      case Ok(func) =>
        HelperNameIsIdentifier(func.name);
        match NewIdent(HelperName(func.name))
        case Err(e) => Err(e)
        case Ok(helper) =>
          Ok([EmitFn(func), EmitConst(func.vis, helper, routeArgs.path)])
  }

  /** The verb is never used: all five verbs expand alike. */
  lemma ExpansionIgnoresMethod(m1: HttpMethod, m2: HttpMethod, args: seq<Token>, input: Item)
    ensures ExpandRouteMacro(m1, args, input) == ExpandRouteMacro(m2, args, input)
  {
  }

  /**
   * The route descriptor can be found from the handler alone: on success the
   * output's constant is named after the handler, and its value is the path.
   */
  lemma ExpansionDescriptor(verb: HttpMethod, path: string, f: ItemFn)
    ensures var r := ExpandRouteMacro(verb, [LitStr(path)], FnItem(f));
            && r.Ok? && |r.value| == 2 && r.value[0] == EmitFn(f)
            && r.value[1].EmitConst? && r.value[1].value == path && r.value[1].vis == f.vis
            && HandlerNameOf(r.value[1].name) == Some(f.name.sym)
  {
    HelperNameRoundTrip(f.name);
  }
}
