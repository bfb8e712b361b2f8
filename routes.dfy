/**
 * Routes, the two route tables and dispatch (route.go).
 *
 * A router keeps two tables, each from a path key to a map from request
 * method to Route: `routes` for literal paths and `routesParam` for
 * templates holding `:name` or `+` tokens, keyed by their compiled
 * regular-expression text.  This module states, as functions over values,
 * what registering a route does to the tables and what dispatching a request
 * resolves to; the router class of module Mux is proved against them.
 *
 * Go iterates `routesParam` in an unspecified order; dispatch therefore takes
 * the order as an argument, and the lemmas say what holds for every order.
 */
module Routes {
  import opened Wrappers
  import opened Strs
  import opened Handlers
  import opened Patterns
  import opened Configs
  import opened Http

  /** route.go `Route`; `verb` is Go's `Method`. */
  datatype Route = Route(
    rawPath: string,
    path: string,
    verb: string,
    handler: Handler,
    params: seq<seq<string>>,
    matcher: Option<Pattern>)

  /** The Route `buildRoute` yields: no parameters, no matcher, the chain applied. */
  function Built(url: string, verb: string, handler: Handler, mws: seq<MiddlewareFunc>): Route {
    Route(url, url, verb, Compose(mws, handler), [], None)
  }

  /**
   * route.go `buildRoute`: both paths are the url, and the handler is wrapped
   * in the chain, first middleware outermost.
   */
  method BuildRoute(url: string, verb: string, handler: Handler, mws: seq<MiddlewareFunc>) returns (r: Route)
    ensures r == Built(url, verb, handler, mws)
    ensures r.rawPath == url && r.path == url && r.verb == verb && r.params == [] && r.matcher == None
    ensures Layers(r.handler) == Labels(mws) + Layers(handler) && Core(r.handler) == Core(handler)
  {
    var h := WithMiddlewares(mws, handler);
    r := Route(url, url, verb, h, [], None);
    ComposeLayers(mws, handler);
  }

  /** route.go `routeMap`: path key, then method. */
  type Table = map<string, map<string, Route>>

  function Lookup(t: Table, key: string, verb: string): Option<Route> {
    if key in t && verb in t[key] then Some(t[key][verb]) else None
  }

  /** `t[key][route.Method] = route`, creating the inner map when it is missing. */
  function Insert(t: Table, key: string, route: Route): Table {
    t[key := (if key in t then t[key] else map[])[route.verb := route]]
  }

  /** Storing overwrites that one entry; other methods on the key and other keys are kept. */
  lemma InsertLookup(t: Table, key: string, route: Route, k: string, v: string)
    ensures Lookup(Insert(t, key, route), k, v) ==
      if k == key && v == route.verb then Some(route) else Lookup(t, k, v)
    ensures Insert(t, key, route).Keys == t.Keys + {key}
  {
  }

  /** route.go:45: a path with a `:` or a `+` goes to the parameter table. */
  predicate IsParamPath(p: string) {
    ':' in p || '+' in p
  }

  /** One singleton list per parameter name: route.go:57-60. */
  function Singletons(names: seq<string>): (ps: seq<seq<string>>)
    ensures |ps| == |names|
    ensures forall i :: 0 <= i < |ps| ==> ps[i] == [names[i]]
  {
    seq(|names|, i requires 0 <= i < |names| => [names[i]])
  }

  /**
   * The parameter branch of `addRoute`: names in template order, the
   * template rewritten to its regular-expression text, and that text
   * compiled.  The capture group admits `/` only when the path has no `:`.
   * `None` when compilation fails (the process then exits).
   */
  function CompileRoute(route: Route): Option<Route> {
    var ps := Scan(route.path);
    var text := RegexText(ps, ':' !in route.path);
    match ParseRegex(text)
    case None => None
    case Some(p) => Some(route.(path := text, params := Singletons(ParamNames(ps)), matcher := Some(p)))
  }

  /** The text of a parameter template keeps a `:` or a `+`, so its key is again a parameter path. */
  lemma {:induction false} RegexTextIsParamPath(t: string, allowSlash: bool)
    requires IsParamPath(t)
    ensures IsParamPath(RegexText(Scan(t), allowSlash))
    decreases |t|
  {
    if t[0] == '+' {
      RegexTextCons(Param(""), Scan(t[1..]), allowSlash);
      ClassTextIsParamPath(allowSlash, RegexText(Scan(t[1..]), allowSlash));
    } else if t[0] == ':' && |t| > 1 && IsLetter(t[1]) {
      var n := AlnumRun(t[1..]);
      RegexTextCons(Param(t[1..1 + n]), Scan(t[1 + n..]), allowSlash);
      ClassTextIsParamPath(allowSlash, RegexText(Scan(t[1 + n..]), allowSlash));
    } else {
      var rest := RegexText(Scan(t[1..]), allowSlash);
      RegexTextCons(Text(t[0]), Scan(t[1..]), allowSlash);
      if t[0] == ':' {
        assert ([t[0]] + rest)[0] == ':';
      } else {
        ParamPathTail(t);
        RegexTextIsParamPath(t[1..], allowSlash);
        ParamPathPrepend([t[0]], rest);
      }
    }
  }

  lemma RegexTextCons(p: Piece, rest: seq<Piece>, allowSlash: bool)
    ensures RegexText([p] + rest, allowSlash) ==
      (if p.Text? then [p.c] else ClassText(allowSlash)) + RegexText(rest, allowSlash)
  {
    assert ([p] + rest)[1..] == rest;
  }

  lemma ClassTextIsParamPath(allowSlash: bool, rest: string)
    ensures IsParamPath(ClassText(allowSlash) + rest)
  {
    var s := ClassText(allowSlash) + rest;
    if allowSlash {
      assert s[18] == '+';
    } else {
      assert s[17] == '+';
    }
  }

  lemma ParamPathTail(t: string)
    requires IsParamPath(t) && t[0] != ':' && t[0] != '+'
    ensures IsParamPath(t[1..])
  {
    var c := if ':' in t then ':' else '+';
    var i :| 0 <= i < |t| && t[i] == c;
    assert t[1..][i - 1] == c;
  }

  lemma ParamPathPrepend(a: string, s: string)
    requires IsParamPath(s)
    ensures IsParamPath(a + s)
  {
    var c := if ':' in s then ':' else '+';
    var i :| 0 <= i < |s| && s[i] == c;
    assert (a + s)[|a| + i] == c;
  }

  /**
   * Compiling a parameter template succeeds exactly when its literal text
   * stays in the modelled fragment.  The stored route keeps its raw path,
   * method and handler, is keyed by the regular-expression text, carries
   * one singleton name list per token, in template order, and a matcher with
   * one capture group per name; the key compiles back to the same matcher.
   */
  lemma CompileRouteEffect(route: Route)
    requires IsParamPath(route.path)
    ensures CompileRoute(route).Some? <==> Supported(Scan(route.path))
    ensures CompileRoute(route).Some? ==>
      var r := CompileRoute(route).value;
      var ps := Scan(route.path);
      r.rawPath == route.rawPath && r.verb == route.verb && r.handler == route.handler &&
      r.path == RegexText(ps, ':' !in route.path) && IsParamPath(r.path) &&
      r.matcher == Some(Atoms(ps, ':' !in route.path)) && r.matcher == ParseRegex(r.path) &&
      |r.params| == |ParamNames(ps)| == SlotCount(r.matcher.value) &&
      (forall i :: 0 <= i < |r.params| ==> r.params[i] == [ParamNames(ps)[i]])
  {
    var ps := Scan(route.path);
    var b := ':' !in route.path;
    ScanNames(route.path);
    CompileRegexText(ps, b);
    AtomsSlotCount(ps, b);
    RegexTextIsParamPath(route.path, b);
  }

  /** Both tables of a router. */
  datatype Tables = Tables(literal: Table, param: Table)

  /**
   * route.go `addRoute`: the tables after registering `route`, or `None`
   * when its template does not compile (`log.Fatal`).
   */
  function Register(ts: Tables, route: Route): Option<Tables> {
    if !IsParamPath(route.path) then Some(ts.(literal := Insert(ts.literal, route.path, route)))
    else match CompileRoute(route)
      case None => None
      case Some(r) => Some(ts.(param := Insert(ts.param, r.path, r)))
  }

  /** Literal table: keys without tokens, each entry filed under its own path and method. */
  predicate ValidLiteral(t: Table) {
    forall k :: k in t ==> LiteralBucket(k, t[k])
  }

  /** A literal key's method table: non-empty, each route filed under its own path and method, none compiled. */
  predicate LiteralBucket(k: string, b: map<string, Route>) {
    !IsParamPath(k) && b != map[] &&
    forall v :: v in b ==> b[v].path == k && b[v].verb == v && b[v].matcher.None?
  }

  /**
   * Parameter table: keys with tokens, each entry filed under its own path
   * and method, with the matcher its key compiles to and one singleton name
   * list per capture group.
   */
  predicate ValidParam(t: Table) {
    forall k :: k in t ==> ParamBucket(k, t[k])
  }

  /** A parameter key's method table: the key compiles and the table is non-empty with compiled routes for that key. */
  predicate ParamBucket(k: string, b: map<string, Route>) {
    IsParamPath(k) && b != map[] && ParseRegex(k).Some? &&
    forall v :: v in b ==> CompiledFor(k, v, b[v])
  }

  /** A route filed under key `k` and method `v`, with the matcher `k` compiles to and one singleton name list per group. */
  predicate CompiledFor(k: string, v: string, r: Route) {
    r.path == k && r.verb == v && r.matcher == ParseRegex(k) && r.matcher.Some? &&
    |r.params| == SlotCount(r.matcher.value) &&
    forall i :: 0 <= i < |r.params| ==> |r.params[i]| == 1
  }

  predicate Valid(ts: Tables) {
    ValidLiteral(ts.literal) && ValidParam(ts.param)
  }

  /** No key is in both tables. */
  lemma TablesDisjoint(ts: Tables)
    requires Valid(ts)
    ensures ts.literal.Keys !! ts.param.Keys
  {
  }

  /**
   * Registering a built route whose path has no token: it is stored only
   * under `literal[path][method]`, replacing an earlier route there and
   * keeping the others; the parameter table is untouched and the tables
   * stay valid.
   */
  lemma RegisterLiteral(ts: Tables, route: Route, k: string, v: string)
    requires Valid(ts)
    requires route.matcher.None? && !IsParamPath(route.path)
    ensures Register(ts, route).Some?
    ensures Valid(Register(ts, route).value)
    ensures Register(ts, route).value.param == ts.param
    ensures Lookup(Register(ts, route).value.literal, k, v) ==
      if k == route.path && v == route.verb then Some(route) else Lookup(ts.literal, k, v)
  {
    InsertLookup(ts.literal, route.path, route, k, v);
    var old_b := if route.path in ts.literal then ts.literal[route.path] else map[];
    var b := old_b[route.verb := route];
    assert route.verb in b;
    assert LiteralBucket(route.path, b);
    var t: Table := Insert(ts.literal, route.path, route);
    assert t == ts.literal[route.path := b];
  }

  /**
   * Registering a built route whose path has a token: it fails exactly when
   * the template's literal text leaves the modelled fragment; otherwise the
   * compiled route is stored only under `param[key][method]` for its
   * regular-expression key, replacing an earlier route there and keeping the
   * others; the literal table is untouched and the tables stay valid.
   */
  lemma RegisterParam(ts: Tables, route: Route, k: string, v: string)
    requires Valid(ts)
    requires IsParamPath(route.path)
    ensures Register(ts, route).None? <==> !Supported(Scan(route.path))
    ensures Register(ts, route).Some? ==>
      var r := CompileRoute(route).value;
      Valid(Register(ts, route).value) &&
      Register(ts, route).value.literal == ts.literal &&
      Lookup(Register(ts, route).value.param, k, v) ==
        if k == r.path && v == route.verb then Some(r) else Lookup(ts.param, k, v)
  {
    CompileRouteEffect(route);
    if CompileRoute(route).Some? {
      var r := CompileRoute(route).value;
      InsertLookup(ts.param, r.path, r, k, v);
      InsertValidParam(ts.param, r);
    }
  }

  lemma InsertValidParam(t: Table, r: Route)
    requires ValidParam(t)
    requires IsParamPath(r.path) && r.matcher == ParseRegex(r.path) && r.matcher.Some?
    requires |r.params| == SlotCount(r.matcher.value)
    requires forall i :: 0 <= i < |r.params| ==> |r.params[i]| == 1
    ensures ValidParam(Insert(t, r.path, r))
  {
    var old_b := if r.path in t then t[r.path] else map[];
    var b := old_b[r.verb := r];
    assert r.verb in b;
    assert CompiledFor(r.path, r.verb, r);
    assert ParamBucket(r.path, b);
    assert Insert(t, r.path, r) == t[r.path := b];
  }

  /**
   * route.go:103-105: with trailing-slash removal on and a path other than
   * `/`, every trailing `/` is dropped; nothing else changes.
   */
  function Normalize(removeTrailingSlash: bool, path: string): (p: string)
    ensures removeTrailingSlash && path != "/" ==> !EndsWith(p, '/')
    ensures HasPrefix(path, p) && forall i :: |p| <= i < |path| ==> path[i] == '/'
    ensures !removeTrailingSlash || path == "/" ==> p == path
  {
    if removeTrailingSlash && path != "/" && EndsWith(path, '/') then TrimRight(path, '/') else path
  }

  /** Normalizing a normalized path changes nothing. */
  lemma NormalizeIdempotent(removeTrailingSlash: bool, path: string)
    ensures Normalize(removeTrailingSlash, Normalize(removeTrailingSlash, path)) == Normalize(removeTrailingSlash, path)
  {
  }

  /** A key at which the parameter scan stops with a hit: its pattern matches, or it is the path itself. */
  predicate Hits(key: string, path: string) {
    (ParseRegex(key).Some? && Match(ParseRegex(key).value, path).Some?) || key == path
  }

  /**
   * route.go:109-124: the keys in iteration order; a key that does not
   * compile ends the scan with no result, the first key that hits ends it
   * with that key.
   */
  function ScanParam(order: seq<string>, path: string): (r: Option<string>)
    ensures r.Some? ==> r.value in order && Hits(r.value, path)
  {
    if order == [] then None
    else match ParseRegex(order[0])
      case None => None
      case Some(p) => if Match(p, path).Some? || order[0] == path then Some(order[0]) else ScanParam(order[1..], path)
  }

  /** When every key compiles, the scan comes back empty exactly when no key hits. */
  lemma {:induction false} ScanParamNone(order: seq<string>, path: string)
    requires forall k :: k in order ==> ParseRegex(k).Some?
    ensures ScanParam(order, path).None? <==> forall k :: k in order ==> !Hits(k, path)
    decreases |order|
  {
    if order != [] {
      ScanParamNone(order[1..], path);
      assert forall k :: k in order ==> k == order[0] || k in order[1..];
    }
  }

  /** When exactly one key hits, the scan finds it whatever the order. */
  lemma {:induction false} ScanParamUnique(order: seq<string>, path: string, key: string)
    requires forall k :: k in order ==> ParseRegex(k).Some?
    requires key in order && Hits(key, path)
    requires forall k :: k in order && k != key ==> !Hits(k, path)
    ensures ScanParam(order, path) == Some(key)
    decreases |order|
  {
    if order[0] != key {
      assert key in order[1..];
      ScanParamUnique(order[1..], path, key);
    }
  }

  /** `order` lists every key of the table exactly once: one possible Go iteration order. */
  predicate Enumerates(order: seq<string>, t: Table) {
    (forall k :: k in order ==> k in t) && (forall k :: k in t ==> k in order) &&
    (forall i, j :: 0 <= i < j < |order| ==> order[i] != order[j])
  }

  /** How dispatch resolves a (method, path) pair. */
  datatype Resolution = Found(route: Route) | NotFound | MethodNotAllowed

  /**
   * route.go:107-149 without the request rewriting: the exact table first,
   * then the parameter scan; an empty result is NotFound, a result without
   * the method is MethodNotAllowed.
   */
  function Resolve(ts: Tables, order: seq<string>, verb: string, path: string): Resolution
    requires forall k :: k in order ==> k in ts.param
  {
    var found: map<string, Route> :=
      if path in ts.literal then ts.literal[path]
      else match ScanParam(order, path)
        case Some(k) => ts.param[k]
        case None => map[];
    if found == map[] then NotFound
    else if verb !in found then MethodNotAllowed
    else Found(found[verb])
  }

  /** An exact-table hit decides alone: the parameter table and the order are not consulted. */
  lemma ExactHitWins(ts: Tables, o1: seq<string>, o2: seq<string>, verb: string, path: string)
    requires ValidLiteral(ts.literal)
    requires forall k :: k in o1 ==> k in ts.param
    requires forall k :: k in o2 ==> k in ts.param
    requires path in ts.literal
    ensures Resolve(ts, o1, verb, path) == Resolve(ts, o2, verb, path)
    ensures Resolve(ts, o1, verb, path) ==
      if verb in ts.literal[path] then Found(ts.literal[path][verb]) else MethodNotAllowed
  {
  }

  /** NotFound exactly when no literal key equals the path and no parameter key hits it, for every order. */
  lemma NotFoundIff(ts: Tables, order: seq<string>, verb: string, path: string)
    requires Valid(ts) && Enumerates(order, ts.param)
    ensures Resolve(ts, order, verb, path) == NotFound <==>
      path !in ts.literal && forall k :: k in ts.param ==> !Hits(k, path)
  {
    ScanParamNone(order, path);
  }

  /**
   * Whatever the order, a Found or MethodNotAllowed result comes from a
   * key that hits: the literal key equal to the path, or a parameter key
   * whose pattern matches it or which equals it.
   */
  lemma ResolveSound(ts: Tables, order: seq<string>, verb: string, path: string)
    requires Valid(ts) && Enumerates(order, ts.param)
    ensures Resolve(ts, order, verb, path).Found? ==>
      (path in ts.literal && Lookup(ts.literal, path, verb) == Some(Resolve(ts, order, verb, path).route)) ||
      (path !in ts.literal && ServedBy(ts.param, path, verb, Resolve(ts, order, verb, path).route))
    ensures Resolve(ts, order, verb, path) == MethodNotAllowed ==>
      (path in ts.literal && verb !in ts.literal[path]) ||
      (path !in ts.literal && (exists k :: k in ts.param && Hits(k, path) && verb !in ts.param[k]))
  {
    if path !in ts.literal && ScanParam(order, path).Some? {
      var k := ScanParam(order, path).value;
      assert k in ts.param && Hits(k, path);
    }
  }

  /** Some parameter key hits `path` and files `route` under `verb`. */
  predicate ServedBy(t: Table, path: string, verb: string, route: Route) {
    exists k :: k in t && Hits(k, path) && Lookup(t, k, verb) == Some(route)
  }

  /**
   * When exactly one parameter key hits a path no literal key equals,
   * dispatch resolves through that key, whatever the iteration order.
   */
  lemma UniqueHitResolves(ts: Tables, order: seq<string>, verb: string, path: string, key: string)
    requires Valid(ts) && Enumerates(order, ts.param)
    requires path !in ts.literal && key in ts.param && Hits(key, path)
    requires forall k :: k in ts.param && k != key ==> !Hits(k, path)
    ensures Resolve(ts, order, verb, path) ==
      if verb in ts.param[key] then Found(ts.param[key][verb]) else MethodNotAllowed
  {
    ScanParamUnique(order, path, key);
  }

  /** The outcome of dispatch: the route whose handler runs and the request it sees, or a runtime panic. */
  datatype Dispatched = Dispatched(route: Route, req: HttpRequest) | Panicked

  /** The zero Route with only its handler set, used for both errors. */
  function ErrorRoute(h: Handler): Route {
    Route("", "", "", h, [], None)
  }

  /** Each name list with its capture appended: route.go:88-92. */
  function Bind(params: seq<seq<string>>, caps: seq<string>): (b: seq<seq<string>>)
    requires |caps| >= |params|
    ensures |b| == |params|
    ensures forall i :: 0 <= i < |b| ==> b[i] == params[i] + [caps[i]]
  {
    seq(|params|, i requires 0 <= i < |params| => params[i] + [caps[i]])
  }

  /**
   * route.go `buildURLParams`: a route without a matcher, or without names,
   * passes unchanged; otherwise every name gets the capture of its group and
   * the bindings are attached to the request.  Indexing a missing match or
   * capture panics.
   */
  function URLParams(req: HttpRequest, route: Route, path: string): Dispatched {
    if route.matcher.None? || |route.params| == 0 then Dispatched(route, req)
    else match Match(route.matcher.value, path)
      case None => Panicked
      case Some(caps) =>
        if |caps| < |route.params| then Panicked
        else
          var b := Bind(route.params, caps);
          Dispatched(route.(params := b), req.(ctx := req.ctx[KeyContextParams := ParamsValue(b)]))
  }

  /** route.go `buildURLParams`, with its loop over the names. */
  method BuildURLParams(req: HttpRequest, route: Route, path: string) returns (res: Dispatched)
    ensures res == URLParams(req, route, path)
  {
    if route.matcher.None? {
      return Dispatched(route, req);
    }
    var found := Match(route.matcher.value, path);
    var params := route.params;
    var i := 0;
    while i < |params|
      invariant 0 <= i <= |params| == |route.params|
      invariant i > 0 ==> found.Some? && |found.value| >= i
      invariant forall j :: 0 <= j < i ==> params[j] == route.params[j] + [found.value[j]]
      invariant forall j :: i <= j < |params| ==> params[j] == route.params[j]
    {
      if found.None? || i >= |found.value| {
        return Panicked;
      }
      params := params[i := params[i] + [found.value[i]]];
      i := i + 1;
    }
    if |route.params| > 0 {
      assert params == Bind(route.params, found.value);
      var ctx := req.ctx[KeyContextParams := ParamsValue(params)];
      return Dispatched(route.(params := params), req.(ctx := ctx));
    }
    return Dispatched(route, req);
  }

  /**
   * For a stored parameter route: dispatch panics exactly when the route has
   * names and its pattern does not match the path (the key was chosen only
   * because it equals the path).  Otherwise binding i is name i followed by
   * capture i of a match of the whole path, and the bindings are attached
   * exactly when there is at least one name.
   */
  lemma URLParamsBindings(req: HttpRequest, route: Route, path: string)
    requires route.matcher.Some? && |route.params| == SlotCount(route.matcher.value)
    requires forall i :: 0 <= i < |route.params| ==> |route.params[i]| == 1
    ensures URLParams(req, route, path).Panicked? <==>
      |route.params| > 0 && !exists caps :: Accepts(route.matcher.value, path, caps)
    ensures URLParams(req, route, path).Dispatched? && |route.params| > 0 ==>
      var d := URLParams(req, route, path);
      var caps := Match(route.matcher.value, path).value;
      Accepts(route.matcher.value, path, caps) &&
      |d.route.params| == |route.params| &&
      (forall i :: 0 <= i < |route.params| ==> d.route.params[i] == [route.params[i][0], caps[i]]) &&
      d.req == req.(ctx := req.ctx[KeyContextParams := ParamsValue(d.route.params)])
    ensures |route.params| == 0 ==> URLParams(req, route, path) == Dispatched(route, req)
  {
    MatchIff(route.matcher.value, path);
    if Match(route.matcher.value, path).Some? {
      var caps := Match(route.matcher.value, path).value;
      MatchSound(route.matcher.value, path);
      AcceptsCount(route.matcher.value, path, caps);
      forall i | 0 <= i < |route.params|
        ensures route.params[i] + [caps[i]] == [route.params[i][0], caps[i]]
      {
        assert route.params[i] == [route.params[i][0]];
      }
    }
  }

  /**
   * route.go `getRoute`: the route that handles the request and the request
   * it sees.  Errors carry the error handler and the error under the
   * `"error"` local; a HEAD request loses its body.
   */
  function Dispatch(ts: Tables, config: Config, req: HttpRequest, order: seq<string>): Dispatched
    requires forall k :: k in order ==> k in ts.param
  {
    var path := Normalize(config.removeTrailingSlash, req.path);
    match Resolve(ts, order, req.verb, path)
    case NotFound =>
      Dispatched(ErrorRoute(config.globalErrorHandler), req.(ctx := req.ctx[Key("error") := ErrorValue(ErrorNotFound)]))
    case MethodNotAllowed =>
      Dispatched(ErrorRoute(config.globalErrorHandler), req.(ctx := req.ctx[Key("error") := ErrorValue(ErrorMethodNotAllowed)]))
    case Found(r) =>
      URLParams(if req.verb == MethodHead then req.(hasBody := false) else req, r, path)
  }

  /** A literal route registered under a path that normalization leaves alone is what dispatch finds. */
  lemma LiteralRouteFound(ts: Tables, config: Config, req: HttpRequest, order: seq<string>)
    requires Valid(ts) && Enumerates(order, ts.param)
    requires Normalize(config.removeTrailingSlash, req.path) == req.path
    requires Lookup(ts.literal, req.path, req.verb).Some?
    ensures Dispatch(ts, config, req, order) ==
      Dispatched(Lookup(ts.literal, req.path, req.verb).value,
                 if req.verb == MethodHead then req.(hasBody := false) else req)
  {
  }

  /**
   * A path two routes could serve: `/:id` is stored under its pattern text,
   * and a request for exactly that text is found by key equality although
   * the pattern does not match it, so building its parameters panics.
   */
  lemma KeyEqualityPanics(h: Handler, req: HttpRequest)
    requires req.verb == MethodGet && req.path == ClassNoSlashPath
    ensures Dispatch(Tables(map[], PanicTable(h)), Config(false, h, LevelError), req, [ClassNoSlashPath]) == Panicked
  {
    ClassPathFoundByKey();
    var route := PanicTable(h)[ClassNoSlashPath][MethodGet];
    assert Resolve(Tables(map[], PanicTable(h)), [ClassNoSlashPath], MethodGet, ClassNoSlashPath) == Found(route);
    assert URLParams(req, route, ClassNoSlashPath) == Panicked;
  }

  /** The scan over the one key `/:id` is stored under hits it by key equality, its pattern not matching. */
  lemma ClassPathFoundByKey()
    ensures Match([Lit('/'), Slot(false)], ClassNoSlashPath).None?
    ensures ScanParam([ClassNoSlashPath], ClassNoSlashPath) == Some(ClassNoSlashPath)
  {
    var key := ClassNoSlashPath;
    var p := [Lit('/'), Slot(false)];
    ClassPathCompiles();
    var tail := key[1..];
    assert tail == ClassNoSlash;
    assert tail[0] == '(';
    SlotRejects(tail, false);
    assert p[1..] == [Slot(false)];
    assert Match(p, key) == Match([Slot(false)], tail);
  }

  /** A lone group rejects a string whose first character it does not admit. */
  lemma SlotRejects(s: string, allowSlash: bool)
    requires s != [] && !InClass(s[0], allowSlash)
    ensures Match([Slot(allowSlash)], s).None?
  {
    assert ClassRun(s, allowSlash) == 0;
  }

  /** The key `/:id` is stored under compiles back to a slash and one group. */
  lemma ClassPathCompiles()
    ensures ParseRegex(ClassNoSlashPath) == Some([Lit('/'), Slot(false)])
  {
    var key := ClassNoSlashPath;
    var tail := key[1..];
    assert tail == ClassNoSlash;
    assert tail != [] && HasPrefix(tail, ClassNoSlash);
    assert tail[|ClassNoSlash|..] == [];
    assert ParseRegex(tail[|ClassNoSlash|..]) == Some([]);
    assert ParseRegex(tail) == Some([Slot(false)] + []);
    assert [Slot(false)] + [] == [Slot(false)];
    assert key != [] && key[0] == '/' && !IsMeta('/');
    assert !HasPrefix(key, ClassNoSlash) && !HasPrefix(key, ClassSlash);
    assert key[0] != '.';
    assert ParseRegex(key) == Some([Lit(key[0])] + [Slot(false)]);
    assert [Lit('/')] + [Slot(false)] == [Lit('/'), Slot(false)];
  }

  const ClassNoSlashPath: string := "/" + ClassNoSlash

  function PanicTable(h: Handler): Table {
    map[ClassNoSlashPath := map[MethodGet := Route("/:id", ClassNoSlashPath, MethodGet, h, [["id"]], Some([Lit('/'), Slot(false)]))]]
  }
}
