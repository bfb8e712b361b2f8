/**
 * The router object of ngamux.go and group.go.
 *
 * A root router owns the two route tables and registers routes into them;
 * a node made by `With` or `Group` has a parent and hands its routes to
 * `addRouteFromGroup` instead.  That function's body is commented out in
 * group.go, so the model records the routes it receives, in order, in the
 * field `forwarded` and gives it no further effect.  `log.Fatal` on a
 * template that does not compile sets `exited`; log output is the sequence
 * `logged` of records handed to the logger.
 */
module Mux {
  import opened Wrappers
  import opened Strs
  import opened Handlers
  import opened Configs
  import opened Http
  import opened Patterns
  import opened Routes
  import opened Requests

  /** ngamux.go `allMethods`: the methods `All` registers; HEAD is not among them. */
  const AllMethods: seq<string> := [MethodGet, MethodPost, MethodPut, MethodPatch, MethodDelete]

  /** The message `addRoute` logs at Info level, with the method and raw path as arguments. */
  const RouteRegistered := "[ROUTE] %s %s registered"

  /** The records `addRoute` hands to the logger for one registration. */
  function RouteLog(level: LogLevel, route: Route): (recs: seq<LogRecord>)
    ensures |recs| <= 1
    ensures recs != [] <==> IsLogCanShow(level, LevelInfo)
    ensures recs != [] ==> recs[0] == LogRecord(LevelInfo, RouteRegistered, [route.verb, route.rawPath])
  {
    match Log(level, LevelInfo, RouteRegistered, [route.verb, route.rawPath])
    case Some(rec) => [rec]
    case None => []
  }

  /** The part of a router that registration changes. */
  datatype Registry = Registry(
    routes: Table,
    routesParam: Table,
    forwarded: seq<Route>,
    logged: seq<LogRecord>,
    exited: bool)

  /**
   * One registration: a node with a parent forwards the route; a root
   * stores it as `addRoute` does, logs it, or exits when it does not compile.
   */
  function Registration(s: Registry, isChild: bool, level: LogLevel, route: Route): Registry {
    if isChild then s.(forwarded := s.forwarded + [route])
    else match Register(Tables(s.routes, s.routesParam), route)
      case None => s.(exited := true)
      case Some(ts) => s.(routes := ts.literal, routesParam := ts.param, logged := s.logged + RouteLog(level, route))
  }

  /** Root registrations of one url under each method of `verbs`, in order. */
  function RegisterEach(s: Registry, level: LogLevel, url: string, h: Handler,
                        mws: seq<MiddlewareFunc>, verbs: seq<string>): Registry
    decreases |verbs|
  {
    if verbs == [] then s
    else Registration(RegisterEach(s, level, url, h, mws, verbs[..|verbs| - 1]), false, level,
                      Built(url, verbs[|verbs| - 1], h, mws))
  }

  /**
   * Registering a literal url under several methods stores one route per
   * method, with that method and the same chain; the other methods on the
   * url, the other urls and the parameter table keep their routes.
   */
  lemma {:induction false} RegisterEachLiteral(s: Registry, level: LogLevel, url: string, h: Handler,
                                               mws: seq<MiddlewareFunc>, verbs: seq<string>, k: string, v: string)
    requires Routes.Valid(Tables(s.routes, s.routesParam)) && !IsParamPath(url)
    ensures var s' := RegisterEach(s, level, url, h, mws, verbs);
      Routes.Valid(Tables(s'.routes, s'.routesParam)) && s'.routesParam == s.routesParam &&
      s'.exited == s.exited && s'.forwarded == s.forwarded &&
      Lookup(s'.routes, k, v) == if k == url && v in verbs then Some(Built(url, v, h, mws)) else Lookup(s.routes, k, v)
    decreases |verbs|
  {
    if verbs != [] {
      var init := verbs[..|verbs| - 1];
      var prev := RegisterEach(s, level, url, h, mws, init);
      RegisterEachLiteral(s, level, url, h, mws, init, k, v);
      RegisterLiteral(Tables(prev.routes, prev.routesParam), Built(url, verbs[|verbs| - 1], h, mws), k, v);
      assert v in verbs <==> v in init || v == verbs[|verbs| - 1] by {
        assert verbs == init + [verbs[|verbs| - 1]];
      }
    }
  }

  /** Root `All` on a literal url: GET, POST, PUT, PATCH and DELETE are served, HEAD is left as it was. */
  lemma AllRegistersFiveMethods(s: Registry, level: LogLevel, url: string, h: Handler, mws: seq<MiddlewareFunc>)
    requires Routes.Valid(Tables(s.routes, s.routesParam)) && !IsParamPath(url)
    ensures var s' := RegisterEach(s, level, url, h, mws, AllMethods);
      (forall v :: v in AllMethods ==> Lookup(s'.routes, url, v) == Some(Built(url, v, h, mws))) &&
      Lookup(s'.routes, url, MethodHead) == Lookup(s.routes, url, MethodHead)
  {
    forall v | v in AllMethods
      ensures Lookup(RegisterEach(s, level, url, h, mws, AllMethods).routes, url, v) == Some(Built(url, v, h, mws))
    {
      RegisterEachLiteral(s, level, url, h, mws, AllMethods, url, v);
    }
    RegisterEachLiteral(s, level, url, h, mws, AllMethods, url, MethodHead);
  }

  /** The routes held in a table, over the keys in `ks`. */
  ghost function EntriesOf(t: Table, ks: set<string>): set<Route> {
    set k, v | k in ks && k in t && v in t[k] :: t[k][v]
  }

  /** The routes held in a table. */
  ghost function Entries(t: Table): set<Route> {
    EntriesOf(t, t.Keys)
  }

  /** The distinct elements of a sequence. */
  ghost function Elems<T>(s: seq<T>): set<T> {
    set x | x in s
  }

  lemma ElemsConcat<T>(a: seq<T>, b: seq<T>)
    ensures Elems(a + b) == Elems(a) + Elems(b)
  {
    assert forall y :: y in a + b <==> y in a || y in b;
  }

  lemma AppendAssoc<T>(a: seq<T>, b: seq<T>, c: seq<T>)
    ensures (a + b) + c == a + (b + c)
  {
  }

  lemma EntriesOfAdd(t: Table, ks: set<string>, k: string)
    requires k in t
    ensures EntriesOf(t, ks + {k}) == EntriesOf(t, ks) + t[k].Values
  {
  }

  /** The routes a method table holds under `verbs`, in that order. */
  ghost function Pick(bucket: map<string, Route>, verbs: seq<string>): (calls: seq<Route>)
    requires forall i :: 0 <= i < |verbs| ==> verbs[i] in bucket
    ensures |calls| == |verbs| && forall i :: 0 <= i < |verbs| ==> calls[i] == bucket[verbs[i]]
  {
    seq(|verbs|, i requires 0 <= i < |verbs| => bucket[verbs[i]])
  }

  /** `verbs` lists every method of `bucket` exactly once. */
  ghost predicate Ordering(bucket: map<string, Route>, verbs: seq<string>) {
    (forall i :: 0 <= i < |verbs| ==> verbs[i] in bucket) && multiset(verbs) == multiset(bucket.Keys)
  }

  /** Handing over one more method not yet handed over. */
  lemma PickStep(bucket: map<string, Route>, verbs: seq<string>, done: set<string>, v: string)
    requires forall i :: 0 <= i < |verbs| ==> verbs[i] in bucket
    requires multiset(verbs) == multiset(done) && v in bucket && v !in done
    ensures Pick(bucket, verbs + [v]) == Pick(bucket, verbs) + [bucket[v]]
    ensures multiset(verbs + [v]) == multiset(done + {v})
  {
    assert Pick(bucket, verbs + [v]) == Pick(bucket, verbs) + [bucket[v]];
  }

  /**
   * Part way through a method table: `order` lists the methods of `done`
   * handed over so far, each once, and `rest` holds the ones still to come.
   */
  ghost predicate BucketProgress(bucket: map<string, Route>, rest: set<string>, done: set<string>, order: seq<string>) {
    rest + done == bucket.Keys && rest !! done &&
    (forall i :: 0 <= i < |order| ==> order[i] in bucket) && multiset(order) == multiset(done)
  }

  /** Handing over the route of one more method still to come. */
  lemma BucketProgressStep(bucket: map<string, Route>, rest: set<string>, done: set<string>, order: seq<string>, v: string)
    requires BucketProgress(bucket, rest, done, order) && v in rest
    ensures BucketProgress(bucket, rest - {v}, done + {v}, order + [v])
    ensures Pick(bucket, order + [v]) == Pick(bucket, order) + [bucket[v]]
  {
    PickStep(bucket, order, done, v);
  }

  /**
   * Handing over a method table along an ordering of its methods hands over
   * exactly its routes, one call per entry.
   */
  lemma OrderingElems(bucket: map<string, Route>, verbs: seq<string>)
    requires Ordering(bucket, verbs)
    ensures Elems(Pick(bucket, verbs)) == bucket.Values && |verbs| == |bucket|
  {
    var calls := Pick(bucket, verbs);
    forall r | r in bucket.Values ensures r in calls {
      var v :| v in bucket && bucket[v] == r;
      assert v in multiset(verbs);
      var n :| 0 <= n < |verbs| && verbs[n] == v;
      assert calls[n] == r;
    }
    assert |multiset(verbs)| == |multiset(bucket.Keys)|;
  }

  /** The concatenation of a sequence of call sequences. */
  ghost function Flatten(parts: seq<seq<Route>>): seq<Route> {
    if parts == [] then [] else Flatten(parts[..|parts| - 1]) + parts[|parts| - 1]
  }

  /**
   * `parts` are the runs of calls for the paths `keys`, one run per path of
   * `done`, each path once; run `i` is the method table of `keys[i]` under
   * the ordering `orders[i]`.
   */
  ghost predicate TableRuns(t: Table, done: set<string>, keys: seq<string>, orders: seq<seq<string>>, parts: seq<seq<Route>>) {
    multiset(keys) == multiset(done) && |orders| == |keys| && |parts| == |keys| &&
    forall i :: 0 <= i < |keys| ==>
      keys[i] in t && Ordering(t[keys[i]], orders[i]) && parts[i] == Pick(t[keys[i]], orders[i])
  }

  /** Part way through a table: the paths of `done` are handed over, those of `rest` still to come. */
  ghost predicate TableProgress(t: Table, rest: set<string>, done: set<string>, keys: seq<string>,
                                orders: seq<seq<string>>, parts: seq<seq<Route>>) {
    rest + done == t.Keys && rest !! done && TableRuns(t, done, keys, orders, parts) &&
    Elems(Flatten(parts)) == EntriesOf(t, done)
  }

  /**
   * `calls` hands over every route of `t` exactly once: one run per path,
   * each path once, and each run hands over that path's method table along
   * an ordering of its methods.
   */
  ghost predicate HandsOver(t: Table, calls: seq<Route>) {
    exists keys, orders, parts :: TableRuns(t, t.Keys, keys, orders, parts) && calls == Flatten(parts)
  }

  /** Handing over the method table of one more path not yet handed over. */
  lemma TableRunsStep(t: Table, done: set<string>, keys: seq<string>, orders: seq<seq<string>>, parts: seq<seq<Route>>,
                      k: string, verbs: seq<string>)
    requires TableRuns(t, done, keys, orders, parts) && k in t && k !in done && Ordering(t[k], verbs)
    requires Elems(Flatten(parts)) == EntriesOf(t, done)
    ensures TableRuns(t, done + {k}, keys + [k], orders + [verbs], parts + [Pick(t[k], verbs)])
    ensures Flatten(parts + [Pick(t[k], verbs)]) == Flatten(parts) + Pick(t[k], verbs)
    ensures Elems(Flatten(parts + [Pick(t[k], verbs)])) == EntriesOf(t, done + {k})
  {
    var part := Pick(t[k], verbs);
    assert (parts + [part])[..|parts|] == parts;
    OrderingElems(t[k], verbs);
    ElemsConcat(Flatten(parts), part);
    EntriesOfAdd(t, done, k);
  }
  /** Handing over the method table of one more path still to come. */
  lemma TableProgressStep(t: Table, rest: set<string>, done: set<string>, keys: seq<string>,
                          orders: seq<seq<string>>, parts: seq<seq<Route>>, k: string, verbs: seq<string>)
    requires TableProgress(t, rest, done, keys, orders, parts) && k in rest && Ordering(t[k], verbs)
    ensures TableProgress(t, rest - {k}, done + {k}, keys + [k], orders + [verbs], parts + [Pick(t[k], verbs)])
    ensures Flatten(parts + [Pick(t[k], verbs)]) == Flatten(parts) + Pick(t[k], verbs)
  {
    TableRunsStep(t, done, keys, orders, parts, k, verbs);
  }


  /** route.go:56-60: one single-name list per token found in the template, the token's text without its first character. */
  method ParamLists(ps: seq<Piece>) returns (params: seq<seq<string>>)
    ensures params == Singletons(ParamNames(ps))
  {
    var subMatches := TokenTexts(ps);
    params := [];
    var i := 0;
    while i < |subMatches|
      invariant 0 <= i <= |subMatches| && |params| == i
      invariant forall j :: 0 <= j < i ==> params[j] == [ParamNames(ps)[j]]
    {
      params := params + [[subMatches[i][1..]]];
      i := i + 1;
    }
  }

  /** What `ServeHTTP` does with a request: the handler it calls and how, or a panic. */
  datatype Served = Invoked(handler: Handler, req: HttpRequest, readOnlyWriter: bool) | Crashed

  /** ngamux.go `Ngamux`. */
  class Ngamux {
    var parent: Ngamux?
    var path: string
    var routes: Table
    var routesParam: Table
    var config: Config
    var middlewares: seq<MiddlewareFunc>
    /** The routes handed to `addRouteFromGroup`, in order. */
    var forwarded: seq<Route>
    /** The records handed to the logger, in order. */
    var logged: seq<LogRecord>
    /** Set once `log.Fatal` has ended the process. */
    var exited: bool

    /** The part of the router registration changes. */
    function State(): Registry
      reads this
    {
      Registry(routes, routesParam, forwarded, logged, exited)
    }

    /** The part of the router registration leaves alone. */
    function Setup(): (Ngamux?, string, Config, seq<MiddlewareFunc>)
      reads this
    {
      (parent, path, config, middlewares)
    }

    /** The tables are as registration leaves them. */
    predicate Valid()
      reads this
    {
      Routes.Valid(Tables(routes, routesParam))
    }

    /**
     * ngamux.go `New`: empty tables, no parent, no middlewares, and the
     * default configuration with each option applied in argument order.
     */
    constructor New(opts: seq<ConfigOption>)
      ensures parent == null && path == "" && middlewares == []
      ensures routes == map[] && routesParam == map[]
      ensures config == ApplyAll(opts, NewConfig())
      ensures forwarded == [] && logged == [] && !exited
      ensures Valid()
    {
      var c := NewConfig();
      var i := 0;
      assert opts[0..] == opts;
      while i < |opts|
        invariant 0 <= i <= |opts|
        invariant ApplyAll(opts[i..], c) == ApplyAll(opts, NewConfig())
      {
        assert opts[i..][1..] == opts[i + 1..];
        c := Apply(opts[i], c);
        i := i + 1;
      }
      parent := null;
      path := "";
      routes := map[];
      routesParam := map[];
      config := c;
      middlewares := [];
      forwarded := [];
      logged := [];
      exited := false;
    }

    /** The node `With` builds: only parent, path and middlewares set. */
    constructor Child(creator: Ngamux, creatorPath: string, mws: seq<MiddlewareFunc>)
      ensures parent == creator && path == creatorPath && middlewares == mws
      ensures routes == map[] && routesParam == map[] && config == ZeroConfig
      ensures forwarded == [] && logged == [] && !exited
      ensures Valid()
    {
      parent := creator;
      path := creatorPath;
      middlewares := mws;
      routes := map[];
      routesParam := map[];
      config := ZeroConfig;
      forwarded := [];
      logged := [];
      exited := false;
    }

    /**
     * ngamux.go `Use`: the arguments are reversed and appended, and the
     * error handler is wrapped again in the whole accumulated list.
     */
    method Use(mws: seq<MiddlewareFunc>)
      modifies this
      ensures middlewares == old(middlewares) + Reverse(mws)
      ensures config == old(config).(globalErrorHandler := Compose(middlewares, old(config).globalErrorHandler))
      ensures Layers(config.globalErrorHandler) == Labels(middlewares) + Layers(old(config).globalErrorHandler)
      ensures State() == old(State()) && parent == old(parent) && path == old(path)
    {
      var a := new MiddlewareFunc[|mws|](i requires 0 <= i < |mws| => mws[i]);
      assert a[..] == mws;
      ReverseInPlace(a);
      middlewares := middlewares + a[..];
      var h := WithMiddlewares(middlewares, config.globalErrorHandler);
      ComposeLayers(middlewares, config.globalErrorHandler);
      config := config.(globalErrorHandler := h);
    }

    /** The chain a per-method registrar gives its route. */
    function VerbChain(mws: seq<MiddlewareFunc>): seq<MiddlewareFunc>
      reads this
    {
      if parent != null then mws else middlewares + mws
    }

    /** route.go `addRoute`. */
    method AddRoute(route: Route)
      requires Valid() && route.matcher.None?
      modifies this
      ensures State() == Registration(old(State()), false, config.logLevel, route)
      ensures Setup() == old(Setup())
      ensures Valid()
    {
      if !(':' in route.path) && !('+' in route.path) {
        RegisterLiteral(Tables(routes, routesParam), route, route.path, route.verb);
        routes := Insert(routes, route.path, route);
        logged := logged + RouteLog(config.logLevel, route);
        return;
      }
      RegisterParam(Tables(routes, routesParam), route, route.path, route.verb);
      AddParamRoute(route);
    }

    /** route.go:55-79: the branch of `addRoute` for a template with tokens. */
    method AddParamRoute(route: Route)
      requires IsParamPath(route.path)
      modifies this
      ensures State() == match CompileRoute(route)
        case None => old(State()).(exited := true)
        case Some(r) => old(State()).(routesParam := Insert(old(routesParam), r.path, r),
                                      logged := old(logged) + RouteLog(config.logLevel, route))
      ensures Setup() == old(Setup())
    {
      var ps := Scan(route.path);
      var params := ParamLists(ps);
      var text := "";
      if ':' in route.path {
        text := RegexText(ps, false);
      } else if '+' in route.path {
        text := RegexText(ps, true);
      }
      var matcher := ParseRegex(text);
      if matcher.None? {
        exited := true;
        return;
      }
      var r := route.(path := text, params := params, matcher := matcher);
      routesParam := Insert(routesParam, text, r);
      logged := logged + RouteLog(config.logLevel, r);
    }

    /** group.go `addRouteFromGroup`, whose body is not part of this model: the route is recorded. */
    method AddRouteFromGroup(route: Route)
      modifies this
      ensures State() == old(State()).(forwarded := old(forwarded) + [route])
      ensures Setup() == old(Setup())
    {
      forwarded := forwarded + [route];
    }

    /**
     * ngamux.go `HandleFunc`: a node with a parent forwards the route built
     * with the given middlewares; a root registers it built with the
     * router's middlewares only, ignoring the given ones.
     */
    method HandleFunc(verb: string, url: string, handler: Handler, mws: seq<MiddlewareFunc>)
      requires Valid()
      modifies this
      ensures State() == Registration(old(State()), parent != null, config.logLevel,
                                      Built(url, verb, handler, if parent != null then mws else middlewares))
      ensures Setup() == old(Setup()) && Valid()
    {
      if parent != null {
        var r := BuildRoute(url, verb, handler, mws);
        AddRouteFromGroup(r);
        return;
      }
      var r := BuildRoute(url, verb, handler, middlewares);
      AddRoute(r);
    }

    /** The body the per-method registrars share (ngamux.go:119-170). */
    method HandleVerb(verb: string, url: string, handler: Handler, mws: seq<MiddlewareFunc>)
      requires Valid()
      modifies this
      ensures State() == Registration(old(State()), parent != null, config.logLevel, Built(url, verb, handler, VerbChain(mws)))
      ensures Setup() == old(Setup()) && Valid()
    {
      if parent != null {
        var r := BuildRoute(url, verb, handler, mws);
        AddRouteFromGroup(r);
        return;
      }
      var r := BuildRoute(url, verb, handler, middlewares + mws);
      AddRoute(r);
    }

    /** ngamux.go `Get`: one GET route; a root's chain is its middlewares, then the given ones. */
    method Get(url: string, handler: Handler, mws: seq<MiddlewareFunc>)
      requires Valid()
      modifies this
      ensures State() == Registration(old(State()), parent != null, config.logLevel, Built(url, MethodGet, handler, VerbChain(mws)))
      ensures Setup() == old(Setup()) && Valid()
    {
      HandleVerb(MethodGet, url, handler, mws);
    }

    /** ngamux.go `Head`. */
    method Head(url: string, handler: Handler, mws: seq<MiddlewareFunc>)
      requires Valid()
      modifies this
      ensures State() == Registration(old(State()), parent != null, config.logLevel, Built(url, MethodHead, handler, VerbChain(mws)))
      ensures Setup() == old(Setup()) && Valid()
    {
      HandleVerb(MethodHead, url, handler, mws);
    }

    /** ngamux.go `Post`. */
    method Post(url: string, handler: Handler, mws: seq<MiddlewareFunc>)
      requires Valid()
      modifies this
      ensures State() == Registration(old(State()), parent != null, config.logLevel, Built(url, MethodPost, handler, VerbChain(mws)))
      ensures Setup() == old(Setup()) && Valid()
    {
      HandleVerb(MethodPost, url, handler, mws);
    }

    /** ngamux.go `Patch`. */
    method Patch(url: string, handler: Handler, mws: seq<MiddlewareFunc>)
      requires Valid()
      modifies this
      ensures State() == Registration(old(State()), parent != null, config.logLevel, Built(url, MethodPatch, handler, VerbChain(mws)))
      ensures Setup() == old(Setup()) && Valid()
    {
      HandleVerb(MethodPatch, url, handler, mws);
    }

    /** ngamux.go `Put`. */
    method Put(url: string, handler: Handler, mws: seq<MiddlewareFunc>)
      requires Valid()
      modifies this
      ensures State() == Registration(old(State()), parent != null, config.logLevel, Built(url, MethodPut, handler, VerbChain(mws)))
      ensures Setup() == old(Setup()) && Valid()
    {
      HandleVerb(MethodPut, url, handler, mws);
    }

    /** ngamux.go `Delete`. */
    method Delete(url: string, handler: Handler, mws: seq<MiddlewareFunc>)
      requires Valid()
      modifies this
      ensures State() == Registration(old(State()), parent != null, config.logLevel, Built(url, MethodDelete, handler, VerbChain(mws)))
      ensures Setup() == old(Setup()) && Valid()
    {
      HandleVerb(MethodDelete, url, handler, mws);
    }

    /**
     * ngamux.go `All`: a root registers the route under each of
     * `allMethods` in turn; a node with a parent forwards the GET route
     * only and returns.
     */
    method All(url: string, handler: Handler, mws: seq<MiddlewareFunc>)
      requires Valid()
      modifies this
      ensures parent != null ==> State() == old(State()).(forwarded := old(forwarded) + [Built(url, MethodGet, handler, mws)])
      ensures parent == null ==> State() == RegisterEach(old(State()), config.logLevel, url, handler, middlewares + mws, AllMethods)
      ensures Setup() == old(Setup()) && Valid()
    {
      var i := 0;
      while i < |AllMethods|
        invariant 0 <= i <= |AllMethods|
        invariant Valid() && Setup() == old(Setup())
        invariant parent != null ==> i == 0 && State() == old(State())
        invariant parent == null ==>
          State() == RegisterEach(old(State()), config.logLevel, url, handler, middlewares + mws, AllMethods[..i])
      {
        var verb := AllMethods[i];
        if parent != null {
          var r := BuildRoute(url, verb, handler, mws);
          AddRouteFromGroup(r);
          return;
        }
        var r := BuildRoute(url, verb, handler, middlewares + mws);
        AddRoute(r);
        assert AllMethods[..i + 1][..i] == AllMethods[..i];
        i := i + 1;
      }
      assert AllMethods[..i] == AllMethods;
    }

    /**
     * ngamux.go `With`: a new node under this one with this one's path,
     * exactly the given middlewares, no tables and a zero configuration.
     * This router is not modified.
     */
    method With(mws: seq<MiddlewareFunc>) returns (g: Ngamux)
      ensures fresh(g) && g.parent == this && g.path == path && g.middlewares == mws
      ensures g.routes == map[] && g.routesParam == map[] && g.config == ZeroConfig
      ensures g.forwarded == [] && g.logged == [] && !g.exited && g.Valid()
    {
      g := new Ngamux.Child(this, path, mws);
    }

    /**
     * group.go `Group`: a fresh router built by `New()` whose path is `url`
     * and whose parent is this router, which is not modified.
     */
    method Group(url: string) returns (g: Ngamux)
      ensures fresh(g) && g.parent == this && g.path == url && g.middlewares == []
      ensures g.routes == map[] && g.routesParam == map[] && g.config == NewConfig()
      ensures g.forwarded == [] && g.logged == [] && !g.exited && g.Valid()
    {
      g := new Ngamux.New([]);
      g.path := url;
      g.parent := this;
    }

    /** Hands every route of `t` to `addRouteFromGroup`, once each, in map order. */
    method ForwardAll(t: Table)
      modifies this
      ensures |forwarded| >= |old(forwarded)| && forwarded[..|old(forwarded)|] == old(forwarded)
      ensures HandsOver(t, forwarded[|old(forwarded)|..])
      ensures Elems(forwarded[|old(forwarded)|..]) == Entries(t)
      ensures routes == old(routes) && routesParam == old(routesParam) && logged == old(logged) && exited == old(exited)
      ensures parent == old(parent) && path == old(path) && config == old(config) && middlewares == old(middlewares)
    {
      var keys := t.Keys;
      ghost var doneKeys: set<string> := {};
      ghost var handed: seq<string> := [];
      ghost var orders: seq<seq<string>> := [];
      ghost var parts: seq<seq<Route>> := [];
      while keys != {}
        invariant TableProgress(t, keys, doneKeys, handed, orders, parts)
        invariant forwarded == old(forwarded) + Flatten(parts)
        invariant routes == old(routes) && routesParam == old(routesParam) && logged == old(logged) && exited == old(exited)
        invariant parent == old(parent) && path == old(path) && config == old(config) && middlewares == old(middlewares)
        decreases keys
      {
        var k :| k in keys;
        ghost var verbs := ForwardBucket(t[k]);
        ghost var part := Pick(t[k], verbs);
        TableProgressStep(t, keys, doneKeys, handed, orders, parts, k, verbs);
        AppendAssoc(old(forwarded), Flatten(parts), part);
        handed := handed + [k];
        orders := orders + [verbs];
        parts := parts + [part];
        keys := keys - {k};
        doneKeys := doneKeys + {k};
      }
      assert doneKeys == t.Keys;
      assert forwarded[|old(forwarded)|..] == Flatten(parts);
      assert TableRuns(t, t.Keys, handed, orders, parts);
    }

    /**
     * The inner loop of `Mount`: every route of one method table, once each,
     * in map order; `order` is the order the methods were visited in.
     */
    method ForwardBucket(bucket: map<string, Route>) returns (ghost order: seq<string>)
      modifies this
      ensures Ordering(bucket, order) && forwarded == old(forwarded) + Pick(bucket, order)
      ensures |forwarded| == |old(forwarded)| + |bucket|
      ensures Elems(forwarded[|old(forwarded)|..]) == bucket.Values
      ensures routes == old(routes) && routesParam == old(routesParam) && logged == old(logged) && exited == old(exited)
      ensures parent == old(parent) && path == old(path) && config == old(config) && middlewares == old(middlewares)
    {
      var verbs := bucket.Keys;
      ghost var doneVerbs: set<string> := {};
      order := [];
      while verbs != {}
        invariant BucketProgress(bucket, verbs, doneVerbs, order)
        invariant forwarded == old(forwarded) + Pick(bucket, order)
        invariant routes == old(routes) && routesParam == old(routesParam) && logged == old(logged) && exited == old(exited)
        invariant parent == old(parent) && path == old(path) && config == old(config) && middlewares == old(middlewares)
        decreases verbs
      {
        var v :| v in verbs;
        AddRouteFromGroup(bucket[v]);
        BucketProgressStep(bucket, verbs, doneVerbs, order, v);
        AppendAssoc(old(forwarded), Pick(bucket, order), [bucket[v]]);
        order := order + [v];
        verbs := verbs - {v};
        doneVerbs := doneVerbs + {v};
      }
      assert doneVerbs == bucket.Keys;
      assert forwarded[|old(forwarded)|..] == Pick(bucket, order);
      OrderingElems(bucket, order);
    }

    /**
     * ngamux.go `Mount`: every route of both of `m`'s tables is handed to
     * `addRouteFromGroup` on a new group for `path`; `m` and this router
     * are not modified.  The group is returned so that it can be inspected.
     */
    method Mount(path: string, m: Ngamux) returns (g: Ngamux)
      ensures fresh(g) && g.parent == this && g.path == path
      ensures g.routes == map[] && g.routesParam == map[] && !g.exited
      ensures Elems(g.forwarded) == Entries(m.routes) + Entries(m.routesParam)
      ensures exists n :: 0 <= n <= |g.forwarded| && HandsOver(m.routes, g.forwarded[..n]) && HandsOver(m.routesParam, g.forwarded[n..])
    {
      g := Group(path);
      g.ForwardAll(m.routes);
      ghost var mid := g.forwarded;
      assert mid[0..] == mid;
      g.ForwardAll(m.routesParam);
      ghost var rest := g.forwarded[|mid|..];
      assert g.forwarded == mid + rest && g.forwarded[..|mid|] == mid;
      ElemsConcat(mid, rest);
    }

    /**
     * route.go:107-125: the method table for a normalized path, from the
     * literal table, else from the first parameter key in `order` that hits.
     */
    method FindRouteMap(path: string, order: seq<string>) returns (found: map<string, Route>)
      requires forall k :: k in order ==> k in routesParam
      ensures path in routes ==> found == routes[path]
      ensures path !in routes ==> found == match ScanParam(order, path) case Some(k) => routesParam[k] case None => map[]
    {
      found := map[];
      if path in routes {
        return routes[path];
      }
      var i := 0;
      while i < |order|
        invariant 0 <= i <= |order|
        invariant ScanParam(order, path) == ScanParam(order[i..], path)
      {
        assert order[i..][1..] == order[i + 1..];
        var url := order[i];
        var matcher := ParseRegex(url);
        if matcher.None? {
          return map[];
        }
        if Match(matcher.value, path).Some? {
          return routesParam[url];
        }
        if url == path {
          return routesParam[url];
        }
        i := i + 1;
      }
    }

    /** route.go:128-139: the error is stored in the request's locals and the error handler answers. */
    method ErrorResult(r: HttpRequest, err: RouteError) returns (res: Dispatched)
      ensures res == Dispatched(ErrorRoute(config.globalErrorHandler), r.(ctx := r.ctx[Key("error") := ErrorValue(err)]))
    {
      var tmp := new Request.Req(r);
      var _ := tmp.SetLocals(Key("error"), ErrorValue(err));
      return Dispatched(ErrorRoute(config.globalErrorHandler), tmp.req);
    }

    /** route.go `getRoute`. */
    method GetRoute(r: HttpRequest, order: seq<string>) returns (res: Dispatched)
      requires Enumerates(order, routesParam)
      ensures res == Dispatch(Tables(routes, routesParam), config, r, order)
    {
      var path := r.path;
      if config.removeTrailingSlash && path != "/" && EndsWith(path, '/') {
        path := TrimRight(path, '/');
      }
      assert path == Normalize(config.removeTrailingSlash, r.path);
      var found := FindRouteMap(path, order);
      ghost var resolved := Resolve(Tables(routes, routesParam), order, r.verb, path);
      if found == map[] {
        assert resolved == NotFound;
        res := ErrorResult(r, ErrorNotFound);
        return;
      }
      if r.verb !in found {
        assert resolved == MethodNotAllowed;
        res := ErrorResult(r, ErrorMethodNotAllowed);
        return;
      }
      var route := found[r.verb];
      assert resolved == Found(route);
      var req := r;
      if r.verb == MethodHead {
        req := req.(hasBody := false);
      }
      res := BuildURLParams(req, route, path);
    }

    /**
     * ngamux.go `ServeHTTP`: the handler dispatch chose runs on the request
     * dispatch produced, behind a read-only writer for HEAD requests.
     * Serving panics when binding the parameters panics, and when the
     * chosen handler is nil: a route registered with a nil handler, or the
     * error handler of a `With` node, whose configuration is zero.
     */
    method ServeHTTP(r: HttpRequest, order: seq<string>) returns (s: Served)
      requires Enumerates(order, routesParam)
      ensures var d := Dispatch(Tables(routes, routesParam), config, r, order);
        (s.Crashed? <==> d.Panicked? || d.route.handler == NilHandler) &&
        (s.Invoked? ==> s.handler == d.route.handler && s.req == d.req && (s.readOnlyWriter <==> d.req.verb == MethodHead))
    {
      var d := GetRoute(r, order);
      if d.Panicked? || d.route.handler == NilHandler {
        return Crashed;
      }
      if d.req.verb == MethodHead {
        return Invoked(d.route.handler, d.req, true);
      }
      return Invoked(d.route.handler, d.req, false);
    }
  }

  /** Serving any request on a fresh `With` node panics: its error handler is nil. */
  method WithNodeServeCrashes(m: Ngamux, mws: seq<MiddlewareFunc>, r: HttpRequest) returns (s: Served)
    ensures s.Crashed?
  {
    var g := m.With(mws);
    s := g.ServeHTTP(r, []);
  }
}
