/**
 * servemux.go: an adapter that registers routes in Go's `http.ServeMux`
 * under keys of the form "METHOD path".  The inner mux is represented by
 * the registrations it has been given, in order; its own pattern matching
 * is not part of this model.
 */
module ServeMux {
  import opened Strs
  import opened Handlers
  import opened Http

  /** One `Handle`/`HandleFunc` call received by the inner `http.ServeMux`. */
  datatype Registration = Registration(key: string, handler: Handler)

  /** The handler `http.NotFound`. */
  const NotFound := Func("http.NotFound")

  /** The pattern key `"%s %s"` of a method and a path. */
  function RouteKey(verb: string, path: string): string {
    verb + " " + path
  }

  /** Splits a key at its first space, into method and path. */
  function SplitKey(key: string): (parts: (string, string))
    ensures ' ' in key ==> key == parts.0 + " " + parts.1 && ' ' !in parts.0
  {
    var n := FieldLength(key, ' ');
    if n < |key| then (key[..n], key[n + 1..]) else (key, "")
  }

  /** A key gives back the method and path it was built from, whenever the method has no space. */
  lemma KeyRoundTrip(verb: string, path: string)
    requires ' ' !in verb
    ensures SplitKey(RouteKey(verb, path)) == (verb, path)
  {
    var key := RouteKey(verb, path);
    assert key[|verb|] == ' ';
    assert key[..|verb|] == verb;
    assert ' ' in key;
    assert key[|verb| + 1..] == path;
  }

  /** servemux.go:48-50: a group route at `/` is the group's own path. */
  function GroupPath(path: string): (p: string)
    ensures path == "/" ==> p == ""
    ensures path != "/" ==> p == path
  {
    if path == "/" then "" else path
  }

  /** The key a group at `prefix` registers in its parent for `verb` and `path`. */
  function GroupKey(verb: string, prefix: string, path: string): string {
    RouteKey(verb, prefix + GroupPath(path))
  }

  /** A group key splits into the method and the group path followed by the route path, `/` counting as "". */
  lemma GroupKeyParts(verb: string, prefix: string, path: string)
    requires ' ' !in verb
    ensures SplitKey(GroupKey(verb, prefix, path)) == (verb, if path == "/" then prefix else prefix + path)
  {
    KeyRoundTrip(verb, prefix + GroupPath(path));
    if path == "/" {
      assert prefix + "" == prefix;
    }
  }

  /** How `ServeHTTP` answers: the fallback handler after a 404, or the recorded response copied out. */
  datatype Answer = Fallback(handler: Handler) | Copied(status: int)

  /** servemux.go `HttpServeMux`. */
  class HttpServeMux {
    var path: string
    /** What this node's inner `http.ServeMux` has been given, in order. */
    var table: seq<Registration>
    var parent: HttpServeMux?
    var middlewares: seq<MiddlewareFunc>

    /** A node is not its own parent. */
    ghost predicate Valid()
      reads this
    {
      parent != this
    }

    /** servemux.go `NewHttpServeMux`. */
    constructor New()
      ensures path == "" && table == [] && parent == null && middlewares == [] && Valid()
    {
      path := "";
      table := [];
      parent := null;
      middlewares := [];
    }

    /** servemux.go `Use`: the arguments are appended in order, without reversal. */
    method Use(mws: seq<MiddlewareFunc>)
      modifies this
      ensures middlewares == old(middlewares) + mws
      ensures path == old(path) && table == old(table) && parent == old(parent)
    {
      middlewares := middlewares + mws;
    }

    /**
     * servemux.go `HandleFunc`.  A root registers the bare handler under
     * "METHOD path" in its own table.  A group registers, in its parent's
     * table only, the handler wrapped in the parent's middlewares and then
     * its own, under "METHOD" + group path + path, where `/` counts as "".
     */
    method HandleFunc(verb: string, path: string, handler: Handler)
      requires Valid()
      modifies this, parent
      ensures parent == old(parent) && this.path == old(this.path) && middlewares == old(middlewares)
      ensures parent == null ==> table == old(table) + [Registration(RouteKey(verb, path), handler)]
      ensures parent != null ==> table == old(table)
      ensures parent != null ==>
        parent.table == old(parent.table) + [Registration(GroupKey(verb, this.path, path), Compose(parent.middlewares + middlewares, handler))]
      ensures parent != null ==>
        parent.middlewares == old(parent.middlewares) && parent.path == old(parent.path) && parent.parent == old(parent.parent)
    {
      if parent != null {
        var p := GroupPath(path);
        var key := RouteKey(verb, this.path + p);
        var mws := [];
        mws := mws + parent.middlewares;
        mws := mws + middlewares;
        assert mws == parent.middlewares + middlewares;
        var h := WithMiddlewares(mws, handler);
        parent.table := parent.table + [Registration(key, h)];
        return;
      }
      table := table + [Registration(RouteKey(verb, path), handler)];
    }

    /**
     * servemux.go `Group`: a new node under this one with the given path,
     * an empty inner mux and this node's middleware list as it is now.
     */
    method Group(path: string) returns (g: HttpServeMux)
      ensures fresh(g) && g.path == path && g.table == [] && g.parent == this && g.middlewares == middlewares
      ensures g.Valid()
    {
      g := new HttpServeMux.New();
      g.path := path;
      g.parent := this;
      g.middlewares := middlewares;
    }

    /** servemux.go `Get`. */
    method Get(path: string, handler: Handler)
      requires Valid()
      modifies this, parent
      ensures parent == old(parent) && this.path == old(this.path) && middlewares == old(middlewares)
      ensures parent == null ==> table == old(table) + [Registration(RouteKey(MethodGet, path), handler)]
      ensures parent != null ==> table == old(table)
      ensures parent != null ==>
        parent.table == old(parent.table) + [Registration(GroupKey(MethodGet, this.path, path), Compose(parent.middlewares + middlewares, handler))]
      ensures parent != null ==>
        parent.middlewares == old(parent.middlewares) && parent.path == old(parent.path) && parent.parent == old(parent.parent)
    {
      HandleFunc(MethodGet, path, handler);
    }

    /** servemux.go `Post`. */
    method Post(path: string, handler: Handler)
      requires Valid()
      modifies this, parent
      ensures parent == old(parent) && this.path == old(this.path) && middlewares == old(middlewares)
      ensures parent == null ==> table == old(table) + [Registration(RouteKey(MethodPost, path), handler)]
      ensures parent != null ==> table == old(table)
      ensures parent != null ==>
        parent.table == old(parent.table) + [Registration(GroupKey(MethodPost, this.path, path), Compose(parent.middlewares + middlewares, handler))]
      ensures parent != null ==>
        parent.middlewares == old(parent.middlewares) && parent.path == old(parent.path) && parent.parent == old(parent.parent)
    {
      HandleFunc(MethodPost, path, handler);
    }

    /** servemux.go `Patch`. */
    method Patch(path: string, handler: Handler)
      requires Valid()
      modifies this, parent
      ensures parent == old(parent) && this.path == old(this.path) && middlewares == old(middlewares)
      ensures parent == null ==> table == old(table) + [Registration(RouteKey(MethodPatch, path), handler)]
      ensures parent != null ==> table == old(table)
      ensures parent != null ==>
        parent.table == old(parent.table) + [Registration(GroupKey(MethodPatch, this.path, path), Compose(parent.middlewares + middlewares, handler))]
      ensures parent != null ==>
        parent.middlewares == old(parent.middlewares) && parent.path == old(parent.path) && parent.parent == old(parent.parent)
    {
      HandleFunc(MethodPatch, path, handler);
    }

    /** servemux.go `Put`. */
    method Put(path: string, handler: Handler)
      requires Valid()
      modifies this, parent
      ensures parent == old(parent) && this.path == old(this.path) && middlewares == old(middlewares)
      ensures parent == null ==> table == old(table) + [Registration(RouteKey(MethodPut, path), handler)]
      ensures parent != null ==> table == old(table)
      ensures parent != null ==>
        parent.table == old(parent.table) + [Registration(GroupKey(MethodPut, this.path, path), Compose(parent.middlewares + middlewares, handler))]
      ensures parent != null ==>
        parent.middlewares == old(parent.middlewares) && parent.path == old(parent.path) && parent.parent == old(parent.parent)
    {
      HandleFunc(MethodPut, path, handler);
    }

    /** servemux.go `Delete`. */
    method Delete(path: string, handler: Handler)
      requires Valid()
      modifies this, parent
      ensures parent == old(parent) && this.path == old(this.path) && middlewares == old(middlewares)
      ensures parent == null ==> table == old(table) + [Registration(RouteKey(MethodDelete, path), handler)]
      ensures parent != null ==> table == old(table)
      ensures parent != null ==>
        parent.table == old(parent.table) + [Registration(GroupKey(MethodDelete, this.path, path), Compose(parent.middlewares + middlewares, handler))]
      ensures parent != null ==>
        parent.middlewares == old(parent.middlewares) && parent.path == old(parent.path) && parent.parent == old(parent.parent)
    {
      HandleFunc(MethodDelete, path, handler);
    }

    /**
     * servemux.go `ServeHTTP`, given the status the inner mux recorded: a
     * 404 is answered by `http.NotFound` wrapped in this node's
     * middlewares, anything else is copied out as recorded.
     */
    method ServeHTTP(innerStatus: int) returns (a: Answer)
      ensures a.Fallback? <==> innerStatus == StatusNotFound
      ensures a.Fallback? ==> Layers(a.handler) == Labels(middlewares) && Core(a.handler) == NotFound
      ensures a.Copied? ==> a.status == innerStatus
    {
      if innerStatus == StatusNotFound {
        var h := WithMiddlewares(middlewares, NotFound);
        ComposeLayers(middlewares, NotFound);
        return Fallback(h);
      }
      return Copied(innerStatus);
    }
  }

  /**
   * A group starts with its creator's middleware list, and a group route
   * is wrapped in the creator's list followed by the group's, so the
   * middlewares the creator had at `Group` time wrap the route twice.
   */
  lemma GroupChainRepeatsCreator(atCreation: seq<MiddlewareFunc>, creatorLater: seq<MiddlewareFunc>,
                                 groupLater: seq<MiddlewareFunc>, h: Handler)
    ensures Layers(Compose((atCreation + creatorLater) + (atCreation + groupLater), h)) ==
      Labels(atCreation) + Labels(creatorLater) + Labels(atCreation) + Labels(groupLater) + Layers(h)
  {
    ComposeLayers((atCreation + creatorLater) + (atCreation + groupLater), h);
    LabelsAppend(atCreation + creatorLater, atCreation + groupLater);
    LabelsAppend(atCreation, creatorLater);
    LabelsAppend(atCreation, groupLater);
  }
}
