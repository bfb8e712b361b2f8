# ngamux in Dafny

A verified model of the registration-and-dispatch core of ngamux, a small
HTTP router for Go that plugs into `net/http`.

## What the model covers

**Routing.** A root router (`Ngamux`) keeps two route tables, each keyed
path → method → `Route`:

- `routes` holds literal paths;
- `routesParam` holds templates that contain `:name` or `+`.

Registering a template does three things:

- it extracts the parameter names with the `paramsFinder` expression;
- it rewrites each parameter into a capture group of `[0-9a-zA-Z.\-_]`,
  which also admits `/` when the path has a `+` but no `:`;
- it compiles the result into an anchored pattern.

A compile failure ends the process.

Dispatch works in this order:

1. It trims trailing slashes, when configured.
2. It tries the literal table.
3. It scans the parameter table in map order. The scan takes the first key
   whose pattern matches the path, or the first key equal to the path.
4. It resolves to the error handler with `ErrorNotFound` or
   `ErrorMethodNotAllowed`, checked in that order.

On a match it attaches the name/value bindings to the request.

**Registration surface.** The model covers:

- `Use`;
- the per-method registrars;
- `All`;
- `With`, `Group` and `Mount`;
- the `ServeHTTP` HEAD branch.

**Smaller parts.** The model also covers:

- middleware composition (`WithMiddlewares`);
- the configuration defaults and options;
- the log-level gate;
- the request helpers;
- the small generic `Mapping` container, which keeps a slice and migrates to
  a map after 10 entries;
- the `net/http.ServeMux` adapter (`HttpServeMux`);
- the annotation fan-out;
- the two CORS helpers;
- the `Response` status helpers.

**How things are represented.** Handlers and middlewares are symbolic:

- a handler is an opaque id;
- a middleware is a label;
- a composed handler is a `Wrap(label, inner)` chain.

With that representation, ordering and nil-skipping become provable
equalities. The parts of the `net/http` response writer that the helpers
rely on are modelled too:

- a header map;
- the status and header snapshot fixed by the first `WriteHeader` or
  `Write`;
- the body.

Go map iteration order appears as an explicit `order` argument that
enumerates the parameter table, so results hold for every order.

Modules, one per source file or concern:

| module | file | models |
|---|---|---|
| `Wrappers` | wrappers.dfy | `Option` |
| `Strs` | strs.dfy | the `strings` functions the source calls (`Contains`, `TrimRight`, `ReplaceAll` with `""`, `Join`, `Split`) |
| `Handlers` | handlers.dfy | handlers, middlewares, `WithMiddlewares`, `slices.Reverse` |
| `Configs` | configs.dfy | `Config`, `NewConfig`, the options, the log gate |
| `Http` | http.dfy | requests, route errors, context values, the response writer |
| `Patterns` | patterns.dfy | `paramsFinder`, template rewriting, the regular expressions the router builds, anchored matching |
| `Routes` | routes.dfy | `Route`, `buildRoute`, the tables, registration, the parameter scan, `buildURLParams`, `getRoute` |
| `Requests` | requests.dfy | `Request` and its helpers |
| `Mux` | ngamux.dfy | the `Ngamux` router object |
| `Mappings` | mapping.dfy | `mapping.Mapping` |
| `ServeMux` | servemux.dfy | `HttpServeMux` |
| `Annotations` | annotate.dfy | `Annotation` |
| `Responses` | responses.dfy | `Response` |
| `Cors` | cors.dfy | middleware `EnableCors` |
| `CorsMiddleware` | cors_middleware.dfy | the middleware/cors package |

### Behaviour of the code worth knowing

- **Template syntax.** A parameter is written `:name` or `+`.
  A `+` may appear anywhere. The capture class admits `/` only when the
  whole path has no `:` (route.go:62-66).
- **Trailing slashes.** Normalization removes every trailing `/`
  (route.go:104).
- **HEAD requests.** A HEAD request is only served by a route registered for
  HEAD. `All` does not register HEAD
  (ngamux.go:52-58).
- **`Mount`.** It hands each route of the mounted router to
  `addRouteFromGroup` on a new group (ngamux.go:195-210). The body of that
  operation is commented out (group.go:11-26), so the model records the
  routes handed over and nothing more. It does not model prefix joining
  or chain rebuilding.
- **`Group` and `With` nodes.**
  - A registration on them goes to `addRouteFromGroup`.
  - `All` on such a node registers GET and stops (ngamux.go:175-178).
  - `HandleFunc` on a root router ignores its own middleware arguments
    (ngamux.go:115).
- **A parameter key equal to the path.** The parameter scan also accepts a
  key that is literally equal to the path (route.go:120-123). When that
  key's pattern does not match the path and the route has parameters,
  `buildURLParams` indexes a missing submatch and panics. The model returns
  `Panicked`, and `Routes.KeyEqualityPanics` exhibits such a request.

## Model

| member | source | states |
|---|---|---|
| Handlers.WithMiddlewares | common.go:13-28 | the composed handler is the fold of the list; an empty list returns the handler unchanged |
| Handlers.ComposeLayers | common.go:20-25 | the layers of the composed handler are the non-nil labels in list order (element 0 outermost), followed by the handler's own layers; the innermost handler is unchanged, so each non-nil middleware is applied exactly once |
| Handlers.ComposeSkipsNil | common.go:21-23 | composing a list equals composing only its non-nil entries |
| Handlers.NonNil | common.go:21-23 | the filtered list holds only real middlewares and is no longer than the input |
| Handlers.ComposeAllNil | common.go:20-26 | a list of nil entries applied to a nil handler yields nil |
| Handlers.ComposeAppend | common.go:13-28 | composing `a ++ b` equals composing `a` around the composition of `b` |
| Handlers.LabelsAppend | common.go:20-25 | the labels applied for `a ++ b` are those of `a` followed by those of `b` |
| Handlers.Reverse | ngamux.go:100 | the reversal has the same length, and element `i` is input element `n-1-i` |
| Handlers.ReverseInPlace | ngamux.go:100 | the array afterwards holds the reversal of its old contents |
| Configs.NewConfig | config.go:11-19 | trailing-slash removal is on, the error handler is the package default and the log level is Error |
| Configs.Apply | options.go:4-15 | `WithTrailingSlash` turns removal off and `WithErrorHandler(h)` installs `h`; each leaves every other field unchanged |
| Configs.ApplyIdempotent | options.go:4-15 | applying an option twice equals applying it once |
| Configs.ApplyAllEffect | ngamux.go:69-72 | after applying options in argument order, removal is on iff it was on and no `WithTrailingSlash` was given; the handler is that of the last `WithErrorHandler`; the log level is unchanged |
| Configs.LastErrorHandler | ngamux.go:70-72 | the index found is that of a `WithErrorHandler` option with none after it, or -1 |
| Configs.IsLogCanShow | log.go:11-32 | a level is shown iff both levels are among Info, Warn and Error and the queried level is at most the configured one (so Quiet and any other level show nothing) |
| Configs.Log | log.go:34-40 | a record is emitted iff the gate allows it, and it carries the level, message and arguments |
| Http.Get | request.go:35-36 | a missing key reads as the empty string; a present key reads as its value |
| Http.ResponseWriter.constructor | response.go:13-16 | a fresh writer has no headers, nothing sent and an empty body |
| Http.ResponseWriter.SetHeader | middleware/cors/cors.go:62 | the header gets exactly one value; the sent snapshot and the body are unchanged |
| Http.ResponseWriter.AddHeader | response.go:43 | the value is appended to the header's values; the sent snapshot and the body are unchanged |
| Http.ResponseWriter.WriteHeader | response.go:42 | only the first status write has an effect: it panics, changing nothing, iff the code is outside 100..999, and otherwise fixes the status and the header snapshot |
| Http.ResponseWriter.DelHeader | response.go:57 | the header and all its values are removed; the sent snapshot and the body are unchanged |
| Http.ResponseWriter.Write | response.go:44 | an unsent response is first sent with 200; the data is appended to the body |
| Strs.Contains | route.go:45 | true iff the text occurs at some index |
| Strs.TrimRight | route.go:104 | the result is a prefix of the input that does not end in the character, and only that character was removed |
| Strs.Remove | middleware/cors/cors.go:35-37 | the character is gone, every other character's count is kept, and the result is no longer than the input |
| Strs.RemoveAppend | middleware/cors/cors.go:35-37 | removal works piecewise on a concatenation, and a one-character text is dropped or kept whole, so the kept characters stay in their order |
| Strs.Split | middleware/cors/cors.go:40 | at least one field, none containing the separator |
| Strs.JoinSplit | middleware/cors/cors.go:40 | joining the fields of a split with the same separator gives the text back |
| Strs.SplitJoin | middleware/cors.go:26 | splitting a join of separator-free items gives the items back |
| Patterns.AlnumRun | ngamux.go:40 | the run is the longest alphanumeric prefix |
| Patterns.ScanRoundTrip | ngamux.go:40 | scanning a template for parameter tokens loses nothing: un-scanning gives the template back |
| Patterns.ScanNames | route.go:56-60 | every extracted name is either empty (from `+`) or a letter followed by letters and digits; no `+` is left as text |
| Patterns.TokenTexts | route.go:59 | one token per name, and each name is its token without the first character |
| Patterns.Atoms | route.go:69 | the pattern has one atom per piece: a capture slot per parameter, any-character for `.`, the literal otherwise |
| Patterns.AtomsSlotCount | route.go:56-69 | the compiled pattern has exactly as many capture slots as there are names |
| Patterns.CompileRegexText | route.go:62-73 | the rewritten template compiles iff its literal text has no regular-expression metacharacter other than `.`, and then it compiles to the atoms |
| Patterns.ClassRun | route.go:63 | the run is the longest prefix inside the capture class |
| Patterns.AcceptsCount | route.go:87-91 | every accepted capture list has one capture per slot |
| Patterns.MatchSound | route.go:115 | a successful anchored match yields captures the pattern accepts |
| Patterns.MatchComplete | route.go:115 | whenever some capture list is accepted, the matcher succeeds |
| Patterns.MatchIff | route.go:115 | the matcher succeeds iff the whole path is accepted by some capture list |
| Patterns.SegmentCapturesUnique | route.go:87-91 | when every slot is last or followed by a literal `/`, a path has at most one capture list |
| Routes.BuildRoute | route.go:25-36 | the route keeps url, path and method, has no params and no matcher, and its handler is wrapped in the given chain in order |
| Routes.InsertLookup | route.go:46-50 | re-registering a path and method overwrites that entry only; every other path or method is kept |
| Routes.Singletons | route.go:57-60 | each param list is the one-element list of its name |
| Routes.RegexTextIsParamPath | route.go:67 | the rewritten key of a parameter template is still a parameter path |
| Routes.CompileRouteEffect | route.go:55-73 | compiling succeeds iff the template is supported; the compiled route keeps raw path, method and handler, gets the rewritten path, matcher and one param list per name |
| Routes.TablesDisjoint | route.go:45-53 | no key is in both tables |
| Routes.RegisterLiteral | route.go:45-53 | a literal route lands only in the literal table under its path and method; everything else and the param table are unchanged; validity is kept |
| Routes.RegisterParam | route.go:55-79 | a template route fails iff it does not compile; otherwise it lands only in the param table under its rewritten key; validity is kept |
| Routes.InsertValidParam | route.go:75-78 | inserting a compiled route keeps every param bucket consistent with its key |
| Routes.Normalize | route.go:103-105 | when enabled and the path is not `/`, every trailing `/` is removed and nothing else; otherwise the path is unchanged |
| Routes.NormalizeIdempotent | route.go:103-105 | normalizing twice equals normalizing once |
| Routes.ScanParam | route.go:109-124 | a key found by the scan is in the order and hits the path |
| Routes.ScanParamNone | route.go:109-124 | the scan finds nothing iff no key hits the path |
| Routes.ScanParamUnique | route.go:109-124 | when exactly one key hits the path, the scan finds it whatever the order |
| Routes.ExactHitWins | route.go:107-108 | a literal hit decides the result without consulting the param table, in every order: that route, or MethodNotAllowed |
| Routes.NotFoundIff | route.go:128-132 | the result is NotFound iff the path is in no literal bucket and hits no param key |
| Routes.ResolveSound | route.go:127-149 | a found route is registered for the method under the literal path or under a hitting key; MethodNotAllowed means the chosen bucket lacks the method |
| Routes.UniqueHitResolves | route.go:109-140 | with a single hitting param key, the result is its route for the method or MethodNotAllowed |
| Routes.Bind | route.go:88-92 | one binding per param list, each extended with the capture at its position |
| Routes.BuildURLParams | route.go:82-99 | the loop computes the bindings the parameter semantics prescribes |
| Routes.URLParamsBindings | route.go:82-99 | it panics iff there are names and the path is not accepted; otherwise binding `i` is name `i` with capture `i`, attached to the request under the params key; with no names the route and request are returned unchanged |
| Routes.LiteralRouteFound | route.go:101-152 | dispatching a registered literal path and method invokes exactly that route; a HEAD request loses its body |
| Routes.KeyEqualityPanics | route.go:120-123 | a request whose path equals a param key that its pattern does not match panics in parameter binding |
| Routes.ClassPathFoundByKey | route.go:110-123 | that key's pattern rejects the path, yet the scan picks the key by equality |
| Requests.FirstBindingSpec | request.go:22-31 | the value of the first binding named `key` is returned; with no such binding the result is `""` |
| Requests.Fallback | request.go:37-43 | a non-empty value wins, then the first fallback, then `""` |
| Requests.FallbackEmpty | request.go:34-44 | the result is empty iff the value is empty and there is no non-empty first fallback |
| Requests.Request.Req | request.go:17-19 | the wrapper holds the given request |
| Requests.Request.Locals | request.go:92-95 | a key reads as its context value, and an unset key reads as nil |
| Requests.Request.SetLocals | request.go:92-98 | it returns nil; afterwards the key reads as the value and every other key is unchanged |
| Requests.Request.Params | request.go:22-31 | the lookup over the attached bindings; it panics when no binding list is attached |
| Requests.Request.Query | request.go:34-44 | a non-empty query value wins, else the first fallback, else `""` |
| Requests.Request.FormValue | request.go:47-57 | a non-empty posted value wins, else the first fallback, else `""` |
| Requests.Request.IsLocalhost | request.go:101-103 | true iff the host contains `localhost` or `127.0.0.1` |
| Requests.Request.GetIPAddress | request.go:106-123 | `X-Real-Ip` if non-empty, else `X-Forwarded-For` if non-empty, else the remote address |
| Mux.RouteLog | route.go:51 | a registration logs one Info record with method and raw path iff the gate shows Info |
| Mux.RegisterEachLiteral | ngamux.go:173-182 | registering a literal url under several methods adds exactly those methods' routes and keeps the tables valid |
| Mux.AllRegistersFiveMethods | ngamux.go:52-58 | `All` registers GET, POST, PUT, PATCH and DELETE, and leaves HEAD as it was |
| Mux.ParamLists | route.go:56-60 | the loop builds one single-name list per extracted name, in order |
| Mux.Ngamux.New | ngamux.go:68-84 | empty tables, no parent, no middlewares, and the default configuration with each option applied in order |
| Mux.Ngamux.Child | ngamux.go:185-192 | a node with the given parent, path and middlewares, and no tables |
| Mux.Ngamux.Use | ngamux.go:99-103 | the reversed arguments are appended; the error handler is re-wrapped with the whole accumulated list; the tables are unchanged |
| Mux.Ngamux.AddRoute | route.go:38-80 | the registration step over the tables: literal or parameter bucket, log record, or process exit on a compile error; validity is kept |
| Mux.Ngamux.AddParamRoute | route.go:55-79 | a template route is compiled and stored under its rewritten key, or the process exits |
| Mux.Ngamux.AddRouteFromGroup | ngamux.go:112 | the route is handed over and nothing else changes |
| Mux.Ngamux.HandleFunc | ngamux.go:110-116 | on a root node, registers with the router's middlewares only; on a child node, forwards with the given ones |
| Mux.Ngamux.HandleVerb | ngamux.go:119-170 | the shared body of the per-method registrars |
| Mux.Ngamux.Get | ngamux.go:119-125 | registers for GET with the router's chain then the route's |
| Mux.Ngamux.Head | ngamux.go:128-134 | registers for HEAD with the router's chain then the route's |
| Mux.Ngamux.Post | ngamux.go:137-143 | registers for POST with the router's chain then the route's |
| Mux.Ngamux.Patch | ngamux.go:146-152 | registers for PATCH with the router's chain then the route's |
| Mux.Ngamux.Put | ngamux.go:155-161 | registers for PUT with the router's chain then the route's |
| Mux.Ngamux.Delete | ngamux.go:164-170 | registers for DELETE with the router's chain then the route's |
| Mux.Ngamux.All | ngamux.go:173-182 | on a root node, registers the five methods; on a child node, forwards GET only |
| Mux.Ngamux.With | ngamux.go:185-192 | a fresh node with the creator's path, the creator as parent, exactly the given middlewares and no tables; the creator is untouched |
| Mux.Ngamux.Group | group.go:4-9 | a fresh node with the given path, the creator as parent, empty tables, no middlewares and the default configuration; the creator is untouched |
| Mux.Ngamux.ForwardAll | ngamux.go:198-202 | one run of calls per path, each path once, each run handing over that path's method table once per entry; the routes handed over are exactly the table's, and nothing else changes |
| Mux.Ngamux.ForwardBucket | ngamux.go:199-201 | one call per method of the bucket: the calls are the bucket's routes along an ordering that lists each method once, so there are as many calls as entries; nothing else changes |
| Mux.OrderingElems | ngamux.go:199-201 | handing over a method table along an ordering of its methods hands over exactly its routes, as many calls as it has entries |
| Mux.Ngamux.Mount | ngamux.go:195-210 | the new group receives the literal table's entries, one call each, followed by the parameter table's entries, one call each; the routes handed over are exactly those of both tables |
| Mux.Ngamux.FindRouteMap | route.go:107-125 | the literal bucket if the path has one, else the bucket of the first param key that hits, else nothing |
| Mux.Ngamux.ErrorResult | route.go:129-132 | the error handler, with the error stored in the request's locals |
| Mux.Ngamux.GetRoute | route.go:101-152 | the dispatch result prescribed by the table semantics |
| Mux.Ngamux.ServeHTTP | ngamux.go:87-96 | the dispatched handler runs on the dispatched request, with a read-only writer iff the method is HEAD; serving crashes iff parameter binding panics or the chosen handler is nil |
| Mappings.SliceMapHas | mapping/mapping.go:68-72 | a key is present iff some entry carries it |
| Mappings.SliceMapAt | mapping/mapping.go:68-72 | with unique keys, each entry's value is the value of its key |
| Mappings.SliceMapUpdate | mapping/mapping.go:45 | overwriting an entry in place updates that key and nothing else |
| Mappings.LatestSetWins | mapping/mapping.go:32-58 | a key's value is the one from its most recent `Set` |
| Mappings.ReplayStep | mapping/mapping.go:32-58 | one more `Set` updates its key in the replayed contents |
| Mappings.AppendFresh | mapping/mapping.go:41-43 | appending a new key keeps keys unique and adds just that key |
| Mappings.Overwrite | mapping/mapping.go:45 | overwriting keeps the key order and uniqueness and changes only that key's value |
| Mappings.IndexOfKey | mapping/mapping.go:34-40 | the index of the entry with the key, or -1 iff the key is absent |
| Mappings.Migrate | mapping/mapping.go:49-55 | the map built from the slice has the same contents |
| Mappings.SliceMapCard | mapping/mapping.go:33 | with unique keys, the slice length is the number of keys held |
| Mappings.Mapping.New | mapping/mapping.go:25-27 | empty slice, no map, nothing held |
| Mappings.Mapping.Set | mapping/mapping.go:32-58 | the contents gain the key and value and nothing else changes. In slice mode below 10, an existing key is overwritten in place with length and key order kept, and a new key is appended. At 10 entries or in map mode, the map holds everything and the slice is empty. The representation invariant is kept |
| Mappings.Mapping.SetInSlice | mapping/mapping.go:33-47 | the slice-mode branch: overwrite in place or append, keys kept unique |
| Mappings.Mapping.Get | mapping/mapping.go:62-74 | found iff the key is held, with the value of its most recent `Set` |
| Mappings.Mapping.Each | mapping/mapping.go:80-95 | visits entries until the first false answer; in slice mode a prefix of the slice in insertion order; in map mode distinct held entries |
| Mappings.EachInMap | mapping/mapping.go:81-86 | the map branch: distinct held entries, stopping right after a false answer |
| Mappings.EachInSlice | mapping/mapping.go:88-92 | the slice branch: a prefix in order, stopping right after a false answer |
| ServeMux.SplitKey | servemux.go:59 | a key with a space splits at its first space |
| ServeMux.KeyRoundTrip | servemux.go:59 | the route key `method path` splits back into method and path |
| ServeMux.GroupPath | servemux.go:48-50 | path `/` becomes `""`; any other path is kept |
| ServeMux.GroupKeyParts | servemux.go:47-51 | a group key is the method, then the group path followed by the route path (`/` dropped) |
| ServeMux.HttpServeMux.New | servemux.go:16-23 | empty path, no registrations, no parent, no middlewares |
| ServeMux.HttpServeMux.Use | servemux.go:25-27 | arguments are appended in order, without reversal |
| ServeMux.HttpServeMux.HandleFunc | servemux.go:46-61 | root: registers `method path` with the bare handler; group: registers the group key only in the parent's table, wrapped in the parent's chain then the group's |
| ServeMux.HttpServeMux.Group | servemux.go:63-71 | a fresh node with the given path, the creator as parent and the creator's current middlewares |
| ServeMux.HttpServeMux.Get | servemux.go:73-75 | `HandleFunc` with GET: the same effect on this mux and its parent, including the parent's unchanged middlewares, path and parent |
| ServeMux.HttpServeMux.Post | servemux.go:77-79 | `HandleFunc` with POST: the same effect on this mux and its parent, including the parent's unchanged middlewares, path and parent |
| ServeMux.HttpServeMux.Patch | servemux.go:81-83 | `HandleFunc` with PATCH: the same effect on this mux and its parent, including the parent's unchanged middlewares, path and parent |
| ServeMux.HttpServeMux.Put | servemux.go:85-87 | `HandleFunc` with PUT: the same effect on this mux and its parent, including the parent's unchanged middlewares, path and parent |
| ServeMux.HttpServeMux.Delete | servemux.go:89-91 | `HandleFunc` with DELETE: the same effect on this mux and its parent, including the parent's unchanged middlewares, path and parent |
| Mux.WithNodeServeCrashes | ngamux.go:184-192 | a fresh `With` node has a zero configuration, so serving any request on it calls a nil error handler and crashes |
| ServeMux.HttpServeMux.ServeHTTP | servemux.go:29-44 | an inner 404 is answered by `http.NotFound` wrapped in the router's middlewares; any other status is copied |
| ServeMux.GroupChainRepeatsCreator | servemux.go:52-54 | middlewares the creator had when the group was made appear twice in a group route's chain |
| Annotations.Announcements | annotate.go:27-31 | one announcement per annotator, in list order, each carrying the built route |
| Annotations.Annotation.Annotate | annotate.go:20-25 | the router and annotators are stored as given |
| Annotations.Annotation.Announce | annotate.go:27-31 | every annotator is called once, in order, with the route built from method and path |
| Annotations.Annotation.HandlerFunc | annotate.go:33-36 | all annotators, then one forward of the same method, path and handler |
| Annotations.Annotation.Get | annotate.go:37-40 | annotators then one GET forward |
| Annotations.Annotation.Post | annotate.go:41-44 | annotators then one POST forward |
| Annotations.Annotation.Put | annotate.go:45-48 | annotators then one PUT forward |
| Annotations.Annotation.Patch | annotate.go:49-52 | annotators then one PATCH forward |
| Annotations.Annotation.Delete | annotate.go:53-56 | annotators then one DELETE forward |
| Annotations.RegistrationCalls | annotate.go:33-56 | each annotator sees the registration's method, path and handler, all before the single forward; with no annotators it is a plain forward |
| Responses.Response.Res | response.go:19-23 | wraps the writer with stored status 0 |
| Responses.Response.StatusSafe | response.go:25-32 | 0 becomes 200; any other status is returned unchanged |
| Responses.Response.Status | response.go:35-38 | stores the status and returns the same response |
| Responses.Response.Text | response.go:41-45 | panics, changing nothing, iff nothing was sent and the safe status is invalid; otherwise the safe status is sent with the headers as they were, the content type is added too late, and the body gets the data and one newline character |
| Responses.Response.TextCorrected | response.go:41-45 | the content type is appended to the header map first; then the safe status is sent with that whole map, so the sent headers carry `text/plain`, unless it panics on an invalid status; the body gets the data and one newline character unless it panicked |
| Responses.Response.JSON | response.go:48-64 | on success: JSON content type, then the safe status and the encoded body, or a panic leaving status and body as they were if the status is invalid; on failure: `Content-Length` dropped, the `http.Error` headers, status 500 and the message with one newline character |
| Responses.TextSendsNoContentType | response.go:42-43 | on a fresh writer, `Text` sends 200 without a content type |
| Responses.TextInvalidStatusPanics | response.go:35-45 | a status outside 100..999 chosen with `Status` makes `Text` panic on a fresh writer |
| Responses.TextCorrectedSendsContentType | response.go:41-45 | on a fresh writer, the corrected `Text` sends 200 with `text/plain` |
| Cors.EnableCors | middleware/cors.go:19-44 | headers, origins and expose headers are flattened; methods are always joined |
| Cors.FlattenMeaning | middleware/cors.go:23-39 | an empty list or a leading `*` gives `*`; otherwise the joined value splits back into the list, so a later `*` is kept literally |
| Cors.MethodsJoined | middleware/cors.go:41 | no methods give `""`; otherwise the joined value splits back into the methods |
| CorsMiddleware.Normalized | middleware/cors/cors.go:23-38 | no config gives the defaults; a config has empty methods and origins defaulted (headers are not) and spaces removed from all three fields |
| CorsMiddleware.AllowedOrigins | middleware/cors/cors.go:40 | at least one origin, none containing a space or a comma |
| CorsMiddleware.StripSlash | middleware/cors/cors.go:48-50 | one trailing `/` is removed, and only that |
| CorsMiddleware.AllowOriginNoHit | middleware/cors/cors.go:52-62 | with no hit, the allowed origin is `""` |
| CorsMiddleware.AllowOriginFirstHit | middleware/cors/cors.go:52-61 | the first hit decides: `*` for a `*` entry, otherwise the origin itself |
| CorsMiddleware.CorsHandler.New | middleware/cors/cors.go:23-40 | keeps the normalized configuration and the split origin list |
| CorsMiddleware.CorsHandler.PickOrigin | middleware/cors/cors.go:52-61 | the scan loop returns the first-hit value |
| CorsMiddleware.CorsHandler.Serve | middleware/cors/cors.go:43-75 | an empty Referer sets no origin header, otherwise it is set from the scan; non-OPTIONS calls `next` and sends nothing itself; OPTIONS sets methods and headers, sends 204 and skips `next` |

## Left out

- `router.go` is left out. It wraps a trie package whose matching is not part of this model.
- The `json` package is left out. It only delegates to `encoding/json`.
- `handler.go`, `context.go`, the recover middlewares and the examples are left out. They are type adapters, `panic`/`recover` plumbing, or programs.
- Regular expressions in general are left out.
  - The model compiles only the expressions the router builds: literal characters, `.`, and the two capture groups.
  - A template whose literal text holds any other regular-expression metacharacter is treated as a compile failure. Go would accept a well-formed one.
- Go map iteration order is not modelled. It is an argument that enumerates the parameter table, and the lemmas hold for every such order.
- `Mux.Ngamux.AddRouteFromGroup`: its body is commented out in the source. The model records the routes handed to it; it does not join prefixes, rebuild chains or insert into the root. The group-route reachability the tests expect therefore cannot be stated.
- `Mux.Ngamux.Mount` returns the group it creates so that its contract can speak about it. The source discards it.
- `Mux.Ngamux.AddRoute` takes a route built by `buildRoute` (no matcher yet), which is the only kind the router passes.
- After `log.Fatal` the process is gone. The model only sets `exited` and does not constrain later calls.
- Slice aliasing is not modelled. Affected: `slices.Reverse` on the caller's argument slice, `append` sharing in `Use`, and `HttpServeMux.Group` sharing its creator's slice. Values are copied instead.
- The request's body is a flag. Dispatch clears it for HEAD. The model copies the request rather than mutating the caller's.
- `readOnlyResponseWriter` is not part of this model. `Mux.Ngamux.ServeHTTP` records only that HEAD takes that branch.
- The output of `globalErrorHandler` and `slog` is left out. The model keeps the error handler's identity, the error stored in the request and the log record.
- The options are values (`ConfigOption`) applied by a function, not closures writing through a pointer.
- `WithLogLevel` is used by tests but is not part of this model.
- The log levels take the `slog` values: Info 0, Warn 4, Error 8, and `LogLevelQuiet` -8.
- `Mappings.Mapping.Get` returns `None` where Go returns the zero value and `false`.
- `Mappings.Mapping.Each`: in map mode the visiting order is any order. The model states only that distinct held entries are visited, as many as the container holds unless a call answers false, stopping right after that call.
- `ServeMux.HttpServeMux.ServeHTTP`: the recorder, header copying and body copying are left out. The inner mux's status is a parameter.
- `http.ServeMux` pattern matching and its conflict panics are left out. Registrations are a list of keys and handlers.
- `Http.ResponseWriter.Write`: content sniffing is not modelled. The writer behaves as `httptest.ResponseRecorder` after an explicit `WriteHeader`: a first `Write` adds no `Content-Type`. A live `net/http` server would sniff one from the first bytes when none is set, and so would the recorder on a `Write` with no prior `WriteHeader`.
- `Http.ResponseWriter.WriteHeader`: every code in 100..999 is final, as `httptest.ResponseRecorder` treats it. A live `net/http` server sends a 1xx code other than 101 as an informational response and still accepts the final `WriteHeader`; the model does not capture that. A panic is an outcome the call returns, and the caller stops there.
- `Responses.Response.JSON`: encoding is a parameter, either the encoded text or a failure with its message.
  - The value of `headerContentTypeJSON` is not part of this model and is taken as `application/json`.
  - The buffer pool is left out.
- `Response.HTML`, request `JSON` and `FormFile`: templates, body decoding and multipart parsing are left out. `HTML` has the same header-order defect as `Text`.
- `matchSubdomain` is not part of this model. It is a parameter of the CORS handler.
- `Requests.Request.Params` reports a panic as an outcome. The source's panic comes from a failed type assertion.

## Findings

| source | as written | input that shows it | evidently intended | confidence | as-written member | corrected member |
|---|---|---|---|---|---|---|
| response.go:41-45 | `Text` calls `WriteHeader` and only then adds `Content-Type: text/plain`, so the header is never sent | `Res(w).Text("hi")` on a fresh `httptest.ResponseRecorder`: 200 is recorded with no `Content-Type` | set the content type before writing the status | not executed | Responses.TextSendsNoContentType | Responses.TextCorrectedSendsContentType |
