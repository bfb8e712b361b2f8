/**
 * middleware/cors/cors.go: the CORS middleware.  `New` normalizes the
 * configuration once; the handler it wraps around `next` picks the
 * `Access-Control-Allow-Origin` value from the request's Referer and
 * answers preflight (OPTIONS) requests itself.  `matchSubdomain` is not
 * part of this model and is taken as a parameter.
 */
module CorsMiddleware {
  import opened Wrappers
  import opened Strs
  import opened Http

  /** middleware/cors `Config`. */
  datatype CorsConfig = CorsConfig(allowOrigins: string, allowMethods: string, allowHeaders: string)

  /** The default method list. */
  const DefaultMethods := Join([MethodGet, MethodPost, MethodHead, MethodPut, MethodPatch, MethodDelete], ',')

  /** middleware/cors/cors.go `configDefault`. */
  const ConfigDefault := CorsConfig("*", DefaultMethods, "")

  const AllowOriginHeader := "Access-Control-Allow-Origin"
  const AllowMethodsHeader := "Access-Control-Allow-Methods"
  const AllowHeadersHeader := "Access-Control-Allow-Headers"

  /** The configuration `New` settles on: the first one given, its empty origins and methods defaulted, all spaces removed. */
  function Normalized(config: seq<CorsConfig>): (cfg: CorsConfig)
    ensures config == [] ==> cfg == ConfigDefault
    ensures config != [] ==> ' ' !in cfg.allowOrigins && ' ' !in cfg.allowMethods && ' ' !in cfg.allowHeaders
    ensures config != [] ==> cfg.allowHeaders == Remove(config[0].allowHeaders, ' ')
    ensures config != [] && config[0].allowMethods == "" ==> cfg.allowMethods == DefaultMethods
    ensures config != [] && config[0].allowMethods != "" ==> cfg.allowMethods == Remove(config[0].allowMethods, ' ')
    ensures config != [] && config[0].allowOrigins == "" ==> cfg.allowOrigins == "*"
    ensures config != [] && config[0].allowOrigins != "" ==> cfg.allowOrigins == Remove(config[0].allowOrigins, ' ')
  {
    if config == [] then ConfigDefault
    else
      var c := config[0];
      var methods := if c.allowMethods == "" then DefaultMethods else c.allowMethods;
      var origins := if c.allowOrigins == "" then ConfigDefault.allowOrigins else c.allowOrigins;
      JoinAvoids([MethodGet, MethodPost, MethodHead, MethodPut, MethodPatch, MethodDelete], ',', ' ');
      NoSpaceRemove(DefaultMethods);
      NoSpaceRemove("*");
      CorsConfig(Remove(origins, ' '), Remove(methods, ' '), Remove(c.allowHeaders, ' '))
  }

  /** A character that is neither the separator nor in any entry is not in the join. */
  lemma {:induction false} JoinAvoids(xs: seq<string>, sep: char, c: char)
    requires c != sep && forall i :: 0 <= i < |xs| ==> c !in xs[i]
    ensures c !in Join(xs, sep)
    decreases |xs|
  {
    if |xs| > 1 {
      assert c !in xs[0];
      JoinAvoids(xs[1..], sep, c);
    } else if |xs| == 1 {
      assert c !in xs[0];
    }
  }

  /** Removing a character a string does not contain changes nothing. */
  lemma {:induction false} NoSpaceRemove(s: string)
    requires ' ' !in s
    ensures Remove(s, ' ') == s
    decreases |s|
  {
    if s != [] {
      assert s[0] in s;
      assert forall x :: x in s[1..] ==> x in s;
      NoSpaceRemove(s[1..]);
      assert s == [s[0]] + s[1..];
    }
  }

  /** The allowed-origin list: the space-free origins split on commas. */
  function AllowedOrigins(cfg: CorsConfig): (os: seq<string>)
    ensures |os| >= 1
    ensures forall i :: 0 <= i < |os| ==> ' ' !in os[i] && ',' !in os[i]
  {
    var s := Remove(cfg.allowOrigins, ' ');
    var os := Split(s, ',');
    SplitNoNewChars(s, ',', ' ');
    os
  }

  /** A character absent from a string is absent from every piece of its split. */
  lemma {:induction false} SplitNoNewChars(s: string, sep: char, c: char)
    requires c !in s
    ensures forall i :: 0 <= i < |Split(s, sep)| ==> c !in Split(s, sep)[i]
    decreases |s|
  {
    var n := FieldLength(s, sep);
    if n < |s| {
      assert forall x :: x in s[n + 1..] ==> x in s;
      SplitNoNewChars(s[n + 1..], sep, c);
      assert forall x :: x in s[..n] ==> x in s;
    }
  }

  /** One trailing `/` dropped from the Referer. */
  function StripSlash(origin: string): (o: string)
    ensures |origin| > 0 && origin[|origin| - 1] == '/' ==> o == origin[..|origin| - 1]
    ensures !(|origin| > 0 && origin[|origin| - 1] == '/') ==> o == origin
  {
    if |origin| > 0 && origin[|origin| - 1] == '/' then origin[..|origin| - 1] else origin
  }

  /** An entry that ends the origin scan: `*`, or one the origin is a subdomain match of. */
  predicate Hit(ao: string, origin: string, matchSubdomain: (string, string) -> bool) {
    ao == "*" || matchSubdomain(origin, ao)
  }

  /** Entry `i` is the first that hits. */
  predicate FirstHitAt(allowOrigins: seq<string>, origin: string, matchSubdomain: (string, string) -> bool, i: int) {
    0 <= i < |allowOrigins| && Hit(allowOrigins[i], origin, matchSubdomain) &&
    forall j :: 0 <= j < i ==> !Hit(allowOrigins[j], origin, matchSubdomain)
  }

  /** The scan of middleware/cors/cors.go:52-61: `*` for a `*` entry, the origin for a matching one, the first of these wins, "" if none. */
  function AllowOriginFor(allowOrigins: seq<string>, origin: string, matchSubdomain: (string, string) -> bool): string
    decreases |allowOrigins|
  {
    if allowOrigins == [] then ""
    else if allowOrigins[0] == "*" then "*"
    else if matchSubdomain(origin, allowOrigins[0]) then origin
    else AllowOriginFor(allowOrigins[1..], origin, matchSubdomain)
  }

  /** When no entry hits, the value is "". */
  lemma {:induction false} AllowOriginNoHit(allowOrigins: seq<string>, origin: string, matchSubdomain: (string, string) -> bool)
    requires forall i :: 0 <= i < |allowOrigins| ==> !Hit(allowOrigins[i], origin, matchSubdomain)
    ensures AllowOriginFor(allowOrigins, origin, matchSubdomain) == ""
    decreases |allowOrigins|
  {
    if allowOrigins != [] {
      assert !Hit(allowOrigins[0], origin, matchSubdomain);
      var rest := allowOrigins[1..];
      assert forall i :: 0 <= i < |rest| ==> rest[i] == allowOrigins[i + 1];
      AllowOriginNoHit(rest, origin, matchSubdomain);
    }
  }

  /** The first entry that hits decides: `*` if it is `*`, the origin otherwise. */
  lemma {:induction false} AllowOriginFirstHit(allowOrigins: seq<string>, origin: string, matchSubdomain: (string, string) -> bool, i: int)
    requires FirstHitAt(allowOrigins, origin, matchSubdomain, i)
    ensures AllowOriginFor(allowOrigins, origin, matchSubdomain) == (if allowOrigins[i] == "*" then "*" else origin)
    decreases |allowOrigins|
  {
    if i > 0 {
      assert !Hit(allowOrigins[0], origin, matchSubdomain);
      var rest := allowOrigins[1..];
      assert rest[i - 1] == allowOrigins[i];
      assert forall j :: 0 <= j < i - 1 ==> rest[j] == allowOrigins[j + 1];
      assert FirstHitAt(rest, origin, matchSubdomain, i - 1);
      AllowOriginFirstHit(rest, origin, matchSubdomain, i - 1);
    }
  }

  /** The middleware `New` returns, applied to some `next`. */
  class CorsHandler {
    const cfg: CorsConfig
    const allowOrigins: seq<string>
    const matchSubdomain: (string, string) -> bool

    /** middleware/cors/cors.go `New`: the configuration is normalized and the origin list computed once. */
    constructor New(config: seq<CorsConfig>, matcher: (string, string) -> bool)
      ensures cfg == Normalized(config)
      ensures allowOrigins == AllowedOrigins(cfg)
      ensures matchSubdomain == matcher
    {
      var c := ConfigDefault;
      if |config| > 0 {
        c := config[0];
        if c.allowMethods == "" {
          c := c.(allowMethods := ConfigDefault.allowMethods);
        }
        if c.allowOrigins == "" {
          c := c.(allowOrigins := ConfigDefault.allowOrigins);
        }
        c := c.(allowOrigins := Remove(c.allowOrigins, ' '));
        c := c.(allowMethods := Remove(c.allowMethods, ' '));
        c := c.(allowHeaders := Remove(c.allowHeaders, ' '));
      }
      cfg := c;
      allowOrigins := Split(Remove(c.allowOrigins, ' '), ',');
      matchSubdomain := matcher;
    }

    /** The origin loop of the handler. */
    method PickOrigin(origin: string) returns (allowOrigin: string)
      ensures allowOrigin == AllowOriginFor(allowOrigins, origin, matchSubdomain)
    {
      allowOrigin := "";
      var i := 0;
      while i < |allowOrigins|
        invariant 0 <= i <= |allowOrigins|
        invariant AllowOriginFor(allowOrigins, origin, matchSubdomain) == AllowOriginFor(allowOrigins[i..], origin, matchSubdomain)
      {
        assert allowOrigins[i..][1..] == allowOrigins[i + 1..];
        var ao := allowOrigins[i];
        if ao == "*" {
          return ao;
        }
        if matchSubdomain(origin, ao) {
          return origin;
        }
        i := i + 1;
      }
    }

    /**
     * One request: with a non-empty Referer the allow-origin header is set.
     * A non-OPTIONS request is passed to `next` (the result says so); an
     * OPTIONS request gets the methods and headers values and a 204, and
     * `next` is not called.
     */
    method Serve(rw: ResponseWriter, referer: string, verb: string) returns (calledNext: bool)
      modifies rw
      ensures calledNext <==> verb != MethodOptions
      ensures var afterOrigin := if referer == "" then old(rw.header)
                                 else old(rw.header)[AllowOriginHeader := [AllowOriginFor(allowOrigins, StripSlash(referer), matchSubdomain)]];
        rw.header == if calledNext then afterOrigin
                     else afterOrigin[AllowMethodsHeader := [cfg.allowMethods]][AllowHeadersHeader := [cfg.allowHeaders]]
      ensures calledNext ==> rw.sent == old(rw.sent)
      ensures !calledNext ==> rw.sent == if old(rw.sent).None? then Some(Sent(StatusNoContent, rw.header)) else old(rw.sent)
      ensures rw.body == old(rw.body)
    {
      var origin := referer;
      if |origin| > 0 {
        if origin[|origin| - 1] == '/' {
          origin := origin[..|origin| - 1];
        }
        var allowOrigin := PickOrigin(origin);
        rw.SetHeader(AllowOriginHeader, allowOrigin);
      }
      if verb != MethodOptions {
        return true;
      }
      rw.SetHeader(AllowMethodsHeader, cfg.allowMethods);
      rw.SetHeader(AllowHeadersHeader, cfg.allowHeaders);
      var _ := rw.WriteHeader(StatusNoContent);
      return false;
    }
  }
}
