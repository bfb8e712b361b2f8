/**
 * middleware/cors.go: flattening CORS option lists into the four header
 * values.
 */
module Cors {
  import opened Strs

  /** middleware/cors.go `CorsOptions`. */
  datatype CorsOptions = CorsOptions(
    allowMethods: seq<string>,
    allowHeaders: seq<string>,
    allowOrigins: seq<string>,
    allowExposeHeader: seq<string>)

  /** middleware/cors.go `Cors`: the header values. */
  datatype CorsValues = CorsValues(origin: string, verb: string, header: string, exposeHeader: string)

  /** A list that is empty or starts with `*` allows everything; otherwise its entries are comma-joined. */
  function Flatten(xs: seq<string>): string {
    if |xs| == 0 || xs[0] == "*" then "*" else Join(xs, ',')
  }

  /** middleware/cors.go `EnableCors`. */
  function EnableCors(options: CorsOptions): (c: CorsValues)
    ensures c.header == Flatten(options.allowHeaders)
    ensures c.origin == Flatten(options.allowOrigins)
    ensures c.exposeHeader == Flatten(options.allowExposeHeader)
    ensures c.verb == Join(options.allowMethods, ',')
  {
    CorsValues(Flatten(options.allowOrigins), Join(options.allowMethods, ','),
               Flatten(options.allowHeaders), Flatten(options.allowExposeHeader))
  }

  /**
   * What a flattened list means: a list that is empty or starts with `*`
   * gives `*` whatever follows; any other list of comma-free entries is
   * recovered by splitting the value on commas, so a later `*` is kept as
   * an ordinary entry.
   */
  lemma FlattenMeaning(xs: seq<string>)
    ensures |xs| == 0 || xs[0] == "*" ==> Flatten(xs) == "*"
    ensures |xs| > 0 && xs[0] != "*" && (forall i :: 0 <= i < |xs| ==> ',' !in xs[i]) ==> Split(Flatten(xs), ',') == xs
  {
    if |xs| > 0 && xs[0] != "*" && (forall i :: 0 <= i < |xs| ==> ',' !in xs[i]) {
      SplitJoin(xs, ',');
    }
  }

  /** The methods value is the comma-join of the list, "" for none, and splits back into it. */
  lemma MethodsJoined(options: CorsOptions)
    ensures options.allowMethods == [] ==> EnableCors(options).verb == ""
    ensures options.allowMethods != [] && (forall i :: 0 <= i < |options.allowMethods| ==> ',' !in options.allowMethods[i]) ==>
      Split(EnableCors(options).verb, ',') == options.allowMethods
  {
    if options.allowMethods != [] && (forall i :: 0 <= i < |options.allowMethods| ==> ',' !in options.allowMethods[i]) {
      SplitJoin(options.allowMethods, ',');
    }
  }
}
