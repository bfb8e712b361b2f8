/**
 * The parts of a `net/http` request the router reads or writes.
 *
 * The request context is a map from context keys to values: the router
 * stores URL parameters under `KeyContextParams`, and `Request.Locals`
 * stores values under keys of the caller's choosing.
 */
module Http {
  import opened Wrappers

  const MethodGet := "GET"
  const MethodHead := "HEAD"
  const MethodPost := "POST"
  const MethodPut := "PUT"
  const MethodPatch := "PATCH"
  const MethodDelete := "DELETE"
  const MethodOptions := "OPTIONS"

  const StatusOK := 200
  const StatusNoContent := 204
  const StatusNotFound := 404

  /** The router's two error values. */
  datatype RouteError = ErrorNotFound | ErrorMethodNotAllowed

  /** A context key: the router's `KeyContextParams`, or a key named by the caller. */
  datatype CtxKey = KeyContextParams | Key(name: string)

  /** A value stored in the request context. */
  datatype Value =
    | ParamsValue(bindings: seq<seq<string>>)   // the `[][]string` of URL parameters
    | ErrorValue(err: RouteError)
    | TextValue(text: string)

  datatype HttpRequest = HttpRequest(
    verb: string,                      // r.Method
    path: string,                      // r.URL.Path
    host: string,
    header: map<string, string>,       // first value of each header
    query: map<string, string>,        // first value of each query parameter
    postForm: map<string, string>,     // first value of each posted form field
    remoteAddr: string,
    ctx: map<CtxKey, Value>,
    hasBody: bool)

  /** `Header.Get`, `URL.Query().Get`, `PostFormValue`: an absent name reads as "". */
  function Get(m: map<string, string>, key: string): (v: string)
    ensures key !in m ==> v == ""
    ensures key in m ==> v == m[key]
  {
    if key in m then m[key] else ""
  }

  /** The status line and header a response went out with, fixed by the first `WriteHeader`. */
  datatype Sent = Sent(status: int, header: map<string, seq<string>>)

  /** The status codes `WriteHeader` accepts; any other code makes it panic. */
  predicate ValidStatus(code: int) {
    100 <= code <= 999
  }

  /**
   * `http.ResponseWriter`, as `httptest.ResponseRecorder` records it: the
   * first `WriteHeader`, or the first `Write` (which writes 200 first),
   * sends the status and the header map as it is at that moment; header
   * changes made afterwards are not sent, and later `WriteHeader` calls are
   * ignored.  A first `WriteHeader` with a code outside 100..999 panics.
   */
  class ResponseWriter {
    /** `Header()`: the header map, every value of each name in order. */
    var header: map<string, seq<string>>
    var sent: Option<Sent>
    var body: string

    constructor ()
      ensures header == map[] && sent == None && body == ""
    {
      header := map[];
      sent := None;
      body := "";
    }

    /** `Header().Set`: the name's values become just `value`. */
    method SetHeader(name: string, value: string)
      modifies this
      ensures header == old(header)[name := [value]]
      ensures sent == old(sent) && body == old(body)
    {
      header := header[name := [value]];
    }

    /** `Header().Add`: `value` is appended to the name's values. */
    method AddHeader(name: string, value: string)
      modifies this
      ensures header == old(header)[name := (if name in old(header) then old(header)[name] else []) + [value]]
      ensures sent == old(sent) && body == old(body)
    {
      header := header[name := (if name in header then header[name] else []) + [value]];
    }

    /** `Header().Del`: the name and all its values are removed. */
    method DelHeader(name: string)
      modifies this
      ensures header == old(header) - {name}
      ensures sent == old(sent) && body == old(body)
    {
      header := header - {name};
    }

    /**
     * `WriteHeader`: only the first call has an effect, and that call
     * panics, changing nothing, when the code is not a valid status.
     */
    method WriteHeader(status: int) returns (panicked: bool)
      modifies this
      ensures panicked <==> old(sent).None? && !ValidStatus(status)
      ensures sent == if old(sent).None? && !panicked then Some(Sent(status, header)) else old(sent)
      ensures header == old(header) && body == old(body)
    {
      if sent.Some? {
        return false;
      }
      if !ValidStatus(status) {
        return true;
      }
      sent := Some(Sent(status, header));
      return false;
    }

    /** `Write`: sends 200 first if nothing was sent, then appends to the body. */
    method Write(data: string)
      modifies this
      ensures sent == if old(sent).None? then Some(Sent(StatusOK, header)) else old(sent)
      ensures header == old(header) && body == old(body) + data
    {
      if sent.None? {
        sent := Some(Sent(StatusOK, header));
      }
      body := body + data;
    }
  }
}
