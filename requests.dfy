/**
 * request.go: the `Request` wrapper around an `http.Request` and its
 * accessors for URL parameters, query and form values, request-scoped
 * locals and the client address.
 */
module Requests {
  import opened Wrappers
  import opened Strs
  import opened Http

  /**
   * The value of the first binding named `key`, `""` when none is, and a
   * panic when a binding before it is too short to index.
   */
  function FirstBinding(bindings: seq<seq<string>>, key: string): Outcome<string> {
    if bindings == [] then Ok("")
    else if |bindings[0]| < 1 then Panic
    else if bindings[0][0] == key then (if |bindings[0]| < 2 then Panic else Ok(bindings[0][1]))
    else FirstBinding(bindings[1..], key)
  }

  /**
   * `Params(key)` on a request context: the unchecked type assertion panics
   * when no binding list is attached.
   */
  function ParamLookup(ctx: map<CtxKey, Value>, key: string): Outcome<string> {
    if KeyContextParams !in ctx || !ctx[KeyContextParams].ParamsValue? then Panic
    else FirstBinding(ctx[KeyContextParams].bindings, key)
  }

  /** Binding `i` is the first one named `key`. */
  predicate FirstNamed(bindings: seq<seq<string>>, key: string, i: int)
    requires forall j :: 0 <= j < |bindings| ==> |bindings[j]| > 0
  {
    0 <= i < |bindings| && bindings[i][0] == key && forall j :: 0 <= j < i ==> bindings[j][0] != key
  }

  /**
   * Over (name, value) bindings: the value of the first binding with that
   * name, or `""` when no binding has it.
   */
  lemma {:induction false} FirstBindingSpec(bindings: seq<seq<string>>, key: string)
    requires forall i :: 0 <= i < |bindings| ==> |bindings[i]| == 2
    ensures forall i :: FirstNamed(bindings, key, i) ==> FirstBinding(bindings, key) == Ok(bindings[i][1])
    ensures (forall i :: 0 <= i < |bindings| ==> bindings[i][0] != key) ==> FirstBinding(bindings, key) == Ok("")
    decreases |bindings|
  {
    if bindings != [] {
      FirstBindingSpec(bindings[1..], key);
      forall i | FirstNamed(bindings, key, i)
        ensures FirstBinding(bindings, key) == Ok(bindings[i][1])
      {
        if i > 0 {
          assert bindings[1..][i - 1] == bindings[i];
          assert forall j :: 0 <= j < i - 1 ==> bindings[1..][j] == bindings[j + 1];
        }
      }
    }
  }

  /** The fallback rule shared by `Query` and `FormValue`. */
  function Fallback(value: string, fallback: seq<string>): (r: string)
    ensures value != "" ==> r == value
    ensures value == "" && fallback != [] ==> r == fallback[0]
    ensures value == "" && fallback == [] ==> r == ""
  {
    if value == "" then (if |fallback| > 0 then fallback[0] else "") else value
  }

  /** An empty result means the value was missing or empty and so was the fallback. */
  lemma FallbackEmpty(value: string, fallback: seq<string>)
    ensures Fallback(value, fallback) == "" <==> value == "" && (fallback == [] || fallback[0] == "")
  {
  }

  /** request.go `Request`: wraps the current request; `Locals` swaps in a new one. */
  class Request {
    var req: HttpRequest

    /** request.go `Req`. */
    constructor Req(r: HttpRequest)
      ensures req == r
    {
      req := r;
    }

    /** `Locals(key)` with no value: the stored value, nil (`None`) for an unset key. */
    function Locals(key: CtxKey): (v: Option<Value>)
      reads this
      ensures v.Some? <==> key in req.ctx
      ensures v.Some? ==> v.value == req.ctx[key]
    {
      if key in req.ctx then Some(req.ctx[key]) else None
    }

    /**
     * `Locals(key, value)`: returns nil and replaces the request by one whose
     * context also maps `key` to `value`; later reads of `key` see `value`,
     * reads of other keys are unchanged.
     */
    method SetLocals(key: CtxKey, value: Value) returns (r: Option<Value>)
      modifies this
      ensures r == None
      ensures req == old(req).(ctx := old(req).ctx[key := value])
      ensures Locals(key) == Some(value)
      ensures forall k :: k != key ==> Locals(k) == old(Locals(k))
    {
      req := req.(ctx := req.ctx[key := value]);
      r := None;
    }

    /** request.go `Params`: the binding scan, with its two panics. */
    method Params(key: string) returns (r: Outcome<string>)
      ensures r == ParamLookup(req.ctx, key)
    {
      if KeyContextParams !in req.ctx || !req.ctx[KeyContextParams].ParamsValue? {
        return Panic;
      }
      var params := req.ctx[KeyContextParams].bindings;
      var i := 0;
      while i < |params|
        invariant 0 <= i <= |params|
        invariant FirstBinding(params, key) == FirstBinding(params[i..], key)
      {
        assert params[i..][1..] == params[i + 1..];
        var param := params[i];
        if |param| < 1 {
          return Panic;
        }
        if param[0] == key {
          if |param| < 2 {
            return Panic;
          }
          return Ok(param[1]);
        }
        i := i + 1;
      }
      return Ok("");
    }

    /** request.go `Query`: the query value, or the first fallback when it is missing or empty. */
    function Query(key: string, fallback: seq<string>): (r: string)
      reads this
      ensures Get(req.query, key) != "" ==> r == req.query[key]
      ensures Get(req.query, key) == "" ==> r == (if fallback != [] then fallback[0] else "")
    {
      Fallback(Get(req.query, key), fallback)
    }

    /** request.go `FormValue`: the posted form value, with the same fallback rule. */
    function FormValue(key: string, fallback: seq<string>): (r: string)
      reads this
      ensures Get(req.postForm, key) != "" ==> r == req.postForm[key]
      ensures Get(req.postForm, key) == "" ==> r == (if fallback != [] then fallback[0] else "")
    {
      Fallback(Get(req.postForm, key), fallback)
    }

    /** request.go `IsLocalhost`: the host contains `localhost` or `127.0.0.1`. */
    function IsLocalhost(): (r: bool)
      reads this
      ensures r <==> (exists i: nat :: OccursAt(req.host, "localhost", i)) ||
                     (exists i: nat :: OccursAt(req.host, "127.0.0.1", i))
    {
      Contains(req.host, "localhost") || Contains(req.host, "127.0.0.1")
    }

    /**
     * request.go `GetIPAdress`: `X-Real-Ip` when set, else
     * `X-Forwarded-For` when set, else the remote address.
     */
    function GetIPAddress(): (r: string)
      reads this
      ensures r in {Get(req.header, "X-Real-Ip"), Get(req.header, "X-Forwarded-For"), req.remoteAddr}
      ensures Get(req.header, "X-Real-Ip") != "" ==> r == req.header["X-Real-Ip"]
      ensures Get(req.header, "X-Real-Ip") == "" && Get(req.header, "X-Forwarded-For") != "" ==>
        r == req.header["X-Forwarded-For"]
      ensures Get(req.header, "X-Real-Ip") == "" && Get(req.header, "X-Forwarded-For") == "" ==>
        r == req.remoteAddr
    {
      var ip := Get(req.header, "X-Real-Ip");
      var ip' := if ip == "" then Get(req.header, "X-Forwarded-For") else ip;
      if ip' == "" then req.remoteAddr else ip'
    }
  }
}
