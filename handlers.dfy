/**
 * Handlers, middlewares and the middleware fold of common.go.
 *
 * A handler is opaque: it is named by an identifier, or it is what a
 * middleware produced from an inner handler.  A middleware is named by a
 * label, and applying it to a handler `h` yields `Wrap(label, h)`.  A slot in
 * a middleware list may be Go's `nil` middleware.
 */
module Handlers {

  datatype Handler =
    | NilHandler                          // Go's nil http.HandlerFunc
    | Func(id: string)                    // a handler written by the user or the library
    | Wrap(mw: string, inner: Handler)    // middleware `mw` applied to `inner`

  datatype MiddlewareFunc = NilMiddleware | Middleware(name: string)

  /** The composed handler `m0(m1(...mn(h)...))`, nil slots skipped. */
  function Compose(mws: seq<MiddlewareFunc>, h: Handler): Handler
    decreases |mws|
  {
    if mws == [] then h
    else if mws[0].NilMiddleware? then Compose(mws[1..], h)
    else Wrap(mws[0].name, Compose(mws[1..], h))
  }

  /** The list with its nil slots removed. */
  function NonNil(mws: seq<MiddlewareFunc>): (r: seq<MiddlewareFunc>)
    ensures forall i :: 0 <= i < |r| ==> r[i].Middleware?
    ensures |r| <= |mws|
  {
    if mws == [] then []
    else if mws[0].NilMiddleware? then NonNil(mws[1..])
    else [mws[0]] + NonNil(mws[1..])
  }

  /** Labels of the non-nil slots, in list order. */
  function Labels(mws: seq<MiddlewareFunc>): seq<string> {
    if mws == [] then []
    else if mws[0].NilMiddleware? then Labels(mws[1..])
    else [mws[0].name] + Labels(mws[1..])
  }

  /** The labels of a concatenation are the concatenated labels. */
  lemma {:induction false} LabelsAppend(a: seq<MiddlewareFunc>, b: seq<MiddlewareFunc>)
    ensures Labels(a + b) == Labels(a) + Labels(b)
    decreases |a|
  {
    if a != [] {
      assert (a + b)[0] == a[0] && (a + b)[1..] == a[1..] + b;
      LabelsAppend(a[1..], b);
    } else {
      assert a + b == b;
    }
  }

  /** The middlewares a handler has been wrapped in, outermost first. */
  function Layers(h: Handler): seq<string> {
    if h.Wrap? then [h.mw] + Layers(h.inner) else []
  }

  /** The handler at the centre of all wrapping. */
  function Core(h: Handler): (c: Handler)
    ensures !c.Wrap?
  {
    if h.Wrap? then Core(h.inner) else h
  }

  /**
   * common.go `WithMiddlewares(mws...)(next)`: walks the list from its last
   * slot to its first, applying each non-nil middleware to the handler built
   * so far.
   */
  method WithMiddlewares(mws: seq<MiddlewareFunc>, next: Handler) returns (h: Handler)
    ensures h == Compose(mws, next)
    ensures mws == [] ==> h == next
  {
    h := next;
    if |mws| <= 0 {
      return;
    }
    var i := |mws|;
    while i > 0
      invariant 0 <= i <= |mws|
      invariant h == Compose(mws[i..], next)
    {
      i := i - 1;
      assert mws[i..][1..] == mws[i + 1..];
      if mws[i].NilMiddleware? {
        continue;
      }
      h := Wrap(mws[i].name, h);
    }
    assert mws[0..] == mws;
  }

  /** Every non-nil middleware is applied exactly once, in list order, slot 0 outermost. */
  lemma {:induction false} ComposeLayers(mws: seq<MiddlewareFunc>, h: Handler)
    ensures Layers(Compose(mws, h)) == Labels(mws) + Layers(h)
    ensures Core(Compose(mws, h)) == Core(h)
    decreases |mws|
  {
    if mws != [] {
      ComposeLayers(mws[1..], h);
    }
  }

  /** Nil slots are skipped: composing the list equals composing its non-nil slots. */
  lemma {:induction false} ComposeSkipsNil(mws: seq<MiddlewareFunc>, h: Handler)
    ensures Compose(mws, h) == Compose(NonNil(mws), h)
    decreases |mws|
  {
    if mws != [] {
      ComposeSkipsNil(mws[1..], h);
      if mws[0].Middleware? {
        assert ([mws[0]] + NonNil(mws[1..]))[1..] == NonNil(mws[1..]);
      }
    }
  }

  /** Composition distributes over concatenation of lists. */
  lemma {:induction false} ComposeAppend(a: seq<MiddlewareFunc>, b: seq<MiddlewareFunc>, h: Handler)
    ensures Compose(a + b, h) == Compose(a, Compose(b, h))
    decreases |a|
  {
    if a == [] {
      assert a + b == b;
    } else {
      assert (a + b)[1..] == a[1..] + b;
      ComposeAppend(a[1..], b, h);
    }
  }

  /** A list of nil slots applied to a nil handler yields the nil handler. */
  lemma {:induction false} ComposeAllNil(mws: seq<MiddlewareFunc>)
    requires forall i :: 0 <= i < |mws| ==> mws[i].NilMiddleware?
    ensures Compose(mws, NilHandler) == NilHandler
    decreases |mws|
  {
    if mws != [] {
      ComposeAllNil(mws[1..]);
    }
  }

  /** Reversal of a middleware list, as `slices.Reverse` leaves it. */
  function Reverse(mws: seq<MiddlewareFunc>): (r: seq<MiddlewareFunc>)
    ensures |r| == |mws|
    ensures forall i :: 0 <= i < |mws| ==> r[i] == mws[|mws| - 1 - i]
  {
    if mws == [] then [] else Reverse(mws[1..]) + [mws[0]]
  }

  /** `slices.Reverse`: reverses a middleware slice in place. */
  method ReverseInPlace(a: array<MiddlewareFunc>)
    modifies a
    ensures a[..] == Reverse(old(a[..]))
  {
    var i, j := 0, a.Length - 1;
    while i < j
      invariant 0 <= i <= j + 1 <= a.Length
      invariant i + j == a.Length - 1
      invariant forall k :: 0 <= k < i ==> a[k] == old(a[a.Length - 1 - k]) && a[a.Length - 1 - k] == old(a[k])
      invariant forall k :: i <= k <= j ==> a[k] == old(a[k])
    {
      a[i], a[j] := a[j], a[i];
      i, j := i + 1, j - 1;
    }
    assert forall k :: 0 <= k < a.Length ==> a[k] == old(a[a.Length - 1 - k]);
  }
}
