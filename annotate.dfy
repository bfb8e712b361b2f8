/**
 * annotate.go: a wrapper around a router that shows every registration to
 * a list of annotators before passing it on.  Annotators and the wrapped
 * router are outside this model; what the wrapper does is recorded as a
 * trace of calls, in order.
 */
module Annotations {
  import opened Handlers
  import opened Http
  import opened Routes

  /** A call the wrapper makes: an annotator shown a route, or a registration passed to the router. */
  datatype Event = Annotated(annotator: string, route: Route) | Forwarded(verb: string, path: string, handler: Handler)

  /** The calls `annotate` makes: each annotator, in list order, shown the same route. */
  function Announcements(annotators: seq<string>, route: Route): (es: seq<Event>)
    ensures |es| == |annotators|
    ensures forall i :: 0 <= i < |es| ==> es[i] == Annotated(annotators[i], route)
  {
    seq(|annotators|, i requires 0 <= i < |annotators| => Annotated(annotators[i], route))
  }

  /** `e` shows annotator `ann` the route of a registration: its method, its path as both paths, its bare handler. */
  predicate Shows(e: Event, ann: string, verb: string, path: string, h: Handler) {
    e.Annotated? && e.annotator == ann &&
    e.route.verb == verb && e.route.rawPath == path && e.route.path == path && e.route.handler == h
  }

  /** annotate.go `Annotation`. */
  class Annotation {
    /** Which router registrations are passed to. */
    const router: string
    const annotators: seq<string>
    var trace: seq<Event>

    /** annotate.go `Annotate`: the router and annotator list are kept as given. */
    constructor Annotate(mux: string, anns: seq<string>)
      ensures router == mux && annotators == anns && trace == []
    {
      router := mux;
      annotators := anns;
      trace := [];
    }

    /** annotate.go `annotate`. */
    method Announce(verb: string, path: string, handler: Handler)
      modifies this
      ensures trace == old(trace) + Announcements(annotators, Built(path, verb, handler, []))
    {
      var i := 0;
      while i < |annotators|
        invariant 0 <= i <= |annotators|
        invariant trace == old(trace) + Announcements(annotators[..i], Built(path, verb, handler, []))
      {
        var r := BuildRoute(path, verb, handler, []);
        trace := trace + [Annotated(annotators[i], r)];
        assert Announcements(annotators[..i + 1], r) == Announcements(annotators[..i], r) + [Annotated(annotators[i], r)];
        i := i + 1;
      }
      assert annotators[..i] == annotators;
    }

    /** annotate.go `HandlerFunc`: every annotator, then the router, once. */
    method HandlerFunc(verb: string, path: string, handler: Handler)
      modifies this
      ensures trace == old(trace) + Announcements(annotators, Built(path, verb, handler, [])) + [Forwarded(verb, path, handler)]
    {
      Announce(verb, path, handler);
      trace := trace + [Forwarded(verb, path, handler)];
    }

    /** annotate.go `Get`. */
    method Get(path: string, handler: Handler)
      modifies this
      ensures trace == old(trace) + Announcements(annotators, Built(path, MethodGet, handler, [])) + [Forwarded(MethodGet, path, handler)]
    {
      HandlerFunc(MethodGet, path, handler);
    }

    /** annotate.go `Post`. */
    method Post(path: string, handler: Handler)
      modifies this
      ensures trace == old(trace) + Announcements(annotators, Built(path, MethodPost, handler, [])) + [Forwarded(MethodPost, path, handler)]
    {
      HandlerFunc(MethodPost, path, handler);
    }

    /** annotate.go `Put`. */
    method Put(path: string, handler: Handler)
      modifies this
      ensures trace == old(trace) + Announcements(annotators, Built(path, MethodPut, handler, [])) + [Forwarded(MethodPut, path, handler)]
    {
      HandlerFunc(MethodPut, path, handler);
    }

    /** annotate.go `Patch`. */
    method Patch(path: string, handler: Handler)
      modifies this
      ensures trace == old(trace) + Announcements(annotators, Built(path, MethodPatch, handler, [])) + [Forwarded(MethodPatch, path, handler)]
    {
      HandlerFunc(MethodPatch, path, handler);
    }

    /** annotate.go `Delete`. */
    method Delete(path: string, handler: Handler)
      modifies this
      ensures trace == old(trace) + Announcements(annotators, Built(path, MethodDelete, handler, [])) + [Forwarded(MethodDelete, path, handler)]
    {
      HandlerFunc(MethodDelete, path, handler);
    }
  }

  /**
   * In the calls one registration adds, the router is reached exactly once,
   * as the last call, with the registration unchanged; each annotator is
   * called once per occurrence in the list, before it; with no annotators
   * the registration is a plain forward.
   */
  lemma RegistrationCalls(annotators: seq<string>, verb: string, path: string, h: Handler)
    ensures var calls := Announcements(annotators, Built(path, verb, h, [])) + [Forwarded(verb, path, h)];
      |calls| == |annotators| + 1 &&
      calls[|annotators|] == Forwarded(verb, path, h) &&
      (forall i :: 0 <= i < |annotators| ==> Shows(calls[i], annotators[i], verb, path, h)) &&
      (annotators == [] ==> calls == [Forwarded(verb, path, h)])
  {
    var calls := Announcements(annotators, Built(path, verb, h, [])) + [Forwarded(verb, path, h)];
    assert forall i :: 0 <= i < |annotators| ==> calls[i] == Annotated(annotators[i], Built(path, verb, h, []));
  }
}
