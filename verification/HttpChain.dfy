/** httpx/middleware.go and httpx/http_router.go: how middlewares are composed, and which of them a
    registered handler runs behind. */
module HttpChain {
  import opened HttpModel

  /** The middlewares around a handler, outermost first. */
  function Layers(h: Handler): seq<Middleware> {
    if h.Wrap? then [h.mw] + Layers(h.next) else []
  }

  function Core(h: Handler): Handler {
    if h.Wrap? then Core(h.next) else h
  }

  /** `chain(h, mws...)`: the first middleware is outermost. */
  function Chain(h: Handler, mws: seq<Middleware>): Handler {
    if mws == [] then h else Wrap(mws[0], Chain(h, mws[1..]))
  }

  /** The loop wraps from the last middleware to the first. */
  method ChainBackward(h: Handler, mws: array<Middleware>) returns (c: Handler)
    ensures c == Chain(h, mws[..])
  {
    c := h;
    var i := mws.Length;
    while i > 0
      invariant 0 <= i <= mws.Length
      invariant c == Chain(h, mws[i..])
    {
      i := i - 1;
      c := Wrap(mws[i], c);
      assert mws[i..][1..] == mws[i + 1..];
    }
    assert mws[0..] == mws[..];
  }

  lemma {:induction false} ChainLayers(h: Handler, mws: seq<Middleware>)
    ensures Layers(Chain(h, mws)) == mws + Layers(h) && Core(Chain(h, mws)) == Core(h)
  {
    if mws != [] {
      ChainLayers(h, mws[1..]);
      assert mws == [mws[0]] + mws[1..];
    }
  }

  /** A handler is its core behind its layers, so a chain is known by them. */
  lemma {:induction false} LayersDetermine(h: Handler)
    ensures h == Chain(Core(h), Layers(h))
  {
    if h.Wrap? {
      LayersDetermine(h.next);
      assert Layers(h)[1..] == Layers(h.next);
    }
  }

  lemma {:induction false} ChainAppend(h: Handler, a: seq<Middleware>, b: seq<Middleware>)
    ensures Chain(h, a + b) == Chain(Chain(h, b), a)
  {
    if a == [] {
      assert a + b == b;
    } else {
      ChainAppend(h, a[1..], b);
      assert (a + b)[0] == a[0] && (a + b)[1..] == a[1..] + b;
    }
  }

  // The router

  function Flatten(line: seq<seq<Middleware>>): seq<Middleware> {
    if line == [] then [] else Flatten(line[..|line| - 1]) + line[|line| - 1]
  }

  /** A registered handler, and the route middlewares of the router it was registered on and of that
      router's ancestors, root first. */
  datatype Origin = Origin(core: Handler, line: seq<seq<Middleware>>)

  class Mux {
    var routes: map<string, Handler>
    ghost var origins: map<string, Origin>

    constructor ()
      ensures routes == map[] && origins == map[]
    {
      routes := map[];
      origins := map[];
    }

    /** Every handler runs behind the route middlewares of its line, and nothing else. */
    ghost predicate Valid()
      reads this
    {
      && routes.Keys == origins.Keys
      && forall p | p in routes :: routes[p] == Chain(origins[p].core, Flatten(origins[p].line))
    }
  }

  class Router {
    const mux: Mux
    const globalMiddlewares: array<Middleware>
    const routeMiddlewares: array<Middleware>
    const isRoot: bool
    /** The route middlewares given at each step from the root down to here. */
    ghost const line: seq<seq<Middleware>>

    ghost predicate Valid()
      reads this, mux, routeMiddlewares
    {
      mux.Valid() && routeMiddlewares[..] == Flatten(line) && (isRoot ==> line == [])
    }

    constructor Root(globals: array<Middleware>)
      ensures Valid() && isRoot && fresh(mux) && globalMiddlewares == globals && mux.routes == map[]
      ensures fresh(routeMiddlewares) && line == []
    {
      mux := new Mux();
      globalMiddlewares := globals;
      routeMiddlewares := new Middleware[0];
      isRoot := true;
      line := [];
    }

    constructor Derived(parent: Router, route: array<Middleware>, ghost added: seq<Middleware>)
      requires parent.Valid() && route[..] == Flatten(parent.line + [added])
      ensures Valid() && !isRoot && mux == parent.mux && globalMiddlewares == parent.globalMiddlewares
      ensures routeMiddlewares == route && line == parent.line + [added]
    {
      mux := parent.mux;
      globalMiddlewares := parent.globalMiddlewares;
      routeMiddlewares := route;
      isRoot := false;
      line := parent.line + [added];
    }

    /** The child gets a list of its own: the parent's middlewares and then the given ones. Nothing
        that existed before is changed. */
    method Child(mws: array<Middleware>) returns (c: Router)
      requires Valid()
      ensures c.Valid() && fresh(c) && fresh(c.routeMiddlewares) && !c.isRoot
      ensures c.mux == mux && c.globalMiddlewares == globalMiddlewares
      ensures c.line == line + [mws[..]]
    {
      var n := routeMiddlewares.Length;
      var combined := new Middleware[n + mws.Length](_ => Recovery);
      for i := 0 to n
        invariant combined[..i] == routeMiddlewares[..i]
      {
        combined[i] := routeMiddlewares[i];
      }
      for i := 0 to mws.Length
        invariant combined[..n] == routeMiddlewares[..]
        invariant combined[n..n + i] == mws[..i]
      {
        combined[n + i] := mws[i];
      }
      assert (line + [mws[..]])[..|line|] == line;
      assert combined[..] == combined[..n] + combined[n..n + mws.Length];
      c := new Router.Derived(this, combined, mws[..]);
    }

    /** Registers the handler behind the router's list. The mux panics on a pattern it has. */
    method HandleFunc(pattern: string, handler: Handler) returns (panicked: bool)
      requires Valid()
      modifies mux
      ensures Valid() && panicked == (pattern in old(mux.routes))
      ensures panicked ==> mux.routes == old(mux.routes) && mux.origins == old(mux.origins)
      ensures !panicked ==>
                && mux.routes.Keys == old(mux.routes).Keys + {pattern}
                && mux.routes == old(mux.routes)[pattern := mux.routes[pattern]]
                && mux.origins == old(mux.origins)[pattern := Origin(handler, line)]
    {
      var wrapped := ChainBackward(handler, routeMiddlewares);
      panicked := pattern in mux.routes;
      if !panicked {
        mux.routes := mux.routes[pattern := wrapped];
        mux.origins := mux.origins[pattern := Origin(handler, line)];
      }
    }

    /** What the handler of the root runs for a request that the mux dispatches to `pattern`: the
        globals, then the route middlewares of every router from the root down to the one the handler
        was registered on, then the handler. On a child there is only a panic. */
    method Handle(pattern: string) returns (panicked: bool, h: Handler)
      requires Valid() && pattern in mux.routes
      ensures panicked == !isRoot
      ensures !panicked ==>
                && Layers(h) ==
                     globalMiddlewares[..] + Flatten(mux.origins[pattern].line) + Layers(mux.origins[pattern].core)
                && Core(h) == Core(mux.origins[pattern].core)
    {
      panicked := !isRoot;
      h := mux.routes[pattern];
      if panicked { return; }
      ChainLayers(mux.origins[pattern].core, Flatten(mux.origins[pattern].line));
      ChainLayers(h, globalMiddlewares[..]);
      h := ChainBackward(h, globalMiddlewares);
    }
  }
}
