/** Package SimpleRouter: route groups over a shared http.ServeMux. A group
    keeps a base path and a stack of middlewares; registering a route wraps
    the handler in the current stack and adds it to the mux under the pattern
    "METHOD basePath+path". Handlers and middlewares are modelled as terms:
    applying a middleware to a handler builds `Wrapped`, so the shape of a
    registered handler records exactly which middlewares wrap it, in which
    order. */
module SimpleRouter {
  import opened Go

  /** A middleware, known by name. */
  datatype Middleware = Middleware(name: string)

  /** A handler: an endpoint, or a middleware applied to a handler. */
  datatype Handler = Endpoint(name: string) | Wrapped(mw: Middleware, inner: Handler)

  /** The middlewares around a handler, from the outermost inwards. */
  function Layers(h: Handler): (ms: seq<Middleware>)
    ensures h.Endpoint? <==> ms == []
  {
    match h
    case Endpoint(_) => []
    case Wrapped(m, inner) => [m] + Layers(inner)
  }

  /** The endpoint a handler ends in. */
  function Core(h: Handler): (e: Handler)
    ensures e.Endpoint?
  {
    match h
    case Endpoint(_) => h
    case Wrapped(_, inner) => Core(inner)
  }

  /** ms[0](ms[1](... ms[|ms|-1](h))): the first middleware is the outermost. */
  function Wrap(ms: seq<Middleware>, h: Handler): (r: Handler)
    ensures ms == [] ==> r == h
    ensures ms != [] ==> r.Wrapped? && r.mw == ms[0]
  {
    if ms == [] then h else Wrapped(ms[0], Wrap(ms[1..], h))
  }

  /** Wrapping adds exactly the stack's middlewares, outermost first, around
      the handler, and keeps its endpoint. */
  lemma {:induction false} WrapAddsLayers(ms: seq<Middleware>, h: Handler)
    ensures Layers(Wrap(ms, h)) == ms + Layers(h)
    ensures Core(Wrap(ms, h)) == Core(h)
    decreases |ms|
  {
    if ms != [] {
      WrapAddsLayers(ms[1..], h);
      assert ms == [ms[0]] + ms[1..];
      assert Layers(Wrap(ms, h)) == [ms[0]] + Layers(Wrap(ms[1..], h));
    }
  }

  /** The request multiplexer: patterns to handlers. */
  class Mux {
    var routes: map<string, Handler>

    constructor ()
      ensures routes == map[]
    {
      routes := map[];
    }

    method HandleFunc(pattern: string, handler: Handler)
      modifies this
      ensures routes == old(routes)[pattern := handler]
    {
      routes := routes[pattern := handler];
    }
  }

  const MethodGet := "GET"
  const MethodHead := "HEAD"
  const MethodOptions := "OPTIONS"
  const MethodPost := "POST"
  const MethodPut := "PUT"
  const MethodPatch := "PATCH"
  const MethodDelete := "DELETE"

  /** The pattern registerRoute builds: the path "/" names the group's base
      path without its trailing slash, any other path is appended to it. */
  function RoutePattern(verb: string, basePath: string, path: string): (p: string)
    requires |basePath| > 0
    ensures path != "/" ==> p == verb + " " + basePath + path
    ensures path == "/" ==> p + [basePath[|basePath| - 1]] == verb + " " + basePath
  {
    var full := if path == "/" then basePath[..|basePath| - 1] else basePath + path;
    verb + " " + full
  }

  /** A route registered in a sub-path group is the route the parent would
      register for the joined path. */
  lemma SubPathPatternsNest(verb: string, basePath: string, p: string, q: string)
    requires |basePath| > 0
    ensures q != "/" && (p != "" || q != "") ==> RoutePattern(verb, basePath + p + "/", q) == RoutePattern(verb, basePath, p + "/" + q)
    ensures RoutePattern(verb, basePath + p + "/", "/") == verb + " " + basePath + p
  {
    var child := basePath + p + "/";
    assert child[..|child| - 1] == basePath + p;
    if q != "/" && (p != "" || q != "") {
      assert p + "/" + q != "/" by {
        if p != "" {
          assert |p + "/" + q| > 1;
        } else {
          assert |p + "/" + q| > 1;
        }
      }
      calc {
        RoutePattern(verb, child, q);
        verb + " " + child + q;
        verb + " " + (basePath + (p + "/" + q));
        verb + " " + basePath + (p + "/" + q);
        RoutePattern(verb, basePath, p + "/" + q);
      }
    }
  }

  class RouteGroup {
    var mux: Mux
    var basePath: string
    var middlewares: seq<Middleware>

    /** The base path is never empty and always ends in a slash. */
    ghost predicate Valid()
      reads this
    {
      |basePath| > 0 && basePath[|basePath| - 1] == '/'
    }

    /** SimpleRouter(): a new group at "/" with a new mux and no middlewares. */
    constructor ()
      ensures fresh(mux) && mux.routes == map[]
      ensures basePath == "/" && middlewares == []
      ensures Valid()
    {
      mux := new Mux();
      basePath := "/";
      middlewares := [];
    }

    /** A group literal with the given fields. */
    constructor Group(mux: Mux, basePath: string, middlewares: seq<Middleware>)
      ensures this.mux == mux && this.basePath == basePath && this.middlewares == middlewares
    {
      this.mux := mux;
      this.basePath := basePath;
      this.middlewares := middlewares;
    }

    /** Pushes `first` and then `others`, in order, on top of the stack. */
    method PushMiddleware(first: Middleware, others: seq<Middleware>) returns (rg: RouteGroup)
      modifies this
      ensures rg == this
      ensures middlewares == old(middlewares) + [first] + others
      ensures mux == old(mux) && basePath == old(basePath)
    {
      middlewares := middlewares + [first];
      middlewares := middlewares + others;
      return this;
    }

    /** Removes the top of the stack and returns it; nil on an empty stack. */
    method PopMiddleware() returns (m: Nilable<Middleware>)
      modifies this
      ensures old(middlewares) == [] ==> m == Nil && middlewares == []
      ensures old(middlewares) != [] ==>
                m == NonNil(old(middlewares)[|old(middlewares)| - 1])
                && middlewares + [m.target] == old(middlewares)
      ensures mux == old(mux) && basePath == old(basePath)
    {
      if |middlewares| == 0 {
        return Nil;
      }
      var lastIndex := |middlewares| - 1;
      var lastMiddleware := middlewares[lastIndex];
      middlewares := middlewares[..lastIndex];
      return NonNil(lastMiddleware);
    }

    /** applyMiddlewares: wraps from the top of the stack down, so the first
        middleware pushed ends up outermost. */
    method ApplyMiddlewares(handler: Handler) returns (h: Handler)
      ensures h == Wrap(middlewares, handler)
      ensures Layers(h) == middlewares + Layers(handler)
      ensures Core(h) == Core(handler)
    {
      h := handler;
      var mwlen := |middlewares| - 1;
      for i := 0 to |middlewares|
        invariant h == Wrap(middlewares[|middlewares| - i..], handler)
      {
        h := Wrapped(middlewares[mwlen - i], h);
        assert middlewares[|middlewares| - (i + 1)..] == [middlewares[mwlen - i]] + middlewares[|middlewares| - i..];
      }
      assert middlewares[|middlewares| - |middlewares|..] == middlewares;
      WrapAddsLayers(middlewares, handler);
    }

    /** registerRoute: the handler is wrapped now, in the current stack. */
    method RegisterRoute(verb: string, path: string, handler: Handler)
      requires Valid()
      modifies mux
      ensures mux.routes == old(mux.routes)[RoutePattern(verb, basePath, path) := Wrap(middlewares, handler)]
    {
      var full := path;
      if full == "/" {
        full := basePath[..|basePath| - 1];
      } else {
        full := basePath + full;
      }
      var fullPath := verb + " " + full;
      var wrapped := ApplyMiddlewares(handler);
      mux.HandleFunc(fullPath, wrapped);
    }

    /** SubPath: a new group on the same mux, one path segment deeper, with a
        copy of the stack. */
    method SubPath(path: string) returns (rgc: RouteGroup)
      requires Valid()
      ensures fresh(rgc) && rgc.Valid()
      ensures rgc.mux == mux
      ensures rgc.basePath == basePath + path + "/"
      ensures rgc.middlewares == middlewares
    {
      rgc := new RouteGroup.Group(mux, basePath + path + "/", middlewares);
    }

    method HandleFunc(verb: string, path: string, handler: Handler)
      requires Valid()
      modifies mux
      ensures mux.routes == old(mux.routes)[RoutePattern(verb, basePath, path) := Wrap(middlewares, handler)]
    {
      RegisterRoute(verb, path, handler);
    }

    method Handle(verb: string, path: string, handler: Handler)
      requires Valid()
      modifies mux
      ensures mux.routes == old(mux.routes)[RoutePattern(verb, basePath, path) := Wrap(middlewares, handler)]
    {
      HandleFunc(verb, path, handler);
    }

    /** SubpathHandle: registered with no method, so it serves every method. */
    method SubpathHandle(path: string, handler: Handler)
      requires Valid()
      modifies mux
      ensures mux.routes == old(mux.routes)[RoutePattern("", basePath, path) := Wrap(middlewares, handler)]
    {
      RegisterRoute("", path, handler);
    }

    method GET(path: string, handler: Handler)
      requires Valid()
      modifies mux
      ensures mux.routes == old(mux.routes)[RoutePattern(MethodGet, basePath, path) := Wrap(middlewares, handler)]
    {
      Handle(MethodGet, path, handler);
    }

    method HEAD(path: string, handler: Handler)
      requires Valid()
      modifies mux
      ensures mux.routes == old(mux.routes)[RoutePattern(MethodHead, basePath, path) := Wrap(middlewares, handler)]
    {
      Handle(MethodHead, path, handler);
    }

    method OPTIONS(path: string, handler: Handler)
      requires Valid()
      modifies mux
      ensures mux.routes == old(mux.routes)[RoutePattern(MethodOptions, basePath, path) := Wrap(middlewares, handler)]
    {
      Handle(MethodOptions, path, handler);
    }

    method POST(path: string, handler: Handler)
      requires Valid()
      modifies mux
      ensures mux.routes == old(mux.routes)[RoutePattern(MethodPost, basePath, path) := Wrap(middlewares, handler)]
    {
      Handle(MethodPost, path, handler);
    }

    method PUT(path: string, handler: Handler)
      requires Valid()
      modifies mux
      ensures mux.routes == old(mux.routes)[RoutePattern(MethodPut, basePath, path) := Wrap(middlewares, handler)]
    {
      Handle(MethodPut, path, handler);
    }

    method PATCH(path: string, handler: Handler)
      requires Valid()
      modifies mux
      ensures mux.routes == old(mux.routes)[RoutePattern(MethodPatch, basePath, path) := Wrap(middlewares, handler)]
    {
      Handle(MethodPatch, path, handler);
    }

    method DELETE(path: string, handler: Handler)
      requires Valid()
      modifies mux
      ensures mux.routes == old(mux.routes)[RoutePattern(MethodDelete, basePath, path) := Wrap(middlewares, handler)]
    {
      Handle(MethodDelete, path, handler);
    }
  }

  // Serving a request through a registered handler

  /** Middlewares that act on a shared integer before calling the next
      handler, as the counters of the router's tests do; endpoints leave it. */
  function Run(h: Handler, effect: Middleware -> (int -> int), state: int): (r: int)
  {
    match h
    case Endpoint(_) => state
    case Wrapped(m, inner) => Run(inner, effect, effect(m)(state))
  }

  /** Applies the effects of a stack in order, first to last. */
  function Fold(ms: seq<Middleware>, effect: Middleware -> (int -> int), state: int): (r: int)
    ensures ms == [] ==> r == state
  {
    if ms == [] then state else Fold(ms[1..], effect, effect(ms[0])(state))
  }

  /** Serving a wrapped handler runs the middlewares from the outermost in,
      which is the stack from the first pushed to the last. */
  lemma {:induction false} RunFollowsStack(ms: seq<Middleware>, h: Handler, effect: Middleware -> (int -> int), state: int)
    requires h.Endpoint?
    ensures Run(Wrap(ms, h), effect, state) == Fold(ms, effect, state)
    decreases |ms|
  {
    if ms != [] {
      RunFollowsStack(ms[1..], h, effect, effect(ms[0])(state));
    }
  }

  const Mw1 := Middleware("mw1")
  const Mw2 := Middleware("mw2")

  /** mw1 adds one to the counter and mw2 doubles it. */
  function CounterEffect(m: Middleware): int -> int
  {
    if m == Mw1 then (x: int) => x + 1 else (x: int) => x * 2
  }

  /** What the three stacks of the middleware test do to a zero counter. */
  lemma CounterFolds()
    ensures Fold([Mw1, Mw2], CounterEffect, 0) == 2
    ensures Fold([Mw2, Mw1], CounterEffect, 0) == 1
    ensures Fold([Mw1, Mw2, Mw1, Mw2], CounterEffect, 0) == 6
  {
    assert [Mw1, Mw2][1..] == [Mw2];
    assert [Mw2, Mw1][1..] == [Mw1];
    assert [Mw1, Mw2, Mw1, Mw2][1..] == [Mw2, Mw1, Mw2];
    assert [Mw2, Mw1, Mw2][1..] == [Mw1, Mw2];
    assert Fold([Mw2], CounterEffect, 3) == 6;
    assert Fold([Mw1, Mw2], CounterEffect, 2) == 6;
    assert Fold([Mw2, Mw1, Mw2], CounterEffect, 1) == 6;
  }

  /** Registers a GET route on a root group and serves a request through it. */
  method ServeNewRoute(rg: RouteGroup, name: string) returns (counter: int)
    requires rg.Valid() && rg.basePath == "/" && name != "/"
    modifies rg.mux
    ensures rg.mux.routes == old(rg.mux.routes)["GET /" + name := Wrap(rg.middlewares, Endpoint(name))]
    ensures counter == Fold(rg.middlewares, CounterEffect, 0)
  {
    rg.GET(name, Endpoint(name));
    assert MethodGet + " " + "/" + name == "GET /" + name;
    RunFollowsStack(rg.middlewares, Endpoint(name), CounterEffect, 0);
    counter := Run(rg.mux.routes["GET /" + name], CounterEffect, 0);
  }

  /** The middleware test: with mw1 then mw2 pushed a request counts 2, with
      mw2 then mw1 it counts 1, and with mw1, mw2, mw1, mw2 it counts 6. A
      route keeps the stack it was registered with. */
  method MiddlewareOrderScenario() returns (c1: int, c2: int, c3: int, c1Later: int)
    ensures c1 == 2 && c2 == 1 && c3 == 6
    ensures c1Later == c1
  {
    CounterFolds();
    var rg := new RouteGroup();
    var _ := rg.PushMiddleware(Mw1, []);
    var _ := rg.PushMiddleware(Mw2, []);
    assert rg.middlewares == [Mw1, Mw2];
    c1 := ServeNewRoute(rg, "test");
    assert "GET /" + "test" == "GET /test";
    ghost var first := rg.mux.routes["GET /test"];

    var _ := rg.PopMiddleware();
    var _ := rg.PopMiddleware();
    var _ := rg.PushMiddleware(Mw2, [Mw1]);
    assert rg.middlewares == [Mw2, Mw1];
    c2 := ServeNewRoute(rg, "test2");
    assert "GET /" + "test2" != "GET /test";

    var _ := rg.PopMiddleware();
    var _ := rg.PopMiddleware();
    var _ := rg.PushMiddleware(Mw1, [Mw2, Mw1, Mw2]);
    assert rg.middlewares == [Mw1, Mw2, Mw1, Mw2];
    c3 := ServeNewRoute(rg, "test3");
    assert "GET /" + "test3" != "GET /test";

    assert rg.mux.routes["GET /test"] == first;
    RunFollowsStack([Mw1, Mw2], Endpoint("test"), CounterEffect, 0);
    c1Later := Run(rg.mux.routes["GET /test"], CounterEffect, 0);
  }

  /** A sub-path group shares the mux but not the stack: pushing on either
      group afterwards leaves the other's stack as it was, while routes
      registered through the child land in the parent's mux. */
  method SubPathScenario(rg: RouteGroup, p: string, m: Middleware, h: Handler) returns (child: RouteGroup)
    requires rg.Valid()
    modifies rg, rg.mux
    ensures child.mux == rg.mux && child.Valid()
    ensures rg.middlewares == old(rg.middlewares) + [m]
    ensures child.middlewares == old(rg.middlewares) + [m, m]
    ensures rg.mux.routes == old(rg.mux.routes)[MethodGet + " " + old(rg.basePath) + p + "/x" := Wrap(child.middlewares, h)]
  {
    child := rg.SubPath(p);
    var _ := child.PushMiddleware(m, [m]);
    var _ := rg.PushMiddleware(m, []);
    ghost var stack := child.middlewares;
    child.GET("x", h);
    calc {
      RoutePattern(MethodGet, child.basePath, "x");
      MethodGet + " " + (old(rg.basePath) + p + "/") + "x";
      MethodGet + " " + old(rg.basePath) + p + "/x";
    }
    assert child.middlewares == stack;
  }
}
