/**
 * Middleware chains. Both the router (per-route middleware, ServeHTTP in
 * internal/router/router.go) and the application shell (global middleware,
 * App.Handler in pkg/flow/app.go) wrap a terminal handler with a list of
 * middleware by a reverse loop, so that the first-registered middleware is
 * the outermost wrapper. Handlers and middleware are opaque labels: a
 * composed handler is the nesting itself.
 */
module Chain {

  /** A handler: the terminal one, or one middleware wrapped around the next stage. */
  datatype Handler<H, M> = Base(h: H) | Wrap(m: M, next: Handler<H, M>)

  /** One step of a request's trip through a chain: entering a middleware, or running the terminal handler. */
  datatype Step<H, M> = Enter(m: M) | Run(h: H)

  /** The order in which the stages of a chain receive a request when every middleware calls its next stage. */
  function Trace<H, M>(c: Handler<H, M>): seq<Step<H, M>> {
    match c
    case Base(h) => [Run(h)]
    case Wrap(m, next) => [Enter(m)] + Trace(next)
  }

  /** mws[0](mws[1](... mws[n-1](h) ...)): the reference meaning of "first registered is outermost". */
  function Nest<H, M>(mws: seq<M>, h: H): Handler<H, M> {
    if |mws| == 0 then Base(h) else Wrap(mws[0], Nest(mws[1..], h))
  }

  function Entries<H, M>(mws: seq<M>): (r: seq<Step<H, M>>)
    ensures |r| == |mws| && forall i :: 0 <= i < |mws| ==> r[i] == Enter(mws[i])
  {
    if |mws| == 0 then [] else [Enter(mws[0])] + Entries(mws[1..])
  }

  /**
   * The reverse loop of router.go:198-201 and app.go:274-278: start from the
   * terminal handler and wrap it with the middleware from last to first.
   */
  method Compose<H, M>(mws: seq<M>, h: H) returns (c: Handler<H, M>)
    ensures c == Nest(mws, h)
  {
    c := Base(h);
    var i := |mws|;
    while i > 0
      invariant 0 <= i <= |mws|
      invariant c == Nest(mws[i..], h)
    {
      i := i - 1;
      assert mws[i..][1..] == mws[i + 1..];
      c := Wrap(mws[i], c);
    }
  }

  /** A request visits the middleware in registration order and reaches the terminal handler last. */
  lemma {:induction false} NestTrace<H, M>(mws: seq<M>, h: H)
    ensures Trace(Nest(mws, h)) == Entries(mws) + [Run(h)]
  {
    if |mws| > 0 {
      NestTrace(mws[1..], h);
    }
  }

  /** With no middleware the composed handler is the terminal handler itself. */
  lemma NestEmpty<H, M>(h: H)
    ensures Nest<H, M>([], h) == Base(h)
  {
  }
}
