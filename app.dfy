/**
 * The application shell of pkg/flow/app.go: construction from defaults and
 * functional options, the global middleware stack, the router, and the
 * start/shutdown state flag (0 idle, 1 running, 2 stopped).
 *
 * Middleware, routers and loggers are opaque labels; the HTTP server itself
 * is represented by the configuration it is started with, and the outcome
 * of its graceful shutdown is a parameter.
 */
module FlowApp {
  import opened Wrappers
  import opened Chain
  import FlowView

  /** time.Second, in nanoseconds (time.Duration). */
  const Second: int := 1_000_000_000

  type Logger = nat

  /** The standard logger New installs ("[flow] " on stdout). */
  const StdLogger: Logger := 0

  /** The built-in middleware, and any other middleware by label. */
  datatype Middleware =
    | Recovery(logger: Logger)
    | RequestID(header: string)
    | Logging(logger: Logger)
    | Timeout(d: int)
    | Metrics
    | UserMiddleware(id: nat)

  /** The router: a fresh http.ServeMux, or a handler the user supplied. */
  datatype RouterRef = ServeMux | UserRouter(id: nat)

  type AppHandler = Handler<RouterRef, Middleware>

  /** The library's functional options. */
  datatype AppOption =
    | WithLogger(l: Logger)
    | WithAddr(addr: string)
    | WithShutdownTimeout(d: int)
    | WithViewsDefaultLayout(layout: string)
    | WithViewsDevMode(dev: bool)
    | WithViewsFuncMap(m: Option<FlowView.FuncMap>)
    | WithLogging
    | WithRequestID(header: string)
    | WithTimeout(d: int)
    | WithMetrics
    | WithDefaultMiddleware

  /** The configuration fields of an App, with the state of its view manager. */
  datatype AppConfig = AppConfig(
    name: string,
    addr: string,
    readTimeout: int,
    writeTimeout: int,
    idleTimeout: int,
    shutdownTimeout: int,
    logger: Logger,
    router: RouterRef,
    views: FlowView.ViewState,
    middleware: seq<Middleware>)

  /** The defaults of New, before any option. */
  function Defaults(name: string): AppConfig {
    AppConfig(name, ":3000", 5 * Second, 10 * Second, 120 * Second, 10 * Second,
              StdLogger, ServeMux, FlowView.NewState("views"), [])
  }

  /** App.Use: append to the middleware list. */
  function Using(c: AppConfig, m: Middleware): AppConfig {
    c.(middleware := c.middleware + [m])
  }

  function Apply(c: AppConfig, o: AppOption): AppConfig {
    match o
    case WithLogger(l) => c.(logger := l)
    case WithAddr(a) => c.(addr := a)
    case WithShutdownTimeout(d) => c.(shutdownTimeout := d)
    case WithViewsDefaultLayout(layout) => c.(views := FlowView.WithLayout(c.views, layout))
    case WithViewsDevMode(dev) => c.(views := FlowView.WithDevMode(c.views, dev))
    case WithViewsFuncMap(m) => c.(views := FlowView.WithFuncMap(c.views, m))
    case WithLogging => Using(c, Logging(c.logger))
    case WithRequestID(h) => Using(c, RequestID(h))
    case WithTimeout(d) => Using(c, Timeout(d))
    case WithMetrics => Using(c, Metrics)
    case WithDefaultMiddleware =>
      Using(Using(Using(Using(c, Recovery(c.logger)), RequestID("")), Logging(c.logger)), Metrics)
  }

  /** The options applied one after the other, in the order given. */
  function Configure(c: AppConfig, opts: seq<AppOption>): AppConfig {
    if |opts| == 0 then c else Apply(Configure(c, opts[..|opts| - 1]), opts[|opts| - 1])
  }

  /** SetRouter: a nil handler means a fresh ServeMux. */
  function RouterOrDefault(h: Option<nat>): RouterRef {
    if h.None? then ServeMux else UserRouter(h.value)
  }

  // ---------------------------------------------------------------------------
  // Configuration properties

  /** Configuring with a + b is configuring with a, then with b. */
  lemma {:induction false} ConfigureSplit(c: AppConfig, a: seq<AppOption>, b: seq<AppOption>)
    ensures Configure(c, a + b) == Configure(Configure(c, a), b)
    decreases |b|
  {
    if |b| == 0 {
      assert a + b == a;
    } else {
      assert (a + b)[..|a + b| - 1] == a + b[..|b| - 1];
      ConfigureSplit(c, a, b[..|b| - 1]);
    }
  }

  /** The listen address of the last WithAddr option, or the given default when there is none. */
  function LastAddr(dflt: string, opts: seq<AppOption>): string {
    if |opts| == 0 then dflt
    else if opts[|opts| - 1].WithAddr? then opts[|opts| - 1].addr
    else LastAddr(dflt, opts[..|opts| - 1])
  }

  /** The last WithAddr wins; with none, New listens on ":3000". */
  lemma {:induction false} AddrLastWins(c: AppConfig, opts: seq<AppOption>)
    ensures Configure(c, opts).addr == LastAddr(c.addr, opts)
    decreases |opts|
  {
    if |opts| > 0 {
      AddrLastWins(c, opts[..|opts| - 1]);
    }
  }

  /** Options leave the timeouts New gives, except the shutdown timeout that WithShutdownTimeout sets. */
  lemma {:induction false} TimeoutsKept(c: AppConfig, opts: seq<AppOption>)
    ensures var r := Configure(c, opts);
      r.name == c.name && r.readTimeout == c.readTimeout && r.writeTimeout == c.writeTimeout &&
      r.idleTimeout == c.idleTimeout && r.router == c.router
    ensures (forall i :: 0 <= i < |opts| ==> !opts[i].WithShutdownTimeout?) ==>
      Configure(c, opts).shutdownTimeout == c.shutdownTimeout
    decreases |opts|
  {
    if |opts| > 0 {
      TimeoutsKept(c, opts[..|opts| - 1]);
    }
  }

  /** WithDefaultMiddleware appends Recovery, RequestID with the default header, Logging and Metrics, in that order. */
  lemma DefaultMiddlewareOrder(c: AppConfig)
    ensures Apply(c, WithDefaultMiddleware) ==
      c.(middleware := c.middleware + [Recovery(c.logger), RequestID(""), Logging(c.logger), Metrics])
  {
    assert c.middleware + [Recovery(c.logger)] + [RequestID("")] + [Logging(c.logger)] + [Metrics] ==
      c.middleware + [Recovery(c.logger), RequestID(""), Logging(c.logger), Metrics];
  }

  /**
   * An App built with only WithDefaultMiddleware hands every request to
   * Recovery, RequestID, Logging and Metrics in that order, and then to the
   * default ServeMux.
   */
  lemma DefaultStackTrace(name: string)
    ensures var c := Configure(Defaults(name), [WithDefaultMiddleware]);
      Trace(Nest(c.middleware, c.router)) ==
        [Enter(Recovery(StdLogger)), Enter(RequestID("")), Enter(Logging(StdLogger)), Enter(Metrics), Run(ServeMux)]
  {
    var c := Configure(Defaults(name), [WithDefaultMiddleware]);
    assert [WithDefaultMiddleware][..0] == [];
    DefaultMiddlewareOrder(Defaults(name));
    NestTrace(c.middleware, c.router);
  }

  /** A middleware registered with Use runs after every earlier one and right before the router. */
  lemma UseIsInnermost(mws: seq<Middleware>, m: Middleware, r: RouterRef)
    ensures Trace(Nest(mws + [m], r)) == Entries<RouterRef, Middleware>(mws) + [Enter(m), Run(r)]
  {
    NestTrace(mws + [m], r);
    NestTrace(mws, r);
    var e := Entries<RouterRef, Middleware>(mws + [m]);
    assert e == Entries<RouterRef, Middleware>(mws) + [Enter(m)];
  }

  // ---------------------------------------------------------------------------
  // The lifecycle flag

  /** The state field: 0 idle, 1 running, 2 shutting down or stopped. */
  datatype RunState = Idle | Running | Stopped

  datatype AppError = AlreadyRunning | ShutdownFailed(message: string)

  /** The state flag and whether a server has been created. */
  datatype Life = Life(state: RunState, hasServer: bool)

  /** Start: compare-and-swap 0 -> 1; any other state is ErrAppAlreadyRunning. */
  function StartStep(l: Life): (Life, Outcome<AppError>) {
    if l.state == Idle then (Life(Running, true), Pass) else (l, Fail(AlreadyRunning))
  }

  /** The serving goroutine returning: the flag becomes 2. Only a started App has that goroutine. */
  function ExitStep(l: Life): Life {
    if l.hasServer then l.(state := Stopped) else l
  }

  /**
   * Shutdown: nothing to do without a server; otherwise compare-and-swap
   * 1 -> 2, and when that fails return nil if the flag is already 2; then
   * the server's graceful shutdown, whose error is wrapped.
   */
  function ShutdownStep(l: Life, serverErr: Option<string>): (Life, Outcome<AppError>) {
    if !l.hasServer then (l, Pass)
    else if l.state == Stopped then (l, Pass)
    else
      var after := if l.state == Running then l.(state := Stopped) else l;
      (after, if serverErr.Some? then Fail(ShutdownFailed(serverErr.value)) else Pass)
  }

  datatype Event = StartCall | ServerExited | ShutdownCall(serverErr: Option<string>)

  function Step(l: Life, e: Event): (Life, Outcome<AppError>) {
    match e
    case StartCall => StartStep(l)
    case ServerExited => (ExitStep(l), Pass)
    case ShutdownCall(err) => ShutdownStep(l, err)
  }

  /** The states reachable from a new App: no server exactly while idle. */
  predicate Valid(l: Life) {
    (l.state == Idle) == !l.hasServer
  }

  /** Every step keeps the flag and the server consistent. */
  lemma StepValid(l: Life, e: Event)
    requires Valid(l)
    ensures Valid(Step(l, e).0)
  {
  }

  /** The states after each event, and the outcome of each event. */
  function Replay(l: Life, es: seq<Event>): seq<(Life, Outcome<AppError>)>
    decreases |es|
  {
    if |es| == 0 then []
    else
      var (next, o) := Step(l, es[0]);
      [(next, o)] + Replay(next, es[1..])
  }

  function StartsPassed(l: Life, es: seq<Event>): nat
    decreases |es|
  {
    if |es| == 0 then 0
    else
      var (next, o) := Step(l, es[0]);
      (if es[0].StartCall? && o.Pass? then 1 else 0) + StartsPassed(next, es[1..])
  }

  /** Once stopped, an App stays stopped, and every Start on it is ErrAppAlreadyRunning. */
  lemma {:induction false} StoppedIsFinal(l: Life, es: seq<Event>)
    requires l.state == Stopped
    ensures var r := Replay(l, es);
      |r| == |es| &&
      forall i :: 0 <= i < |es| ==> r[i].0.state == Stopped && (es[i].StartCall? ==> r[i].1 == Fail(AlreadyRunning))
    decreases |es|
  {
    if |es| > 0 {
      StoppedIsFinal(Step(l, es[0]).0, es[1..]);
    }
  }

  /** A started App never becomes idle again, so no further Start succeeds. */
  lemma {:induction false} NoStartAfterIdle(l: Life, es: seq<Event>)
    requires l.state != Idle
    ensures StartsPassed(l, es) == 0
    decreases |es|
  {
    if |es| > 0 {
      NoStartAfterIdle(Step(l, es[0]).0, es[1..]);
    }
  }

  /** Whatever happens, Start succeeds at most once in an App's life. */
  lemma {:induction false} StartsAtMostOnce(l: Life, es: seq<Event>)
    ensures StartsPassed(l, es) <= 1
    decreases |es|
  {
    if |es| > 0 {
      var next := Step(l, es[0]).0;
      if l.state == Idle && es[0].StartCall? {
        NoStartAfterIdle(next, es[1..]);
      } else {
        StartsAtMostOnce(next, es[1..]);
      }
    }
  }

  /** Shutdown is safe to call again: the second call returns nil and changes nothing. */
  lemma ShutdownTwice(l: Life, e1: Option<string>, e2: Option<string>)
    requires Valid(l)
    ensures var after := ShutdownStep(l, e1).0;
      ShutdownStep(after, e2) == (after, Pass)
  {
  }

  /** Run's graceful-shutdown budget: the configured timeout, or ten seconds when it is not positive. */
  function EffectiveShutdownTimeout(d: int): (r: int)
    ensures r > 0
    ensures d > 0 ==> r == d
    ensures d <= 0 ==> r == 10 * Second
  {
    if d <= 0 then 10 * Second else d
  }

  // ---------------------------------------------------------------------------
  // The App object

  /** The http.Server Start creates. */
  datatype Server = Server(addr: string, handler: AppHandler, readTimeout: int, writeTimeout: int, idleTimeout: int)

  class App {
    var name: string
    var addr: string
    var readTimeout: int
    var writeTimeout: int
    var idleTimeout: int
    var shutdownTimeout: int
    var logger: Logger
    var router: RouterRef
    var views: FlowView.ViewManager
    var middleware: seq<Middleware>
    var server: Option<Server>
    var state: RunState

    function Config(): AppConfig
      reads this, views
    {
      AppConfig(name, addr, readTimeout, writeTimeout, idleTimeout, shutdownTimeout,
                logger, router, views.State(), middleware)
    }

    function LifeOf(): Life
      reads this
    {
      Life(state, server.Some?)
    }

    /** New (app.go:231-254): the defaults, then each option in order; nothing is started. */
    constructor (appName: string, opts: seq<AppOption>)
      ensures Config() == Configure(Defaults(appName), opts)
      ensures state == Idle && server == None && fresh(views)
    {
      name := appName;
      addr := ":3000";
      readTimeout := 5 * Second;
      writeTimeout := 10 * Second;
      idleTimeout := 120 * Second;
      shutdownTimeout := 10 * Second;
      logger := StdLogger;
      router := ServeMux;
      views := new FlowView.ViewManager("views");
      middleware := [];
      server := None;
      state := Idle;
      new;
      ghost var v := views;
      var i := 0;
      while i < |opts|
        invariant 0 <= i <= |opts|
        invariant views == v && fresh(v)
        invariant Config() == Configure(Defaults(appName), opts[..i])
        invariant state == Idle && server == None
      {
        assert opts[..i + 1][..i] == opts[..i];
        ApplyOption(opts[i]);
        i := i + 1;
      }
      assert opts[..|opts|] == opts;
    }

    /** Use (app.go:259-261). */
    method Use(m: Middleware)
      modifies this
      ensures middleware == old(middleware) + [m]
      ensures Config() == Using(old(Config()), m)
      ensures views == old(views) && state == old(state) && server == old(server)
    {
      middleware := middleware + [m];
    }

    /** One option applied to the App (app.go:113-228). */
    method ApplyOption(o: AppOption)
      modifies this, views
      ensures Config() == Apply(old(Config()), o)
      ensures views == old(views) && state == old(state) && server == old(server)
    {
      match o
      case WithLogger(l) => logger := l;
      case WithAddr(a) => addr := a;
      case WithShutdownTimeout(d) => shutdownTimeout := d;
      case WithViewsDefaultLayout(layout) => views.SetDefaultLayout(layout);
      case WithViewsDevMode(dev) => views.SetDevMode(dev);
      case WithViewsFuncMap(m) => views.SetFuncMap(m);
      case WithLogging => Use(Logging(logger));
      case WithRequestID(h) => Use(RequestID(h));
      case WithTimeout(d) => Use(Timeout(d));
      case WithMetrics => Use(Metrics);
      case WithDefaultMiddleware => UseDefaults();
    }

    /** WithDefaultMiddleware (app.go:218-228): recovery, request ID, logging and metrics, in that order. */
    method UseDefaults()
      modifies this
      ensures Config() == Apply(old(Config()), WithDefaultMiddleware)
      ensures views == old(views) && state == old(state) && server == old(server)
    {
      ghost var c0 := Config();
      var l := logger;
      Use(Recovery(l));
      Use(RequestID(""));
      Use(Logging(l));
      Use(Metrics);
      assert Config() == Using(Using(Using(Using(c0, Recovery(l)), RequestID("")), Logging(l)), Metrics);
    }

    /** SetRouter (app.go:265-270). */
    method SetRouter(h: Option<nat>)
      modifies this
      ensures Config() == old(Config()).(router := RouterOrDefault(h))
      ensures views == old(views) && state == old(state) && server == old(server)
    {
      if h.None? {
        router := ServeMux;
      } else {
        router := UserRouter(h.value);
      }
    }

    /** Handler (app.go:273-280): the router wrapped so that the first registered middleware is outermost. */
    method Handler() returns (h: AppHandler)
      ensures h == Nest(middleware, router)
    {
      h := Compose(middleware, router);
    }

    /** Start (app.go:284-309), up to launching the serving goroutine. */
    method Start() returns (res: Outcome<AppError>)
      modifies this
      ensures (LifeOf(), res) == StartStep(old(LifeOf()))
      ensures old(state) == Idle ==>
        server == Some(Server(addr, Nest(middleware, router), readTimeout, writeTimeout, idleTimeout))
      ensures old(state) != Idle ==> server == old(server)
      ensures Config() == old(Config()) && views == old(views)
    {
      if state != Idle {
        return Fail(AlreadyRunning);
      }
      state := Running;
      var h := Handler();
      server := Some(Server(addr, h, readTimeout, writeTimeout, idleTimeout));
      res := Pass;
    }

    /** The end of the serving goroutine (app.go:304-305), which only Start launches. */
    method ServerExited()
      requires server.Some?
      modifies this
      ensures LifeOf() == ExitStep(old(LifeOf())) && server == old(server)
      ensures Config() == old(Config()) && views == old(views)
    {
      state := Stopped;
    }

    /** Shutdown (app.go:343-368); the server's graceful-shutdown error is a parameter. */
    method Shutdown(serverErr: Option<string>) returns (res: Outcome<AppError>)
      modifies this
      ensures (LifeOf(), res) == ShutdownStep(old(LifeOf()), serverErr)
      ensures server == old(server) && Config() == old(Config()) && views == old(views)
    {
      if server.None? {
        return Pass;
      }
      if state == Running {
        state := Stopped;
      } else if state == Stopped {
        return Pass;
      }
      if serverErr.Some? {
        return Fail(ShutdownFailed(serverErr.value));
      }
      res := Pass;
    }

    /**
     * Run (app.go:314-340) when the server is still serving at the
     * termination signal: start, then shut down within the effective timeout.
     */
    method Run(serverErr: Option<string>) returns (res: Outcome<AppError>, timeout: int)
      modifies this
      ensures var started := StartStep(old(LifeOf()));
        if started.1.Fail? then LifeOf() == old(LifeOf()) && res == started.1
        else (LifeOf(), res) == ShutdownStep(started.0, serverErr)
      ensures timeout == EffectiveShutdownTimeout(shutdownTimeout)
      ensures Config() == old(Config()) && views == old(views)
    {
      timeout := EffectiveShutdownTimeout(shutdownTimeout);
      res := Start();
      if res.Fail? {
        return;
      }
      res := Shutdown(serverErr);
    }
  }
}
