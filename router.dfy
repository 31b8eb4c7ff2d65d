/**
 * The segment router of internal/router/router.go: path normalisation,
 * pattern splitting, structural matching with parameter capture, the ordered
 * route table built by the registration calls and Resources, the dispatch
 * decision of ServeHTTP, and reverse URL building.
 *
 * Handlers, middleware and the custom NotFound / MethodNotAllowed handlers are
 * opaque labels. A dispatch returns a Decision instead of writing a response.
 * url.PathEscape is the parameter `escape` of URL.
 */
module Router {
  import opened Wrappers
  import opened Text
  import Chain

  /** The seven actions of a ResourceController. */
  datatype Action = Index | New | Create | Show | Edit | Update | Destroy

  /** A route's handler: a plain function, or an action of a resource controller. */
  datatype HandlerFunc = Func(id: nat) | ControllerAction(controller: nat, action: Action)

  datatype Middleware = Middleware(id: nat)

  /** A custom NotFound or MethodNotAllowed handler. */
  datatype HttpHandler = HttpHandler(id: nat)

  datatype Route = Route(
    verb: string,
    pattern: string,
    segments: seq<string>,
    handler: HandlerFunc,
    name: string,
    middleware: seq<Middleware>)

  type Composed = Chain.Handler<HandlerFunc, Middleware>

  /**
   * What ServeHTTP does with a request: run route `index` (wrapped in its
   * middleware) with the captured parameters, or answer 405 / 404 through the
   * custom handler when one is set (None: the default http.Error / http.NotFound).
   */
  datatype Decision =
    | Dispatched(index: nat, params: map<string, string>, handler: Composed)
    | MethodNotAllowed(custom: Option<HttpHandler>)
    | NotFound(custom: Option<HttpHandler>)

  /** The panics of the registration calls. */
  datatype Fatal = PatternWithoutLeadingSlash(pattern: string) | EmptyRouteName | DuplicateRouteName(name: string)

  datatype UrlError = UnknownRoute(name: string) | MissingParam(key: string, route: string)

  datatype ResourcesError = EmptyBase

  // ---------------------------------------------------------------------------
  // normalizePath and splitPath

  /** Keeps "/" as is, strips exactly one trailing '/', and maps an empty result to "/". */
  function NormalizePath(p: string): (r: string)
    ensures r != ""
    ensures p == "/" || p == "" ==> r == "/"
    ensures |p| > 1 && p[|p| - 1] == '/' ==> r == p[..|p| - 1]
    ensures p != "" && p[|p| - 1] != '/' ==> r == p
  {
    if p == "/" then p
    else
      var t := TrimSuffix(p, "/");
      if t == "" then "/" else t
  }

  /** A request path without a trailing '/' and the same path with one dispatch alike. */
  lemma NormalizeTrailingSlash(p: string)
    requires p == "" || p[|p| - 1] != '/'
    ensures NormalizePath(p + "/") == NormalizePath(p)
  {
    if p != "" {
      assert (p + "/")[..|p|] == p;
    }
  }

  /**
   * Strips every leading and trailing '/', then splits on '/'. The root
   * pattern gives no segments; otherwise the segments joined with '/' give back
   * the stripped pattern, and the first and last segments are not empty.
   */
  function SplitPath(p: string): seq<string> {
    var t := Trim(p, '/');
    if t == "" then [] else Split(t, '/')
  }

  lemma SplitPathSpec(p: string)
    ensures var r := SplitPath(p);
      (r == [] <==> Trim(p, '/') == "") &&
      (forall i :: 0 <= i < |r| ==> '/' !in r[i]) &&
      (r != [] ==> Join(r, "/") == Trim(p, '/') && r[0] != "" && r[|r| - 1] != "")
  {
    var t := Trim(p, '/');
    if t != "" {
      JoinSplit(t, '/');
      SplitEnds(t, '/');
      SplitNoSep(t, '/');
    }
  }

  lemma SplitEnds(s: string, c: char)
    requires s != [] && s[0] != c && s[|s| - 1] != c
    ensures var r := Split(s, c); r[0] != "" && r[|r| - 1] != ""
  {
    SplitLastNonEmpty(s, c);
    var i := IndexOf(s, c);
    if i >= 0 {
      assert i != 0;
      assert Split(s, c)[0] == s[..i];
    }
  }

  lemma {:induction false} SplitLastNonEmpty(s: string, c: char)
    requires s != [] && s[|s| - 1] != c
    ensures var r := Split(s, c); r[|r| - 1] != ""
    decreases |s|
  {
    var i := IndexOf(s, c);
    if i >= 0 {
      SplitLastNonEmpty(s[i + 1..], c);
    }
  }

  // ---------------------------------------------------------------------------
  // matchRoute

  predicate IsParam(seg: string) {
    HasPrefix(seg, ":")
  }

  function ParamName(seg: string): string {
    TrimPrefix(seg, ":")
  }

  /** One pattern segment against one path part: "" only matches "", ":name" needs a name, a literal needs equality. */
  predicate SegmentAccepts(seg: string, part: string) {
    if seg == "" then part == ""
    else if IsParam(seg) then ParamName(seg) != ""
    else seg == part
  }

  /** The parameters bound left to right; a later segment with the same name overwrites an earlier one. */
  function Bind(segs: seq<string>, parts: seq<string>): map<string, string>
    requires |segs| == |parts|
  {
    if |segs| == 0 then map[]
    else
      var m := Bind(segs[..|segs| - 1], parts[..|parts| - 1]);
      var s := segs[|segs| - 1];
      if IsParam(s) then m[ParamName(s) := parts[|parts| - 1]] else m
  }

  predicate AllAccept(segs: seq<string>, parts: seq<string>)
    requires |segs| == |parts|
  {
    forall i :: 0 <= i < |segs| ==> SegmentAccepts(segs[i], parts[i])
  }

  /** The reference meaning of matchRoute: None is "no match", Some(m) a match capturing m. */
  function Match(segs: seq<string>, path: string): Option<map<string, string>>
  {
    if |segs| == 0 then (if path == "/" then Some(map[]) else None)
    else
      var t := Trim(path, '/');
      if t == "" then None
      else
        var parts := Split(t, '/');
        if |parts| == |segs| && AllAccept(segs, parts) then Some(Bind(segs, parts)) else None
  }

  /** Extending the bound prefix by one position. */
  lemma BindStep(segs: seq<string>, parts: seq<string>, i: int)
    requires |segs| == |parts| && 0 <= i < |segs|
    ensures Bind(segs[..i + 1], parts[..i + 1]) ==
      if IsParam(segs[i]) then Bind(segs[..i], parts[..i])[ParamName(segs[i]) := parts[i]] else Bind(segs[..i], parts[..i])
  {
    assert segs[..i + 1][..i] == segs[..i] && parts[..i + 1][..i] == parts[..i];
  }

  /** The per-segment loop of matchRoute, over a path already split into as many parts as there are segments. */
  method MatchSegments(segs: seq<string>, parts: seq<string>) returns (ok: bool, params: map<string, string>)
    requires |segs| == |parts|
    ensures ok == AllAccept(segs, parts)
    ensures ok ==> params == Bind(segs, parts)
  {
    params := map[];
    var i := 0;
    while i < |segs|
      invariant 0 <= i <= |segs|
      invariant forall j :: 0 <= j < i ==> SegmentAccepts(segs[j], parts[j])
      invariant params == Bind(segs[..i], parts[..i])
    {
      var s := segs[i];
      var p := parts[i];
      BindStep(segs, parts, i);
      if s == "" {
        if p != "" {
          return false, map[];
        }
      } else if HasPrefix(s, ":") {
        var name := TrimPrefix(s, ":");
        if name == "" {
          return false, map[];
        }
        params := params[name := p];
      } else if s != p {
        return false, map[];
      }
      i := i + 1;
    }
    assert segs[..i] == segs && parts[..i] == parts;
    ok := true;
  }

  /** matchRoute: the root case, the stripped path, the part count, then the segment loop. */
  method MatchRoute(segs: seq<string>, path: string) returns (ok: bool, params: map<string, string>)
    ensures ok == Match(segs, path).Some?
    ensures ok ==> params == Match(segs, path).value
  {
    if |segs| == 0 {
      return path == "/", map[];
    }
    var trimmed := Trim(path, '/');
    if trimmed == "" {
      return false, map[];
    }
    var parts := Split(trimmed, '/');
    if |parts| != |segs| {
      return false, map[];
    }
    ok, params := MatchSegments(segs, parts);
  }

  /**
   * A match needs as many path parts as segments, each segment accepting its
   * part: a literal equal to it (case-sensitively), "" only an empty part, a
   * parameter only when it has a non-empty name.
   */
  lemma MatchShape(segs: seq<string>, path: string)
    requires Match(segs, path).Some? && |segs| > 0
    ensures var parts := Split(Trim(path, '/'), '/');
      Trim(path, '/') != "" && |parts| == |segs| &&
      forall i :: 0 <= i < |segs| ==>
        (segs[i] == "" ==> parts[i] == "") &&
        (IsParam(segs[i]) ==> ParamName(segs[i]) != "") &&
        (segs[i] != "" && !IsParam(segs[i]) ==> parts[i] == segs[i])
  {
    var parts := Split(Trim(path, '/'), '/');
    assert AllAccept(segs, parts);
  }

  /** A pattern containing a bare ':' segment matches no path at all. */
  lemma BareColonNeverMatches(segs: seq<string>, path: string, k: int)
    requires 0 <= k < |segs| && segs[k] == ":"
    ensures Match(segs, path).None?
  {
    var t := Trim(path, '/');
    if t != "" {
      var parts := Split(t, '/');
      if |parts| == |segs| {
        assert ParamName(segs[k]) == "";
        assert !SegmentAccepts(segs[k], parts[k]);
      }
    }
  }

  /** The keys bound are exactly the names of parameter segments. */
  lemma {:induction false} BindKeys(segs: seq<string>, parts: seq<string>, k: string)
    requires |segs| == |parts|
    ensures k in Bind(segs, parts) <==> exists i :: 0 <= i < |segs| && IsParam(segs[i]) && ParamName(segs[i]) == k
  {
    if |segs| > 0 {
      var n := |segs| - 1;
      BindKeys(segs[..n], parts[..n], k);
      if k in Bind(segs, parts) && k !in Bind(segs[..n], parts[..n]) {
        assert IsParam(segs[n]) && ParamName(segs[n]) == k;
      }
      if exists i :: 0 <= i < |segs| && IsParam(segs[i]) && ParamName(segs[i]) == k {
        var i :| 0 <= i < |segs| && IsParam(segs[i]) && ParamName(segs[i]) == k;
        if i < n {
          assert segs[..n][i] == segs[i];
        }
      }
    }
  }

  /** A parameter segment that no later segment repeats binds its name to the part in its position. */
  lemma {:induction false} BindValue(segs: seq<string>, parts: seq<string>, i: int)
    requires |segs| == |parts| && 0 <= i < |segs| && IsParam(segs[i])
    requires forall j :: i < j < |segs| && IsParam(segs[j]) ==> ParamName(segs[j]) != ParamName(segs[i])
    ensures ParamName(segs[i]) in Bind(segs, parts) && Bind(segs, parts)[ParamName(segs[i])] == parts[i]
  {
    var n := |segs| - 1;
    if i < n {
      BindValue(segs[..n], parts[..n], i);
    }
  }

  // ---------------------------------------------------------------------------
  // The route table and the dispatch decision of ServeHTTP

  predicate ShapeMatches(rt: Route, path: string) {
    Match(rt.segments, path).Some?
  }

  predicate Serves(rt: Route, verb: string, path: string) {
    ShapeMatches(rt, path) && rt.verb == verb
  }

  /** The first route, in registration order, that matches both the path and the verb. */
  function FirstServing(routes: seq<Route>, verb: string, path: string): (r: Option<nat>)
    ensures r.Some? ==> r.value < |routes| && Serves(routes[r.value], verb, path)
  {
    FirstRoute(routes, (rt: Route) => Serves(rt, verb, path))
  }

  /** The first route satisfying p, found by extending the scanned prefix one route at a time. */
  function FirstRoute(routes: seq<Route>, p: Route -> bool): (r: Option<nat>)
    ensures r.Some? ==> r.value < |routes| && p(routes[r.value])
  {
    if |routes| == 0 then None
    else
      var n := |routes| - 1;
      match FirstRoute(routes[..n], p)
      case Some(k) => Some(k)
      case None => if p(routes[n]) then Some(n) else None
  }

  /** FirstServing finds the lowest index that serves the request, and None exactly when no route does. */
  lemma FirstServingSpec(routes: seq<Route>, verb: string, path: string)
    ensures var r := FirstServing(routes, verb, path);
      (r.Some? ==> r.value < |routes| && Serves(routes[r.value], verb, path) &&
                   forall j :: 0 <= j < r.value ==> !Serves(routes[j], verb, path)) &&
      (r.None? <==> forall j :: 0 <= j < |routes| ==> !Serves(routes[j], verb, path))
  {
    var p := (rt: Route) => Serves(rt, verb, path);
    FirstRouteSpec(routes, p);
    assert forall j :: 0 <= j < |routes| ==> (p(routes[j]) <==> Serves(routes[j], verb, path));
  }

  lemma {:induction false} FirstRouteSpec(routes: seq<Route>, p: Route -> bool)
    ensures var r := FirstRoute(routes, p);
      (r.Some? ==> forall j :: 0 <= j < r.value ==> !p(routes[j])) &&
      (r.None? <==> forall j :: 0 <= j < |routes| ==> !p(routes[j]))
  {
    if |routes| > 0 {
      var n := |routes| - 1;
      FirstRouteSpec(routes[..n], p);
      assert forall j :: 0 <= j < n ==> routes[..n][j] == routes[j];
    }
  }

  /** The route at `k` is the winner when it serves the request and none before it does. */
  lemma FirstServingAt(routes: seq<Route>, verb: string, path: string, k: int)
    requires 0 <= k < |routes| && Serves(routes[k], verb, path)
    requires forall j :: 0 <= j < k ==> !Serves(routes[j], verb, path)
    ensures FirstServing(routes, verb, path) == Some(k)
  {
    FirstServingSpec(routes, verb, path);
  }

  /** A winner among the first routes stays the winner when later routes are added. */
  lemma {:induction false} FirstServingPrefix(routes: seq<Route>, verb: string, path: string, k: int)
    requires 0 <= k <= |routes| && FirstServing(routes[..k], verb, path).Some?
    ensures FirstServing(routes, verb, path) == FirstServing(routes[..k], verb, path)
    decreases |routes| - k
  {
    if k < |routes| {
      assert routes[..k + 1][..k] == routes[..k];
      FirstServingPrefix(routes, verb, path, k + 1);
    } else {
      assert routes[..k] == routes;
    }
  }

  /** Some route matches the path's shape, whatever its verb. */
  predicate AnyShapeMatches(routes: seq<Route>, path: string) {
    AnyRoute(routes, (rt: Route) => ShapeMatches(rt, path))
  }

  /** Some route satisfies p, scanning from the back. */
  predicate AnyRoute(routes: seq<Route>, p: Route -> bool) {
    |routes| > 0 && (AnyRoute(routes[..|routes| - 1], p) || p(routes[|routes| - 1]))
  }

  lemma AnyShapeMatchesSpec(routes: seq<Route>, path: string)
    ensures AnyShapeMatches(routes, path) <==> exists j :: 0 <= j < |routes| && ShapeMatches(routes[j], path)
  {
    var p := (rt: Route) => ShapeMatches(rt, path);
    AnyRouteSpec(routes, p);
    assert (exists j :: 0 <= j < |routes| && p(routes[j])) <==>
      (exists j :: 0 <= j < |routes| && ShapeMatches(routes[j], path));
  }

  lemma {:induction false} AnyRouteSpec(routes: seq<Route>, p: Route -> bool)
    ensures AnyRoute(routes, p) <==> exists j :: 0 <= j < |routes| && p(routes[j])
  {
    if |routes| > 0 {
      var n := |routes| - 1;
      var init := routes[..n];
      AnyRouteSpec(init, p);
      assert forall j :: 0 <= j < n ==> init[j] == routes[j];
    }
  }

  /**
   * The reference meaning of ServeHTTP: the first route matching shape and
   * verb wins, with its captured parameters and its middleware nested so
   * that the first registered is outermost; otherwise 405 if some route
   * matched the shape, else 404.
   */
  function Dispatch(routes: seq<Route>, notFound: Option<HttpHandler>, methodNotAllowed: Option<HttpHandler>,
                    verb: string, rawPath: string): Decision
  {
    var path := NormalizePath(rawPath);
    match FirstServing(routes, verb, path)
    case Some(i) => Dispatched(i, Match(routes[i].segments, path).value, Chain.Nest(routes[i].middleware, routes[i].handler))
    case None => if AnyShapeMatches(routes, path) then MethodNotAllowed(methodNotAllowed) else NotFound(notFound)
  }

  /** One step of ServeHTTP's scan: both prefix summaries extend by route `i`. */
  lemma ScanStep(routes: seq<Route>, verb: string, path: string, i: int)
    requires 0 <= i < |routes|
    ensures FirstServing(routes[..i + 1], verb, path) ==
      if FirstServing(routes[..i], verb, path).Some? then FirstServing(routes[..i], verb, path)
      else if Serves(routes[i], verb, path) then Some(i) else None
    ensures AnyShapeMatches(routes[..i + 1], path) == (AnyShapeMatches(routes[..i], path) || ShapeMatches(routes[i], path))
  {
    assert routes[..i + 1][..i] == routes[..i];
  }

  /** The scan stops at route `i`: it is the one Dispatch picks. */
  lemma ScanHit(routes: seq<Route>, nf: Option<HttpHandler>, mna: Option<HttpHandler>, verb: string, raw: string, i: int)
    requires 0 <= i < |routes| && FirstServing(routes[..i], verb, NormalizePath(raw)) == None
    requires Serves(routes[i], verb, NormalizePath(raw))
    ensures Dispatch(routes, nf, mna, verb, raw) ==
      Dispatched(i, Match(routes[i].segments, NormalizePath(raw)).value, Chain.Nest(routes[i].middleware, routes[i].handler))
  {
    var path := NormalizePath(raw);
    ScanStep(routes, verb, path, i);
    FirstServingPrefix(routes, verb, path, i + 1);
  }

  lemma DispatchAt(routes: seq<Route>, nf: Option<HttpHandler>, mna: Option<HttpHandler>, verb: string, raw: string, k: int)
    requires 0 <= k < |routes| && FirstServing(routes, verb, NormalizePath(raw)) == Some(k)
    ensures Dispatch(routes, nf, mna, verb, raw) ==
      Dispatched(k, Match(routes[k].segments, NormalizePath(raw)).value, Chain.Nest(routes[k].middleware, routes[k].handler))
  {
  }

  /** The scan ran to the end: 405 if some shape matched, else 404. */
  lemma ScanMiss(routes: seq<Route>, nf: Option<HttpHandler>, mna: Option<HttpHandler>, verb: string, raw: string)
    ensures routes[..|routes|] == routes
    ensures FirstServing(routes, verb, NormalizePath(raw)) == None ==>
      Dispatch(routes, nf, mna, verb, raw) ==
        if AnyShapeMatches(routes, NormalizePath(raw)) then MethodNotAllowed(mna) else NotFound(nf)
  {
  }

  /** The three outcomes of a dispatch and exactly when each happens. */
  lemma DispatchCases(routes: seq<Route>, nf: Option<HttpHandler>, mna: Option<HttpHandler>, verb: string, raw: string)
    ensures var path := NormalizePath(raw); var d := Dispatch(routes, nf, mna, verb, raw);
      (d.Dispatched? <==> exists i :: 0 <= i < |routes| && Serves(routes[i], verb, path)) &&
      (d == MethodNotAllowed(mna) <==>
        (forall i :: 0 <= i < |routes| ==> !Serves(routes[i], verb, path)) &&
        (exists i :: 0 <= i < |routes| && ShapeMatches(routes[i], path))) &&
      (d == NotFound(nf) <==> forall i :: 0 <= i < |routes| ==> !ShapeMatches(routes[i], path))
  {
    var path := NormalizePath(raw);
    FirstServingSpec(routes, verb, path);
    AnyShapeMatchesSpec(routes, path);
    var d := Dispatch(routes, nf, mna, verb, raw);
    if d.Dispatched? {
      assert ShapeMatches(routes[d.index], path);
    }
  }

  /**
   * The winner is the first route serving the request; the handler sees the
   * parameters its pattern captured, and a request meets the route's
   * middleware in registration order before the handler.
   */
  lemma DispatchWinner(routes: seq<Route>, nf: Option<HttpHandler>, mna: Option<HttpHandler>, verb: string, raw: string)
    requires Dispatch(routes, nf, mna, verb, raw).Dispatched?
    ensures var path := NormalizePath(raw); var d := Dispatch(routes, nf, mna, verb, raw);
      d.index < |routes| && routes[d.index].verb == verb &&
      Match(routes[d.index].segments, path) == Some(d.params) &&
      (forall j :: 0 <= j < d.index ==> !Serves(routes[j], verb, path)) &&
      Chain.Trace(d.handler) == Chain.Entries(routes[d.index].middleware) + [Chain.Run(routes[d.index].handler)]
  {
    var path := NormalizePath(raw);
    FirstServingSpec(routes, verb, path);
    var d := Dispatch(routes, nf, mna, verb, raw);
    Chain.NestTrace(routes[d.index].middleware, routes[d.index].handler);
  }

  /** "/users/" dispatches exactly like "/users". */
  lemma DispatchTrailingSlash(routes: seq<Route>, nf: Option<HttpHandler>, mna: Option<HttpHandler>, verb: string, p: string)
    requires p == "" || p[|p| - 1] != '/'
    ensures Dispatch(routes, nf, mna, verb, p + "/") == Dispatch(routes, nf, mna, verb, p)
  {
    NormalizeTrailingSlash(p);
  }

  // ---------------------------------------------------------------------------
  // Registration

  function NewRoute(verb: string, pattern: string, h: HandlerFunc, name: string, mws: seq<Middleware>): Route {
    Route(ToUpper(verb), pattern, SplitPath(pattern), h, name, mws)
  }

  predicate NameInUse(routes: seq<Route>, name: string) {
    exists i :: 0 <= i < |routes| && routes[i].name == name
  }

  /** Handle / HandleWith: panic unless the pattern starts with '/', else append an unnamed route. */
  function Register(routes: seq<Route>, verb: string, pattern: string, h: HandlerFunc, mws: seq<Middleware>)
    : Result<seq<Route>, Fatal>
  {
    if !HasPrefix(pattern, "/") then Failure(PatternWithoutLeadingSlash(pattern))
    else Success(routes + [NewRoute(verb, pattern, h, "", mws)])
  }

  /** HandleNamed / HandleNamedWith: the name is checked (empty, then duplicate) before the pattern. */
  function RegisterNamed(routes: seq<Route>, name: string, verb: string, pattern: string, h: HandlerFunc,
                         mws: seq<Middleware>): Result<seq<Route>, Fatal>
  {
    if name == "" then Failure(EmptyRouteName)
    else if NameInUse(routes, name) then Failure(DuplicateRouteName(name))
    else if !HasPrefix(pattern, "/") then Failure(PatternWithoutLeadingSlash(pattern))
    else Success(routes + [NewRoute(verb, pattern, h, name, mws)])
  }

  predicate UniqueNames(routes: seq<Route>) {
    forall i, j :: 0 <= i < j < |routes| && routes[i].name != "" ==> routes[i].name != routes[j].name
  }

  predicate WellFormedRoute(rt: Route) {
    HasPrefix(rt.pattern, "/") && rt.segments == SplitPath(rt.pattern) && rt.verb == ToUpper(rt.verb)
  }

  /** The route-table invariant: every pattern starts with '/', its segments are its split, its verb is upper case, and non-empty names are unique. */
  predicate WellFormed(routes: seq<Route>) {
    UniqueNames(routes) && forall i :: 0 <= i < |routes| ==> WellFormedRoute(routes[i])
  }

  lemma NewRouteWellFormed(verb: string, pattern: string, h: HandlerFunc, name: string, mws: seq<Middleware>)
    requires HasPrefix(pattern, "/")
    ensures WellFormedRoute(NewRoute(verb, pattern, h, name, mws))
  {
    ToUpperIdempotent(verb);
  }

  /** Registration keeps the table well formed, adds exactly one route at the end and leaves the others alone. */
  lemma RegisterPreserves(routes: seq<Route>, verb: string, pattern: string, h: HandlerFunc, mws: seq<Middleware>)
    requires WellFormed(routes)
    ensures var r := Register(routes, verb, pattern, h, mws);
      (r.Success? <==> HasPrefix(pattern, "/")) &&
      (r.Success? ==> WellFormed(r.value) && |r.value| == |routes| + 1 && r.value[..|routes|] == routes &&
                      r.value[|routes|].verb == ToUpper(verb) && r.value[|routes|].name == "")
  {
    if HasPrefix(pattern, "/") {
      var rt := NewRoute(verb, pattern, h, "", mws);
      NewRouteWellFormed(verb, pattern, h, "", mws);
      AppendUnnamed(routes, [rt]);
      assert (routes + [rt])[..|routes|] == routes;
    }
  }

  lemma RegisterNamedPreserves(routes: seq<Route>, name: string, verb: string, pattern: string, h: HandlerFunc,
                               mws: seq<Middleware>)
    requires WellFormed(routes)
    ensures var r := RegisterNamed(routes, name, verb, pattern, h, mws);
      (r == Failure(EmptyRouteName) <==> name == "") &&
      (r == Failure(DuplicateRouteName(name)) <==> name != "" && NameInUse(routes, name)) &&
      (r.Success? <==> name != "" && !NameInUse(routes, name) && HasPrefix(pattern, "/")) &&
      (r.Success? ==> WellFormed(r.value) && r.value == routes + [NewRoute(verb, pattern, h, name, mws)])
  {
    if name != "" && !NameInUse(routes, name) && HasPrefix(pattern, "/") {
      NewRouteWellFormed(verb, pattern, h, name, mws);
      AppendNamed(routes, NewRoute(verb, pattern, h, name, mws));
    }
  }

  lemma AppendNamed(routes: seq<Route>, rt: Route)
    requires WellFormed(routes) && WellFormedRoute(rt) && !NameInUse(routes, rt.name)
    ensures WellFormed(routes + [rt])
  {
    var t := routes + [rt];
    assert forall i :: 0 <= i < |routes| ==> t[i] == routes[i];
    forall i, j | 0 <= i < j < |t| && t[i].name != "" ensures t[i].name != t[j].name {
      if j == |routes| {
        assert routes[i].name != rt.name;
      }
    }
  }

  // ---------------------------------------------------------------------------
  // Resources

  /**
   * The eight routes Resources registers, in registration order: first the
   * collection routes, then the member routes. All are unnamed, carry no
   * middleware and run an action of the controller.
   */
  function ResourceRoutes(b: string, c: nat): seq<Route> {
    CollectionRows(b, c) + MemberRows(b, c)
  }

  /** Index, new and create, on "/base" and "/base/new". */
  function CollectionRows(b: string, c: nat): seq<Route> {
    var collection := "/" + b;
    [ NewRoute("GET", collection, ControllerAction(c, Index), "", []),
      NewRoute("GET", collection + "/new", ControllerAction(c, New), "", []),
      NewRoute("POST", collection, ControllerAction(c, Create), "", []) ]
  }

  /** Show, edit, update (twice) and destroy, on "/base/:id" and "/base/:id/edit". */
  function MemberRows(b: string, c: nat): seq<Route> {
    var member := "/" + b + "/:id";
    [ NewRoute("GET", member, ControllerAction(c, Show), "", []),
      NewRoute("GET", member + "/edit", ControllerAction(c, Edit), "", []),
      NewRoute("PUT", member, ControllerAction(c, Update), "", []),
      NewRoute("PATCH", member, ControllerAction(c, Update), "", []),
      NewRoute("DELETE", member, ControllerAction(c, Destroy), "", []) ]
  }

  /** Appending a and then b appends a + b. */
  lemma AppendInTwo<T>(a: seq<T>, b: seq<T>, r0: seq<T>, r1: seq<T>, r2: seq<T>)
    requires r1 == r0 + a && r2 == r1 + b
    ensures r2 == r0 + (a + b)
  {
  }

  /** Resources appends routes that keep the table well formed and adds no names (so "users_show" stays unknown). */
  lemma ResourcesPreserve(routes: seq<Route>, b: string, c: nat, name: string)
    requires WellFormed(routes)
    ensures WellFormed(routes + ResourceRoutes(b, c))
    ensures name != "" ==> FindNamed(routes + ResourceRoutes(b, c), name) == FindNamed(routes, name)
  {
    var rs := ResourceRoutes(b, c);
    ResourceRoutesWellFormed(b, c);
    AppendUnnamed(routes, rs);
    if name != "" {
      FindNamedAppend(routes, rs, name);
    }
  }

  lemma ResourceRoutesWellFormed(b: string, c: nat)
    ensures forall k :: 0 <= k < |ResourceRoutes(b, c)| ==>
      WellFormedRoute(ResourceRoutes(b, c)[k]) && ResourceRoutes(b, c)[k].name == ""
  {
    CollectionRowsWellFormed(b, c);
    MemberRowsWellFormed(b, c);
    var rs := ResourceRoutes(b, c);
    assert forall k :: 0 <= k < 3 ==> rs[k] == CollectionRows(b, c)[k];
    assert forall k :: 3 <= k < 8 ==> rs[k] == MemberRows(b, c)[k - 3];
  }

  lemma CollectionRowsWellFormed(b: string, c: nat)
    ensures forall k :: 0 <= k < |CollectionRows(b, c)| ==>
      WellFormedRoute(CollectionRows(b, c)[k]) && CollectionRows(b, c)[k].name == ""
  {
    StandardVerbs();
    LeadingSlash(b);
    LeadingSlash(b + "/new");
    assert "/" + b + "/new" == "/" + (b + "/new");
  }

  lemma MemberRowsWellFormed(b: string, c: nat)
    ensures forall k :: 0 <= k < |MemberRows(b, c)| ==>
      WellFormedRoute(MemberRows(b, c)[k]) && MemberRows(b, c)[k].name == ""
  {
    var member := "/" + b + "/:id";
    var rs := MemberRows(b, c);
    StandardVerbs();
    LeadingSlash(b);
    SlashPrefixExtends("/" + b, "/:id");
    SlashPrefixExtends(member, "/edit");
    assert WellFormedRoute(rs[0]) && WellFormedRoute(rs[1]);
    assert WellFormedRoute(rs[2]) && WellFormedRoute(rs[3]) && WellFormedRoute(rs[4]);
  }

  lemma CollectionTail(b: string, c: nat, r0: seq<Route>, r1: seq<Route>, r2: seq<Route>, r3: seq<Route>)
    requires r1 == r0 + [NewRoute("GET", "/" + b, ControllerAction(c, Index), "", [])]
    requires r2 == r1 + [NewRoute("GET", "/" + b + "/new", ControllerAction(c, New), "", [])]
    requires r3 == r2 + [NewRoute("POST", "/" + b, ControllerAction(c, Create), "", [])]
    ensures r3 == r0 + CollectionRows(b, c)
  {
  }

  lemma MemberReadTail(b: string, c: nat, r0: seq<Route>, r1: seq<Route>, r2: seq<Route>)
    requires r1 == r0 + [NewRoute("GET", "/" + b + "/:id", ControllerAction(c, Show), "", [])]
    requires r2 == r1 + [NewRoute("GET", "/" + b + "/:id" + "/edit", ControllerAction(c, Edit), "", [])]
    ensures r2 == r0 + MemberRows(b, c)[..2]
  {
    var rows := MemberRows(b, c);
    assert rows[..2] == [rows[0], rows[1]];
  }

  lemma MemberWriteTail(b: string, c: nat, r0: seq<Route>, r1: seq<Route>, r2: seq<Route>, r3: seq<Route>)
    requires r1 == r0 + [NewRoute("PUT", "/" + b + "/:id", ControllerAction(c, Update), "", [])]
    requires r2 == r1 + [NewRoute("PATCH", "/" + b + "/:id", ControllerAction(c, Update), "", [])]
    requires r3 == r2 + [NewRoute("DELETE", "/" + b + "/:id", ControllerAction(c, Destroy), "", [])]
    ensures r3 == r0 + MemberRows(b, c)[2..]
  {
    var rows := MemberRows(b, c);
    assert rows[2..] == [rows[2], rows[3], rows[4]];
  }

  lemma SlashPrefixExtends(p: string, rest: string)
    requires HasPrefix(p, "/")
    ensures HasPrefix(p + rest, "/")
  {
    assert (p + rest)[..1] == p[..1];
  }

  lemma LeadingSlash(rest: string)
    ensures HasPrefix("/" + rest, "/")
  {
    assert ("/" + rest)[..1] == "/";
  }

  lemma AppendUnnamed(routes: seq<Route>, extra: seq<Route>)
    requires WellFormed(routes)
    requires forall k :: 0 <= k < |extra| ==> WellFormedRoute(extra[k]) && extra[k].name == ""
    ensures WellFormed(routes + extra)
  {
    var t := routes + extra;
    assert forall i :: 0 <= i < |routes| ==> t[i] == routes[i];
    assert forall i :: |routes| <= i < |t| ==> t[i] == extra[i - |routes|];
  }

  lemma {:induction false} FindNamedAppend(routes: seq<Route>, extra: seq<Route>, name: string)
    requires forall k :: 0 <= k < |extra| ==> extra[k].name != name
    ensures FindNamed(routes + extra, name) == FindNamed(routes, name)
  {
    if |routes| > 0 {
      assert (routes + extra)[1..] == routes[1..] + extra;
      FindNamedAppend(routes[1..], extra, name);
    } else {
      assert routes + extra == extra;
    }
  }

  // ---------------------------------------------------------------------------
  // Paths built from clean segments

  /** A segment that is neither empty nor holds a '/'. */
  predicate CleanPart(s: string) {
    s != "" && '/' !in s
  }

  lemma CleanPathSplits(parts: seq<string>)
    requires |parts| >= 1 && forall i :: 0 <= i < |parts| ==> CleanPart(parts[i])
    ensures Trim("/" + Join(parts, "/"), '/') == Join(parts, "/")
    ensures Split(Join(parts, "/"), '/') == parts
    ensures SplitPath("/" + Join(parts, "/")) == parts
  {
    var j := Join(parts, "/");
    JoinBounds(parts, '/');
    assert parts[0][0] in parts[0];
    var last := parts[|parts| - 1];
    assert last[|last| - 1] in last;
    assert TrimLeft("/" + j, '/') == TrimLeft(j, '/') by {
      assert ("/" + j)[1..] == j;
    }
    TrimOfClean(j, '/');
    SplitJoin(parts, '/');
  }

  /** Matching a path made of clean parts: equal counts and every segment accepting its part. */
  lemma MatchCleanPath(segs: seq<string>, parts: seq<string>)
    requires |segs| >= 1 && |parts| >= 1 && forall i :: 0 <= i < |parts| ==> CleanPart(parts[i])
    ensures Match(segs, "/" + Join(parts, "/")) ==
      if |parts| == |segs| && AllAccept(segs, parts) then Some(Bind(segs, parts)) else None
  {
    CleanPathSplits(parts);
  }

  lemma NormalizeCleanPath(parts: seq<string>)
    requires |parts| >= 1 && forall i :: 0 <= i < |parts| ==> CleanPart(parts[i])
    ensures NormalizePath("/" + Join(parts, "/")) == "/" + Join(parts, "/")
  {
    JoinBounds(parts, '/');
    var last := parts[|parts| - 1];
    assert last[|last| - 1] in last;
  }

  /** A base that Resources keeps as one literal segment. */
  predicate PlainSegment(b: string) {
    CleanPart(b) && !IsParam(b)
  }

  lemma StandardVerbs()
    ensures ToUpper("GET") == "GET" && ToUpper("POST") == "POST" && ToUpper("PUT") == "PUT"
    ensures ToUpper("PATCH") == "PATCH" && ToUpper("DELETE") == "DELETE"
  {
    ToUpperOfUpper("GET");
    ToUpperOfUpper("POST");
    ToUpperOfUpper("PUT");
    ToUpperOfUpper("PATCH");
    ToUpperOfUpper("DELETE");
  }

  lemma CollectionPattern(b: string)
    requires PlainSegment(b)
    ensures SplitPath("/" + b) == [b]
  {
    assert Join([b], "/") == b;
    CleanPathSplits([b]);
  }

  /** "/base" + "/" + last compiles to the two segments base and last, as "/base/new" and "/base/:id" do. */
  lemma TwoSegmentPattern(b: string, last: string)
    requires PlainSegment(b) && CleanPart(last)
    ensures SplitPath("/" + b + ("/" + last)) == [b, last]
  {
    TwoPartPath(b, last);
    assert "/" + b + ("/" + last) == "/" + b + "/" + last;
    CleanPathSplits([b, last]);
  }

  /** The member suffixes of Resources, spelled as a separator and a segment. */
  lemma SuffixLiterals()
    ensures "/" + "new" == "/new" && "/" + ":id" == "/:id" && CleanPart("new") && CleanPart(":id")
  {
  }

  lemma IndexRoute(b: string, c: nat)
    requires PlainSegment(b)
    ensures var rt := ResourceRoutes(b, c)[0]; rt.verb == "GET" && rt.segments == [b]
  {
    assert ResourceRoutes(b, c)[0] == CollectionRows(b, c)[0];
    StandardVerbs();
    CollectionPattern(b);
  }

  lemma NewFormRoute(b: string, c: nat)
    requires PlainSegment(b)
    ensures var rt := ResourceRoutes(b, c)[1];
      rt.verb == "GET" && rt.segments == [b, "new"] && rt.handler == ControllerAction(c, New) && rt.middleware == []
  {
    assert ResourceRoutes(b, c)[1] == CollectionRows(b, c)[1];
    StandardVerbs();
    SuffixLiterals();
    TwoSegmentPattern(b, "new");
  }

  lemma CreateRoute(b: string, c: nat)
    requires PlainSegment(b)
    ensures var rt := ResourceRoutes(b, c)[2]; rt.verb == "POST" && rt.segments == [b]
  {
    assert ResourceRoutes(b, c)[2] == CollectionRows(b, c)[2];
    StandardVerbs();
    CollectionPattern(b);
  }

  lemma ShowRoute(b: string, c: nat)
    requires PlainSegment(b)
    ensures var rt := ResourceRoutes(b, c)[3];
      rt.verb == "GET" && rt.segments == [b, ":id"] && rt.handler == ControllerAction(c, Show) && rt.middleware == []
  {
    assert ResourceRoutes(b, c)[3] == MemberRows(b, c)[0];
    StandardVerbs();
    SuffixLiterals();
    TwoSegmentPattern(b, ":id");
  }

  /**
   * Because "/base/new" is registered before "/base/:id", GET /base/new runs
   * the New action and does not reach Show.
   */
  lemma ResourcesNewBeforeShow(b: string, c: nat, nf: Option<HttpHandler>, mna: Option<HttpHandler>)
    requires PlainSegment(b)
    ensures Dispatch(ResourceRoutes(b, c), nf, mna, "GET", "/" + b + "/new")
         == Dispatched(1, map[], Chain.Base(ControllerAction(c, New)))
  {
    NewFormPath(b);
    IndexRoute(b, c);
    NewFormRoute(b, c);
    NewFormDispatch(ResourceRoutes(b, c), b, "/" + b + "/new", nf, mna);
  }

  /** "/base/new" is already normal, misses the collection pattern and matches the new-form pattern. */
  lemma NewFormPath(b: string)
    requires PlainSegment(b)
    ensures var path := "/" + b + "/new";
      NormalizePath(path) == path && Match([b], path).None? && Match([b, "new"], path) == Some(map[])
  {
    var path := "/" + b + "/new";
    assert path == "/" + Join([b, "new"], "/") by {
      assert Join([b, "new"], "/") == b + "/new";
    }
    NormalizeCleanPath([b, "new"]);
    NewFormMatches(b, path);
  }

  /** The scan passes over route 0 and stops at route 1. */
  lemma ServedSecond(rs: seq<Route>, verb: string, path: string)
    requires |rs| >= 2 && !Serves(rs[0], verb, path) && Serves(rs[1], verb, path)
    ensures FirstServing(rs, verb, path) == Some(1)
  {
    ScanStep(rs, verb, path, 0);
    ScanStep(rs, verb, path, 1);
    assert rs[..0] == [];
    FirstServingPrefix(rs, verb, path, 2);
  }

  /** The scan passes over routes 0 to 2 and stops at route 3. */
  lemma ServedFourth(rs: seq<Route>, verb: string, path: string)
    requires |rs| >= 4 && !Serves(rs[0], verb, path) && !Serves(rs[1], verb, path) && !Serves(rs[2], verb, path)
    requires Serves(rs[3], verb, path)
    ensures FirstServing(rs, verb, path) == Some(3)
  {
    ScanStep(rs, verb, path, 0);
    ScanStep(rs, verb, path, 1);
    ScanStep(rs, verb, path, 2);
    ScanStep(rs, verb, path, 3);
    assert rs[..0] == [];
    FirstServingPrefix(rs, verb, path, 4);
  }

  lemma NewFormDispatch(rs: seq<Route>, b: string, path: string, nf: Option<HttpHandler>, mna: Option<HttpHandler>)
    requires |rs| >= 2 && NormalizePath(path) == path
    requires rs[0].segments == [b] && rs[1].verb == "GET" && rs[1].segments == [b, "new"]
    requires Match([b], path).None? && Match([b, "new"], path) == Some(map[])
    ensures Dispatch(rs, nf, mna, "GET", path) == Dispatched(1, map[], Chain.Nest(rs[1].middleware, rs[1].handler))
  {
    assert !Serves(rs[0], "GET", path);
    assert Serves(rs[1], "GET", path);
    ServedSecond(rs, "GET", path);
    DispatchAt(rs, nf, mna, "GET", path, 1);
  }

  lemma NewFormMatches(b: string, path: string)
    requires PlainSegment(b) && path == "/" + Join([b, "new"], "/")
    ensures Match([b], path).None?
    ensures Match([b, "new"], path) == Some(map[])
  {
    NewFormMissesCollection(b, path);
    NewFormHitsNew(b, path);
  }

  lemma NewFormMissesCollection(b: string, path: string)
    requires PlainSegment(b) && path == "/" + Join([b, "new"], "/")
    ensures Match([b], path).None?
  {
    var parts := [b, "new"];
    assert CleanPart(parts[0]) && CleanPart(parts[1]);
    OneSegmentMissesTwoParts(b, parts, path);
  }

  lemma NewFormHitsNew(b: string, path: string)
    requires PlainSegment(b) && path == "/" + Join([b, "new"], "/")
    ensures Match([b, "new"], path) == Some(map[])
  {
    var segs := [b, "new"];
    assert PlainSegment(segs[1]);
    LiteralsMatchThemselves(segs, path);
  }

  lemma OneSegmentMissesTwoParts(b: string, parts: seq<string>, path: string)
    requires |parts| == 2 && CleanPart(parts[0]) && CleanPart(parts[1]) && path == "/" + Join(parts, "/")
    ensures Match([b], path).None?
  {
    MatchCleanPath([b], parts);
  }

  /** A path whose parts are the pattern's own literal segments matches it and captures nothing. */
  lemma LiteralsMatchThemselves(segs: seq<string>, path: string)
    requires |segs| >= 1 && path == "/" + Join(segs, "/")
    requires forall i :: 0 <= i < |segs| ==> PlainSegment(segs[i])
    ensures Match(segs, path) == Some(map[])
  {
    MatchCleanPath(segs, segs);
    assert AllAccept(segs, segs);
    BindNoParams(segs, segs);
  }

  lemma {:induction false} BindNoParams(segs: seq<string>, parts: seq<string>)
    requires |segs| == |parts| && forall i :: 0 <= i < |segs| ==> !IsParam(segs[i])
    ensures Bind(segs, parts) == map[]
  {
    if |segs| > 0 {
      var n := |segs| - 1;
      BindNoParams(segs[..n], parts[..n]);
    }
  }

  /** GET /base/<id> runs Show with "id" bound, for any clean id other than "new". */
  lemma ResourcesShowBindsId(b: string, c: nat, id: string, nf: Option<HttpHandler>, mna: Option<HttpHandler>)
    requires PlainSegment(b) && CleanPart(id) && id != "new"
    ensures Dispatch(ResourceRoutes(b, c), nf, mna, "GET", "/" + b + "/" + id)
         == Dispatched(3, map["id" := id], Chain.Base(ControllerAction(c, Show)))
  {
    MemberPath(b, id);
    IndexRoute(b, c);
    NewFormRoute(b, c);
    CreateRoute(b, c);
    ShowRoute(b, c);
    ShowDispatch(ResourceRoutes(b, c), b, id, "/" + b + "/" + id, nf, mna);
  }

  /** "/base/<id>" is already normal, misses the collection and new-form patterns and binds "id" in the member pattern. */
  lemma MemberPath(b: string, id: string)
    requires PlainSegment(b) && CleanPart(id) && id != "new"
    ensures var path := "/" + b + "/" + id;
      NormalizePath(path) == path && Match([b], path).None? && Match([b, "new"], path).None? &&
      Match([b, ":id"], path) == Some(map["id" := id])
  {
    var path := "/" + b + "/" + id;
    assert path == "/" + Join([b, id], "/") by {
      assert Join([b, id], "/") == b + "/" + id;
    }
    NormalizeCleanPath([b, id]);
    ShowMatches(b, id, path);
  }

  lemma ShowDispatch(rs: seq<Route>, b: string, id: string, path: string, nf: Option<HttpHandler>, mna: Option<HttpHandler>)
    requires |rs| >= 4 && NormalizePath(path) == path
    requires rs[0].segments == [b] && rs[1].segments == [b, "new"] && rs[2].segments == [b]
    requires rs[3].verb == "GET" && rs[3].segments == [b, ":id"]
    requires Match([b], path).None? && Match([b, "new"], path).None? && Match([b, ":id"], path) == Some(map["id" := id])
    ensures Dispatch(rs, nf, mna, "GET", path) == Dispatched(3, map["id" := id], Chain.Nest(rs[3].middleware, rs[3].handler))
  {
    assert !Serves(rs[0], "GET", path) && !Serves(rs[1], "GET", path) && !Serves(rs[2], "GET", path);
    assert Serves(rs[3], "GET", path);
    ServedFourth(rs, "GET", path);
    DispatchAt(rs, nf, mna, "GET", path, 3);
  }

  lemma ShowMatches(b: string, id: string, path: string)
    requires PlainSegment(b) && CleanPart(id) && id != "new" && path == "/" + Join([b, id], "/")
    ensures Match([b], path).None?
    ensures Match([b, "new"], path).None?
    ensures Match([b, ":id"], path) == Some(map["id" := id])
  {
    OneSegmentMissesTwoParts(b, [b, id], path);
    LiteralMissesOther(b, id, path);
    MemberBindsId(b, id, path);
  }

  /** "new" is a literal segment; ":id" is the parameter "id". */
  lemma PatternLiterals()
    ensures !IsParam("new") && IsParam(":id") && ParamName(":id") == "id"
  {
    assert "new"[..1] == "n";
    assert ":id"[..1] == ":" && ":id"[1..] == "id";
  }

  lemma LiteralMissesOther(b: string, id: string, path: string)
    requires CleanPart(b) && CleanPart(id) && id != "new" && path == "/" + Join([b, id], "/")
    ensures Match([b, "new"], path).None?
  {
    PatternLiterals();
    MatchCleanPath([b, "new"], [b, id]);
    assert !SegmentAccepts("new", id);
  }

  lemma MemberBindsId(b: string, id: string, path: string)
    requires PlainSegment(b) && CleanPart(id) && path == "/" + Join([b, id], "/")
    ensures Match([b, ":id"], path) == Some(map["id" := id])
  {
    var parts := [b, id];
    PatternLiterals();
    MatchCleanPath([b, ":id"], parts);
    assert AllAccept([b, ":id"], parts);
    assert Bind([b, ":id"], parts) == map["id" := id] by {
      assert [b, ":id"][..1] == [b] && parts[..1] == [b];
      assert Bind([b], [b]) == map[];
    }
  }

  // ---------------------------------------------------------------------------
  // URL

  /** The first route registered under `name` (an empty name finds the first unnamed route). */
  function FindNamed(routes: seq<Route>, name: string): (r: Option<nat>)
    ensures r.Some? ==> r.value < |routes| && routes[r.value].name == name
    ensures r.Some? ==> forall j :: 0 <= j < r.value ==> routes[j].name != name
    ensures r.None? <==> !NameInUse(routes, name)
  {
    if |routes| == 0 then None
    else if routes[0].name == name then Some(0)
    else
      match FindNamed(routes[1..], name)
      case None =>
        assert forall j :: 1 <= j < |routes| ==> routes[j] == routes[1..][j - 1];
        None
      case Some(k) => Some(k + 1)
  }

  /** The path parts of a pattern with parameters substituted; a missing key fails with the first such key. */
  function Substitute(segs: seq<string>, params: map<string, string>, escape: string -> string)
    : Result<seq<string>, string>
  {
    if |segs| == 0 then Success([])
    else
      match Substitute(segs[..|segs| - 1], params, escape)
      case Failure(k) => Failure(k)
      case Success(ps) =>
        var s := segs[|segs| - 1];
        if IsParam(s) then
          (if ParamName(s) in params then Success(ps + [escape(params[ParamName(s)])]) else Failure(ParamName(s)))
        else Success(ps + [s])
  }

  /** The reference meaning of URL. */
  function BuildUrl(routes: seq<Route>, name: string, params: map<string, string>, escape: string -> string)
    : Result<string, UrlError>
  {
    match FindNamed(routes, name)
    case None => Failure(UnknownRoute(name))
    case Some(i) => UrlFor(routes[i].segments, name, params, escape)
  }

  /** The URL of one route's segments: "/" for the root pattern, else the filled segments joined by '/'. */
  function UrlFor(segs: seq<string>, name: string, params: map<string, string>, escape: string -> string)
    : Result<string, UrlError>
  {
    if |segs| == 0 then Success("/")
    else
      match Substitute(segs, params, escape)
      case Failure(k) => Failure(MissingParam(k, name))
      case Success(parts) => Success("/" + Join(parts, "/"))
  }

  /** The first route carrying a name is the one FindNamed reports. */
  lemma FindNamedAt(routes: seq<Route>, name: string, i: nat)
    requires i < |routes| && routes[i].name == name
    requires forall j :: 0 <= j < i ==> routes[j].name != name
    ensures FindNamed(routes, name) == Some(i)
  {
    assert NameInUse(routes, name);
  }

  /** The segment loop of URL: parameters are looked up and escaped, literals kept, a missing key stops it. */
  method FillPattern(segs: seq<string>, name: string, params: map<string, string>, escape: string -> string)
    returns (r: Result<string, UrlError>)
    ensures r == UrlFor(segs, name, params, escape)
  {
    if |segs| == 0 {
      return Success("/");
    }
    var parts: seq<string> := [];
    var k := 0;
    while k < |segs|
      invariant 0 <= k <= |segs|
      invariant Substitute(segs[..k], params, escape) == Success(parts)
    {
      var s := segs[k];
      assert segs[..k + 1][..k] == segs[..k];
      if HasPrefix(s, ":") {
        var key := TrimPrefix(s, ":");
        if key !in params {
          SubstitutePrefixFailure(segs, k + 1, params, escape);
          return Failure(MissingParam(key, name));
        }
        parts := parts + [escape(params[key])];
      } else {
        parts := parts + [s];
      }
      k := k + 1;
    }
    assert segs[..k] == segs;
    return Success("/" + Join(parts, "/"));
  }

  predicate HasAllParams(segs: seq<string>, params: map<string, string>) {
    forall i :: 0 <= i < |segs| && IsParam(segs[i]) ==> ParamName(segs[i]) in params
  }

  /**
   * Substitution succeeds exactly when every parameter key is supplied; then
   * literals pass through and each ":key" becomes the escaped value, position
   * by position. Otherwise it names the first missing key.
   */
  lemma {:induction false} SubstituteSpec(segs: seq<string>, params: map<string, string>, escape: string -> string)
    ensures var r := Substitute(segs, params, escape);
      (r.Success? <==> HasAllParams(segs, params)) &&
      (r.Success? ==> |r.value| == |segs| && forall i :: 0 <= i < |segs| ==>
         r.value[i] == (if IsParam(segs[i]) then escape(params[ParamName(segs[i])]) else segs[i])) &&
      (r.Failure? ==> (exists i :: 0 <= i < |segs| && IsParam(segs[i]) && ParamName(segs[i]) == r.error &&
                                    r.error !in params && HasAllParams(segs[..i], params)))
  {
    if |segs| > 0 {
      var n := |segs| - 1;
      var pre := segs[..n];
      SubstituteSpec(pre, params, escape);
      assert forall i :: 0 <= i < n ==> segs[i] == pre[i];
      var r0 := Substitute(pre, params, escape);
      if r0.Failure? {
        var i :| 0 <= i < n && IsParam(pre[i]) && ParamName(pre[i]) == r0.error && r0.error !in params && HasAllParams(pre[..i], params);
        assert pre[..i] == segs[..i];
      } else if IsParam(segs[n]) && ParamName(segs[n]) !in params {
        assert segs[..n] == pre;
      }
    }
  }

  /** A failure propagates from a prefix of the segments to the whole pattern. */
  lemma {:induction false} SubstitutePrefixFailure(segs: seq<string>, k: int, params: map<string, string>, escape: string -> string)
    requires 0 <= k <= |segs| && Substitute(segs[..k], params, escape).Failure?
    ensures Substitute(segs, params, escape) == Substitute(segs[..k], params, escape)
    decreases |segs| - k
  {
    if k < |segs| {
      assert segs[..k + 1][..k] == segs[..k];
      SubstitutePrefixFailure(segs, k + 1, params, escape);
    } else {
      assert segs[..k] == segs;
    }
  }

  /**
   * Reverse routing agrees with matching: when every segment is a clean part,
   * every parameter is supplied, and every escaped value is a clean part, the
   * built URL matches its own route and captures, under each parameter name,
   * the escaped value that was put there.
   */
  lemma UrlMatchesItsRoute(segs: seq<string>, params: map<string, string>, escape: string -> string)
    requires |segs| >= 1 && HasAllParams(segs, params)
    requires forall i :: 0 <= i < |segs| ==> CleanPart(segs[i])
    requires forall i :: 0 <= i < |segs| && IsParam(segs[i]) ==>
      ParamName(segs[i]) != "" && CleanPart(escape(params[ParamName(segs[i])]))
    ensures Substitute(segs, params, escape).Success?
    ensures var r := Match(segs, "/" + Join(Substitute(segs, params, escape).value, "/"));
      r.Some? &&
      forall i :: 0 <= i < |segs| && IsParam(segs[i]) ==>
        ParamName(segs[i]) in r.value && r.value[ParamName(segs[i])] == escape(params[ParamName(segs[i])])
  {
    SubstituteSpec(segs, params, escape);
    var parts := Substitute(segs, params, escape).value;
    assert forall i :: 0 <= i < |parts| ==> CleanPart(parts[i]);
    MatchCleanPath(segs, parts);
    assert AllAccept(segs, parts);
    BindRecovers(segs, parts, params, escape);
  }

  lemma BindRecovers(segs: seq<string>, parts: seq<string>, params: map<string, string>, escape: string -> string)
    requires |segs| == |parts| && HasAllParams(segs, params)
    requires forall i :: 0 <= i < |segs| && IsParam(segs[i]) ==> parts[i] == escape(params[ParamName(segs[i])])
    ensures forall i :: 0 <= i < |segs| && IsParam(segs[i]) ==>
      ParamName(segs[i]) in Bind(segs, parts) && Bind(segs, parts)[ParamName(segs[i])] == escape(params[ParamName(segs[i])])
  {
    forall i | 0 <= i < |segs| && IsParam(segs[i])
      ensures ParamName(segs[i]) in Bind(segs, parts) && Bind(segs, parts)[ParamName(segs[i])] == escape(params[ParamName(segs[i])])
    {
      var last := LastWithName(segs, ParamName(segs[i]), i);
      BindValue(segs, parts, last);
    }
  }

  /** The last parameter segment at or after `i` that carries the name `k`. */
  function LastWithName(segs: seq<string>, k: string, i: int): (j: int)
    requires 0 <= i < |segs| && IsParam(segs[i]) && ParamName(segs[i]) == k
    ensures i <= j < |segs| && IsParam(segs[j]) && ParamName(segs[j]) == k
    ensures forall l :: j < l < |segs| && IsParam(segs[l]) ==> ParamName(segs[l]) != k
    decreases |segs| - i
  {
    if exists l :: i < l < |segs| && IsParam(segs[l]) && ParamName(segs[l]) == k then
      var l :| i < l < |segs| && IsParam(segs[l]) && ParamName(segs[l]) == k;
      LastWithName(segs, k, l)
    else i
  }

  // ---------------------------------------------------------------------------
  // ParamsFromContext and Param

  /** What a request context may hold under the parameters key. */
  datatype ContextValue = NoValue | NilParams | Params(m: map<string, string>) | OtherType

  /** The parameters stored on a context; an absent context, value, nil map or other type gives the empty map. */
  function ParamsFromContext(ctx: Option<ContextValue>): (m: map<string, string>)
    ensures m != map[] ==> ctx.Some? && ctx.value.Params? && m == ctx.value.m
    ensures ctx.Some? && ctx.value.Params? ==> m == ctx.value.m
  {
    if ctx.Some? && ctx.value.Params? then ctx.value.m else map[]
  }

  /** One parameter, or "" when it is absent. */
  function Param(ctx: Option<ContextValue>, name: string): (v: string)
    ensures v != "" ==> name in ParamsFromContext(ctx)
    ensures name in ParamsFromContext(ctx) ==> v == ParamsFromContext(ctx)[name]
    ensures name !in ParamsFromContext(ctx) ==> v == ""
  {
    var m := ParamsFromContext(ctx);
    if name in m then m[name] else ""
  }

  /**
   * After any dispatch, a handler that reads a parameter of the dispatched
   * route from the context gets the request path's part in that segment's
   * position (the last segment carrying the name, when it repeats).
   */
  lemma DispatchParam(routes: seq<Route>, nf: Option<HttpHandler>, mna: Option<HttpHandler>, verb: string, raw: string,
                      k: nat, i: nat)
    requires Dispatch(routes, nf, mna, verb, raw).Dispatched? && Dispatch(routes, nf, mna, verb, raw).index == k
    requires k < |routes| && i < |routes[k].segments| && IsParam(routes[k].segments[i])
    requires forall j :: i < j < |routes[k].segments| && IsParam(routes[k].segments[j]) ==>
      ParamName(routes[k].segments[j]) != ParamName(routes[k].segments[i])
    ensures var parts := Split(Trim(NormalizePath(raw), '/'), '/');
      var ctx := Some(Params(Dispatch(routes, nf, mna, verb, raw).params));
      |parts| == |routes[k].segments| && Param(ctx, ParamName(routes[k].segments[i])) == parts[i]
  {
    var path := NormalizePath(raw);
    var segs := routes[k].segments;
    var parts := Split(Trim(path, '/'), '/');
    DispatchWinner(routes, nf, mna, verb, raw);
    assert |parts| == |segs| && AllAccept(segs, parts);
    BindValue(segs, parts, i);
  }

  /** A name that no segment of the dispatched route declares reads as "". */
  lemma DispatchParamAbsent(routes: seq<Route>, nf: Option<HttpHandler>, mna: Option<HttpHandler>, verb: string, raw: string,
                            k: nat, name: string)
    requires Dispatch(routes, nf, mna, verb, raw).Dispatched? && Dispatch(routes, nf, mna, verb, raw).index == k
    requires k < |routes|
    requires forall j :: 0 <= j < |routes[k].segments| && IsParam(routes[k].segments[j]) ==> ParamName(routes[k].segments[j]) != name
    ensures Param(Some(Params(Dispatch(routes, nf, mna, verb, raw).params)), name) == ""
  {
    var path := NormalizePath(raw);
    var segs := routes[k].segments;
    DispatchWinner(routes, nf, mna, verb, raw);
    if |segs| > 0 {
      var parts := Split(Trim(path, '/'), '/');
      assert |parts| == |segs|;
      BindKeys(segs, parts, name);
    }
  }

  /**
   * A table holding only GET "/base/:id": GET "/base/<id>" runs that route,
   * and the handler reads <id> for "id" from the parameters placed on the context.
   */
  lemma ParamRoute(b: string, id: string, h: HandlerFunc, nf: Option<HttpHandler>, mna: Option<HttpHandler>)
    requires PlainSegment(b) && CleanPart(id)
    ensures var d := Dispatch([NewRoute("GET", "/" + b + "/:id", h, "", [])], nf, mna, "GET", "/" + b + "/" + id);
      d.Dispatched? && d.index == 0 && Param(Some(Params(d.params)), "id") == id
  {
    var rt := NewRoute("GET", "/" + b + "/:id", h, "", []);
    var path := "/" + b + "/" + id;
    ParamRouteMatches(b, id, h);
    FirstServingAt([rt], "GET", path, 0);
    DispatchAt([rt], nf, mna, "GET", path, 0);
  }

  lemma ParamRouteMatches(b: string, id: string, h: HandlerFunc)
    requires PlainSegment(b) && CleanPart(id)
    ensures var rt := NewRoute("GET", "/" + b + "/:id", h, "", []);
      var path := "/" + b + "/" + id;
      rt.verb == "GET" && rt.segments == [b, ":id"] && NormalizePath(path) == path &&
      Match(rt.segments, path) == Some(map["id" := id])
  {
    SuffixLiterals();
    TwoSegmentPattern(b, ":id");
    StandardVerbs();
    ParamPath(b, id);
  }

  lemma ParamPath(b: string, id: string)
    requires PlainSegment(b) && CleanPart(id)
    ensures var path := "/" + b + "/" + id;
      NormalizePath(path) == path && Match([b, ":id"], path) == Some(map["id" := id])
  {
    TwoPartPath(b, id);
    MemberBindsId(b, id, "/" + Join([b, id], "/"));
    TwoPartNormal(b, id);
  }

  lemma TwoPartNormal(b: string, id: string)
    requires CleanPart(b) && CleanPart(id)
    ensures NormalizePath("/" + Join([b, id], "/")) == "/" + Join([b, id], "/")
  {
    var parts := [b, id];
    assert CleanPart(parts[0]) && CleanPart(parts[1]);
    NormalizeCleanPath(parts);
  }

  lemma TwoPartPath(b: string, id: string)
    ensures "/" + b + "/" + id == "/" + Join([b, id], "/")
  {
    JoinCons(b, [id], "/");
    assert Join([id], "/") == id;
  }

  // ---------------------------------------------------------------------------
  // The Router object

  class Router {
    var routes: seq<Route>
    var notFound: Option<HttpHandler>
    var methodNotAllowed: Option<HttpHandler>

    ghost predicate Valid()
      reads this
    {
      WellFormed(routes)
    }

    /** router.New: an empty table and the default 404 / 405 responses. */
    constructor ()
      ensures Valid() && routes == [] && notFound == None && methodNotAllowed == None
    {
      routes := [];
      notFound := None;
      methodNotAllowed := None;
    }

    method HandleWith(verb: string, pattern: string, h: HandlerFunc, mws: seq<Middleware>) returns (res: Outcome<Fatal>)
      requires Valid()
      modifies this`routes
      ensures Valid()
      ensures match Register(old(routes), verb, pattern, h, mws)
        case Success(t) => res == Pass && routes == t
        case Failure(e) => res == Fail(e) && routes == old(routes)
    {
      RegisterPreserves(routes, verb, pattern, h, mws);
      if !HasPrefix(pattern, "/") {
        return Fail(PatternWithoutLeadingSlash(pattern));
      }
      var segs := SplitPath(pattern);
      var rt := Route(ToUpper(verb), pattern, segs, h, "", mws);
      routes := routes + [rt];
      res := Pass;
    }

    method Handle(verb: string, pattern: string, h: HandlerFunc) returns (res: Outcome<Fatal>)
      requires Valid()
      modifies this`routes
      ensures Valid()
      ensures match Register(old(routes), verb, pattern, h, [])
        case Success(t) => res == Pass && routes == t
        case Failure(e) => res == Fail(e) && routes == old(routes)
    {
      res := HandleWith(verb, pattern, h, []);
    }

    method HandleNamedWith(name: string, verb: string, pattern: string, h: HandlerFunc, mws: seq<Middleware>)
      returns (res: Outcome<Fatal>)
      requires Valid()
      modifies this`routes
      ensures Valid()
      ensures match RegisterNamed(old(routes), name, verb, pattern, h, mws)
        case Success(t) => res == Pass && routes == t
        case Failure(e) => res == Fail(e) && routes == old(routes)
    {
      RegisterNamedPreserves(routes, name, verb, pattern, h, mws);
      if name == "" {
        return Fail(EmptyRouteName);
      }
      var i := 0;
      while i < |routes|
        invariant 0 <= i <= |routes|
        invariant forall j :: 0 <= j < i ==> routes[j].name != name
      {
        if routes[i].name == name {
          return Fail(DuplicateRouteName(name));
        }
        i := i + 1;
      }
      if !HasPrefix(pattern, "/") {
        return Fail(PatternWithoutLeadingSlash(pattern));
      }
      var segs := SplitPath(pattern);
      var rt := Route(ToUpper(verb), pattern, segs, h, name, mws);
      routes := routes + [rt];
      res := Pass;
    }

    method HandleNamed(name: string, verb: string, pattern: string, h: HandlerFunc) returns (res: Outcome<Fatal>)
      requires Valid()
      modifies this`routes
      ensures Valid()
      ensures match RegisterNamed(old(routes), name, verb, pattern, h, [])
        case Success(t) => res == Pass && routes == t
        case Failure(e) => res == Fail(e) && routes == old(routes)
    {
      res := HandleNamedWith(name, verb, pattern, h, []);
    }

    method Get(p: string, h: HandlerFunc) returns (res: Outcome<Fatal>)
      requires Valid()
      modifies this`routes
      ensures Valid()
      ensures match Register(old(routes), "GET", p, h, [])
        case Success(t) => res == Pass && routes == t
        case Failure(e) => res == Fail(e) && routes == old(routes)
    {
      res := Handle("GET", p, h);
    }

    method Post(p: string, h: HandlerFunc) returns (res: Outcome<Fatal>)
      requires Valid()
      modifies this`routes
      ensures Valid()
      ensures match Register(old(routes), "POST", p, h, [])
        case Success(t) => res == Pass && routes == t
        case Failure(e) => res == Fail(e) && routes == old(routes)
    {
      res := Handle("POST", p, h);
    }

    method Put(p: string, h: HandlerFunc) returns (res: Outcome<Fatal>)
      requires Valid()
      modifies this`routes
      ensures Valid()
      ensures match Register(old(routes), "PUT", p, h, [])
        case Success(t) => res == Pass && routes == t
        case Failure(e) => res == Fail(e) && routes == old(routes)
    {
      res := Handle("PUT", p, h);
    }

    method Patch(p: string, h: HandlerFunc) returns (res: Outcome<Fatal>)
      requires Valid()
      modifies this`routes
      ensures Valid()
      ensures match Register(old(routes), "PATCH", p, h, [])
        case Success(t) => res == Pass && routes == t
        case Failure(e) => res == Fail(e) && routes == old(routes)
    {
      res := Handle("PATCH", p, h);
    }

    method Delete(p: string, h: HandlerFunc) returns (res: Outcome<Fatal>)
      requires Valid()
      modifies this`routes
      ensures Valid()
      ensures match Register(old(routes), "DELETE", p, h, [])
        case Success(t) => res == Pass && routes == t
        case Failure(e) => res == Fail(e) && routes == old(routes)
    {
      res := Handle("DELETE", p, h);
    }

    /** Resources: an empty base is an error; otherwise the base is trimmed of '/' and the eight routes appended. */
    method Resources(base: string, c: nat) returns (res: Outcome<ResourcesError>)
      requires Valid()
      modifies this`routes
      ensures Valid()
      ensures base == "" ==> res == Fail(EmptyBase) && routes == old(routes)
      ensures base != "" ==> res == Pass && routes == old(routes) + ResourceRoutes(Trim(base, '/'), c)
    {
      if base == "" {
        return Fail(EmptyBase);
      }
      var b := Trim(base, '/');
      ghost var r0 := routes;
      CollectionRoutes(b, c);
      ghost var r1 := routes;
      MemberRoutes(b, c);
      AppendInTwo(CollectionRows(b, c), MemberRows(b, c), r0, r1, routes);
      res := Pass;
    }

    /** The index, new and create routes of Resources. */
    method CollectionRoutes(b: string, c: nat)
      requires Valid()
      modifies this`routes
      ensures Valid() && routes == old(routes) + CollectionRows(b, c)
    {
      LeadingSlash(b);
      SlashPrefixExtends("/" + b, "/new");
      ghost var r0 := routes;
      var r;
      r := Get("/" + b, ControllerAction(c, Index));
      ghost var r1 := routes;
      r := Get("/" + b + "/new", ControllerAction(c, New));
      ghost var r2 := routes;
      r := Post("/" + b, ControllerAction(c, Create));
      CollectionTail(b, c, r0, r1, r2, routes);
    }

    /** The show, edit, update and destroy routes of Resources, on the member pattern "/base/:id". */
    method MemberRoutes(b: string, c: nat)
      requires Valid()
      modifies this`routes
      ensures Valid() && routes == old(routes) + MemberRows(b, c)
    {
      ghost var rows := MemberRows(b, c);
      ghost var r0 := routes;
      MemberReadRoutes(b, c);
      ghost var r1 := routes;
      MemberWriteRoutes(b, c);
      assert rows == rows[..2] + rows[2..];
      AppendInTwo(rows[..2], rows[2..], r0, r1, routes);
    }

    /** Show and edit. */
    method MemberReadRoutes(b: string, c: nat)
      requires Valid()
      modifies this`routes
      ensures Valid() && routes == old(routes) + MemberRows(b, c)[..2]
    {
      var member := "/" + b + "/:id";
      LeadingSlash(b);
      SlashPrefixExtends("/" + b, "/:id");
      SlashPrefixExtends(member, "/edit");
      ghost var r0 := routes;
      var r;
      r := Get(member, ControllerAction(c, Show));
      ghost var r1 := routes;
      r := Get(member + "/edit", ControllerAction(c, Edit));
      MemberReadTail(b, c, r0, r1, routes);
    }

    /** Update (PUT and PATCH) and destroy. */
    method MemberWriteRoutes(b: string, c: nat)
      requires Valid()
      modifies this`routes
      ensures Valid() && routes == old(routes) + MemberRows(b, c)[2..]
    {
      var member := "/" + b + "/:id";
      LeadingSlash(b);
      SlashPrefixExtends("/" + b, "/:id");
      ghost var r0 := routes;
      var r;
      r := Put(member, ControllerAction(c, Update));
      ghost var r1 := routes;
      r := Patch(member, ControllerAction(c, Update));
      ghost var r2 := routes;
      r := Delete(member, ControllerAction(c, Destroy));
      MemberWriteTail(b, c, r0, r1, r2, routes);
    }

    /** ServeHTTP: the scan over the routes with the method-mismatch flag. */
    method ServeHTTP(reqMethod: string, reqPath: string) returns (d: Decision)
      ensures d == Dispatch(routes, notFound, methodNotAllowed, reqMethod, reqPath)
    {
      var path := NormalizePath(reqPath);
      var methodMismatch := false;
      var i := 0;
      while i < |routes|
        invariant 0 <= i <= |routes|
        invariant FirstServing(routes[..i], reqMethod, path) == None
        invariant methodMismatch == AnyShapeMatches(routes[..i], path)
      {
        var rt := routes[i];
        var ok, params := MatchRoute(rt.segments, path);
        ScanStep(routes, reqMethod, path, i);
        if ok {
          if rt.verb != reqMethod {
            methodMismatch := true;
          } else {
            ScanHit(routes, notFound, methodNotAllowed, reqMethod, reqPath, i);
            var final := Chain.Compose(rt.middleware, rt.handler);
            return Dispatched(i, params, final);
          }
        }
        i := i + 1;
      }
      ScanMiss(routes, notFound, methodNotAllowed, reqMethod, reqPath);
      if methodMismatch {
        return MethodNotAllowed(methodNotAllowed);
      }
      return NotFound(notFound);
    }

    /** URL: the first route with the name, its segments substituted in order. */
    method URL(name: string, params: map<string, string>, escape: string -> string) returns (r: Result<string, UrlError>)
      ensures r == BuildUrl(routes, name, params, escape)
    {
      var i := 0;
      while i < |routes|
        invariant 0 <= i <= |routes|
        invariant forall j :: 0 <= j < i ==> routes[j].name != name
      {
        if routes[i].name == name {
          FindNamedAt(routes, name, i);
          r := FillPattern(routes[i].segments, name, params, escape);
          return;
        }
        i := i + 1;
      }
      return Failure(UnknownRoute(name));
    }
  }
}
