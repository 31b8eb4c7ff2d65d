/**
 * The view manager of pkg/flow/view.go: templates are looked up by name
 * below a template directory, parsed together with the layouts, partials
 * and shared helpers, and cached by name unless development mode is on.
 *
 * The file system is a set of existing paths (os.Stat) and a glob function
 * returning sorted matches (filepath.Glob); template parsing is an opaque
 * function of the root template name, the function map and the file list.
 */
module FlowView {
  import opened Wrappers
  import opened Text

  /** A parsed template set: an opaque label and the names of the templates it defines. */
  datatype Tmpl = Tmpl(id: nat, defines: set<string>)

  /** template.FuncMap values are opaque labels; None is a nil map. */
  type FuncMap = nat

  /** The empty map literal NewViewManager installs. */
  const EmptyFuncMap: FuncMap := 0

  /** ParseFiles on a template named `root`, with the function map if non-nil. */
  type Parser = (string, Option<FuncMap>, seq<string>) -> Result<Tmpl, string>

  /** What the loader can see on disk. */
  datatype Disk = Disk(present: set<string>, glob: string -> seq<string>)

  datatype ViewError =
    | ViewNotFound(path: string)
    | ParseFailed(files: seq<string>, message: string)

  /** The fields of a ViewManager. */
  datatype ViewState = ViewState(
    templateDir: string,
    defaultLayout: string,
    funcMap: Option<FuncMap>,
    devMode: bool,
    cache: map<string, Tmpl>)

  /** NewViewManager: no layout, an empty function map, caching on, an empty cache. */
  function NewState(templateDir: string): ViewState {
    ViewState(templateDir, "", Some(EmptyFuncMap), false, map[])
  }

  // ---------------------------------------------------------------------------
  // loadTemplate

  function ViewPath(templateDir: string, name: string): string {
    Path([templateDir, name + ".html"])
  }

  /** The default layout if set and present; without a default layout, every .html file the glob finds in layouts. */
  function LayoutFiles(s: ViewState, disk: Disk): seq<string> {
    if s.defaultLayout != "" then
      var p := Path([s.templateDir, s.defaultLayout]);
      if p in disk.present then [p] else []
    else disk.glob(Path([s.templateDir, "layouts", "*.html"]))
  }

  function PartialGlob(s: ViewState): string {
    Path([s.templateDir, "partials", "*.html"])
  }

  function SharedGlob(s: ViewState): string {
    Path([s.templateDir, "shared", "*.html"])
  }

  /** The files parsed for a view, or the missing view file. */
  function Candidates(s: ViewState, name: string, disk: Disk): Result<seq<string>, ViewError> {
    var files := LayoutFiles(s, disk) + disk.glob(PartialGlob(s)) + disk.glob(SharedGlob(s));
    var view := ViewPath(s.templateDir, name);
    if view !in disk.present then Failure(ViewNotFound(view)) else Success(files + [view])
  }

  /** Loading without the cache: collect the candidates and parse them. */
  function Fresh(s: ViewState, name: string, disk: Disk, parse: Parser): Result<Tmpl, ViewError> {
    match Candidates(s, name, disk)
    case Failure(e) => Failure(e)
    case Success(files) =>
      match parse(Base(ViewPath(s.templateDir, name)), s.funcMap, files)
      case Failure(m) => Failure(ParseFailed(files, m))
      case Success(t) => Success(t)
  }

  /** The result of loadTemplate and the cache afterwards. */
  datatype Loaded = Loaded(result: Result<Tmpl, ViewError>, cache: map<string, Tmpl>)

  predicate Hit(s: ViewState, name: string) {
    !s.devMode && name in s.cache
  }

  /** loadTemplate: the cache first unless in development mode; a fresh parse is stored unless in development mode. */
  function Load(s: ViewState, name: string, disk: Disk, parse: Parser): Loaded {
    if Hit(s, name) then Loaded(Success(s.cache[name]), s.cache)
    else
      var r := Fresh(s, name, disk, parse);
      if r.Success? && !s.devMode then Loaded(r, s.cache[name := r.value]) else Loaded(r, s.cache)
  }

  /** The template executed by Render: "content" if the set defines it, else the view file's base name. */
  function ExecName(t: Tmpl, name: string): string {
    if "content" in t.defines then "content" else Base(name) + ".html"
  }

  // ---------------------------------------------------------------------------
  // The setters

  function WithLayout(s: ViewState, layout: string): ViewState {
    s.(defaultLayout := layout, cache := map[])
  }

  function WithFuncMap(s: ViewState, m: Option<FuncMap>): ViewState {
    s.(funcMap := m, cache := map[])
  }

  function WithDevMode(s: ViewState, dev: bool): ViewState {
    s.(devMode := dev, cache := if dev then map[] else s.cache)
  }

  // ---------------------------------------------------------------------------
  // Properties

  /**
   * Outside development mode a cached name is served from the cache: the
   * files on disk and the parser are not consulted, and the cache stays.
   */
  lemma CachedIgnoresDisk(s: ViewState, name: string, d1: Disk, p1: Parser, d2: Disk, p2: Parser)
    requires !s.devMode && name in s.cache
    ensures Load(s, name, d1, p1) == Load(s, name, d2, p2) == Loaded(Success(s.cache[name]), s.cache)
  {
  }

  /**
   * A load changes the cache only by storing the freshly parsed template
   * under its name, and only outside development mode; a failed load leaves
   * the cache as it was.
   */
  lemma LoadCache(s: ViewState, name: string, disk: Disk, parse: Parser)
    ensures var r := Load(s, name, disk, parse);
      (r.result.Failure? ==> r.cache == s.cache) &&
      (s.devMode ==> r.cache == s.cache && r.result == Fresh(s, name, disk, parse)) &&
      (!Hit(s, name) ==> r.result == Fresh(s, name, disk, parse)) &&
      (r.cache != s.cache ==> !s.devMode && r.result.Success? && r.cache == s.cache[name := r.result.value])
  {
  }

  /**
   * Loading twice outside development mode gives the first result again,
   * whatever changed on disk in between: the template is re-parsed only
   * after a cache reset.
   */
  lemma LoadTwice(s: ViewState, name: string, d1: Disk, p1: Parser, d2: Disk, p2: Parser)
    requires !s.devMode
    ensures var r := Load(s, name, d1, p1);
      r.result.Success? ==> Load(s.(cache := r.cache), name, d2, p2) == Loaded(r.result, r.cache)
  {
  }

  /** Turning development mode on makes every following load parse the files again. */
  lemma DevModeReparses(s: ViewState, name: string, disk: Disk, parse: Parser)
    ensures var t := WithDevMode(s, true);
      Load(t, name, disk, parse) == Loaded(Fresh(t, name, disk, parse), map[])
  {
  }

  /** Turning development mode off keeps every cached template in service. */
  lemma DevModeOffKeeps(s: ViewState, name: string, disk: Disk, parse: Parser)
    requires name in s.cache
    ensures Load(WithDevMode(s, false), name, disk, parse).result == Success(s.cache[name])
  {
  }

  /** After SetFuncMap or SetDefaultLayout the next load parses again, with the new setting. */
  lemma SettersTakeEffect(s: ViewState, m: Option<FuncMap>, layout: string, name: string, disk: Disk, parse: Parser)
    ensures Load(WithFuncMap(s, m), name, disk, parse).result == Fresh(s.(funcMap := m), name, disk, parse)
    ensures Load(WithLayout(s, layout), name, disk, parse).result == Fresh(s.(defaultLayout := layout), name, disk, parse)
  {
    var f := WithFuncMap(s, m);
    var l := WithLayout(s, layout);
    assert !Hit(f, name) && !Hit(l, name);
    FreshOnSettings(f, s.(funcMap := m), name, disk, parse);
    FreshOnSettings(l, s.(defaultLayout := layout), name, disk, parse);
  }

  /** A fresh load depends only on the template directory, the default layout and the function map. */
  lemma FreshOnSettings(s: ViewState, t: ViewState, name: string, disk: Disk, parse: Parser)
    requires s.templateDir == t.templateDir && s.defaultLayout == t.defaultLayout && s.funcMap == t.funcMap
    ensures Fresh(s, name, disk, parse) == Fresh(t, name, disk, parse)
  {
    assert LayoutFiles(s, disk) == LayoutFiles(t, disk);
    assert PartialGlob(s) == PartialGlob(t) && SharedGlob(s) == SharedGlob(t);
    assert Candidates(s, name, disk) == Candidates(t, name, disk);
  }

  /** A view whose file is missing is an error naming the file, and the cache does not change. */
  lemma MissingView(s: ViewState, name: string, disk: Disk, parse: Parser)
    requires !Hit(s, name) && ViewPath(s.templateDir, name) !in disk.present
    ensures Load(s, name, disk, parse) == Loaded(Failure(ViewNotFound(ViewPath(s.templateDir, name))), s.cache)
  {
  }

  /**
   * The candidate files: present exactly when the view file is, the view
   * file last; a present default layout first, and then the layouts glob is
   * not consulted; without a default layout the layouts come first, in glob
   * order, followed by the partials and the shared helpers.
   */
  lemma CandidatesOrder(s: ViewState, name: string, disk: Disk)
    ensures var r := Candidates(s, name, disk);
      var view := ViewPath(s.templateDir, name);
      var rest := disk.glob(PartialGlob(s)) + disk.glob(SharedGlob(s));
      (r.Success? <==> view in disk.present) &&
      (r.Success? ==> |r.value| > 0 && r.value[|r.value| - 1] == view) &&
      (r.Success? && s.defaultLayout != "" && Path([s.templateDir, s.defaultLayout]) in disk.present ==>
         r.value == [Path([s.templateDir, s.defaultLayout])] + rest + [view]) &&
      (r.Success? && s.defaultLayout == "" ==>
         r.value == disk.glob(Path([s.templateDir, "layouts", "*.html"])) + rest + [view])
  {
  }

  /** With a default layout set, what the layouts directory holds does not matter. */
  lemma LayoutOverridesGlob(s: ViewState, name: string, present: set<string>, g1: string -> seq<string>, g2: string -> seq<string>)
    requires s.defaultLayout != ""
    requires g1(PartialGlob(s)) == g2(PartialGlob(s)) && g1(SharedGlob(s)) == g2(SharedGlob(s))
    ensures Candidates(s, name, Disk(present, g1)) == Candidates(s, name, Disk(present, g2))
  {
  }

  /**
   * When the template set has no "content" template, Render executes the
   * template named after the view file, which is the name ParseFiles gives
   * the view's own template.
   */
  lemma ExecNameFallback(t: Tmpl, dir: string, name: string)
    requires "content" !in t.defines
    requires name != "" && name[|name| - 1] != '/'
    ensures ExecName(t, name) == Base(ViewPath(dir, name))
  {
    PathCons(dir, [name + ".html"]);
    assert (name + ".html")[|name + ".html"| - 1] == 'l';
    BaseBelow(dir, name + ".html");
    BaseAppend(name, ".html");
  }

  // ---------------------------------------------------------------------------
  // The ViewManager object

  class ViewManager {
    var templateDir: string
    var defaultLayout: string
    var funcMap: Option<FuncMap>
    var devMode: bool
    var cache: map<string, Tmpl>

    function State(): ViewState
      reads this
    {
      ViewState(templateDir, defaultLayout, funcMap, devMode, cache)
    }

    /** NewViewManager (view.go:36-38). */
    constructor (dir: string)
      ensures State() == NewState(dir)
    {
      templateDir := dir;
      defaultLayout := "";
      funcMap := Some(EmptyFuncMap);
      devMode := false;
      cache := map[];
    }

    /** The candidate list of loadTemplate (view.go:73-107), built by appending. */
    method CandidateFiles(name: string, disk: Disk) returns (res: Result<seq<string>, ViewError>)
      ensures res == Candidates(State(), name, disk)
    {
      var files: seq<string> := [];
      if defaultLayout != "" {
        var defPath := Path([templateDir, defaultLayout]);
        if defPath in disk.present {
          files := files + [defPath];
        }
      } else {
        var lays := disk.glob(Path([templateDir, "layouts", "*.html"]));
        if |lays| > 0 {
          files := files + lays;
        }
        assert files == lays;
      }
      assert files == LayoutFiles(State(), disk);
      var parts := disk.glob(Path([templateDir, "partials", "*.html"]));
      if |parts| > 0 {
        files := files + parts;
      }
      assert files == LayoutFiles(State(), disk) + parts;
      var sh := disk.glob(Path([templateDir, "shared", "*.html"]));
      if |sh| > 0 {
        files := files + sh;
      }
      assert files == LayoutFiles(State(), disk) + parts + sh;
      var viewPath := Path([templateDir, name + ".html"]);
      if viewPath !in disk.present {
        return Failure(ViewNotFound(viewPath));
      }
      files := files + [viewPath];
      res := Success(files);
    }

    /** loadTemplate (view.go:62-125). */
    method LoadTemplate(name: string, disk: Disk, parse: Parser) returns (res: Result<Tmpl, ViewError>)
      modifies this
      ensures Loaded(res, cache) == Load(old(State()), name, disk, parse)
      ensures State() == old(State()).(cache := cache)
    {
      if !devMode && name in cache {
        return Success(cache[name]);
      }
      var files := CandidateFiles(name, disk);
      if files.Failure? {
        return Failure(files.error);
      }
      var viewPath := Path([templateDir, name + ".html"]);
      var parsed := parse(Base(viewPath), funcMap, files.value);
      if parsed.Failure? {
        return Failure(ParseFailed(files.value, parsed.error));
      }
      if !devMode {
        cache := cache[name := parsed.value];
      }
      res := Success(parsed.value);
    }

    /** Render (view.go:43-60): the loaded template set and the template it executes. */
    method Render(name: string, disk: Disk, parse: Parser) returns (res: Result<(Tmpl, string), ViewError>)
      modifies this
      ensures var l := Load(old(State()), name, disk, parse);
        cache == l.cache &&
        res == (if l.result.Failure? then Failure(l.result.error) else Success((l.result.value, ExecName(l.result.value, name))))
      ensures State() == old(State()).(cache := cache)
    {
      var tpl := LoadTemplate(name, disk, parse);
      if tpl.Failure? {
        return Failure(tpl.error);
      }
      var execName := "content";
      if execName !in tpl.value.defines {
        execName := Base(name) + ".html";
      }
      res := Success((tpl.value, execName));
    }

    /** SetDefaultLayout (view.go:128-137). */
    method SetDefaultLayout(layout: string)
      modifies this
      ensures State() == WithLayout(old(State()), layout)
    {
      defaultLayout := layout;
      cache := map[];
    }

    /** SetFuncMap (view.go:141-149). */
    method SetFuncMap(m: Option<FuncMap>)
      modifies this
      ensures State() == WithFuncMap(old(State()), m)
    {
      funcMap := m;
      cache := map[];
    }

    /** SetDevMode (view.go:153-164). */
    method SetDevMode(dev: bool)
      modifies this
      ensures State() == WithDevMode(old(State()), dev)
    {
      devMode := dev;
      if dev {
        cache := map[];
      }
    }
  }
}
