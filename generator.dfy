/**
 * The code generator (internal/generator/generator.go): the text it
 * assembles for a model's struct fields and migration columns, the index
 * statements and migration file names of a scaffold, the order of the
 * scaffold's list of created paths, and generateFile's refusal to overwrite
 * an existing file.
 *
 * The file system is a map from path to contents. Directories are not
 * modelled (creating one always succeeds), templates are opaque (a
 * `Renderer` turns a template and its data map into text or an error), and
 * filepath.Join is joining with "/". strings.Title is the parameter
 * `titleCase`, the field parser's title-casing the parameter `title`, and
 * the migration timestamp the parameter `ts`.
 */
module Generator {
  import opened Wrappers
  import opened Text
  import opened Fields
  import Migrations

  /** The command-line switches: --force, --skip-migrations, --no-views. */
  datatype GenOptions = GenOptions(force: bool, skipMigrations: bool, noViews: bool)

  /** The options of GenerateController, GenerateModel and GenerateScaffold without "WithOptions". */
  const NoOptions: GenOptions := GenOptions(false, false, false)

  /** The templates the generator renders. */
  datatype Template =
    | ControllerTmpl | ModelTmpl
    | ViewIndexTmpl | ViewShowTmpl | ViewNewTmpl | ViewEditTmpl
    | MigrationUpTmpl | MigrationDownTmpl

  /** A template's data: the string maps the Go code builds (nil for the views is the empty map). */
  type Data = map<string, string>

  /** Parsing and executing a template: its text, or the message of the error. */
  type Renderer = (Template, Data) -> Result<string, string>

  datatype GenError = FileExists(path: string) | TemplateFailed(message: string)

  /** The outcome of a write and the files afterwards. */
  datatype Written = Written(outcome: Outcome<GenError>, files: map<string, string>)

  // ---------------------------------------------------------------------------
  // generateFile

  /**
   * generateFile: without overwrite an existing destination is an error and
   * nothing is written; otherwise the rendered text replaces or creates the
   * destination, and a template error writes nothing.
   */
  function Generated(files: map<string, string>, t: Template, data: Data, dst: string, overwrite: bool, render: Renderer): Written {
    if !overwrite && dst in files then Written(Fail(FileExists(dst)), files)
    else
      match render(t, data)
      case Failure(m) => Written(Fail(TemplateFailed(m)), files)
      case Success(text) => Written(Pass, files[dst := text])
  }

  /** Every file present before is still there with the same contents. */
  predicate Keeps(before: map<string, string>, after: map<string, string>) {
    forall p :: p in before ==> p in after && after[p] == before[p]
  }

  /** The files after a write differ from the files before at most at `dst`. */
  ghost predicate OnlyAt(before: map<string, string>, after: map<string, string>, dst: string) {
    forall p :: p != dst ==> (p in after <==> p in before) && (p in after ==> after[p] == before[p])
  }

  /** An existing file is never replaced without overwrite: the call fails with "file exists" and changes nothing. */
  lemma NoOverwrite(files: map<string, string>, t: Template, data: Data, dst: string, render: Renderer)
    requires dst in files
    ensures Generated(files, t, data, dst, false, render) == Written(Fail(FileExists(dst)), files)
  {
  }

  /**
   * A write succeeds exactly when overwriting is allowed or the destination
   * is new, and the template renders; then the destination holds the
   * rendered text. No other path is touched, and without overwrite no
   * existing file changes.
   */
  lemma GeneratedWrites(files: map<string, string>, t: Template, data: Data, dst: string, overwrite: bool, render: Renderer)
    ensures var w := Generated(files, t, data, dst, overwrite, render);
      (w.outcome.Pass? <==> (overwrite || dst !in files) && render(t, data).Success?) &&
      (w.outcome.Pass? ==> dst in w.files && w.files[dst] == render(t, data).value) &&
      (w.outcome.Fail? ==> w.files == files) &&
      OnlyAt(files, w.files, dst) &&
      (!overwrite ==> Keeps(files, w.files))
  {
  }

  /** Keeping existing files composes. */
  lemma KeepsTrans(a: map<string, string>, b: map<string, string>, c: map<string, string>)
    requires Keeps(a, b) && Keeps(b, c)
    ensures Keeps(a, c)
  {
  }

  // ---------------------------------------------------------------------------
  // Model struct fields and migration columns

  /** The json tag of a field: its name, with ",omitempty" when nullable. */
  function JsonTag(fs: FieldSpec): string {
    if fs.nullable then fs.name + ",omitempty" else fs.name
  }

  /** One struct field of the model: Go name, Go type, and the bun and json tags. */
  function StructLine(fs: FieldSpec): string {
    "    " + fs.goName + " " + fs.goType + " `bun:\"" + fs.name + "\" json:\"" + JsonTag(fs) + "\"`"
  }

  /** The start of a column line: four spaces, the column name and its SQL type. */
  function ColumnHead(fs: FieldSpec): string {
    "    " + fs.name + " " + fs.sqlType
  }

  function NotNullClause(fs: FieldSpec): string {
    if !fs.nullable then " NOT NULL" else ""
  }

  function DefaultClause(fs: FieldSpec): string {
    if fs.defaultValue.Some? then " DEFAULT " + fs.defaultValue.value else ""
  }

  function UniqueClause(fs: FieldSpec): string {
    if fs.unique then " UNIQUE" else ""
  }

  /** The column clauses in their fixed order: NOT NULL, DEFAULT, UNIQUE. */
  function ColumnLine(fs: FieldSpec): string {
    ColumnHead(fs) + NotNullClause(fs) + DefaultClause(fs) + UniqueClause(fs)
  }

  /** The column line of generator.go:95-105 (and again 194-204), built clause by clause. */
  method BuildColumnLine(fs: FieldSpec) returns (colLine: string)
    ensures colLine == ColumnLine(fs)
  {
    colLine := ColumnHead(fs);
    if !fs.nullable {
      colLine := colLine + " NOT NULL";
    }
    assert colLine == ColumnHead(fs) + NotNullClause(fs);
    if fs.defaultValue.Some? {
      colLine := colLine + (" DEFAULT " + fs.defaultValue.value);
    }
    assert colLine == ColumnHead(fs) + NotNullClause(fs) + DefaultClause(fs);
    if fs.unique {
      colLine := colLine + " UNIQUE";
    }
  }

  const TimeType: string := "time.Time"

  /** The test of generator.go:83 on a field's Go type. */
  predicate UsesTime(goType: string) {
    Contains(goType, TimeType) || Contains(goType, "*" + TimeType)
  }

  /** The lines of the fields, one per field, appended in field order. */
  function Lines(line: FieldSpec -> string, specs: seq<FieldSpec>): seq<string> {
    if |specs| == 0 then [] else Lines(line, specs[..|specs| - 1]) + [line(specs[|specs| - 1])]
  }

  function StructLines(specs: seq<FieldSpec>): seq<string> {
    Lines(StructLine, specs)
  }

  function ColumnLines(specs: seq<FieldSpec>): seq<string> {
    Lines(ColumnLine, specs)
  }

  /** Some field's Go type mentions time.Time. */
  predicate AnyTime(specs: seq<FieldSpec>) {
    |specs| > 0 && (AnyTime(specs[..|specs| - 1]) || UsesTime(specs[|specs| - 1].goType))
  }

  /** The struct fields, one per line, each line ended by a newline. */
  function FieldsCode(specs: seq<FieldSpec>): string {
    if |specs| == 0 then "" else Join(StructLines(specs), "\n") + "\n"
  }

  /** The columns after the id column: ",\n" then the lines joined by ",\n"; nothing without fields. */
  function ColumnsBlock(specs: seq<FieldSpec>): string {
    if |specs| == 0 then "" else ",\n" + Join(ColumnLines(specs), ",\n")
  }

  /** The extra import of the model file. */
  function ExtraImports(needTime: bool): string {
    if needTime then "\n    \"time\"" else ""
  }

  /**
   * The loop of generator.go:82-107 and the joins after it: struct lines,
   * column lines, and whether some Go type mentions time.Time.
   */
  method ModelParts(specs: seq<FieldSpec>) returns (fieldsCode: string, cols: string, extraImports: string)
    ensures fieldsCode == FieldsCode(specs) && cols == ColumnsBlock(specs)
    ensures extraImports == ExtraImports(AnyTime(specs))
  {
    var fieldsCodeLines: seq<string> := [];
    var columnsLines: seq<string> := [];
    var needTime := false;
    var i := 0;
    while i < |specs|
      invariant 0 <= i <= |specs|
      invariant fieldsCodeLines == StructLines(specs[..i]) && columnsLines == ColumnLines(specs[..i])
      invariant needTime == AnyTime(specs[..i])
    {
      var fs := specs[i];
      assert specs[..i + 1][..i] == specs[..i] && specs[..i + 1][i] == fs;
      if UsesTime(fs.goType) {
        needTime := true;
      }
      fieldsCodeLines := fieldsCodeLines + [StructLine(fs)];
      var colLine := BuildColumnLine(fs);
      columnsLines := columnsLines + [colLine];
      i := i + 1;
    }
    assert specs[..i] == specs;
    fieldsCode := if |fieldsCodeLines| > 0 then Join(fieldsCodeLines, "\n") + "\n" else "";
    cols := if |columnsLines| > 0 then ",\n" + Join(columnsLines, ",\n") else "";
    extraImports := ExtraImports(needTime);
  }

  /** One line per field, in field order. */
  lemma LinesPerField(specs: seq<FieldSpec>)
    ensures |StructLines(specs)| == |specs| && |ColumnLines(specs)| == |specs|
    ensures forall i :: 0 <= i < |specs| ==> StructLines(specs)[i] == StructLine(specs[i]) && ColumnLines(specs)[i] == ColumnLine(specs[i])
  {
    LinePerField(StructLine, specs);
    LinePerField(ColumnLine, specs);
  }

  lemma {:induction false} LinePerField(line: FieldSpec -> string, specs: seq<FieldSpec>)
    ensures |Lines(line, specs)| == |specs|
    ensures forall i :: 0 <= i < |specs| ==> Lines(line, specs)[i] == line(specs[i])
    decreases |specs|
  {
    if |specs| > 0 {
      var init := specs[..|specs| - 1];
      LinePerField(line, init);
      forall i | 0 <= i < |init|
        ensures Lines(line, specs)[i] == line(specs[i])
      {
        assert specs[i] == init[i];
      }
    }
  }

  /** The time import is added exactly when some field's Go type contains time.Time. */
  lemma {:induction false} AnyTimeExactly(specs: seq<FieldSpec>)
    ensures AnyTime(specs) <==> exists i :: 0 <= i < |specs| && Contains(specs[i].goType, TimeType)
    decreases |specs|
  {
    if |specs| > 0 {
      var init := specs[..|specs| - 1];
      AnyTimeExactly(init);
      UsesTimeExactly(specs[|specs| - 1].goType);
      if exists i :: 0 <= i < |specs| && Contains(specs[i].goType, TimeType) {
        var i :| 0 <= i < |specs| && Contains(specs[i].goType, TimeType);
        if i < |specs| - 1 {
          assert init[i] == specs[i];
        }
      }
      if exists i :: 0 <= i < |init| && Contains(init[i].goType, TimeType) {
        var i :| 0 <= i < |init| && Contains(init[i].goType, TimeType);
        assert specs[i] == init[i];
      }
    }
  }

  /** A column line starts with the name and SQL type, and NOT NULL follows exactly when the field is not nullable. */
  lemma ColumnNotNull(fs: FieldSpec)
    ensures var line := ColumnLine(fs);
      HasPrefix(line, ColumnHead(fs)) && (HasPrefix(line[|ColumnHead(fs)|..], " NOT NULL") <==> !fs.nullable)
  {
    var rest := DefaultClause(fs) + UniqueClause(fs);
    assert ColumnLine(fs) == ColumnHead(fs) + NotNullClause(fs) + rest;
    LayoutTail(DefaultClause(fs), UniqueClause(fs));
    LayoutHead(ColumnHead(fs), NotNullClause(fs), rest);
  }

  /**
   * After the NOT NULL clause comes DEFAULT with its value exactly when a
   * default is set; without one only the UNIQUE clause can follow.
   */
  lemma ColumnDefault(fs: FieldSpec)
    ensures var line := ColumnLine(fs);
      var at := |ColumnHead(fs)| + if fs.nullable then 0 else 9;
      at <= |line| &&
      (HasPrefix(line[at..], " DEFAULT ") <==> fs.defaultValue.Some?) &&
      (fs.defaultValue.Some? ==> HasPrefix(line[at..], " DEFAULT " + fs.defaultValue.value)) &&
      (fs.defaultValue.None? ==> line[at..] == if fs.unique then " UNIQUE" else "")
  {
    var lead := ColumnHead(fs) + NotNullClause(fs);
    var rest := DefaultClause(fs) + UniqueClause(fs);
    assert ColumnLine(fs) == lead + rest;
    assert (lead + rest)[|lead|..] == rest;
    LayoutTail(DefaultClause(fs), UniqueClause(fs));
  }

  /** A unique column's line ends in UNIQUE. */
  lemma ColumnUnique(fs: FieldSpec)
    ensures fs.unique ==> HasSuffix(ColumnLine(fs), " UNIQUE")
  {
    var lead := ColumnHead(fs) + NotNullClause(fs) + DefaultClause(fs);
    assert ColumnLine(fs) == lead + UniqueClause(fs);
    assert (lead + UniqueClause(fs))[|lead|..] == UniqueClause(fs);
  }

  /** The clauses after NOT NULL: DEFAULT, recognisable by its keyword, then UNIQUE. */
  lemma LayoutTail(d: string, u: string)
    requires d == "" || HasPrefix(d, " DEFAULT ")
    requires u == "" || u == " UNIQUE"
    ensures var rest := d + u;
      (HasPrefix(rest, " DEFAULT ") <==> d != "") && HasPrefix(rest, d) &&
      (d == "" ==> rest == u) && (u != "" ==> HasSuffix(rest, u)) &&
      (|rest| < 2 || rest[1] != 'N')
  {
    var rest := d + u;
    assert rest[..|d|] == d;
    assert rest[|d|..] == u;
    if d != "" {
      assert d[1] == d[..9][1] == 'D';
      assert rest[1] == d[1];
      ClauseStart(d, d, u, 'D');
    } else {
      assert rest == u;
      ClauseStart(d, " DEFAULT ", u, 'D');
    }
  }

  /** The head, then NOT NULL recognisable by its keyword, then the rest. */
  lemma LayoutHead(head: string, n: string, rest: string)
    requires n == "" || n == " NOT NULL"
    requires |rest| < 2 || rest[1] != 'N'
    ensures var line := head + n + rest;
      HasPrefix(line, head) && line[|head| + |n|..] == rest && HasSuffix(line, rest) &&
      (HasPrefix(line[|head|..], " NOT NULL") <==> n != "")
  {
    Suffixes(head, n, rest);
    ClauseStart(n, " NOT NULL", rest, 'N');
  }

  lemma SuffixTrans(a: string, b: string, c: string)
    requires HasSuffix(a, b) && HasSuffix(b, c)
    ensures HasSuffix(a, c)
  {
    assert a[|a| - |c|..] == b[|b| - |c|..];
  }

  /** The pieces of a + b + c: each starts where the previous ends. */
  lemma Suffixes(a: string, b: string, c: string)
    ensures var s := a + b + c;
      HasPrefix(s, a) && s[|a|..] == b + c && s[|a| + |b|..] == c && HasPrefix(s[|a|..], b) && HasSuffix(s, c)
  {
    var s := a + b + c;
    assert s[..|a|] == a;
    assert s[|a|..] == b + c;
    assert (b + c)[..|b|] == b;
  }

  /** An optional clause with a distinctive second character is recognised by its keyword. */
  lemma ClauseStart(clause: string, full: string, rest: string, key: char)
    requires clause == "" || clause == full
    requires |full| >= 9 && full[1] == key
    requires |rest| < 2 || rest[1] != key
    ensures HasPrefix(clause + rest, full[..9]) <==> clause != ""
    ensures clause != "" ==> HasPrefix(clause + rest, full)
  {
    var s := clause + rest;
    if clause != "" {
      assert s[..|full|] == full;
    } else if |s| >= 9 {
      assert s[1] != full[..9][1];
    }
  }

  /** No fields, no columns; otherwise the block starts a new column after the id. */
  lemma ColumnsBlockShape(specs: seq<FieldSpec>)
    ensures ColumnsBlock(specs) == "" <==> specs == []
    ensures specs != [] ==> HasPrefix(ColumnsBlock(specs), ",\n" + ColumnLine(specs[0]))
    ensures FieldsCode(specs) == "" <==> specs == []
  {
    if specs != [] {
      var lines := ColumnLines(specs);
      LinesPerField(specs);
      assert lines[0] == ColumnLine(specs[0]);
      JoinStarts(lines, ",\n");
    }
  }

  /** A join starts with its first part. */
  lemma JoinStarts(parts: seq<string>, sep: string)
    requires |parts| > 0
    ensures HasPrefix(Join(parts, sep), parts[0])
  {
    if |parts| > 1 {
      assert Join(parts, sep) == parts[0] + (sep + Join(parts[1..], sep));
    }
  }

  /** The second test of generator.go:83 adds nothing: "*time.Time" contains "time.Time". */
  lemma {:induction false} UsesTimeExactly(g: string)
    ensures UsesTime(g) <==> Contains(g, TimeType)
    decreases |g|
  {
    if Contains(g, "*" + TimeType) {
      if HasPrefix(g, "*" + TimeType) {
        assert g[1..][..|TimeType|] == g[1..|TimeType| + 1];
        assert HasPrefix(g[1..], TimeType);
        ContainsAtStart(g[1..], TimeType);
      } else {
        UsesTimeExactly(g[1..]);
      }
    }
  }

  lemma ContainsAtStart(s: string, sub: string)
    requires HasPrefix(s, sub)
    ensures Contains(s, sub)
  {
  }

  // ---------------------------------------------------------------------------
  // Index statements of the scaffold's migration

  function IndexName(table: string, name: string): string {
    "idx_" + table + "_" + name
  }

  function CreateIndex(table: string, name: string): string {
    "CREATE INDEX IF NOT EXISTS " + IndexName(table, name) + " ON " + table + "(" + name + ");"
  }

  function DropIndex(table: string, name: string): string {
    "DROP INDEX IF EXISTS " + IndexName(table, name) + ";"
  }

  /** The names of the indexed fields, in field order. */
  function Indexed(specs: seq<FieldSpec>): seq<string> {
    if |specs| == 0 then []
    else
      var last := specs[|specs| - 1];
      Indexed(specs[..|specs| - 1]) + if last.index then [last.name] else []
  }

  function CreateLines(table: string, names: seq<string>): seq<string> {
    if |names| == 0 then [] else CreateLines(table, names[..|names| - 1]) + [CreateIndex(table, names[|names| - 1])]
  }

  function DropLines(table: string, names: seq<string>): seq<string> {
    if |names| == 0 then [] else DropLines(table, names[..|names| - 1]) + [DropIndex(table, names[|names| - 1])]
  }

  /** Statements one per line, each ended by a newline; nothing without statements. */
  function Extras(lines: seq<string>): string {
    if |lines| == 0 then "" else Join(lines, "\n") + "\n"
  }

  /** The loop of generator.go:215-221 and the joins after it. */
  method IndexExtras(table: string, specs: seq<FieldSpec>) returns (extrasUp: string, extrasDown: string)
    ensures extrasUp == Extras(CreateLines(table, Indexed(specs)))
    ensures extrasDown == Extras(DropLines(table, Indexed(specs)))
  {
    var extrasUpLines: seq<string> := [];
    var extrasDownLines: seq<string> := [];
    var i := 0;
    while i < |specs|
      invariant 0 <= i <= |specs|
      invariant extrasUpLines == CreateLines(table, Indexed(specs[..i]))
      invariant extrasDownLines == DropLines(table, Indexed(specs[..i]))
    {
      var fs := specs[i];
      var next := specs[..i + 1];
      assert next[..|next| - 1] == specs[..i] && next[|next| - 1] == fs;
      assert Indexed(next) == Indexed(specs[..i]) + if fs.index then [fs.name] else [];
      if fs.index {
        var names := Indexed(specs[..i]) + [fs.name];
        assert names[..|names| - 1] == Indexed(specs[..i]);
        assert CreateLines(table, names) == CreateLines(table, Indexed(specs[..i])) + [CreateIndex(table, fs.name)];
        assert DropLines(table, names) == DropLines(table, Indexed(specs[..i])) + [DropIndex(table, fs.name)];
        extrasUpLines := extrasUpLines + [CreateIndex(table, fs.name)];
        extrasDownLines := extrasDownLines + [DropIndex(table, fs.name)];
      } else {
        assert Indexed(next) == Indexed(specs[..i]);
      }
      i := i + 1;
    }
    assert specs[..i] == specs;
    extrasUp := if |extrasUpLines| > 0 then Join(extrasUpLines, "\n") + "\n" else "";
    extrasDown := if |extrasDownLines| > 0 then Join(extrasDownLines, "\n") + "\n" else "";
  }

  /** A name is listed exactly when some field with that name is indexed. */
  lemma {:induction false} IndexedExactly(specs: seq<FieldSpec>, n: string)
    ensures n in Indexed(specs) <==> exists i :: 0 <= i < |specs| && specs[i].index && specs[i].name == n
    decreases |specs|
  {
    if |specs| > 0 {
      var init := specs[..|specs| - 1];
      IndexedExactly(init, n);
      if exists i :: 0 <= i < |specs| && specs[i].index && specs[i].name == n {
        var i :| 0 <= i < |specs| && specs[i].index && specs[i].name == n;
        if i < |specs| - 1 {
          assert init[i] == specs[i];
        }
      }
      if exists i :: 0 <= i < |init| && init[i].index && init[i].name == n {
        var i :| 0 <= i < |init| && init[i].index && init[i].name == n;
        assert specs[i] == init[i];
      }
    }
  }

  /** Field order is kept: the indexes of a + b are those of a, then those of b. */
  lemma {:induction false} IndexedAppend(a: seq<FieldSpec>, b: seq<FieldSpec>)
    ensures Indexed(a + b) == Indexed(a) + Indexed(b)
    decreases |b|
  {
    if |b| > 0 {
      var b0 := b[..|b| - 1];
      IndexedAppend(a, b0);
      var last := b[|b| - 1];
      assert (a + b)[..|a + b| - 1] == a + b0 && (a + b)[|a + b| - 1] == last;
      assert Indexed(a + b) == Indexed(a + b0) + if last.index then [last.name] else [];
      assert Indexed(b) == Indexed(b0) + if last.index then [last.name] else [];
    } else {
      assert a + b == a;
    }
  }

  /**
   * Every indexed field gets one CREATE INDEX and one DROP INDEX, at the
   * same position of the up and the down extras, naming the same index.
   */
  lemma {:induction false} IndexPairs(table: string, names: seq<string>)
    ensures |CreateLines(table, names)| == |names| && |DropLines(table, names)| == |names|
    ensures forall k :: 0 <= k < |names| ==>
      CreateLines(table, names)[k] == CreateIndex(table, names[k]) && DropLines(table, names)[k] == DropIndex(table, names[k])
    decreases |names|
  {
    if |names| > 0 {
      IndexPairs(table, names[..|names| - 1]);
    }
  }

  /** A DROP INDEX statement names one index only: different fields' statements differ. */
  lemma DropIndexNames(table: string, a: string, b: string)
    requires DropIndex(table, a) == DropIndex(table, b)
    ensures a == b
  {
    var pre := "DROP INDEX IF EXISTS idx_" + table + "_";
    assert DropIndex(table, a) == pre + a + ";";
    assert DropIndex(table, b) == pre + b + ";";
    assert |a| == |b|;
    assert a == (pre + a + ";")[|pre|..|pre| + |a|];
  }

  // ---------------------------------------------------------------------------
  // Migration file names

  /** The shared stem of the scaffold's migration pair: timestamp, "_create_", table. */
  function MigrationBase(ts: string, name: string): string {
    ts + "_create_" + TableName(name)
  }

  function UpName(ts: string, name: string): string {
    MigrationBase(ts, name) + Migrations.UpSuffix
  }

  function DownName(ts: string, name: string): string {
    MigrationBase(ts, name) + Migrations.DownSuffix
  }

  /**
   * The generated pair is what the migration runner pairs: the up file is
   * collected as an up file, its ledger key is the shared stem, and the
   * runner's down-file lookup for that key finds the generated down file.
   */
  lemma MigrationNamesPair(ts: string, name: string)
    ensures HasSuffix(UpName(ts, name), Migrations.UpSuffix) && !HasSuffix(DownName(ts, name), Migrations.UpSuffix)
    ensures Migrations.BaseOf(UpName(ts, name)) == MigrationBase(ts, name)
    ensures Migrations.BaseOf(UpName(ts, name)) + Migrations.DownSuffix == DownName(ts, name)
  {
    Migrations.MigrationPair(MigrationBase(ts, name));
  }

  // ---------------------------------------------------------------------------
  // Destinations and template data

  function ControllerPath(root: string, name: string): string {
    Path([root, "app", "controllers", name + "_controller.go"])
  }

  function ControllerData(name: string, titleCase: string -> string): Data {
    map["Package" := "controllers", "Controller" := titleCase(name) + "Controller", "Name" := name]
  }

  function ModelPath(root: string, name: string): string {
    Path([root, "app", "models", ToLower(name) + ".go"])
  }

  function ModelData(name: string, specs: seq<FieldSpec>, titleCase: string -> string): Data {
    map["Package" := "models", "Model" := titleCase(name), "FieldsCode" := FieldsCode(specs),
        "Columns" := ColumnsBlock(specs), "ExtraImports" := ExtraImports(AnyTime(specs))]
  }

  /** index, show, new and edit under app/views/<name>, in that order. */
  function ViewPaths(root: string, name: string): seq<string> {
    var dir := Path([root, "app", "views", name]);
    [Path([dir, "index.html"]), Path([dir, "show.html"]), Path([dir, "new.html"]), Path([dir, "edit.html"])]
  }

  function UpPath(root: string, ts: string, name: string): string {
    Path([Path([root, "db", "migrate"]), UpName(ts, name)])
  }

  function DownPath(root: string, ts: string, name: string): string {
    Path([Path([root, "db", "migrate"]), DownName(ts, name)])
  }

  function UpData(ts: string, table: string, specs: seq<FieldSpec>): Data {
    map["Timestamp" := ts, "Table" := table, "Columns" := ColumnsBlock(specs),
        "ExtrasUp" := Extras(CreateLines(table, Indexed(specs)))]
  }

  function DownData(ts: string, table: string, specs: seq<FieldSpec>): Data {
    map["Timestamp" := ts, "Table" := table, "ExtrasDown" := Extras(DropLines(table, Indexed(specs)))]
  }

  // ---------------------------------------------------------------------------
  // The scaffold

  /** Where the scaffold writes, and with which template and data. */
  datatype Targets = Targets(
    controller: string, controllerData: Data,
    model: string, modelData: Data,
    views: seq<(Template, string)>,
    up: string, upData: Data,
    down: string, downData: Data)

  function ViewTargets(root: string, name: string): seq<(Template, string)> {
    var p := ViewPaths(root, name);
    [(ViewIndexTmpl, p[0]), (ViewShowTmpl, p[1]), (ViewNewTmpl, p[2]), (ViewEditTmpl, p[3])]
  }

  /** The targets of GenerateScaffoldWithOptions for a name, its field specs and a timestamp. */
  function ScaffoldTargets(root: string, name: string, fields: seq<string>, ts: string,
                           titleCase: string -> string, title: string -> string): Targets
  {
    var specs := ParseAll(fields, title);
    var table := TableName(name);
    Targets(ControllerPath(root, name), ControllerData(name, titleCase),
            ModelPath(root, name), ModelData(name, specs, titleCase),
            ViewTargets(root, name),
            UpPath(root, ts, name), UpData(ts, table, specs),
            DownPath(root, ts, name), DownData(ts, table, specs))
  }

  function Paths(vs: seq<(Template, string)>): seq<string> {
    seq(|vs|, i requires 0 <= i < |vs| => vs[i].1)
  }

  /** The view files written one after the other, their errors ignored. */
  function ViewsWritten(files: map<string, string>, vs: seq<(Template, string)>, force: bool, render: Renderer): map<string, string> {
    if |vs| == 0 then files
    else
      var before := ViewsWritten(files, vs[..|vs| - 1], force, render);
      var last := vs[|vs| - 1];
      Generated(before, last.0, map[], last.1, force, render).files
  }

  /** The up file, then (if that succeeded) the down file. */
  function MigrationsWritten(files: map<string, string>, up: string, upData: Data, down: string, downData: Data,
                             force: bool, render: Renderer): Written
  {
    var w := Generated(files, MigrationUpTmpl, upData, up, force, render);
    if w.outcome.Fail? then w else Generated(w.files, MigrationDownTmpl, downData, down, force, render)
  }

  /** The created list, the error, and the files after GenerateScaffoldWithOptions. */
  datatype Scaffolded = Scaffolded(created: seq<string>, outcome: Outcome<GenError>, files: map<string, string>)

  function ScaffoldSpec(files: map<string, string>, t: Targets, opts: GenOptions, render: Renderer): Scaffolded {
    var c := Generated(files, ControllerTmpl, t.controllerData, t.controller, opts.force, render);
    if c.outcome.Fail? then Scaffolded([], c.outcome, c.files)
    else
      var m := Generated(c.files, ModelTmpl, t.modelData, t.model, opts.force, render);
      if m.outcome.Fail? then Scaffolded([t.controller], m.outcome, m.files)
      else AfterModel(m.files, t, opts, render)
  }

  /** The views and the migrations, once the controller and the model are written. */
  function AfterModel(files: map<string, string>, t: Targets, opts: GenOptions, render: Renderer): Scaffolded {
    var made := [t.controller, t.model] + if opts.noViews then [] else Paths(t.views);
    var v := if opts.noViews then files else ViewsWritten(files, t.views, opts.force, render);
    if opts.skipMigrations then Scaffolded(made, Pass, v)
    else
      var g := MigrationsWritten(v, t.up, t.upData, t.down, t.downData, opts.force, render);
      if g.outcome.Fail? then Scaffolded(made, g.outcome, g.files)
      else Scaffolded(made + [t.up, t.down], Pass, g.files)
  }

  /** What a successful scaffold lists: controller, model, the views unless NoViews, the migrations unless SkipMigrations. */
  function ScaffoldPlan(t: Targets, opts: GenOptions): seq<string> {
    [t.controller, t.model]
    + (if opts.noViews then [] else Paths(t.views))
    + (if opts.skipMigrations then [] else [t.up, t.down])
  }

  /**
   * The created list is always a prefix of the plan, in the plan's order,
   * and the scaffold succeeds exactly when it lists the whole plan.
   */
  lemma ScaffoldOrder(files: map<string, string>, t: Targets, opts: GenOptions, render: Renderer)
    ensures var r := ScaffoldSpec(files, t, opts, render);
      var plan := ScaffoldPlan(t, opts);
      |r.created| <= |plan| && r.created == plan[..|r.created|] &&
      (r.outcome.Pass? <==> r.created == plan)
  {
    var plan := ScaffoldPlan(t, opts);
    var made := [t.controller, t.model] + if opts.noViews then [] else Paths(t.views);
    var migs := if opts.skipMigrations then [] else [t.up, t.down];
    assert plan == made + migs;
    assert plan[..0] == [] && plan[..1] == [t.controller] && plan[..|made|] == made;
  }

  /** Writing views without overwrite keeps every existing file. */
  lemma {:induction false} ViewsKeep(files: map<string, string>, vs: seq<(Template, string)>, render: Renderer)
    ensures Keeps(files, ViewsWritten(files, vs, false, render))
    decreases |vs|
  {
    if |vs| > 0 {
      var before := ViewsWritten(files, vs[..|vs| - 1], false, render);
      var last := vs[|vs| - 1];
      ViewsKeep(files, vs[..|vs| - 1], render);
      GeneratedWrites(before, last.0, map[], last.1, false, render);
      KeepsTrans(files, before, ViewsWritten(files, vs, false, render));
    }
  }

  /** The files after differ from the files before only at paths listed in `ps`. */
  ghost predicate OnlyWithin(before: map<string, string>, after: map<string, string>, ps: seq<string>) {
    forall p :: p !in ps ==> (p in after <==> p in before) && (p in after ==> after[p] == before[p])
  }

  lemma OnlyWithinStep(a: map<string, string>, b: map<string, string>, c: map<string, string>, dst: string, ps: seq<string>)
    requires OnlyWithin(a, b, ps) && OnlyAt(b, c, dst) && dst in ps
    ensures OnlyWithin(a, c, ps)
  {
  }

  /** Writing views touches only the view paths. */
  lemma {:induction false} ViewsOnlyWithin(files: map<string, string>, vs: seq<(Template, string)>, force: bool,
                                           render: Renderer, ps: seq<string>)
    requires forall i :: 0 <= i < |vs| ==> vs[i].1 in ps
    ensures OnlyWithin(files, ViewsWritten(files, vs, force, render), ps)
    decreases |vs|
  {
    if |vs| > 0 {
      var before := ViewsWritten(files, vs[..|vs| - 1], force, render);
      var last := vs[|vs| - 1];
      ViewsOnlyWithin(files, vs[..|vs| - 1], force, render, ps);
      GeneratedWrites(before, last.0, map[], last.1, force, render);
      OnlyWithinStep(files, before, ViewsWritten(files, vs, force, render), last.1, ps);
    }
  }

  /**
   * A scaffold writes nothing outside its plan: with --no-views no view file
   * appears, with --skip-migrations no migration file appears, and every
   * other file is left as it was, whatever the outcome.
   */
  lemma ScaffoldTouchesOnlyPlan(files: map<string, string>, t: Targets, opts: GenOptions, render: Renderer)
    ensures OnlyWithin(files, ScaffoldSpec(files, t, opts, render).files, ScaffoldPlan(t, opts))
  {
    var plan := ScaffoldPlan(t, opts);
    assert t.controller in plan && t.model in plan;
    var c := Generated(files, ControllerTmpl, t.controllerData, t.controller, opts.force, render);
    GeneratedWrites(files, ControllerTmpl, t.controllerData, t.controller, opts.force, render);
    assert OnlyWithin(files, c.files, plan);
    if c.outcome.Pass? {
      var m := Generated(c.files, ModelTmpl, t.modelData, t.model, opts.force, render);
      GeneratedWrites(c.files, ModelTmpl, t.modelData, t.model, opts.force, render);
      OnlyWithinStep(files, c.files, m.files, t.model, plan);
      if m.outcome.Pass? {
        AfterModelOnlyPlan(files, m.files, t, opts, render);
      }
    }
  }

  lemma AfterModelOnlyPlan(files: map<string, string>, mf: map<string, string>, t: Targets, opts: GenOptions, render: Renderer)
    requires OnlyWithin(files, mf, ScaffoldPlan(t, opts))
    ensures OnlyWithin(files, AfterModel(mf, t, opts, render).files, ScaffoldPlan(t, opts))
  {
    var plan := ScaffoldPlan(t, opts);
    var v := if opts.noViews then mf else ViewsWritten(mf, t.views, opts.force, render);
    if !opts.noViews {
      forall i | 0 <= i < |t.views|
        ensures t.views[i].1 in plan
      {
        assert t.views[i].1 == Paths(t.views)[i];
      }
      ViewsOnlyWithin(mf, t.views, opts.force, render, plan);
    }
    assert OnlyWithin(files, v, plan);
    if !opts.skipMigrations {
      assert t.up in plan && t.down in plan;
      var w := Generated(v, MigrationUpTmpl, t.upData, t.up, opts.force, render);
      GeneratedWrites(v, MigrationUpTmpl, t.upData, t.up, opts.force, render);
      OnlyWithinStep(files, v, w.files, t.up, plan);
      if w.outcome.Pass? {
        var d := Generated(w.files, MigrationDownTmpl, t.downData, t.down, opts.force, render);
        GeneratedWrites(w.files, MigrationDownTmpl, t.downData, t.down, opts.force, render);
        OnlyWithinStep(files, w.files, d.files, t.down, plan);
      }
    }
  }

  /** Every path present before is present after. */
  ghost predicate Grows(before: map<string, string>, after: map<string, string>) {
    forall p :: p in before ==> p in after
  }

  /** With a renderer that never fails, writing views leaves every view path present. */
  lemma {:induction false} ViewsPresent(files: map<string, string>, vs: seq<(Template, string)>, force: bool, render: Renderer)
    requires forall tm, d :: render(tm, d).Success?
    ensures var after := ViewsWritten(files, vs, force, render);
      Grows(files, after) && forall i :: 0 <= i < |vs| ==> vs[i].1 in after
    decreases |vs|
  {
    if |vs| > 0 {
      var before := ViewsWritten(files, vs[..|vs| - 1], force, render);
      var last := vs[|vs| - 1];
      ViewsPresent(files, vs[..|vs| - 1], force, render);
      GeneratedWrites(before, last.0, map[], last.1, force, render);
      var after := ViewsWritten(files, vs, force, render);
      forall i | 0 <= i < |vs|
        ensures vs[i].1 in after
      {
        if i < |vs| - 1 {
          assert vs[i] == vs[..|vs| - 1][i];
        }
      }
    }
  }

  /** No two files the scaffold must create share a path (views may only collide with each other). */
  predicate Separate(t: Targets) {
    var views := Paths(t.views);
    t.controller != t.model && t.up != t.down &&
    t.up != t.controller && t.up != t.model && t.up !in views &&
    t.down != t.controller && t.down != t.model && t.down !in views
  }

  /**
   * In a tree that holds none of the planned files and with templates that
   * render, a scaffold succeeds, lists its whole plan, and every planned file
   * exists afterwards.
   */
  lemma ScaffoldFresh(files: map<string, string>, t: Targets, opts: GenOptions, render: Renderer)
    requires Separate(t)
    requires forall p :: p in ScaffoldPlan(t, opts) ==> p !in files
    requires forall tm, d :: render(tm, d).Success?
    ensures var r := ScaffoldSpec(files, t, opts, render);
      r.outcome == Pass && r.created == ScaffoldPlan(t, opts) &&
      forall p :: p in ScaffoldPlan(t, opts) ==> p in r.files
  {
    var plan := ScaffoldPlan(t, opts);
    assert t.controller in plan && t.model in plan;
    assert !opts.skipMigrations ==> t.up in plan && t.down in plan;
    var c := Generated(files, ControllerTmpl, t.controllerData, t.controller, opts.force, render);
    assert render(ControllerTmpl, t.controllerData).Success?;
    var m := Generated(c.files, ModelTmpl, t.modelData, t.model, opts.force, render);
    assert render(ModelTmpl, t.modelData).Success?;
    assert m.outcome == Pass && m.files.Keys == files.Keys + {t.controller, t.model};
    AfterModelFresh(m.files, t, opts, render);
  }

  /** The views leave every path present, add every view path unless --no-views, and touch nothing else. */
  lemma ViewsStage(files: map<string, string>, t: Targets, opts: GenOptions, render: Renderer)
    requires forall tm, d :: render(tm, d).Success?
    ensures var v := if opts.noViews then files else ViewsWritten(files, t.views, opts.force, render);
      Grows(files, v) && OnlyWithin(files, v, Paths(t.views)) &&
      (!opts.noViews ==> forall p :: p in Paths(t.views) ==> p in v)
  {
    var views := Paths(t.views);
    if !opts.noViews {
      var v := ViewsWritten(files, t.views, opts.force, render);
      ViewsPresent(files, t.views, opts.force, render);
      forall i | 0 <= i < |t.views|
        ensures t.views[i].1 in views
      {
        assert t.views[i].1 == views[i];
      }
      ViewsOnlyWithin(files, t.views, opts.force, render, views);
      forall p | p in views
        ensures p in v
      {
        var i :| 0 <= i < |views| && views[i] == p;
        assert t.views[i].1 == p;
      }
    }
  }

  /** Once the controller and the model exist, views and fresh migrations complete the plan. */
  lemma AfterModelFresh(files: map<string, string>, t: Targets, opts: GenOptions, render: Renderer)
    requires Separate(t)
    requires t.controller in files && t.model in files
    requires !opts.skipMigrations ==> t.up !in files && t.down !in files
    requires forall tm, d :: render(tm, d).Success?
    ensures var r := AfterModel(files, t, opts, render);
      r.outcome == Pass && r.created == ScaffoldPlan(t, opts) &&
      forall p :: p in ScaffoldPlan(t, opts) ==> p in r.files
  {
    var v := if opts.noViews then files else ViewsWritten(files, t.views, opts.force, render);
    ViewsStage(files, t, opts, render);
    if !opts.skipMigrations {
      assert t.up !in v && t.down !in v;
      assert render(MigrationUpTmpl, t.upData).Success? && render(MigrationDownTmpl, t.downData).Success?;
    }
  }

  /** filepath.Join of four parts, spelled out. */
  lemma PathFour(a: string, b: string, c: string, d: string)
    ensures Path([a, b, c, d]) == a + "/" + (b + "/" + (c + "/" + d))
  {
    PathCons(a, [b, c, d]);
    PathThree(b, c, d);
  }

  /** Controllers, models and views live below root/app, in directories starting with 'c', 'm' and 'v'. */
  lemma AppPaths(root: string, name: string)
    ensures var k := |root| + 1;
      var c := ControllerPath(root, name);
      var m := ModelPath(root, name);
      |c| > k + 4 && c[k] == 'a' && c[k + 4] == 'c' &&
      |m| > k + 4 && m[k] == 'a' && m[k + 4] == 'm' &&
      forall v :: v in ViewPaths(root, name) ==> |v| > k && v[k] == 'a'
  {
    PathFour(root, "app", "controllers", name + "_controller.go");
    PathFour(root, "app", "models", ToLower(name) + ".go");
    var dir := Path([root, "app", "views", name]);
    PathFour(root, "app", "views", name);
    forall f | f in ["index.html", "show.html", "new.html", "edit.html"]
      ensures Path([dir, f]) == dir + "/" + f
    {
      PathCons(dir, [f]);
    }
  }

  /** Migrations live below root/db/migrate, under their own file names. */
  lemma MigrationPaths(root: string, ts: string, name: string)
    ensures var prefix := root + "/" + ("db" + "/" + "migrate") + "/";
      UpPath(root, ts, name) == prefix + UpName(ts, name) &&
      DownPath(root, ts, name) == prefix + DownName(ts, name)
  {
    var mig := Path([root, "db", "migrate"]);
    PathThree(root, "db", "migrate");
    PathCons(mig, [UpName(ts, name)]);
    PathCons(mig, [DownName(ts, name)]);
  }

  /** The up and down files of one scaffold differ, and neither lies below root/app. */
  lemma MigrationPathsApart(root: string, ts: string, name: string)
    ensures var up := UpPath(root, ts, name);
      var down := DownPath(root, ts, name);
      up != down && |up| > |root| + 1 && up[|root| + 1] == 'd' && |down| > |root| + 1 && down[|root| + 1] == 'd'
  {
    MigrationPaths(root, ts, name);
    var b := MigrationBase(ts, name);
    var prefix := root + "/" + ("db" + "/" + "migrate") + "/";
    var up, down := prefix + (b + Migrations.UpSuffix), prefix + (b + Migrations.DownSuffix);
    assert UpPath(root, ts, name) == up && DownPath(root, ts, name) == down;
    assert up[|prefix| + |b| + 1] == 'u' && down[|prefix| + |b| + 1] == 'd';
  }

  /** The destinations of one scaffold never collide. */
  lemma PathsSeparate(root: string, name: string, ts: string)
    ensures var c, m, views := ControllerPath(root, name), ModelPath(root, name), ViewPaths(root, name);
      var up, down := UpPath(root, ts, name), DownPath(root, ts, name);
      c != m && up != down && up != c && up != m && up !in views &&
      down != c && down != m && down !in views
  {
    AppPaths(root, name);
    MigrationPathsApart(root, ts, name);
  }

  lemma ScaffoldTargetsSeparate(root: string, name: string, fields: seq<string>, ts: string,
                                titleCase: string -> string, title: string -> string)
    ensures Separate(ScaffoldTargets(root, name, fields, ts, titleCase, title))
  {
    var t := ScaffoldTargets(root, name, fields, ts, titleCase, title);
    assert t.views == ViewTargets(root, name);
    SeparateAt(t, root, name, ts);
  }

  lemma SeparateAt(t: Targets, root: string, name: string, ts: string)
    requires t.controller == ControllerPath(root, name) && t.model == ModelPath(root, name)
    requires t.up == UpPath(root, ts, name) && t.down == DownPath(root, ts, name)
    requires t.views == ViewTargets(root, name)
    ensures Separate(t)
  {
    assert Paths(t.views) == ViewPaths(root, name);
    PathsSeparate(root, name, ts);
  }

  /** Without --force a scaffold never changes or removes a file that existed before. */
  lemma ScaffoldKeepsFiles(files: map<string, string>, t: Targets, opts: GenOptions, render: Renderer)
    requires !opts.force
    ensures Keeps(files, ScaffoldSpec(files, t, opts, render).files)
  {
    var c := Generated(files, ControllerTmpl, t.controllerData, t.controller, false, render);
    GeneratedWrites(files, ControllerTmpl, t.controllerData, t.controller, false, render);
    if c.outcome.Pass? {
      var m := Generated(c.files, ModelTmpl, t.modelData, t.model, false, render);
      GeneratedWrites(c.files, ModelTmpl, t.modelData, t.model, false, render);
      KeepsTrans(files, c.files, m.files);
      if m.outcome.Pass? {
        var v := if opts.noViews then m.files else ViewsWritten(m.files, t.views, false, render);
        ViewsKeep(m.files, t.views, render);
        KeepsTrans(files, m.files, v);
        if !opts.skipMigrations {
          var w := Generated(v, MigrationUpTmpl, t.upData, t.up, false, render);
          GeneratedWrites(v, MigrationUpTmpl, t.upData, t.up, false, render);
          KeepsTrans(files, v, w.files);
          if w.outcome.Pass? {
            GeneratedWrites(w.files, MigrationDownTmpl, t.downData, t.down, false, render);
            KeepsTrans(files, w.files, MigrationsWritten(v, t.up, t.upData, t.down, t.downData, false, render).files);
          }
        }
      }
    }
  }

  // ---------------------------------------------------------------------------
  // The file system

  class FileSystem {
    var files: map<string, string>

    constructor (files: map<string, string>)
      ensures this.files == files
    {
      this.files := files;
    }

    /** generateFile (generator.go:16-37). */
    method GenerateFile(t: Template, data: Data, dst: string, overwrite: bool, render: Renderer) returns (res: Outcome<GenError>)
      modifies this
      ensures Written(res, files) == Generated(old(files), t, data, dst, overwrite, render)
    {
      if !overwrite && dst in files {
        return Fail(FileExists(dst));
      }
      match render(t, data)
      case Failure(m) =>
        return Fail(TemplateFailed(m));
      case Success(text) =>
        files := files[dst := text];
        return Pass;
    }

    /** GenerateControllerWithOptions (generator.go:53-62). */
    method GenerateController(root: string, name: string, opts: GenOptions, render: Renderer, titleCase: string -> string)
      returns (dst: string, res: Outcome<GenError>)
      modifies this
      ensures dst == ControllerPath(root, name)
      ensures Written(res, files) == Generated(old(files), ControllerTmpl, ControllerData(name, titleCase), dst, opts.force, render)
    {
      dst := ControllerPath(root, name);
      var data := map["Package" := "controllers", "Controller" := titleCase(name) + "Controller", "Name" := name];
      res := GenerateFile(ControllerTmpl, data, dst, opts.force, render);
    }

    /** GenerateModelWithOptions (generator.go:70-132). */
    method GenerateModel(root: string, name: string, opts: GenOptions, fields: seq<string>,
                         render: Renderer, titleCase: string -> string, title: string -> string)
      returns (dst: string, res: Outcome<GenError>)
      modifies this
      ensures dst == ModelPath(root, name)
      ensures Written(res, files) ==
        Generated(old(files), ModelTmpl, ModelData(name, ParseAll(fields, title), titleCase), dst, opts.force, render)
    {
      dst := ModelPath(root, name);
      var specs := ParseFields(fields, title);
      var fieldsCode, cols, extraImports := ModelParts(specs);
      var data := map["Package" := "models", "Model" := titleCase(name), "FieldsCode" := fieldsCode,
                      "Columns" := cols, "ExtraImports" := extraImports];
      res := GenerateFile(ModelTmpl, data, dst, opts.force, render);
    }

    /** The migration part of GenerateScaffoldWithOptions (generator.go:175-240). */
    method GenerateMigrations(root: string, name: string, force: bool, fields: seq<string>, ts: string,
                              render: Renderer, title: string -> string)
      returns (res: Outcome<GenError>)
      modifies this
      ensures var table := TableName(name);
        var specs := ParseAll(fields, title);
        Written(res, files) == MigrationsWritten(old(files), UpPath(root, ts, name), UpData(ts, table, specs),
                                                 DownPath(root, ts, name), DownData(ts, table, specs), force, render)
    {
      var table := TableName(name);
      var upPath := Path([Path([root, "db", "migrate"]), ts + "_create_" + table + ".up.sql"]);
      var downPath := Path([Path([root, "db", "migrate"]), ts + "_create_" + table + ".down.sql"]);
      var specs := ParseFields(fields, title);
      var cols := MigrationColumns(specs);
      var extrasUp, extrasDown := IndexExtras(table, specs);
      var upData := map["Timestamp" := ts, "Table" := table, "Columns" := cols, "ExtrasUp" := extrasUp];
      var downData := map["Timestamp" := ts, "Table" := table, "ExtrasDown" := extrasDown];
      res := GenerateFile(MigrationUpTmpl, upData, upPath, force, render);
      if res.Fail? {
        return;
      }
      res := GenerateFile(MigrationDownTmpl, downData, downPath, force, render);
    }

    /** The four view files of generator.go:157-172; a view that fails is skipped. */
    method GenerateViews(root: string, name: string, force: bool, render: Renderer) returns (paths: seq<string>)
      modifies this
      ensures paths == Paths(ViewTargets(root, name))
      ensures files == ViewsWritten(old(files), ViewTargets(root, name), force, render)
    {
      paths := ViewPaths(root, name);
      ghost var vs := ViewTargets(root, name);
      ghost var f0 := files;
      assert vs[..0] == [];
      var ignored := GenerateFile(ViewIndexTmpl, map[], paths[0], force, render);
      assert vs[..1][..0] == vs[..0];
      assert files == ViewsWritten(f0, vs[..1], force, render);
      ignored := GenerateFile(ViewShowTmpl, map[], paths[1], force, render);
      assert vs[..2][..1] == vs[..1];
      assert files == ViewsWritten(f0, vs[..2], force, render);
      ignored := GenerateFile(ViewNewTmpl, map[], paths[2], force, render);
      assert vs[..3][..2] == vs[..2];
      assert files == ViewsWritten(f0, vs[..3], force, render);
      ignored := GenerateFile(ViewEditTmpl, map[], paths[3], force, render);
      assert vs[..4][..3] == vs[..3] && vs[..4] == vs;
    }

    /** GenerateScaffoldWithOptions (generator.go:140-246), without the final one-second sleep. */
    method GenerateScaffold(root: string, name: string, opts: GenOptions, fields: seq<string>, ts: string,
                            render: Renderer, titleCase: string -> string, title: string -> string)
      returns (created: seq<string>, res: Outcome<GenError>)
      modifies this
      ensures var t := ScaffoldTargets(root, name, fields, ts, titleCase, title);
        Scaffolded(created, res, files) == ScaffoldSpec(old(files), t, opts, render)
    {
      ghost var t := ScaffoldTargets(root, name, fields, ts, titleCase, title);
      ghost var specs := ParseAll(fields, title);
      assert t.controller == ControllerPath(root, name) && t.controllerData == ControllerData(name, titleCase);
      assert t.model == ModelPath(root, name) && t.modelData == ModelData(name, specs, titleCase);
      assert t.views == ViewTargets(root, name);
      assert t.up == UpPath(root, ts, name) && t.down == DownPath(root, ts, name);
      assert t.upData == UpData(ts, TableName(name), specs) && t.downData == DownData(ts, TableName(name), specs);
      created := [];
      var cpath;
      cpath, res := GenerateController(root, name, opts, render, titleCase);
      if res.Fail? {
        return;
      }
      created := created + [cpath];
      var mpath;
      mpath, res := GenerateModel(root, name, opts, fields, render, titleCase, title);
      if res.Fail? {
        return;
      }
      assert ScaffoldSpec(old(files), t, opts, render) == AfterModel(files, t, opts, render);
      created, res := FinishScaffold(root, name, opts, fields, ts, render, title, t);
    }

    /** The views and the migrations of GenerateScaffoldWithOptions (generator.go:157-245). */
    method FinishScaffold(root: string, name: string, opts: GenOptions, fields: seq<string>, ts: string,
                          render: Renderer, title: string -> string, ghost t: Targets)
      returns (created: seq<string>, res: Outcome<GenError>)
      requires t.controller == ControllerPath(root, name) && t.model == ModelPath(root, name)
      requires t.views == ViewTargets(root, name)
      requires t.up == UpPath(root, ts, name) && t.down == DownPath(root, ts, name)
      requires t.upData == UpData(ts, TableName(name), ParseAll(fields, title))
      requires t.downData == DownData(ts, TableName(name), ParseAll(fields, title))
      modifies this
      ensures Scaffolded(created, res, files) == AfterModel(old(files), t, opts, render)
    {
      created := [ControllerPath(root, name), ModelPath(root, name)];
      if !opts.noViews {
        var p := GenerateViews(root, name, opts.force, render);
        created := created + p;
      }
      if !opts.skipMigrations {
        res := GenerateMigrations(root, name, opts.force, fields, ts, render, title);
        if res.Fail? {
          return;
        }
        created := created + [UpPath(root, ts, name), DownPath(root, ts, name)];
      }
      res := Pass;
    }
  }

  /** The column loop of generator.go:193-210. */
  method MigrationColumns(specs: seq<FieldSpec>) returns (cols: string)
    ensures cols == ColumnsBlock(specs)
  {
    var columnsLines: seq<string> := [];
    var i := 0;
    while i < |specs|
      invariant 0 <= i <= |specs| && columnsLines == ColumnLines(specs[..i])
    {
      assert specs[..i + 1][..i] == specs[..i] && specs[..i + 1][i] == specs[i];
      var col := BuildColumnLine(specs[i]);
      columnsLines := columnsLines + [col];
      i := i + 1;
    }
    assert specs[..i] == specs;
    cols := if |columnsLines| > 0 then ",\n" + Join(columnsLines, ",\n") else "";
  }
}
