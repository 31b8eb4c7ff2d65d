/**
 * The field-spec parser of the code generator (internal/generator/utils.go).
 *
 * A field spec is `name`, `name:type` or `name:type,opt,opt=value`. Parsing
 * never fails: the Go function's error result is always nil. Title-casing
 * of the name (golang.org/x/text/cases) is the parameter `title`.
 */
module Fields {
  import opened Wrappers
  import opened Text

  /** The parsed field: the record FieldSpec; `defaultValue` is the *string Default (None for nil). */
  datatype FieldSpec = FieldSpec(
    name: string,
    goName: string,
    baseType: string,
    goType: string,
    sqlType: string,
    nullable: bool,
    defaultValue: Option<string>,
    unique: bool,
    index: bool,
    references: string,
    size: int,
    precision: int,
    scale: int)

  /** The zero FieldSpec. */
  const Zero: FieldSpec := FieldSpec("", "", "", "", "", false, None, false, false, "", 0, 0, 0)

  /** The six Go types that have a pointer form for nullable fields. */
  const Scalars: set<string> := {"string", "time.Time", "int", "int64", "bool", "float64"}

  // ---------------------------------------------------------------------------
  // TableName

  /** Naive pluralisation: the lower-cased name, with an "s" appended unless it already ends in one. */
  function TableName(name: string): (r: string)
    ensures HasSuffix(r, "s") && HasPrefix(r, ToLower(name))
    ensures |r| <= |name| + 1
    ensures r == ToLower(name) || r == ToLower(name) + "s"
    ensures r == ToLower(name) <==> HasSuffix(ToLower(name), "s")
  {
    var low := ToLower(name);
    if HasSuffix(low, "s") then low else low + "s"
  }

  /** A table name is its own table name. */
  lemma TableNameIdempotent(name: string)
    ensures TableName(TableName(name)) == TableName(name)
  {
    var low := ToLower(name);
    ToLowerIdempotent(name);
    if !HasSuffix(low, "s") {
      var t := low + "s";
      assert ToLower(t) == ToLower(low) + ToLower("s");
      assert ToLower("s") == "s";
    }
  }

  // ---------------------------------------------------------------------------
  // The type table

  /** What the type token decides: Go type, SQL type, size, precision and scale. */
  datatype Typing = Typing(goType: string, sqlType: string, size: int, precision: int, scale: int)

  /** strconv.Atoi, with 0 (the field's zero value) when it fails. */
  function AtoiOrZero(s: string): int {
    match Atoi(TrimSpace(s))
    case Some(v) => v
    case None => 0
  }

  /** DECIMAL(p,s) with a positive scale, DECIMAL(p) with a positive precision, else DECIMAL. */
  function DecimalSql(p: int, s: int): string {
    if p > 0 then
      if s > 0 then "DECIMAL(" + Itoa(p) + "," + Itoa(s) + ")" else "DECIMAL(" + Itoa(p) + ")"
    else "DECIMAL"
  }

  /** decimal(p[,s]) and numeric(p[,s]): precision and scale from the text between the first "(" and the last ")". */
  function DecimalType(base: string): Typing {
    var l := IndexOf(base, '(');
    var r := LastIndexOf(base, ')');
    if l != -1 && r != -1 && r > l + 1 then
      var parts := SplitFirst(base[l + 1..r], ',');
      var p := AtoiOrZero(parts[0]);
      var s := if |parts| == 2 then AtoiOrZero(parts[1]) else 0;
      Typing("float64", DecimalSql(p, s), 0, p, s)
    else
      Typing("float64", "DECIMAL", 0, 0, 0)
  }

  function SizedVarchar(n: int): string {
    "VARCHAR(" + Itoa(n) + ")"
  }

  /** varchar(n) and char(n): an integer n gives VARCHAR(n) and size n; anything else the upper-cased token. */
  function VarcharType(base: string): Typing {
    var l := IndexOf(base, '(');
    var r := LastIndexOf(base, ')');
    if l != -1 && r != -1 && r > l + 1 then
      match Atoi(TrimSpace(base[l + 1..r]))
      case Some(n) => Typing("string", SizedVarchar(n), n, 0, 0)
      case None => Typing("string", ToUpper(base), 0, 0, 0)
    else
      Typing("string", ToUpper(base), 0, 0, 0)
  }

  /** The type switch on the lower-cased token: keywords, then the decimal and varchar families, else string/TEXT. */
  function ResolveType(base: string): Typing {
    TypeFor(base, ToLower(base))
  }

  function TypeFor(base: string, low: string): Typing {
    if low in Keywords then KeywordType(low)
    else if HasPrefix(low, "decimal") || HasPrefix(low, "numeric") then DecimalType(base)
    else if HasPrefix(low, "varchar") || HasPrefix(low, "char") then VarcharType(base)
    else Typing("string", "TEXT", 0, 0, 0)
  }

  /** The keywords that the type switch lists one by one, ahead of the prefix cases. */
  const Keywords: set<string> :=
    {"string", "text", "int", "integer", "int64", "bool", "boolean", "float", "float64", "datetime", "time", "timestamp"}

  /** The cases of the type switch that match one keyword exactly. */
  function KeywordType(low: string): Typing
    requires low in Keywords
  {
    if low == "string" || low == "text" then Typing("string", "TEXT", 0, 0, 0)
    else if low == "int" || low == "integer" then Typing("int", "INTEGER", 0, 0, 0)
    else if low == "int64" then Typing("int64", "INTEGER", 0, 0, 0)
    else if low == "bool" || low == "boolean" then Typing("bool", "BOOLEAN", 0, 0, 0)
    else if low == "float" || low == "float64" then Typing("float64", "REAL", 0, 0, 0)
    else Typing("time.Time", "DATETIME", 0, 0, 0)
  }

  // ---------------------------------------------------------------------------
  // Option tokens

  /** What one option token means. */
  datatype Opt = NullableOpt | UniqueOpt | IndexOpt | DefaultOpt(value: string) | RefOpt(value: string) | Ignored

  /** The reading of one token: trimmed, then nullable, unique, index, default=v, ref=v or references=v, else ignored. */
  function ParseOption(tok: string): Opt {
    var t := TrimSpace(tok);
    if t == "nullable" then NullableOpt
    else if t == "unique" then UniqueOpt
    else if t == "index" then IndexOpt
    else if HasPrefix(t, "default=") then DefaultOpt(TrimPrefix(t, "default="))
    else if HasPrefix(t, "ref=") || HasPrefix(t, "references=") then
      var eq := if HasPrefix(t, "ref=") then 3 else 10;
      assert t[eq] == '=';
      RefOpt(SplitFirst(t, '=')[1])
    else Ignored
  }

  function ApplyOption(fs: FieldSpec, o: Opt): FieldSpec {
    match o
    case NullableOpt => fs.(nullable := true)
    case UniqueOpt => fs.(unique := true)
    case IndexOpt => fs.(index := true)
    case DefaultOpt(v) => fs.(defaultValue := Some(v))
    case RefOpt(v) => fs.(references := v)
    case Ignored => fs
  }

  function ApplyOptions(fs: FieldSpec, opts: seq<Opt>): FieldSpec
    decreases |opts|
  {
    if |opts| == 0 then fs else ApplyOptions(ApplyOption(fs, opts[0]), opts[1..])
  }

  function ParseOptions(toks: seq<string>): (r: seq<Opt>)
    ensures |r| == |toks|
    ensures forall i :: 0 <= i < |toks| ==> r[i] == ParseOption(toks[i])
  {
    if |toks| == 0 then [] else [ParseOption(toks[0])] + ParseOptions(toks[1..])
  }

  /** The pointer form of a scalar Go type; other types are left alone. */
  function PointerType(goType: string): string {
    if goType in Scalars then "*" + goType else goType
  }

  // ---------------------------------------------------------------------------
  // ParseFieldSpec

  /** The type token and the option text: split at the first comma of what follows the colon. */
  function TypeAndOptions(rest: string): (string, string) {
    if rest == "" then ("string", "")
    else
      var idx := IndexOf(rest, ',');
      if idx != -1 then (TrimSpace(rest[..idx]), TrimSpace(rest[idx + 1..])) else (TrimSpace(rest), "")
  }

  /** The field before its options are read: name, Go name, type token and typing. */
  function Initial(s: string, title: string -> string): FieldSpec {
    var parts := SplitFirst(s, ':');
    var name := TrimSpace(parts[0]);
    var rest := if |parts| == 2 then TrimSpace(parts[1]) else "";
    var base := TypeAndOptions(rest).0;
    var t := ResolveType(base);
    FieldSpec(name, title(name), base, t.goType, t.sqlType, false, None, false, false, "", t.size, t.precision, t.scale)
  }

  /** The option text of a trimmed, non-empty spec. */
  function OptionText(s: string): string {
    var parts := SplitFirst(s, ':');
    var rest := if |parts| == 2 then TrimSpace(parts[1]) else "";
    TypeAndOptions(rest).1
  }

  /** Nullable fields get the pointer form of their Go type. */
  function Finish(fs: FieldSpec): FieldSpec {
    if fs.nullable then fs.(goType := PointerType(fs.goType)) else fs
  }

  /** The field after its option tokens are read. */
  function Applied(s: string, title: string -> string): FieldSpec {
    var opts := OptionText(s);
    var fs := Initial(s, title);
    if opts != "" then ApplyOptions(fs, ParseOptions(Split(opts, ','))) else fs
  }

  function ParseSpec(input: string, title: string -> string): FieldSpec {
    var s := TrimSpace(input);
    if s == "" then Zero else Finish(Applied(s, title))
  }

  /** ParseFieldSpec: the option tokens are read one at a time, in order. */
  method ParseFieldSpec(input: string, title: string -> string) returns (fs: FieldSpec)
    ensures fs == ParseSpec(input, title)
  {
    var s := TrimSpace(input);
    if s == "" {
      return Zero;
    }
    fs := Initial(s, title);
    ghost var fs0 := fs;
    var opts := OptionText(s);
    if opts != "" {
      var tokens := Split(opts, ',');
      var i := 0;
      while i < |tokens|
        invariant 0 <= i <= |tokens|
        invariant ApplyOptions(fs, ParseOptions(tokens[i..])) == ApplyOptions(fs0, ParseOptions(tokens))
      {
        assert tokens[i..][1..] == tokens[i + 1..];
        fs := ApplyOption(fs, ParseOption(tokens[i]));
        i := i + 1;
      }
      assert tokens[i..] == [];
    }
    assert fs == Applied(s, title);
    if fs.nullable {
      fs := fs.(goType := PointerType(fs.goType));
    }
  }

  // ---------------------------------------------------------------------------
  // ParseFields

  function ParseAll(inputs: seq<string>, title: string -> string): seq<FieldSpec> {
    if |inputs| == 0 then [] else [ParseSpec(inputs[0], title)] + ParseAll(inputs[1..], title)
  }

  /** ParseFields: one spec per input, in input order. */
  method ParseFields(inputs: seq<string>, title: string -> string) returns (out: seq<FieldSpec>)
    ensures out == ParseAll(inputs, title)
  {
    out := [];
    var i := 0;
    while i < |inputs|
      invariant 0 <= i <= |inputs|
      invariant ParseAll(inputs, title) == out + ParseAll(inputs[i..], title)
    {
      var fs := ParseFieldSpec(inputs[i], title);
      ParseAllStep(inputs, i, title, out, fs);
      out := out + [fs];
      i := i + 1;
    }
    assert inputs[i..] == [];
  }

  lemma ParseAllStep(inputs: seq<string>, i: nat, title: string -> string, out: seq<FieldSpec>, fs: FieldSpec)
    requires i < |inputs| && fs == ParseSpec(inputs[i], title)
    requires ParseAll(inputs, title) == out + ParseAll(inputs[i..], title)
    ensures ParseAll(inputs, title) == (out + [fs]) + ParseAll(inputs[i + 1..], title)
  {
    ParseAllUnfold(inputs[i..], title);
    assert inputs[i..][1..] == inputs[i + 1..];
    ConsAssoc(out, fs, ParseAll(inputs[i + 1..], title));
  }

  lemma ParseAllUnfold(inputs: seq<string>, title: string -> string)
    requires |inputs| > 0
    ensures ParseAll(inputs, title) == [ParseSpec(inputs[0], title)] + ParseAll(inputs[1..], title)
  {
  }

  lemma ConsAssoc<T>(a: seq<T>, x: T, b: seq<T>)
    ensures a + ([x] + b) == (a + [x]) + b
  {
  }

  /** ParseFields keeps the length and order of its input. */
  lemma {:induction false} ParseAllPointwise(inputs: seq<string>, title: string -> string)
    ensures |ParseAll(inputs, title)| == |inputs|
    ensures forall i :: 0 <= i < |inputs| ==> ParseAll(inputs, title)[i] == ParseSpec(inputs[i], title)
  {
    if |inputs| > 0 {
      ParseAllPointwise(inputs[1..], title);
      assert forall i :: 1 <= i < |inputs| ==> inputs[1..][i - 1] == inputs[i];
    }
  }

  // ---------------------------------------------------------------------------
  // Properties of the parser

  /** Empty or white-space-only input gives the zero FieldSpec. */
  lemma BlankIsZero(input: string, title: string -> string)
    requires forall i :: 0 <= i < |input| ==> IsSpace(input[i])
    ensures ParseSpec(input, title) == Zero
  {
    TrimSpaceClean(input);
  }

  /** The name is the trimmed text before the first colon, so it never holds a colon. */
  lemma NameBeforeColon(input: string, title: string -> string)
    requires TrimSpace(input) != ""
    ensures var s := TrimSpace(input);
      var i := IndexOf(s, ':');
      var r := ParseSpec(input, title);
      r.name == TrimSpace(if i < 0 then s else s[..i]) && r.goName == title(r.name) && ':' !in r.name
  {
    var s := TrimSpace(input);
    AppliedKeepsTyping(s, title);
    assert ParseSpec(input, title) == Finish(Applied(s, title));
    TrimSpaceWithin(SplitFirst(s, ':')[0], ':');
  }

  /** Without a type after the colon the field is a plain, non-null string column. */
  lemma MissingTypeDefaults(input: string, title: string -> string)
    requires TrimSpace(input) != ""
    requires var s := TrimSpace(input);
      ':' !in s || TrimSpace(s[IndexOf(s, ':') + 1..]) == ""
    ensures var r := ParseSpec(input, title);
      r == FieldSpec(r.name, title(r.name), "string", "string", "TEXT", false, None, false, false, "", 0, 0, 0)
  {
    var s := TrimSpace(input);
    var parts := SplitFirst(s, ':');
    var rest := if |parts| == 2 then TrimSpace(parts[1]) else "";
    assert rest == "";
    assert TypeAndOptions(rest) == ("string", "");
    ToLowerOfLower("string");
    assert ResolveType("string") == Typing("string", "TEXT", 0, 0, 0);
  }

  /** Options change only the option fields, never the name or the typing. */
  lemma {:induction false} OptionsKeepTyping(fs: FieldSpec, opts: seq<Opt>)
    ensures var r := ApplyOptions(fs, opts);
      r.name == fs.name && r.goName == fs.goName && r.baseType == fs.baseType &&
      r.goType == fs.goType && r.sqlType == fs.sqlType &&
      r.size == fs.size && r.precision == fs.precision && r.scale == fs.scale
    decreases |opts|
  {
    if |opts| > 0 {
      OptionsKeepTyping(ApplyOption(fs, opts[0]), opts[1..]);
    }
  }

  /** nullable, unique and index are set exactly when some token says so, or they were set before. */
  lemma {:induction false} OptionFlags(fs: FieldSpec, opts: seq<Opt>)
    ensures var r := ApplyOptions(fs, opts);
      (r.nullable <==> fs.nullable || NullableOpt in opts) &&
      (r.unique <==> fs.unique || UniqueOpt in opts) &&
      (r.index <==> fs.index || IndexOpt in opts)
    decreases |opts|
  {
    if |opts| > 0 {
      OptionFlags(ApplyOption(fs, opts[0]), opts[1..]);
      assert opts == [opts[0]] + opts[1..];
    }
  }

  /** Default is the value of the last default= token; with none it is left as it was. */
  lemma {:induction false} DefaultIsLast(fs: FieldSpec, opts: seq<Opt>)
    ensures var r := ApplyOptions(fs, opts).defaultValue;
      ((forall i :: 0 <= i < |opts| ==> !opts[i].DefaultOpt?) ==> r == fs.defaultValue) &&
      (forall j :: 0 <= j < |opts| && opts[j].DefaultOpt? && (forall k :: j < k < |opts| ==> !opts[k].DefaultOpt?) ==>
        r == Some(opts[j].value))
    decreases |opts|
  {
    if |opts| > 0 {
      DefaultIsLast(ApplyOption(fs, opts[0]), opts[1..]);
      assert forall i :: 1 <= i < |opts| ==> opts[1..][i - 1] == opts[i];
    }
  }

  /** References is the value of the last ref= or references= token; with none it is left as it was. */
  lemma {:induction false} ReferencesIsLast(fs: FieldSpec, opts: seq<Opt>)
    ensures var r := ApplyOptions(fs, opts).references;
      ((forall i :: 0 <= i < |opts| ==> !opts[i].RefOpt?) ==> r == fs.references) &&
      (forall j :: 0 <= j < |opts| && opts[j].RefOpt? && (forall k :: j < k < |opts| ==> !opts[k].RefOpt?) ==>
        r == opts[j].value)
    decreases |opts|
  {
    if |opts| > 0 {
      ReferencesIsLast(ApplyOption(fs, opts[0]), opts[1..]);
      assert forall i :: 1 <= i < |opts| ==> opts[1..][i - 1] == opts[i];
    }
  }

  /** Unknown tokens change nothing. */
  lemma {:induction false} IgnoredOptions(fs: FieldSpec, opts: seq<Opt>)
    requires forall i :: 0 <= i < |opts| ==> opts[i] == Ignored
    ensures ApplyOptions(fs, opts) == fs
    decreases |opts|
  {
    if |opts| > 0 {
      IgnoredOptions(fs, opts[1..]);
      assert opts[0] == Ignored;
    }
  }

  /** A default= token's value is the text after "default=". */
  lemma DefaultValue(tok: string)
    requires ParseOption(tok).DefaultOpt?
    ensures TrimSpace(tok) == "default=" + ParseOption(tok).value
  {
  }

  /** A ref= or references= token's value is the text after its first "=". */
  lemma RefValue(tok: string)
    requires ParseOption(tok).RefOpt?
    ensures var t := TrimSpace(tok);
      (HasPrefix(t, "ref=") || HasPrefix(t, "references=")) &&
      exists a :: '=' !in a && t == a + "=" + ParseOption(tok).value
  {
    var t := TrimSpace(tok);
    var parts := SplitFirst(t, '=');
    var eq := if HasPrefix(t, "ref=") then 3 else 10;
    assert t[eq] == '=';
    assert t == parts[0] + "=" + parts[1];
  }

  lemma TypeTokenHasNoComma(rest: string)
    ensures ',' !in TypeAndOptions(rest).0
  {
    if rest != "" {
      var idx := IndexOf(rest, ',');
      if idx != -1 {
        TrimSpaceWithin(rest[..idx], ',');
      } else {
        TrimSpaceWithin(rest, ',');
      }
    }
  }

  lemma ItoaHasNoComma(n: int)
    ensures ',' !in Itoa(n)
  {
    var d := NatToString(if n < 0 then -n else n);
    assert !IsDigit(',');
    if n < 0 {
      assert Itoa(n) == "-" + d;
    }
  }

  lemma ToUpperKeepsNoComma(s: string)
    requires ',' !in s
    ensures ',' !in ToUpper(s)
  {
  }

  /** The text between the first "(" and the last ")" of a token without a comma has no comma. */
  lemma InnerWithoutComma(base: string, l: int, r: int)
    requires ',' !in base && 0 <= l && l + 1 <= r <= |base|
    ensures ',' !in base[l + 1..r]
  {
  }

  lemma DecimalWithoutComma(base: string)
    requires ',' !in base
    ensures DecimalType(base).scale == 0 && ',' !in DecimalType(base).sqlType
  {
    var l := IndexOf(base, '(');
    var r := LastIndexOf(base, ')');
    if l != -1 && r != -1 && r > l + 1 {
      InnerWithoutComma(base, l, r);
      var p := AtoiOrZero(SplitFirst(base[l + 1..r], ',')[0]);
      ItoaHasNoComma(p);
    }
  }

  lemma VarcharWithoutComma(base: string)
    requires ',' !in base
    ensures VarcharType(base).scale == 0 && ',' !in VarcharType(base).sqlType
  {
    var t := VarcharType(base);
    ToUpperKeepsNoComma(base);
    assert t.sqlType == ToUpper(base) || exists n :: t.sqlType == SizedVarchar(n);
    if t.sqlType != ToUpper(base) {
      var n :| t.sqlType == SizedVarchar(n);
      ItoaHasNoComma(n);
    }
  }

  /** A type token without a comma yields scale 0 and an SQL type without a comma. */
  lemma ResolveWithoutComma(base: string, low: string)
    requires ',' !in base
    ensures TypeFor(base, low).scale == 0 && ',' !in TypeFor(base, low).sqlType
  {
    if low in Keywords {
    } else if HasPrefix(low, "decimal") || HasPrefix(low, "numeric") {
      DecimalWithoutComma(base);
    } else if HasPrefix(low, "varchar") || HasPrefix(low, "char") {
      VarcharWithoutComma(base);
    }
  }

  /**
   * The type is split from the options at the first comma, even inside
   * parentheses, so decimal(p,s) never keeps its scale: every parsed field
   * has scale 0 and no two-argument SQL type such as DECIMAL(10,2).
   */
  lemma ScaleAlwaysZero(input: string, title: string -> string)
    ensures var r := ParseSpec(input, title);
      r.scale == 0 && ',' !in r.sqlType
  {
    var s := TrimSpace(input);
    if s != "" {
      InitialWithoutComma(s, title);
      AppliedKeepsTyping(s, title);
      var applied := Applied(s, title);
      assert ParseSpec(input, title) == Finish(applied);
    }
  }

  lemma InitialWithoutComma(s: string, title: string -> string)
    ensures Initial(s, title).scale == 0 && ',' !in Initial(s, title).sqlType
  {
    var parts := SplitFirst(s, ':');
    var rest := if |parts| == 2 then TrimSpace(parts[1]) else "";
    var base := TypeAndOptions(rest).0;
    TypeTokenHasNoComma(rest);
    ResolveWithoutComma(base, ToLower(base));
  }

  /** Reading the options keeps the name and the typing of the initial field. */
  lemma AppliedKeepsTyping(s: string, title: string -> string)
    ensures var a := Applied(s, title);
      var fs := Initial(s, title);
      a.name == fs.name && a.goName == fs.goName && a.baseType == fs.baseType &&
      a.goType == fs.goType && a.sqlType == fs.sqlType &&
      a.size == fs.size && a.precision == fs.precision && a.scale == fs.scale
  {
    OptionsKeepTyping(Initial(s, title), ParseOptions(Split(OptionText(s), ',')));
  }

  // ---------------------------------------------------------------------------
  // Nullable fields and the type table

  lemma TypeForScalar(base: string, low: string)
    ensures TypeFor(base, low).goType in Scalars
  {
  }

  lemma ScalarUnstarred(g: string)
    requires g in Scalars
    ensures |g| > 0 && g[0] != '*'
  {
  }

  /** Finish: a nullable field with a scalar Go type gets its pointer form, any other field keeps its type. */
  lemma FinishPointer(fs: FieldSpec)
    requires fs.goType in Scalars
    ensures var r := Finish(fs);
      r.nullable == fs.nullable && (r.nullable <==> HasPrefix(r.goType, "*")) && TrimPrefix(r.goType, "*") == fs.goType
  {
    ScalarUnstarred(fs.goType);
    if fs.nullable {
      assert Finish(fs).goType == "*" + fs.goType;
    }
  }

  /** A parsed field's Go type is a scalar, in pointer form exactly when the field is nullable. */
  lemma NullableMeansPointer(input: string, title: string -> string)
    requires TrimSpace(input) != ""
    ensures var r := ParseSpec(input, title);
      (r.nullable <==> HasPrefix(r.goType, "*")) && TrimPrefix(r.goType, "*") in Scalars
  {
    var s := TrimSpace(input);
    var fs := Initial(s, title);
    var parts := SplitFirst(s, ':');
    var rest := if |parts| == 2 then TrimSpace(parts[1]) else "";
    var base := TypeAndOptions(rest).0;
    TypeForScalar(base, ToLower(base));
    assert fs.goType in Scalars;
    var applied := Applied(s, title);
    AppliedKeepsTyping(s, title);
    assert applied.goType == fs.goType;
    FinishPointer(applied);
    assert ParseSpec(input, title) == Finish(applied);
  }

  /**
   * The SQL types of the keyword table come only from their keywords: a
   * decimal, numeric, varchar or char token, or an unknown one, never
   * yields one of them.
   */
  lemma KeywordTypes(base: string)
    ensures var t := ResolveType(base);
      var low := ToLower(base);
      (t.sqlType == "INTEGER" <==> low in {"int", "integer", "int64"}) &&
      (t.sqlType == "BOOLEAN" <==> low in {"bool", "boolean"}) &&
      (t.sqlType == "REAL" <==> low in {"float", "float64"}) &&
      (t.sqlType == "DATETIME" <==> low in {"datetime", "time", "timestamp"})
  {
    var low := ToLower(base);
    var t := TypeFor(base, low);
    assert ResolveType(base) == t;
    if low in Keywords {
      TableTypes(base, low);
    } else {
      assert !(low in {"int", "integer", "int64"}) && !(low in {"bool", "boolean"});
      assert !(low in {"float", "float64"}) && !(low in {"datetime", "time", "timestamp"});
      if HasPrefix(low, "decimal") || HasPrefix(low, "numeric") {
        TypeForDecimal(base, low);
        DecimalSqlType(base);
      } else if HasPrefix(low, "varchar") || HasPrefix(low, "char") {
        TypeForVarchar(base, low);
        VarcharSqlType(base, low);
      } else {
        TypeForOther(base, low);
      }
    }
  }

  lemma TableTypes(base: string, low: string)
    requires low in Keywords
    ensures var t := TypeFor(base, low);
      (t.sqlType == "INTEGER" <==> low in {"int", "integer", "int64"}) &&
      (t.sqlType == "BOOLEAN" <==> low in {"bool", "boolean"}) &&
      (t.sqlType == "REAL" <==> low in {"float", "float64"}) &&
      (t.sqlType == "DATETIME" <==> low in {"datetime", "time", "timestamp"})
  {
    if low == "string" || low == "text" {
    } else if low == "int" || low == "integer" || low == "int64" {
    } else if low == "bool" || low == "boolean" {
    } else if low == "float" || low == "float64" {
    } else {
      assert low == "datetime" || low == "time" || low == "timestamp";
    }
  }

  lemma TypeForOther(base: string, low: string)
    requires low !in Keywords
    requires !HasPrefix(low, "decimal") && !HasPrefix(low, "numeric")
    requires !HasPrefix(low, "varchar") && !HasPrefix(low, "char")
    ensures TypeFor(base, low) == Typing("string", "TEXT", 0, 0, 0)
  {
  }

  lemma DecimalSqlType(base: string)
    ensures HasPrefix(DecimalType(base).sqlType, "DECIMAL")
  {
    var l := IndexOf(base, '(');
    var r := LastIndexOf(base, ')');
    if l != -1 && r != -1 && r > l + 1 {
      var parts := SplitFirst(base[l + 1..r], ',');
      var p := AtoiOrZero(parts[0]);
      var s := if |parts| == 2 then AtoiOrZero(parts[1]) else 0;
      assert DecimalType(base).sqlType == DecimalSql(p, s);
      DecimalSqlPrefix(p, s);
    }
  }

  lemma DecimalSqlPrefix(p: int, s: int)
    ensures HasPrefix(DecimalSql(p, s), "DECIMAL")
  {
  }

  lemma VarcharSqlType(base: string, low: string)
    requires low == ToLower(base) && (HasPrefix(low, "varchar") || HasPrefix(low, "char"))
    ensures var q := VarcharType(base).sqlType;
      |q| > 0 && (q[0] == 'V' || q[0] == 'C')
  {
    assert low[0] == 'v' || low[0] == 'c';
    assert LowerChar(base[0]) == low[0];
  }

  // ---------------------------------------------------------------------------
  // The shape name:type,options

  /** No white space at either end. */
  predicate Clean(s: string) {
    s == [] || (!IsSpace(s[0]) && !IsSpace(s[|s| - 1]))
  }

  /** The field before its options for a spec name:type. */
  function Typed(name: string, typ: string, title: string -> string): FieldSpec {
    var t := ResolveType(typ);
    FieldSpec(name, title(name), typ, t.goType, t.sqlType, false, None, false, false, "", t.size, t.precision, t.scale)
  }

  /** The text before and after the first colon of name:rest. */
  lemma SplitAtColon(name: string, rest: string)
    requires ':' !in name
    ensures SplitFirst(name + ":" + rest, ':') == [name, rest]
  {
    var s := name + ":" + rest;
    IndexOfJoin(name, ':', rest);
    assert s[..|name|] == name && s[|name| + 1..] == rest;
  }

  lemma CleanJoin(a: string, sep: string, b: string)
    requires a != "" && b != "" && Clean(a) && Clean(b)
    ensures TrimSpace(a + sep + b) == a + sep + b
  {
    var s := a + sep + b;
    assert s[0] == a[0] && s[|s| - 1] == b[|b| - 1];
    TrimSpaceOfClean(s);
  }

  /** name:type is read as the name, the type token, and no options. */
  lemma TypedSpec(name: string, typ: string, title: string -> string)
    requires name != "" && typ != "" && Clean(name) && Clean(typ)
    requires ':' !in name && ',' !in typ
    ensures ParseSpec(name + ":" + typ, title) == Typed(name, typ, title)
  {
    var s := name + ":" + typ;
    CleanJoin(name, ":", typ);
    SplitAtColon(name, typ);
    TrimSpaceOfClean(name);
    TrimSpaceOfClean(typ);
    assert TypeAndOptions(typ) == (typ, "");
    assert Initial(s, title) == Typed(name, typ, title);
    assert OptionText(s) == "";
    assert Applied(s, title) == Typed(name, typ, title);
  }

  /** name:type,options is read as the name, the type token, and the comma-separated option tokens. */
  lemma TypedSpecWithOptions(name: string, typ: string, opts: string, title: string -> string)
    requires name != "" && typ != "" && opts != "" && Clean(name) && Clean(typ) && Clean(opts)
    requires ':' !in name && ',' !in typ
    ensures ParseSpec(name + ":" + typ + "," + opts, title) ==
      Finish(ApplyOptions(Typed(name, typ, title), ParseOptions(Split(opts, ','))))
  {
    var s := name + ":" + typ + "," + opts;
    SpecParts(name, typ, opts, title);
    AppliedFrom(s, title, Typed(name, typ, title), opts);
    ParseClean(s, title);
  }

  /** The pieces of name:type,options as the parser sees them. */
  lemma SpecParts(name: string, typ: string, opts: string, title: string -> string)
    requires name != "" && typ != "" && opts != "" && Clean(name) && Clean(typ) && Clean(opts)
    requires ':' !in name && ',' !in typ
    ensures var s := name + ":" + typ + "," + opts;
      s != "" && TrimSpace(s) == s && Initial(s, title) == Typed(name, typ, title) && OptionText(s) == opts
  {
    var rest := typ + "," + opts;
    var s := name + ":" + rest;
    assert name + ":" + typ + "," + opts == s;
    CleanJoin(typ, ",", opts);
    CleanJoin(name, ":", rest);
    OptionsAfterComma(typ, opts);
    NameAndRest(name, rest, title);
  }

  lemma AppliedFrom(s: string, title: string -> string, fs: FieldSpec, opts: string)
    requires Initial(s, title) == fs && OptionText(s) == opts && opts != ""
    ensures Applied(s, title) == ApplyOptions(fs, ParseOptions(Split(opts, ',')))
  {
  }

  /** A spec without surrounding white space is finished after its options are read. */
  lemma ParseClean(s: string, title: string -> string)
    requires s != "" && TrimSpace(s) == s
    ensures ParseSpec(s, title) == Finish(Applied(s, title))
  {
  }

  /** For name:rest with a clean name and rest, the initial field and the option text come from rest alone. */
  lemma NameAndRest(name: string, rest: string, title: string -> string)
    requires name != "" && Clean(name) && ':' !in name && TrimSpace(rest) == rest
    ensures var s := name + ":" + rest;
      Initial(s, title) == Typed(name, TypeAndOptions(rest).0, title) && OptionText(s) == TypeAndOptions(rest).1
  {
    SplitAtColon(name, rest);
    TrimSpaceOfClean(name);
  }

  lemma OptionsAfterComma(typ: string, opts: string)
    requires typ != "" && Clean(typ) && Clean(opts) && ',' !in typ
    ensures TypeAndOptions(typ + "," + opts) == (typ, opts)
  {
    var rest := typ + "," + opts;
    IndexOfJoin(typ, ',', opts);
    assert rest[..|typ|] == typ && rest[|typ| + 1..] == opts;
    TrimSpaceOfClean(typ);
    TrimSpaceOfClean(opts);
  }

  // ---------------------------------------------------------------------------
  // varchar(n) and decimal(p)

  /** In kw(inner), the first "(" follows the keyword and the last ")" ends the token. */
  lemma Parenthesized(kw: string, inner: string)
    requires '(' !in kw
    ensures var base := kw + "(" + inner + ")";
      IndexOf(base, '(') == |kw| && LastIndexOf(base, ')') == |base| - 1 && base[|kw| + 1..|base| - 1] == inner
  {
    var base := kw + "(" + inner + ")";
    assert base == kw + ['('] + (inner + ")");
    IndexOfJoin(kw, '(', inner + ")");
  }

  lemma ItoaClean(n: int)
    ensures var d := Itoa(n);
      |d| > 0 && !IsSpace(d[0]) && !IsSpace(d[|d| - 1]) && ',' !in d && '(' !in d && ')' !in d
  {
    var m: nat := if n < 0 then -n else n;
    var d := NatToString(m);
    assert forall c :: c in d ==> IsDigit(c);
    if n < 0 {
      assert Itoa(n) == "-" + d;
    }
  }

  /** The lower-cased token starts with the keyword and is none of the table's keywords. */
  lemma FamilyToken(kw: string, inner: string)
    requires kw in {"varchar", "char", "decimal", "numeric"}
    ensures var low := ToLower(kw + "(" + inner + ")");
      HasPrefix(low, kw) && low !in Keywords
  {
    var base := kw + "(" + inner + ")";
    var low := ToLower(base);
    ToLowerOfLower(kw);
    assert low[..|kw|] == ToLower(kw) by {
      forall i | 0 <= i < |kw| ensures low[i] == ToLower(kw)[i] {
        assert base[i] == kw[i];
      }
    }
    assert low[|kw|] == '(';
  }

  /** A keyword(inner) token of the decimal or varchar family goes to that family's parser. */
  lemma ResolvesToFamily(kw: string, inner: string)
    requires kw in {"varchar", "char", "decimal", "numeric"}
    ensures var base := kw + "(" + inner + ")";
      ResolveType(base) == if kw in {"decimal", "numeric"} then DecimalType(base) else VarcharType(base)
  {
    var base := kw + "(" + inner + ")";
    var low := ToLower(base);
    FamilyToken(kw, inner);
    if kw in {"decimal", "numeric"} {
      TypeForDecimal(base, low);
    } else {
      TypeForVarchar(base, low);
    }
  }

  lemma TypeForDecimal(base: string, low: string)
    requires low !in Keywords && (HasPrefix(low, "decimal") || HasPrefix(low, "numeric"))
    ensures TypeFor(base, low) == DecimalType(base)
  {
  }

  lemma TypeForVarchar(base: string, low: string)
    requires low !in Keywords
    requires HasPrefix(low, "varchar") || HasPrefix(low, "char")
    ensures TypeFor(base, low) == VarcharType(base)
  {
    assert low[0] == 'v' || low[0] == 'c';
    assert !HasPrefix(low, "decimal") && !HasPrefix(low, "numeric");
  }

  lemma SizedVarcharOf(kw: string, n: int)
    requires '(' !in kw && MinInt64 <= n <= MaxInt64
    ensures VarcharType(kw + "(" + Itoa(n) + ")") == Typing("string", SizedVarchar(n), n, 0, 0)
  {
    Parenthesized(kw, Itoa(n));
    ItoaClean(n);
    TrimSpaceOfClean(Itoa(n));
    AtoiItoa(n);
  }

  lemma DecimalOf(kw: string, p: int)
    requires '(' !in kw && MinInt64 <= p <= MaxInt64
    ensures DecimalType(kw + "(" + Itoa(p) + ")") == Typing("float64", DecimalSql(p, 0), 0, p, 0)
  {
    Parenthesized(kw, Itoa(p));
    ItoaClean(p);
    TrimSpaceOfClean(Itoa(p));
    AtoiItoa(p);
    assert SplitFirst(Itoa(p), ',') == [Itoa(p)];
  }

  /** varchar(n) and char(n) with an integer n: VARCHAR(n), size n. */
  lemma VarcharSize(kw: string, n: int)
    requires kw == "varchar" || kw == "char"
    requires MinInt64 <= n <= MaxInt64
    ensures ResolveType(kw + "(" + Itoa(n) + ")") == Typing("string", "VARCHAR(" + Itoa(n) + ")", n, 0, 0)
  {
    ResolvesToFamily(kw, Itoa(n));
    SizedVarcharOf(kw, n);
  }

  /** decimal(p) and numeric(p) with an integer p: precision p, scale 0, and DECIMAL(p) when p is positive. */
  lemma DecimalPrecision(kw: string, p: int)
    requires kw == "decimal" || kw == "numeric"
    requires MinInt64 <= p <= MaxInt64
    ensures ResolveType(kw + "(" + Itoa(p) + ")") ==
      Typing("float64", if p > 0 then "DECIMAL(" + Itoa(p) + ")" else "DECIMAL", 0, p, 0)
  {
    ResolvesToFamily(kw, Itoa(p));
    DecimalOf(kw, p);
  }

  // ---------------------------------------------------------------------------
  // The two specs of the generator's own tests

  /** "title:string" is the non-null string column title. */
  lemma TitleSpec(title: string -> string)
    ensures var fs := ParseSpec("title" + ":" + "string", title);
      fs.name == "title" && fs.goName == title("title") && fs.goType == "string" && fs.sqlType == "TEXT" &&
      !fs.nullable && fs.defaultValue == None
  {
    TypedSpec("title", "string", title);
    StringResolves();
  }

  lemma StringResolves()
    ensures ResolveType("string") == Typing("string", "TEXT", 0, 0, 0)
  {
    ToLowerOfLower("string");
  }

  /**
   * "price:decimal(10,2),default=0,nullable" is a nullable column with
   * default 0. The type token ends at the first comma, so it is
   * "decimal(10": no closing parenthesis, hence plain DECIMAL, and the
   * token "2)" is an option that is ignored.
   */
  lemma PriceSpec(title: string -> string)
    ensures var fs := ParseSpec("price" + ":" + "decimal(10" + "," + "2),default=0,nullable", title);
      fs.name == "price" && fs.nullable && fs.defaultValue == Some("0") &&
      fs.sqlType == "DECIMAL" && fs.precision == 0 && fs.scale == 0 && fs.goType == "*float64"
  {
    var typ := "decimal(10";
    var opts := "2),default=0,nullable";
    TypedSpecWithOptions("price", typ, opts, title);
    PriceOptions();
    DecimalTenResolves();
    DefaultThenNullable(Typed("price", typ, title), "0");
    FloatPointer();
  }

  lemma DefaultThenNullable(fs: FieldSpec, v: string)
    ensures ApplyOptions(fs, [Ignored, DefaultOpt(v), NullableOpt]) == fs.(defaultValue := Some(v), nullable := true)
  {
    var o := [Ignored, DefaultOpt(v), NullableOpt];
    assert o[1..] == [DefaultOpt(v), NullableOpt] && o[1..][1..] == [NullableOpt] && o[1..][1..][1..] == [];
    var d := fs.(defaultValue := Some(v));
    assert ApplyOptions(fs, o) == ApplyOptions(fs, o[1..]);
    assert ApplyOptions(fs, o[1..]) == ApplyOptions(d, o[1..][1..]);
    assert ApplyOptions(d, o[1..][1..]) == ApplyOptions(d.(nullable := true), []);
  }

  lemma FloatPointer()
    ensures PointerType("float64") == "*float64"
  {
  }

  lemma PriceOptions()
    ensures ParseOptions(Split("2),default=0,nullable", ',')) == [Ignored, DefaultOpt("0"), NullableOpt]
  {
    PriceTokens();
    ParseThree("2)", "default=0", "nullable");
    OptionTokens();
  }

  lemma PriceTokens()
    ensures Split("2),default=0,nullable", ',') == ["2)", "default=0", "nullable"]
  {
    var toks := ["2)", "default=0", "nullable"];
    assert Join(toks, ",") == "2),default=0,nullable";
    SplitJoin(toks, ',');
  }

  lemma ParseThree(a: string, b: string, c: string)
    ensures ParseOptions([a, b, c]) == [ParseOption(a), ParseOption(b), ParseOption(c)]
  {
    var toks := [a, b, c];
    assert toks[1..] == [b, c] && toks[1..][1..] == [c] && toks[1..][1..][1..] == [];
    assert ParseOptions([c]) == [ParseOption(c)] + ParseOptions([]);
    assert ParseOptions([b, c]) == [ParseOption(b)] + ParseOptions([c]);
  }

  lemma OptionTokens()
    ensures ParseOption("2)") == Ignored && ParseOption("default=0") == DefaultOpt("0")
    ensures ParseOption("nullable") == NullableOpt
  {
    TrimSpaceOfClean("2)");
    TrimSpaceOfClean("default=0");
    TrimSpaceOfClean("nullable");
  }

  lemma DecimalTenResolves()
    ensures ResolveType("decimal(10") == Typing("float64", "DECIMAL", 0, 0, 0)
  {
    var typ := "decimal(10";
    ToLowerOfLower(typ);
    assert ')' !in typ && HasPrefix(typ, "decimal");
    UnclosedDecimal(typ);
  }

  /** A decimal or numeric token without a closing parenthesis is plain DECIMAL. */
  lemma UnclosedDecimal(base: string)
    requires var low := ToLower(base); HasPrefix(low, "decimal") || HasPrefix(low, "numeric")
    requires ')' !in base
    ensures ResolveType(base) == Typing("float64", "DECIMAL", 0, 0, 0)
  {
    var low := ToLower(base);
    assert (low[0] == 'd' && low[1] == 'e') || low[0] == 'n';
    assert low !in Keywords;
    TypeForDecimal(base, low);
  }
}
