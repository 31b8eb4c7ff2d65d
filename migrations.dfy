/**
 * The migration runner of internal/migrations/migrations.go.
 *
 * The database is reduced to what the runner reads and writes: the
 * flow_migrations ledger (applied base names, oldest first) and the list of
 * migration files whose SQL was committed. Whether a statement succeeds is
 * decided by the database (`accepts`); reads of the ledger always succeed.
 * The migrations directory is the listing os.ReadDir returns. ApplyAll and
 * RollbackLast name a migration file by its entry name in that directory;
 * ApplySingle looks its path up in the same listing and records the path's
 * base name (filepath.Base) without ".up.sql".
 */
module Migrations {
  import opened Wrappers
  import opened Text

  const UpSuffix: string := ".up.sql"
  const DownSuffix: string := ".down.sql"

  /** One entry of the migrations directory. */
  datatype Entry = Entry(name: string, isDir: bool)

  /** What reading the migrations directory gives: no such directory, another error, or its entries. */
  datatype Directory = Missing | Unreadable(reason: string) | Listing(entries: seq<Entry>)

  /** The statements the runner sends to the database. */
  datatype Stmt = CreateLedger | RunFile(file: string) | InsertRow(base: string) | DeleteRow(base: string)

  datatype MigrationError =
    | LedgerTableFailed
    | DirNotFound(dir: string)
    | ReadDirFailed(reason: string)
    | ApplyFailed(file: string)
    | MarkFailed(base: string)
    | NoneApplied(dir: string)
    | DownNotFound(base: string)
    | RollbackFailed(file: string)
    | UnmarkFailed(base: string)
    | StatFailed(path: string)
    | IsDirectory(path: string)
    | ExecFailed(path: string)
    | WalkFailed(reason: string)

  /** The ledger (base names in the order they were applied) and the files whose SQL was committed, in order. */
  datatype Db = Db(ledger: seq<string>, executed: seq<string>)

  /** The database after an operation and the error it returned. */
  datatype Run = Run(db: Db, outcome: Outcome<MigrationError>)

  // ---------------------------------------------------------------------------
  // The file system and the database statements

  /** os.Stat of a name in the directory: None when it does not exist, else whether it is a directory. */
  function Stat(d: Directory, name: string): Option<bool> {
    if d.Listing? then Lookup(d.entries, name) else None
  }

  function Lookup(entries: seq<Entry>, name: string): Option<bool> {
    if |entries| == 0 then None
    else if entries[0].name == name then Some(entries[0].isDir)
    else Lookup(entries[1..], name)
  }

  /** execFile: the file is read (so it must exist and not be a directory) and its SQL committed. */
  predicate ExecOk(d: Directory, file: string, accepts: Stmt -> bool) {
    Stat(d, file) == Some(false) && accepts(RunFile(file))
  }

  /** markApplied: the insert fails on the primary key when the name is already in the ledger. */
  predicate InsertOk(ledger: seq<string>, base: string, accepts: Stmt -> bool) {
    base !in ledger && accepts(InsertRow(base))
  }

  /** The ledger key of an up file: its name without ".up.sql". */
  function BaseOf(file: string): string {
    TrimSuffix(file, UpSuffix)
  }

  /** The ledger key ApplySingle records for an up file given by path: its base name without ".up.sql". */
  function SingleKey(path: string): string {
    BaseOf(Base(path))
  }

  function Bases(files: seq<string>): (r: seq<string>)
    ensures |r| == |files|
  {
    if |files| == 0 then [] else [BaseOf(files[0])] + Bases(files[1..])
  }

  /** DELETE FROM flow_migrations WHERE name = base: every row with that name goes. */
  function Remove(ledger: seq<string>, base: string): (r: seq<string>)
    ensures base !in r
  {
    if |ledger| == 0 then []
    else if ledger[0] == base then Remove(ledger[1..], base)
    else [ledger[0]] + Remove(ledger[1..], base)
  }

  predicate NoDup(s: seq<string>) {
    forall i, j :: 0 <= i < j < |s| ==> s[i] != s[j]
  }

  predicate IsPrefix(a: seq<string>, b: seq<string>) {
    |a| <= |b| && b[..|a|] == a
  }

  // ---------------------------------------------------------------------------
  // collect

  /** The names of the non-directory entries that end with `suffix`, in listing order. */
  function Matching(entries: seq<Entry>, suffix: string): seq<string> {
    if |entries| == 0 then []
    else if !entries[0].isDir && HasSuffix(entries[0].name, suffix) then [entries[0].name] + Matching(entries[1..], suffix)
    else Matching(entries[1..], suffix)
  }

  function Collect(dir: string, d: Directory, suffix: string): Result<seq<string>, MigrationError> {
    match d
    case Missing => Failure(DirNotFound(dir))
    case Unreadable(why) => Failure(ReadDirFailed(why))
    case Listing(entries) => Success(Matching(entries, suffix))
  }

  /** collect keeps exactly the files (not directories) whose name ends with the suffix. */
  lemma {:induction false} MatchingMembers(entries: seq<Entry>, suffix: string, x: string)
    ensures x in Matching(entries, suffix) <==>
      HasSuffix(x, suffix) && exists i :: 0 <= i < |entries| && entries[i].name == x && !entries[i].isDir
  {
    if |entries| > 0 {
      MatchingMembers(entries[1..], suffix, x);
      assert forall i :: 1 <= i < |entries| ==> entries[i] == entries[1..][i - 1];
    }
  }

  // ---------------------------------------------------------------------------
  // ApplyAll

  /** The loop of ApplyAll over the sorted up files: skip applied ones, else run the SQL and record the base name. */
  function ApplyFrom(ups: seq<string>, d: Directory, s: Db, accepts: Stmt -> bool): Run
    decreases |ups|
  {
    if |ups| == 0 then Run(s, Pass)
    else
      var f := ups[0];
      var base := BaseOf(f);
      if base in s.ledger then ApplyFrom(ups[1..], d, s, accepts)
      else if !ExecOk(d, f, accepts) then Run(s, Fail(ApplyFailed(f)))
      else
        var ran := s.(executed := s.executed + [f]);
        if !InsertOk(ran.ledger, base, accepts) then Run(ran, Fail(MarkFailed(base)))
        else ApplyFrom(ups[1..], d, ran.(ledger := ran.ledger + [base]), accepts)
  }

  /** The reference meaning of ApplyAll. */
  function ApplyAllSpec(dir: string, d: Directory, s: Db, accepts: Stmt -> bool): Run {
    if !accepts(CreateLedger) then Run(s, Fail(LedgerTableFailed))
    else
      match Collect(dir, d, UpSuffix)
      case Failure(e) => Run(s, Fail(e))
      case Success(ups) => ApplyFrom(SortStrings(ups), d, s, accepts)
  }

  /** ApplyAll only appends: to the ledger, and to the committed files. */
  lemma {:induction false} ApplyFromGrows(ups: seq<string>, d: Directory, s: Db, accepts: Stmt -> bool)
    ensures IsPrefix(s.ledger, ApplyFrom(ups, d, s, accepts).db.ledger)
    ensures IsPrefix(s.executed, ApplyFrom(ups, d, s, accepts).db.executed)
    decreases |ups|
  {
    if |ups| > 0 {
      var f := ups[0];
      var base := BaseOf(f);
      if base in s.ledger {
        ApplyFromGrows(ups[1..], d, s, accepts);
      } else if ExecOk(d, f, accepts) && InsertOk(s.ledger, base, accepts) {
        var next := Db(s.ledger + [base], s.executed + [f]);
        ApplyFromGrows(ups[1..], d, next, accepts);
        var t := ApplyFrom(ups[1..], d, next, accepts).db;
        assert t.ledger[..|next.ledger|][..|s.ledger|] == t.ledger[..|s.ledger|];
        assert t.executed[..|next.executed|][..|s.executed|] == t.executed[..|s.executed|];
      }
    }
  }

  /**
   * Every file ApplyAll committed is recorded under its base name, in
   * order, except the last one when it is the insert into the ledger that
   * failed.
   */
  lemma {:induction false} ApplyFromAccounts(ups: seq<string>, d: Directory, s: Db, accepts: Stmt -> bool)
    ensures var r := ApplyFrom(ups, d, s, accepts);
      |s.executed| <= |r.db.executed| && |s.ledger| <= |r.db.ledger| &&
      Bases(r.db.executed[|s.executed|..]) ==
        r.db.ledger[|s.ledger|..] + (if r.outcome.Fail? && r.outcome.error.MarkFailed? then [r.outcome.error.base] else [])
    decreases |ups|
  {
    ApplyFromGrows(ups, d, s, accepts);
    if |ups| > 0 {
      var f := ups[0];
      var base := BaseOf(f);
      if base in s.ledger {
        ApplyFromAccounts(ups[1..], d, s, accepts);
      } else if ExecOk(d, f, accepts) && InsertOk(s.ledger, base, accepts) {
        var next := Db(s.ledger + [base], s.executed + [f]);
        ApplyFromAccounts(ups[1..], d, next, accepts);
        ApplyFromGrows(ups[1..], d, next, accepts);
        StepAccounts(s, next, ApplyFrom(ups[1..], d, next, accepts).db, f, base);
      } else if ExecOk(d, f, accepts) {
        var t := ApplyFrom(ups, d, s, accepts).db;
        assert t.executed[|s.executed|..] == [f];
        assert Bases([f]) == [BaseOf(f)];
      }
    }
  }

  /** One recorded step in front of an accounted remainder keeps the account. */
  lemma StepAccounts(s: Db, next: Db, t: Db, f: string, base: string)
    requires next == Db(s.ledger + [base], s.executed + [f]) && base == BaseOf(f)
    requires IsPrefix(next.ledger, t.ledger) && IsPrefix(next.executed, t.executed)
    ensures Bases(t.executed[|s.executed|..]) == [base] + Bases(t.executed[|next.executed|..])
    ensures t.ledger[|s.ledger|..] == [base] + t.ledger[|next.ledger|..]
  {
    var e := t.executed[|s.executed|..];
    assert t.executed[|s.executed|] == next.executed[|s.executed|] == f;
    assert e == [f] + t.executed[|next.executed|..];
    assert e[1..] == t.executed[|next.executed|..];
    assert t.ledger[|s.ledger|] == next.ledger[|s.ledger|] == base;
  }

  /** After a successful run every up file's base name is in the ledger. */
  lemma {:induction false} ApplyFromCovers(ups: seq<string>, d: Directory, s: Db, accepts: Stmt -> bool)
    ensures var r := ApplyFrom(ups, d, s, accepts);
      r.outcome == Pass ==> forall i :: 0 <= i < |ups| ==> BaseOf(ups[i]) in r.db.ledger
    decreases |ups|
  {
    if |ups| > 0 {
      var f := ups[0];
      var base := BaseOf(f);
      var r := ApplyFrom(ups, d, s, accepts);
      if base in s.ledger {
        ApplyFromCovers(ups[1..], d, s, accepts);
        ApplyFromGrows(ups[1..], d, s, accepts);
        assert base in r.db.ledger[..|s.ledger|];
      } else if ExecOk(d, f, accepts) && InsertOk(s.ledger, base, accepts) {
        var next := Db(s.ledger + [base], s.executed + [f]);
        ApplyFromCovers(ups[1..], d, next, accepts);
        ApplyFromGrows(ups[1..], d, next, accepts);
        assert base in r.db.ledger[..|next.ledger|];
      }
      if r.outcome == Pass {
        forall i | 0 <= i < |ups| ensures BaseOf(ups[i]) in r.db.ledger {
          if i > 0 {
            assert ups[i] == ups[1..][i - 1];
          }
        }
      }
    }
  }

  /** With every base name already recorded, the loop runs nothing and changes nothing. */
  lemma {:induction false} ApplyFromNothingPending(ups: seq<string>, d: Directory, s: Db, accepts: Stmt -> bool)
    requires forall i :: 0 <= i < |ups| ==> BaseOf(ups[i]) in s.ledger
    ensures ApplyFrom(ups, d, s, accepts) == Run(s, Pass)
    decreases |ups|
  {
    if |ups| > 0 {
      assert BaseOf(ups[0]) in s.ledger;
      assert forall i :: 0 <= i < |ups| - 1 ==> ups[1..][i] == ups[i + 1];
      ApplyFromNothingPending(ups[1..], d, s, accepts);
    }
  }

  /** ApplyAll is idempotent: a second run after a successful one adds nothing and runs nothing. */
  lemma ApplyAllIdempotent(dir: string, d: Directory, s: Db, accepts: Stmt -> bool)
    requires ApplyAllSpec(dir, d, s, accepts).outcome == Pass
    ensures var t := ApplyAllSpec(dir, d, s, accepts).db; ApplyAllSpec(dir, d, t, accepts) == Run(t, Pass)
  {
    var ups := SortStrings(Collect(dir, d, UpSuffix).value);
    ApplyFromCovers(ups, d, s, accepts);
    ApplyFromNothingPending(ups, d, ApplyAllSpec(dir, d, s, accepts).db, accepts);
  }

  /** The migration that made ApplyAll fail is not recorded, and neither is anything after it. */
  lemma {:induction false} ApplyFromFailureNotRecorded(ups: seq<string>, d: Directory, s: Db, accepts: Stmt -> bool)
    ensures var r := ApplyFrom(ups, d, s, accepts);
      (r.outcome.Fail? && r.outcome.error.ApplyFailed? ==> BaseOf(r.outcome.error.file) !in r.db.ledger) &&
      (r.outcome.Fail? && r.outcome.error.MarkFailed? ==> r.outcome.error.base !in r.db.ledger)
    decreases |ups|
  {
    if |ups| > 0 {
      var base := BaseOf(ups[0]);
      if base in s.ledger {
        ApplyFromFailureNotRecorded(ups[1..], d, s, accepts);
      } else if ExecOk(d, ups[0], accepts) && InsertOk(s.ledger, base, accepts) {
        ApplyFromFailureNotRecorded(ups[1..], d, Db(s.ledger + [base], s.executed + [ups[0]]), accepts);
      }
    }
  }

  // ---------------------------------------------------------------------------
  // PendingMigrations and AppliedMigrations

  /** The base names of the up files not in the ledger, in file order. */
  function Pending(ups: seq<string>, ledger: seq<string>): seq<string> {
    if |ups| == 0 then []
    else if BaseOf(ups[0]) in ledger then Pending(ups[1..], ledger)
    else [BaseOf(ups[0])] + Pending(ups[1..], ledger)
  }

  function PendingSpec(dir: string, d: Directory, s: Db, accepts: Stmt -> bool): Result<seq<string>, MigrationError> {
    if !accepts(CreateLedger) then Failure(LedgerTableFailed)
    else
      match Collect(dir, d, UpSuffix)
      case Failure(e) => Failure(e)
      case Success(ups) => Success(Pending(SortStrings(ups), s.ledger))
  }

  /** A base name is pending exactly when some up file has it and the ledger does not. */
  lemma {:induction false} PendingMembers(ups: seq<string>, ledger: seq<string>, b: string)
    ensures b in Pending(ups, ledger) <==> b !in ledger && exists i :: 0 <= i < |ups| && BaseOf(ups[i]) == b
    decreases |ups|
  {
    if |ups| > 0 {
      PendingMembers(ups[1..], ledger, b);
      assert forall i :: 1 <= i < |ups| ==> ups[i] == ups[1..][i - 1];
    }
  }

  /** Right after a successful ApplyAll nothing is pending. */
  lemma PendingEmptyAfterApplyAll(dir: string, d: Directory, s: Db, accepts: Stmt -> bool)
    requires ApplyAllSpec(dir, d, s, accepts).outcome == Pass
    ensures PendingSpec(dir, d, ApplyAllSpec(dir, d, s, accepts).db, accepts) == Success([])
  {
    var ups := SortStrings(Collect(dir, d, UpSuffix).value);
    var t := ApplyAllSpec(dir, d, s, accepts).db;
    ApplyFromCovers(ups, d, s, accepts);
    var p := Pending(ups, t.ledger);
    if p != [] {
      PendingMembers(ups, t.ledger, p[0]);
    }
  }

  /** Adding a name that no up file has does not change what is pending. */
  lemma {:induction false} PendingIgnores(ups: seq<string>, ledger: seq<string>, b: string)
    requires forall i :: 0 <= i < |ups| ==> BaseOf(ups[i]) != b
    ensures Pending(ups, ledger + [b]) == Pending(ups, ledger)
    decreases |ups|
  {
    if |ups| > 0 {
      assert BaseOf(ups[0]) in ledger + [b] <==> BaseOf(ups[0]) in ledger;
      assert forall i :: 0 <= i < |ups| - 1 ==> ups[1..][i] == ups[i + 1];
      PendingIgnores(ups[1..], ledger, b);
    }
  }

  predicate DistinctBases(ups: seq<string>) {
    forall i, j :: 0 <= i < j < |ups| ==> BaseOf(ups[i]) != BaseOf(ups[j])
  }

  /** A successful ApplyAll appends exactly what PendingMigrations reported, in the same order. */
  lemma {:induction false} ApplyFromRecordsPending(ups: seq<string>, d: Directory, s: Db, accepts: Stmt -> bool)
    requires DistinctBases(ups)
    ensures var r := ApplyFrom(ups, d, s, accepts);
      r.outcome == Pass ==> r.db.ledger == s.ledger + Pending(ups, s.ledger)
    decreases |ups|
  {
    if |ups| > 0 {
      var base := BaseOf(ups[0]);
      var rest := ups[1..];
      assert DistinctBases(rest) by {
        forall i, j | 0 <= i < j < |rest| ensures BaseOf(rest[i]) != BaseOf(rest[j]) {
          assert rest[i] == ups[i + 1] && rest[j] == ups[j + 1];
        }
      }
      if base in s.ledger {
        ApplyFromRecordsPending(rest, d, s, accepts);
      } else if ExecOk(d, ups[0], accepts) && InsertOk(s.ledger, base, accepts) {
        var next := Db(s.ledger + [base], s.executed + [ups[0]]);
        ApplyFromRecordsPending(rest, d, next, accepts);
        assert forall i :: 0 <= i < |rest| ==> BaseOf(rest[i]) != base by {
          forall i | 0 <= i < |rest| ensures BaseOf(rest[i]) != base {
            assert rest[i] == ups[i + 1];
          }
        }
        PendingIgnores(rest, s.ledger, base);
      }
    }
  }

  // ---------------------------------------------------------------------------
  // RollbackLast

  /** The reference meaning of RollbackLast: undo the most recently applied migration with its down file. */
  function RollbackSpec(dir: string, d: Directory, s: Db, accepts: Stmt -> bool): Run {
    if !accepts(CreateLedger) then Run(s, Fail(LedgerTableFailed))
    else if |s.ledger| == 0 then Run(s, Fail(NoneApplied(dir)))
    else
      var base := s.ledger[|s.ledger| - 1];
      var down := base + DownSuffix;
      if Stat(d, down).None? then Run(s, Fail(DownNotFound(base)))
      else if !ExecOk(d, down, accepts) then Run(s, Fail(RollbackFailed(down)))
      else
        var ran := s.(executed := s.executed + [down]);
        if !accepts(DeleteRow(base)) then Run(ran, Fail(UnmarkFailed(base)))
        else Run(ran.(ledger := Remove(s.ledger, base)), Pass)
  }

  /** With an empty ledger RollbackLast fails and runs nothing. */
  lemma RollbackEmptyLedger(dir: string, d: Directory, s: Db, accepts: Stmt -> bool)
    requires s.ledger == []
    ensures RollbackSpec(dir, d, s, accepts).db == s
    ensures accepts(CreateLedger) ==> RollbackSpec(dir, d, s, accepts).outcome == Fail(NoneApplied(dir))
  {
  }

  /** Removing the last name of a ledger without repeats leaves the names before it. */
  lemma {:induction false} RemoveLast(ledger: seq<string>, b: string)
    requires b !in ledger
    ensures Remove(ledger + [b], b) == ledger
    decreases |ledger|
  {
    if |ledger| > 0 {
      assert (ledger + [b])[1..] == ledger[1..] + [b];
      RemoveLast(ledger[1..], b);
      assert ledger == [ledger[0]] + ledger[1..];
    } else {
      assert [b][1..] == [];
    }
  }

  /** A successful rollback runs the down file of the last entry and removes exactly that entry. */
  lemma RollbackRemovesLast(dir: string, d: Directory, s: Db, accepts: Stmt -> bool)
    requires NoDup(s.ledger)
    ensures var r := RollbackSpec(dir, d, s, accepts);
      r.outcome == Pass ==>
        |s.ledger| > 0 &&
        r.db.ledger == s.ledger[..|s.ledger| - 1] &&
        r.db.executed == s.executed + [s.ledger[|s.ledger| - 1] + DownSuffix]
  {
    if |s.ledger| > 0 {
      var n := |s.ledger| - 1;
      assert s.ledger == s.ledger[..n] + [s.ledger[n]];
      RemoveLast(s.ledger[..n], s.ledger[n]);
    }
  }

  // ---------------------------------------------------------------------------
  // ApplySingle

  /** The reference meaning of ApplySingle: run one file and, for an up file, record it without checking the ledger first. */
  function ApplySingleSpec(path: string, d: Directory, s: Db, accepts: Stmt -> bool): Run {
    ApplySingleAs(path, SingleKey(path), d, s, accepts)
  }

  /** ApplySingle with the ledger key of an up file given as `key`. */
  function ApplySingleAs(path: string, key: string, d: Directory, s: Db, accepts: Stmt -> bool): Run {
    match Stat(d, path)
    case None => Run(s, Fail(StatFailed(path)))
    case Some(isDir) =>
      if isDir then Run(s, Fail(IsDirectory(path)))
      else if !accepts(RunFile(path)) then Run(s, Fail(ExecFailed(path)))
      else
        var ran := s.(executed := s.executed + [path]);
        if !HasSuffix(path, UpSuffix) then Run(ran, Pass)
        else if !accepts(CreateLedger) then Run(ran, Fail(LedgerTableFailed))
        else if !InsertOk(ran.ledger, key, accepts) then Run(ran, Fail(MarkFailed(key)))
        else Run(ran.(ledger := ran.ledger + [key]), Pass)
  }

  /**
   * Applying the same up file twice runs its SQL twice, and the second run
   * fails on the ledger's primary key.
   */
  lemma ApplySingleTwice(path: string, d: Directory, s: Db, accepts: Stmt -> bool)
    requires HasSuffix(path, UpSuffix) && ApplySingleSpec(path, d, s, accepts).outcome == Pass
    ensures var t := ApplySingleSpec(path, d, s, accepts).db;
      var r := ApplySingleSpec(path, d, t, accepts);
      r.outcome == Fail(MarkFailed(SingleKey(path))) && r.db == Db(t.ledger, t.executed + [path])
  {
    ApplyAsTwice(path, SingleKey(path), d, s, accepts);
  }

  lemma ApplyAsTwice(path: string, k: string, d: Directory, s: Db, accepts: Stmt -> bool)
    requires HasSuffix(path, UpSuffix) && ApplySingleAs(path, k, d, s, accepts).outcome == Pass
    ensures var t := ApplySingleAs(path, k, d, s, accepts).db;
      var r := ApplySingleAs(path, k, d, t, accepts);
      r.outcome == Fail(MarkFailed(k)) && r.db == Db(t.ledger, t.executed + [path])
  {
  }

  /** Applying an up file and then rolling back restores the ledger. */
  lemma ApplySingleThenRollback(dir: string, path: string, d: Directory, s: Db, accepts: Stmt -> bool)
    requires HasSuffix(path, UpSuffix) && NoDup(s.ledger)
    requires ApplySingleSpec(path, d, s, accepts).outcome == Pass
    requires ExecOk(d, SingleKey(path) + DownSuffix, accepts) && accepts(DeleteRow(SingleKey(path)))
    ensures var t := ApplySingleSpec(path, d, s, accepts).db;
      RollbackSpec(dir, d, t, accepts) == Run(Db(s.ledger, t.executed + [SingleKey(path) + DownSuffix]), Pass)
  {
    ApplyAsThenRollback(dir, path, SingleKey(path), d, s, accepts);
  }

  lemma ApplyAsThenRollback(dir: string, path: string, k: string, d: Directory, s: Db, accepts: Stmt -> bool)
    requires HasSuffix(path, UpSuffix) && NoDup(s.ledger)
    requires ApplySingleAs(path, k, d, s, accepts).outcome == Pass
    requires ExecOk(d, k + DownSuffix, accepts) && accepts(DeleteRow(k))
    ensures var t := ApplySingleAs(path, k, d, s, accepts).db;
      RollbackSpec(dir, d, t, accepts) == Run(Db(s.ledger, t.executed + [k + DownSuffix]), Pass)
  {
    var t := ApplySingleAs(path, k, d, s, accepts).db;
    assert t.ledger == s.ledger + [k];
    assert t.ledger[|t.ledger| - 1] == k;
    RemoveLast(s.ledger, k);
  }

  // ---------------------------------------------------------------------------
  // The ledger's primary key

  /** A name not yet in a ledger without repeats can be appended without creating one. */
  lemma AppendNoDup(ledger: seq<string>, b: string)
    requires NoDup(ledger) && b !in ledger
    ensures NoDup(ledger + [b])
  {
    var l := ledger + [b];
    forall i, j | 0 <= i < j < |l| ensures l[i] != l[j] {
      if j == |ledger| {
        assert l[i] == ledger[i];
      } else {
        assert l[i] == ledger[i] && l[j] == ledger[j];
      }
    }
  }

  /** The ApplyAll loop records only names the ledger does not hold yet. */
  lemma {:induction false} ApplyFromNoDup(ups: seq<string>, d: Directory, s: Db, accepts: Stmt -> bool)
    requires NoDup(s.ledger)
    ensures NoDup(ApplyFrom(ups, d, s, accepts).db.ledger)
    decreases |ups|
  {
    if |ups| > 0 {
      var f := ups[0];
      var base := BaseOf(f);
      if base in s.ledger {
        ApplyFromNoDup(ups[1..], d, s, accepts);
      } else if ExecOk(d, f, accepts) && InsertOk(s.ledger, base, accepts) {
        AppendNoDup(s.ledger, base);
        ApplyFromNoDup(ups[1..], d, Db(s.ledger + [base], s.executed + [f]), accepts);
      }
    }
  }

  /**
   * ApplyAll keeps the ledger free of repeated names, as the primary key on
   * name does; with ApplySingleKeepsNoDup and RollbackKeepsNoDup, every
   * ledger reached from an empty table has distinct names.
   */
  lemma ApplyAllKeepsNoDup(dir: string, d: Directory, s: Db, accepts: Stmt -> bool)
    requires NoDup(s.ledger)
    ensures NoDup(ApplyAllSpec(dir, d, s, accepts).db.ledger)
  {
    if accepts(CreateLedger) && Collect(dir, d, UpSuffix).Success? {
      ApplyFromNoDup(SortStrings(Collect(dir, d, UpSuffix).value), d, s, accepts);
    }
  }

  lemma ApplySingleKeepsNoDup(path: string, d: Directory, s: Db, accepts: Stmt -> bool)
    requires NoDup(s.ledger)
    ensures NoDup(ApplySingleSpec(path, d, s, accepts).db.ledger)
  {
    ApplyAsNoDup(path, SingleKey(path), d, s, accepts);
  }

  lemma RollbackKeepsNoDup(dir: string, d: Directory, s: Db, accepts: Stmt -> bool)
    requires NoDup(s.ledger)
    ensures NoDup(RollbackSpec(dir, d, s, accepts).db.ledger)
  {
    if |s.ledger| > 0 {
      var n := |s.ledger| - 1;
      PrefixNoDup(s.ledger, n);
      assert s.ledger == s.ledger[..n] + [s.ledger[n]];
      RemoveLast(s.ledger[..n], s.ledger[n]);
    }
  }

  lemma PrefixNoDup(ledger: seq<string>, n: nat)
    requires NoDup(ledger) && n < |ledger|
    ensures NoDup(ledger[..n]) && ledger[n] !in ledger[..n]
  {
    forall i, j | 0 <= i < j < n ensures ledger[..n][i] != ledger[..n][j] {
      assert ledger[..n][i] == ledger[i] && ledger[..n][j] == ledger[j];
    }
  }

  lemma ApplyAsNoDup(path: string, k: string, d: Directory, s: Db, accepts: Stmt -> bool)
    requires NoDup(s.ledger)
    ensures NoDup(ApplySingleAs(path, k, d, s, accepts).db.ledger)
  {
    if k !in s.ledger {
      AppendNoDup(s.ledger, k);
    }
  }

  /**
   * ApplySingle on dir/<b>.up.sql records b, the key ApplyAll gives the
   * directory entry <b>.up.sql, whatever directory the path names.
   */
  lemma SingleKeyBelowDir(dir: string, b: string)
    requires '/' !in b
    ensures SingleKey(dir + "/" + (b + UpSuffix)) == b && SingleKey(b + UpSuffix) == b
  {
    var x := b + UpSuffix;
    assert x[|x| - 1] == UpSuffix[|UpSuffix| - 1];
    assert '/' !in x by {
      assert forall k :: 0 <= k < |x| ==> x[k] == if k < |b| then b[k] else UpSuffix[k - |b|];
    }
    BaseBelowFlat(dir, x);
    MigrationPair(b);
  }

  /** The up and down files of one migration: the up file's key is the shared base, and the down file is no up file. */
  lemma MigrationPair(b: string)
    ensures HasSuffix(b + UpSuffix, UpSuffix) && BaseOf(b + UpSuffix) == b
    ensures !HasSuffix(b + DownSuffix, UpSuffix) && b + UpSuffix != b + DownSuffix
  {
    var up := b + UpSuffix;
    var down := b + DownSuffix;
    assert up[|up| - |UpSuffix|..] == UpSuffix;
    assert up[..|up| - |UpSuffix|] == b;
    assert down[|down| - |UpSuffix|..] == "own.sql";
  }

  /** The directory of the SQLite test: one migration's down and up files. */
  function PairDir(b: string): Directory {
    Listing([Entry(b + DownSuffix, false), Entry(b + UpSuffix, false)])
  }

  /** A database that accepts every statement. */
  function AcceptAll(): Stmt -> bool {
    (st: Stmt) => true
  }

  lemma PairDirFiles(b: string)
    ensures forall dir :: Collect(dir, PairDir(b), UpSuffix) == Success([b + UpSuffix])
    ensures Stat(PairDir(b), b + UpSuffix) == Some(false) && Stat(PairDir(b), b + DownSuffix) == Some(false)
  {
    var up := b + UpSuffix;
    var down := b + DownSuffix;
    var entries := [Entry(down, false), Entry(up, false)];
    MigrationPair(b);
    assert entries[1..] == [Entry(up, false)];
    assert entries[1..][1..] == [];
    assert Matching(entries[1..][1..], UpSuffix) == [];
    assert Matching(entries[1..], UpSuffix) == [up];
    assert Matching(entries, UpSuffix) == Matching(entries[1..], UpSuffix);
    assert Lookup(entries[1..], up) == Some(false);
  }

  /**
   * The scenario of the SQLite test: with the directory above and a
   * database that accepts every statement, ApplyAll records the base name,
   * a second ApplyAll changes nothing, and RollbackLast runs the down file
   * and empties the ledger.
   */
  lemma ApplyTwiceThenRollback(dir: string, b: string)
    ensures var r1 := ApplyAllSpec(dir, PairDir(b), Db([], []), AcceptAll());
      r1 == Run(Db([b], [b + UpSuffix]), Pass) &&
      ApplyAllSpec(dir, PairDir(b), r1.db, AcceptAll()) == r1 &&
      RollbackSpec(dir, PairDir(b), r1.db, AcceptAll()) == Run(Db([], [b + UpSuffix, b + DownSuffix]), Pass)
  {
    var up := b + UpSuffix;
    var d := PairDir(b);
    var acc := AcceptAll();
    MigrationPair(b);
    PairDirFiles(b);
    assert SortStrings([up]) == [up];
    var s1 := Db([b], [up]);
    assert [up][1..] == [];
    assert ApplyFrom([up], d, Db([], []), acc) == Run(s1, Pass);
    assert ApplyFrom([up], d, s1, acc) == Run(s1, Pass);
    assert Remove([b], b) == [] by {
      assert [b][1..] == [];
    }
  }

  // ---------------------------------------------------------------------------
  // ListMigrations

  /** One node visited by filepath.WalkDir: its path, its base name and whether it is a directory. */
  datatype WalkEntry = WalkEntry(path: string, name: string, isDir: bool)

  predicate IsMigrationFile(e: WalkEntry) {
    !e.isDir && (HasSuffix(e.name, UpSuffix) || HasSuffix(e.name, DownSuffix))
  }

  /** The paths of the up and down files among the visited nodes, in walk order. */
  function MigrationPaths(walk: seq<WalkEntry>): seq<string> {
    if |walk| == 0 then []
    else if IsMigrationFile(walk[0]) then [walk[0].path] + MigrationPaths(walk[1..])
    else MigrationPaths(walk[1..])
  }

  /** The reference meaning of ListMigrations: the walk's error, or the migration paths sorted. */
  function ListSpec(walk: Result<seq<WalkEntry>, string>): Result<seq<string>, MigrationError> {
    match walk
    case Failure(why) => Failure(WalkFailed(why))
    case Success(nodes) => Success(SortStrings(MigrationPaths(nodes)))
  }

  lemma {:induction false} MigrationPathsMembers(nodes: seq<WalkEntry>, p: string)
    ensures p in MigrationPaths(nodes) <==> exists i :: 0 <= i < |nodes| && nodes[i].path == p && IsMigrationFile(nodes[i])
    decreases |nodes|
  {
    if |nodes| > 0 {
      MigrationPathsMembers(nodes[1..], p);
      assert forall i :: 1 <= i < |nodes| ==> nodes[i] == nodes[1..][i - 1];
    }
  }

  /** ListMigrations returns, sorted, the paths of exactly the up and down files anywhere under the directory. */
  lemma ListMembers(nodes: seq<WalkEntry>, p: string)
    ensures Sorted(ListSpec(Success(nodes)).value)
    ensures p in ListSpec(Success(nodes)).value <==>
      exists i :: 0 <= i < |nodes| && nodes[i].path == p && IsMigrationFile(nodes[i])
  {
    SortedMembers(MigrationPaths(nodes), p);
    MigrationPathsMembers(nodes, p);
  }

  // ---------------------------------------------------------------------------
  // The runner against a database

  /** The database connection: the ledger and the committed files change; what it accepts is fixed. */
  class Database {
    var ledger: seq<string>
    var executed: seq<string>
    const accepts: Stmt -> bool

    constructor (accepts: Stmt -> bool)
      ensures this.accepts == accepts && ledger == [] && executed == []
    {
      this.accepts := accepts;
      ledger := [];
      executed := [];
    }

    function State(): Db
      reads this
    {
      Db(ledger, executed)
    }
  }

  /** ensureTable: CREATE TABLE IF NOT EXISTS changes nothing the runner can see. */
  method EnsureTable(db: Database) returns (res: Outcome<MigrationError>)
    ensures res.Pass? <==> db.accepts(CreateLedger)
    ensures res.Fail? ==> res.error == LedgerTableFailed
  {
    if db.accepts(CreateLedger) {
      res := Pass;
    } else {
      res := Fail(LedgerTableFailed);
    }
  }

  /** isApplied: SELECT count(1) ... WHERE name = base, as membership in the ledger. */
  method IsApplied(db: Database, base: string) returns (applied: bool)
    ensures applied <==> base in db.ledger
  {
    var cnt := 0;
    var i := 0;
    while i < |db.ledger|
      invariant 0 <= i <= |db.ledger|
      invariant cnt > 0 <==> base in db.ledger[..i]
    {
      if db.ledger[i] == base {
        cnt := cnt + 1;
      }
      assert db.ledger[..i + 1] == db.ledger[..i] + [db.ledger[i]];
      i := i + 1;
    }
    assert db.ledger[..i] == db.ledger;
    applied := cnt > 0;
  }

  method MarkApplied(db: Database, base: string) returns (ok: bool)
    modifies db`ledger
    ensures ok == InsertOk(old(db.ledger), base, db.accepts)
    ensures db.ledger == if ok then old(db.ledger) + [base] else old(db.ledger)
  {
    ok := base !in db.ledger && db.accepts(InsertRow(base));
    if ok {
      db.ledger := db.ledger + [base];
    }
  }

  method UnmarkApplied(db: Database, base: string) returns (ok: bool)
    modifies db`ledger
    ensures ok == db.accepts(DeleteRow(base))
    ensures db.ledger == if ok then Remove(old(db.ledger), base) else old(db.ledger)
  {
    ok := db.accepts(DeleteRow(base));
    if ok {
      db.ledger := Remove(db.ledger, base);
    }
  }

  /** execFile: read the file and run its SQL in a transaction; a failed transaction leaves nothing behind. */
  method ExecFile(d: Directory, db: Database, file: string) returns (ok: bool)
    modifies db`executed
    ensures ok == ExecOk(d, file, db.accepts)
    ensures db.executed == if ok then old(db.executed) + [file] else old(db.executed)
  {
    var info := Stat(d, file);
    if info != Some(false) {
      return false;
    }
    ok := db.accepts(RunFile(file));
    if ok {
      db.executed := db.executed + [file];
    }
  }

  method CollectFiles(dir: string, d: Directory, suffix: string) returns (r: Result<seq<string>, MigrationError>)
    ensures r == Collect(dir, d, suffix)
  {
    match d
    case Missing =>
      return Failure(DirNotFound(dir));
    case Unreadable(why) =>
      return Failure(ReadDirFailed(why));
    case Listing(entries) =>
      var out := [];
      var i := 0;
      while i < |entries|
        invariant 0 <= i <= |entries|
        invariant Matching(entries, suffix) == out + Matching(entries[i..], suffix)
      {
        assert entries[i..][1..] == entries[i + 1..];
        var e := entries[i];
        if !e.isDir && HasSuffix(e.name, suffix) {
          out := out + [e.name];
        }
        i := i + 1;
      }
      assert entries[i..] == [];
      assert out == Matching(entries, suffix);
      return Success(out);
  }

  method ApplyAll(dir: string, d: Directory, db: Database) returns (res: Outcome<MigrationError>)
    modifies db
    ensures Run(db.State(), res) == ApplyAllSpec(dir, d, old(db.State()), db.accepts)
  {
    res := EnsureTable(db);
    if res.Fail? {
      return;
    }
    var collected := CollectFiles(dir, d, UpSuffix);
    if collected.Failure? {
      return Fail(collected.error);
    }
    var ups := SortStrings(collected.value);
    var i := 0;
    while i < |ups|
      invariant 0 <= i <= |ups|
      invariant ApplyFrom(ups[i..], d, db.State(), db.accepts) == ApplyFrom(ups, d, old(db.State()), db.accepts)
    {
      assert ups[i..][1..] == ups[i + 1..];
      var base := BaseOf(ups[i]);
      var applied := IsApplied(db, base);
      if !applied {
        var ran := ExecFile(d, db, ups[i]);
        if !ran {
          return Fail(ApplyFailed(ups[i]));
        }
        var marked := MarkApplied(db, base);
        if !marked {
          return Fail(MarkFailed(base));
        }
      }
      i := i + 1;
    }
    return Pass;
  }

  method RollbackLast(dir: string, d: Directory, db: Database) returns (res: Outcome<MigrationError>)
    modifies db
    ensures Run(db.State(), res) == RollbackSpec(dir, d, old(db.State()), db.accepts)
  {
    res := EnsureTable(db);
    if res.Fail? {
      return;
    }
    if |db.ledger| == 0 {
      return Fail(NoneApplied(dir));
    }
    var base := db.ledger[|db.ledger| - 1];
    var downPath := base + DownSuffix;
    if Stat(d, downPath).None? {
      return Fail(DownNotFound(base));
    }
    var ran := ExecFile(d, db, downPath);
    if !ran {
      return Fail(RollbackFailed(downPath));
    }
    var unmarked := UnmarkApplied(db, base);
    if !unmarked {
      return Fail(UnmarkFailed(base));
    }
    return Pass;
  }

  method ApplySingle(path: string, d: Directory, db: Database) returns (res: Outcome<MigrationError>)
    modifies db
    ensures Run(db.State(), res) == ApplySingleSpec(path, d, old(db.State()), db.accepts)
  {
    var info := Stat(d, path);
    if info.None? {
      return Fail(StatFailed(path));
    }
    if info.value {
      return Fail(IsDirectory(path));
    }
    var ran := ExecFile(d, db, path);
    if !ran {
      return Fail(ExecFailed(path));
    }
    if HasSuffix(path, UpSuffix) {
      res := EnsureTable(db);
      if res.Fail? {
        return;
      }
      var base := SingleKey(path);
      var marked := MarkApplied(db, base);
      if !marked {
        return Fail(MarkFailed(base));
      }
    }
    return Pass;
  }

  method ListMigrations(walk: Result<seq<WalkEntry>, string>) returns (r: Result<seq<string>, MigrationError>)
    ensures r == ListSpec(walk)
  {
    if walk.Failure? {
      return Failure(WalkFailed(walk.error));
    }
    var nodes := walk.value;
    var out := [];
    var i := 0;
    while i < |nodes|
      invariant 0 <= i <= |nodes|
      invariant MigrationPaths(nodes) == out + MigrationPaths(nodes[i..])
    {
      assert nodes[i..][1..] == nodes[i + 1..];
      if IsMigrationFile(nodes[i]) {
        out := out + [nodes[i].path];
      }
      i := i + 1;
    }
    assert nodes[i..] == [];
    assert out == MigrationPaths(nodes);
    return Success(SortStrings(out));
  }

  /** AppliedMigrations: the ledger, oldest first. */
  method AppliedMigrations(db: Database) returns (r: Result<seq<string>, MigrationError>)
    ensures r == if db.accepts(CreateLedger) then Success(db.ledger) else Failure(LedgerTableFailed)
  {
    var ok := EnsureTable(db);
    if ok.Fail? {
      return Failure(LedgerTableFailed);
    }
    var out := [];
    var i := 0;
    while i < |db.ledger|
      invariant 0 <= i <= |db.ledger|
      invariant out == db.ledger[..i]
    {
      out := out + [db.ledger[i]];
      i := i + 1;
    }
    assert db.ledger[..i] == db.ledger;
    return Success(out);
  }

  method PendingMigrations(dir: string, d: Directory, db: Database) returns (r: Result<seq<string>, MigrationError>)
    ensures r == PendingSpec(dir, d, db.State(), db.accepts)
  {
    var ok := EnsureTable(db);
    if ok.Fail? {
      return Failure(LedgerTableFailed);
    }
    var collected := CollectFiles(dir, d, UpSuffix);
    if collected.Failure? {
      return Failure(collected.error);
    }
    var ups := SortStrings(collected.value);
    var out := [];
    var i := 0;
    while i < |ups|
      invariant 0 <= i <= |ups|
      invariant Pending(ups, db.ledger) == out + Pending(ups[i..], db.ledger)
    {
      assert ups[i..][1..] == ups[i + 1..];
      var base := BaseOf(ups[i]);
      var applied := IsApplied(db, base);
      if !applied {
        out := out + [base];
      }
      i := i + 1;
    }
    assert ups[i..] == [];
    assert out == Pending(ups, db.ledger);
    return Success(out);
  }
}
