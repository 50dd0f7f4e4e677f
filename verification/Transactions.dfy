/** Nested database transactions on a stack of savepoints, and the schema migrations that run in them. */
module Transactions {
  import opened Prelude

  /** The database: its rows, and the table of applied migrations in order of insertion. */
  datatype Database = Database(rows: map<string, int>, versions: seq<int>)

  type Error = string

  /** One SQL statement: a new database, or an error that leaves the database as it was. */
  datatype Effect = Changed(db: Database) | Failed(error: Error)

  /**
   * What a caller may do inside and around `transaction`. The two options of a transaction say whether the
   * statement that opens it and the one that commits or releases it fail.
   */
  datatype Program =
    | Statement(run: Database -> Effect)
    | Throw(error: Error)
    | Then(first: Program, second: Program)
    | If(test: Database -> bool, yes: Program, no: Program)
    | TryCatch(body: Program, handler: Program)
    | Transaction(body: Program, beginFails: Option<Error>, commitFails: Option<Error>)

  /** `Crashed`: the process died; no handler and no rollback ran. */
  datatype Outcome = Completed | Thrown(error: Error) | Crashed

  datatype Result = Result(db: Database, outcome: Outcome)

  /** The meaning of a program: a transaction that throws has the state it was entered with. */
  function Meaning(p: Program, db: Database): (r: Result)
    ensures r.outcome != Crashed
  {
    match p
    case Statement(run) =>
      (match run(db)
       case Changed(db') => Result(db', Completed)
       case Failed(error) => Result(db, Thrown(error)))
    case Throw(error) => Result(db, Thrown(error))
    case Then(first, second) =>
      var r := Meaning(first, db);
      if r.outcome == Completed then Meaning(second, r.db) else r
    case If(test, yes, no) => if test(db) then Meaning(yes, db) else Meaning(no, db)
    case TryCatch(body, handler) =>
      var r := Meaning(body, db);
      if r.outcome == Completed then r else Meaning(handler, r.db)
    case Transaction(body, beginFails, commitFails) =>
      if beginFails.Some? then Result(db, Thrown(beginFails.value))
      else
        var r := Meaning(body, db);
        if r.outcome != Completed then Result(db, r.outcome)
        else if commitFails.Some? then Result(db, Thrown(commitFails.value))
        else r
  }

  /** An open transaction: the outermost `BEGIN`, or the savepoint named after its depth. */
  datatype Mark = Begin | Savepoint(name: nat)

  datatype Frame = Frame(mark: Mark, saved: Database)

  /** The position of the latest frame with this mark. */
  function Latest(stack: seq<Frame>, mark: Mark): (i: int)
    ensures -1 <= i < |stack|
    ensures 0 <= i ==> stack[i].mark == mark
    ensures forall j :: i < j < |stack| ==> stack[j].mark != mark
  {
    if stack == [] then -1
    else if stack[|stack| - 1].mark == mark then |stack| - 1
    else Latest(stack[..|stack| - 1], mark)
  }

  /** Frame i carries the mark that `transaction` gives to depth i. */
  ghost predicate WellNested(stack: seq<Frame>) {
    forall i :: 0 <= i < |stack| ==> stack[i].mark == if i == 0 then Begin else Savepoint(i)
  }

  class Connection {
    var db: Database
    var stack: seq<Frame>
    /** `depthByDb`: how many calls of `transaction` are active. */
    var depth: nat
    /** How many more statements are carried out before the process dies. */
    var fuse: nat

    ghost predicate Valid()
      reads this
    {
      WellNested(stack) && depth == |stack|
    }

    /** What a restart finds: uncommitted work is gone. */
    function Durable(): Database
      reads this
    {
      if stack == [] then db else stack[0].saved
    }

    constructor (db: Database, fuse: nat)
      ensures Valid() && this.db == db && stack == [] && this.fuse == fuse
    {
      this.db, this.fuse := db, fuse;
      stack, depth := [], 0;
    }

    method Tick() returns (alive: bool)
      modifies `fuse
      ensures alive <==> 0 < old(fuse)
      ensures fuse == if alive then old(fuse) - 1 else 0
    {
      alive := fuse > 0;
      if alive {
        fuse := fuse - 1;
      }
    }

    /** `BEGIN IMMEDIATE` or `SAVEPOINT sp_n`. */
    method Open(mark: Mark)
      requires mark == Begin ==> stack == []
      modifies `stack
      ensures stack == old(stack) + [Frame(mark, db)]
    {
      stack := stack + [Frame(mark, db)];
    }

    /** `COMMIT` or `RELEASE sp_n`: the frame with this mark and all above it are given up, the changes stay. */
    method Close(mark: Mark)
      requires Latest(stack, mark) >= 0
      modifies `stack
      ensures stack == old(stack)[..Latest(old(stack), mark)]
    {
      stack := stack[..Latest(stack, mark)];
    }

    /** `ROLLBACK TO sp_n`: back to the state saved there; the savepoint itself stays open. */
    method RollBackTo(mark: Mark)
      requires Latest(stack, mark) >= 0
      modifies `db, `stack
      ensures db == old(stack)[Latest(old(stack), mark)].saved
      ensures stack == old(stack)[..Latest(old(stack), mark) + 1]
    {
      var i := Latest(stack, mark);
      db, stack := stack[i].saved, stack[..i + 1];
    }

    /** Runs a program on the connection, statement by statement. */
    method Run(p: Program) returns (outcome: Outcome)
      requires Valid()
      modifies this
      ensures outcome != Crashed ==>
                && Valid() && stack == old(stack)
                && Result(db, outcome) == Meaning(p, old(db))
      ensures outcome == Crashed && (old(stack) != [] || p.Transaction?) ==> Durable() == old(Durable())
      ensures outcome == Crashed && old(stack) != [] ==> stack != []
      ensures outcome == Crashed ==> fuse == 0
      decreases p, 0
    {
      match p {
        case Statement(run) =>
          var alive := Tick();
          if !alive { return Crashed; }
          match run(db) {
            case Changed(db') =>
              db := db';
              outcome := Completed;
            case Failed(error) =>
              outcome := Thrown(error);
          }
        case Throw(error) =>
          outcome := Thrown(error);
        case Then(first, second) =>
          outcome := Run(first);
          if outcome == Completed {
            outcome := Run(second);
          }
        case If(test, yes, no) =>
          if test(db) {
            outcome := Run(yes);
          } else {
            outcome := Run(no);
          }
        case TryCatch(body, handler) =>
          outcome := Run(body);
          if outcome.Thrown? {
            outcome := Run(handler);
          }
        case Transaction(body, beginFails, commitFails) =>
          outcome := InTransaction(body, beginFails, commitFails);
      }
    }

    /** `transaction(db, fn)`. */
    method InTransaction(body: Program, beginFails: Option<Error>, commitFails: Option<Error>) returns (outcome: Outcome)
      requires Valid()
      modifies this
      ensures outcome != Crashed ==>
                && Valid() && stack == old(stack)
                && Result(db, outcome) == Meaning(Transaction(body, beginFails, commitFails), old(db))
      ensures outcome == Crashed ==> Durable() == old(Durable()) && (old(stack) != [] ==> stack != []) && fuse == 0
      decreases body, 1
    {
      var outer := depth;
      var mark := if outer == 0 then Begin else Savepoint(outer);
      var alive := Tick();
      if !alive { return Crashed; }
      if beginFails.Some? {
        return Thrown(beginFails.value);
      }
      Open(mark);
      depth := outer + 1;
      outcome := Run(body);
      if outcome == Crashed {
        return;
      }
      outcome := Leave(mark, outcome, commitFails);
      if outcome != Crashed {
        depth := outer;
      }
    }

    /** The end of `transaction`: commit or release, and undo everything when the body or the commit failed. */
    method Leave(mark: Mark, bodyOutcome: Outcome, commitFails: Option<Error>) returns (outcome: Outcome)
      requires stack != [] && mark == stack[|stack| - 1].mark && bodyOutcome != Crashed
      modifies this
      ensures depth == old(depth)
      ensures outcome == Crashed ==> stack != [] && stack[0] == old(stack)[0] && fuse == 0
      ensures outcome != Crashed ==>
                && stack == old(stack)[..|old(stack)| - 1]
                && outcome == (if bodyOutcome == Completed && commitFails.Some? then Thrown(commitFails.value) else bodyOutcome)
                && db == (if outcome == Completed then old(db) else old(stack)[|stack|].saved)
    {
      outcome := bodyOutcome;
      if bodyOutcome == Completed {
        var alive := Tick();
        if !alive { return Crashed; }
        if commitFails == None {
          Close(mark);
          return;
        }
        outcome := Thrown(commitFails.value);
      }
      var alive := Tick();
      if !alive { return Crashed; }
      RollBackTo(mark);
      Close(mark);
    }
  }

  // ----- Migrations -----

  type Sql = map<string, int> -> Option<map<string, int>>

  /** A schema version and the statements that lead to it; a statement yields `None` when it fails. */
  datatype Migration = Migration(version: int, sql: seq<Sql>)

  const SQL_ERROR: Error := "SQL error"
  const UNIQUE_ERROR: Error := "UNIQUE constraint failed: schema_migrations.version"

  function SqlStatement(sql: Sql): Program {
    Statement((db: Database) =>
      var rows := sql(db.rows);
      if rows.Some? then Changed(db.(rows := rows.value)) else Failed(SQL_ERROR))
  }

  /** The row in `schema_migrations`, whose version is the primary key. */
  function InsertVersion(version: int): Program {
    Statement((db: Database) =>
      if version in db.versions then Failed(UNIQUE_ERROR) else Changed(db.(versions := db.versions + [version])))
  }

  /** The body of one migration's transaction. */
  function MigrationBody(sql: seq<Sql>, version: int): Program {
    if sql == [] then InsertVersion(version) else Then(SqlStatement(sql[0]), MigrationBody(sql[1..], version))
  }

  function RunAll(sql: seq<Sql>, rows: map<string, int>): Option<map<string, int>> {
    if sql == [] then Some(rows)
    else
      var next := sql[0](rows);
      if next == None then None else RunAll(sql[1..], next.value)
  }

  /** One migration takes effect as a whole, together with its row, or not at all. */
  function Apply(m: Migration, db: Database): Result {
    var rows := RunAll(m.sql, db.rows);
    if rows == None then Result(db, Thrown(SQL_ERROR))
    else if m.version in db.versions then Result(db, Thrown(UNIQUE_ERROR))
    else Result(Database(rows.value, db.versions + [m.version]), Completed)
  }

  lemma {:induction false} MigrationBodyMeaning(sql: seq<Sql>, version: int, db: Database)
    ensures var r := Meaning(MigrationBody(sql, version), db);
            var rows := RunAll(sql, db.rows);
            if rows == None then r.outcome == Thrown(SQL_ERROR)
            else if version in db.versions then r.outcome == Thrown(UNIQUE_ERROR)
            else r == Result(Database(rows.value, db.versions + [version]), Completed)
  {
    if sql != [] {
      var next := sql[0](db.rows);
      if next.Some? {
        MigrationBodyMeaning(sql[1..], version, db.(rows := next.value));
      }
    }
  }

  function VersionSet(versions: seq<int>): set<int> {
    set v | v in versions
  }

  /** The migrations not in `applied`, one after the other until one fails. */
  function MigrateFrom(db: Database, migrations: seq<Migration>, applied: set<int>): Result
    decreases migrations
  {
    if migrations == [] then Result(db, Completed)
    else if migrations[0].version in applied then MigrateFrom(db, migrations[1..], applied)
    else
      var r := Apply(migrations[0], db);
      if r.outcome == Completed then MigrateFrom(r.db, migrations[1..], applied) else r
  }

  /** A complete, undisturbed run of `migrate`. */
  function Migrated(db: Database, migrations: seq<Migration>): Result {
    MigrateFrom(db, SortByVersion(migrations), VersionSet(db.versions))
  }

  function Insert(m: Migration, sorted: seq<Migration>): seq<Migration> {
    if sorted == [] || m.version <= sorted[0].version then [m] + sorted else [sorted[0]] + Insert(m, sorted[1..])
  }

  function SortByVersion(migrations: seq<Migration>): seq<Migration> {
    if migrations == [] then [] else Insert(migrations[0], SortByVersion(migrations[1..]))
  }

  ghost predicate Ascending(migrations: seq<Migration>) {
    forall i, j :: 0 <= i < j < |migrations| ==> migrations[i].version <= migrations[j].version
  }

  lemma {:induction false} InsertPermutes(m: Migration, sorted: seq<Migration>)
    ensures multiset(Insert(m, sorted)) == multiset(sorted) + multiset{m}
  {
    if sorted != [] && m.version > sorted[0].version {
      InsertPermutes(m, sorted[1..]);
      assert sorted == [sorted[0]] + sorted[1..];
      CountsBehindHead(sorted[0], Insert(m, sorted[1..]), sorted[1..], m);
    }
  }

  lemma {:induction false} InsertAddsOne(m: Migration, sorted: seq<Migration>)
    ensures forall x :: x in Insert(m, sorted) ==> x == m || x in sorted
  {
    if sorted != [] && m.version > sorted[0].version {
      InsertAddsOne(m, sorted[1..]);
    }
  }

  lemma {:induction false} AscendingBehind(m: Migration, rest: seq<Migration>)
    requires Ascending(rest) && forall x :: x in rest ==> m.version <= x.version
    ensures Ascending([m] + rest)
  {
  }

  lemma {:induction false} InsertAscending(m: Migration, sorted: seq<Migration>)
    requires Ascending(sorted)
    ensures Ascending(Insert(m, sorted))
  {
    if sorted != [] && m.version > sorted[0].version {
      InsertAscending(m, sorted[1..]);
      InsertAddsOne(m, sorted[1..]);
      AscendingBehind(sorted[0], Insert(m, sorted[1..]));
    } else {
      AscendingBehind(m, sorted);
    }
  }

  lemma {:induction false} SortPermutes(migrations: seq<Migration>)
    ensures multiset(SortByVersion(migrations)) == multiset(migrations)
  {
    if migrations != [] {
      SortPermutes(migrations[1..]);
      InsertPermutes(migrations[0], SortByVersion(migrations[1..]));
      assert migrations == [migrations[0]] + migrations[1..];
      HeadCounts(migrations[0], migrations[1..]);
    }
  }

  lemma {:induction false} SortsByVersion(migrations: seq<Migration>)
    ensures Ascending(SortByVersion(migrations)) && multiset(SortByVersion(migrations)) == multiset(migrations)
  {
    SortPermutes(migrations);
    if migrations != [] {
      SortsByVersion(migrations[1..]);
      InsertAscending(migrations[0], SortByVersion(migrations[1..]));
    }
  }

  ghost predicate Distinct(versions: seq<int>) {
    forall i, j :: 0 <= i < j < |versions| ==> versions[i] != versions[j]
  }

  /** The first migration with its version. */
  ghost predicate IsFirst(migrations: seq<Migration>, j: nat)
    requires j < |migrations|
  {
    forall k :: 0 <= k < j ==> migrations[k].version != migrations[j].version
  }

  ghost predicate ComesAgain(migrations: seq<Migration>, j: nat)
    requires j < |migrations|
  {
    exists k :: j < k < |migrations| && migrations[k].version == migrations[j].version
  }

  ghost predicate NeverWorks(sql: seq<Sql>) {
    forall rows :: RunAll(sql, rows) == None
  }

  /** Where a version comes again, its first migration fails whatever the tables hold: so with distinct versions. */
  ghost predicate RepeatsNeverStart(migrations: seq<Migration>) {
    forall j | 0 <= j < |migrations| && IsFirst(migrations, j) && ComesAgain(migrations, j) :: NeverWorks(migrations[j].sql)
  }

  /** No version is ever recorded twice, none is lost, and a completed run has recorded every version. */
  lemma {:induction false} MigratesOnce(db: Database, migrations: seq<Migration>, applied: set<int>)
    requires Distinct(db.versions) && applied <= VersionSet(db.versions)
    ensures var r := MigrateFrom(db, migrations, applied);
            && Distinct(r.db.versions) && db.versions <= r.db.versions
            && (r.outcome == Completed ==> forall m :: m in migrations ==> m.version in r.db.versions)
    decreases migrations
  {
    if migrations != [] {
      assert forall m :: m in migrations ==> m == migrations[0] || m in migrations[1..];
      if migrations[0].version in applied {
        MigratesOnce(db, migrations[1..], applied);
      } else {
        var r := Apply(migrations[0], db);
        if r.outcome == Completed {
          MigratesOnce(r.db, migrations[1..], applied);
          assert r.db.versions[|db.versions|] == migrations[0].version;
        }
      }
    }
  }

  lemma {:induction false} SkipsApplied(db: Database, migrations: seq<Migration>, i: nat, applied: set<int>)
    requires i <= |migrations|
    requires forall j :: 0 <= j < i ==> migrations[j].version in applied
    ensures MigrateFrom(db, migrations, applied) == MigrateFrom(db, migrations[i..], applied)
  {
    if i > 0 {
      SkipsApplied(db, migrations[1..], i - 1, applied);
      assert migrations[1..][i - 1..] == migrations[i..];
    }
  }

  lemma {:induction false} OnlyPendingMatter(db: Database, migrations: seq<Migration>, a: set<int>, b: set<int>)
    requires forall m :: m in migrations ==> (m.version in a <==> m.version in b)
    ensures MigrateFrom(db, migrations, a) == MigrateFrom(db, migrations, b)
    decreases migrations
  {
    if migrations != [] {
      assert migrations[0] in migrations;
      if migrations[0].version in a {
        OnlyPendingMatter(db, migrations[1..], a, b);
      } else {
        OnlyPendingMatter(Apply(migrations[0], db).db, migrations[1..], a, b);
      }
    }
  }

  /** A run that stopped before migration i, started anew, ends as the first run would have ended. */
  lemma {:induction false} ResumesWhereItStopped(db: Database, sorted: seq<Migration>, i: nat, applied: set<int>)
    requires i <= |sorted| && applied <= VersionSet(db.versions)
    requires forall j :: 0 <= j < i ==> sorted[j].version in db.versions
    requires forall k :: i <= k < |sorted| && sorted[k].version in db.versions ==> sorted[k].version in applied
    ensures MigrateFrom(db, sorted, VersionSet(db.versions)) == MigrateFrom(db, sorted[i..], applied)
  {
    SkipsApplied(db, sorted, i, VersionSet(db.versions));
    OnlyPendingMatter(db, sorted[i..], VersionSet(db.versions), applied);
  }

  // ----- Which lists of migrations can be resumed -----

  /** Stopped after `i` migrations, and run again: the result is that of the uninterrupted run. */
  ghost predicate ResumesFrom(db: Database, sorted: seq<Migration>, i: nat)
    requires i <= |sorted|
  {
    var stopped := MigrateFrom(db, sorted[..i], VersionSet(db.versions));
    stopped.outcome == Completed ==>
      MigrateFrom(stopped.db, sorted, VersionSet(stopped.db.versions)) == MigrateFrom(db, sorted, VersionSet(db.versions))
  }

  /** So from every stop, on every database; the version is the primary key of the table of versions. */
  ghost predicate AlwaysResumes(sorted: seq<Migration>) {
    forall db: Database, i: nat | Distinct(db.versions) && i <= |sorted| :: ResumesFrom(db, sorted, i)
  }

  /** A version just recorded does not come again further on. */
  ghost predicate NothingRecurs(db: Database, sorted: seq<Migration>, i: nat, applied: set<int>) {
    forall k :: i <= k < |sorted| && sorted[k].version in db.versions ==> sorted[k].version in applied
  }

  lemma {:induction false} NothingRecursNext(db: Database, sorted: seq<Migration>, i: nat, applied: set<int>)
    requires RepeatsNeverStart(sorted) && i < |sorted| && NothingRecurs(db, sorted, i, applied)
    requires forall j :: 0 <= j < i ==> sorted[j].version in db.versions
    requires sorted[i].version !in applied && Apply(sorted[i], db).outcome == Completed
    ensures NothingRecurs(Apply(sorted[i], db).db, sorted, i + 1, applied)
  {
    assert IsFirst(sorted, i);
    assert !NeverWorks(sorted[i].sql) by {
      assert RunAll(sorted[i].sql, db.rows).Some?;
    }
    assert !ComesAgain(sorted, i);
  }

  lemma {:induction false} MigrateOn(db: Database, a: seq<Migration>, b: seq<Migration>, applied: set<int>)
    ensures var r := MigrateFrom(db, a, applied);
            MigrateFrom(db, a + b, applied) == if r.outcome == Completed then MigrateFrom(r.db, b, applied) else r
    decreases a
  {
    if a == [] {
      assert a + b == b;
    } else {
      assert (a + b)[0] == a[0] && (a + b)[1..] == a[1..] + b;
      MigrateOn(if a[0].version in applied then db else Apply(a[0], db).db, a[1..], b, applied);
    }
  }

  lemma {:induction false} MigrateInTwo(db: Database, sorted: seq<Migration>, i: nat, applied: set<int>)
    requires i <= |sorted|
    ensures var r := MigrateFrom(db, sorted[..i], applied);
            MigrateFrom(db, sorted, applied) == if r.outcome == Completed then MigrateFrom(r.db, sorted[i..], applied) else r
  {
    MigrateOn(db, sorted[..i], sorted[i..], applied);
    assert sorted[..i] + sorted[i..] == sorted;
  }

  /** One migration more: passed over, or applied. */
  lemma {:induction false} OneFurther(db: Database, sorted: seq<Migration>, i: nat, applied: set<int>)
    requires 0 < i <= |sorted| && MigrateFrom(db, sorted[..i], applied).outcome == Completed
    ensures var before := MigrateFrom(db, sorted[..i - 1], applied);
            && before.outcome == Completed
            && MigrateFrom(db, sorted[..i], applied) == if sorted[i - 1].version in applied then before else Apply(sorted[i - 1], before.db)
  {
    var last := sorted[i - 1];
    assert sorted[..i] == sorted[..i - 1] + [last];
    MigrateOn(db, sorted[..i - 1], [last], applied);
    assert [last][1..] == [];
  }

  /** All of the first `i` are recorded, what was recorded stays, and no version just recorded comes again. */
  ghost predicate Advanced(db: Database, after: Database, sorted: seq<Migration>, i: nat, applied: set<int>) {
    && i <= |sorted| && db.versions <= after.versions && NothingRecurs(after, sorted, i, applied)
    && forall j :: 0 <= j < i ==> sorted[j].version in after.versions
  }

  lemma {:induction false} AdvancedNext(db: Database, before: Database, sorted: seq<Migration>, i: nat, applied: set<int>)
    requires i < |sorted| && Advanced(db, before, sorted, i, applied) && RepeatsNeverStart(sorted) && applied == VersionSet(db.versions)
    ensures sorted[i].version in applied ==> Advanced(db, before, sorted, i + 1, applied)
    ensures sorted[i].version !in applied && Apply(sorted[i], before).outcome == Completed ==>
              Advanced(db, Apply(sorted[i], before).db, sorted, i + 1, applied)
  {
    if sorted[i].version !in applied && Apply(sorted[i], before).outcome == Completed {
      NothingRecursNext(before, sorted, i, applied);
    }
  }

  lemma {:induction false} AfterSome(db: Database, sorted: seq<Migration>, i: nat, applied: set<int>)
    requires i <= |sorted| && applied == VersionSet(db.versions) && RepeatsNeverStart(sorted)
    requires MigrateFrom(db, sorted[..i], applied).outcome == Completed
    ensures Advanced(db, MigrateFrom(db, sorted[..i], applied).db, sorted, i, applied)
  {
    if i > 0 {
      OneFurther(db, sorted, i, applied);
      AfterSome(db, sorted, i - 1, applied);
      AdvancedNext(db, MigrateFrom(db, sorted[..i - 1], applied).db, sorted, i - 1, applied);
    }
  }

  lemma {:induction false} ResumesIfRepeatsNeverStart(db: Database, sorted: seq<Migration>, i: nat)
    requires i <= |sorted| && RepeatsNeverStart(sorted)
    ensures ResumesFrom(db, sorted, i)
  {
    var applied := VersionSet(db.versions);
    var stopped := MigrateFrom(db, sorted[..i], applied);
    if stopped.outcome == Completed {
      AfterSome(db, sorted, i, applied);
      ResumesWhereItStopped(stopped.db, sorted, i, applied);
      MigrateInTwo(db, sorted, i, applied);
    }
  }

  /** Once a version is recorded in this run, a migration that has it too makes the run fail. */
  lemma {:induction false} RecordedAgainFails(db: Database, migrations: seq<Migration>, applied: set<int>, k: nat)
    requires k < |migrations| && migrations[k].version in db.versions && migrations[k].version !in applied
    ensures MigrateFrom(db, migrations, applied).outcome != Completed
    decreases migrations
  {
    if k > 0 {
      RecordedAgainFails(if migrations[0].version in applied then db else Apply(migrations[0], db).db, migrations[1..], applied, k - 1);
    }
  }

  /** The versions other than `v`, once each. */
  function Others(migrations: seq<Migration>, v: int): (versions: seq<int>)
    ensures v !in versions && forall k :: 0 <= k < |migrations| && migrations[k].version != v ==> migrations[k].version in versions
  {
    if migrations == [] then []
    else
      var w, rest := migrations[0].version, Others(migrations[1..], v);
      if w == v || w in rest then rest else [w] + rest
  }

  lemma {:induction false} OthersDistinct(migrations: seq<Migration>, v: int)
    ensures Distinct(Others(migrations, v))
  {
    if migrations != [] {
      OthersDistinct(migrations[1..], v);
    }
  }

  /** With all other versions recorded, the first of a version is all that is done up to there. */
  lemma {:induction false} OnlyTheFirst(db: Database, sorted: seq<Migration>, j: nat, applied: set<int>)
    requires j < |sorted| && IsFirst(sorted, j) && sorted[j].version !in applied
    requires forall k :: 0 <= k < |sorted| && sorted[k].version != sorted[j].version ==> sorted[k].version in applied
    ensures MigrateFrom(db, sorted[..j + 1], applied) == Apply(sorted[j], db)
  {
    var upTo := sorted[..j + 1];
    SkipsApplied(db, upTo, j, applied);
    assert upTo[j..] == [sorted[j]] && [sorted[j]][1..] == [];
  }

  lemma {:induction false} ThenFails(db: Database, sorted: seq<Migration>, j: nat, applied: set<int>)
    requires j < |sorted| && ComesAgain(sorted, j) && sorted[j].version !in applied
    requires MigrateFrom(db, sorted[..j + 1], applied) == Apply(sorted[j], db) && Apply(sorted[j], db).outcome == Completed
    ensures MigrateFrom(db, sorted, applied).outcome != Completed
  {
    var rest := sorted[j + 1..];
    var k :| j < k < |sorted| && sorted[k].version == sorted[j].version;
    RecordedAgainFails(Apply(sorted[j], db).db, rest, applied, k - j - 1);
    MigrateInTwo(db, sorted, j + 1, applied);
  }

  /** With all other versions recorded, a run stopped behind the first of a repeated version and run again completes. */
  lemma {:induction false} NotResumedBehind(sorted: seq<Migration>, j: nat, rows: map<string, int>) returns (db: Database)
    requires j < |sorted| && IsFirst(sorted, j) && ComesAgain(sorted, j) && RunAll(sorted[j].sql, rows).Some?
    ensures Distinct(db.versions)
    ensures MigrateFrom(db, sorted, VersionSet(db.versions)).outcome != Completed
    ensures var stopped := MigrateFrom(db, sorted[..j + 1], VersionSet(db.versions));
            stopped.outcome == Completed && MigrateFrom(stopped.db, sorted, VersionSet(stopped.db.versions)) == stopped
  {
    db := Database(rows, Others(sorted, sorted[j].version));
    OthersDistinct(sorted, sorted[j].version);
    OnlyTheFirst(db, sorted, j, VersionSet(db.versions));
    ThenFails(db, sorted, j, VersionSet(db.versions));
    var stopped := Apply(sorted[j], db).db;
    SkipsApplied(stopped, sorted, |sorted|, VersionSet(stopped.versions));
  }

  /** Resuming gives the result of the uninterrupted run exactly if no repeated version gets past its first migration. */
  lemma {:induction false} ResumableLists(sorted: seq<Migration>)
    ensures AlwaysResumes(sorted) <==> RepeatsNeverStart(sorted)
  {
    if RepeatsNeverStart(sorted) {
      forall db: Database, i: nat | Distinct(db.versions) && i <= |sorted| ensures ResumesFrom(db, sorted, i) {
        ResumesIfRepeatsNeverStart(db, sorted, i);
      }
    } else {
      var j :| 0 <= j < |sorted| && IsFirst(sorted, j) && ComesAgain(sorted, j) && !NeverWorks(sorted[j].sql);
      var rows :| RunAll(sorted[j].sql, rows) != None;
      var db := NotResumedBehind(sorted, j, rows);
      assert !ResumesFrom(db, sorted, j + 1);
    }
  }

  // ----- The run itself -----

  /** Before migration `i`: what is still to come leads to the goal, all so far are recorded, and none of those recurs. */
  ghost predicate Underway(db: Database, sorted: seq<Migration>, i: nat, applied: set<int>, goal: Result) {
    && i <= |sorted| && goal == MigrateFrom(db, sorted[i..], applied) && applied <= VersionSet(db.versions)
    && (forall j :: 0 <= j < i ==> sorted[j].version in db.versions)
    && (RepeatsNeverStart(sorted) ==> NothingRecurs(db, sorted, i, applied))
  }

  lemma {:induction false} UnderwayNext(db: Database, sorted: seq<Migration>, i: nat, applied: set<int>, goal: Result)
    requires i < |sorted| && Underway(db, sorted, i, applied, goal)
    ensures sorted[i].version in applied ==> Underway(db, sorted, i + 1, applied, goal)
    ensures var r := Apply(sorted[i], db);
            sorted[i].version !in applied ==> if r.outcome == Completed then Underway(r.db, sorted, i + 1, applied, goal) else r == goal
  {
    assert sorted[i..][1..] == sorted[i + 1..];
    if sorted[i].version !in applied && Apply(sorted[i], db).outcome == Completed && RepeatsNeverStart(sorted) {
      NothingRecursNext(db, sorted, i, applied);
    }
  }

  /** No version is taken back, and none is there twice. */
  ghost predicate OnlyAdds(before: Database, after: Database) {
    before.versions <= after.versions && (Distinct(before.versions) ==> Distinct(after.versions))
  }

  /** The transaction of one migration; if the process dies in it, nothing of it remains. */
  method ApplyOne(connection: Connection, m: Migration) returns (outcome: Outcome)
    requires connection.Valid() && connection.stack == []
    modifies connection
    ensures if outcome == Crashed then connection.Durable() == old(connection.db)
            else connection.Valid() && connection.stack == [] && Result(connection.db, outcome) == Apply(m, old(connection.db))
  {
    MigrationBodyMeaning(m.sql, m.version, connection.db);
    outcome := connection.InTransaction(MigrationBody(m.sql, m.version), None, None);
  }

  lemma {:induction false} UnderwayResumes(db: Database, sorted: seq<Migration>, i: nat, applied: set<int>, goal: Result)
    requires RepeatsNeverStart(sorted) && Underway(db, sorted, i, applied, goal)
    ensures MigrateFrom(db, sorted, VersionSet(db.versions)) == goal
  {
    ResumesWhereItStopped(db, sorted, i, applied);
  }

  ghost predicate Migrating(before: Database, db: Database, sorted: seq<Migration>, i: nat, applied: set<int>, goal: Result, newlyApplied: seq<int>) {
    Underway(db, sorted, i, applied, goal) && OnlyAdds(before, db) && db.versions == before.versions + newlyApplied
  }

  /** One turn of the loop, and what a restart in it leads to. */
  lemma {:induction false} MigratingNext(before: Database, db: Database, sorted: seq<Migration>, i: nat, applied: set<int>, goal: Result, newlyApplied: seq<int>)
    requires i < |sorted| && Migrating(before, db, sorted, i, applied, goal, newlyApplied)
    ensures sorted[i].version in applied ==> Migrating(before, db, sorted, i + 1, applied, goal, newlyApplied)
    ensures var r := Apply(sorted[i], db);
            sorted[i].version !in applied ==>
              if r.outcome == Completed then Migrating(before, r.db, sorted, i + 1, applied, goal, newlyApplied + [sorted[i].version])
              else r == goal && r.db == db
    ensures RepeatsNeverStart(sorted) ==> MigrateFrom(db, sorted, VersionSet(db.versions)) == goal
  {
    UnderwayNext(db, sorted, i, applied, goal);
    if RepeatsNeverStart(sorted) {
      UnderwayResumes(db, sorted, i, applied, goal);
    }
  }

  /**
   * `migrate(db, migrations)`. If the process dies on the way, a complete run on what a restart finds ends exactly
   * where an undisturbed run would have ended.
   */
  method Migrate(connection: Connection, migrations: seq<Migration>) returns (outcome: Outcome, newlyApplied: seq<int>)
    requires connection.Valid() && connection.stack == []
    modifies connection
    ensures outcome != Crashed ==>
              && connection.Valid() && connection.stack == []
              && Result(connection.db, outcome) == Migrated(old(connection.db), migrations)
              && connection.db.versions == old(connection.db.versions) + newlyApplied
    ensures outcome == Crashed && RepeatsNeverStart(SortByVersion(migrations)) ==>
              Migrated(connection.Durable(), migrations) == Migrated(old(connection.db), migrations)
    ensures outcome == Crashed ==> OnlyAdds(old(connection.db), connection.Durable())
  {
    newlyApplied := [];
    ghost var before := connection.db;
    var applied := VersionSet(connection.db.versions);
    var sorted := SortByVersion(migrations);
    ghost var goal := Migrated(before, migrations);
    for i := 0 to |sorted|
      invariant connection.Valid() && connection.stack == []
      invariant Migrating(before, connection.db, sorted, i, applied, goal, newlyApplied)
    {
      var m := sorted[i];
      ghost var db := connection.db;
      MigratingNext(before, db, sorted, i, applied, goal, newlyApplied);
      if m.version in applied {
        continue;
      }
      outcome := ApplyOne(connection, m);
      if outcome == Crashed {
        return;
      }
      if outcome != Completed {
        return;
      }
      newlyApplied := newlyApplied + [m.version];
    }
    outcome := Completed;
  }

  lemma {:induction false} MigratedOnlyAdds(db: Database, migrations: seq<Migration>)
    ensures OnlyAdds(db, Migrated(db, migrations).db)
  {
    KeepsVersions(db, SortByVersion(migrations), VersionSet(db.versions));
    if Distinct(db.versions) {
      MigratesOnce(db, SortByVersion(migrations), VersionSet(db.versions));
    }
  }

  lemma {:induction false} KeepsVersions(db: Database, migrations: seq<Migration>, applied: set<int>)
    ensures db.versions <= MigrateFrom(db, migrations, applied).db.versions
    decreases migrations
  {
    if migrations != [] {
      KeepsVersions(if migrations[0].version in applied then db else Apply(migrations[0], db).db, migrations[1..], applied);
    }
  }

  /**
   * Any number of runs, each cut short after any number of statements, followed by one that is not. No version is ever
   * applied twice, and where a list can be resumed at all the result is that of one undisturbed run.
   */
  method MigrateThroughCrashes(db: Database, migrations: seq<Migration>, fuses: seq<nat>) returns (result: Result)
    ensures OnlyAdds(db, result.db)
    ensures RepeatsNeverStart(SortByVersion(migrations)) ==>
              if result.outcome == Crashed then Migrated(result.db, migrations) == Migrated(db, migrations)
              else result == Migrated(db, migrations)
  {
    result := Result(db, Crashed);
    for i := 0 to |fuses|
      invariant RepeatsNeverStart(SortByVersion(migrations)) ==> Migrated(result.db, migrations) == Migrated(db, migrations)
      invariant result.outcome == Crashed && OnlyAdds(db, result.db)
    {
      ghost var before := result.db;
      var connection := new Connection(result.db, fuses[i]);
      var outcome, newlyApplied := Migrate(connection, migrations);
      result := Result(connection.Durable(), outcome);
      if outcome != Crashed {
        MigratedOnlyAdds(before, migrations);
        return;
      }
    }
  }
}
