/** The loaders of data.py: each `load_*` runs its rows through the shaping
    dict and `insert` and executes one statement per row, in row order; a
    `KeyError` aborts the run. `load_db` runs the loaders in a fixed order
    in which every table comes after the tables it references. The database
    connection is modelled by the log of the statements executed on it. */
module Loader {
  import opened Values
  import opened Coercion
  import opened Synthesis
  import opened Shaping

  /** The connection: every executed `(stmt, *params)` is appended to `log`. */
  class Connection {
    var log: seq<Query>

    constructor ()
      ensures log == []
    {
      log := [];
    }

    /** `await conn.execute(stmt, *params)` */
    method Execute(q: Query)
      modifies this
      ensures log == old(log) + [q]
    {
      log := log + [q];
    }
  }

  /** What running some rows or tables did: the statements executed, in order,
      and the failure that stopped the run, if any. */
  datatype Run = Run(log: seq<Query>, error: Option<Error>)

  const Nothing: Run := Run([], None)

  /** Running `a` and then, unless `a` failed, `b`. */
  function Then(a: Run, b: Run): Run
  {
    if a.error.Some? then a else Run(a.log + b.log, b.error)
  }

  lemma ThenAssociative(a: Run, b: Run, c: Run)
    ensures Then(Then(a, b), c) == Then(a, Then(b, c))
  {
  }

  /** One iteration of a loader's loop: the row is normalised, skipped if the
      table skips it, otherwise shaped and passed to `insert`. */
  function Step(l: TableLoader, raw: RawRow): (r: Result<Option<Query>>)
    ensures Skips(l, Normalize(raw)) ==> r == Ok(None)
    ensures r.Err? ==> r.error.MissingKey? || r.error == EmptyRecord
  {
    var row := Normalize(raw);
    if Skips(l, row) then Ok(None)
    else
      var rec :- Shape(l.columns, row);
      var q :- Insert(rec, TableName(l.table), l.key);
      Ok(Some(q))
  }

  function StepRun(l: TableLoader, raw: RawRow): Run
  {
    match Step(l, raw)
    case Err(e) => Run([], Some(e))
    case Ok(None) => Nothing
    case Ok(Some(q)) => Run([q], None)
  }

  /** A row's run executes its statement, nothing for a skipped row, and
      nothing when the row raises. */
  lemma StepRunOf(l: TableLoader, raw: RawRow)
    ensures StepRun(l, raw).error.Some? <==> Step(l, raw).Err?
    ensures Step(l, raw).Err? ==> StepRun(l, raw) == Run([], Some(Step(l, raw).error))
    ensures Step(l, raw).Ok? && Step(l, raw).value.None? ==> StepRun(l, raw) == Nothing
    ensures Step(l, raw).Ok? && Step(l, raw).value.Some? ==> StepRun(l, raw) == Run([Step(l, raw).value.value], None)
  {
  }

  /** One row of a loader. It yields nothing exactly when the loader skips
      it, and a statement exactly when it is not skipped, the dict is not
      empty and every entry evaluates. That statement inserts into the
      loader's table one column per dict entry, in dict order, with
      placeholders `$1..$n` bound to the entries' values, and carries the
      conflict clause the loader's key chooses for those columns. */
  lemma StepStatement(l: TableLoader, raw: RawRow)
    ensures Step(l, raw) == Ok(None) <==> Skips(l, Normalize(raw))
    ensures Step(l, raw).Ok? && Step(l, raw).value.Some? <==>
      !Skips(l, Normalize(raw)) && l.columns != [] &&
      forall i :: 0 <= i < |l.columns| ==> Eval(l.columns[i].rule, Normalize(raw)).Ok?
    ensures Step(l, raw).Ok? && Step(l, raw).value.Some? ==>
      var q := Step(l, raw).value.value;
      q.stmt.table == TableName(l.table) &&
      q.stmt.columns == Names(l.columns) &&
      q.stmt.onConflict == ConflictClause(Names(l.columns), l.key) &&
      |q.stmt.placeholders| == |q.params| == |l.columns| &&
      forall i :: 0 <= i < |l.columns| ==>
        q.stmt.placeholders[i] == i + 1 && q.params[i] == Eval(l.columns[i].rule, Normalize(raw)).value
  {
    var row := Normalize(raw);
    ShapeSucceeds(l.columns, row);
    if !Skips(l, row) && Shape(l.columns, row).Ok? {
      var rec := Shape(l.columns, row).value;
      if rec != [] {
        InsertBindsEveryColumn(rec, TableName(l.table), l.key);
      }
    }
  }

  /** Running `runs` one after the other, stopping at the first failure. */
  function Sequence(runs: seq<Run>): Run
  {
    if runs == [] then Nothing else Then(runs[0], Sequence(runs[1..]))
  }

  /** Running two stretches in turn is running their concatenation. */
  lemma {:induction false} SequenceSplit(a: seq<Run>, b: seq<Run>)
    ensures Sequence(a + b) == Then(Sequence(a), Sequence(b))
  {
    if a == [] {
      assert a + b == b;
    } else {
      assert (a + b)[1..] == a[1..] + b;
      SequenceSplit(a[1..], b);
      ThenAssociative(a[0], Sequence(a[1..]), Sequence(b));
    }
  }

  /** A sequence of runs fails exactly when one of them fails. It then stops
      at the first failing run: what it executed is what the runs before that
      one executed, followed by what the failing run executed before failing,
      and it carries that run's error. */
  lemma SequenceFailsFast(runs: seq<Run>)
    ensures Sequence(runs).error.Some? <==> exists i :: 0 <= i < |runs| && runs[i].error.Some?
    ensures Sequence(runs).error.Some? ==>
      exists i :: (0 <= i < |runs| && runs[i].error.Some? && Sequence(runs[..i]).error.None? &&
                   Sequence(runs) == Run(Sequence(runs[..i]).log + runs[i].log, runs[i].error))
  {
    SequenceSucceeds(runs);
    if Sequence(runs).error.Some? {
      var i := FirstFailure(runs);
      var before := runs[..i];
      assert forall j :: 0 <= j < i ==> before[j] == runs[j];
      SequenceSucceeds(before);
      SequenceSnoc(runs, i);
      SequenceStopsAt(runs, i + 1);
      assert Sequence(runs) == Run(Sequence(before).log + runs[i].log, runs[i].error);
    }
  }

  /** The first failing run of a sequence that has one. */
  lemma FirstFailure(runs: seq<Run>) returns (i: nat)
    requires exists j :: 0 <= j < |runs| && runs[j].error.Some?
    ensures i < |runs| && runs[i].error.Some?
    ensures forall j :: 0 <= j < i ==> runs[j].error.None?
  {
    i := 0;
    while runs[i].error.None?
      invariant 0 <= i < |runs|
      invariant forall j :: 0 <= j < i ==> runs[j].error.None?
      invariant exists j :: i <= j < |runs| && runs[j].error.Some?
      decreases |runs| - i
    {
      i := i + 1;
    }
  }

  /** A sequence of runs succeeds exactly when every run in it succeeds. */
  lemma {:induction false} SequenceSucceeds(runs: seq<Run>)
    ensures Sequence(runs).error.None? <==> forall i :: 0 <= i < |runs| ==> runs[i].error.None?
  {
    if runs != [] {
      SequenceSucceeds(runs[1..]);
      assert forall i :: 1 <= i < |runs| ==> runs[1..][i - 1] == runs[i];
    }
  }

  lemma SequenceOne(r: Run)
    ensures Sequence([r]) == r
  {
    assert [r][1..] == [];
  }

  /** Every statement a sequence of runs executes comes from one of them. */
  lemma {:induction false} SequenceLogFrom(runs: seq<Run>)
    ensures forall q :: q in Sequence(runs).log ==> exists i :: 0 <= i < |runs| && q in runs[i].log
  {
    if runs != [] {
      SequenceLogFrom(runs[1..]);
      assert forall i :: 1 <= i < |runs| ==> runs[1..][i - 1] == runs[i];
    }
  }

  /** A sequence of runs that does not fail, each executing exactly one
      statement, executes those statements in order. */
  lemma {:induction false} SequenceOfSingles(runs: seq<Run>)
    requires Sequence(runs).error.None?
    requires forall i :: 0 <= i < |runs| && runs[i].error.None? ==> |runs[i].log| == 1
    ensures forall i :: 0 <= i < |runs| ==> runs[i].error.None?
    ensures |Sequence(runs).log| == |runs|
    ensures forall i :: 0 <= i < |runs| ==> Sequence(runs).log[i] == runs[i].log[0]
  {
    if runs != [] {
      assert forall i :: 1 <= i < |runs| ==> runs[1..][i - 1] == runs[i];
      SequenceOfSingles(runs[1..]);
    }
  }

  /** The run of each row of a table. */
  function Steps(l: TableLoader, rows: seq<RawRow>): seq<Run>
  {
    seq(|rows|, i requires 0 <= i < |rows| => StepRun(l, rows[i]))
  }

  /** `load_<table>(conn)` over the rows of the loader's source file. */
  function RunTable(l: TableLoader, rows: seq<RawRow>): (r: Run)
    ensures r.error.None? <==> forall i :: 0 <= i < |rows| ==> Step(l, rows[i]).Ok?
  {
    StepsSucceed(l, rows);
    Sequence(Steps(l, rows))
  }

  lemma StepsSucceed(l: TableLoader, rows: seq<RawRow>)
    ensures Sequence(Steps(l, rows)).error.None? <==> forall i :: 0 <= i < |rows| ==> Step(l, rows[i]).Ok?
  {
    var runs := Steps(l, rows);
    SequenceSucceeds(runs);
    forall i | 0 <= i < |rows| ensures runs[i].error.None? <==> Step(l, rows[i]).Ok? {
      StepRunOf(l, rows[i]);
    }
  }

  /** The CSV directory: the rows of each file present in it. */
  type Files = map<string, seq<RawRow>>

  /** `load_<table>(conn)` on the directory: a file that is not there raises
      `FileNotFoundError` before any statement is executed. */
  function LoaderRun(l: TableLoader, files: Files): Run
  {
    if l.file in files then RunTable(l, files[l.file]) else Run([], Some(MissingFile(l.file)))
  }

  /** The run of each loader of a plan. */
  function Loads(plan: seq<TableLoader>, files: Files): seq<Run>
  {
    seq(|plan|, k requires 0 <= k < |plan| => LoaderRun(plan[k], files))
  }

  /** The loaders of `plan`, one after the other, stopping at the first failure. */
  function RunPlan(plan: seq<TableLoader>, files: Files): (r: Run)
    ensures r.error.None? <==> forall k :: 0 <= k < |plan| ==> LoaderRun(plan[k], files).error.None?
  {
    LoadsSucceed(plan, files);
    Sequence(Loads(plan, files))
  }

  lemma LoadsSucceed(plan: seq<TableLoader>, files: Files)
    ensures Sequence(Loads(plan, files)).error.None? <==>
      forall k :: 0 <= k < |plan| ==> LoaderRun(plan[k], files).error.None?
  {
    var runs := Loads(plan, files);
    SequenceSucceeds(runs);
    assert forall k :: 0 <= k < |plan| ==> runs[k] == LoaderRun(plan[k], files);
  }

  /** A row of a well-formed loader fails only on a missing key, never on an
      empty record; the key is one the shaping dict subscripts. */
  lemma StepFailsOnlyOnMissingKey(l: TableLoader, raw: RawRow)
    requires WellFormed(l)
    requires Step(l, raw).Err?
    ensures Step(l, raw).error.MissingKey?
    ensures exists i :: 0 <= i < |l.columns| && RequiredKey(l.columns[i].rule) == Some(Step(l, raw).error.key)
  {
    var row := Normalize(raw);
    ShapeSucceeds(l.columns, row);
    if Shape(l.columns, row).Err? {
      ShapeFailsAtFirst(l.columns, row);
      var i :| 0 <= i < |l.columns| && Eval(l.columns[i].rule, row).Err? &&
        Shape(l.columns, row).error == Eval(l.columns[i].rule, row).error;
      EvalFails(l.columns[i].rule, row);
    }
  }

  /** A loader whose shaping dict holds key columns only, such as
      `load_move_effects` and `load_pokemon_types`, inserts each row with
      `ON CONFLICT DO NOTHING`. */
  lemma KeyOnlyLoaderDoesNothing(l: TableLoader, raw: RawRow)
    requires WellFormed(l)
    requires forall i :: 0 <= i < |l.columns| ==> l.columns[i].name in l.key
    requires Step(l, raw).Ok? && Step(l, raw).value.Some?
    ensures Step(l, raw).value.value.stmt.onConflict == Some(DoNothing)
  {
    var row := Normalize(raw);
    ShapeSucceeds(l.columns, row);
    var rec := Shape(l.columns, row).value;
    OnlyKeyColumnsDoNothing(rec, TableName(l.table), l.key);
  }

  /** Running a prefix one run longer: the run added is appended unless the
      prefix already failed. */
  lemma SequenceSnoc(runs: seq<Run>, i: nat)
    requires i < |runs|
    ensures Sequence(runs[..i + 1]) == Then(Sequence(runs[..i]), runs[i])
  {
    assert runs[..i + 1] == runs[..i] + [runs[i]];
    SequenceSplit(runs[..i], [runs[i]]);
    SequenceOne(runs[i]);
  }

  /** Once a prefix has failed, the rest of the runs changes nothing. */
  lemma SequenceStopsAt(runs: seq<Run>, i: nat)
    requires i <= |runs|
    requires Sequence(runs[..i]).error.Some?
    ensures Sequence(runs) == Sequence(runs[..i])
  {
    assert runs == runs[..i] + runs[i..];
    SequenceSplit(runs[..i], runs[i..]);
  }

  lemma StepsPrefix(l: TableLoader, rows: seq<RawRow>, i: nat)
    requires i <= |rows|
    ensures Steps(l, rows[..i]) == Steps(l, rows)[..i]
  {
  }

  lemma RunTableSnoc(l: TableLoader, rows: seq<RawRow>, i: nat)
    requires i < |rows|
    ensures RunTable(l, rows[..i + 1]) == Then(RunTable(l, rows[..i]), StepRun(l, rows[i]))
    ensures RunTable(l, rows[..i + 1]).error.Some? ==> RunTable(l, rows) == RunTable(l, rows[..i + 1])
  {
    StepsPrefix(l, rows, i);
    StepsPrefix(l, rows, i + 1);
    SequenceSnoc(Steps(l, rows), i);
    if RunTable(l, rows[..i + 1]).error.Some? {
      SequenceStopsAt(Steps(l, rows), i + 1);
    }
  }

  /** Every statement a loader executes targets its own table. */
  lemma RunTableTargetsTable(l: TableLoader, rows: seq<RawRow>)
    ensures forall q :: q in RunTable(l, rows).log ==> q.stmt.table == TableName(l.table)
  {
    SequenceLogFrom(Steps(l, rows));
  }

  lemma LoaderRunTargetsTable(l: TableLoader, files: Files)
    ensures forall q :: q in LoaderRun(l, files).log ==> q.stmt.table == TableName(l.table)
  {
    if l.file in files {
      RunTableTargetsTable(l, files[l.file]);
    }
  }

  /** The statements the rows yield, in row order; rows that yield none
      contribute nothing. */
  function Statements(l: TableLoader, rows: seq<RawRow>): seq<Query>
  {
    if rows == [] then []
    else
      var head := Step(l, rows[0]);
      (if head.Ok? && head.value.Some? then [head.value.value] else []) + Statements(l, rows[1..])
  }

  /** A loader that does not fail raises on none of its rows, and executes,
      in row order, the statement of every row it does not skip and nothing
      for the rows it skips, such as the name-less rows of
      `load_pokemon_form_names`. */
  lemma RunTableLog(l: TableLoader, rows: seq<RawRow>)
    requires RunTable(l, rows).error.None?
    ensures forall i :: 0 <= i < |rows| ==> Step(l, rows[i]).Ok?
    ensures forall i :: 0 <= i < |rows| ==> (Step(l, rows[i]).value.None? <==> Skips(l, Normalize(rows[i])))
    ensures RunTable(l, rows).log == Statements(l, rows)
  {
    RunTableStatements(l, rows);
    forall i | 0 <= i < |rows|
      ensures Step(l, rows[i]).value.None? <==> Skips(l, Normalize(rows[i]))
    {
      StepStatement(l, rows[i]);
    }
  }

  lemma {:induction false} RunTableStatements(l: TableLoader, rows: seq<RawRow>)
    requires RunTable(l, rows).error.None?
    ensures forall i :: 0 <= i < |rows| ==> Step(l, rows[i]).Ok?
    ensures RunTable(l, rows).log == Statements(l, rows)
  {
    if rows != [] {
      var runs := Steps(l, rows);
      assert runs[1..] == Steps(l, rows[1..]);
      assert RunTable(l, rows) == Then(runs[0], RunTable(l, rows[1..]));
      StepRunOf(l, rows[0]);
      RunTableStatements(l, rows[1..]);
      assert forall i :: 1 <= i < |rows| ==> rows[1..][i - 1] == rows[i];
    }
  }

  /** A loader that skips nothing and does not fail executes exactly one
      statement per row, in row order: the row's shaped record through
      `insert`. */
  lemma OneStatementPerRow(l: TableLoader, rows: seq<RawRow>)
    requires l.skipUnlessAny == []
    requires RunTable(l, rows).error.None?
    ensures |RunTable(l, rows).log| == |rows|
    ensures forall i :: 0 <= i < |rows| ==>
      Step(l, rows[i]).Ok? && Step(l, rows[i]).value.Some? && RunTable(l, rows).log[i] == Step(l, rows[i]).value.value
  {
    var runs := Steps(l, rows);
    forall i | 0 <= i < |rows|
      ensures runs[i].error.None? ==> |runs[i].log| == 1
    {
      StepRunOf(l, rows[i]);
    }
    SequenceOfSingles(runs);
    forall i | 0 <= i < |rows|
      ensures Step(l, rows[i]).Ok? && Step(l, rows[i]).value.Some? && RunTable(l, rows).log[i] == Step(l, rows[i]).value.value
    {
      assert runs[i] == StepRun(l, rows[i]) && runs[i].error.None?;
      StepRunOf(l, rows[i]);
      assert RunTable(l, rows).log[i] == runs[i].log[0];
    }
  }

  /** A loader fails exactly when one of its rows fails; it then has executed
      the statements of the rows before that one, and none after it. */
  lemma FailFast(l: TableLoader, rows: seq<RawRow>)
    ensures RunTable(l, rows).error.Some? <==> exists i :: 0 <= i < |rows| && Step(l, rows[i]).Err?
    ensures RunTable(l, rows).error.Some? ==>
      exists i :: (0 <= i < |rows| && Step(l, rows[i]).Err? && RunTable(l, rows[..i]).error.None? &&
                   RunTable(l, rows) == Run(RunTable(l, rows[..i]).log, Some(Step(l, rows[i]).error)))
  {
    var runs := Steps(l, rows);
    forall i | 0 <= i < |rows|
      ensures (runs[i].error.Some? <==> Step(l, rows[i]).Err?) && (runs[i].error.Some? ==> runs[i].log == [])
    {
      StepRunOf(l, rows[i]);
    }
    SequenceFailsFast(runs);
    if RunTable(l, rows).error.Some? {
      var i :| 0 <= i < |runs| && runs[i].error.Some? && Sequence(runs[..i]).error.None? &&
        Sequence(runs) == Run(Sequence(runs[..i]).log, runs[i].error);
      StepsPrefix(l, rows, i);
      StepRunOf(l, rows[i]);
      assert Sequence(runs[..i]).log + runs[i].log == Sequence(runs[..i]).log;
    }
  }

  /** `load_<table>(conn)`: the loop of one loader. */
  method LoadTable(conn: Connection, l: TableLoader, rows: seq<RawRow>) returns (error: Option<Error>)
    modifies conn
    ensures conn.log == old(conn.log) + RunTable(l, rows).log
    ensures error == RunTable(l, rows).error
  {
    var i := 0;
    while i < |rows|
      invariant 0 <= i <= |rows|
      invariant RunTable(l, rows[..i]).error.None?
      invariant conn.log == old(conn.log) + RunTable(l, rows[..i]).log
    {
      RunTableSnoc(l, rows, i);
      var row := Normalize(rows[i]);
      if !Skips(l, row) {
        var rec := Shape(l.columns, row);
        if rec.Err? {
          error := Some(rec.error);
          return;
        }
        var q := Insert(rec.value, TableName(l.table), l.key);
        if q.Err? {
          error := Some(q.error);
          return;
        }
        conn.Execute(q.value);
      }
      i := i + 1;
    }
    assert rows[..i] == rows;
    error := None;
  }

  /** The order in which `load_db` runs the loaders. */
  const Plan: seq<TableLoader> := [
    LanguagesLoader, PokemonSpeciesLoader, PokemonSpeciesNamesLoader, PokemonSpeciesFlavorTextLoader,
    PokemonLoader, EvolutionTriggersLoader, ItemsLoader, MoveTargetsLoader, DamageClassesLoader, TypesLoader,
    MoveEffectsLoader, MovesLoader, PokemonEvolutionsLoader, PokemonTypesLoader, PokemonFormsLoader, PokemonFormNamesLoader]

  /** `await load_<table>(conn)`: open the loader's file, then run its loop. */
  method RunLoader(conn: Connection, l: TableLoader, files: Files) returns (error: Option<Error>)
    modifies conn
    ensures conn.log == old(conn.log) + LoaderRun(l, files).log
    ensures error == LoaderRun(l, files).error
  {
    if l.file in files {
      error := LoadTable(conn, l, files[l.file]);
    } else {
      error := Some(MissingFile(l.file));
    }
  }

  /** The loaders of `plan`, awaited one after the other on the same
      connection; the first failure propagates and ends the run. `runs` is
      what each loader does on its own, `Loads(plan, files)`. */
  method LoadAll(conn: Connection, plan: seq<TableLoader>, files: Files, ghost runs: seq<Run>) returns (error: Option<Error>)
    requires |runs| == |plan|
    requires forall k {:trigger LoaderRun(plan[k], files)} :: 0 <= k < |plan| ==> runs[k] == LoaderRun(plan[k], files)
    modifies conn
    ensures conn.log == old(conn.log) + Sequence(runs).log
    ensures error == Sequence(runs).error
  {
    var k := 0;
    assert runs[..0] == [];
    while k < |plan|
      invariant 0 <= k <= |plan|
      invariant Sequence(runs[..k]).error.None?
      invariant conn.log == old(conn.log) + Sequence(runs[..k]).log
    {
      ghost var before := conn.log;
      error := RunLoader(conn, plan[k], files);
      assert runs[k] == LoaderRun(plan[k], files);
      SequenceStep(runs, k, old(conn.log), before, conn.log, error);
      if error.Some? {
        return;
      }
      k := k + 1;
    }
    assert runs[..k] == runs;
    error := None;
  }

  /** One more run after a stretch that has not failed: either the stretch
      goes on, or the failure ends the whole sequence. */
  lemma SequenceStep(runs: seq<Run>, k: nat, base: seq<Query>, before: seq<Query>, after: seq<Query>, error: Option<Error>)
    requires k < |runs|
    requires Sequence(runs[..k]).error.None? && before == base + Sequence(runs[..k]).log
    requires after == before + runs[k].log && error == runs[k].error
    ensures error.None? ==> Sequence(runs[..k + 1]).error.None? && after == base + Sequence(runs[..k + 1]).log
    ensures error.Some? ==> after == base + Sequence(runs).log && error == Sequence(runs).error
  {
    SequenceSnoc(runs, k);
    ThenLog(base, Sequence(runs[..k]), runs[k], before, after);
    if error.Some? {
      SequenceStopsAt(runs, k + 1);
    }
  }

  lemma ThenLog(base: seq<Query>, a: Run, b: Run, before: seq<Query>, after: seq<Query>)
    requires a.error.None? && before == base + a.log && after == before + b.log
    ensures Then(a, b).error == b.error && after == base + Then(a, b).log
  {
  }

  /** `load_db(uri)` on an open connection, given the rows of every source
      file: `load_languages`, `load_pokemon_species`, ...,
      `load_pokemon_form_names`, in the order of `Plan`. */
  method LoadDb(conn: Connection, files: Files) returns (error: Option<Error>)
    modifies conn
    ensures conn.log == old(conn.log) + RunPlan(Plan, files).log
    ensures error == RunPlan(Plan, files).error
  {
    error := LoadAll(conn, Plan, files, Loads(Plan, files));
  }

  /** The foreign keys between the tables, as the column names show them:
      each table with the tables whose ids it stores. */
  function References(t: Table): set<Table>
  {
    match t
    case PokemonSpeciesNames => {PokemonSpecies, Languages}
    case PokemonSpeciesFlavorText => {PokemonSpecies, Languages}
    case Pokemon => {PokemonSpecies}
    case Moves => {Types, MoveTargets, DamageClasses, MoveEffects}
    case PokemonEvolutions => {PokemonSpecies, EvolutionTriggers, Items, Moves, Types}
    case PokemonTypes => {Pokemon, Types}
    case PokemonForms => {Pokemon}
    case PokemonFormNames => {PokemonForms, Languages}
    case _ => {}
  }

  /** The tables a plan fills, in order. */
  function Tables(plan: seq<TableLoader>): seq<Table>
  {
    seq(|plan|, i requires 0 <= i < |plan| => plan[i].table)
  }

  /** No table of the list references itself or a table listed after it. */
  predicate Ordered(tables: seq<Table>)
  {
    forall i, j :: 0 <= i <= j < |tables| ==> tables[j] !in References(tables[i])
  }

  /** Every statement of a run of `plan` targets the table of one of its
      loaders. */
  lemma RunPlanTargetsPlan(plan: seq<TableLoader>, files: Files)
    ensures forall q :: q in RunPlan(plan, files).log ==> exists k :: 0 <= k < |plan| && q.stmt.table == TableName(plan[k].table)
  {
    var runs := Loads(plan, files);
    SequenceLogFrom(runs);
    forall q | q in RunPlan(plan, files).log
      ensures exists k :: 0 <= k < |plan| && q.stmt.table == TableName(plan[k].table)
    {
      var k :| 0 <= k < |runs| && q in runs[k].log;
      LoaderRunTargetsTable(plan[k], files);
    }
  }

  lemma RunPlanCons(plan: seq<TableLoader>, files: Files)
    requires plan != []
    ensures RunPlan(plan, files) == Then(LoaderRun(plan[0], files), RunPlan(plan[1..], files))
  {
    assert Loads(plan, files)[1..] == Loads(plan[1..], files);
  }

  lemma LoadsPrefix(plan: seq<TableLoader>, files: Files, k: nat)
    requires k <= |plan|
    ensures Loads(plan[..k], files) == Loads(plan, files)[..k]
  {
  }

  /** A run of a plan fails exactly when one of its loaders fails. It then
      stops at the first failing loader: the loaders before it have run to
      completion, the failing one has executed the statements of its rows
      before the failing row, no later loader runs, and the run carries the
      failing loader's error. */
  lemma RunPlanFailFast(plan: seq<TableLoader>, files: Files)
    ensures RunPlan(plan, files).error.Some? <==> exists k :: 0 <= k < |plan| && LoaderRun(plan[k], files).error.Some?
    ensures RunPlan(plan, files).error.Some? ==>
      exists k :: (0 <= k < |plan| && LoaderRun(plan[k], files).error.Some? &&
                   RunPlan(plan[..k], files).error.None? &&
                   RunPlan(plan, files) ==
                     Run(RunPlan(plan[..k], files).log + LoaderRun(plan[k], files).log, LoaderRun(plan[k], files).error))
  {
    var runs := Loads(plan, files);
    SequenceFailsFast(runs);
    if RunPlan(plan, files).error.Some? {
      var k :| 0 <= k < |runs| && runs[k].error.Some? && Sequence(runs[..k]).error.None? &&
        Sequence(runs) == Run(Sequence(runs[..k]).log + runs[k].log, runs[k].error);
      LoadsPrefix(plan, files, k);
      assert RunPlan(plan[..k], files) == Sequence(runs[..k]);
    } else {
      forall k | 0 <= k < |plan| ensures LoaderRun(plan[k], files).error.None? {
        assert runs[k] == LoaderRun(plan[k], files);
      }
    }
  }

  /** In the statement log of an ordered plan, no statement for a table
      comes before a statement for a table it references. */
  lemma {:induction false} LogRespectsReferences(plan: seq<TableLoader>, files: Files)
    requires Ordered(Tables(plan))
    ensures var log := RunPlan(plan, files).log;
      forall i, j, a, b :: 0 <= i < j < |log| && log[i].stmt.table == TableName(a) && log[j].stmt.table == TableName(b) ==>
        b !in References(a)
  {
    if plan != [] {
      var l := plan[0];
      RunPlanCons(plan, files);
      var head := LoaderRun(l, files);
      var tail := RunPlan(plan[1..], files);
      var log := RunPlan(plan, files).log;
      assert Tables(plan[1..]) == Tables(plan)[1..];
      assert forall k :: 0 <= k < |plan| ==> Tables(plan)[k] == plan[k].table;
      LogRespectsReferences(plan[1..], files);
      LoaderRunTargetsTable(l, files);
      RunPlanTargetsPlan(plan[1..], files);
      forall i, j, a, b | 0 <= i < j < |log| && log[i].stmt.table == TableName(a) && log[j].stmt.table == TableName(b)
        ensures b !in References(a)
      {
        if head.error.Some? || j < |head.log| {
          assert log[i] in head.log && log[j] in head.log;
          TableNameInjective(a, l.table);
          TableNameInjective(b, l.table);
        } else if i < |head.log| {
          assert log == head.log + tail.log;
          assert log[i] in head.log;
          assert log[j] == tail.log[j - |head.log|];
          var k :| 0 <= k < |plan[1..]| && log[j].stmt.table == TableName(plan[1..][k].table);
          assert plan[1..][k] == plan[k + 1];
          TableNameInjective(a, l.table);
          TableNameInjective(b, plan[k + 1].table);
        } else {
          assert log == head.log + tail.log;
          assert log[i] == tail.log[i - |head.log|] && log[j] == tail.log[j - |head.log|];
        }
      }
    }
  }

  /** The order in which `load_db` fills the tables. */
  const LoadOrder: seq<Table> := [
    Languages, PokemonSpecies, PokemonSpeciesNames, PokemonSpeciesFlavorText,
    Pokemon, EvolutionTriggers, Items, MoveTargets, DamageClasses, Types,
    MoveEffects, Moves, PokemonEvolutions, PokemonTypes, PokemonForms, PokemonFormNames]

  lemma PlanTables()
    ensures Tables(Plan) == LoadOrder
  {
  }

  /** Each table comes after the tables it references. */
  lemma LoadOrderOrdered()
    ensures Ordered(LoadOrder)
  {
  }

  /** `load_db` fills each table after the tables it references. */
  lemma PlanRespectsReferences()
    ensures Ordered(Tables(Plan))
  {
    PlanTables();
    LoadOrderOrdered();
  }

  /** `load_db` fills every one of the sixteen tables, each exactly once. */
  lemma PlanTablesDistinct()
    ensures |Plan| == 16 && forall i, j :: 0 <= i < j < |Plan| ==> Plan[i].table != Plan[j].table
    ensures forall t: Table :: t in Tables(Plan)
  {
    PlanTables();
    LoadOrderComplete();
  }

  lemma LoadOrderComplete()
    ensures |LoadOrder| == 16 && forall i, j :: 0 <= i < j < |LoadOrder| ==> LoadOrder[i] != LoadOrder[j]
    ensures forall t: Table :: t in LoadOrder
  {
    forall t: Table ensures t in LoadOrder {
      match t
      case Languages => assert LoadOrder[0] == t;
      case PokemonSpecies => assert LoadOrder[1] == t;
      case PokemonSpeciesNames => assert LoadOrder[2] == t;
      case PokemonSpeciesFlavorText => assert LoadOrder[3] == t;
      case Pokemon => assert LoadOrder[4] == t;
      case EvolutionTriggers => assert LoadOrder[5] == t;
      case Items => assert LoadOrder[6] == t;
      case MoveTargets => assert LoadOrder[7] == t;
      case DamageClasses => assert LoadOrder[8] == t;
      case Types => assert LoadOrder[9] == t;
      case MoveEffects => assert LoadOrder[10] == t;
      case Moves => assert LoadOrder[11] == t;
      case PokemonEvolutions => assert LoadOrder[12] == t;
      case PokemonTypes => assert LoadOrder[13] == t;
      case PokemonForms => assert LoadOrder[14] == t;
      case PokemonFormNames => assert LoadOrder[15] == t;
    }
  }

  /** Every loader of `load_db` has a non-empty shaping dict and a key made
      of its own columns. */
  lemma PlanWellFormed()
    ensures forall k :: 0 <= k < |Plan| ==> WellFormed(Plan[k])
  {
    forall k | 0 <= k < |Plan| ensures WellFormed(Plan[k]) {
      if k < 4 {
        SpeciesLoadersWellFormed(k);
      } else if k < 11 {
        SmallLoadersWellFormed(k);
      } else if k < 12 {
        MovesLoaderWellFormed(k);
      } else if k < 13 {
        EvolutionsLoaderWellFormed(k);
      } else {
        FormLoadersWellFormed(k);
      }
    }
  }

  lemma SpeciesLoadersWellFormed(k: nat)
    requires 0 <= k < 4
    ensures WellFormed(Plan[k])
  {
    SpeciesDictsDistinct();
    NamesDistinctFromSound(Plan[k].columns, 0);
  }

  lemma SmallLoadersWellFormed(k: nat)
    requires 4 <= k < 11
    ensures WellFormed(Plan[k])
  {
    SmallDictsDistinct();
    NamesDistinctFromSound(Plan[k].columns, 0);
  }

  lemma MovesLoaderWellFormed(k: nat)
    requires 11 <= k < 12
    ensures WellFormed(Plan[k])
  {
    MovesDictDistinct();
    NamesDistinctFromSound(Plan[k].columns, 0);
  }

  lemma EvolutionsLoaderWellFormed(k: nat)
    requires 12 <= k < 13
    ensures WellFormed(Plan[k])
  {
    EvolutionsDictDistinct();
    NamesDistinctFromSound(Plan[k].columns, 0);
  }

  lemma FormLoadersWellFormed(k: nat)
    requires 13 <= k < 16
    ensures WellFormed(Plan[k])
  {
    FormDictsDistinct();
    NamesDistinctFromSound(Plan[k].columns, 0);
  }

  /** Only `load_pokemon_form_names` skips rows. */
  lemma PlanSkipsOnlyFormNames()
    ensures forall k :: 0 <= k < |Plan| && Plan[k].skipUnlessAny != [] ==> Plan[k] == PokemonFormNamesLoader
  {
  }

  /** What `load_db` executes keeps the foreign-key order. */
  lemma LoadDbRespectsReferences(files: Files)
    ensures var log := RunPlan(Plan, files).log;
      forall i, j, a, b :: 0 <= i < j < |log| && log[i].stmt.table == TableName(a) && log[j].stmt.table == TableName(b) ==>
        b !in References(a)
  {
    PlanRespectsReferences();
    LogRespectsReferences(Plan, files);
  }

  /** `load_evolution_triggers` on the row `id=1, identifier=level-up`: its
      dict `{id, identifier}` under the default key `("id",)` leaves one
      update column, so the statement ends in
      `ON CONFLICT (id) DO UPDATE SET identifier = EXCLUDED.identifier`, and
      it binds `$1` to the integer 1 and `$2` to the text `level-up`. */
  lemma SingleUpdateColumnExample()
    ensures Step(EvolutionTriggersLoader, [("id", "1"), ("identifier", "level-up")]) ==
      Ok(Some(Query(InsertInto("evolution_triggers", ["id", "identifier"], [1, 2],
                               Some(UpdateOne(["id"], "identifier", Excluded("identifier")))),
                    [Int(1), Text("level-up")])))
  {
    var row := [("id", Int(1)), ("identifier", Text("level-up"))];
    TriggerRowNormalizes();
    TriggerRowShapes();
    TriggerRowInserts();
    assert TableName(EvolutionTriggersLoader.table) == "evolution_triggers";
    assert !Skips(EvolutionTriggersLoader, row);
  }

  lemma TriggerRowShapes()
    ensures Shape(EvolutionTriggersLoader.columns, [("id", Int(1)), ("identifier", Text("level-up"))]) ==
      Ok([("id", Int(1)), ("identifier", Text("level-up"))])
  {
    var row := [("id", Int(1)), ("identifier", Text("level-up"))];
    var cols := EvolutionTriggersLoader.columns;
    assert Keys(row) == ["id", "identifier"];
    assert Lookup(row, "id") == Some(Int(1));
    assert Lookup(row, "identifier") == Some(Text("level-up"));
    assert Eval(cols[0].rule, row) == Ok(Int(1));
    assert Eval(cols[1].rule, row) == Ok(Text("level-up"));
    ShapeSucceeds(cols, row);
    var rec := Shape(cols, row).value;
    assert |rec| == |Keys(rec)| == 2;
    assert rec[0] == row[0] && rec[1] == row[1];
    assert rec == row;
  }

  lemma TriggerRowInserts()
    ensures Insert([("id", Int(1)), ("identifier", Text("level-up"))], "evolution_triggers", ["id"]) ==
      Ok(Query(InsertInto("evolution_triggers", ["id", "identifier"], [1, 2],
                          Some(UpdateOne(["id"], "identifier", Excluded("identifier")))),
               [Int(1), Text("level-up")]))
  {
    var record := [("id", Int(1)), ("identifier", Text("level-up"))];
    assert Keys(record) == ["id", "identifier"];
    assert Vals(record) == [Int(1), Text("level-up")];
    assert Placeholders(2) == [1, 2];
    assert UpdateColumns(["id", "identifier"], ["id"]) == ["identifier"];
  }

  lemma TriggerRowNormalizes()
    ensures Normalize([("id", "1"), ("identifier", "level-up")]) == [("id", Int(1)), ("identifier", Text("level-up"))]
  {
    assert IsInt("1") && ParseInt("1") == 1;
    assert !IsInt("level-up") by { assert !IsDigit("level-up"[0]); }
  }

  /** `load_move_effects` never overwrites a row: every statement it executes
      ends in `ON CONFLICT DO NOTHING`. */
  lemma MoveEffectsDoNothing(raw: RawRow)
    requires Step(MoveEffectsLoader, raw).Ok? && Step(MoveEffectsLoader, raw).value.Some?
    ensures Step(MoveEffectsLoader, raw).value.value.stmt.onConflict == Some(DoNothing)
  {
    KeyOnlyLoaderDoesNothing(MoveEffectsLoader, raw);
  }

  /** `load_pokemon_types` never overwrites a row: every statement it executes
      ends in `ON CONFLICT DO NOTHING`. */
  lemma PokemonTypesDoNothing(raw: RawRow)
    requires Step(PokemonTypesLoader, raw).Ok? && Step(PokemonTypesLoader, raw).value.Some?
    ensures Step(PokemonTypesLoader, raw).value.value.stmt.onConflict == Some(DoNothing)
  {
    KeyOnlyLoaderDoesNothing(PokemonTypesLoader, raw);
  }
}
