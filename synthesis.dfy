/** The statement synthesiser `insert(obj, table, pk_cols=("id",))` of data.py:
    a PostgreSQL `INSERT ... VALUES ($1, ..., $n)` over every column of a
    record, followed by an `ON CONFLICT` clause chosen by the non-key columns.
    The statement is modelled by its structure, not its text; it holds column
    names and placeholder numbers only, never a value, so every value reaches
    the database as a bound parameter. */
module Synthesis {
  import opened Values

  /** `EXCLUDED.<column>`: the value the conflicting insert attempted to write. */
  datatype Excluded = Excluded(column: string)

  datatype Conflict =
    /** `ON CONFLICT DO NOTHING` (no conflict target). */
    | DoNothing
    /** `ON CONFLICT (target) DO UPDATE SET column = EXCLUDED.column` */
    | UpdateOne(target: seq<string>, column: string, source: Excluded)
    /** `ON CONFLICT (target) DO UPDATE SET (c1, ..., ck) = (EXCLUDED.c1, ..., EXCLUDED.ck)` */
    | UpdateTuple(target: seq<string>, columns: seq<string>, sources: seq<Excluded>)

  /** `INSERT INTO table (columns) VALUES ($p1, ...)`, optionally followed by a
      conflict clause. */
  datatype Statement = InsertInto(table: string, columns: seq<string>, placeholders: seq<nat>, onConflict: Option<Conflict>)

  /** What `insert` returns and `conn.execute` receives: `(stmt, *vals)`. */
  datatype Query = Query(stmt: Statement, params: seq<Value>)

  /** `[x for x in cols if x not in pk_cols]` */
  function UpdateColumns(cols: seq<string>, pk: seq<string>): (upd: seq<string>)
    ensures IsSubsequence(upd, cols)
    ensures forall c :: c in upd <==> c in cols && c !in pk
  {
    if cols == [] then []
    else
      var rest := UpdateColumns(cols[1..], pk);
      assert forall c :: c in cols <==> c == cols[0] || c in cols[1..];
      if cols[0] in pk then rest else [cols[0]] + rest
  }

  /** Each update column occurs as often as in the record; key columns do
      not occur at all. */
  lemma {:induction false} UpdateColumnsCounts(cols: seq<string>, pk: seq<string>)
    ensures forall c :: multiset(UpdateColumns(cols, pk))[c] == if c in pk then 0 else multiset(cols)[c]
  {
    if cols != [] {
      UpdateColumnsCounts(cols[1..], pk);
      assert cols == [cols[0]] + cols[1..];
    }
  }

  /** `$1, ..., $n` */
  function Placeholders(n: nat): seq<nat>
  {
    seq(n, i => i + 1)
  }

  /** The clause appended after `VALUES (...)`, if any. */
  function ConflictClause(cols: seq<string>, pk: seq<string>): Option<Conflict>
  {
    if |pk| == 0 then None
    else
      var upd := UpdateColumns(cols, pk);
      if |upd| == 0 then Some(DoNothing)
      else if |upd| == 1 then Some(UpdateOne(pk, upd[0], Excluded(upd[0])))
      else Some(UpdateTuple(pk, upd, seq(|upd|, i requires 0 <= i < |upd| => Excluded(upd[i]))))
  }

  /** `insert(obj, table, pk_cols)`. An empty record fails where the source
      unpacks `zip(*obj.items())`; a `pk_cols` of `None` is the empty key. */
  function Insert(record: Fields, table: string, pk: seq<string>): (r: Result<Query>)
    ensures r.Err? <==> record == []
    ensures r.Err? ==> r.error == EmptyRecord
  {
    if record == [] then Err(EmptyRecord)
    else
      var cols := Keys(record);
      Ok(Query(InsertInto(table, cols, Placeholders(|cols|), ConflictClause(cols, pk)), Vals(record)))
  }

  /** The columns a conflict clause overwrites, in order. */
  function Assigned(c: Conflict): seq<string>
  {
    match c
    case DoNothing => []
    case UpdateOne(_, col, _) => [col]
    case UpdateTuple(_, cols, _) => cols
  }

  /** The `EXCLUDED` values a conflict clause writes, in order. */
  function Sources(c: Conflict): seq<Excluded>
  {
    match c
    case DoNothing => []
    case UpdateOne(_, _, src) => [src]
    case UpdateTuple(_, _, srcs) => srcs
  }

  /** Every column of the record appears once, in record order, with the
      placeholder `$i` at position i, and `$i` is bound to the record's i-th
      value. */
  lemma InsertBindsEveryColumn(record: Fields, table: string, pk: seq<string>)
    requires record != []
    ensures Insert(record, table, pk).Ok?
    ensures var q := Insert(record, table, pk).value;
      q.stmt.table == table &&
      |q.stmt.columns| == |q.stmt.placeholders| == |q.params| == |record| &&
      forall i :: 0 <= i < |record| ==>
        q.stmt.columns[i] == record[i].0 &&
        q.stmt.placeholders[i] == i + 1 &&
        q.params[q.stmt.placeholders[i] - 1] == record[i].1
  {
  }

  /** With an empty primary key no conflict clause is appended; with a
      non-empty one there always is one. */
  lemma PlainInsertIffNoKey(record: Fields, table: string, pk: seq<string>)
    requires record != []
    ensures Insert(record, table, pk).value.stmt.onConflict.None? <==> pk == []
  {
  }

  /** The three conflict branches: which fires is decided by the number of
      non-key columns, DO UPDATE targets the primary key, and exactly the
      non-key columns are overwritten, each with its own `EXCLUDED` value. */
  lemma ConflictBranches(record: Fields, table: string, pk: seq<string>)
    requires record != [] && pk != []
    ensures var upd := UpdateColumns(Keys(record), pk);
      var c := Insert(record, table, pk).value.stmt.onConflict.value;
      (c.DoNothing? <==> |upd| == 0) &&
      (c.UpdateOne? <==> |upd| == 1) &&
      (c.UpdateTuple? <==> |upd| > 1) &&
      (!c.DoNothing? ==> c.target == pk) &&
      Assigned(c) == upd &&
      |Sources(c)| == |upd| &&
      (forall i :: 0 <= i < |upd| ==> Sources(c)[i] == Excluded(upd[i]))
  {
  }

  /** The overwritten columns are exactly the record's columns outside the
      key, in their original relative order. */
  lemma {:induction false} AssignedAreNonKeyColumns(record: Fields, table: string, pk: seq<string>)
    requires record != [] && pk != []
    ensures var c := Insert(record, table, pk).value.stmt.onConflict.value;
      IsSubsequence(Assigned(c), Keys(record)) &&
      forall col :: col in Assigned(c) <==> col in Keys(record) && col !in pk
  {
    ConflictBranches(record, table, pk);
  }

  /** A record made of key columns only, such as `{"id": ...}` under the
      default key `("id",)`, gets `ON CONFLICT DO NOTHING`. */
  lemma OnlyKeyColumnsDoNothing(record: Fields, table: string, pk: seq<string>)
    requires record != [] && pk != []
    requires forall i :: 0 <= i < |record| ==> record[i].0 in pk
    ensures Insert(record, table, pk).value.stmt.onConflict == Some(DoNothing)
  {
    var upd := UpdateColumns(Keys(record), pk);
    assert forall c :: c in Keys(record) ==> c in pk;
    assert forall c :: c !in upd;
    assert forall i :: 0 <= i < |upd| ==> upd[i] in upd;
  }
}
