/**
 * The CRUD operations of `DBManager` over one mapped table. The table's
 * contents are a sequence of rows; a row maps column names to values, and a
 * column absent from a row holds whatever default the database gives it.
 * A query is the conjunction of equality filters (`filter_by`) and the
 * caller's extra conditions (`filter`), here row predicates.
 */
module Crud {
  import opened Wrappers
  import opened Columns

  datatype Value = Int(i: int) | Text(s: string) | Bool(b: bool)

  type Row = map<string, Value>

  /** A caller-supplied condition on a row (an SQLAlchemy filter expression). */
  type Condition = Row -> bool

  datatype CrudError =
    | Column(cause: ColumnError)
    | InvalidFetchMode(mode: string)
    | NoUpdateValues
    | NoRecordsDeleted
    /** Python's TypeError for a record key that repeats an argument already bound by position. */
    | MultipleValues(argument: string)

  /** `filter_by(**filters)`: every filtered column holds the given value. */
  predicate SatisfiesFilters(row: Row, filters: map<string, Value>) {
    forall c :: c in filters ==> c in row && row[c] == filters[c]
  }

  predicate SatisfiesAll(row: Row, conditions: seq<Condition>) {
    forall i :: 0 <= i < |conditions| ==> conditions[i](row)
  }

  /** The rows an operation with these filters and conditions acts on. */
  predicate Matches(row: Row, filters: map<string, Value>, conditions: seq<Condition>) {
    SatisfiesFilters(row, filters) && SatisfiesAll(row, conditions)
  }

  /** A record `bulk_create` inserts: no key clashes with a bound argument and every key is a column. */
  predicate Insertable(table: Table, record: Row) {
    record.Keys !! BoundParameters && record.Keys <= table.columns
  }

  /**
   * The error `bulk_create` raises for a record: the clash when a key is
   * `self` or `table`, which Python detects before any column is checked,
   * and otherwise the column error.
   */
  predicate RejectedWith(table: Table, record: Row, e: CrudError) {
    if record.Keys !! BoundParameters then e.Column? && Identifies(e.cause, table, record.Keys)
    else e.MultipleValues? && e.argument in record.Keys && e.argument in BoundParameters
  }

  function Selector(filters: map<string, Value>, conditions: seq<Condition>): Condition {
    row => Matches(row, filters, conditions)
  }

  function Not(p: Condition): Condition {
    row => !p(row)
  }

  /** A query under construction: the condition its WHERE clause amounts to. */
  datatype Query = Query(selects: Condition)

  /**
   * `session.query(table).filter_by(**filters)` followed by one
   * `query = query.filter(condition)` per extra condition: each step ANDs
   * one more condition, so the finished query selects exactly the matching rows.
   */
  method BuildQuery(filters: map<string, Value>, conditions: seq<Condition>) returns (q: Query)
    ensures forall row :: q.selects(row) == Matches(row, filters, conditions)
  {
    q := Query(row => SatisfiesFilters(row, filters));
    for i := 0 to |conditions|
      invariant forall row :: q.selects(row) == (SatisfiesFilters(row, filters) && SatisfiesAll(row, conditions[..i]))
    {
      var previous, condition := q.selects, conditions[i];
      q := Query(row => previous(row) && condition(row));
      assert forall row :: SatisfiesAll(row, conditions[..i + 1]) == (SatisfiesAll(row, conditions[..i]) && condition(row));
    }
    assert conditions[..|conditions|] == conditions;
  }

  /** The rows satisfying `p`, in table order. */
  function Select(rows: seq<Row>, p: Condition): (selected: seq<Row>)
    ensures |selected| <= |rows|
    ensures forall row :: row in selected <==> row in rows && p(row)
  {
    if rows == [] then []
    else (if p(rows[0]) then [rows[0]] else []) + Select(rows[1..], p)
  }

  /** Selection depends only on which rows the predicate accepts. */
  lemma {:induction false} SelectCongruent(rows: seq<Row>, p: Condition, q: Condition)
    requires forall row :: p(row) == q(row)
    ensures Select(rows, p) == Select(rows, q)
  {
    if rows != [] {
      SelectCongruent(rows[1..], p, q);
    }
  }

  /** Selecting from appended rows selects from each part. */
  lemma {:induction false} SelectAppend(a: seq<Row>, b: seq<Row>, p: Condition)
    ensures Select(a + b, p) == Select(a, p) + Select(b, p)
  {
    if a == [] {
      assert a + b == b;
    } else {
      assert (a + b)[1..] == a[1..] + b;
      SelectAppend(a[1..], b, p);
    }
  }

  /**
   * After a row is inserted, filtering on all of its fields finds what was
   * found before plus exactly that row.
   */
  lemma CreatedRowIsRetrieved(rows: seq<Row>, fields: Row)
    ensures Select(rows + [fields], Selector(fields, [])) == Select(rows, Selector(fields, [])) + [fields]
  {
    SelectAppend(rows, [fields], Selector(fields, []));
    assert Selector(fields, [])(fields);
    assert Select([fields], Selector(fields, [])) == [fields];
  }

  /** The matching and the non-matching rows together are the whole table. */
  lemma {:induction false} SelectPartition(rows: seq<Row>, p: Condition)
    ensures multiset(Select(rows, p)) + multiset(Select(rows, Not(p))) == multiset(rows)
  {
    if rows != [] {
      var head, tail := rows[0], rows[1..];
      SelectPartition(tail, p);
      assert rows == [head] + tail;
      assert Not(p)(head) == !p(head);
      if p(head) {
        assert Select(rows, p) == [head] + Select(tail, p);
        assert Select(rows, Not(p)) == Select(tail, Not(p));
      } else {
        assert Select(rows, p) == Select(tail, p);
        assert Select(rows, Not(p)) == [head] + Select(tail, Not(p));
      }
    }
  }

  /** `with_entities(*return_columns)`: only the requested columns of a row. */
  function Project(row: Row, columns: seq<string>): Row {
    map c | c in columns && c in row :: row[c]
  }

  /** What a query returns for a row: the whole row, or its projection when columns are requested. */
  function Shape(row: Row, returnColumns: seq<string>): Row {
    if returnColumns == [] then row else Project(row, returnColumns)
  }

  function ShapeAll(rows: seq<Row>, returnColumns: seq<string>): seq<Row> {
    seq(|rows|, i requires 0 <= i < |rows| => Shape(rows[i], returnColumns))
  }

  /** Shaping never adds a column a row did not have. */
  lemma ShapeAllWithin(rows: seq<Row>, returnColumns: seq<string>, columns: set<string>)
    ensures (forall row :: row in rows ==> row.Keys <= columns) ==>
              forall i :: 0 <= i < |ShapeAll(rows, returnColumns)| ==> ShapeAll(rows, returnColumns)[i].Keys <= columns
  {
  }

  /** `query.update(update_values)`: matching rows take the new values, the rest stay. */
  function UpdateRows(rows: seq<Row>, p: Condition, values: Row): seq<Row> {
    seq(|rows|, i requires 0 <= i < |rows| => if p(rows[i]) then rows[i] + values else rows[i])
  }

  /**
   * Applying the same update twice gives the state after applying it once:
   * rows updated the first time already hold the values, and rows skipped
   * the first time are unchanged and are skipped again.
   */
  lemma UpdateIdempotent(rows: seq<Row>, p: Condition, values: Row)
    ensures UpdateRows(UpdateRows(rows, p, values), p, values) == UpdateRows(rows, p, values)
  {
    var once := UpdateRows(rows, p, values);
    forall i | 0 <= i < |rows|
      ensures UpdateRows(once, p, values)[i] == once[i]
    {
      if p(rows[i]) {
        assert once[i] + values == rows[i] + values;
      }
    }
  }

  /**
   * An update that does not contradict the equality filters keeps every
   * matching row matching: a later query with the same filters finds the
   * updated rows again.
   */
  lemma UpdateKeepsFilterMatch(filters: map<string, Value>, values: Row)
    requires forall c :: c in filters && c in values ==> values[c] == filters[c]
    ensures forall row :: Selector(filters, [])(row) ==> Selector(filters, [])(row + values)
  {
  }

  /** The fetched results of `retrieve`. */
  datatype Fetched = All(records: seq<Row>) | One(record: Option<Row>)

  /** `DBManager` bound to one mapped table, with that table's current rows. */
  class Database {
    const table: Table
    var rows: seq<Row>

    /** Every stored row uses only declared columns. */
    ghost predicate Valid()
      reads this
    {
      forall i :: 0 <= i < |rows| ==> rows[i].Keys <= table.columns
    }

    constructor (table: Table, rows: seq<Row>)
      requires forall i :: 0 <= i < |rows| ==> rows[i].Keys <= table.columns
      ensures Valid()
      ensures this.table == table && this.rows == rows
    {
      this.table := table;
      this.rows := rows;
    }

    /** `create(table, **fields)`: validate the keys, then insert one row. */
    method Create(fields: Row) returns (r: Result<(), CrudError>)
      requires Valid()
      modifies this
      ensures Valid()
      ensures r.Ok? <==> fields.Keys <= table.columns
      ensures r.Ok? ==> rows == old(rows) + [fields]
      ensures r.Err? ==> rows == old(rows) && r.error.Column? && Identifies(r.error.cause, table, fields.Keys)
    {
      var bad := ValidateColumnExistence(table, {}, fields.Keys);
      if bad.Some? {
        return Err(Column(bad.value));
      }
      rows := rows + [fields];
      r := Ok(());
    }

    /**
     * `bulk_create(table, records)`: an empty list does nothing; otherwise
     * every record is checked in order before any is inserted, and the first
     * record rejected decides the error; then all are appended in order.
     */
    method BulkCreate(records: seq<Row>) returns (r: Result<(), CrudError>)
      requires Valid()
      modifies this
      ensures Valid()
      ensures r.Ok? <==> forall i :: 0 <= i < |records| ==> Insertable(table, records[i])
      ensures r.Ok? ==> rows == old(rows) + records
      ensures r.Err? ==> rows == old(rows)
      ensures r.Err? ==> exists i :: 0 <= i < |records| && RejectedWith(table, records[i], r.error) &&
                            forall j :: 0 <= j < i ==> Insertable(table, records[j])
    {
      if records == [] {
        assert old(rows) + records == rows;
        return Ok(());
      }
      for i := 0 to |records|
        invariant rows == old(rows)
        invariant forall j :: 0 <= j < i ==> Insertable(table, records[j])
      {
        var clash := ClashingKeyword(records[i].Keys);
        if clash.Some? {
          r := Err(MultipleValues(clash.value));
          assert RejectedWith(table, records[i], r.error);
          return;
        }
        var bad := ValidateColumnExistence(table, {}, records[i].Keys);
        if bad.Some? {
          r := Err(Column(bad.value));
          assert RejectedWith(table, records[i], r.error);
          return;
        }
      }
      rows := rows + records;
      r := Ok(());
    }

    /**
     * `retrieve`: the fetch mode is checked first, then the requested and
     * filtered columns; "all" returns every matching row (shaped), "one"
     * some matching row or nothing. Row order is left open.
     */
    method Retrieve(conditions: seq<Condition>, returnColumns: seq<string>, fetchMode: string,
                    filters: map<string, Value>) returns (r: Result<Fetched, CrudError>)
      ensures fetchMode != "all" && fetchMode != "one" ==> r == Err(InvalidFetchMode(fetchMode))
      ensures fetchMode == "all" || fetchMode == "one" ==>
                (r.Err? <==> !(Names(returnColumns) + filters.Keys <= table.columns))
      ensures (fetchMode == "all" || fetchMode == "one") && r.Err? ==> r.error.Column?
      ensures r.Err? && r.error.Column? ==> Identifies(r.error.cause, table, Names(returnColumns) + filters.Keys)
      ensures Valid() && r.Ok? && r.value.All? ==> forall i :: 0 <= i < |r.value.records| ==> r.value.records[i].Keys <= table.columns
      ensures Valid() && r.Ok? && r.value.One? && r.value.record.Some? ==> r.value.record.value.Keys <= table.columns
      ensures r.Ok? && fetchMode == "all" ==>
                r.value.All? && multiset(r.value.records) == multiset(ShapeAll(Select(rows, Selector(filters, conditions)), returnColumns))
      ensures r.Ok? && fetchMode == "one" ==> r.value.One?
      ensures r.Ok? && r.value.One? ==>
                (r.value.record.None? <==> forall i :: 0 <= i < |rows| ==> !Matches(rows[i], filters, conditions))
      ensures r.Ok? && r.value.One? && r.value.record.Some? ==>
                exists i :: 0 <= i < |rows| && Matches(rows[i], filters, conditions) && r.value.record.value == Shape(rows[i], returnColumns)
    {
      if fetchMode != "all" && fetchMode != "one" {
        return Err(InvalidFetchMode(fetchMode));
      }
      var bad := ValidateColumnExistence(table, Names(returnColumns), filters.Keys);
      if bad.Some? {
        return Err(Column(bad.value));
      }
      var query := BuildQuery(filters, conditions);
      SelectCongruent(rows, query.selects, Selector(filters, conditions));
      var matched := Select(rows, query.selects);
      if fetchMode == "all" {
        ShapeAllWithin(matched, returnColumns, table.columns);
        r := Ok(All(ShapeAll(matched, returnColumns)));
      } else if matched == [] {
        assert forall i :: 0 <= i < |rows| ==> rows[i] !in matched;
        r := Ok(One(None));
      } else {
        assert matched[0] in matched;
        r := Ok(One(Some(Shape(matched[0], returnColumns))));
      }
    }

    /**
     * `update`: empty update values are rejected before anything else; then
     * the value and filter columns are validated; then every matching row
     * takes the new values and every other row is left as it was.
     */
    method Update(updateValues: Row, conditions: seq<Condition>, filters: map<string, Value>)
      returns (r: Result<(), CrudError>)
      requires Valid()
      modifies this
      ensures Valid()
      ensures updateValues == map[] ==> r == Err(NoUpdateValues)
      ensures updateValues != map[] ==> (r.Ok? <==> updateValues.Keys + filters.Keys <= table.columns)
      ensures r.Err? ==> rows == old(rows)
      ensures updateValues != map[] && r.Err? ==> r.error.Column?
      ensures r.Err? && r.error.Column? ==> Identifies(r.error.cause, table, updateValues.Keys + filters.Keys)
      ensures r.Ok? ==> rows == UpdateRows(old(rows), Selector(filters, conditions), updateValues)
    {
      if updateValues == map[] {
        return Err(NoUpdateValues);
      }
      var bad := ValidateColumnExistence(table, updateValues.Keys, filters.Keys);
      if bad.Some? {
        return Err(Column(bad.value));
      }
      var query := BuildQuery(filters, conditions);
      rows := UpdateRows(rows, query.selects, updateValues);
      assert rows == UpdateRows(old(rows), Selector(filters, conditions), updateValues);
      r := Ok(());
    }

    /**
     * `delete`: validate, capture the requested columns of the matching rows,
     * remove exactly those rows, then fail if nothing was deleted and the
     * caller asked for that. The capture is returned only when columns were
     * requested and some row matched.
     */
    method Delete(conditions: seq<Condition>, returnColumns: seq<string>, errorWhenEmpty: bool,
                  filters: map<string, Value>) returns (r: Result<Option<seq<Row>>, CrudError>)
      requires Valid()
      modifies this
      ensures Valid()
      ensures (r.Err? && r.error.Column?) <==> !(Names(returnColumns) + filters.Keys <= table.columns)
      ensures r.Err? && r.error.Column? ==> rows == old(rows) && Identifies(r.error.cause, table, Names(returnColumns) + filters.Keys)
      ensures Names(returnColumns) + filters.Keys <= table.columns ==>
                && rows == Select(old(rows), Not(Selector(filters, conditions)))
                && (r.Err? <==> errorWhenEmpty && Select(old(rows), Selector(filters, conditions)) == [])
      ensures r.Err? && !r.error.Column? ==> r.error == NoRecordsDeleted && rows == old(rows)
      ensures r.Ok? ==> (r.value.Some? <==> returnColumns != [] && Select(old(rows), Selector(filters, conditions)) != [])
      ensures r.Ok? && r.value.Some? ==> forall i :: 0 <= i < |r.value.value| ==> r.value.value[i].Keys <= table.columns
      ensures r.Ok? && r.value.Some? ==>
                multiset(r.value.value) == multiset(ShapeAll(Select(old(rows), Selector(filters, conditions)), returnColumns))
    {
      var bad := ValidateColumnExistence(table, Names(returnColumns), filters.Keys);
      if bad.Some? {
        return Err(Column(bad.value));
      }
      var query := BuildQuery(filters, conditions);
      assert forall row :: row in rows ==> row.Keys <= table.columns;
      RemovalFacts(rows, query.selects, Selector(filters, conditions), table.columns);
      var matched := Select(rows, query.selects);
      var deletedRecords: Option<seq<Row>> := None;
      if returnColumns != [] {
        ShapeAllWithin(matched, returnColumns, table.columns);
        deletedRecords := Some(ShapeAll(matched, returnColumns));
      }
      var deletedCount := |matched|;
      rows := Select(rows, Not(query.selects));
      if errorWhenEmpty && deletedCount == 0 {
        return Err(NoRecordsDeleted);
      }
      if returnColumns != [] && matched != [] {
        r := Ok(deletedRecords);
      } else {
        r := Ok(None);
      }
    }

    /** `exists`: validates only the filter columns; true iff some row matches. */
    method Exists(conditions: seq<Condition>, filters: map<string, Value>) returns (r: Result<bool, CrudError>)
      ensures r.Err? <==> !(filters.Keys <= table.columns)
      ensures r.Err? ==> r.error.Column? && Identifies(r.error.cause, table, filters.Keys)
      ensures r.Ok? ==> (r.value <==> exists i :: 0 <= i < |rows| && Matches(rows[i], filters, conditions))
    {
      var bad := ValidateColumnExistence(table, {}, filters.Keys);
      if bad.Some? {
        return Err(Column(bad.value));
      }
      var query := BuildQuery(filters, conditions);
      var matched := Select(rows, query.selects);
      if matched != [] {
        assert matched[0] in matched;
      } else {
        assert forall i :: 0 <= i < |rows| ==> rows[i] !in matched;
      }
      r := Ok(matched != []);
    }
  }

  /**
   * What deleting the rows a query selects does to a table: the query may be
   * replaced by any predicate it agrees with, an empty selection keeps every
   * row, and both parts hold only columns the table's rows had.
   */
  lemma RemovalFacts(rows: seq<Row>, q: Condition, p: Condition, columns: set<string>)
    requires forall row :: q(row) == p(row)
    requires forall row :: row in rows ==> row.Keys <= columns
    ensures Select(rows, q) == Select(rows, p)
    ensures Select(rows, Not(q)) == Select(rows, Not(p))
    ensures Select(rows, q) == [] ==> Select(rows, Not(q)) == rows
    ensures forall row :: row in Select(rows, q) ==> row.Keys <= columns
    ensures forall row :: row in Select(rows, Not(q)) ==> row.Keys <= columns
  {
    SelectCongruent(rows, q, p);
    SelectCongruent(rows, Not(q), Not(p));
    if Select(rows, q) == [] {
      NothingSelectedKeepsAll(rows, q);
    }
  }

  /** When no row satisfies `p`, keeping the rows that fail `p` keeps them all. */
  lemma {:induction false} NothingSelectedKeepsAll(rows: seq<Row>, p: Condition)
    requires Select(rows, p) == []
    ensures Select(rows, Not(p)) == rows
  {
    if rows != [] {
      assert !p(rows[0]);
      NothingSelectedKeepsAll(rows[1..], p);
      assert rows == [rows[0]] + rows[1..];
    }
  }
}
