/**
 * Column validation: every column name an operation mentions must be a
 * declared column of the table, checked before any query is issued.
 */
module Columns {
  import opened Wrappers

  /** The schema facts the manager reads from a mapped table class. */
  datatype Table = Table(name: string, columns: set<string>)

  /** The error raised for an unknown column, naming it and the table. */
  datatype ColumnError = UnknownColumn(column: string, table: string)

  /** `_has_column` on a mapped table. */
  predicate HasColumn(table: Table, column: string) {
    column in table.columns
  }

  /** The names of a positional column list, as a set. */
  function Names(columns: seq<string>): set<string> {
    set c | c in columns
  }

  /** The error names one of the checked columns that the table lacks. */
  predicate Identifies(e: ColumnError, table: Table, checked: set<string>) {
    e.column in checked && e.column !in table.columns && e.table == table.name
  }

  /**
   * The parameters `_validate_column_existence(self, table, *args, **kwargs)`
   * binds by position; a keyword argument of either name binds it twice.
   */
  const BoundParameters: set<string> := {"self", "table"}

  /**
   * The argument Python reports as given twice when these keys are passed as
   * keyword arguments to `_validate_column_existence`, if any.
   */
  function ClashingKeyword(keys: set<string>): (r: Option<string>)
    ensures r.None? <==> keys !! BoundParameters
    ensures r.Some? ==> r.value in keys && r.value in BoundParameters
  {
    if "self" in keys then Some("self") else if "table" in keys then Some("table") else None
  }

  /**
   * `_validate_column_existence`: checks the union of positional names and
   * keyword keys, one column at a time, stopping at the first unknown one.
   * Which unknown column is reported is left open, as set iteration order is.
   */
  method ValidateColumnExistence(table: Table, args: set<string>, kwargs: set<string>) returns (r: Option<ColumnError>)
    ensures r.None? <==> args + kwargs <= table.columns
    ensures r.Some? ==> Identifies(r.value, table, args + kwargs)
  {
    var toCheck := args + kwargs;
    var remaining := toCheck;
    while remaining != {}
      invariant remaining <= toCheck
      invariant toCheck - remaining <= table.columns
      decreases remaining
    {
      var column :| column in remaining;
      if !HasColumn(table, column) {
        return Some(UnknownColumn(column, table.name));
      }
      remaining := remaining - {column};
    }
    r := None;
  }
}
