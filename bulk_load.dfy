/**
 The load step: a bulk copy into the destination table, with one column
 mapping per source column, from the source name to its mapped name.
 */
module BulkLoad {
  import opened DataTables
  import opened TypeInference
  import opened Naming
  import opened Schema

  /** One entry of `SqlBulkCopy.ColumnMappings`. */
  datatype ColumnMapping = ColumnMapping(source: string, destination: string)

  /** The bulk-copy settings handed to `WriteToServer`. */
  datatype BulkCopyPlan = BulkCopyPlan(destinationTable: string, timeout: int, mappings: seq<ColumnMapping>)

  /** The bulk copy timeout the load sets, in seconds. */
  const LoadTimeout := 300

  /** One mapping per column, in column order, from the column's own name to
      its mapped name. */
  predicate MappingsFor(columns: seq<string>, mappings: seq<ColumnMapping>)
  {
    |mappings| == |columns| &&
    forall i :: 0 <= i < |columns| ==>
      mappings[i].source == columns[i] && mappings[i].destination == MapColumnName(columns[i])
  }

  /** The part of `SqlBulkCopy` the load configures. */
  class SqlBulkCopy {
    var destinationTableName: string
    var bulkCopyTimeout: int
    var columnMappings: seq<ColumnMapping>

    /** A fresh bulk copy: no destination name (the library's unset name is
        written ""), the library's 30-second timeout, no mappings. */
    constructor ()
      ensures destinationTableName == "" && bulkCopyTimeout == 30 && columnMappings == []
    {
      destinationTableName := "";
      bulkCopyTimeout := 30;
      columnMappings := [];
    }

    /** `ColumnMappings.Add(source, destination)`: appended, nothing else changes. */
    method AddColumnMapping(source: string, destination: string)
      modifies this
      ensures columnMappings == old(columnMappings) + [ColumnMapping(source, destination)]
      ensures destinationTableName == old(destinationTableName)
      ensures bulkCopyTimeout == old(bulkCopyTimeout)
    {
      columnMappings := columnMappings + [ColumnMapping(source, destination)];
    }
  }

  /** Configures the bulk copy of `table` into `tableName`: the destination,
      a 300-second timeout and the column mappings, added column by column. */
  method BulkInsertIntoSql<V>(table: Table<V>, tableName: string) returns (plan: BulkCopyPlan)
    ensures plan.destinationTable == tableName
    ensures plan.timeout == LoadTimeout
    ensures MappingsFor(table.columns, plan.mappings)
  {
    var bulkCopy := new SqlBulkCopy();
    bulkCopy.destinationTableName := tableName;
    bulkCopy.bulkCopyTimeout := LoadTimeout;
    var i := 0;
    while i < |table.columns|
      invariant 0 <= i <= |table.columns|
      invariant bulkCopy.destinationTableName == tableName
      invariant bulkCopy.bulkCopyTimeout == LoadTimeout
      invariant MappingsFor(table.columns[..i], bulkCopy.columnMappings)
    {
      var col := table.columns[i];
      bulkCopy.AddColumnMapping(col, MapColumnName(col));
      i := i + 1;
    }
    assert table.columns[..i] == table.columns;
    plan := BulkCopyPlan(bulkCopy.destinationTableName, bulkCopy.bulkCopyTimeout, bulkCopy.columnMappings);
  }

  /** Every column is defined in the CREATE statement under the same name
      its bulk-copy mapping writes to. */
  lemma CreateAndLoadAgreeOnNames<V>(p: Parsers<V>, table: Table<V>, mappings: seq<ColumnMapping>, c: nat)
    requires table.WellFormed() && c < |table.columns|
    requires MappingsFor(table.columns, mappings)
    ensures mappings[c].source == table.columns[c]
    ensures ColumnEntries(p, table)[c]
              == "    [" + mappings[c].destination + "] " + InferredType(p, table.Column(c))
  {
    EntryAt(p, table, c);
  }

  /** Mapping the bulk-copy destinations again changes none of them: they
      already are destination names. */
  lemma DestinationsAreFixed(columns: seq<string>, mappings: seq<ColumnMapping>, i: nat)
    requires MappingsFor(columns, mappings) && i < |mappings|
    ensures ' ' !in mappings[i].destination
    ensures MapColumnName(mappings[i].destination) == mappings[i].destination
  {
    MapColumnNameIdempotent(columns[i]);
  }
}
