/**
 The schema step: an existing destination table is truncated; a missing one
 is created by a CREATE TABLE statement with one definition line per column,
 in column order, each with the column's mapped name and inferred type.
 */
module Schema {
  import opened DataTables
  import opened TypeInference
  import opened Naming

  /** One column's definition, `    [name] type`, without separator. */
  function ColumnEntry(name: string, sqlType: string): string
  {
    "    [" + MapColumnName(name) + "] " + sqlType
  }

  /** The definitions of all columns, in column order. */
  function ColumnEntries<V>(p: Parsers<V>, table: Table<V>): seq<string>
    requires table.WellFormed()
  {
    seq(|table.columns|, c requires 0 <= c < |table.columns| =>
      ColumnEntry(table.columns[c], InferredType(p, table.Column(c))))
  }

  /** The first line, as `AppendLine` writes it. */
  function Header(tableName: string, nl: string): string
  {
    "CREATE TABLE " + tableName + " (" + nl
  }

  /** The strings in order with `sep` between each two of them. */
  function Join(xs: seq<string>, sep: string): string
  {
    if |xs| == 0 then ""
    else if |xs| == 1 then xs[0]
    else Join(xs[..|xs| - 1], sep) + sep + xs[|xs| - 1]
  }

  /** Each string followed by `,` and a newline, as the loop appends them. */
  function Lines(xs: seq<string>, nl: string): string
  {
    if xs == [] then "" else Lines(xs[..|xs| - 1], nl) + xs[|xs| - 1] + "," + nl
  }

  /** A string without its last character. */
  function DropLast(s: string): string
  {
    if s == [] then [] else s[..|s| - 1]
  }

  /** The statement the builder is meant to produce: the header, the column
      definitions separated by a comma and a newline (none after the last),
      then a line feed, `);` and a newline. */
  function CreateTableText(tableName: string, entries: seq<string>, nl: string): string
  {
    Header(tableName, nl) + Join(entries, "," + nl) + "\n);" + nl
  }

  /** What the statement actually says for an empty column list: the
      truncation eats the opening parenthesis with the newline. */
  function NoColumnsText(tableName: string, nl: string): string
  {
    "CREATE TABLE " + tableName + " " + "\n);" + nl
  }

  /** Read from the front: the first string, then the separator and the rest. */
  lemma {:induction false} JoinCons(x: string, xs: seq<string>, sep: string)
    ensures Join([x] + xs, sep) == if xs == [] then x else x + sep + Join(xs, sep)
  {
    var ys := [x] + xs;
    if |xs| == 1 {
      assert ys[..1] == [x];
    } else if |xs| > 1 {
      var n := |xs|;
      assert ys[..|ys| - 1] == [x] + xs[..n - 1];
      assert xs[..n - 1][..n - 2] == xs[..n - 2];
      JoinCons(x, xs[..n - 1], sep);
    }
  }

  /** Every line ends in `,` and a newline, so the buffer is the joined
      definitions plus one trailing separator. */
  lemma {:induction false} LinesAsJoin(xs: seq<string>, nl: string)
    requires |xs| >= 1
    ensures Lines(xs, nl) == Join(xs, "," + nl) + "," + nl
  {
    var n := |xs|;
    if n == 1 {
      assert xs[..0] == [];
    } else {
      var init := xs[..n - 1];
      assert init[..|init| - 1] == xs[..n - 2];
      LinesAsJoin(init, nl);
      calc {
        Lines(xs, nl);
        Lines(init, nl) + xs[n - 1] + "," + nl;
        Join(init, "," + nl) + "," + nl + xs[n - 1] + "," + nl;
        { assert Join(xs, "," + nl) == Join(init, "," + nl) + ("," + nl) + xs[n - 1]; }
        Join(xs, "," + nl) + "," + nl;
      }
    }
  }

  /** Cutting one character off the joined list cuts it off the last string. */
  lemma {:induction false} DropLastOfJoin(xs: seq<string>, sep: string)
    requires |xs| >= 1 && xs[|xs| - 1] != []
    ensures DropLast(Join(xs, sep)) == Join(xs[..|xs| - 1] + [DropLast(xs[|xs| - 1])], sep)
  {
    var n := |xs|;
    var ys := xs[..n - 1] + [DropLast(xs[n - 1])];
    assert ys[..n - 1] == xs[..n - 1];
    if n > 1 {
      assert Join(xs, sep) == Join(xs[..n - 1], sep) + sep + xs[n - 1];
      assert Join(ys, sep) == Join(xs[..n - 1], sep) + sep + DropLast(xs[n - 1]);
    }
  }

  lemma EntryAt<V>(p: Parsers<V>, table: Table<V>, c: nat)
    requires table.WellFormed() && c < |table.columns|
    ensures ColumnEntries(p, table)[c] == ColumnEntry(table.columns[c], InferredType(p, table.Column(c)))
  {
  }

  /** Appending one more string appends its line. */
  lemma LinesSnoc(xs: seq<string>, c: nat, nl: string)
    requires c < |xs|
    ensures Lines(xs[..c + 1], nl) == Lines(xs[..c], nl) + (xs[c] + ",") + nl
  {
    assert xs[..c + 1][..c] == xs[..c];
  }

  /** One more definition line extends the buffer by the next column's line. */
  lemma AppendStep<V>(p: Parsers<V>, table: Table<V>, tableName: string, nl: string, c: nat, sqlType: string)
    requires table.WellFormed() && c < |table.columns|
    requires sqlType == InferredType(p, table.Column(c))
    ensures Header(tableName, nl) + Lines(ColumnEntries(p, table)[..c], nl)
              + ("    [" + MapColumnName(table.columns[c]) + "] " + sqlType + ",") + nl
            == Header(tableName, nl) + Lines(ColumnEntries(p, table)[..c + 1], nl)
  {
    var entries := ColumnEntries(p, table);
    EntryAt(p, table, c);
    LinesSnoc(entries, c, nl);
  }

  /** The opening part of the source's CREATE builder: the header line, then
      for every column in order `    [mapped name] inferred type,` and a newline. */
  method AppendColumnDefinitions<V>(p: Parsers<V>, table: Table<V>, tableName: string, nl: string)
    returns (sb: string)
    requires table.WellFormed()
    ensures sb == Header(tableName, nl) + Lines(ColumnEntries(p, table), nl)
  {
    sb := Header(tableName, nl);
    var c := 0;
    while c < |table.columns|
      invariant c <= |table.columns|
      invariant sb == Header(tableName, nl) + Lines(ColumnEntries(p, table)[..c], nl)
    {
      var columnName := MapColumnName(table.columns[c]);
      var sqlType := InferSqlType(p, table, c);
      AppendStep(p, table, tableName, nl, c, sqlType);
      sb := sb + ("    [" + columnName + "] " + sqlType + ",") + nl;
      c := c + 1;
    }
    assert ColumnEntries(p, table)[..c] == ColumnEntries(p, table);
  }

  /** The builder as the source writes it: it always removes three characters,
      which is a comma plus a newline only when the newline is two characters
      long. With a one-character newline the last column's type loses its
      final character. */
  method BuildCreateStatementAsWritten<V>(p: Parsers<V>, table: Table<V>, tableName: string, nl: string)
    returns (sql: string)
    requires table.WellFormed()
    ensures |nl| == 2 && |table.columns| >= 1 ==>
              sql == CreateTableText(tableName, ColumnEntries(p, table), nl)
    ensures |nl| == 2 && |table.columns| == 0 ==> sql == NoColumnsText(tableName, nl)
    ensures |nl| == 1 && |table.columns| >= 1 ==>
              var entries := ColumnEntries(p, table);
              var n := |entries|;
              sql == CreateTableText(tableName, entries[..n - 1] + [DropLast(entries[n - 1])], nl)
    ensures |nl| == 1 && |table.columns| == 0 ==> sql == "CREATE TABLE " + tableName + "\n);" + nl
  {
    var sb := AppendColumnDefinitions(p, table, tableName, nl);
    ghost var entries := ColumnEntries(p, table);
    ghost var head := Header(tableName, nl);
    sb := sb[..|sb| - 3];
    if |table.columns| >= 1 {
      LinesAsJoin(entries, nl);
      var joined := Join(entries, "," + nl);
      assert sb == (head + joined + "," + nl)[..|head + joined| + 1 + |nl| - 3];
      if |nl| == 2 {
        assert sb == head + joined;
      } else if |nl| == 1 {
        var n := |entries|;
        assert entries[n - 1] != [];
        DropLastOfJoin(entries, "," + nl);
        assert sb == head + DropLast(joined);
      }
    } else if |nl| == 2 {
      assert entries == [];
      assert sb == "CREATE TABLE " + tableName + " ";
    } else if |nl| == 1 {
      assert entries == [];
      assert sb == "CREATE TABLE " + tableName;
    }
    sb := sb + "\n);" + nl;
    sql := sb;
  }

  /** The builder as evidently intended: it removes exactly the trailing comma
      and newline, whatever the newline is. For a two-character newline it
      does what the source does. */
  method BuildCreateStatement<V>(p: Parsers<V>, table: Table<V>, tableName: string, nl: string)
    returns (sql: string)
    requires table.WellFormed()
    ensures |table.columns| >= 1 ==>
              sql == CreateTableText(tableName, ColumnEntries(p, table), nl)
    ensures |table.columns| == 0 ==> sql == NoColumnsText(tableName, nl)
  {
    var sb := AppendColumnDefinitions(p, table, tableName, nl);
    ghost var entries := ColumnEntries(p, table);
    ghost var head := Header(tableName, nl);
    sb := sb[..|sb| - (|nl| + 1)];
    if |table.columns| >= 1 {
      LinesAsJoin(entries, nl);
      var joined := Join(entries, "," + nl);
      assert sb == (head + joined + "," + nl)[..|head + joined|];
      assert sb == head + joined;
    } else {
      assert entries == [];
      assert sb == "CREATE TABLE " + tableName + " ";
    }
    sb := sb + "\n);" + nl;
    sql := sb;
  }

  /** With a line-feed newline the source's builder turns `INT` into `IN`. */
  lemma LineFeedCutsLastType()
    ensures var entries := [ColumnEntry("ID", IntType)];
            CreateTableText("T", entries[..0] + [DropLast(entries[0])], "\n")
              == "CREATE TABLE T (\n    [ID] IN\n);\n"
    ensures CreateTableText("T", [ColumnEntry("ID", IntType)], "\n")
              == "CREATE TABLE T (\n    [ID] INT\n);\n"
  {
    NoSpaceUnchanged("ID");
  }

  /** Three columns: a comma and a newline after every definition but the last. */
  lemma ThreeColumnShape(tableName: string, a: string, b: string, c: string, nl: string)
    ensures CreateTableText(tableName, [a, b, c], nl)
              == "CREATE TABLE " + tableName + " (" + nl + a + "," + nl + b + "," + nl + c + "\n);" + nl
  {
    var xs := [a, b, c];
    var sep := "," + nl;
    assert xs[..2] == [a, b] && [a, b][..1] == [a];
    assert Join([a, b], sep) == a + sep + b;
    assert Join(xs, sep) == a + sep + b + sep + c;
  }

  /** What the schema step sends to the database. */
  datatype SchemaAction = Truncate(sql: string) | Create(sql: string)

  /** An existing table (the existence query answered 1) is truncated and no
      CREATE statement is built; otherwise the table is created. The statement
      comes from the corrected builder, which agrees with the source's for a
      two-character newline and keeps the last character for a one-character one. */
  method CreateTableIfNotExists<V>(p: Parsers<V>, table: Table<V>, tableName: string, existsFlag: int, nl: string)
    returns (action: SchemaAction)
    requires table.WellFormed()
    ensures action.Truncate? <==> existsFlag == 1
    ensures action.Truncate? ==> action.sql == "TRUNCATE TABLE " + tableName
    ensures action.Create? && |table.columns| >= 1 ==>
              action.sql == CreateTableText(tableName, ColumnEntries(p, table), nl)
    ensures action.Create? && |table.columns| == 0 ==> action.sql == NoColumnsText(tableName, nl)
  {
    if existsFlag == 1 {
      return Truncate("TRUNCATE TABLE " + tableName);
    }
    var sql := BuildCreateStatement(p, table, tableName, nl);
    return Create(sql);
  }
}
