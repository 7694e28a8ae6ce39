/**
 Column type inference: the SQL type of a column is decided by its first
 non-null value alone, tried as an integer, then as a floating-point number,
 then as a date; anything else, and a column without a non-null value, is text.
 */
module TypeInference {
  import opened DataTables

  const IntType := "INT"
  const FloatType := "FLOAT"
  const DateTimeType := "DATETIME"
  const TextType := "NVARCHAR(255)"

  /** The only type names the inference ever produces. */
  const SqlTypeNames: set<string> := {IntType, FloatType, DateTimeType, TextType}

  /** `n` null cells. */
  function Nulls<V>(n: nat): (r: seq<Option<V>>)
    ensures |r| == n && forall j :: 0 <= j < n ==> r[j].None?
  {
    seq(n, _ => None)
  }

  /** The index of the first non-null value, if there is one. */
  function FirstNonNull<V>(s: seq<Option<V>>): (r: Option<nat>)
    ensures r.Some? ==> r.value < |s| && s[r.value].Some?
    ensures r.Some? ==> forall j :: 0 <= j < r.value ==> s[j].None?
    ensures r.None? ==> forall j :: 0 <= j < |s| ==> s[j].None?
  {
    if s == [] then None
    else if s[0].Some? then Some(0)
    else match FirstNonNull(s[1..])
      case None => None
      case Some(k) => Some(k + 1)
  }

  /** The type one sample value is given, in the fixed priority order. */
  function Classify<V>(p: Parsers<V>, v: V): string
  {
    if p.isInt(v) then IntType
    else if p.isDouble(v) then FloatType
    else if p.isDate(v) then DateTimeType
    else TextType
  }

  /** The type inferred for a column holding the values `s` in row order. */
  function InferredType<V>(p: Parsers<V>, s: seq<Option<V>>): (r: string)
    ensures r in SqlTypeNames
  {
    match FirstNonNull(s)
    case None => TextType
    case Some(k) => Classify(p, s[k].value)
  }

  /** Scans the rows in order, skips nulls and classifies the first non-null
      value only; a column without one defaults to text. */
  method InferSqlType<V>(p: Parsers<V>, table: Table<V>, c: nat) returns (sqlType: string)
    requires table.WellFormed() && c < |table.columns|
    ensures sqlType == InferredType(p, table.Column(c))
  {
    var i := 0;
    while i < |table.rows|
      invariant 0 <= i <= |table.rows|
      invariant forall j :: 0 <= j < i ==> table.rows[j][c].None?
    {
      var val := table.rows[i][c];
      if val.Some? {
        FirstNonNullAt(table.Column(c), i);
        if p.isInt(val.value) {
          return IntType;
        }
        if p.isDouble(val.value) {
          return FloatType;
        }
        if p.isDate(val.value) {
          return DateTimeType;
        }
        break;
      }
      i := i + 1;
    }
    if i == |table.rows| {
      AllNullInfersText(p, table.Column(c));
    }
    return TextType;
  }

  /** A non-null value preceded only by nulls is the first non-null value. */
  lemma FirstNonNullAt<V>(s: seq<Option<V>>, k: nat)
    requires k < |s| && s[k].Some?
    requires forall j :: 0 <= j < k ==> s[j].None?
    ensures FirstNonNull(s) == Some(k)
  {
  }

  /** An all-null column, and a table without rows, infer text. */
  lemma AllNullInfersText<V>(p: Parsers<V>, s: seq<Option<V>>)
    requires forall j :: 0 <= j < |s| ==> s[j].None?
    ensures InferredType(p, s) == TextType
  {
  }

  lemma NoRowsInfersText<V>(p: Parsers<V>, table: Table<V>, c: nat)
    requires table.WellFormed() && c < |table.columns| && table.rows == []
    ensures InferredType(p, table.Column(c)) == TextType
  {
    AllNullInfersText(p, table.Column(c));
  }

  /** The first non-null value decides the type, with integer tried before
      floating point, floating point before date, and text as the fallback. */
  lemma InferencePriority<V>(p: Parsers<V>, s: seq<Option<V>>, k: nat)
    requires k < |s| && s[k].Some?
    requires forall j :: 0 <= j < k ==> s[j].None?
    ensures InferredType(p, s) == IntType <==> p.isInt(s[k].value)
    ensures InferredType(p, s) == FloatType <==> !p.isInt(s[k].value) && p.isDouble(s[k].value)
    ensures InferredType(p, s) == DateTimeType <==>
              !p.isInt(s[k].value) && !p.isDouble(s[k].value) && p.isDate(s[k].value)
    ensures InferredType(p, s) == TextType <==>
              !p.isInt(s[k].value) && !p.isDouble(s[k].value) && !p.isDate(s[k].value)
  {
    FirstNonNullAt(s, k);
  }

  /** Any run of nulls, then a value `v`, then anything: the type is `v`'s. */
  lemma FirstSampleDecides<V>(p: Parsers<V>, n: nat, v: V, rest: seq<Option<V>>)
    ensures InferredType(p, Nulls(n) + [Some(v)] + rest) == Classify(p, v)
  {
    var s := Nulls(n) + [Some(v)] + rest;
    assert s[n] == Some(v);
    FirstNonNullAt(s, n);
  }

  /** Two columns that agree up to and including a non-null value get the
      same type, whatever follows. */
  lemma LaterValuesIgnored<V>(p: Parsers<V>, s: seq<Option<V>>, t: seq<Option<V>>, k: nat)
    requires k < |s| && k < |t| && s[k].Some?
    requires forall j :: 0 <= j <= k ==> s[j] == t[j]
    ensures InferredType(p, s) == InferredType(p, t)
  {
    var m := FirstNonNull(s).value;
    FirstNonNullAt(t, m);
  }

  /** Leading nulls make no difference: adding or removing them keeps the type. */
  lemma LeadingNullsIgnored<V>(p: Parsers<V>, n: nat, s: seq<Option<V>>)
    ensures InferredType(p, Nulls(n) + s) == InferredType(p, s)
  {
    var t := Nulls(n) + s;
    match FirstNonNull(s)
    case None =>
      AllNullInfersText(p, t);
    case Some(k) =>
      assert t[n + k] == s[k];
      FirstNonNullAt(t, n + k);
  }
}
