/**
 The destination column name of a source column: every space becomes an
 underscore. The same function names the column in the CREATE TABLE
 statement and in the bulk-copy column mapping.
 */
module Naming {

  /** `name.Replace(" ", "_")`. */
  function MapColumnName(name: string): (r: string)
    ensures |r| == |name|
    ensures ' ' !in r
    ensures forall i :: 0 <= i < |name| && name[i] != ' ' ==> r[i] == name[i]
    ensures forall i :: 0 <= i < |name| && name[i] == ' ' ==> r[i] == '_'
  {
    if name == [] then []
    else [if name[0] == ' ' then '_' else name[0]] + MapColumnName(name[1..])
  }

  /** A name without spaces is its own destination name. */
  lemma {:induction false} NoSpaceUnchanged(name: string)
    requires ' ' !in name
    ensures MapColumnName(name) == name
  {
    var r := MapColumnName(name);
    forall i | 0 <= i < |name|
      ensures r[i] == name[i]
    {
      assert name[i] in name;
    }
  }

  /** Mapping a mapped name again changes nothing. */
  lemma {:induction false} MapColumnNameIdempotent(name: string)
    ensures MapColumnName(MapColumnName(name)) == MapColumnName(name)
  {
    NoSpaceUnchanged(MapColumnName(name));
  }

  /** A source column "Order Date" becomes the destination column "Order_Date". */
  lemma OrderDateExample()
    ensures MapColumnName("Order Date") == "Order_Date"
  {
  }

  /** The mapping is not injective: two distinct source columns can be given
      the same destination name. */
  lemma MappingMayCollide()
    ensures "Order Date" != "Order_Date"
    ensures MapColumnName("Order Date") == MapColumnName("Order_Date")
  {
    OrderDateExample();
    assert MapColumnName("Order_Date") == "Order_Date";
  }
}
