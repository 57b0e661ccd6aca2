/**
 * The parsed localisation table: for every text key, a row that maps language names to texts.
 * Both levels are dictionaries. Enumeration order is taken to be the order of the CSV (the
 * order in which the entries were added; .NET does not promise it), so each level is a key
 * sequence plus a map.
 */
module LocTable {

  datatype OrderedMap<V> = OrderedMap(keys: seq<string>, entries: map<string, V>)
  {
    /** Keys are distinct and are exactly the map's domain. */
    ghost predicate Valid()
    {
      && (forall i, j :: 0 <= i < j < |keys| ==> keys[i] != keys[j])
      && (forall k :: k in entries <==> k in keys)
    }

    /** `ElementAt(0).Value`: the value of the first key inserted. */
    function First(): (v: V)
      requires Valid() && |keys| > 0
      ensures keys[0] in entries && v == entries[keys[0]]
    {
      entries[keys[0]]
    }
  }

  /** A row: language name to text. */
  type Row = OrderedMap<string>

  /** The table: text key to row. */
  type Table = OrderedMap<Row>

  function EmptyTable(): (t: Table)
    ensures t.Valid() && t.keys == [] && t.entries == map[]
  {
    OrderedMap([], map[])
  }
}
