/**
 * Dictionaries with string keys, written out as their entries in insertion
 * order, and `dict.get` on them.
 */
module Tables {
  import opened Wrappers

  /** The keys of a table, in order. */
  function KeysOf<V>(table: seq<(string, V)>): (ks: seq<string>)
    ensures |ks| == |table|
    ensures forall i | 0 <= i < |table| :: ks[i] == table[i].0
  {
    seq(|table|, i requires 0 <= i < |table| => table[i].0)
  }

  /** No key is written twice, as in a dictionary. */
  predicate DistinctKeys<V>(table: seq<(string, V)>) {
    forall i, j | 0 <= i < j < |table| :: table[i].0 != table[j].0
  }

  /** Every value of the table is a list of `n` items. */
  predicate ValuesOfLength<T>(table: seq<(string, seq<T>)>, n: int) {
    forall i | 0 <= i < |table| :: |table[i].1| == n
  }

  /** `table.get(key)`: the value stored under `key`, if any. */
  function Get<V>(table: seq<(string, V)>, key: string): (r: Option<V>)
    ensures r.Some? ==> (key, r.value) in table
    ensures r.None? <==> key !in KeysOf(table)
  {
    if table == [] then None
    else if table[0].0 == key then Some(table[0].1)
    else
      var r := Get(table[1..], key);
      assert KeysOf(table) == [table[0].0] + KeysOf(table[1..]);
      r
  }

  /** In a table without repeated keys, every entry is what its key finds. */
  lemma {:induction false} GetEntry<V>(table: seq<(string, V)>, i: int)
    requires DistinctKeys(table)
    requires 0 <= i < |table|
    ensures Get(table, table[i].0) == Some(table[i].1)
  {
    if i > 0 {
      assert table[0].0 != table[i].0;
      assert table[1..][i - 1] == table[i];
      GetEntry(table[1..], i - 1);
    }
  }

  /** What a key finds in a table of `n`-item lists has `n` items. */
  lemma GetLength<T>(table: seq<(string, seq<T>)>, n: int, key: string)
    ensures ValuesOfLength(table, n) && Get(table, key).Some? ==> |Get(table, key).value| == n
  {
    if ValuesOfLength(table, n) && Get(table, key).Some? {
      var i := GetFound(table, key);
    }
  }

  /** What a key finds is one of the table's entries: returns its index. */
  lemma GetFound<V>(table: seq<(string, V)>, key: string) returns (i: int)
    requires Get(table, key).Some?
    ensures 0 <= i < |table| && table[i] == (key, Get(table, key).value)
  {
    var v := Get(table, key).value;
    i :| 0 <= i < |table| && table[i] == (key, v);
  }
}
