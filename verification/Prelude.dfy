/** Optional values and results that may fail, shared by every module of the model. */
module Prelude {
  datatype Option<+T> = None | Some(value: T)

  datatype Result<+T, +E> = Ok(value: T) | Err(error: E)

  /** The rows stored under `k`, or no rows. */
  function Rows<T>(table: map<string, seq<T>>, k: string): seq<T> {
    if k in table then table[k] else []
  }

  /** `table'` keeps every row of `table`: what an append-only table allows. */
  ghost predicate Keeps<K, V>(table: map<K, V>, table': map<K, V>) {
    forall k :: k in table ==> k in table' && table'[k] == table[k]
  }

  ghost predicate KeepsRows<T>(table: map<string, seq<T>>, table': map<string, seq<T>>) {
    forall k: string :: Rows(table, k) <= Rows(table', k)
  }

  lemma AppendKeepsRows<T>(table: map<string, seq<T>>, k: string, rows: seq<T>)
    requires Rows(table, k) <= rows
    ensures KeepsRows(table, table[k := rows])
  {
    var table' := table[k := rows];
    forall i: string ensures Rows(table, i) <= Rows(table', i) {
      if i != k { assert Rows(table', i) == Rows(table, i); }
    }
  }
}
