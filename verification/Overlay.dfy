/** Optional values, results and lists; tables as maps, and the uncommitted writes of one transaction as an overlay on them. */
module Overlay {
  datatype Option<+T> = None | Some(value: T)

  datatype Result<+T, +E> = Ok(value: T) | Err(error: E)

  function Elements<T>(s: seq<T>): set<T> {
    set x | x in s
  }

  lemma SameEmptiness<T>(s: seq<T>, t: seq<T>)
    requires Elements(s) == Elements(t)
    ensures s == [] <==> t == []
  {
    if s != [] { assert s[0] in Elements(s); }
    if t != [] { assert t[0] in Elements(t); }
  }

  lemma Associative<T>(a: seq<T>, b: seq<T>, c: seq<T>)
    ensures a + (b + c) == a + b + c
  {
  }

  function Get<K, V>(table: map<K, V>, k: K): Option<V> {
    if k in table then Some(table[k]) else None
  }

  function Without<K, V>(table: map<K, V>, k: K): map<K, V> {
    map j | j in table && j != k :: table[j]
  }

  /** What a transaction with the uncommitted `writes` reads under key `k`; `None` is "no row". */
  function See<K, V>(table: map<K, V>, writes: map<K, Option<V>>, k: K): Option<V> {
    if k in writes then writes[k] else Get(table, k)
  }

  /** The table after `writes` are committed. */
  function Merge<K(!new), V>(table: map<K, V>, writes: map<K, Option<V>>): (merged: map<K, V>)
    ensures forall k :: Get(merged, k) == See(table, writes, k)
  {
    map k | k in table.Keys + writes.Keys && See(table, writes, k).Some? :: See(table, writes, k).value
  }
}
