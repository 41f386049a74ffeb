/** Values shared by the models: optional values and rows as the diff sees them. */
module Types {

  datatype Option<+T> = None | Some(value: T)

  /** A column value in PostgreSQL's text form; None is SQL NULL. */
  type Value = Option<string>

  /** A visible row: column name to value. */
  type Row = map<string, Value>

  /** The values of the primary-key columns, in key order. */
  type Key = seq<Value>

  /** A column that is absent reads as NULL, as a dictionary lookup with default does. */
  function Get(r: Row, c: string): Value {
    if c in r then r[c] else None
  }

  function KeyOf(pk: seq<string>, r: Row): Key {
    seq(|pk|, i requires 0 <= i < |pk| => Get(r, pk[i]))
  }

  /** The column sets of the UNIQUE constraints and unique indexes of a table. */
  type Uniques = set<set<string>>

  /** Equal values in all these columns, none of them NULL. */
  predicate SameOn(u: set<string>, a: Row, b: Row) {
    forall c :: c in u ==> Get(a, c) != None && Get(a, c) == Get(b, c)
  }

  /** The table cannot hold both rows. */
  predicate Collide(us: Uniques, a: Row, b: Row) {
    exists u :: u in us && SameOn(u, a, b)
  }

  /** a comes before b. */
  ghost predicate Before<T>(s: seq<T>, a: T, b: T) {
    exists i, j :: 0 <= i < j < |s| && s[i] == a && s[j] == b
  }

  function Lookup<K, V>(m: map<K, V>, k: K): Option<V> {
    if k in m then Some(m[k]) else None
  }

  /** Maps with the same entries are equal. */
  lemma SameMap<K(!new), V>(a: map<K, V>, b: map<K, V>)
    requires forall k :: Lookup(a, k) == Lookup(b, k)
    ensures a == b
  {
    forall k ensures k in a <==> k in b {
      assert Lookup(a, k) == Lookup(b, k);
    }
    forall k | k in a ensures a[k] == b[k] {
      assert Lookup(a, k) == Lookup(b, k);
    }
  }
}
