/** Reading the rows a `where` clause selects out of a table held as a map from primary
    key to row. The database returns them in no particular order, so a result is
    described by its multiset of rows. */
module Selection {

  /** The keys of the rows of `table` that `keep` selects. */
  function SelectIds<K(!new), T>(table: map<K, T>, keep: T -> bool): (ids: set<K>)
    ensures ids <= table.Keys
    ensures forall k :: k in ids <==> k in table && keep(table[k])
  {
    set k | k in table.Keys && keep(table[k])
  }

  /** Each row is stored under its own key. */
  ghost predicate KeyedBy<K(!new), T>(table: map<K, T>, idOf: T -> K) {
    forall k | k in table :: idOf(table[k]) == k
  }

  /** The rows are exactly the rows of `table` whose keys are `ids`, each once. */
  ghost predicate ListsExactly<K(!new), T>(rows: multiset<T>, table: map<K, T>, ids: set<K>, idOf: T -> K) {
    (forall t | t in rows :: idOf(t) in ids && idOf(t) in table && table[idOf(t)] == t && rows[t] == 1) &&
    (forall k | k in ids :: k in table && idOf(table[k]) == k && table[k] in rows)
  }

  /** A listing has one row per selected key. */
  lemma {:induction false} ListsExactlyCount<K(!new), T>(rows: multiset<T>, table: map<K, T>, ids: set<K>, idOf: T -> K)
    requires ListsExactly(rows, table, ids, idOf)
    ensures |rows| == |ids|
    decreases |ids|
  {
    if ids != {} {
      var k :| k in ids;
      var t := table[k];
      var rest := rows - multiset{t};
      assert rest[t] == 0;
      forall u | u in rest
        ensures idOf(u) in ids - {k} && idOf(u) in table && table[idOf(u)] == u && rest[u] == 1
      {
        assert u in rows;
      }
      forall j | j in ids - {k} ensures j in table && table[j] in rest {
        assert table[j] in rows;
        assert table[j] != t;
      }
      ListsExactlyCount(rest, table, ids - {k}, idOf);
      assert rows == rest + multiset{t};
    }
  }

  /** Adding the row of a new key to a listing gives a listing of one more key. */
  lemma ListsExactlyAdd<K(!new), T>(rows: multiset<T>, table: map<K, T>, ids: set<K>, k: K, idOf: T -> K)
    requires ListsExactly(rows, table, ids, idOf)
    requires k in table && idOf(table[k]) == k && k !in ids
    ensures ListsExactly(rows + multiset{table[k]}, table, ids + {k}, idOf)
  {
    var t := table[k];
    assert t !in rows;
    var rows' := rows + multiset{t};
    forall u | u in rows' ensures idOf(u) in ids + {k} && idOf(u) in table && table[idOf(u)] == u && rows'[u] == 1 {
      if u != t {
        assert u in rows;
      }
    }
  }

  /** A listing holds only rows `keep` selects. */
  lemma ListedRowsSelected<K(!new), T>(rows: seq<T>, table: map<K, T>, keep: T -> bool, idOf: T -> K)
    requires ListsExactly(multiset(rows), table, SelectIds(table, keep), idOf)
    ensures forall t | t in rows :: keep(t)
  {
    forall t | t in rows ensures keep(t) {
      assert t in multiset(rows);
      assert keep(table[idOf(t)]);
    }
  }

  /** The rows of `table` that `keep` selects, gathered one key at a time in no particular order. */
  method CollectRows<K(!new), T>(table: map<K, T>, keep: T -> bool, ghost idOf: T -> K) returns (rows: seq<T>)
    requires KeyedBy(table, idOf)
    ensures ListsExactly(multiset(rows), table, SelectIds(table, keep), idOf)
    ensures |rows| == |SelectIds(table, keep)|
  {
    rows := [];
    var pending := table.Keys;
    ghost var found: set<K> := {};
    while pending != {}
      invariant pending <= table.Keys
      invariant found <= table.Keys && found !! pending
      invariant forall k | k in found :: keep(table[k])
      invariant forall k | k in table && k !in pending && keep(table[k]) :: k in found
      invariant ListsExactly(multiset(rows), table, found, idOf)
      decreases pending
    {
      var k :| k in pending;
      if keep(table[k]) {
        ListsExactlyAdd(multiset(rows), table, found, k, idOf);
        rows := rows + [table[k]];
        found := found + {k};
      }
      pending := pending - {k};
    }
    assert found == SelectIds(table, keep);
    ListsExactlyCount(multiset(rows), table, found, idOf);
  }
}
