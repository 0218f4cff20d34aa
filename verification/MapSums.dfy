/** Sums of a weight over the rows of a table, the arithmetic behind every conservation law here. */
module MapSums {

  ghost function SumOver<K, V>(table: map<K, V>, weight: V -> int): int
    decreases |table|
  {
    if table == map[] then 0 else
      var key :| key in table;
      weight(table[key]) + SumOver(table - {key}, weight)
  }

  /** The sum does not depend on which row is taken out first. */
  lemma {:induction false} SumWithout<K, V>(table: map<K, V>, key: K, weight: V -> int)
    requires key in table
    ensures SumOver(table, weight) == weight(table[key]) + SumOver(table - {key}, weight)
    decreases |table|
  {
    var first :| first in table && SumOver(table, weight) == weight(table[first]) + SumOver(table - {first}, weight);
    if first != key {
      SumWithout(table - {first}, key, weight);
      SumWithout(table - {key}, first, weight);
      assert table - {first} - {key} == table - {key} - {first};
    }
  }

  /** Writing one row moves the sum by exactly that row's change of weight. */
  lemma {:induction false} SumUpdate<K, V>(table: map<K, V>, key: K, row: V, weight: V -> int)
    ensures SumOver(table[key := row], weight)
         == SumOver(table, weight) + weight(row) - (if key in table then weight(table[key]) else 0)
  {
    var written := table[key := row];
    SumWithout(written, key, weight);
    if key in table {
      SumWithout(table, key, weight);
      assert written - {key} == table - {key};
    } else {
      assert written - {key} == table;
    }
  }

  lemma {:induction false} SumAtLeast<K, V>(table: map<K, V>, key: K, weight: V -> int)
    requires key in table
    requires forall k :: k in table ==> weight(table[k]) >= 0
    ensures SumOver(table, weight) >= weight(table[key])
  {
    SumWithout(table, key, weight);
    SumNonnegative(table - {key}, weight);
  }

  lemma {:induction false} SumNonnegative<K, V>(table: map<K, V>, weight: V -> int)
    requires forall k :: k in table ==> weight(table[k]) >= 0
    ensures SumOver(table, weight) >= 0
    decreases |table|
  {
    if table != map[] {
      var key :| key in table;
      SumWithout(table, key, weight);
      SumNonnegative(table - {key}, weight);
    }
  }
}
