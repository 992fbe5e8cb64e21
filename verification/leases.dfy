/** Rows with a lease, as the PostgreSQL ledgers reclaim them. */
module Leases {
  import opened Sums

  /** DELETE ... RETURNING over the rows `gone`, and the SUM of the amounts it returned, in any order. */
  method DeleteReturning<K(==), R>(rows: map<K, R>, amounts: map<K, int>, gone: set<K>)
    returns (live: map<K, R>, reclaimed: int)
    requires gone <= amounts.Keys
    ensures live == rows - gone && reclaimed == Sum(Restrict(amounts, gone))
  {
    var todo := gone;
    ghost var done := {};
    live, reclaimed := rows, 0;
    while todo != {}
      invariant todo + done == gone && todo !! done
      invariant live == rows - done && reclaimed == Sum(Restrict(amounts, done))
      decreases todo
    {
      var k :| k in todo;
      SumInsert(Restrict(amounts, done), k, amounts[k]);
      assert Restrict(amounts, done + {k}) == Restrict(amounts, done)[k := amounts[k]];
      live, reclaimed := live - {k}, reclaimed + amounts[k];
      todo, done := todo - {k}, done + {k};
    }
  }
}
