/** The cost.report aggregation over the audit ring. */
module Report {
  import opened Int64
  import opened LocalLedger
  import opened Sums

  datatype Key = Key(domain: string, operation: string)

  datatype Bucket = Bucket(key: Key, count: int, spent: int64)

  function KeyOf(e: Event): Key {
    Key(e.domain, e.operation)
  }

  /** Distinct keys in order of first appearance. */
  function FirstSeen(entries: seq<Event>): seq<Key> {
    if entries == [] then []
    else
      var earlier := FirstSeen(entries[..|entries| - 1]);
      var k := KeyOf(entries[|entries| - 1]);
      if k in earlier then earlier else earlier + [k]
  }

  function Count(entries: seq<Event>, k: Key): int {
    if entries == [] then 0
    else Count(entries[..|entries| - 1], k) + (if KeyOf(entries[|entries| - 1]) == k then 1 else 0)
  }

  function Cost(entries: seq<Event>, k: Key): int {
    if entries == [] then 0
    else Cost(entries[..|entries| - 1], k)
         + (if KeyOf(entries[|entries| - 1]) == k then entries[|entries| - 1].cost as int else 0)
  }

  function TotalCost(entries: seq<Event>): int {
    if entries == [] then 0 else TotalCost(entries[..|entries| - 1]) + entries[|entries| - 1].cost as int
  }

  function CountOver(keys: seq<Key>, entries: seq<Event>): int {
    if keys == [] then 0 else CountOver(keys[..|keys| - 1], entries) + Count(entries, keys[|keys| - 1])
  }

  function CostOver(keys: seq<Key>, entries: seq<Event>): int {
    if keys == [] then 0 else CostOver(keys[..|keys| - 1], entries) + Cost(entries, keys[|keys| - 1])
  }

  ghost predicate Distinct(keys: seq<Key>) {
    forall i, j :: 0 <= i < j < |keys| ==> keys[i] != keys[j]
  }

  /** `k` occurs in the entries, and not before position `p`. */
  ghost predicate FirstAt(entries: seq<Event>, k: Key, p: nat) {
    p < |entries| && KeyOf(entries[p]) == k && forall q :: 0 <= q < p ==> KeyOf(entries[q]) != k
  }

  ghost predicate Occurs(entries: seq<Event>, k: Key) {
    exists p :: FirstAt(entries, k, p)
  }

  ghost predicate Before(entries: seq<Event>, k: Key, l: Key) {
    forall p, q :: FirstAt(entries, k, p) && FirstAt(entries, l, q) ==> p < q
  }

  lemma FirstAtFront(entries: seq<Event>, k: Key, p: nat)
    requires entries != []
    ensures FirstAt(entries[..|entries| - 1], k, p) ==> FirstAt(entries, k, p)
    ensures FirstAt(entries, k, p) && p < |entries| - 1 ==> FirstAt(entries[..|entries| - 1], k, p)
  {
    var front := entries[..|entries| - 1];
    assert forall q :: 0 <= q < |front| ==> front[q] == entries[q];
  }

  lemma {:induction false} FirstSeenCovers(entries: seq<Event>)
    ensures Distinct(FirstSeen(entries))
    ensures forall p :: 0 <= p < |entries| ==> KeyOf(entries[p]) in FirstSeen(entries)
  {
    if entries == [] {
    } else {
      FirstSeenCovers(entries[..|entries| - 1]);
      forall p | 0 <= p < |entries| ensures KeyOf(entries[p]) in FirstSeen(entries) {
        if p < |entries| - 1 {
          assert entries[p] == entries[..|entries| - 1][p];
        }
      }
    }
  }

  lemma {:induction false} FirstSeenOccurs(entries: seq<Event>)
    ensures forall k :: k in FirstSeen(entries) ==> Occurs(entries, k)
  {
    if entries == [] {
    } else {
      var front, last := entries[..|entries| - 1], |entries| - 1;
      FirstSeenOccurs(front);
      FirstSeenCovers(front);
      forall k | k in FirstSeen(entries) ensures Occurs(entries, k) {
        if k in FirstSeen(front) {
          assert Occurs(front, k);
          var p :| FirstAt(front, k, p);
          FirstAtFront(entries, k, p);
        } else {
          forall q | 0 <= q < last ensures KeyOf(entries[q]) != k {
            assert KeyOf(front[q]) in FirstSeen(front);
          }
          assert FirstAt(entries, k, last);
        }
      }
    }
  }

  /** FirstSeen lists each key once, exactly the keys that occur, in the order of their first occurrences. */
  lemma {:induction false} FirstSeenOrder(entries: seq<Event>)
    ensures Distinct(FirstSeen(entries))
    ensures forall k :: k in FirstSeen(entries) <==> Occurs(entries, k)
    ensures forall p :: 0 <= p < |entries| ==> Key(entries[p].domain, entries[p].operation) in FirstSeen(entries)
    ensures forall i, j :: 0 <= i < j < |FirstSeen(entries)| ==>
              Before(entries, FirstSeen(entries)[i], FirstSeen(entries)[j])
  {
    FirstSeenCovers(entries);
    FirstSeenOccurs(entries);
    if entries == [] {
    } else {
      var front := entries[..|entries| - 1];
      FirstSeenOrder(front);
      var keys := FirstSeen(entries);
      forall i, j | 0 <= i < j < |keys| ensures Before(entries, keys[i], keys[j]) {
        forall p: nat, q: nat | FirstAt(entries, keys[i], p) && FirstAt(entries, keys[j], q) ensures p < q {
          var earlier := FirstSeen(front);
          assert keys[i] == earlier[i] && earlier[i] in earlier && Occurs(front, keys[i]);
          var p0 :| FirstAt(front, keys[i], p0);
          FirstAtFront(entries, keys[i], p0);
          assert p == p0;
          if q < |front| {
            FirstAtFront(entries, keys[j], q);
            assert Occurs(front, keys[j]);
            assert keys[j] in earlier;
            assert j < |earlier| && Before(front, earlier[i], earlier[j]);
          }
        }
      }
    }
  }

  lemma {:induction false} CountOverAdd(keys: seq<Key>, entries: seq<Event>, e: Event)
    requires Distinct(keys)
    ensures CountOver(keys, entries + [e]) == CountOver(keys, entries) + (if KeyOf(e) in keys then 1 else 0)
    ensures CostOver(keys, entries + [e]) == CostOver(keys, entries) + (if KeyOf(e) in keys then e.cost as int else 0)
  {
    if keys == [] {
    } else {
      CountOverAdd(keys[..|keys| - 1], entries, e);
      assert keys == keys[..|keys| - 1] + [keys[|keys| - 1]];
      assert (entries + [e])[..|entries + [e]| - 1] == entries;
    }
  }

  lemma {:induction false} Unseen(entries: seq<Event>, k: Key)
    requires k !in FirstSeen(entries)
    ensures Count(entries, k) == 0 && Cost(entries, k) == 0
  {
    if entries == [] {
    } else {
      Unseen(entries[..|entries| - 1], k);
    }
  }

  /** Nothing is lost or counted twice: bucket counts and sums add up to those of the entries. */
  lemma {:induction false} BucketsAddUp(entries: seq<Event>)
    ensures CountOver(FirstSeen(entries), entries) == |entries|
    ensures CostOver(FirstSeen(entries), entries) == TotalCost(entries)
  {
    if entries == [] {
    } else {
      var front, e := entries[..|entries| - 1], entries[|entries| - 1];
      BucketsAddUp(front);
      FirstSeenCovers(front);
      assert entries == front + [e];
      CountOverAdd(FirstSeen(front), front, e);
      if KeyOf(e) !in FirstSeen(front) {
        NewBucket(FirstSeen(front), front, e);
      }
    }
  }

  lemma NewBucket(keys: seq<Key>, front: seq<Event>, e: Event)
    requires keys == FirstSeen(front) && KeyOf(e) !in keys
    ensures CountOver(keys + [KeyOf(e)], front + [e]) == CountOver(keys, front + [e]) + 1
    ensures CostOver(keys + [KeyOf(e)], front + [e]) == CostOver(keys, front + [e]) + e.cost as int
  {
    Unseen(front, KeyOf(e));
    var longer := keys + [KeyOf(e)];
    assert longer[..|longer| - 1] == keys;
    assert (front + [e])[..|front + [e]| - 1] == front;
  }

  function BucketOf(entries: seq<Event>, k: Key): Bucket {
    Bucket(k, Count(entries, k), Wrap(Cost(entries, k)) as int64)
  }

  /** The events of one domain and operation, by position, with their costs. */
  function CostsOf(entries: seq<Event>, domain: string, operation: string): map<nat, int> {
    map p: nat | p < |entries| && entries[p].domain == domain && entries[p].operation == operation
      :: entries[p].cost as int
  }

  /** A bucket carries its own domain and operation, counts exactly the events
      with both of them, and sums their costs. */
  lemma {:induction false} BucketMeans(entries: seq<Event>, domain: string, operation: string, costs: map<nat, int>)
    requires costs == CostsOf(entries, domain, operation)
    ensures BucketOf(entries, Key(domain, operation))
         == Bucket(Key(domain, operation), |costs|, Wrap(Sum(costs)) as int64)
  {
    MatchingEvents(entries, domain, operation, costs);
  }

  lemma {:induction false} MatchingEvents(entries: seq<Event>, domain: string, operation: string, costs: map<nat, int>)
    requires costs == CostsOf(entries, domain, operation)
    ensures |costs| == Count(entries, Key(domain, operation)) && Sum(costs) == Cost(entries, Key(domain, operation))
  {
    if entries == [] {
      assert costs == map[];
    } else {
      var earlier := CostsOf(entries[..|entries| - 1], domain, operation);
      MatchingEvents(entries[..|entries| - 1], domain, operation, earlier);
      LastEvent(entries, domain, operation, earlier, costs);
    }
  }

  lemma LastEvent(entries: seq<Event>, domain: string, operation: string,
                  earlier: map<nat, int>, costs: map<nat, int>)
    requires entries != [] && costs == CostsOf(entries, domain, operation)
    requires earlier == CostsOf(entries[..|entries| - 1], domain, operation)
    ensures var e := entries[|entries| - 1];
            if e.domain == domain && e.operation == operation
            then |costs| == |earlier| + 1 && Sum(costs) == Sum(earlier) + e.cost as int
            else costs == earlier
  {
    var last := |entries| - 1;
    var e := entries[last];
    if e.domain == domain && e.operation == operation {
      assert costs == earlier[last := e.cost as int];
      OneMoreKey(earlier, last, e.cost as int);
    } else {
      assert costs == earlier;
    }
  }

  lemma OneMoreKey(m: map<nat, int>, k: nat, v: int)
    requires k !in m
    ensures |m[k := v]| == |m| + 1 && Sum(m[k := v]) == Sum(m) + v
  {
    SumInsert(m, k, v);
    assert m[k := v].Keys == m.Keys + {k};
  }

  function AddTo(b: Bucket, e: Event): Bucket {
    b.(count := b.count + 1, spent := Wrap(b.spent as int + e.cost as int) as int64)
  }

  /** What one more event does to the order and to each bucket. */
  lemma OneMore(entries: seq<Event>, n: nat)
    requires n < |entries|
    ensures var k := KeyOf(entries[n]);
            && FirstSeen(entries[..n + 1])
               == FirstSeen(entries[..n]) + (if k in FirstSeen(entries[..n]) then [] else [k])
            && (k !in FirstSeen(entries[..n]) ==> BucketOf(entries[..n], k) == Bucket(k, 0, 0))
            && BucketOf(entries[..n + 1], k) == AddTo(BucketOf(entries[..n], k), entries[n])
    ensures forall k :: k != KeyOf(entries[n]) ==> BucketOf(entries[..n + 1], k) == BucketOf(entries[..n], k)
  {
    var k := KeyOf(entries[n]);
    assert entries[..n + 1][..|entries[..n + 1]| - 1] == entries[..n];
    if k !in FirstSeen(entries[..n]) {
      Unseen(entries[..n], k);
    }
    WrapAdd(Cost(entries[..n], k), entries[n].cost as int);
  }

  /** One bucket per key in first-seen order, each with the number of its
      events and their wrapped sum. */
  method Aggregate(entries: seq<Event>) returns (buckets: seq<Bucket>)
    ensures |buckets| == |FirstSeen(entries)|
    ensures forall i :: 0 <= i < |buckets| ==> buckets[i] == BucketOf(entries, FirstSeen(entries)[i])
  {
    var byKey: map<Key, Bucket> := map[];
    var order: seq<Key> := [];
    var n := 0;
    while n < |entries|
      invariant n <= |entries| && order == FirstSeen(entries[..n])
      invariant forall k :: k in byKey <==> k in order
      invariant forall k :: k in byKey ==> byKey[k] == BucketOf(entries[..n], k)
    {
      var k := KeyOf(entries[n]);
      OneMore(entries, n);
      if k !in byKey {
        byKey := byKey[k := Bucket(k, 0, 0)];
        order := order + [k];
      }
      byKey := byKey[k := AddTo(byKey[k], entries[n])];
      n := n + 1;
    }
    assert entries[..n] == entries;
    buckets := [];
    while |buckets| < |order|
      invariant |buckets| <= |order|
      invariant forall i :: 0 <= i < |buckets| ==> buckets[i] == byKey[order[i]]
    {
      buckets := buckets + [byKey[order[|buckets|]]];
    }
  }
}
