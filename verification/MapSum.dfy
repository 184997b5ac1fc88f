/** Sums over the rows of a table, the meaning of SQL's `SUM(...) GROUP BY`. */
module MapSum {
  import opened Base

  /** The sum of `weight` over a set of identifiers. */
  ghost function SumOver(ids: set<Id>, weight: Id -> int): int
    decreases |ids|
  {
    if ids == {} then 0 else
      var id :| id in ids;
      weight(id) + SumOver(ids - {id}, weight)
  }

  /** What row `id` contributes; a missing row contributes nothing. */
  ghost function Part<V>(rows: map<Id, V>, weight: V -> int, id: Id): int {
    if id in rows then weight(rows[id]) else 0
  }

  ghost function Parts<V>(rows: map<Id, V>, weight: V -> int): Id -> int {
    (id: Id) => Part(rows, weight, id)
  }

  ghost function Sum<V>(rows: map<Id, V>, weight: V -> int): int {
    SumOver(rows.Keys, Parts(rows, weight))
  }

  lemma {:induction false} SumOverTake(ids: set<Id>, weight: Id -> int, id: Id)
    requires id in ids
    ensures SumOver(ids, weight) == weight(id) + SumOver(ids - {id}, weight)
    decreases |ids|
  {
    var first :| first in ids && SumOver(ids, weight) == weight(first) + SumOver(ids - {first}, weight);
    if first != id {
      SumOverTake(ids - {first}, weight, id);
      assert ids - {first} - {id} == ids - {id} - {first};
      SumOverTake(ids - {id}, weight, first);
    }
  }

  /** Identifiers that weigh nothing do not change a sum. */
  lemma {:induction false} SumOverGrow(ids: set<Id>, more: set<Id>, weight: Id -> int)
    requires ids <= more
    requires forall id :: id in more - ids ==> weight(id) == 0
    ensures SumOver(ids, weight) == SumOver(more, weight)
    decreases |more|
  {
    if id :| id in more - ids {
      SumOverTake(more, weight, id);
      SumOverGrow(ids, more - {id}, weight);
    } else {
      assert forall id :: id in more ==> id !in more - ids;
      assert ids == more;
    }
  }

  lemma {:induction false} SumOverAdd(ids: set<Id>, whole: Id -> int, left: Id -> int, right: Id -> int)
    requires forall id :: id in ids ==> whole(id) == left(id) + right(id)
    ensures SumOver(ids, whole) == SumOver(ids, left) + SumOver(ids, right)
    decreases |ids|
  {
    if id :| id in ids {
      SumOverTake(ids, whole, id);
      SumOverTake(ids, left, id);
      SumOverTake(ids, right, id);
      SumOverAdd(ids - {id}, whole, left, right);
    }
  }

  /** Sums add up when every row's parts do: the one fact every bulk update of a table needs. */
  lemma {:induction false} SumAdd<A, B, C>(whole: map<Id, A>, f: A -> int, left: map<Id, B>, g: B -> int,
                                           right: map<Id, C>, h: C -> int)
    requires forall id :: id in whole || id in left || id in right ==>
               Part(whole, f, id) == Part(left, g, id) + Part(right, h, id)
    ensures Sum(whole, f) == Sum(left, g) + Sum(right, h)
  {
    var ids := whole.Keys + left.Keys + right.Keys;
    SumOverGrow(whole.Keys, ids, Parts(whole, f));
    SumOverGrow(left.Keys, ids, Parts(left, g));
    SumOverGrow(right.Keys, ids, Parts(right, h));
    SumOverAdd(ids, Parts(whole, f), Parts(left, g), Parts(right, h));
  }

  lemma SumEmpty<V>(weight: V -> int)
    ensures Sum(map[], weight) == 0
  {
  }

  lemma SumSingle<V>(id: Id, row: V, weight: V -> int)
    ensures Sum(map[id := row], weight) == weight(row)
  {
    var one := map[id := row];
    SumOverTake(one.Keys, Parts(one, weight), id);
    assert one.Keys - {id} == {};
  }

  /** Rows that contribute the same give the same sum. */
  lemma {:induction false} SumSame<A, B>(before: map<Id, A>, f: A -> int, after: map<Id, B>, g: B -> int)
    requires forall id :: id in before || id in after ==> Part(before, f, id) == Part(after, g, id)
    ensures Sum(before, f) == Sum(after, g)
  {
    var none: map<Id, int> := map[];
    SumAdd(before, f, after, g, none, (x: int) => x);
    SumEmpty((x: int) => x);
  }

  /** Writing one row changes the sum by that row's difference. */
  lemma {:induction false} SumWrite<V>(rows: map<Id, V>, id: Id, row: V, weight: V -> int)
    ensures Sum(rows[id := row], weight) == Sum(rows, weight) - Part(rows, weight, id) + weight(row)
  {
    var delta := map[id := weight(row) - Part(rows, weight, id)];
    var same := (x: int) => x;
    SumAdd(rows[id := row], weight, rows, weight, delta, same);
    SumSingle(id, delta[id], same);
  }

  lemma {:induction false} SumNonNegative<V>(rows: map<Id, V>, weight: V -> int)
    requires forall id :: id in rows ==> weight(rows[id]) >= 0
    ensures Sum(rows, weight) >= 0
  {
    SumOverNonNegative(rows.Keys, Parts(rows, weight));
  }

  lemma {:induction false} SumOverNonNegative(ids: set<Id>, weight: Id -> int)
    requires forall id :: id in ids ==> weight(id) >= 0
    ensures SumOver(ids, weight) >= 0
    decreases |ids|
  {
    if id :| id in ids {
      SumOverTake(ids, weight, id);
      SumOverNonNegative(ids - {id}, weight);
    }
  }

  /** One table's sum is at most another's when every part is. */
  lemma {:induction false} SumAtMost<A, B>(small: map<Id, A>, f: A -> int, big: map<Id, B>, g: B -> int)
    requires forall id :: id in small || id in big ==> Part(small, f, id) <= Part(big, g, id)
    ensures Sum(small, f) <= Sum(big, g)
  {
    var ids := small.Keys + big.Keys;
    var rest := (id: Id) => Part(big, g, id) - Part(small, f, id);
    SumOverGrow(small.Keys, ids, Parts(small, f));
    SumOverGrow(big.Keys, ids, Parts(big, g));
    SumOverAdd(ids, Parts(big, g), Parts(small, f), rest);
    SumOverNonNegative(ids, rest);
  }
}
