/** The distance marker threaded through context building: an oracle knows
    its distance from the "future", that is from the node whose context is
    being asked for. */
module Oracle {
  import opened PyValues

  /** `SimpleQuandaOracle`: the oracle it was built from (if any) and the
      count of hops back to the asking node. */
  datatype SimpleQuandaOracle = SimpleQuandaOracle(
    child: Option<SimpleQuandaOracle>,
    counttofuture: nat)

  /** The number of `child` links from `o` to the oracle built without one. */
  function Hops(o: SimpleQuandaOracle): nat {
    match o.child
    case None => 0
    case Some(c) => Hops(c) + 1
  }

  /** The count an oracle carries equals its distance, in hops, from the first one. */
  ghost predicate Counted(o: SimpleQuandaOracle) {
    o.counttofuture == Hops(o)
  }

  /** `SimpleQuandaOracle(child)`: 0 for a fresh oracle, one more than the
      child's count otherwise; so the count stays equal to the hop distance. */
  function NewOracle(child: Option<SimpleQuandaOracle>): (o: SimpleQuandaOracle)
    ensures o.child == child
    ensures child.None? ==> o.counttofuture == 0
    ensures child.Some? ==> o.counttofuture == child.value.counttofuture + 1
    ensures (child.None? || Counted(child.value)) ==> Counted(o)
  {
    match child
    case None => SimpleQuandaOracle(None, 0)
    case Some(c) => SimpleQuandaOracle(child, c.counttofuture + 1)
  }

  /** The oracle reached after `k` ancestor hops from the asking node. */
  function OracleAfter(k: nat): SimpleQuandaOracle {
    if k == 0 then NewOracle(None) else NewOracle(Some(OracleAfter(k - 1)))
  }

  /** After `k` hops the oracle reports distance `k`, and it is consistent. */
  lemma {:induction false} OracleAfterCounts(k: nat)
    ensures OracleAfter(k).counttofuture == k
    ensures Counted(OracleAfter(k))
  {
    if k > 0 {
      OracleAfterCounts(k - 1);
    }
  }
}
