/** The per-vehicle cached aggregates a move reads in O(1): cumulative
    forward and backward path costs, cumulative amounts over a prefix and
    after a rank, and the skill-rank cutoff tables. The recomputation of
    the cache is not modelled; what each entry holds is defined here as a
    function of the vehicle's route, and a move requires the cache to agree
    with its two routes. */
module SolutionState {
  import opened Sequences
  import opened Problem

  datatype State = State(
    fwdCosts: seq<seq<int>>,
    bwdCosts: seq<seq<int>>,
    fwdAmounts: seq<seq<nat>>,
    bwdAmounts: seq<seq<nat>>,
    fwdSkillRank: seq<seq<nat>>,
    bwdSkillRank: seq<seq<nat>>)

  /** fwd_costs[v][r]: cost of visiting route[0..r] in stored order. */
  function FwdCost(input: Input, route: seq<JobId>, r: nat): int
    requires r < |route|
  {
    if r == 0 then 0 else FwdCost(input, route, r - 1) + Edge(input, route[r - 1], route[r])
  }

  /** bwd_costs[v][r]: cost of visiting route[0..r] back to front. */
  function BwdCost(input: Input, route: seq<JobId>, r: nat): int
    requires r < |route|
  {
    if r == 0 then 0 else BwdCost(input, route, r - 1) + Edge(input, route[r], route[r - 1])
  }

  /** fwd_amounts[v][r]: amount of route[0..r], rank r included. */
  function FwdAmount(input: Input, route: seq<JobId>, r: nat): nat
    requires r < |route|
  {
    if r == 0 then input.amount(route[0]) else FwdAmount(input, route, r - 1) + input.amount(route[r])
  }

  /** bwd_amounts[v][r]: amount of the ranks strictly after r. */
  function BwdAmount(input: Input, route: seq<JobId>, r: nat): nat
    requires r < |route|
    decreases |route| - r
  {
    if r == |route| - 1 then 0 else input.amount(route[r + 1]) + BwdAmount(input, route, r + 1)
  }

  /** Every table has one row per vehicle; the skill-rank tables are square. */
  predicate Shaped(st: State, n: nat)
  {
    && |st.fwdCosts| == n && |st.bwdCosts| == n
    && |st.fwdAmounts| == n && |st.bwdAmounts| == n
    && |st.fwdSkillRank| == n && |st.bwdSkillRank| == n
    && (forall v :: 0 <= v < n ==> |st.fwdSkillRank[v]| == n)
    && (forall v :: 0 <= v < n ==> |st.bwdSkillRank[v]| == n)
  }

  /** The cached rows of vehicle v agree with its current route. */
  predicate Consistent(st: State, input: Input, v: nat, route: seq<JobId>)
  {
    && v < |st.fwdCosts| && v < |st.bwdCosts| && v < |st.fwdAmounts| && v < |st.bwdAmounts|
    && |st.fwdCosts[v]| == |route| && |st.bwdCosts[v]| == |route|
    && |st.fwdAmounts[v]| == |route| && |st.bwdAmounts[v]| == |route|
    && (forall r :: 0 <= r < |route| ==> st.fwdCosts[v][r] == FwdCost(input, route, r))
    && (forall r :: 0 <= r < |route| ==> st.bwdCosts[v][r] == BwdCost(input, route, r))
    && (forall r :: 0 <= r < |route| ==> st.fwdAmounts[v][r] == FwdAmount(input, route, r))
    && (forall r :: 0 <= r < |route| ==> st.bwdAmounts[v][r] == BwdAmount(input, route, r))
  }

  /** fwd_costs[v][r] is the brute-force cost of the prefix route[0..r]. */
  lemma {:induction false} FwdCostIsPathCost(input: Input, route: seq<JobId>, r: nat)
    requires r < |route|
    ensures FwdCost(input, route, r) == PathCost(input, route[..r + 1])
  {
    if r > 0 {
      FwdCostIsPathCost(input, route, r - 1);
      assert route[..r + 1] == route[..r] + [route[r]];
      PathCostConcat(input, route[..r], [route[r]]);
    }
  }

  /** bwd_costs[v][r] is the brute-force cost of the reversed prefix. */
  lemma {:induction false} BwdCostIsReversedPathCost(input: Input, route: seq<JobId>, r: nat)
    requires r < |route|
    ensures BwdCost(input, route, r) == PathCost(input, Reverse(route[..r + 1]))
  {
    if r > 0 {
      BwdCostIsReversedPathCost(input, route, r - 1);
      assert route[..r + 1] == route[..r] + [route[r]];
      ReverseConcat(route[..r], [route[r]]);
      assert Reverse([route[r]]) == [route[r]];
      PathCostConcat(input, [route[r]], Reverse(route[..r]));
    }
  }

  /** The last forward entry minus the entry at k is the cost of route[k..]. */
  lemma {:induction false} FwdCostSuffix(input: Input, route: seq<JobId>, k: nat)
    requires k < |route|
    ensures FwdCost(input, route, |route| - 1) - FwdCost(input, route, k) == PathCost(input, route[k..])
    decreases |route| - k
  {
    if k < |route| - 1 {
      FwdCostSuffix(input, route, k + 1);
      assert route[k..][1..] == route[k + 1..];
      assert route[k..][1] == route[k + 1];
    }
  }

  /** The same for the backward entries: the cost of route[k..] reversed. */
  lemma {:induction false} BwdCostSuffix(input: Input, route: seq<JobId>, k: nat)
    requires k < |route|
    ensures BwdCost(input, route, |route| - 1) - BwdCost(input, route, k) == PathCost(input, Reverse(route[k..]))
    decreases |route| - k
  {
    if k < |route| - 1 {
      BwdCostSuffix(input, route, k + 1);
      var rest := Reverse(route[k + 1..]);
      assert route[k..][1..] == route[k + 1..];
      assert Reverse(route[k..]) == rest + [route[k]];
      assert rest[|rest| - 1] == route[k + 1];
      PathCostConcat(input, rest, [route[k]]);
    } else {
      assert |Reverse(route[k..])| == 1;
    }
  }

  /** fwd_amounts[v][r] is the load of route[0..r], rank r included. */
  lemma {:induction false} FwdAmountIsLoad(input: Input, route: seq<JobId>, r: nat)
    requires r < |route|
    ensures FwdAmount(input, route, r) == Load(input, route[..r + 1])
  {
    if r == 0 {
      assert route[..1][1..] == [];
    } else {
      FwdAmountIsLoad(input, route, r - 1);
      assert route[..r + 1] == route[..r] + [route[r]];
      LoadConcat(input, route[..r], [route[r]]);
      assert [route[r]][1..] == [];
    }
  }

  /** bwd_amounts[v][r] is the load of the ranks after r. */
  lemma {:induction false} BwdAmountIsLoad(input: Input, route: seq<JobId>, r: nat)
    requires r < |route|
    ensures BwdAmount(input, route, r) == Load(input, route[r + 1..])
    decreases |route| - r
  {
    if r < |route| - 1 {
      BwdAmountIsLoad(input, route, r + 1);
      assert route[r + 1..][1..] == route[r + 2..];
    }
  }

  /** The consistency invariant a fresh cache satisfies: the last prefix
      amount, and the amount after rank 0 plus rank 0's own, are both the
      route's total load; the first cost entries are 0. */
  lemma TotalsAgree(input: Input, route: seq<JobId>)
    requires route != []
    ensures FwdAmount(input, route, |route| - 1) == Load(input, route)
    ensures BwdAmount(input, route, 0) + input.amount(route[0]) == Load(input, route)
    ensures FwdCost(input, route, 0) == BwdCost(input, route, 0) == 0
  {
    FwdAmountIsLoad(input, route, |route| - 1);
    assert route[..|route|] == route;
    BwdAmountIsLoad(input, route, 0);
  }
}
