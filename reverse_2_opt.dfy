/** The reverse two-opt move between two distinct vehicles S and T with cut
    ranks i (in S's route Rs) and j (in T's route Rt):
      Rs' = Rs[0..i] ++ reverse(Rt[0..j])
      Rt' = reverse(Rs[i+1..]) ++ Rt[j+1..]
    Its gain is computed from the cached aggregates in O(1), its
    feasibility from cached skill cutoffs and amounts, and it is applied
    by splicing the two routes in place. */
module ReverseTwoOpt {
  import opened Sequences
  import opened Problem
  import opened SolutionState

  /** The route S has after the move. */
  function NewSourceRoute(s: seq<JobId>, t: seq<JobId>, i: nat, j: nat): (r: seq<JobId>)
    requires i < |s| && j < |t|
    ensures |r| == (i + 1) + (j + 1)
  {
    s[..i + 1] + Reverse(t[..j + 1])
  }

  /** The route T has after the move. */
  function NewTargetRoute(s: seq<JobId>, t: seq<JobId>, i: nat, j: nat): (r: seq<JobId>)
    requires i < |s| && j < |t|
    ensures |r| == (|s| - 1 - i) + (|t| - 1 - j)
  {
    Reverse(s[i + 1..]) + t[j + 1..]
  }

  /** Job by job: S keeps Rs[0..i] and then visits Rt[j], ..., Rt[0];
      T visits Rs[last], ..., Rs[i+1] and then keeps Rt[j+1..]; T ends up
      empty exactly when both cuts are at the last rank. */
  lemma SplicedRoutes(s: seq<JobId>, t: seq<JobId>, i: nat, j: nat)
    requires i < |s| && j < |t|
    ensures var ns := NewSourceRoute(s, t, i, j);
            && ns[..i + 1] == s[..i + 1]
            && (forall k :: i + 1 <= k < |ns| ==> ns[k] == t[i + 1 + j - k])
    ensures var nt := NewTargetRoute(s, t, i, j);
            && (forall k :: 0 <= k < |s| - 1 - i ==> nt[k] == s[|s| - 1 - k])
            && nt[|s| - 1 - i..] == t[j + 1..]
            && (nt == [] <==> i == |s| - 1 && j == |t| - 1)
  {
    var ns, nt := NewSourceRoute(s, t, i, j), NewTargetRoute(s, t, i, j);
    assert ns[..i + 1] == s[..i + 1];
    forall k | i + 1 <= k < |ns| ensures ns[k] == t[i + 1 + j - k] {
      assert ns[k] == Reverse(t[..j + 1])[k - (i + 1)];
    }
    forall k | 0 <= k < |s| - 1 - i ensures nt[k] == s[|s| - 1 - k] {
      assert nt[k] == Reverse(s[i + 1..])[k];
    }
    assert nt[|s| - 1 - i..] == t[j + 1..];
  }

  /** The structural preconditions of a move: distinct vehicles, non-empty
      routes, ranks within them. */
  predicate Anchored(s: seq<JobId>, sVehicle: nat, sRank: nat, t: seq<JobId>, tVehicle: nat, tRank: nat)
  {
    && sVehicle != tVehicle
    && |s| >= 1 && |t| >= 1
    && sRank < |s| && tRank < |t|
  }

  /** Brute-force cost removed minus cost added by the move. */
  function CostDelta(input: Input, vs: Vehicle, vt: Vehicle, s: seq<JobId>, t: seq<JobId>, i: nat, j: nat): int
    requires i < |s| && j < |t|
  {
    RouteCost(input, vs, s) + RouteCost(input, vt, t)
      - RouteCost(input, vs, NewSourceRoute(s, t, i, j)) - RouteCost(input, vt, NewTargetRoute(s, t, i, j))
  }

  /** The end-depot edge of T that the computed gain leaves out: T has an end
      but no start and the move empties T's route. */
  function EmptiedTargetShortfall(input: Input, vt: Vehicle, s: seq<JobId>, t: seq<JobId>, i: nat, j: nat): nat
    requires i < |s| && j < |t|
  {
    if i == |s| - 1 && j == |t| - 1 && vt.start.None? && vt.end.Some?
    then Travel(input, Loc(input, t[j]), vt.end.value)
    else 0
  }

  /** The splice moves jobs between the routes and loses or duplicates none. */
  lemma SpliceKeepsJobs(s: seq<JobId>, t: seq<JobId>, i: nat, j: nat)
    requires i < |s| && j < |t|
    ensures multiset(NewSourceRoute(s, t, i, j)) + multiset(NewTargetRoute(s, t, i, j))
         == multiset(s) + multiset(t)
  {
    assert s == s[..i + 1] + s[i + 1..];
    assert t == t[..j + 1] + t[j + 1..];
    ReversePreservesElements(t[..j + 1]);
    ReversePreservesElements(s[i + 1..]);
  }

  /** The new loads: reversal leaves the load of a moved segment unchanged. */
  lemma SpliceLoads(input: Input, s: seq<JobId>, t: seq<JobId>, i: nat, j: nat)
    requires i < |s| && j < |t|
    ensures Load(input, NewSourceRoute(s, t, i, j)) == Load(input, s[..i + 1]) + Load(input, t[..j + 1])
    ensures Load(input, NewTargetRoute(s, t, i, j)) == Load(input, s[i + 1..]) + Load(input, t[j + 1..])
    ensures Load(input, NewSourceRoute(s, t, i, j)) + Load(input, NewTargetRoute(s, t, i, j))
         == Load(input, s) + Load(input, t)
  {
    LoadConcat(input, s[..i + 1], Reverse(t[..j + 1]));
    LoadReverse(input, t[..j + 1]);
    LoadConcat(input, Reverse(s[i + 1..]), t[j + 1..]);
    LoadReverse(input, s[i + 1..]);
    assert s == s[..i + 1] + s[i + 1..];
    assert t == t[..j + 1] + t[j + 1..];
    LoadConcat(input, s[..i + 1], s[i + 1..]);
    LoadConcat(input, t[..j + 1], t[j + 1..]);
  }

  /** The change of the depot-free path costs, edge by edge: the new link
      Rs[i] -> Rt[j], the reversal of Rt[0..j], the spared edge after Rt[j],
      and, when a suffix of Rs moves, the spared edge after Rs[i], the
      reversal of that suffix and its new link to Rt[j+1]. With open routes
      this is the whole gain. */
  lemma PathCostDelta(input: Input, s: seq<JobId>, t: seq<JobId>, i: nat, j: nat)
    requires i < |s| && j < |t|
    ensures PathCost(input, s) + PathCost(input, t)
              - PathCost(input, NewSourceRoute(s, t, i, j)) - PathCost(input, NewTargetRoute(s, t, i, j))
         == - Edge(input, s[i], t[j])
            + PathCost(input, t[..j + 1]) - PathCost(input, Reverse(t[..j + 1]))
            + (if j < |t| - 1 then Edge(input, t[j], t[j + 1]) else 0)
            + (if i < |s| - 1 then
                 Edge(input, s[i], s[i + 1])
                 + PathCost(input, s[i + 1..]) - PathCost(input, Reverse(s[i + 1..]))
                 - (if j < |t| - 1 then Edge(input, s[i + 1], t[j + 1]) else 0)
               else 0)
  {
    var sp, ss, tp, ts := s[..i + 1], s[i + 1..], t[..j + 1], t[j + 1..];
    assert s == sp + ss;
    assert t == tp + ts;
    assert sp[|sp| - 1] == s[i] && tp[|tp| - 1] == t[j] && Reverse(tp)[0] == t[j];
    assert NewSourceRoute(s, t, i, j) == sp + Reverse(tp);
    assert ss == [] ==> s == sp;
    assert ts == [] ==> t == tp;
    if ss != [] {
      PathCostConcat(input, sp, ss);
    }
    if ts != [] {
      PathCostConcat(input, tp, ts);
    }
    PathCostConcat(input, sp, Reverse(tp));
    if ss == [] {
      assert s == sp;
      assert NewTargetRoute(s, t, i, j) == ts;
      assert ts != [] ==> ts[0] == t[j + 1];
    } else if ts == [] {
      assert t == tp;
      assert NewTargetRoute(s, t, i, j) == Reverse(ss);
    } else {
      PathCostConcat(input, Reverse(ss), ts);
    }
  }

  /** The brute-force gain, split by where the routes change: the depot-free
      paths, S's end (S's first job never changes), T's start and T's end. */
  lemma CostDeltaByParts(input: Input, vs: Vehicle, vt: Vehicle, s: seq<JobId>, t: seq<JobId>, i: nat, j: nat)
    requires i < |s| && j < |t|
    ensures var ns, nt := NewSourceRoute(s, t, i, j), NewTargetRoute(s, t, i, j);
            && CostDelta(input, vs, vt, s, t, i, j)
               == PathCost(input, s) + PathCost(input, t) - PathCost(input, ns) - PathCost(input, nt)
                  + EndCost(input, vs, s[|s| - 1]) - EndCost(input, vs, t[0])
                  + StartCost(input, vt, t[0]) - (if nt == [] then 0 else StartCost(input, vt, nt[0]))
                  + EndCost(input, vt, t[|t| - 1]) - (if nt == [] then 0 else EndCost(input, vt, nt[|nt| - 1]))
            && (nt != [] ==> nt[0] == (if i < |s| - 1 then s[|s| - 1] else t[j + 1]))
            && (nt != [] ==> nt[|nt| - 1] == (if j < |t| - 1 then t[|t| - 1] else s[i + 1]))
  {
    var ns, nt := NewSourceRoute(s, t, i, j), NewTargetRoute(s, t, i, j);
    assert ns[0] == ns[..i + 1][0] == s[0];
    assert ns[|ns| - 1] == t[0];
    assert RouteCost(input, vs, ns) == StartCost(input, vs, s[0]) + PathCost(input, ns) + EndCost(input, vs, t[0]);
    assert RouteCost(input, vs, s) == StartCost(input, vs, s[0]) + PathCost(input, s) + EndCost(input, vs, s[|s| - 1]);
    assert RouteCost(input, vt, t) == StartCost(input, vt, t[0]) + PathCost(input, t) + EndCost(input, vt, t[|t| - 1]);
    if nt != [] {
      if j < |t| - 1 {
        assert nt[|nt| - 1] == nt[|s| - 1 - i..][|t| - 1 - j - 1] == t[|t| - 1];
      }
      if i == |s| - 1 {
        assert nt[0] == nt[|s| - 1 - i..][0] == t[j + 1];
      }
    }
  }

  /** The cached cost entries the gain reads, in brute-force terms. */
  lemma CachedCosts(st: State, input: Input, v: nat, route: seq<JobId>, r: nat)
    requires Consistent(st, input, v, route) && r < |route|
    ensures st.fwdCosts[v][r] - st.bwdCosts[v][r]
         == PathCost(input, route[..r + 1]) - PathCost(input, Reverse(route[..r + 1]))
    ensures r + 1 < |route| ==>
              ((st.fwdCosts[v][|route| - 1] - st.fwdCosts[v][r + 1])
               - (st.bwdCosts[v][|route| - 1] - st.bwdCosts[v][r + 1])
               == PathCost(input, route[r + 1..]) - PathCost(input, Reverse(route[r + 1..])))
  {
    FwdCostIsPathCost(input, route, r);
    BwdCostIsReversedPathCost(input, route, r);
    if r + 1 < |route| {
      FwdCostSuffix(input, route, r + 1);
      BwdCostSuffix(input, route, r + 1);
    }
  }

  /** The cached amounts is_valid reads are the loads of the new routes. */
  lemma CachedLoads(st: State, input: Input, sVehicle: nat, s: seq<JobId>, i: nat, tVehicle: nat, t: seq<JobId>, j: nat)
    requires Consistent(st, input, sVehicle, s) && Consistent(st, input, tVehicle, t)
    requires i < |s| && j < |t|
    ensures st.fwdAmounts[sVehicle][i] + st.fwdAmounts[tVehicle][j] == Load(input, NewSourceRoute(s, t, i, j))
    ensures st.bwdAmounts[tVehicle][j] + st.bwdAmounts[sVehicle][i] == Load(input, NewTargetRoute(s, t, i, j))
  {
    FwdAmountIsLoad(input, s, i);
    FwdAmountIsLoad(input, t, j);
    BwdAmountIsLoad(input, s, i);
    BwdAmountIsLoad(input, t, j);
    SpliceLoads(input, s, t, i, j);
  }

  /** The first insert of apply: the reverse-iterator range over the last
      nb jobs of Rs, inserted at the front of Rt. */
  lemma SpliceFirstInsert(s: seq<JobId>, t: seq<JobId>, i: nat, nb: nat)
    requires i < |s| && nb == |s| - 1 - i
    ensures Insert(t, 0, ReverseRange(s, 0, nb)) == Reverse(s[i + 1..]) + t
  {
    assert s[|s| - nb..|s| - 0] == s[i + 1..];
    assert t[..0] == [] && t[0..] == t;
  }

  /** After the first insert, Rt is preceded by nb moved jobs: the second
      insert's reverse-iterator range reads Rt[0..j] back to front, and the
      final erase removes exactly Rt[0..j]. */
  lemma SpliceSecondRange(moved: seq<JobId>, t: seq<JobId>, j: nat, t1: seq<JobId>, nb: nat)
    requires j < |t| && t1 == moved + t && nb == |moved|
    ensures ReverseRange(t1, |t1| - (j + nb + 1), |t1| - nb) == Reverse(t[..j + 1])
    ensures Erase(t1, nb, nb + j + 1) == moved + t[j + 1..]
  {
    assert t1[nb..nb + j + 1] == t[..j + 1];
    assert t1[..nb] == moved;
    assert t1[nb + j + 1..] == t[j + 1..];
  }

  /** The vector operations of apply, step by step: the first insert puts
      the reversed suffix of Rs in front of Rt, the erase cuts Rs after
      rank i, the reverse-iterator range of the second insert then reads
      exactly Rt[0..j] reversed, and the last erase leaves
      reverse(Rs[i+1..]) ++ Rt[j+1..]. */
  lemma SpliceSteps(s: seq<JobId>, t: seq<JobId>, i: nat, j: nat, nb: nat)
    returns (t1: seq<JobId>, s1: seq<JobId>, s2: seq<JobId>, t2: seq<JobId>)
    requires i < |s| && j < |t| && nb == |s| - 1 - i
    ensures t1 == Insert(t, 0, ReverseRange(s, 0, nb))
    ensures s1 == Erase(s, i + 1, |s|)
    ensures s2 == Insert(s1, |s1|, ReverseRange(t1, |t1| - (j + nb + 1), |t1| - nb))
    ensures s2 == NewSourceRoute(s, t, i, j)
    ensures t2 == Erase(t1, nb, nb + j + 1)
    ensures t2 == NewTargetRoute(s, t, i, j)
  {
    var moved := Reverse(s[i + 1..]);
    t1 := Insert(t, 0, ReverseRange(s, 0, nb));
    SpliceFirstInsert(s, t, i, nb);
    s1 := Erase(s, i + 1, |s|);
    EraseTail(s, i + 1);
    SpliceSecondRange(moved, t, j, t1, nb);
    var back := ReverseRange(t1, |t1| - (j + nb + 1), |t1| - nb);
    s2 := Insert(s1, |s1|, back);
    InsertAtEnd(s1, back);
    t2 := Erase(t1, nb, nb + j + 1);
  }

  /** With neither vehicle having a depot, the brute-force gain is the
      change of the depot-free path costs alone, and nothing is missed. */
  lemma OpenRoutesGain(input: Input, vs: Vehicle, vt: Vehicle, s: seq<JobId>, t: seq<JobId>, i: nat, j: nat)
    requires i < |s| && j < |t|
    requires vs.start.None? && vs.end.None? && vt.start.None? && vt.end.None?
    ensures CostDelta(input, vs, vt, s, t, i, j)
         == PathCost(input, s) + PathCost(input, t)
            - PathCost(input, NewSourceRoute(s, t, i, j)) - PathCost(input, NewTargetRoute(s, t, i, j))
    ensures EmptiedTargetShortfall(input, vt, s, t, i, j) == 0
  {
    CostDeltaByParts(input, vs, vt, s, t, i, j);
    var nt := NewTargetRoute(s, t, i, j);
    if nt == [] {
      assert PathCost(input, nt) == 0;
    }
  }

  /** Two open routes (no depots): Rs = [a, b, c], Rt = [d, e], i = j = 0. */
  lemma OpenScenario(input: Input, a: JobId, b: JobId, c: JobId, d: JobId, e: JobId)
    ensures NewSourceRoute([a, b, c], [d, e], 0, 0) == [a, d]
    ensures NewTargetRoute([a, b, c], [d, e], 0, 0) == [c, b, e]
    ensures CostDelta(input, Vehicle(0, None, None), Vehicle(0, None, None), [a, b, c], [d, e], 0, 0)
         == Edge(input, a, b) + Edge(input, b, c) + Edge(input, d, e)
            - Edge(input, a, d) - Edge(input, c, b) - Edge(input, b, e)
  {
    assert [a, b, c][..1] == [a] && [d, e][..1] == [d];
    assert Reverse([d]) == [d];
    assert [a, b, c][1..] == [b, c];
    assert Reverse([b, c]) == Reverse([c]) + [b] == [c, b];
    assert [d, e][1..] == [e];
    assert NewSourceRoute([a, b, c], [d, e], 0, 0) == [a, d];
    assert NewTargetRoute([a, b, c], [d, e], 0, 0) == [c, b, e];
    assert PathCost(input, [a, b, c]) == Edge(input, a, b) + PathCost(input, [b, c]);
    assert PathCost(input, [b, c]) == Edge(input, b, c) + PathCost(input, [c]);
    assert PathCost(input, [d, e]) == Edge(input, d, e) + PathCost(input, [e]);
    assert PathCost(input, [a, d]) == Edge(input, a, d) + PathCost(input, [d]);
    assert PathCost(input, [c, b, e]) == Edge(input, c, b) + PathCost(input, [b, e]);
    assert PathCost(input, [b, e]) == Edge(input, b, e) + PathCost(input, [e]);
  }

  /** Vehicle v has a cost row of length n in both cost tables. */
  predicate CostRows(st: State, v: nat, n: nat)
  {
    v < |st.fwdCosts| && v < |st.bwdCosts| && |st.fwdCosts[v]| == n && |st.bwdCosts[v]| == n
  }

  /** The O(1) gain in the four groups it is added up in. First the target
      prefix: the new link Rs[i] -> Rt[j], the reversal of Rt[0..j] from
      cached costs, and the spared edge after Rt[j]. */
  function TargetPart(st: State, input: Input, s: seq<JobId>, i: nat, tv: nat, t: seq<JobId>, j: nat): int
    requires i < |s| && j < |t| && CostRows(st, tv, |t|)
  {
    - (Travel(input, Loc(input, s[i]), Loc(input, t[j])) as int)
    + st.fwdCosts[tv][j] - st.bwdCosts[tv][j]
    + (if j < |t| - 1 then Travel(input, Loc(input, t[j]), Loc(input, t[j + 1])) else 0)
  }

  /** The source suffix, when there is one: the spared edge after Rs[i], the
      reversal of Rs[i+1..] from cached costs, and either its new link to
      Rt[j+1] or, when Rt[j] was T's last job, the change of T's end edge. */
  function SourcePart(st: State, input: Input, vt: Vehicle, sv: nat, s: seq<JobId>, i: nat, t: seq<JobId>, j: nat): int
    requires i < |s| && j < |t| && CostRows(st, sv, |s|)
  {
    if i == |s| - 1 then 0
    else Travel(input, Loc(input, s[i]), Loc(input, s[i + 1]))
         + st.fwdCosts[sv][|s| - 1] - st.fwdCosts[sv][i + 1]
         - st.bwdCosts[sv][|s| - 1] + st.bwdCosts[sv][i + 1]
         + (if j < |t| - 1 then - (Travel(input, Loc(input, s[i + 1]), Loc(input, t[j + 1])) as int)
            else if vt.end.None? then 0
            else Travel(input, Loc(input, t[j]), vt.end.value)
                 - Travel(input, Loc(input, s[i + 1]), vt.end.value))
  }

  /** S's end edge: S now ends with Rt[0] instead of Rs's last job. */
  function SourceEndPart(input: Input, vs: Vehicle, s: seq<JobId>, t: seq<JobId>): int
    requires s != [] && t != []
  {
    if vs.end.None? then 0
    else Travel(input, Loc(input, s[|s| - 1]), vs.end.value)
         - Travel(input, Loc(input, t[0]), vs.end.value)
  }

  /** T's start edge: T now starts with Rs's last job, or with Rt[j+1], or
      T is emptied (and then, as written, the end edge is credited only
      here, that is only when T has a start depot). */
  function TargetStartPart(input: Input, vt: Vehicle, s: seq<JobId>, i: nat, t: seq<JobId>, j: nat): int
    requires i < |s| && j < |t|
  {
    if vt.start.None? then 0
    else Travel(input, vt.start.value, Loc(input, t[0]))
         - (if i < |s| - 1 then Travel(input, vt.start.value, Loc(input, s[|s| - 1]))
            else if j < |t| - 1 then Travel(input, vt.start.value, Loc(input, t[j + 1]))
            else 0)
         + (if i == |s| - 1 && j == |t| - 1 && vt.end.Some?
            then Travel(input, Loc(input, t[j]), vt.end.value) else 0)
  }

  /** The O(1) gain formula equals the brute-force gain less the
      emptied-target shortfall. */
  lemma CachedGainFormula(st: State, input: Input, vs: Vehicle, vt: Vehicle,
                          sv: nat, s: seq<JobId>, i: nat, tv: nat, t: seq<JobId>, j: nat)
    requires Consistent(st, input, sv, s) && Consistent(st, input, tv, t)
    requires i < |s| && j < |t|
    ensures CostDelta(input, vs, vt, s, t, i, j) - EmptiedTargetShortfall(input, vt, s, t, i, j)
         == TargetPart(st, input, s, i, tv, t, j) + SourcePart(st, input, vt, sv, s, i, t, j)
            + SourceEndPart(input, vs, s, t) + TargetStartPart(input, vt, s, i, t, j)
  {
    CostDeltaByParts(input, vs, vt, s, t, i, j);
    PathCostDelta(input, s, t, i, j);
    CachedCosts(st, input, tv, t, j);
    CachedCosts(st, input, sv, s, i);
  }

  /** A reverse two-opt move anchored at (sVehicle, sRank) and
      (tVehicle, tRank); sRoute and tRoute are the two vehicles' route
      vectors, held by reference. */
  class ReverseTwoOptMove {
    const input: Input
    const state: State
    const sRoute: Route
    const sVehicle: nat
    const sRank: nat
    const tRoute: Route
    const tVehicle: nat
    const tRank: nat
    var storedGain: int
    var gainComputed: bool

    /** The anchors are well formed, the two vehicles' routes are distinct
        vectors, and the cache is up to date for both. */
    ghost predicate Valid()
      reads sRoute, tRoute
    {
      && sRoute != tRoute
      && Anchored(sRoute.jobs, sVehicle, sRank, tRoute.jobs, tVehicle, tRank)
      && sVehicle < |input.vehicles| && tVehicle < |input.vehicles|
      && Shaped(state, |input.vehicles|)
      && Consistent(state, input, sVehicle, sRoute.jobs)
      && Consistent(state, input, tVehicle, tRoute.jobs)
    }

    constructor (input: Input, state: State, sRoute: Route, sVehicle: nat, sRank: nat,
                 tRoute: Route, tVehicle: nat, tRank: nat)
      requires sRoute != tRoute
      requires Anchored(sRoute.jobs, sVehicle, sRank, tRoute.jobs, tVehicle, tRank)
      requires sVehicle < |input.vehicles| && tVehicle < |input.vehicles|
      requires Shaped(state, |input.vehicles|)
      requires Consistent(state, input, sVehicle, sRoute.jobs)
      requires Consistent(state, input, tVehicle, tRoute.jobs)
      ensures Valid()
      ensures this.input == input && this.state == state
      ensures this.sRoute == sRoute && this.sVehicle == sVehicle && this.sRank == sRank
      ensures this.tRoute == tRoute && this.tVehicle == tVehicle && this.tRank == tRank
      ensures storedGain == 0 && !gainComputed
    {
      this.input, this.state := input, state;
      this.sRoute, this.sVehicle, this.sRank := sRoute, sVehicle, sRank;
      this.tRoute, this.tVehicle, this.tRank := tRoute, tVehicle, tRank;
      storedGain, gainComputed := 0, false;
    }

    /** Cost removed minus cost added by applying the move, by brute force. */
    ghost function TrueGain(): int
      reads sRoute, tRoute
      requires Valid()
    {
      CostDelta(input, input.vehicles[sVehicle], input.vehicles[tVehicle],
                sRoute.jobs, tRoute.jobs, sRank, tRank)
    }

    ghost function Shortfall(): nat
      reads sRoute, tRoute
      requires Valid()
    {
      EmptiedTargetShortfall(input, input.vehicles[tVehicle],
                             sRoute.jobs, tRoute.jobs, sRank, tRank)
    }

    /** The gain from cached aggregates and a few matrix edges, as written:
        exact except when T has an end but no start depot and the move
        empties T's route, where the edge into T's end depot is missed. */
    method ComputeGain()
      requires Valid()
      modifies this`storedGain, this`gainComputed
      ensures gainComputed
      ensures storedGain == TrueGain() - Shortfall()
    {
      var vSource := input.vehicles[sVehicle];
      var vTarget := input.vehicles[tVehicle];
      var sJobs := sRoute.jobs;
      var tJobs := tRoute.jobs;
      var fwdS, bwdS := state.fwdCosts[sVehicle], state.bwdCosts[sVehicle];

      var sIndex := Loc(input, sJobs[sRank]);
      var tIndex := Loc(input, tJobs[tRank]);
      var lastS := Loc(input, sJobs[|sJobs| - 1]);
      var firstT := Loc(input, tJobs[0]);
      var gain := 0;
      var lastInSource := sRank == |sJobs| - 1;
      var lastInTarget := tRank == |tJobs| - 1;

      // New source -> target edge.
      gain := gain - Travel(input, sIndex, tIndex);

      // Reversing the target prefix.
      gain := gain + state.fwdCosts[tVehicle][tRank];
      gain := gain - state.bwdCosts[tVehicle][tRank];

      if !lastInTarget {
        // Spared edge after the target cut.
        var nextIndex := Loc(input, tJobs[tRank + 1]);
        gain := gain + Travel(input, tIndex, nextIndex);
      }
      ghost var targetPart := TargetPart(state, input, sJobs, sRank, tVehicle, tJobs, tRank);
      assert gain == targetPart;

      if !lastInSource {
        // Spared edge after the source cut.
        var nextIndex := Loc(input, sJobs[sRank + 1]);
        gain := gain + Travel(input, sIndex, nextIndex);

        var nextSIndex := Loc(input, sJobs[sRank + 1]);

        // Reversing the source suffix.
        gain := gain + fwdS[|fwdS| - 1];
        gain := gain - fwdS[sRank + 1];
        gain := gain - bwdS[|bwdS| - 1];
        gain := gain + bwdS[sRank + 1];

        if lastInTarget {
          if vTarget.end.Some? {
            // New last job of the target route.
            var endT := vTarget.end.value;
            gain := gain + Travel(input, tIndex, endT);
            gain := gain - Travel(input, nextSIndex, endT);
          }
        } else {
          // New target -> source edge.
          var nextTIndex := Loc(input, tJobs[tRank + 1]);
          gain := gain - Travel(input, nextSIndex, nextTIndex);
        }
      }
      ghost var sourcePart := SourcePart(state, input, vTarget, sVehicle, sJobs, sRank, tJobs, tRank);
      assert gain == targetPart + sourcePart;

      if vSource.end.Some? {
        // The source route's last job changed.
        var endS := vSource.end.value;
        gain := gain + Travel(input, lastS, endS);
        gain := gain - Travel(input, firstT, endS);
      }
      ghost var sourceEndPart := SourceEndPart(input, vSource, sJobs, tJobs);
      assert gain == targetPart + sourcePart + sourceEndPart;

      if vTarget.start.Some? {
        // The target route's first job changed.
        var startT := vTarget.start.value;
        gain := gain + Travel(input, startT, firstT);
        if !lastInSource {
          gain := gain - Travel(input, startT, lastS);
        } else {
          if !lastInTarget {
            var nextIndex := Loc(input, tJobs[tRank + 1]);
            gain := gain - Travel(input, startT, nextIndex);
          } else {
            // The target route is emptied: its end edge goes too.
            if vTarget.end.Some? {
              var endT := vTarget.end.value;
              gain := gain + Travel(input, tIndex, endT);
            }
          }
        }
      }

      assert gain == targetPart + sourcePart + sourceEndPart + TargetStartPart(input, vTarget, sJobs, sRank, tJobs, tRank);
      CachedGainFormula(state, input, vSource, vTarget, sVehicle, sJobs, sRank, tVehicle, tJobs, tRank);
      storedGain := gain;
      gainComputed := true;
    }

    /** The gain with the end-depot credit of an emptied target route given
        whether or not T has a start depot: exactly the brute-force gain. */
    method ComputeGainCorrected()
      requires Valid()
      modifies this`storedGain, this`gainComputed
      ensures gainComputed
      ensures storedGain == TrueGain()
    {
      ComputeGain();
      var sJobs := sRoute.jobs;
      var tJobs := tRoute.jobs;
      var vTarget := input.vehicles[tVehicle];
      if sRank == |sJobs| - 1 && tRank == |tJobs| - 1 && vTarget.start.None? && vTarget.end.Some? {
        storedGain := storedGain + Travel(input, Loc(input, tJobs[tRank]), vTarget.end.value);
      }
    }

    /** Skill cutoffs and capacities from cached entries; the amount clauses
        are exactly the capacity checks of the two new routes. */
    function IsValid(): (valid: bool)
      reads sRoute, tRoute
      requires Valid()
      ensures valid <==>
                && state.bwdSkillRank[sVehicle][tVehicle] <= sRank + 1
                && tRank < state.fwdSkillRank[tVehicle][sVehicle]
                && Load(input, NewSourceRoute(sRoute.jobs, tRoute.jobs, sRank, tRank))
                     <= input.vehicles[sVehicle].capacity
                && Load(input, NewTargetRoute(sRoute.jobs, tRoute.jobs, sRank, tRank))
                     <= input.vehicles[tVehicle].capacity
    {
      CachedLoads(state, input, sVehicle, sRoute.jobs, sRank, tVehicle, tRoute.jobs, tRank);
      && state.bwdSkillRank[sVehicle][tVehicle] <= sRank + 1
      && tRank < state.fwdSkillRank[tVehicle][sVehicle]
      && state.fwdAmounts[sVehicle][sRank] + state.fwdAmounts[tVehicle][tRank]
           <= input.vehicles[sVehicle].capacity
      && state.bwdAmounts[tVehicle][tRank] + state.bwdAmounts[sVehicle][sRank]
           <= input.vehicles[tVehicle].capacity
    }

    /** Splices the two routes in place with the source's four vector
        operations; nothing else changes. */
    method Apply()
      requires sRoute != tRoute
      requires Anchored(sRoute.jobs, sVehicle, sRank, tRoute.jobs, tVehicle, tRank)
      modifies sRoute, tRoute
      ensures sRoute.jobs == NewSourceRoute(old(sRoute.jobs), old(tRoute.jobs), sRank, tRank)
      ensures tRoute.jobs == NewTargetRoute(old(sRoute.jobs), old(tRoute.jobs), sRank, tRank)
    {
      var nbSource := |sRoute.jobs| - 1 - sRank;
      ghost var t1, s1, s2, t2 := SpliceSteps(sRoute.jobs, tRoute.jobs, sRank, tRank, nbSource);

      tRoute.InsertJobs(0, ReverseRange(sRoute.jobs, 0, nbSource));
      assert tRoute.jobs == t1;
      sRoute.EraseJobs(sRank + 1, |sRoute.jobs|);
      assert sRoute.jobs == s1;
      sRoute.InsertJobs(|sRoute.jobs|,
                        ReverseRange(tRoute.jobs, |tRoute.jobs| - (tRank + nbSource + 1), |tRoute.jobs| - nbSource));
      assert sRoute.jobs == s2 && tRoute.jobs == t1;
      tRoute.EraseJobs(nbSource, nbSource + tRank + 1);
      assert tRoute.jobs == t2;
    }

    /** Vehicles whose routes apply changes, for new move generation. */
    function AdditionCandidates(): (vehicles: seq<nat>)
      requires sVehicle != tVehicle
      ensures |vehicles| == 2 && vehicles[0] != vehicles[1]
      ensures forall v :: v in vehicles <==> v == sVehicle || v == tVehicle
    {
      [sVehicle, tVehicle]
    }

    /** Vehicles whose cached state must be recomputed after apply. */
    function UpdateCandidates(): (vehicles: seq<nat>)
      requires sVehicle != tVehicle
      ensures |vehicles| == 2 && vehicles[0] != vehicles[1]
      ensures forall v :: v in vehicles <==> v == sVehicle || v == tVehicle
    {
      [sVehicle, tVehicle]
    }
  }

  /** Two vehicles; T has an end depot at location 9 and no start. With
      S = [0] and T = [1] (jobs at locations 0 and 1) and both cuts at the
      last rank, the move empties T and saves T's edge 1 -> 9, which costs 7:
      the brute-force gain is 7, and the gain as written, which is the
      brute-force gain less the shortfall, is 0: with any cache that agrees
      with both routes, the four groups the code adds up sum to 0. */
  lemma EmptiedTargetScenario(st: State, input: Input)
    requires input.vehicles == [Vehicle(10, None, None), Vehicle(10, None, Some(9))]
    requires Loc(input, 0) == 0 && Loc(input, 1) == 1
    requires Travel(input, 0, 1) == 0 && Travel(input, 1, 9) == 7
    requires Consistent(st, input, 0, [0]) && Consistent(st, input, 1, [1])
    ensures CostDelta(input, input.vehicles[0], input.vehicles[1], [0], [1], 0, 0) == 7
    ensures EmptiedTargetShortfall(input, input.vehicles[1], [0], [1], 0, 0) == 7
    ensures TargetPart(st, input, [0], 0, 1, [1], 0) + SourcePart(st, input, input.vehicles[1], 0, [0], 0, [1], 0)
            + SourceEndPart(input, input.vehicles[0], [0], [1]) + TargetStartPart(input, input.vehicles[1], [0], 0, [1], 0)
            == 0
  {
    assert st.fwdCosts[1][0] == FwdCost(input, [1], 0) == 0;
    assert st.bwdCosts[1][0] == BwdCost(input, [1], 0) == 0;
    assert [0][..1] == [0] && [1][..1] == [1] && [0][1..] == [] && [1][1..] == [];
    assert Reverse([1]) == [1] && Reverse<JobId>([]) == [];
    assert NewSourceRoute([0], [1], 0, 0) == [0, 1];
    assert NewTargetRoute([0], [1], 0, 0) == [];
    assert [0, 1][1..] == [1];
    assert PathCost(input, [0, 1]) == Edge(input, 0, 1) == 0;
  }
}
