# Reverse two-opt move of the VROOM CVRP local search

This project models `cvrp_reverse_two_opt`, one of the local-search moves
VROOM's capacitated vehicle routing solver uses to improve a solution. The
move takes two distinct vehicles S and T with routes Rs and Rt (sequences of
job ids) and cut ranks i and j, and exchanges route tails, reversing the
exchanged parts:

- `Rs' = Rs[0..i] ++ reverse(Rt[0..j])`
- `Rt' = reverse(Rs[i+1..]) ++ Rt[j+1..]`

The model covers the whole move:

- the constructor's structural preconditions;
- `compute_gain`, which adds up the cost change in O(1) from cached
  per-route aggregates and a few matrix entries;
- `is_valid`, which checks skills and capacities in O(1) against the cache;
- `apply`, which splices the two route vectors in place with two inserts and
  two erases;
- the two candidate lists.

Files and modules:

- `sequences.dfy` (`Sequences`): sequence reversal and the three
  `std::vector` operations `apply` is written with. These are insertion of a
  range, erasure of a range, and the range between two reverse iterators.
  They are defined by slicing. The lemmas `InsertElements`, `EraseElements`
  and `ReverseRangeElements` state, element by element, the `std::vector`
  semantics those slicing definitions stand for.
- `problem.dfy` (`Problem`): the input (a directed cost matrix, job
  locations and amounts, and vehicles with optional start and end depots).
  It also holds the brute-force route cost and load used as oracles, and the
  `Route` class: one vehicle's route vector, which the driver owns and a
  move changes in place.
- `solution_state.dfy` (`SolutionState`): the cache a move reads. It holds
  forward and backward cumulative costs, cumulative amounts and the
  skill-rank tables. Each cost and amount entry is defined as a function of
  its route, and `Consistent` says the cached rows of a vehicle agree with its
  route. How the cache is recomputed is not modelled.
- `reverse_2_opt.dfy` (`ReverseTwoOpt`): the move. The class
  `ReverseTwoOptMove` keeps the input, the cache, references to the two
  route vectors, the anchors, and the two fields `compute_gain` writes. Module-level functions and lemmas
  give the new routes, the brute-force gain, and how the O(1) formula relates
  to it.

The brute-force cost of a non-empty route is:

- the start-depot edge, when the vehicle has a start depot;
- plus the consecutive edges between its jobs;
- plus the end-depot edge, when the vehicle has an end depot.

An empty route costs nothing: the vehicle is unused. The gain of a move is
the old cost of both routes minus their new cost (`CostDelta`).

The cache conventions are the ones the call sites need:

- `fwd_costs[v][r]` is the cost of `route[0..r]` in stored order;
- `bwd_costs[v][r]` is the cost of `route[0..r]` visited back to front;
- `fwd_amounts[v][r]` is the load of `route[0..r]`, rank r included;
- `bwd_amounts[v][r]` is the load of the ranks strictly after r.

Under this exclusive convention `bwd_amounts[v][0]` is the load after rank 0,
not the route's total. It is the only convention under which the fourth
clause of `is_valid` (lines 134-136) is a capacity check.
`SolutionState.TotalsAgree` states the total-load invariant in that form: the
entry at rank 0 plus the amount of job 0 is the total.

## Model

| member | source | states |
|---|---|---|
| ReverseTwoOpt.ReverseTwoOptMove.constructor | src/problems/cvrp/local_search/reverse_2_opt.cpp:12-33 | A move is built only for distinct vehicles (with distinct route vectors) with non-empty routes and in-range ranks, and with a cache that agrees with both routes. It establishes `Valid()` and leaves the gain unset. |
| ReverseTwoOpt.ReverseTwoOptMove.ComputeGain | src/problems/cvrp/local_search/reverse_2_opt.cpp:35-124 | Sets `gainComputed` and writes only `storedGain` and `gainComputed`, so no route changes. The stored gain equals the brute-force cost change of the move, less the emptied-target shortfall (see Findings). |
| ReverseTwoOpt.ReverseTwoOptMove.ComputeGainCorrected | src/problems/cvrp/local_search/reverse_2_opt.cpp:100-121 | Credits the end edge of an emptied target route whether or not T has a start depot. The stored gain then equals the brute-force cost change exactly. |
| ReverseTwoOpt.CachedGainFormula | src/problems/cvrp/local_search/reverse_2_opt.cpp:52-121 | When the cache agrees with both routes, the four groups of terms `compute_gain` adds up sum to the brute-force gain minus the shortfall. The groups are: target prefix, source suffix, S's end depot, T's start depot. |
| ReverseTwoOpt.PathCostDelta | src/problems/cvrp/local_search/reverse_2_opt.cpp:52-91 | The change of the depot-free path costs, edge by edge: the new link Rs[i]->Rt[j], the reversal of Rt[0..j], the spared edge after Rt[j], and, when Rs has a suffix, its spared edge, its reversal and its new link to Rt[j+1]. |
| ReverseTwoOpt.CostDeltaByParts | src/problems/cvrp/local_search/reverse_2_opt.cpp:93-121 | The brute-force gain is the path-cost change plus the depot-edge changes. S's end edge now leaves Rt[0]. T's first job becomes Rs's last job, or Rt[j+1], or T is emptied. T's last job becomes Rs[i+1] when Rt is fully consumed. |
| ReverseTwoOpt.OpenRoutesGain | src/problems/cvrp/local_search/reverse_2_opt.cpp:52-91 | When neither vehicle has a depot, the gain is exactly the change of the path costs and the shortfall is zero. |
| ReverseTwoOpt.OpenScenario | src/problems/cvrp/local_search/reverse_2_opt.cpp:52-91 | For Rs=[a,b,c], Rt=[d,e], i=j=0 without depots: the new routes are [a,d] and [c,b,e]. The gain is m(a,b)+m(b,c)+m(d,e)-m(a,d)-m(c,b)-m(b,e). |
| ReverseTwoOpt.CachedCosts | src/problems/cvrp/local_search/reverse_2_opt.cpp:56-57 | The forward minus backward cached cost at rank r is the cost of the prefix up to r minus the cost of that prefix reversed. From the last entry down to r+1, it is the same difference for the suffix after r (lines 74-77). |
| ReverseTwoOpt.ReverseTwoOptMove.IsValid | src/problems/cvrp/local_search/reverse_2_opt.cpp:126-139 | The move is valid iff its two skill cutoffs hold, the load of S's new route fits S's capacity, and the load of T's new route fits T's capacity. |
| ReverseTwoOpt.CachedLoads | src/problems/cvrp/local_search/reverse_2_opt.cpp:131-136 | The sum of the two prefix amounts is the load of S's new route. The sum of the two after-rank amounts is the load of T's new route. |
| ReverseTwoOpt.SpliceLoads | src/problems/cvrp/local_search/reverse_2_opt.cpp:131-136 | Each new route's load is the load of its two kept or moved pieces, since reversal does not change a load. Together the two new routes carry the same load as the old ones. |
| ReverseTwoOpt.ReverseTwoOptMove.Apply | src/problems/cvrp/local_search/reverse_2_opt.cpp:141-153 | After the four vector operations, S's route is `Rs[0..i] ++ reverse(Rt[0..j])` and T's route is `reverse(Rs[i+1..]) ++ Rt[j+1..]`. It requires only the structural preconditions, and it changes the two route vectors and nothing else. |
| ReverseTwoOpt.SpliceSteps | src/problems/cvrp/local_search/reverse_2_opt.cpp:142-152 | The four vector operations of apply, with the offsets the code computes, run in the code's order. They always stay in range. After the last one, S holds the new source route `Rs[0..i] ++ reverse(Rt[0..j])` and T holds the new target route `reverse(Rs[i+1..]) ++ Rt[j+1..]`. |
| ReverseTwoOpt.SpliceFirstInsert | src/problems/cvrp/local_search/reverse_2_opt.cpp:144-146 | Inserting the first `nb_source` reverse-iterator elements of Rs at the front of Rt gives `reverse(Rs[i+1..]) ++ Rt`. |
| ReverseTwoOpt.SpliceSecondRange | src/problems/cvrp/local_search/reverse_2_opt.cpp:148-152 | Behind the moved jobs, the range `[rend - j - nb - 1, rend - nb)` reads Rt[0..j] back to front. Erasing `[nb, nb + j + 1)` leaves the moved jobs followed by Rt[j+1..]. |
| ReverseTwoOpt.NewSourceRoute | src/problems/cvrp/local_search/reverse_2_opt.cpp:141-153 | S's new route has i+1 + j+1 jobs. |
| ReverseTwoOpt.NewTargetRoute | src/problems/cvrp/local_search/reverse_2_opt.cpp:141-153 | T's new route has (len(Rs)-1-i) + (len(Rt)-1-j) jobs. |
| ReverseTwoOpt.SplicedRoutes | src/problems/cvrp/local_search/reverse_2_opt.cpp:141-153 | Job by job, S keeps Rs[0..i] and then visits Rt[j], ..., Rt[0]. T visits Rs[last], ..., Rs[i+1] and then keeps Rt[j+1..]. T becomes empty exactly when both cuts are at the last rank. |
| ReverseTwoOpt.SpliceKeepsJobs | src/problems/cvrp/local_search/reverse_2_opt.cpp:141-153 | The move neither loses nor duplicates a job: the multiset union of the two routes is unchanged. |
| ReverseTwoOpt.EmptiedTargetScenario | src/problems/cvrp/local_search/reverse_2_opt.cpp:100-121 | A concrete input where T has only an end depot and is emptied: the brute-force gain is 7 and the shortfall is 7, so so the brute-force gain less the shortfall is 0. For every cache that agrees with both routes, the four cached groups of the gain as written also add up to 0. |
| ReverseTwoOpt.ReverseTwoOptMove.AdditionCandidates | src/problems/cvrp/local_search/reverse_2_opt.cpp:155-157 | Exactly the two vehicles of the move, each once. |
| ReverseTwoOpt.ReverseTwoOptMove.UpdateCandidates | src/problems/cvrp/local_search/reverse_2_opt.cpp:159-161 | Exactly the two vehicles of the move, each once. |
| SolutionState.FwdCostIsPathCost | src/problems/cvrp/local_search/reverse_2_opt.cpp:56 | The forward cached cost at rank r is the brute-force cost of route[0..r]. |
| SolutionState.BwdCostIsReversedPathCost | src/problems/cvrp/local_search/reverse_2_opt.cpp:57 | The backward cached cost at rank r is the brute-force cost of route[0..r] reversed. |
| SolutionState.FwdCostSuffix | src/problems/cvrp/local_search/reverse_2_opt.cpp:74-75 | The last forward entry minus the entry at k is the cost of route[k..]. |
| SolutionState.BwdCostSuffix | src/problems/cvrp/local_search/reverse_2_opt.cpp:76-77 | The last backward entry minus the entry at k is the cost of route[k..] reversed. |
| SolutionState.FwdAmountIsLoad | src/problems/cvrp/local_search/reverse_2_opt.cpp:131-133 | The prefix amount at rank r is the load of route[0..r], rank r included. |
| SolutionState.BwdAmountIsLoad | src/problems/cvrp/local_search/reverse_2_opt.cpp:134-136 | The after-rank amount at rank r is the load of route[r+1..]. |
| SolutionState.TotalsAgree | src/problems/cvrp/local_search/reverse_2_opt.cpp:131-136 | The last prefix amount is the route's total load, as is the after-rank amount at 0 plus job 0's own amount. The first cost entries are 0. |
| Sequences.Reverse | src/problems/cvrp/local_search/reverse_2_opt.cpp:141-153 | The k-th element of the reversal is the (n-1-k)-th element of the input, with the same length. |
| Sequences.ReverseConcat | src/problems/cvrp/local_search/reverse_2_opt.cpp:141-153 | Reversing a concatenation reverses and swaps its parts. |
| Sequences.ReversePreservesElements | src/problems/cvrp/local_search/reverse_2_opt.cpp:141-153 | Reversal keeps the multiset of elements. |
| Sequences.Insert | src/problems/cvrp/local_search/reverse_2_opt.cpp:144-146 | The range insert of `apply` as a slicing definition. The result is as long as the vector and the range together. |
| Sequences.Erase | src/problems/cvrp/local_search/reverse_2_opt.cpp:147 | The range erase of `apply` as a slicing definition. The result is shorter by the length of the erased range. |
| Sequences.ReverseRange | src/problems/cvrp/local_search/reverse_2_opt.cpp:149-150 | The elements a pair of reverse iterators visits, as a slicing definition. The range is `last - first` long. |
| Sequences.InsertElements | src/problems/cvrp/local_search/reverse_2_opt.cpp:144-146 | `insert` keeps the elements before the position, places the range, and shifts the rest. |
| Sequences.EraseElements | src/problems/cvrp/local_search/reverse_2_opt.cpp:147 | `erase` keeps the elements before the range and shifts the ones after it down. |
| Sequences.ReverseRangeElements | src/problems/cvrp/local_search/reverse_2_opt.cpp:149-150 | The k-th element of the range starting at `rbegin() + first` is `v[len(v) - 1 - first - k]`. |
| Problem.PathCostConcat | src/problems/cvrp/local_search/reverse_2_opt.cpp:52-91 | The path cost of a concatenation is the two path costs plus the joining edge. |
| Problem.LoadConcat | src/problems/cvrp/local_search/reverse_2_opt.cpp:131-136 | The load of a concatenation is the sum of the loads of its parts, proved by induction. `is_valid` relies on this when it adds a cached prefix amount to a cached suffix amount. |
| Problem.LoadReverse | src/problems/cvrp/local_search/reverse_2_opt.cpp:131-136 | Reversal does not change a route's load. |
| Problem.Route.InsertJobs | src/problems/cvrp/local_search/reverse_2_opt.cpp:144-146 | The route becomes the insertion result, and nothing else changes. |
| Problem.Route.EraseJobs | src/problems/cvrp/local_search/reverse_2_opt.cpp:147 | The route becomes the erasure result, and nothing else changes. |

## Left out

- `src/structures/cl_args.cpp` (command-line defaults: OSRM address, port, profile, thread count, exploration level) is configuration with no behaviour of the move, and is not part of this model.
- Recomputation of the route cache: the cached rows are defined as functions of the route, and a move requires them to agree with its two routes. The code that fills them is not part of this model.
- The skill-rank tables are given integer tables. Their defining recurrence is not part of this model, so `IsValid` states the two skill clauses only as the comparisons they are.
- Amounts and capacities are single natural numbers. VROOM's amounts are vectors compared component by component, and that comparison is defined outside the modelled file.
- The cost matrix is a total function to natural numbers, and each job's location is a function of the job. Input loading and the `ls_operator` base class are not part of this model.
- ReverseTwoOpt.ReverseTwoOptMove.ComputeGain: the gain is an unbounded integer. The 64-bit wrap-around of the C++ gain is not modelled, because real cost sums stay far from that bound.
- ReverseTwoOpt.ReverseTwoOptMove.ComputeGain: the additions are accumulated in a local and stored once at the end, where the source adds into `stored_gain` directly. The field holds the same final value.
- The move's two route references are `Route` objects. Each holds its jobs as a `seq` that a vector operation replaces as a whole. Iterator invalidation and element-wise copying inside `std::vector` are not modelled.
- The metaheuristic driver, the other moves and multithreaded evaluation are outside the modelled file.

## Findings

| source | as written | input that shows it | evidently intended | confidence | as-written member | corrected member |
|---|---|---|---|---|---|---|
| src/problems/cvrp/local_search/reverse_2_opt.cpp:100-121 | The move can empty T; this happens when both cuts are at the last rank. The saved edge from T's last job to T's end depot is then credited only inside the `has_start()` branch. A target vehicle with an end depot but no start depot loses that edge from the gain. | T has only an end depot, at location 9. Rs = [0], Rt = [1], i = j = 0, and the edge 1 -> 9 costs 7 while every other edge costs 0. The actual gain is 7; the gain as written is 0. | Credit `m[t_index][end_t]` whenever T is emptied and has an end depot, with or without a start depot. | not executed | ReverseTwoOpt.ReverseTwoOptMove.ComputeGain, ReverseTwoOpt.EmptiedTargetScenario | ReverseTwoOpt.ReverseTwoOptMove.ComputeGainCorrected |
