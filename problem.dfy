/** Static problem data (travel-cost matrix, jobs, vehicles), the
    brute-force route cost and load used as oracles, and the driver-owned
    route vectors a move splices in place. */
module Problem {
  import opened Sequences

  type JobId = nat
  type Location = nat

  datatype Option<T> = None | Some(value: T)

  /** A vehicle: its capacity and its optional start and end depots
      (an absent depot is an open route end). */
  datatype Vehicle = Vehicle(capacity: nat, start: Option<Location>, end: Option<Location>)

  /** The problem input: a directed (not necessarily symmetric) cost matrix,
      the location and the amount of every job, and the vehicles. */
  datatype Input = Input(
    matrix: (Location, Location) -> nat,
    location: JobId -> Location,
    amount: JobId -> nat,
    vehicles: seq<Vehicle>)

  /** Matrix entry: cost of travelling from one location to another. */
  function Travel(input: Input, from: Location, to: Location): nat
  {
    input.matrix(from, to)
  }

  /** Where a job is. */
  function Loc(input: Input, job: JobId): Location
  {
    input.location(job)
  }

  /** Cost of travelling from job a's location to job b's. */
  function Edge(input: Input, a: JobId, b: JobId): int
  {
    Travel(input, Loc(input, a), Loc(input, b))
  }

  /** Sum of the consecutive edges of a route, depots excluded. */
  function PathCost(input: Input, route: seq<JobId>): int
    decreases |route|
  {
    if |route| <= 1 then 0 else Edge(input, route[0], route[1]) + PathCost(input, route[1..])
  }

  function StartCost(input: Input, v: Vehicle, first: JobId): int
  {
    match v.start
    case Some(depot) => Travel(input, depot, Loc(input, first))
    case None => 0
  }

  function EndCost(input: Input, v: Vehicle, last: JobId): int
  {
    match v.end
    case Some(depot) => Travel(input, Loc(input, last), depot)
    case None => 0
  }

  /** Total cost of a vehicle's route, depot edges included; an empty route
      (an unused vehicle) costs nothing. */
  function RouteCost(input: Input, v: Vehicle, route: seq<JobId>): int
  {
    if route == [] then 0
    else StartCost(input, v, route[0]) + PathCost(input, route) + EndCost(input, v, route[|route| - 1])
  }

  /** Total amount of the jobs of a route. */
  function Load(input: Input, route: seq<JobId>): nat
  {
    if route == [] then 0 else input.amount(route[0]) + Load(input, route[1..])
  }

  lemma {:induction false} PathCostConcat(input: Input, a: seq<JobId>, b: seq<JobId>)
    requires a != [] && b != []
    ensures PathCost(input, a + b) == PathCost(input, a) + Edge(input, a[|a| - 1], b[0]) + PathCost(input, b)
  {
    if |a| == 1 {
      assert (a + b)[1..] == b;
    } else {
      assert (a + b)[1..] == a[1..] + b;
      PathCostConcat(input, a[1..], b);
    }
  }

  lemma {:induction false} LoadConcat(input: Input, a: seq<JobId>, b: seq<JobId>)
    ensures Load(input, a + b) == Load(input, a) + Load(input, b)
  {
    if a == [] {
      assert a + b == b;
    } else {
      assert (a + b)[1..] == a[1..] + b;
      LoadConcat(input, a[1..], b);
    }
  }

  lemma {:induction false} LoadReverse(input: Input, a: seq<JobId>)
    ensures Load(input, Reverse(a)) == Load(input, a)
  {
    if a != [] {
      LoadReverse(input, a[1..]);
      LoadConcat(input, Reverse(a[1..]), [a[0]]);
      assert [a[0]][1..] == [];
    }
  }

  /** A vehicle's route vector, owned by the driver; a move holds
      references to two of them and changes them with vector operations. */
  class Route {
    var jobs: seq<JobId>

    constructor (jobs: seq<JobId>)
      ensures this.jobs == jobs
    {
      this.jobs := jobs;
    }

    /** `jobs.insert(jobs.begin() + pos, ...)` of a range visiting xs. */
    method InsertJobs(pos: nat, xs: seq<JobId>)
      requires pos <= |jobs|
      modifies this
      ensures jobs == Insert(old(jobs), pos, xs)
    {
      jobs := Insert(jobs, pos, xs);
    }

    /** `jobs.erase(jobs.begin() + first, jobs.begin() + last)`. */
    method EraseJobs(first: nat, last: nat)
      requires first <= last <= |jobs|
      modifies this
      ensures jobs == Erase(old(jobs), first, last)
    {
      jobs := Erase(jobs, first, last);
    }
  }
}
