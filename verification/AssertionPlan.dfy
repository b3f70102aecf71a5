/** What an assertion pass knows, and the next requests it plans from it: the tests
    that can answer the most undecided statements, each asked about all of them. */
module AssertionPlan {
  import opened RequestLimits

  const FIRST_TESTS := 5
  const MORE_TESTS := 15
  const LAST_TESTS := 3
  const MAX_TESTS := MORE_TESTS + LAST_TESTS
  const MAX_QUESTIONS := 150
  const THRESHOLD := 0.5

  /** The statements, how many tests run each, the orders tests are chosen in, and
      the key a pair's saved answer is under. */
  datatype Population = Population(
    statements: nat, tests: nat, ranBy: nat -> nat, order: (nat, nat) -> seq<nat>,
    lastOrder: (nat, seq<nat>, nat) -> seq<nat>, pairKey: Pair -> string)

  datatype Answer = Answer(test: nat, value: real)

  /** Of each statement its answers in the order asked and the tests to ask next;
      the pairs refused; and the round. */
  datatype Progress = Progress(answers: seq<seq<Answer>>, orders: seq<seq<nat>>, refused: set<Pair>, round: nat)

  ghost predicate NoRepeats(s: seq<nat>) {
    forall i, j | 0 <= i < j < |s| :: s[i] != s[j]
  }

  ghost predicate Bounded(s: seq<nat>, bound: nat) {
    forall i | 0 <= i < |s| :: s[i] < bound
  }

  predicate Asked(answers: seq<Answer>, test: nat) {
    exists i | 0 <= i < |answers| :: answers[i].test == test
  }

  predicate Asserted(answers: seq<Answer>) {
    exists i | 0 <= i < |answers| :: answers[i].value >= THRESHOLD
  }

  predicate Shaped(population: Population, p: Progress) {
    |p.answers| == |p.orders| == population.statements && p.round <= 2
  }

  function Limit(population: Population, p: Progress, s: nat): nat
    requires p.round <= 2
  {
    var most := [FIRST_TESTS, MORE_TESTS, MAX_TESTS][p.round];
    if most < population.ranBy(s) then most else population.ranBy(s)
  }

  function RefusedOf(refused: set<Pair>, s: nat): set<Pair> {
    set p | p in refused && p.0 == s
  }

  function Spent(p: Progress, s: nat): nat
    requires s < |p.answers|
  {
    |p.answers[s]| + |RefusedOf(p.refused, s)|
  }

  predicate Undecided(population: Population, p: Progress, s: nat)
    requires Shaped(population, p) && s < population.statements
  {
    !Asserted(p.answers[s]) && Spent(p, s) < Limit(population, p, s)
  }

  /** A pair worth asking: in the order, and neither answered nor refused. */
  predicate Open(p: Progress, s: nat, t: nat)
    requires s < |p.answers| == |p.orders|
  {
    t in p.orders[s] && !Asked(p.answers[s], t) && (s, t) !in p.refused
  }

  predicate Askable(population: Population, p: Progress, s: nat, t: nat)
    requires Shaped(population, p) && s < population.statements
  {
    Undecided(population, p, s) && Open(p, s, t)
  }

  // -- what a plan is ---------------------------------------------------------------------

  /** The first `k` statements' ones that `t` can be asked about, in order. */
  function AskableFor(population: Population, p: Progress, t: nat, k: nat): (ss: seq<nat>)
    requires Shaped(population, p) && k <= population.statements
    ensures |ss| <= k
  {
    if k == 0 then []
    else AskableFor(population, p, t, k - 1) + (if Askable(population, p, k - 1, t) then [k - 1] else [])
  }

  function Without(ss: seq<nat>, taken: set<nat>): (rest: seq<nat>)
    ensures |rest| <= |ss|
  {
    if ss == [] then []
    else (if ss[0] in taken then [] else [ss[0]]) + Without(ss[1..], taken)
  }

  function First(ss: seq<nat>, n: nat): seq<nat> {
    if |ss| <= n then ss else ss[..n]
  }

  function Taken(batch: seq<Request>): set<nat> {
    if batch == [] then {}
    else Taken(batch[..|batch| - 1]) + Members(batch[|batch| - 1].asked)
  }

  function Members(ss: seq<nat>): set<nat> {
    set i | 0 <= i < |ss| :: ss[i]
  }

  function Tests(batch: seq<Request>): set<nat> {
    set i | 0 <= i < |batch| :: batch[i].test
  }

  /** What `t` can still be asked about after the batch's requests. */
  function Remaining(population: Population, p: Progress, t: nat, batch: seq<Request>): seq<nat>
    requires Shaped(population, p)
  {
    Without(AskableFor(population, p, t, population.statements), Taken(batch))
  }

  /** A test's claim beats another's: more statements, or as many and first. */
  predicate Beats(population: Population, p: Progress, batch: seq<Request>, t: nat, u: nat)
    requires Shaped(population, p)
  {
    var mine, others := |Remaining(population, p, t, batch)|, |Remaining(population, p, u, batch)|;
    mine > others || (mine == others && t <= u)
  }

  /** The request the greedy choice adds to the batch. */
  ghost predicate Greedy(population: Population, p: Progress, batch: seq<Request>, next: Request)
    requires Shaped(population, p)
  {
    && next.test !in Tests(batch)
    && next.asked == First(Remaining(population, p, next.test, batch), MAX_QUESTIONS) != []
    && forall u: nat | u !in Tests(batch) && Remaining(population, p, u, batch) != [] ::
         Beats(population, p, batch, next.test, u)
  }

  ghost predicate Exhausted(population: Population, p: Progress, batch: seq<Request>)
    requires Shaped(population, p)
  {
    forall u: nat | u !in Tests(batch) :: Remaining(population, p, u, batch) == []
  }

  ghost predicate GreedyBatch(population: Population, p: Progress, batch: seq<Request>)
    requires Shaped(population, p)
  {
    forall i | 0 <= i < |batch| :: Greedy(population, p, batch[..i], batch[i])
  }

  /** `plan` for at most `requests` requests. */
  ghost predicate Planned(population: Population, p: Progress, requests: nat, batch: seq<Request>)
    requires Shaped(population, p)
  {
    && GreedyBatch(population, p, batch)
    && (requests > 0 ==> |batch| <= requests)
    && ((batch != [] && |batch| == requests) || Exhausted(population, p, batch))
  }

  lemma {:induction false} DistinctCount(s: seq<nat>)
    requires NoRepeats(s)
    ensures |Members(s)| == |s|
    decreases |s|
  {
    if s != [] {
      var last, rest := s[|s| - 1], s[..|s| - 1];
      DistinctCount(rest);
      assert Members(s) == Members(rest) + {last};
      assert last !in Members(rest);
    }
  }

  // -- what follows of a plan -----------------------------------------------------------------

  lemma {:induction false} AskableForHolds(population: Population, p: Progress, t: nat, k: nat)
    requires Shaped(population, p) && k <= population.statements
    ensures var ss := AskableFor(population, p, t, k);
      && (forall i | 0 <= i < |ss| :: ss[i] < k && Askable(population, p, ss[i], t))
      && NoRepeats(ss)
      && (forall s: nat | s < k && Askable(population, p, s, t) :: s in ss)
  {
    if k > 0 {
      AskableForHolds(population, p, t, k - 1);
    }
  }

  lemma {:induction false} WithoutHolds(ss: seq<nat>, taken: set<nat>)
    ensures var rest := Without(ss, taken);
      && (forall i | 0 <= i < |rest| :: rest[i] in ss && rest[i] !in taken)
      && (forall i | 0 <= i < |ss| && ss[i] !in taken :: ss[i] in rest)
      && (NoRepeats(ss) ==> NoRepeats(rest))
  {
    if ss != [] {
      WithoutHolds(ss[1..], taken);
      var rest := Without(ss[1..], taken);
      if NoRepeats(ss) {
        assert NoRepeats(ss[1..]);
        forall i | 0 <= i < |rest|
          ensures rest[i] != ss[0]
        {
          var j :| 0 <= j < |ss[1..]| && ss[1..][j] == rest[i];
          assert ss[0] != ss[j + 1];
        }
      }
    }
  }

  /** What a test still claims: just the statements it can be asked about that no
      request has taken, each once. */
  lemma {:induction false} RemainingHolds(population: Population, p: Progress, t: nat, batch: seq<Request>)
    requires Shaped(population, p)
    ensures var rest := Remaining(population, p, t, batch);
      && (forall i | 0 <= i < |rest| ::
            rest[i] < population.statements && Askable(population, p, rest[i], t) && rest[i] !in Taken(batch))
      && NoRepeats(rest)
      && (forall s: nat | s < population.statements && Askable(population, p, s, t) && s !in Taken(batch) :: s in rest)
  {
    AskableForHolds(population, p, t, population.statements);
    WithoutHolds(AskableFor(population, p, t, population.statements), Taken(batch));
  }

  /** One request: 1 to MAX_QUESTIONS statements, each once, each undecided and
      open with this test, and none taken by an earlier request. */
  lemma {:induction false} RequestIsSound(population: Population, p: Progress, batch: seq<Request>, next: Request)
    requires Shaped(population, p) && Greedy(population, p, batch, next)
    ensures 1 <= |next.asked| <= MAX_QUESTIONS && NoRepeats(next.asked)
    ensures forall i | 0 <= i < |next.asked| ::
      next.asked[i] < population.statements && Askable(population, p, next.asked[i], next.test)
      && next.asked[i] !in Taken(batch)
  {
    RemainingHolds(population, p, next.test, batch);
  }

  lemma {:induction false} TakenHolds(batch: seq<Request>, i: nat)
    requires i < |batch|
    ensures Members(batch[i].asked) <= Taken(batch)
  {
    if i < |batch| - 1 {
      TakenHolds(batch[..|batch| - 1], i);
      assert batch[..|batch| - 1][i] == batch[i];
    }
  }

  /** Every plan puts each statement in at most one request and each test in at
      most one, asks only askable pairs, and keeps to its bounds. */
  lemma {:induction false} PlanIsSound(population: Population, p: Progress, requests: nat, batch: seq<Request>)
    requires Shaped(population, p) && Planned(population, p, requests, batch)
    ensures requests > 0 ==> |batch| <= requests
    ensures forall i | 0 <= i < |batch| :: 1 <= |batch[i].asked| <= MAX_QUESTIONS && NoRepeats(batch[i].asked)
    ensures forall i, k | 0 <= i < |batch| && 0 <= k < |batch[i].asked| ::
      batch[i].asked[k] < population.statements && Askable(population, p, batch[i].asked[k], batch[i].test)
    ensures forall i, j | 0 <= i < j < |batch| ::
      batch[i].test != batch[j].test && Members(batch[i].asked) !! Members(batch[j].asked)
  {
    forall i | 0 <= i < |batch|
      ensures 1 <= |batch[i].asked| <= MAX_QUESTIONS && NoRepeats(batch[i].asked)
      ensures forall k | 0 <= k < |batch[i].asked| ::
        batch[i].asked[k] < population.statements && Askable(population, p, batch[i].asked[k], batch[i].test)
    {
      RequestIsSound(population, p, batch[..i], batch[i]);
    }
    forall i, j | 0 <= i < j < |batch|
      ensures batch[i].test != batch[j].test && Members(batch[i].asked) !! Members(batch[j].asked)
    {
      RequestIsSound(population, p, batch[..j], batch[j]);
      assert batch[..j][i] == batch[i];
      TakenHolds(batch[..j], i);
      assert batch[i].test in Tests(batch[..j]);
    }
  }

  /** A plan is empty exactly when no undecided statement has an open test. */
  lemma {:induction false} PlanIsEmpty(population: Population, p: Progress, requests: nat, batch: seq<Request>)
    requires Shaped(population, p) && Planned(population, p, requests, batch)
    ensures batch == [] <==>
      forall s: nat, t: nat | s < population.statements :: !Askable(population, p, s, t)
  {
    if batch == [] {
      forall s: nat, t: nat | s < population.statements
        ensures !Askable(population, p, s, t)
      {
        RemainingHolds(population, p, t, []);
      }
    } else {
      RequestIsSound(population, p, batch[..0], batch[0]);
      assert Askable(population, p, batch[0].asked[0], batch[0].test);
    }
  }

  /** A plan cut short by nothing leaves no askable pair whose statement no request
      took, but those of tests already asked about as much as a request holds. */
  lemma {:induction false} PlanCovers(population: Population, p: Progress, requests: nat, batch: seq<Request>, s: nat, t: nat)
    requires Shaped(population, p) && Planned(population, p, requests, batch)
    requires s < population.statements && Askable(population, p, s, t) && s !in Taken(batch)
    ensures |batch| == requests || exists i | 0 <= i < |batch| :: batch[i].test == t && |batch[i].asked| == MAX_QUESTIONS
  {
    if |batch| != requests {
      RemainingHolds(population, p, t, batch);
      assert t in Tests(batch);
      var i :| 0 <= i < |batch| && batch[i].test == t;
      Unfilled(population, p, batch, i, s);
    }
  }

  lemma {:induction false} Unfilled(population: Population, p: Progress, batch: seq<Request>, i: nat, s: nat)
    requires Shaped(population, p) && GreedyBatch(population, p, batch) && i < |batch|
    requires s < population.statements && Askable(population, p, s, batch[i].test)
    ensures s in Taken(batch) || |batch[i].asked| == MAX_QUESTIONS
  {
    var next, before := batch[i], batch[..i];
    assert Greedy(population, p, before, next);
    RemainingHolds(population, p, next.test, before);
    TakenHolds(batch, i);
    TakenGrows(batch, i);
    if |next.asked| < MAX_QUESTIONS && s !in Taken(before) {
      var k :| 0 <= k < |next.asked| && next.asked[k] == s;
      assert s in Members(next.asked);
    }
  }

  lemma {:induction false} TakenGrows(batch: seq<Request>, i: nat)
    requires i <= |batch|
    ensures Taken(batch[..i]) <= Taken(batch)
  {
    if i < |batch| {
      TakenGrows(batch[..|batch| - 1], i);
      assert batch[..|batch| - 1][..i] == batch[..i];
    } else {
      assert batch[..i] == batch;
    }
  }
}
