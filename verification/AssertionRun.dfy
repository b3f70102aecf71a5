/** The pass as it runs: planning, asking, recording, seeding and widening in place. */
module AssertionRun {
  import opened RequestLimits
  import opened AssertionPlan
  import opened AssertionPass
  import opened AssertionOffers
  import opened SavedAnswers

  datatype Sent = Sent(requests: nat, reused: nat)

  /** How a pass ends: done, too many failures in a row, or nothing to ask with. */
  datatype Outcome = Finished(sent: Sent) | StoppedAfter(failures: nat) | CouldNotAsk

  /** What one turn of the loop comes to. */
  datatype Verdict = Going | Ended | Unasked | Over

  /** One round's requests, and what was known when they were planned. */
  datatype Call = Call(before: Progress, batch: seq<Request>)

  /** What answers a round's requests: it may depend on how often it was called. */
  type Asker = (nat, Progress, seq<Request>) -> Replies

  /** One reply per request, with one answer per question. */
  ghost predicate Faithful(ask: Asker) {
    forall k, p, batch :: ask(k, p, batch).Replies? ==> AllFitting(batch, ask(k, p, batch).each)
  }

  /** What is known of a call: it asks something, within the limits, about pairs
      that were open, of statements still undecided, each statement once. */
  ghost predicate CallSound(population: Population, sizes: Sizes, call: Call) {
    && call.batch != [] && WithinBoth(sizes, call.batch)
    && Shaped(population, call.before) && Settleable(population, call.before, AllAsks(call.batch))
  }

  ghost predicate CallsSound(population: Population, sizes: Sizes, calls: seq<Call>, now: Progress) {
    && (forall i | 0 <= i < |calls| :: CallSound(population, sizes, calls[i]) && Grows(calls[i].before, now))
    && (forall i, j | 0 <= i < j < |calls| :: Grows(calls[i].before, calls[j].before))
  }

  /** Once an answer asserts a statement, or a pair is answered or refused, no
      later round asks it again. */
  lemma {:induction false} NotAskedAgain(
    population: Population, sizes: Sizes, calls: seq<Call>, now: Progress, known: Progress, i: nat, x: nat)
    requires CallsSound(population, sizes, calls, now) && i < |calls| && x < |AllAsks(calls[i].batch)|
    requires Grows(known, calls[i].before)
    ensures var (s, t) := AllAsks(calls[i].batch)[x];
      s < |known.answers| && !Asserted(known.answers[s]) && !Asked(known.answers[s], t) && (s, t) !in known.refused
  {
    var p := calls[i].before;
    assert CallSound(population, sizes, calls[i]);
    var (s, t) := AllAsks(calls[i].batch)[x];
    assert AllAsks(calls[i].batch)[x].0 < population.statements;
    assert known.answers[s] <= p.answers[s];
    assert forall k | 0 <= k < |known.answers[s]| :: p.answers[s][k] == known.answers[s][k];
  }

  function RequestCount(calls: seq<Call>): nat {
    if calls == [] then 0 else RequestCount(calls[..|calls| - 1]) + |calls[|calls| - 1].batch|
  }

  // -- the pieces of one round ----------------------------------------------------------------------

  /** Progress after `k` replies are recorded. */
  ghost predicate Recorded(p: Progress, q: Progress, over: seq<Pair>, batch: seq<Request>, replies: seq<Reply>, k: nat)
    requires AllFitting(batch, replies) && k <= |batch|
  {
    && |q.answers| == |p.answers| && q.orders == p.orders && q.round == p.round
    && q.refused == p.refused + Elements(over)
    && forall s | 0 <= s < |p.answers| :: q.answers[s] == p.answers[s] + New(s, batch, replies, k)
  }

  lemma {:induction false} RecordedSettles(
    population: Population, p: Progress, q: Progress, over: seq<Pair>, batch: seq<Request>, replies: seq<Reply>, k: nat)
    requires AllFitting(batch, replies) && k <= |batch| && Recorded(p, q, over, batch, replies, k)
    requires Shaped(population, p) && Settleable(population, p, AllAsks(batch))
    ensures Settled(population, p, q, AllAsks(batch), over)
  {
    forall s | 0 <= s < |p.answers|
      ensures Added(s, p.answers[s], q.answers[s], AllAsks(batch))
    {
      UniquePrefix(batch, k);
      NewHolds(s, batch, replies, k);
      AsksOfPrefix(batch, k);
      var more := New(s, batch, replies, k);
      if more == [] {
        assert p.answers[s] + [] == p.answers[s];
      } else {
        assert more == [more[0]];
      }
    }
  }

  lemma {:induction false} AsksOfPrefix(batch: seq<Request>, k: nat)
    requires k <= |batch|
    ensures forall pair | pair in AllAsks(batch[..k]) :: pair in AllAsks(batch)
    decreases |batch| - k
  {
    if k == |batch| {
      assert batch[..k] == batch;
    } else {
      AsksOfPrefix(batch, k + 1);
      PrefixAsks(batch, k + 1);
    }
  }

  /** An answered request settles a pair. */
  lemma {:induction false} AnswerSettles(
    population: Population, p: Progress, q: Progress, over: seq<Pair>, batch: seq<Request>, replies: seq<Reply>, i: nat)
    requires AllFitting(batch, replies) && i < |batch| && Recorded(p, q, over, batch, replies, |batch|)
    requires Sound(population, p) && Settleable(population, p, AllAsks(batch)) && Grows(p, q)
    requires replies[i].Answered? && AsksSomething(batch[i])
    ensures |Unsettled(population, q)| < |Unsettled(population, p)|
  {
    var s, t := AnsweredPair(population, p, q, over, batch, replies, i);
    OneSettled(population, p, q, s, t);
  }

  lemma {:induction false} AnsweredPair(
    population: Population, p: Progress, q: Progress, over: seq<Pair>, batch: seq<Request>, replies: seq<Reply>, i: nat)
    returns (s: nat, t: nat)
    requires AllFitting(batch, replies) && i < |batch| && Recorded(p, q, over, batch, replies, |batch|)
    requires Shaped(population, p) && Settleable(population, p, AllAsks(batch))
    requires replies[i].Answered? && AsksSomething(batch[i])
    ensures s < population.statements && s < |q.answers| && Open(p, s, t) && Asked(q.answers[s], t)
  {
    s, t := batch[i].asked[0], batch[i].test;
    FirstPair(population, p, batch, i);
    UniquePrefix(batch, |batch|);
    EachIsKept(batch, replies, |batch|, i, 0);
    assert q.answers[s][|p.answers[s]|] == Answer(t, replies[i].values[0]);
  }

  lemma {:induction false} FirstPair(population: Population, p: Progress, batch: seq<Request>, i: nat)
    requires Shaped(population, p) && Settleable(population, p, AllAsks(batch))
    requires i < |batch| && AsksSomething(batch[i])
    ensures batch[i].asked[0] < population.statements && Askable(population, p, batch[i].asked[0], batch[i].test)
  {
    InAllAsks(batch, i, 0);
    var x :| 0 <= x < |AllAsks(batch)| && AllAsks(batch)[x] == (batch[i].asked[0], batch[i].test);
    assert Askable(population, p, AllAsks(batch)[x].0, AllAsks(batch)[x].1);
  }

  lemma {:induction false} InAllAsks(batch: seq<Request>, i: nat, j: nat)
    requires i < |batch| && j < |batch[i].asked|
    ensures (batch[i].asked[j], batch[i].test) in AllAsks(batch)
  {
    if i == 0 {
      assert Asks(batch[0])[j] == (batch[0].asked[j], batch[0].test);
      assert AllAsks(batch)[j] == Asks(batch[0])[j];
    } else {
      InAllAsks(batch[1..], i - 1, j);
    }
  }

  lemma {:induction false} SplitOfPlan(population: Population, sizes: Sizes, p: Progress, planned: seq<Request>)
    requires Shaped(population, p) && Planned(population, p, ROUND_REQUESTS, planned) && planned != []
    ensures AllAskSomething(planned)
    ensures var kept, over := Kept(sizes, planned), Refused(sizes, planned);
      && Settleable(population, p, AllAsks(kept)) && Settleable(population, p, over) && Apart(AllAsks(kept), over)
      && WithinBoth(sizes, kept) && AllAskSomething(kept)
      && (kept == [] ==> over != [])
  {
    PlanIsSound(population, p, ROUND_REQUESTS, planned);
    assert AllAskSomething(planned);
    PairsAreConserved(sizes, planned);
    LimitsHold(sizes, planned);
    PlanSettles(population, p, ROUND_REQUESTS, planned, |planned|);
    assert planned[..|planned|] == planned;
    var kept := Kept(sizes, planned);
    SplitSettles(population, p, AllAsks(planned), AllAsks(kept), Refused(sizes, planned));
    InAllAsks(planned, 0, 0);
  }

  /** A round that refused pairs and asked none. */
  lemma {:induction false} RefusalSettles(population: Population, p: Progress, q: Progress, over: seq<Pair>)
    requires Sound(population, p) && Settleable(population, p, over) && Grows(p, q) && over != []
    requires q.refused == p.refused + Elements(over)
    ensures |Unsettled(population, q)| < |Unsettled(population, p)|
  {
    assert Askable(population, p, over[0].0, over[0].1);
    assert over[0] in Elements(over);
    OneSettled(population, p, q, over[0].0, over[0].1);
  }

  // -- planning ----------------------------------------------------------------------------------------

  /** The statements among the first `s`, and `s` itself once one of its first `j`
      tests is `t`, that `t` can be asked about. */
  ghost function Listed(population: Population, p: Progress, t: nat, s: nat, j: nat): seq<nat>
    requires Shaped(population, p) && s < population.statements && j <= |p.orders[s]|
  {
    AskableFor(population, p, t, s)
    + (if Undecided(population, p, s) && t in p.orders[s][..j] && Open(p, s, t) then [s] else [])
  }

  ghost predicate Holds(eligible: map<nat, seq<nat>>, t: nat, ss: seq<nat>) {
    if t in eligible then eligible[t] == ss != [] else ss == []
  }

  ghost predicate Lists(population: Population, p: Progress, eligible: map<nat, seq<nat>>, s: nat, j: nat)
    requires Shaped(population, p) && s < population.statements && j <= |p.orders[s]|
  {
    forall t: nat :: Holds(eligible, t, Listed(population, p, t, s, j))
  }

  ghost predicate Eligible(population: Population, p: Progress, eligible: map<nat, seq<nat>>, s: nat)
    requires Shaped(population, p) && s <= population.statements
  {
    forall t: nat :: Holds(eligible, t, AskableFor(population, p, t, s))
  }

  lemma {:induction false} NotListed(population: Population, p: Progress, eligible: map<nat, seq<nat>>, s: nat)
    requires Shaped(population, p) && s < population.statements && Eligible(population, p, eligible, s)
    requires !Undecided(population, p, s)
    ensures Eligible(population, p, eligible, s + 1)
  {
    var n := s + 1;
    forall t: nat
      ensures Holds(eligible, t, AskableFor(population, p, t, n))
    {
      assert Holds(eligible, t, AskableFor(population, p, t, s));
      assert AskableFor(population, p, t, s + 1) == AskableFor(population, p, t, s) + [];
    }
  }

  lemma {:induction false} ListedNone(population: Population, p: Progress, eligible: map<nat, seq<nat>>, s: nat)
    requires Shaped(population, p) && s < population.statements && Eligible(population, p, eligible, s)
    ensures Lists(population, p, eligible, s, 0)
  {
    forall t: nat
      ensures Holds(eligible, t, Listed(population, p, t, s, 0))
    {
      assert Holds(eligible, t, AskableFor(population, p, t, s));
      assert Listed(population, p, t, s, 0) == AskableFor(population, p, t, s) + [];
    }
  }

  lemma {:induction false} ListedOne(population: Population, p: Progress, eligible: map<nat, seq<nat>>, s: nat, j: nat)
    requires Sound(population, p) && s < population.statements && Undecided(population, p, s)
    requires j < |p.orders[s]| && Lists(population, p, eligible, s, j)
    ensures
      var t := p.orders[s][j];
      var was := if t in eligible then eligible[t] else [];
      Lists(population, p, if Open(p, s, t) then eligible[t := was + [s]] else eligible, s, j + 1)
  {
    var t := p.orders[s][j];
    var was := if t in eligible then eligible[t] else [];
    var more := if Open(p, s, t) then eligible[t := was + [s]] else eligible;
    assert OpenOnce(p, s);
    var i := j + 1;
    forall u: nat
      ensures Holds(more, u, Listed(population, p, u, s, i))
    {
      assert Holds(eligible, u, Listed(population, p, u, s, j));
      InPrefix(p.orders[s], j, u);
      var before := AskableFor(population, p, u, s);
      assert before + [] == before;
    }
  }

  lemma {:induction false} InPrefix(order: seq<nat>, j: nat, u: nat)
    requires j < |order|
    ensures u in order[..j + 1] <==> u in order[..j] || u == order[j]
  {
    assert order[..j + 1] == order[..j] + [order[j]];
  }

  lemma {:induction false} ListedAll(population: Population, p: Progress, eligible: map<nat, seq<nat>>, s: nat)
    requires Shaped(population, p) && s < population.statements && Lists(population, p, eligible, s, |p.orders[s]|)
    ensures Eligible(population, p, eligible, s + 1)
  {
    assert p.orders[s][..|p.orders[s]|] == p.orders[s];
    var n := s + 1;
    forall t: nat
      ensures Holds(eligible, t, AskableFor(population, p, t, n))
    {
      assert Holds(eligible, t, Listed(population, p, t, s, |p.orders[s]|));
    }
  }

  /** The lists that no request has used. */
  ghost predicate Left(all: map<nat, seq<nat>>, eligible: map<nat, seq<nat>>, batch: seq<Request>) {
    eligible.Keys == all.Keys - Tests(batch) && forall t | t in eligible :: eligible[t] == all[t]
  }

  lemma {:induction false} Fewer(eligible: map<nat, seq<nat>>, t: nat)
    requires t in eligible
    ensures |eligible - {t}| < |eligible|
  {
    assert (eligible - {t}).Keys == eligible.Keys - {t};
    assert |(eligible - {t}).Keys| == |eligible.Keys| - 1;
  }

  lemma {:induction false} NothingLeft(
    population: Population, p: Progress, all: map<nat, seq<nat>>, eligible: map<nat, seq<nat>>, batch: seq<Request>)
    requires Shaped(population, p) && Eligible(population, p, all, population.statements) && Left(all, eligible, batch)
    requires forall t | t in eligible :: |Without(eligible[t], Taken(batch))| == 0
    ensures Exhausted(population, p, batch)
  {
    forall u: nat | u !in Tests(batch)
      ensures Remaining(population, p, u, batch) == []
    {
      assert Holds(all, u, AskableFor(population, p, u, population.statements));
    }
  }

  lemma {:induction false} GreedyChoice(
    population: Population, p: Progress, all: map<nat, seq<nat>>, eligible: map<nat, seq<nat>>, batch: seq<Request>,
    request: Request)
    requires Shaped(population, p) && Eligible(population, p, all, population.statements) && Left(all, eligible, batch)
    requires Largest(eligible, Taken(batch), request.test)
    requires request.asked == First(Without(eligible[request.test], Taken(batch)), MAX_QUESTIONS) != []
    ensures Greedy(population, p, batch, request)
  {
    var t := request.test;
    assert Holds(all, t, AskableFor(population, p, t, population.statements));
    forall u: nat | u !in Tests(batch) && Remaining(population, p, u, batch) != []
      ensures Beats(population, p, batch, t, u)
    {
      assert Holds(all, u, AskableFor(population, p, u, population.statements));
      assert u in eligible;
    }
  }

  lemma {:induction false} AddedRequest(population: Population, p: Progress, batch: seq<Request>, request: Request)
    requires Shaped(population, p) && GreedyBatch(population, p, batch) && Greedy(population, p, batch, request)
    ensures GreedyBatch(population, p, batch + [request])
    ensures Taken(batch + [request]) == Taken(batch) + Members(request.asked)
    ensures Tests(batch + [request]) == Tests(batch) + {request.test}
  {
    var more := batch + [request];
    assert more[..|batch|] == batch;
    forall i | 0 <= i < |more|
      ensures Greedy(population, p, more[..i], more[i])
    {
      assert i < |batch| ==> more[..i] == batch[..i];
    }
    assert request.test == more[|batch|].test;
    assert forall i | 0 <= i < |batch| :: more[i] == batch[i];
  }

  /** The test with the most statements not taken, the first of them at a tie. */
  method Best(eligible: map<nat, seq<nat>>, taken: set<nat>) returns (found: bool, count: nat, best: nat)
    ensures found == (eligible != map[])
    ensures found ==> Largest(eligible, taken, best) && count == |Without(eligible[best], taken)|
  {
    found, count, best := false, 0, 0;
    var rest := eligible.Keys;
    while rest != {}
      invariant rest <= eligible.Keys && found == (rest != eligible.Keys)
      invariant found ==> best in eligible && count == |Without(eligible[best], taken)|
      invariant found ==> forall u | u in eligible && u !in rest ::
        |Without(eligible[u], taken)| < count || (|Without(eligible[u], taken)| == count && best <= u)
      decreases |rest|
    {
      var t :| t in rest;
      var c := |Without(eligible[t], taken)|;
      if !found || c > count || (c == count && t < best) {
        count, best := c, t;
      }
      found, rest := true, rest - {t};
    }
    assert !found ==> eligible.Keys == {};
  }

  /** The second loop of `plan`, part way. */
  ghost predicate Choosing(
    population: Population, p: Progress, all: map<nat, seq<nat>>, eligible: map<nat, seq<nat>>, batch: seq<Request>)
    requires Shaped(population, p)
  {
    && Eligible(population, p, all, population.statements) && Left(all, eligible, batch)
    && GreedyBatch(population, p, batch)
  }

  /** A claim no other list beats. */
  ghost predicate Largest(eligible: map<nat, seq<nat>>, taken: set<nat>, t: nat) {
    && t in eligible
    && forall u | u in eligible ::
         |Without(eligible[u], taken)| < |Without(eligible[t], taken)|
         || (|Without(eligible[u], taken)| == |Without(eligible[t], taken)| && t <= u)
  }

  lemma {:induction false} OneChosen(
    population: Population, p: Progress, all: map<nat, seq<nat>>, eligible: map<nat, seq<nat>>, batch: seq<Request>,
    request: Request)
    requires Shaped(population, p) && Choosing(population, p, all, eligible, batch)
    requires Largest(eligible, Taken(batch), request.test)
    requires request.asked == First(Without(eligible[request.test], Taken(batch)), MAX_QUESTIONS) != []
    ensures Choosing(population, p, all, eligible - {request.test}, batch + [request])
    ensures Taken(batch + [request]) == Taken(batch) + Members(request.asked)
    ensures |eligible - {request.test}| < |eligible|
  {
    GreedyChoice(population, p, all, eligible, batch, request);
    AddedRequest(population, p, batch, request);
    LeftAfter(all, eligible, batch, batch + [request], request.test);
  }

  lemma {:induction false} LeftAfter(
    all: map<nat, seq<nat>>, eligible: map<nat, seq<nat>>, batch: seq<Request>, more: seq<Request>, t: nat)
    requires Left(all, eligible, batch) && t in eligible && Tests(more) == Tests(batch) + {t}
    ensures Left(all, eligible - {t}, more) && |eligible - {t}| < |eligible|
  {
    Fewer(eligible, t);
  }

  /** The second loop of `plan`. At least one request is asked for. */
  method Choose(ghost population: Population, ghost p: Progress, all: map<nat, seq<nat>>, requests: nat)
    returns (batch: seq<Request>)
    requires Shaped(population, p) && Eligible(population, p, all, population.statements)
    ensures Planned(population, p, requests, batch)
  {
    var eligible := all;
    var taken: set<nat> := {};
    batch := [];
    var more := true;
    while more
      invariant Choosing(population, p, all, eligible, batch) && taken == Taken(batch)
      invariant requests > 0 ==> |batch| <= requests
      invariant if more then batch == [] || |batch| != requests
                else (batch != [] && |batch| == requests) || Exhausted(population, p, batch)
      decreases more, |eligible|
    {
      var found, count, t := Best(eligible, taken);
      if !found || count == 0 {
        NothingLeft(population, p, all, eligible, batch);
        more := false;
      } else {
        var request := Request(t, First(Without(eligible[t], taken), MAX_QUESTIONS));
        OneChosen(population, p, all, eligible, batch, request);
        batch, taken := batch + [request], taken + Members(request.asked);
        eligible := eligible - {t};
        more := |batch| != requests;
      }
    }
  }

  // -- what one turn of the pass keeps ----------------------------------------------------------------

  lemma {:induction false} NothingToAsk(population: Population, p: Progress)
    requires Shaped(population, p)
    requires forall s | 0 <= s < population.statements :: !Undecided(population, p, s)
    ensures Planned(population, p, ROUND_REQUESTS, [])
  {
    forall u: nat
      ensures Remaining(population, p, u, []) == []
    {
      AskableForHolds(population, p, u, population.statements);
    }
  }

  lemma {:induction false} StillSound(population: Population, sizes: Sizes, calls: seq<Call>, p: Progress, q: Progress)
    requires CallsSound(population, sizes, calls, p) && Grows(p, q)
    ensures CallsSound(population, sizes, calls, q)
  {
    forall i | 0 <= i < |calls|
      ensures Grows(calls[i].before, q)
    {
      GrowsOn(calls[i].before, p, q);
    }
  }

  lemma {:induction false} OneMoreCall(population: Population, sizes: Sizes, calls: seq<Call>, call: Call, q: Progress)
    requires CallsSound(population, sizes, calls, call.before) && CallsSound(population, sizes, calls, q)
    requires CallSound(population, sizes, call) && Grows(call.before, q)
    ensures CallsSound(population, sizes, calls + [call], q)
    ensures RequestCount(calls + [call]) == RequestCount(calls) + |call.batch|
  {
    var all := calls + [call];
    assert all[..|calls|] == calls;
    forall i | 0 <= i < |all|
      ensures CallSound(population, sizes, all[i]) && Grows(all[i].before, q)
    {
      if i < |calls| {
        assert all[i] == calls[i];
      }
    }
    forall i, j | 0 <= i < j < |all|
      ensures Grows(all[i].before, all[j].before)
    {
      assert all[i] == calls[i];
      if j < |calls| {
        assert all[j] == calls[j];
      }
    }
  }

  lemma {:induction false} AskedBelow(population: Population, p: Progress, batch: seq<Request>)
    requires Shaped(population, p) && Settleable(population, p, AllAsks(batch))
    ensures forall i, j | 0 <= i < |batch| && 0 <= j < |batch[i].asked| :: batch[i].asked[j] < population.statements
  {
    forall i, j | 0 <= i < |batch| && 0 <= j < |batch[i].asked|
      ensures batch[i].asked[j] < population.statements
    {
      InAllAsks(batch, i, j);
      var x :| 0 <= x < |AllAsks(batch)| && AllAsks(batch)[x] == (batch[i].asked[j], batch[i].test);
      assert AllAsks(batch)[x].0 < population.statements;
    }
  }

  lemma {:induction false} AskedAreNotKnown(population: Population, p: Progress, batch: seq<Request>)
    requires Shaped(population, p) && Settleable(population, p, AllAsks(batch))
    ensures NotKnown(p, batch)
  {
    forall i, j | 0 <= i < |batch| && 0 <= j < |batch[i].asked|
      ensures batch[i].asked[j] < |p.answers| && !Asked(p.answers[batch[i].asked[j]], batch[i].test)
    {
      InAllAsks(batch, i, j);
      var x :| 0 <= x < |AllAsks(batch)| && AllAsks(batch)[x] == (batch[i].asked[j], batch[i].test);
      assert AllAsks(batch)[x].0 < population.statements && Askable(population, p, AllAsks(batch)[x].0, AllAsks(batch)[x].1);
    }
  }

  /** What a round leaves in the cache. */
  lemma {:induction false} RoundSaves(
    population: Population, sizes: Sizes, start: Progress, p: Progress, q: Progress, planned: seq<Request>,
    answered: bool, asked: seq<Request>, each: seq<Reply>, done: nat, keep: bool, was: Cache, cache: Cache, now: Cache)
    requires Sound(population, p) && Planned(population, p, ROUND_REQUESTS, planned) && planned != []
    requires asked == if answered then Kept(sizes, planned) else []
    requires AllFitting(asked, each) && done <= |asked| && Recorded(p, q, Refused(sizes, planned), asked, each, done)
    requires Grows(start, p) && Grows(p, q) && CacheIs(keep, population.pairKey, start, p, was, cache)
    requires now == if keep then Saved(cache, population.pairKey, asked, each, done) else cache
    ensures CacheIs(keep, population.pairKey, start, q, was, now)
  {
    if keep {
      SplitOfPlan(population, sizes, p, planned);
      AskedAreNotKnown(population, p, asked);
      RoundKeepsCache(population.pairKey, start, p, q, asked, each, done, was, cache);
    }
  }

  /** A round, whatever became of its requests. */
  lemma {:induction false} RoundOf(
    population: Population, p: Progress, q: Progress, over: seq<Pair>, batch: seq<Request>, replies: seq<Reply>, k: nat)
    requires AllFitting(batch, replies) && k <= |batch| && Recorded(p, q, over, batch, replies, k)
    requires Sound(population, p) && Settleable(population, p, AllAsks(batch)) && Settleable(population, p, over)
    requires Apart(AllAsks(batch), over)
    ensures Sound(population, q) && Grows(p, q)
    ensures WithinLimit(population, p) ==> WithinLimit(population, q)
    ensures AllFromMore(population, p) ==> AllFromMore(population, q)
    ensures |Unsettled(population, q)| <= |Unsettled(population, p)|
  {
    RecordedSettles(population, p, q, over, batch, replies, k);
    if AllFromMore(population, p) {
      RoundKeepsFromMore(population, p, q, AllAsks(batch), over);
    }
    SettledIsSound(population, p, q, AllAsks(batch), over);
    LessUnsettled(population, p, q);
    if WithinLimit(population, p) {
      SettledWithinLimit(population, p, q, AllAsks(batch), over);
    }
  }

  ghost predicate NeverOver(heard: seq<Reply>) {
    forall k | 0 <= k < |heard| :: Trailing(heard[..k]) <= MAX_FAILURES
  }

  /** No undecided statement has a test left to ask it of, in the last round. */
  ghost predicate AllAsked(population: Population, p: Progress) {
    && Shaped(population, p) && p.round == 2
    && forall s: nat, t: nat | s < population.statements :: !Askable(population, p, s, t)
  }

  lemma {:induction false} NothingAskable(population: Population, p: Progress)
    requires Shaped(population, p) && Planned(population, p, ROUND_REQUESTS, [])
    ensures NoneAskable(population, p)
  {
    PlanIsEmpty(population, p, ROUND_REQUESTS, []);
  }

  lemma {:induction false} TurnKeeps(population: Population, sizes: Sizes, calls: seq<Call>, start: Progress, p: Progress, q: Progress)
    requires CallsSound(population, sizes, calls, p) && Grows(start, p) && Grows(p, q)
    ensures CallsSound(population, sizes, calls, q) && Grows(start, q)
  {
    StillSound(population, sizes, calls, p, q);
    GrowsOn(start, p, q);
  }

  lemma {:induction false} FailuresOfPrefix(failures: nat, replies: seq<Reply>, k: nat)
    requires k <= |replies|
    ensures forall i | 0 <= i <= k :: FailuresAfter(failures, replies[..k], i) == FailuresAfter(failures, replies, i)
  {
    FailuresShared(failures, replies, replies[..k], k);
  }

  lemma {:induction false} FailuresShared(failures: nat, replies: seq<Reply>, others: seq<Reply>, k: nat)
    requires k <= |replies| && k <= |others| && forall i | 0 <= i < k :: others[i] == replies[i]
    ensures forall i | 0 <= i <= k :: FailuresAfter(failures, others, i) == FailuresAfter(failures, replies, i)
  {
    if k > 0 {
      FailuresShared(failures, replies, others, k - 1);
    }
  }

  lemma {:induction false} Heard(heard: seq<Reply>, replies: seq<Reply>, failures: nat)
    requires failures == Trailing(heard) && Trailing(heard) <= MAX_FAILURES && NeverOver(heard)
    requires forall k | 0 <= k < |replies| :: FailuresAfter(failures, replies, k) <= MAX_FAILURES
    ensures Trailing(heard + replies) == FailuresAfter(failures, replies, |replies|) && NeverOver(heard + replies)
  {
    var all := heard + replies;
    FailuresAreTrailing(heard, replies, |replies|);
    assert replies[..|replies|] == replies;
    forall k | 0 <= k < |all|
      ensures Trailing(all[..k]) <= MAX_FAILURES
    {
      if k < |heard| {
        assert all[..k] == heard[..k];
      } else {
        FailuresAreTrailing(heard, replies, k - |heard|);
        assert all[..k] == heard + replies[..k - |heard|];
      }
    }
  }

  /** A round that was answered or failed leaves less to settle or fewer failures
      to go. */
  lemma {:induction false} RoundProgressed(
    population: Population, p: Progress, q: Progress, over: seq<Pair>, batch: seq<Request>, replies: seq<Reply>,
    failures: nat)
    requires AllFitting(batch, replies) && Recorded(p, q, over, batch, replies, |batch|) && (batch == [] ==> over != [])
    requires Sound(population, p) && Settleable(population, p, AllAsks(batch)) && Settleable(population, p, over)
    requires Grows(p, q) && AllAskSomething(batch)
    ensures |Unsettled(population, q)| <= |Unsettled(population, p)|
    ensures |Unsettled(population, q)| < |Unsettled(population, p)| || FailuresAfter(failures, replies, |batch|) > failures
  {
    LessUnsettled(population, p, q);
    if batch == [] {
      RefusalSettles(population, p, q, over);
    } else {
      HeardProgressed(population, p, q, over, batch, replies, failures);
    }
  }

  lemma {:induction false} HeardProgressed(
    population: Population, p: Progress, q: Progress, over: seq<Pair>, batch: seq<Request>, replies: seq<Reply>,
    failures: nat)
    requires AllFitting(batch, replies) && Recorded(p, q, over, batch, replies, |batch|) && batch != []
    requires Sound(population, p) && Settleable(population, p, AllAsks(batch)) && Grows(p, q) && AllAskSomething(batch)
    ensures |Unsettled(population, q)| < |Unsettled(population, p)| || FailuresAfter(failures, replies, |batch|) > failures
  {
    if i :| 0 <= i < |batch| && replies[i].Answered? {
      AnswerSettles(population, p, q, over, batch, replies, i);
    } else {
      AllFailed(failures, replies, |batch|);
    }
  }

  /** Less to settle, or as little and more failures in a row. */
  ghost predicate Progressed(population: Population, p: Progress, q: Progress, failures: nat, now: nat) {
    || |Unsettled(population, q)| < |Unsettled(population, p)|
    || (|Unsettled(population, q)| == |Unsettled(population, p)| && now > failures)
  }

  /** All that a round keeps, from what it asked, refused and heard. */
  lemma {:induction false} RoundDone(
    population: Population, p: Progress, q: Progress, over: seq<Pair>, asked: seq<Request>, each: seq<Reply>, done: nat,
    failures: nat, now: nat)
    requires AllFitting(asked, each) && done <= |asked| && Recorded(p, q, over, asked, each, done)
    requires Sound(population, p) && Settleable(population, p, AllAsks(asked)) && Settleable(population, p, over)
    requires Apart(AllAsks(asked), over) && AllAskSomething(asked)
    requires now == FailuresAfter(failures, each, done) && (now <= MAX_FAILURES ==> done == |asked|)
    requires forall k | 0 <= k < done :: FailuresAfter(failures, each, k) <= MAX_FAILURES
    ensures Sound(population, q) && Grows(p, q)
    ensures WithinLimit(population, p) ==> WithinLimit(population, q)
    ensures AllFromMore(population, p) ==> AllFromMore(population, q)
    ensures now == FailuresAfter(failures, each[..done], done)
    ensures forall k | 0 <= k < done :: FailuresAfter(failures, each[..done], k) <= MAX_FAILURES
    ensures now <= MAX_FAILURES && (asked == [] ==> over != []) ==> Progressed(population, p, q, failures, now)
  {
    FailuresOfPrefix(failures, each, done);
    RoundOf(population, p, q, over, asked, each, done);
    if now <= MAX_FAILURES && (asked == [] ==> over != []) {
      RoundProgressed(population, p, q, over, asked, each, failures);
    }
  }

  /** What is left of a plan within the limits is about the population's statements. */
  lemma {:induction false} SplitBelow(population: Population, sizes: Sizes, p: Progress, planned: seq<Request>)
    requires Shaped(population, p) && Planned(population, p, ROUND_REQUESTS, planned) && planned != []
    ensures AllAskSomething(planned)
    ensures var batch := Kept(sizes, planned);
      forall i, j | 0 <= i < |batch| && 0 <= j < |batch[i].asked| :: batch[i].asked[j] < population.statements
  {
    SplitOfPlan(population, sizes, p, planned);
    AskedBelow(population, p, Kept(sizes, planned));
  }

  lemma {:induction false} RoundOfPlan(
    population: Population, sizes: Sizes, p: Progress, q: Progress, planned: seq<Request>, answered: bool,
    asked: seq<Request>, each: seq<Reply>, done: nat, failures: nat, now: nat)
    requires Sound(population, p) && Planned(population, p, ROUND_REQUESTS, planned) && planned != []
    requires AllAskSomething(planned) && asked == if answered then Kept(sizes, planned) else []
    requires AllFitting(asked, each) && done <= |asked| && Recorded(p, q, Refused(sizes, planned), asked, each, done)
    requires now == FailuresAfter(failures, each, done) && (now <= MAX_FAILURES ==> done == |asked|)
    requires forall k | 0 <= k < done :: FailuresAfter(failures, each, k) <= MAX_FAILURES
    ensures Sound(population, q) && Grows(p, q)
    ensures WithinLimit(population, p) ==> WithinLimit(population, q)
    ensures AllFromMore(population, p) ==> AllFromMore(population, q)
    ensures Kept(sizes, planned) != [] ==> CallSound(population, sizes, Call(p, Kept(sizes, planned)))
    ensures now == FailuresAfter(failures, each[..done], done)
    ensures forall k | 0 <= k < done :: FailuresAfter(failures, each[..done], k) <= MAX_FAILURES
    ensures answered && now <= MAX_FAILURES ==> Progressed(population, p, q, failures, now)
  {
    SplitOfPlan(population, sizes, p, planned);
    RoundDone(population, p, q, Refused(sizes, planned), asked, each, done, failures, now);
  }

  /** The calls so far with one more, unless all its pairs were refused. */
  lemma {:induction false} RoundCounted(
    population: Population, sizes: Sizes, calls: seq<Call>, start: Progress, p: Progress, q: Progress,
    batch: seq<Request>, heard: seq<Reply>, replies: seq<Reply>, failures: nat, now: nat)
    returns (more: seq<Call>, all: seq<Reply>)
    requires CallsSound(population, sizes, calls, p) && Grows(start, p) && Grows(p, q)
    requires batch != [] ==> CallSound(population, sizes, Call(p, batch))
    requires failures == Trailing(heard) && Trailing(heard) <= MAX_FAILURES && NeverOver(heard)
    requires now == FailuresAfter(failures, replies, |replies|)
    requires forall k | 0 <= k < |replies| :: FailuresAfter(failures, replies, k) <= MAX_FAILURES
    ensures CallsSound(population, sizes, more, q) && Grows(start, q)
    ensures RequestCount(more) == RequestCount(calls) + |batch|
    ensures |all| == |heard| + |replies| && Trailing(all) == now && NeverOver(all)
  {
    all := heard + replies;
    TurnKeeps(population, sizes, calls, start, p, q);
    Heard(heard, replies, failures);
    more := calls;
    if batch != [] {
      OneMoreCall(population, sizes, calls, Call(p, batch), q);
      more := calls + [Call(p, batch)];
    }
  }

  // -- the pass -----------------------------------------------------------------------------------------

  /** What every turn of the loop keeps; `within` says that the pass began within its
      limits and that no saved answer was taken up. */
  ghost predicate Standing(
    population: Population, sizes: Sizes, start: Progress, left: Progress, p: Progress, anew: bool, within: bool,
    calls: seq<Call>, heard: seq<Reply>)
  {
    && Course(population, start, left, p, anew) && CallsSound(population, sizes, calls, p) && NeverOver(heard)
    && (within ==> WithinLimit(population, p))
  }

  class Pass {
    const population: Population
    var answers: seq<seq<Answer>>
    var orders: seq<seq<nat>>
    var refused: set<Pair>
    var round: nat

    constructor (population: Population)
      requires Selects(population)
      ensures this.population == population && Sound(population, Now()) && WithinLimit(population, Now())
      ensures round == 0 && refused == {} && forall s | 0 <= s < |answers| :: answers[s] == []
      ensures forall s | 0 <= s < |orders| :: orders[s] == population.order(s, 5)
    {
      this.population := population;
      answers := seq(population.statements, _ => []);
      orders := seq(population.statements, s requires 0 <= s => population.order(s, FIRST_TESTS));
      refused, round := {}, 0;
      new;
      forall s | 0 <= s < |orders|
        ensures Bounded(orders[s], population.tests) && OpenOnce(Now(), s)
      {
        assert Chosen(population.order(s, FIRST_TESTS), population.tests);
      }
    }

    function Now(): Progress
      reads this
    {
      Progress(answers, orders, refused, round)
    }

    /** The first loop of `plan`, for one statement. */
    method List(eligible: map<nat, seq<nat>>, s: nat) returns (more: map<nat, seq<nat>>)
      requires Sound(population, Now()) && s < population.statements && Eligible(population, Now(), eligible, s)
      ensures Eligible(population, Now(), more, s + 1)
    {
      more := eligible;
      if !Undecided(population, Now(), s) {
        NotListed(population, Now(), eligible, s);
        return;
      }
      var j := 0;
      ListedNone(population, Now(), eligible, s);
      while j < |orders[s]|
        invariant j <= |orders[s]| && Lists(population, Now(), more, s, j)
      {
        var t := orders[s][j];
        ListedOne(population, Now(), more, s, j);
        if !Asked(answers[s], t) && (s, t) !in refused {
          var was := if t in more then more[t] else [];
          more := more[t := was + [s]];
        }
        j := j + 1;
      }
      ListedAll(population, Now(), more, s);
    }

    /** `plan`. */
    method Plan(requests: nat) returns (batch: seq<Request>)
      requires Sound(population, Now())
      ensures Planned(population, Now(), requests, batch)
    {
      var all: map<nat, seq<nat>> := map[];
      var s := 0;
      while s < population.statements
        invariant s <= population.statements && Eligible(population, Now(), all, s)
      {
        all := List(all, s);
        s := s + 1;
      }
      batch := Choose(population, Now(), all, requests);
    }

    /** `seed`. */
    method Seed(cache: Cache) returns (reused: nat)
      requires Sound(population, Now())
      modifies this`answers
      ensures SeededFrom(population, old(Now()), Now(), cache)
      ensures reused == 0 ==> answers == old(answers)
    {
      reused := 0;
      if cache == map[] {
        forall s | 0 <= s < |answers|
          ensures Seeded(answers[s], orders[s], s, population.pairKey, cache, 0) == answers[s]
        {
          SeededFromNothing(answers[s], orders[s], s, population.pairKey, 0);
        }
        return;
      }
      ghost var before := answers;
      var s := 0;
      while s < population.statements
        invariant s <= population.statements && |answers| == |before|
        invariant forall x | 0 <= x < s ::
          answers[x] == Seeded(before[x], orders[x], x, population.pairKey, cache, 0)
        invariant forall x | s <= x < |answers| :: answers[x] == before[x]
        invariant reused == 0 ==> answers == before
      {
        var seeded, more := SeedStatement(answers[s], orders[s], s, population.pairKey, cache);
        answers, reused := answers[s := seeded], reused + more;
        s := s + 1;
      }
    }

    /** `widen`. */
    method Widen()
      requires Shaped(population, Now()) && round < 2
      modifies this`orders, this`round
      ensures Widened(population, old(Now()), Now())
    {
      ghost var before := Now();
      round := round + 1;
      var s := 0;
      while s < population.statements
        invariant s <= population.statements && |orders| == population.statements && round == before.round + 1
        invariant forall x | 0 <= x < s :: orders[x] == WiderOrder(population, before, x)
        invariant forall x | s <= x < |orders| :: orders[x] == before.orders[x]
      {
        if !Asserted(answers[s]) {
          if round == 1 {
            orders := orders[s := population.order(s, MORE_TESTS)];
          } else {
            var asked := TestsOf(answers[s]) + RefusedTests(refused, s, population.tests);
            orders := orders[s := asked + population.lastOrder(s, asked, LAST_TESTS)];
          }
        }
        s := s + 1;
      }
    }

    /** One answered request recorded. */
    method Record(request: Request, values: seq<real>)
      requires |values| == |request.asked| && forall i | 0 <= i < |request.asked| :: request.asked[i] < |answers|
      modifies this`answers
      ensures |answers| == |old(answers)|
      ensures forall s | 0 <= s < |answers| :: answers[s] == old(answers)[s] + Of(s, request, values, |values|)
    {
      var i := 0;
      while i < |values|
        invariant i <= |values| && |answers| == |old(answers)|
        invariant forall s | 0 <= s < |answers| :: answers[s] == old(answers)[s] + Of(s, request, values, i)
      {
        var s := request.asked[i];
        answers := answers[s := answers[s] + [Answer(request.test, values[i])]];
        i := i + 1;
      }
    }

    /** The replies of one round, until too many in a row have failed. */
    method TakeReplies(batch: seq<Request>, replies: seq<Reply>, failures: nat) returns (now: nat, done: nat)
      requires AllFitting(batch, replies) && failures <= MAX_FAILURES
      requires forall i, j | 0 <= i < |batch| && 0 <= j < |batch[i].asked| :: batch[i].asked[j] < |answers|
      modifies this`answers
      ensures done <= |batch| && now == FailuresAfter(failures, replies, done)
      ensures |answers| == |old(answers)|
      ensures forall s | 0 <= s < |answers| :: answers[s] == old(answers)[s] + New(s, batch, replies, done)
      ensures forall k | 0 <= k < done :: FailuresAfter(failures, replies, k) <= MAX_FAILURES
      ensures now <= MAX_FAILURES ==> done == |batch|
    {
      now, done := failures, 0;
      while done < |batch| && now <= MAX_FAILURES
        invariant done <= |batch| && now == FailuresAfter(failures, replies, done)
        invariant |answers| == |old(answers)|
        invariant forall s | 0 <= s < |answers| :: answers[s] == old(answers)[s] + New(s, batch, replies, done)
        invariant forall k | 0 <= k < done :: FailuresAfter(failures, replies, k) <= MAX_FAILURES
      {
        ghost var before := answers;
        if replies[done].Failed? {
          now := now + 1;
        } else {
          now := 0;
          Record(batch[done], replies[done].values);
        }
        done := done + 1;
        forall s | 0 <= s < |answers|
          ensures answers[s] == old(answers)[s] + New(s, batch, replies, done)
        {
          var was, more := New(s, batch, replies, done - 1), FromReply(s, batch[done - 1], replies[done - 1]);
          assert answers[s] == before[s] + more;
          assert old(answers)[s] + was + more == old(answers)[s] + (was + more);
        }
      }
    }

    method AllDecided() returns (decided: bool)
      requires Shaped(population, Now())
      ensures decided <==> forall s | 0 <= s < population.statements :: !Undecided(population, Now(), s)
    {
      var s := 0;
      while s < population.statements
        invariant s <= population.statements && forall x | 0 <= x < s :: !Undecided(population, Now(), x)
      {
        if Undecided(population, Now(), s) {
          return false;
        }
        s := s + 1;
      }
      decided := true;
    }

    /** The next round's requests: none when nothing is undecided. */
    method NextRound() returns (planned: seq<Request>)
      requires Sound(population, Now())
      ensures Planned(population, Now(), ROUND_REQUESTS, planned)
    {
      var decided := AllDecided();
      if decided {
        planned := [];
        NothingToAsk(population, Now());
      } else {
        planned := Plan(ROUND_REQUESTS);
      }
    }

    /** Widen, and take up saved answers unless the pass is refreshed. */
    method WidenAndSeed(refresh: bool, cache: Cache, ghost keep: bool, ghost start: Progress, ghost was: Cache)
      returns (reused: nat)
      requires Selects(population) && Sound(population, Now()) && round < 2 && Grows(start, Now())
      requires keep ==> CacheHolds(population.pairKey, start, Now(), was, cache)
      modifies this
      ensures Sound(population, Now()) && Grows(old(Now()), Now()) && round == old(round) + 1
      ensures refresh ==> reused == 0
      ensures WithinLimit(population, old(Now())) && reused == 0 ==> WithinLimit(population, Now())
      ensures Offered(population, old(Now()), Now())
      ensures old(round) == 0 && AllFromMore(population, old(Now())) ==> AllFromMore(population, Now())
      ensures keep ==> CacheHolds(population.pairKey, start, Now(), was, cache)
    {
      ghost var p := Now();
      Widen();
      ghost var wider := Now();
      WidenedIsSound(population, p, wider);
      if WithinLimit(population, p) {
        WidenedWithinLimit(population, p, wider);
      }
      WideningOffers(population, p, wider);
      if round == 1 && AllFromMore(population, p) {
        WideningKeepsFromMore(population, p, wider);
      }
      reused := 0;
      GrowsOn(start, p, wider);
      if keep {
        SameAnswers(population.pairKey, start, p, wider, was, cache);
      }
      if !refresh {
        reused := Seed(cache);
        SeededIsSound(population, wider, Now(), cache);
        if keep {
          SeedingKeepsCache(population, start, wider, Now(), was, cache);
        }
        GrowsOn(p, wider, Now());
        OffersStay(population, wider, Now());
        if round == 1 && AllFromMore(population, p) {
          SeedingKeepsFromMore(population, wider, Now(), cache);
        }
      }
    }

    /** One round of requests: split, asked and recorded. `heard` are the replies
        taken; an empty batch is one whose every pair was refused. */
    method AskRound(
      sizes: Sizes, ask: Asker, rounds: nat, planned: seq<Request>, failures: nat, keep: bool, cache: Cache,
      ghost start: Progress, ghost was: Cache)
      returns (batch: seq<Request>, answered: bool, now: nat, nowCache: Cache, ghost heard: seq<Reply>)
      requires Grows(start, Now()) && CacheIs(keep, population.pairKey, start, Now(), was, cache)
      requires Sound(population, Now()) && Faithful(ask) && failures <= MAX_FAILURES
      requires Planned(population, Now(), ROUND_REQUESTS, planned) && planned != []
      modifies this
      ensures Sound(population, Now()) && Grows(old(Now()), Now()) && round == old(round)
      ensures WithinLimit(population, old(Now())) ==> WithinLimit(population, Now())
      ensures orders == old(orders) && (AllFromMore(population, old(Now())) ==> AllFromMore(population, Now()))
      ensures batch != [] ==> CallSound(population, sizes, Call(old(Now()), batch))
      ensures now == FailuresAfter(failures, heard, |heard|)
      ensures forall k | 0 <= k < |heard| :: FailuresAfter(failures, heard, k) <= MAX_FAILURES
      ensures answered && now <= MAX_FAILURES ==> Progressed(population, old(Now()), Now(), failures, now) && |heard| == |batch|
      ensures !answered ==> heard == []
      ensures CacheIs(keep, population.pairKey, start, Now(), was, nowCache)
    {
      ghost var p, asked, each, done := Now(), [], [], 0;
      batch, answered, now, nowCache, asked, each, done := SplitAndAsk(sizes, ask, rounds, planned, failures, keep, cache);
      heard := each[..done];
      RoundOfPlan(population, sizes, p, Now(), planned, answered, asked, each, done, failures, now);
      RoundSaves(population, sizes, start, p, Now(), planned, answered, asked, each, done, keep, was, cache, nowCache);
    }

    /** The planned requests within the limits, asked if there are any. */
    method SplitAndAsk(
      sizes: Sizes, ask: Asker, rounds: nat, planned: seq<Request>, failures: nat, keep: bool, cache: Cache)
      returns (
        batch: seq<Request>, answered: bool, now: nat, nowCache: Cache, ghost asked: seq<Request>, ghost each: seq<Reply>,
        ghost done: nat)
      requires Sound(population, Now()) && Faithful(ask) && failures <= MAX_FAILURES
      requires Planned(population, Now(), ROUND_REQUESTS, planned) && planned != []
      modifies this`answers, this`refused
      ensures AllAskSomething(planned) && batch == Kept(sizes, planned) && asked == if answered then batch else []
      ensures AllFitting(asked, each) && done <= |asked|
      ensures Recorded(old(Now()), Now(), Refused(sizes, planned), asked, each, done)
      ensures now == FailuresAfter(failures, each, done) && (now <= MAX_FAILURES ==> done == |asked|)
      ensures forall k | 0 <= k < done :: FailuresAfter(failures, each, k) <= MAX_FAILURES
      ensures nowCache == if keep then Saved(cache, population.pairKey, asked, each, done) else cache
    {
      SplitBelow(population, sizes, Now(), planned);
      batch, refused := WithinLimits(sizes, refused, planned);
      answered, now, nowCache, asked, each, done := true, failures, cache, [], [], 0;
      if batch != [] {
        answered, now, nowCache, asked, each, done := Ask(ask, rounds, batch, failures, keep, cache);
      }
    }

    /** The requests asked and their replies recorded. */
    method Ask(ask: Asker, rounds: nat, batch: seq<Request>, failures: nat, keep: bool, cache: Cache)
      returns (answered: bool, now: nat, nowCache: Cache, ghost asked: seq<Request>, ghost each: seq<Reply>, ghost done: nat)
      requires Faithful(ask) && failures <= MAX_FAILURES
      requires forall i, j | 0 <= i < |batch| && 0 <= j < |batch[i].asked| :: batch[i].asked[j] < |answers|
      modifies this`answers
      ensures asked == if answered then batch else []
      ensures AllFitting(asked, each) && done <= |asked|
      ensures Recorded(old(Now()), Now(), [], asked, each, done)
      ensures now == FailuresAfter(failures, each, done) && (now <= MAX_FAILURES ==> done == |asked|)
      ensures forall k | 0 <= k < done :: FailuresAfter(failures, each, k) <= MAX_FAILURES
      ensures nowCache == if keep then Saved(cache, population.pairKey, asked, each, done) else cache
    {
      var replies := ask(rounds, Now(), batch);
      answered, now, nowCache, asked, each, done := replies.Replies?, failures, cache, [], [], 0;
      if answered {
        var taken;
        now, taken := TakeReplies(batch, replies.each, failures);
        if keep {
          nowCache := Save(cache, population.pairKey, batch, replies.each, taken);
        }
        asked, each, done := batch, replies.each, taken;
      }
    }

    /** A wider round, for all the calls so far. */
    method WidenTurn(
      sizes: Sizes, refresh: bool, cache: Cache, ghost keep: bool, ghost start: Progress, ghost was: Cache,
      ghost left: Progress, ghost anew: bool, ghost calls: seq<Call>)
      returns (reused: nat, ghost nowLeft: Progress)
      requires Selects(population) && round < 2 && Course(population, start, left, Now(), anew)
      requires NoneAskable(population, Now()) && CallsSound(population, sizes, calls, Now())
      requires CacheIs(keep, population.pairKey, start, Now(), was, cache)
      modifies this
      ensures Course(population, start, nowLeft, Now(), anew) && round == old(round) + 1
      ensures CallsSound(population, sizes, calls, Now())
      ensures refresh ==> reused == 0
      ensures WithinLimit(population, old(Now())) && reused == 0 ==> WithinLimit(population, Now())
      ensures CacheIs(keep, population.pairKey, start, Now(), was, cache)
    {
      ghost var p := Now();
      reused := WidenAndSeed(refresh, cache, keep, start, was);
      TurnKeeps(population, sizes, calls, start, p, Now());
      CourseWidens(population, start, left, p, Now(), anew);
      nowLeft := if p.round == 1 then p else left;
    }

    /** One round, and what it adds to the calls made and the replies heard. */
    method AskTurn(
      sizes: Sizes, ask: Asker, rounds: nat, planned: seq<Request>, failures: nat, keep: bool, cache: Cache,
      ghost start: Progress, ghost was: Cache, ghost left: Progress, ghost anew: bool, ghost calls: seq<Call>,
      ghost heard: seq<Reply>)
      returns (batch: seq<Request>, answered: bool, now: nat, nowCache: Cache, ghost more: seq<Call>, ghost all: seq<Reply>)
      requires Course(population, start, left, Now(), anew) && Faithful(ask) && failures == Trailing(heard) <= MAX_FAILURES
      requires Planned(population, Now(), ROUND_REQUESTS, planned) && planned != []
      requires CallsSound(population, sizes, calls, Now()) && NeverOver(heard)
      requires CacheIs(keep, population.pairKey, start, Now(), was, cache)
      modifies this
      ensures Course(population, start, left, Now(), anew) && round == old(round)
      ensures WithinLimit(population, old(Now())) ==> WithinLimit(population, Now())
      ensures CallsSound(population, sizes, more, Now()) && NeverOver(all)
      ensures if answered then Trailing(all) == now <= MAX_FAILURES + 1 else all == heard
      ensures answered && now <= MAX_FAILURES ==>
        && RequestCount(more) == RequestCount(calls) + |batch| && |all| == |heard| + |batch|
        && Progressed(population, old(Now()), Now(), failures, now)
      ensures CacheIs(keep, population.pairKey, start, Now(), was, nowCache)
    {
      ghost var p, replies := Now(), [];
      batch, answered, now, nowCache, replies :=
        AskRound(sizes, ask, rounds, planned, failures, keep, cache, start, was);
      more, all := calls, heard;
      if answered {
        more, all := RoundCounted(population, sizes, calls, start, p, Now(), batch, heard, replies, failures, now);
      } else {
        TurnKeeps(population, sizes, calls, start, p, Now());
      }
      CourseAsks(population, start, left, p, Now(), anew);
    }

    /** One turn of the loop: a round, a wider one, or the end. */
    method Turn(
      sizes: Sizes, ask: Asker, refresh: bool, keep: bool, cache: Cache, rounds: nat, failures: nat,
      ghost start: Progress, ghost was: Cache, ghost left: Progress, ghost anew: bool, ghost within: bool,
      ghost calls: seq<Call>, ghost heard: seq<Reply>)
      returns (
        verdict: Verdict, nowCache: Cache, sent: nat, reused: nat, now: nat, ghost nowLeft: Progress,
        ghost more: seq<Call>, ghost all: seq<Reply>)
      requires Selects(population) && Faithful(ask) && failures == Trailing(heard) <= MAX_FAILURES
      requires Standing(population, sizes, start, left, Now(), anew, within, calls, heard)
      requires CacheIs(keep, population.pairKey, start, Now(), was, cache)
      modifies this
      ensures Standing(population, sizes, start, nowLeft, Now(), anew, within && reused == 0, more, all)
      ensures CacheIs(keep, population.pairKey, start, Now(), was, nowCache)
      ensures refresh ==> reused == 0
      ensures match verdict
        case Going =>
          && Trailing(all) == now <= MAX_FAILURES
          && RequestCount(more) == RequestCount(calls) + sent && |all| == |heard| + sent
          && (old(round) < round <= 2
              || (round == old(round) && Progressed(population, old(Now()), Now(), failures, now)))
        case Ended => round == 2 && NoneAskable(population, Now()) && more == calls && all == heard && reused == 0
        case Unasked => Trailing(all) <= MAX_FAILURES
        case Over => Trailing(all) == now == MAX_FAILURES + 1
    {
      verdict, nowCache, sent, reused, now, nowLeft, more, all := Going, cache, 0, 0, failures, left, calls, heard;
      var planned := NextRound();
      if planned == [] {
        NothingAskable(population, Now());
        if round == 2 {
          verdict := Ended;
        } else {
          reused, nowLeft := WidenTurn(sizes, refresh, cache, keep, start, was, left, anew, calls);
        }
      } else {
        var batch, answered;
        batch, answered, now, nowCache, more, all :=
          AskTurn(sizes, ask, rounds, planned, failures, keep, cache, start, was, left, anew, calls, heard);
        verdict := if !answered then Unasked else if now > MAX_FAILURES then Over else Going;
        sent := |batch|;
      }
    }

    /** The loop of `run_pass`. */
    method Rounds(sizes: Sizes, ask: Asker, refresh: bool, keep: bool, cache: Cache)
      returns (
        outcome: Outcome, nowCache: Cache, reused: nat, ghost calls: seq<Call>, ghost heard: seq<Reply>,
        ghost left: Progress)
      requires Selects(population) && Sound(population, Now()) && Faithful(ask)
      requires Course(population, Now(), Now(), Now(), AllFromMore(population, Now()))
      modifies this
      ensures Course(population, old(Now()), left, Now(), AllFromMore(population, old(Now())))
      ensures CallsSound(population, sizes, calls, Now())
      ensures outcome.Finished? ==> round == 2 && NoneAskable(population, Now())
      ensures outcome.Finished? ==> outcome.sent.requests == RequestCount(calls) == |heard|
      ensures NeverOver(heard)
      ensures if outcome.StoppedAfter? then Trailing(heard) == outcome.failures == MAX_FAILURES + 1
              else Trailing(heard) <= MAX_FAILURES
      ensures refresh ==> reused == 0
      ensures outcome.Finished? ==> outcome.sent.reused == reused
      ensures WithinLimit(population, old(Now())) && reused == 0 ==> WithinLimit(population, Now())
      ensures CacheIs(keep, population.pairKey, old(Now()), Now(), cache, nowCache)
    {
      var requests, failures, rounds := 0, 0, 0;
      nowCache, calls, heard, reused := cache, [], [], 0;
      ghost var start, first, within := Now(), AllFromMore(population, Now()), WithinLimit(population, Now());
      left := start;
      CacheBegins(keep, population.pairKey, start, cache);
      while true
        invariant Standing(population, sizes, start, left, Now(), first, reused == 0 && within, calls, heard)
        invariant requests == RequestCount(calls) == |heard|
        invariant failures == Trailing(heard) <= MAX_FAILURES
        invariant refresh ==> reused == 0
        invariant CacheIs(keep, population.pairKey, start, Now(), cache, nowCache)
        decreases 2 - round, |Unsettled(population, Now())|, MAX_FAILURES - failures
      {
        var verdict, sent, more, now;
        verdict, nowCache, sent, more, now, left, calls, heard :=
          Turn(sizes, ask, refresh, keep, nowCache, rounds, failures, start, cache, left, first,
               reused == 0 && within, calls, heard);
        rounds, reused := rounds + 1, reused + more;
        match verdict
        case Ended => return Finished(Sent(requests, reused)), nowCache, reused, calls, heard, left;
        case Unasked => return CouldNotAsk, nowCache, reused, calls, heard, left;
        case Over => return StoppedAfter(now), nowCache, reused, calls, heard, left;
        case Going => requests, failures := requests + sent, now;
      }
    }

    /** `run_pass`. `calls` are the rounds asked, `heard` the replies taken, and
        `resumed` the saved answers taken up, however it ended; `left` is where its
        second round ended. */
    method RunPass(sizes: Sizes, ask: Asker, refresh: bool, keep: bool, cache: Cache)
      returns (
        outcome: Outcome, nowCache: Cache, ghost calls: seq<Call>, ghost heard: seq<Reply>, ghost resumed: nat,
        ghost left: Progress)
      requires Selects(population) && Sound(population, Now()) && Faithful(ask)
      modifies this
      ensures Sound(population, Now()) && Grows(old(Now()), Now())
      ensures CallsSound(population, sizes, calls, Now())
      ensures outcome.Finished? ==> AllAsked(population, Now())
      ensures outcome.Finished? ==>
        NothingUnasked(population, old(Now()), left, Now(), AllFromMore(population, old(Now())))
      ensures outcome.Finished? ==> outcome.sent.requests == RequestCount(calls) == |heard|
      ensures NeverOver(heard)
      ensures if outcome.StoppedAfter? then Trailing(heard) == outcome.failures == MAX_FAILURES + 1
              else Trailing(heard) <= MAX_FAILURES
      ensures refresh ==> resumed == 0
      ensures outcome.Finished? ==> outcome.sent.reused == resumed
      ensures WithinLimit(population, old(Now())) && resumed == 0 ==> WithinLimit(population, Now())
      ensures CacheIs(keep, population.pairKey, old(Now()), Now(), cache, nowCache)
    {
      ghost var start := Now();
      var reused;
      CourseBegins(population, start, AllFromMore(population, start));
      outcome, nowCache, reused, calls, heard, left := Rounds(sizes, ask, refresh, keep, cache);
      resumed := reused;
      if outcome.Finished? {
        CourseEnds(population, start, left, Now(), AllFromMore(population, start));
      }
    }
  }

  /** The answers of a round saved for later passes. */
  method Save(cache: Cache, pairKey: Pair -> string, batch: seq<Request>, replies: seq<Reply>, done: nat)
    returns (saved: Cache)
    requires AllFitting(batch, replies) && done <= |batch|
    ensures saved == Saved(cache, pairKey, batch, replies, done)
  {
    saved := cache;
    var k := 0;
    while k < done
      invariant k <= done && saved == Saved(cache, pairKey, batch, replies, k)
    {
      if replies[k].Answered? {
        ghost var before := saved;
        var request, values, j := batch[k], replies[k].values, 0;
        while j < |values|
          invariant j <= |values| && saved == SaveOne(before, pairKey, request, values, j)
        {
          saved := saved[pairKey((request.asked[j], request.test)) := values[j]];
          j := j + 1;
        }
      }
      k := k + 1;
    }
  }

  /** The walk down one statement's order. */
  method SeedStatement(answers: seq<Answer>, order: seq<nat>, s: nat, pairKey: Pair -> string, cache: Cache)
    returns (seeded: seq<Answer>, reused: nat)
    ensures seeded == Seeded(answers, order, s, pairKey, cache, 0)
    ensures reused == |seeded| - |answers| && (reused == 0 ==> seeded == answers)
  {
    seeded, reused := answers, 0;
    var j := 0;
    while j < |order|
      invariant j <= |order| && reused == |seeded| - |answers| && (reused == 0 ==> seeded == answers)
      invariant Seeded(seeded, order, s, pairKey, cache, j) == Seeded(answers, order, s, pairKey, cache, 0)
    {
      var t := order[j];
      var key := pairKey((s, t));
      if !Asked(seeded, t) && key in cache {
        seeded, reused := seeded + [Answer(t, cache[key])], reused + 1;
        if cache[key] >= THRESHOLD {
          return;
        }
      }
      j := j + 1;
    }
  }
}
