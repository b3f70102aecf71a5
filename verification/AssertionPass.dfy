/** The assertion pass: it plans requests, takes their answers, and widens what it
    asks, until every statement is decided or out of tests. */
module AssertionPass {
  import opened RequestLimits
  import opened AssertionPlan

  const ROUND_REQUESTS := 40
  const MAX_FAILURES := 20

  /** One answer per statement asked about, or a request that failed. */
  datatype Reply = Answered(values: seq<real>) | Failed

  /** What asking a round's requests comes to. */
  datatype Replies = Replies(each: seq<Reply>) | AskFailed

  type Cache = map<string, real>

  // -- progress that makes sense, and growth ------------------------------------------------

  ghost predicate TestsOnce(answers: seq<Answer>) {
    forall i, j | 0 <= i < j < |answers| :: answers[i].test != answers[j].test
  }

  ghost predicate TestsBelow(answers: seq<Answer>, tests: nat) {
    forall i | 0 <= i < |answers| :: answers[i].test < tests
  }

  /** A test comes up again in an order only where asking it is over. */
  ghost predicate OpenOnce(p: Progress, s: nat)
    requires s < |p.answers| == |p.orders|
  {
    forall i, j | 0 <= i < j < |p.orders[s]| && p.orders[s][i] == p.orders[s][j] :: !Open(p, s, p.orders[s][i])
  }

  /** No pair is answered twice, and every pair is one of the population's. */
  ghost predicate Sound(population: Population, p: Progress) {
    && Shaped(population, p)
    && (forall s | 0 <= s < |p.answers| :: TestsOnce(p.answers[s]) && TestsBelow(p.answers[s], population.tests))
    && (forall s | 0 <= s < |p.orders| :: Bounded(p.orders[s], population.tests) && OpenOnce(p, s))
    && (forall pair | pair in p.refused :: pair.0 < population.statements && pair.1 < population.tests)
  }

  ghost predicate Grows(p: Progress, q: Progress) {
    && |p.answers| == |q.answers|
    && (forall s | 0 <= s < |p.answers| :: p.answers[s] <= q.answers[s])
    && p.refused <= q.refused && p.round <= q.round
  }

  lemma {:induction false} GrowsOn(p: Progress, q: Progress, r: Progress)
    requires Grows(p, q) && Grows(q, r)
    ensures Grows(p, r)
  {
    forall s | 0 <= s < |p.answers|
      ensures p.answers[s] <= r.answers[s]
    {
      assert p.answers[s] <= q.answers[s];
      assert q.answers[s] <= r.answers[s];
    }
  }

  /** The tests chosen for a statement are of the population, each chosen once. */
  ghost predicate Selects(population: Population) {
    && (forall s, k :: Chosen(population.order(s, k), population.tests))
    && (forall s, asked, k :: Chosen(population.lastOrder(s, asked, k), population.tests))
  }

  ghost predicate Chosen(chosen: seq<nat>, tests: nat) {
    NoRepeats(chosen) && Bounded(chosen, tests)
  }

  // -- how much is left to ask --------------------------------------------------------------

  function AnsweredPairs(answers: seq<seq<Answer>>): set<Pair> {
    set s, i | 0 <= s < |answers| && 0 <= i < |answers[s]| :: (s, answers[s][i].test)
  }

  function Universe(population: Population): set<Pair> {
    set s, t | 0 <= s < population.statements && 0 <= t < population.tests :: (s, t)
  }

  /** The pairs neither answered nor refused. */
  function Unsettled(population: Population, p: Progress): set<Pair> {
    Universe(population) - AnsweredPairs(p.answers) - p.refused
  }

  lemma {:induction false} Subset<T>(small: set<T>, large: set<T>)
    requires small <= large
    ensures |small| <= |large| && (small != large ==> |small| < |large|)
  {
    assert large == small + (large - small);
  }

  lemma {:induction false} SettledStays(p: Progress, q: Progress)
    requires Grows(p, q)
    ensures AnsweredPairs(p.answers) <= AnsweredPairs(q.answers)
  {
    forall pair | pair in AnsweredPairs(p.answers)
      ensures pair in AnsweredPairs(q.answers)
    {
      var s, i :| 0 <= s < |p.answers| && 0 <= i < |p.answers[s]| && (s, p.answers[s][i].test) == pair;
      assert p.answers[s] <= q.answers[s];
      assert q.answers[s][i] == p.answers[s][i];
    }
  }

  lemma {:induction false} LessUnsettled(population: Population, p: Progress, q: Progress)
    requires Grows(p, q)
    ensures |Unsettled(population, q)| <= |Unsettled(population, p)|
  {
    SettledStays(p, q);
    Subset(Unsettled(population, q), Unsettled(population, p));
  }

  /** Settling an open pair leaves fewer unsettled. */
  lemma {:induction false} OneSettled(population: Population, p: Progress, q: Progress, s: nat, t: nat)
    requires Sound(population, p) && Grows(p, q) && s < population.statements && Open(p, s, t)
    requires (s, t) in q.refused || Asked(q.answers[s], t)
    ensures |Unsettled(population, q)| < |Unsettled(population, p)|
  {
    SettledStays(p, q);
    var i :| 0 <= i < |p.orders[s]| && p.orders[s][i] == t;
    assert t < population.tests;
    assert (s, t) in Universe(population);
    assert (s, t) in Unsettled(population, p) && (s, t) !in Unsettled(population, q);
    Subset(Unsettled(population, q), Unsettled(population, p));
  }

  // -- the answers of one round ---------------------------------------------------------------

  /** The first `k` answers to one request that are about `s`. */
  function Of(s: nat, request: Request, values: seq<real>, k: nat): seq<Answer>
    requires k <= |values| == |request.asked|
  {
    if k == 0 then []
    else Of(s, request, values, k - 1) + (if request.asked[k - 1] == s then [Answer(request.test, values[k - 1])] else [])
  }

  predicate Fitting(request: Request, reply: Reply) {
    reply.Answered? ==> |reply.values| == |request.asked|
  }

  ghost predicate AllFitting(batch: seq<Request>, replies: seq<Reply>) {
    |replies| == |batch| && forall i | 0 <= i < |batch| :: Fitting(batch[i], replies[i])
  }

  function FromReply(s: nat, request: Request, reply: Reply): seq<Answer>
    requires Fitting(request, reply)
  {
    if reply.Answered? then Of(s, request, reply.values, |reply.values|) else []
  }

  /** The answers about `s` in a round's first `k` replies. */
  function New(s: nat, batch: seq<Request>, replies: seq<Reply>, k: nat): seq<Answer>
    requires AllFitting(batch, replies) && k <= |batch|
  {
    if k == 0 then [] else New(s, batch, replies, k - 1) + FromReply(s, batch[k - 1], replies[k - 1])
  }

  /** Each statement in at most one pair. */
  ghost predicate Unique(pairs: seq<Pair>) {
    forall i, j | 0 <= i < j < |pairs| :: pairs[i].0 != pairs[j].0
  }

  lemma {:induction false} UniqueAsks(request: Request)
    requires Unique(Asks(request))
    ensures NoRepeats(request.asked)
  {
    var pairs := Asks(request);
    forall i, j | 0 <= i < j < |request.asked|
      ensures request.asked[i] != request.asked[j]
    {
      assert pairs[i].0 != pairs[j].0;
    }
  }

  lemma {:induction false} OfHolds(s: nat, request: Request, values: seq<real>, k: nat)
    requires k <= |values| == |request.asked| && Unique(Asks(request))
    ensures var answers := Of(s, request, values, k);
      && |answers| <= 1
      && (answers != [] ==> exists i :: 0 <= i < k && request.asked[i] == s && answers == [Answer(request.test, values[i])])
      && (forall i | 0 <= i < k && request.asked[i] == s :: answers == [Answer(request.test, values[i])])
  {
    if k > 0 {
      OfHolds(s, request, values, k - 1);
      UniqueAsks(request);
    }
  }

  lemma {:induction false} UniqueParts(first: seq<Pair>, second: seq<Pair>)
    requires Unique(first + second)
    ensures Unique(first) && Unique(second)
    ensures forall i, j | 0 <= i < |first| && 0 <= j < |second| :: first[i].0 != second[j].0
  {
    var all := first + second;
    assert forall i | 0 <= i < |first| :: all[i] == first[i];
    assert forall j | 0 <= j < |second| :: all[|first| + j] == second[j];
    forall i, j | 0 <= i < |first| && 0 <= j < |second|
      ensures first[i].0 != second[j].0
    {
      assert all[i].0 != all[|first| + j].0;
    }
    forall i, j | 0 <= i < j < |second|
      ensures second[i].0 != second[j].0
    {
      assert all[|first| + i].0 != all[|first| + j].0;
    }
  }

  lemma {:induction false} PrefixAsks(batch: seq<Request>, k: nat)
    requires 0 < k <= |batch|
    ensures AllAsks(batch[..k]) == AllAsks(batch[..k - 1]) + Asks(batch[k - 1])
  {
    LastAsks(batch[..k]);
    assert batch[..k][..k - 1] == batch[..k - 1];
  }

  lemma {:induction false} UniquePrefix(batch: seq<Request>, k: nat)
    requires k <= |batch| && Unique(AllAsks(batch))
    ensures Unique(AllAsks(batch[..k]))
    decreases |batch| - k
  {
    if k == |batch| {
      assert batch[..k] == batch;
    } else {
      UniquePrefix(batch, k + 1);
      PrefixAsks(batch, k + 1);
      UniqueParts(AllAsks(batch[..k]), Asks(batch[k]));
    }
  }

  /** A statement gets at most one answer in a round, of a test it was asked of. */
  lemma {:induction false} NewHolds(s: nat, batch: seq<Request>, replies: seq<Reply>, k: nat)
    requires AllFitting(batch, replies) && k <= |batch| && Unique(AllAsks(batch[..k]))
    ensures var answers := New(s, batch, replies, k);
      |answers| <= 1 && (answers != [] ==> (s, answers[0].test) in AllAsks(batch[..k]))
  {
    if k > 0 {
      PrefixAsks(batch, k);
      UniqueParts(AllAsks(batch[..k - 1]), Asks(batch[k - 1]));
      NewHolds(s, batch, replies, k - 1);
      if replies[k - 1].Answered? {
        var request, values := batch[k - 1], replies[k - 1].values;
        OfHolds(s, request, values, |values|);
        if Of(s, request, values, |values|) != [] {
          var i :| 0 <= i < |values| && request.asked[i] == s;
          assert Asks(request)[i] == (s, request.test);
        }
      }
    }
  }

  /** And each answer is kept under the statement and test it was asked for. */
  lemma {:induction false} EachIsKept(batch: seq<Request>, replies: seq<Reply>, k: nat, i: nat, j: nat)
    requires AllFitting(batch, replies) && k <= |batch| && Unique(AllAsks(batch[..k]))
    requires i < k && replies[i].Answered? && j < |batch[i].asked|
    ensures New(batch[i].asked[j], batch, replies, k) == [Answer(batch[i].test, replies[i].values[j])]
  {
    var s := batch[i].asked[j];
    PrefixAsks(batch, k);
    UniqueParts(AllAsks(batch[..k - 1]), Asks(batch[k - 1]));
    NewHolds(s, batch, replies, k - 1);
    if i == k - 1 {
      OfHolds(s, batch[i], replies[i].values, |replies[i].values|);
      assert Asks(batch[i])[j] == (s, batch[i].test);
    } else {
      EachIsKept(batch, replies, k - 1, i, j);
      if replies[k - 1].Answered? {
        NotOf(s, batch[k - 1], replies[k - 1].values, |replies[k - 1].values|);
      }
    }
  }

  lemma {:induction false} NotOf(s: nat, request: Request, values: seq<real>, k: nat)
    requires k <= |values| == |request.asked|
    requires forall x | 0 <= x < |request.asked| :: Asks(request)[x].0 != s
    ensures Of(s, request, values, k) == []
  {
    if k > 0 {
      NotOf(s, request, values, k - 1);
      assert Asks(request)[k - 1].0 != s;
    }
  }

  // -- failures, and what is saved -------------------------------------------------------------

  /** How many of the last replies in a row failed. */
  function Trailing(replies: seq<Reply>): nat {
    if replies == [] || replies[|replies| - 1].Answered? then 0 else Trailing(replies[..|replies| - 1]) + 1
  }

  /** The count a pass keeps is of the failures in a row over all its rounds. */
  lemma {:induction false} FailuresAreTrailing(heard: seq<Reply>, replies: seq<Reply>, k: nat)
    requires k <= |replies|
    ensures FailuresAfter(Trailing(heard), replies, k) == Trailing(heard + replies[..k])
  {
    if k == 0 {
      assert heard + replies[..0] == heard;
    } else {
      FailuresAreTrailing(heard, replies, k - 1);
      var all := heard + replies[..k];
      assert all[..|all| - 1] == heard + replies[..k - 1];
    }
  }

  function SaveOne(cache: Cache, pairKey: Pair -> string, request: Request, values: seq<real>, j: nat): Cache
    requires j <= |values| == |request.asked|
  {
    if j == 0 then cache
    else SaveOne(cache, pairKey, request, values, j - 1)[pairKey((request.asked[j - 1], request.test)) := values[j - 1]]
  }

  /** The saved answers after the first `k` replies. */
  function Saved(cache: Cache, pairKey: Pair -> string, batch: seq<Request>, replies: seq<Reply>, k: nat): Cache
    requires AllFitting(batch, replies) && k <= |batch|
  {
    if k == 0 then cache
    else
      var before := Saved(cache, pairKey, batch, replies, k - 1);
      var reply := replies[k - 1];
      if reply.Answered? then SaveOne(before, pairKey, batch[k - 1], reply.values, |reply.values|) else before
  }

  /** The failures in a row after the first `k` replies. */
  function FailuresAfter(failures: nat, replies: seq<Reply>, k: nat): nat
    requires k <= |replies|
  {
    if k == 0 then failures
    else if replies[k - 1].Failed? then FailuresAfter(failures, replies, k - 1) + 1
    else 0
  }

  lemma {:induction false} AllFailed(failures: nat, replies: seq<Reply>, k: nat)
    requires k <= |replies| && forall i | 0 <= i < k :: replies[i].Failed?
    ensures FailuresAfter(failures, replies, k) == failures + k
  {
    if k > 0 {
      AllFailed(failures, replies, k - 1);
    }
  }

  // -- a round keeps progress sound ------------------------------------------------------------

  ghost predicate Singly(pairs: multiset<Pair>) {
    && (forall p | p in pairs :: pairs[p] == 1)
    && (forall p, q | p in pairs && q in pairs && p.0 == q.0 :: p == q)
  }

  lemma {:induction false} UniqueIsSingly(pairs: seq<Pair>)
    ensures Unique(pairs) <==> Singly(multiset(pairs))
  {
    if pairs != [] {
      var before, last := pairs[..|pairs| - 1], pairs[|pairs| - 1];
      UniqueIsSingly(before);
      assert pairs == before + [last];
      assert multiset(pairs) == multiset(before) + multiset{last};
      if Unique(pairs) {
        UniqueParts(before, [last]);
        NoneAsLast(before, last);
        SinglyAfter(multiset(before), last);
      }
      if Singly(multiset(pairs)) {
        SinglyBefore(multiset(before), last);
        UniqueAfter(before, last);
      }
    }
  }

  lemma {:induction false} NoneAsLast(before: seq<Pair>, last: Pair)
    requires forall i, j | 0 <= i < |before| && 0 <= j < |[last]| :: before[i].0 != [last][j].0
    ensures forall p | p in multiset(before) :: p.0 != last.0
  {
    forall i | 0 <= i < |before|
      ensures before[i].0 != last.0
    {
      assert before[i].0 != [last][0].0;
    }
  }

  lemma {:induction false} SinglyAfter(before: multiset<Pair>, last: Pair)
    requires Singly(before) && forall p | p in before :: p.0 != last.0
    ensures Singly(before + multiset{last})
  {
  }

  lemma {:induction false} UniqueAfter(before: seq<Pair>, last: Pair)
    requires Unique(before) && forall p | p in multiset(before) :: p.0 != last.0
    ensures Unique(before + [last])
  {
    forall i | 0 <= i < |before|
      ensures before[i].0 != last.0
    {
      assert before[i] in multiset(before);
    }
  }

  lemma {:induction false} SinglyBefore(before: multiset<Pair>, last: Pair)
    requires Singly(before + multiset{last})
    ensures Singly(before) && forall p | p in before :: p.0 != last.0
  {
    var all := before + multiset{last};
    forall p | p in before
      ensures before[p] == 1 && p.0 != last.0
    {
      assert p in all && last in all;
      assert all[p] == before[p] + (if p == last then 1 else 0);
    }
    forall p, q | p in before && q in before && p.0 == q.0
      ensures p == q
    {
      assert p in all && q in all;
    }
  }

  /** Pairs a round may settle: open, of undecided statements, each statement once. */
  ghost predicate Settleable(population: Population, p: Progress, pairs: seq<Pair>)
    requires Shaped(population, p)
  {
    && Unique(pairs)
    && forall i | 0 <= i < |pairs| :: pairs[i].0 < population.statements && Askable(population, p, pairs[i].0, pairs[i].1)
  }

  lemma {:induction false} PlanSettles(population: Population, p: Progress, requests: nat, batch: seq<Request>, k: nat)
    requires Shaped(population, p) && Planned(population, p, requests, batch) && k <= |batch|
    ensures Settleable(population, p, AllAsks(batch[..k]))
    ensures forall i | 0 <= i < |AllAsks(batch[..k])| ::
      exists j :: 0 <= j < k && AllAsks(batch[..k])[i].0 in Members(batch[j].asked)
  {
    if k > 0 {
      PlanSettles(population, p, requests, batch, k - 1);
      PrefixAsks(batch, k);
      PlanIsSound(population, p, requests, batch);
      AsksAreApart(batch, k - 1, AllAsks(batch[..k - 1]));
      Joined(population, p, AllAsks(batch[..k - 1]), Asks(batch[k - 1]));
    }
  }

  /** The k-th request asks about none of the statements of those before it. */
  lemma {:induction false} AsksAreApart(batch: seq<Request>, k: nat, before: seq<Pair>)
    requires k < |batch|
    requires forall i, j | 0 <= i < j < |batch| :: Members(batch[i].asked) !! Members(batch[j].asked)
    requires forall i | 0 <= i < |before| :: exists j :: 0 <= j < k && before[i].0 in Members(batch[j].asked)
    ensures forall i, j | 0 <= i < |before| && 0 <= j < |Asks(batch[k])| :: before[i].0 != Asks(batch[k])[j].0
    ensures forall j | 0 <= j < |Asks(batch[k])| :: Asks(batch[k])[j].0 in Members(batch[k].asked)
  {
    forall j | 0 <= j < |Asks(batch[k])|
      ensures Asks(batch[k])[j].0 in Members(batch[k].asked)
    {
      assert Asks(batch[k])[j].0 == batch[k].asked[j];
    }
    forall i, j | 0 <= i < |before| && 0 <= j < |Asks(batch[k])|
      ensures before[i].0 != Asks(batch[k])[j].0
    {
      var x :| 0 <= x < k && before[i].0 in Members(batch[x].asked);
      assert Members(batch[x].asked) !! Members(batch[k].asked);
      assert Asks(batch[k])[j].0 in Members(batch[k].asked);
    }
  }

  lemma {:induction false} Joined(population: Population, p: Progress, first: seq<Pair>, second: seq<Pair>)
    requires Shaped(population, p) && Settleable(population, p, first) && Settleable(population, p, second)
    requires forall i, j | 0 <= i < |first| && 0 <= j < |second| :: first[i].0 != second[j].0
    ensures Settleable(population, p, first + second)
  {
  }

  ghost predicate Apart(first: seq<Pair>, second: seq<Pair>) {
    forall i, j | 0 <= i < |first| && 0 <= j < |second| :: first[i].0 != second[j].0
  }

  /** What is asked and what is refused of a plan can be settled, each statement in
      only one of the two. */
  lemma {:induction false} SplitSettles(population: Population, p: Progress, all: seq<Pair>, asks: seq<Pair>, over: seq<Pair>)
    requires Shaped(population, p) && Settleable(population, p, all)
    requires multiset(asks) + multiset(over) == multiset(all)
    ensures Settleable(population, p, asks) && Settleable(population, p, over) && Apart(asks, over)
    ensures |all| == |asks| + |over|
  {
    UniqueIsSingly(all);
    UniqueIsSingly(asks + over);
    assert multiset(asks + over) == multiset(all);
    assert |multiset(asks)| + |multiset(over)| == |multiset(all)|;
    UniqueParts(asks, over);
    forall i | 0 <= i < |asks|
      ensures asks[i] in all
    {
      assert asks[i] in multiset(all);
    }
    forall i | 0 <= i < |over|
      ensures over[i] in all
    {
      assert over[i] in multiset(all);
    }
  }

  /** One more answer at the most, of a test that is in `asks`. */
  ghost predicate Added(s: nat, before: seq<Answer>, after: seq<Answer>, asks: seq<Pair>) {
    || after == before
    || (|after| == |before| + 1 && before <= after && (s, after[|before|].test) in asks)
  }

  ghost predicate Settled(population: Population, p: Progress, q: Progress, asks: seq<Pair>, over: seq<Pair>) {
    && Shaped(population, p) && |q.answers| == |p.answers| && q.orders == p.orders && q.round == p.round
    && q.refused == p.refused + Elements(over)
    && forall s | 0 <= s < |p.answers| :: Added(s, p.answers[s], q.answers[s], asks)
  }

  lemma {:induction false} SettledIsSound(population: Population, p: Progress, q: Progress, asks: seq<Pair>, over: seq<Pair>)
    requires Sound(population, p) && Settled(population, p, q, asks, over)
    requires Settleable(population, p, asks) && Settleable(population, p, over)
    ensures Sound(population, q) && Grows(p, q)
  {
    forall s | 0 <= s < |q.answers|
      ensures p.answers[s] <= q.answers[s] && TestsOnce(q.answers[s]) && TestsBelow(q.answers[s], population.tests)
    {
      assert Added(s, p.answers[s], q.answers[s], asks);
      if q.answers[s] != p.answers[s] {
        OneMoreTest(population, p, s, q.answers[s], asks);
      }
    }
    forall s | 0 <= s < |q.orders|
      ensures OpenOnce(q, s)
    {
      StaysOver(p, q, s);
    }
    forall pair | pair in q.refused
      ensures pair.0 < population.statements && pair.1 < population.tests
    {
      if pair !in p.refused {
        var i :| 0 <= i < |over| && over[i] == pair;
        assert Askable(population, p, over[i].0, over[i].1);
        assert Bounded(p.orders[pair.0], population.tests);
      }
    }
  }

  lemma {:induction false} OneMoreTest(population: Population, p: Progress, s: nat, after: seq<Answer>, asks: seq<Pair>)
    requires Sound(population, p) && s < population.statements && Settleable(population, p, asks)
    requires |after| == |p.answers[s]| + 1 && p.answers[s] <= after && (s, after[|p.answers[s]|].test) in asks
    ensures TestsOnce(after) && TestsBelow(after, population.tests)
  {
    var before, t := p.answers[s], after[|p.answers[s]|].test;
    var i :| 0 <= i < |asks| && asks[i] == (s, t);
    assert Askable(population, p, asks[i].0, asks[i].1);
    assert TestsOnce(before) && Bounded(p.orders[s], population.tests);
    forall j | 0 <= j < |before|
      ensures after[j].test != t && after[j].test < population.tests
    {
      assert after[j] == before[j];
    }
    forall j, k | 0 <= j < k < |before|
      ensures after[j].test != after[k].test
    {
      assert after[j] == before[j] && after[k] == before[k];
    }
  }

  /** What is over stays over. */
  lemma {:induction false} StaysOver(p: Progress, q: Progress, s: nat)
    requires Grows(p, q) && q.orders == p.orders && s < |p.answers| == |p.orders| && OpenOnce(p, s)
    ensures OpenOnce(q, s)
  {
    assert p.answers[s] <= q.answers[s];
    forall t | Asked(p.answers[s], t)
      ensures Asked(q.answers[s], t)
    {
      var i :| 0 <= i < |p.answers[s]| && p.answers[s][i].test == t;
      assert q.answers[s][i] == p.answers[s][i];
    }
  }

  // -- the limit of a round ----------------------------------------------------------------------

  ghost predicate WithinLimit(population: Population, p: Progress)
    requires Shaped(population, p)
  {
    forall s | 0 <= s < population.statements :: Spent(p, s) <= Limit(population, p, s)
  }

  lemma {:induction false} RefusedOfMore(refused: set<Pair>, over: seq<Pair>, s: nat)
    requires Unique(over)
    ensures var now := RefusedOf(refused + Elements(over), s);
      && |now| <= |RefusedOf(refused, s)| + 1
      && ((forall i | 0 <= i < |over| :: over[i].0 != s) ==> now == RefusedOf(refused, s))
  {
    var now, was := RefusedOf(refused + Elements(over), s), RefusedOf(refused, s);
    if i :| 0 <= i < |over| && over[i].0 == s {
      assert forall j | 0 <= j < |over| && j != i :: over[j].0 != s;
      assert now == was + {over[i]};
    } else {
      assert now == was;
    }
  }

  /** A round spends at most one test on a statement, and only on an undecided one. */
  lemma {:induction false} SettledWithinLimit(population: Population, p: Progress, q: Progress, asks: seq<Pair>, over: seq<Pair>)
    requires Shaped(population, p) && Settled(population, p, q, asks, over)
    requires Settleable(population, p, asks) && Settleable(population, p, over) && Apart(asks, over)
    requires WithinLimit(population, p)
    ensures WithinLimit(population, q)
  {
    forall s | 0 <= s < population.statements
      ensures Spent(q, s) <= Limit(population, q, s)
    {
      assert Spent(p, s) <= Limit(population, p, s);
      assert Added(s, p.answers[s], q.answers[s], asks);
      RefusedOfMore(p.refused, over, s);
      if i :| 0 <= i < |over| && over[i].0 == s {
        assert Askable(population, p, over[i].0, over[i].1);
      } else if q.answers[s] != p.answers[s] {
        var i :| 0 <= i < |asks| && asks[i] == (s, q.answers[s][|p.answers[s]|].test);
        assert Askable(population, p, asks[i].0, asks[i].1);
      }
    }
  }

  // -- saved answers ---------------------------------------------------------------------------------

  /** A statement's answers after its order is walked from `j` for saved ones. */
  function Seeded(answers: seq<Answer>, order: seq<nat>, s: nat, pairKey: Pair -> string, cache: Cache, j: nat): seq<Answer>
    requires j <= |order|
    decreases |order| - j
  {
    if j == |order| then answers
    else
      var t := order[j];
      var key := pairKey((s, t));
      if Asked(answers, t) || key !in cache then Seeded(answers, order, s, pairKey, cache, j + 1)
      else
        var more := answers + [Answer(t, cache[key])];
        if cache[key] >= THRESHOLD then more else Seeded(more, order, s, pairKey, cache, j + 1)
  }

  lemma {:induction false} SeededHolds(
    answers: seq<Answer>, order: seq<nat>, s: nat, pairKey: Pair -> string, cache: Cache, j: nat, tests: nat)
    requires j <= |order| && TestsOnce(answers) && TestsBelow(answers, tests) && Bounded(order, tests)
    ensures var seeded := Seeded(answers, order, s, pairKey, cache, j);
      answers <= seeded && TestsOnce(seeded) && TestsBelow(seeded, tests)
    decreases |order| - j
  {
    if j < |order| {
      var t := order[j];
      var key := pairKey((s, t));
      if Asked(answers, t) || key !in cache {
        SeededHolds(answers, order, s, pairKey, cache, j + 1, tests);
      } else {
        SeededHolds(answers + [Answer(t, cache[key])], order, s, pairKey, cache, j + 1, tests);
      }
    }
  }

  lemma {:induction false} SeededFromNothing(answers: seq<Answer>, order: seq<nat>, s: nat, pairKey: Pair -> string, j: nat)
    requires j <= |order|
    ensures Seeded(answers, order, s, pairKey, map[], j) == answers
    decreases |order| - j
  {
    if j < |order| {
      SeededFromNothing(answers, order, s, pairKey, j + 1);
    }
  }

  ghost predicate SeededFrom(population: Population, p: Progress, q: Progress, cache: Cache) {
    && |p.answers| == |p.orders| == |q.answers| && q.orders == p.orders && q.refused == p.refused && q.round == p.round
    && forall s | 0 <= s < |p.answers| ::
         q.answers[s] == Seeded(p.answers[s], p.orders[s], s, population.pairKey, cache, 0)
  }

  lemma {:induction false} SeededIsSound(population: Population, p: Progress, q: Progress, cache: Cache)
    requires Sound(population, p) && SeededFrom(population, p, q, cache)
    ensures Sound(population, q) && Grows(p, q)
  {
    forall s | 0 <= s < |p.answers|
      ensures p.answers[s] <= q.answers[s] && TestsOnce(q.answers[s]) && TestsBelow(q.answers[s], population.tests)
    {
      SeededHolds(p.answers[s], p.orders[s], s, population.pairKey, cache, 0, population.tests);
    }
    forall s | 0 <= s < |q.orders|
      ensures OpenOnce(q, s)
    {
      StaysOver(p, q, s);
    }
  }

  /** A saved answer is taken up only up to the first that asserts the statement. */
  lemma {:induction false} SeedingStops(
    answers: seq<Answer>, order: seq<nat>, s: nat, pairKey: Pair -> string, cache: Cache, j: nat, i: nat)
    requires j <= |order|
    requires |answers| <= i < |Seeded(answers, order, s, pairKey, cache, j)| - 1
    ensures Seeded(answers, order, s, pairKey, cache, j)[i].value < THRESHOLD
    decreases |order| - j
  {
    if j < |order| {
      var t := order[j];
      var key := pairKey((s, t));
      if Asked(answers, t) || key !in cache {
        SeedingStops(answers, order, s, pairKey, cache, j + 1, i);
      } else {
        var more := answers + [Answer(t, cache[key])];
        if cache[key] < THRESHOLD {
          if i == |answers| {
            SeededKeeps(more, order, s, pairKey, cache, j + 1, i);
          } else {
            SeedingStops(more, order, s, pairKey, cache, j + 1, i);
          }
        }
      }
    }
  }

  lemma {:induction false} SeededKeeps(
    answers: seq<Answer>, order: seq<nat>, s: nat, pairKey: Pair -> string, cache: Cache, j: nat, i: nat)
    requires j <= |order| && i < |answers|
    ensures var seeded := Seeded(answers, order, s, pairKey, cache, j);
      |answers| <= |seeded| && seeded[i] == answers[i]
    decreases |order| - j
  {
    if j < |order| {
      var t := order[j];
      var key := pairKey((s, t));
      if Asked(answers, t) || key !in cache {
        SeededKeeps(answers, order, s, pairKey, cache, j + 1, i);
      } else {
        SeededKeeps(answers + [Answer(t, cache[key])], order, s, pairKey, cache, j + 1, i);
      }
    }
  }

  // -- widening ----------------------------------------------------------------------------------------

  function TestsOf(answers: seq<Answer>): seq<nat> {
    seq(|answers|, i requires 0 <= i < |answers| => answers[i].test)
  }

  /** The tests below `tests` refused for `s`, in order. */
  function RefusedTests(refused: set<Pair>, s: nat, tests: nat): seq<nat> {
    if tests == 0 then []
    else RefusedTests(refused, s, tests - 1) + (if (s, tests - 1) in refused then [tests - 1] else [])
  }

  function AskedTests(population: Population, p: Progress, s: nat): seq<nat>
    requires s < |p.answers|
  {
    TestsOf(p.answers[s]) + RefusedTests(p.refused, s, population.tests)
  }

  function WiderOrder(population: Population, p: Progress, s: nat): seq<nat>
    requires s < |p.answers| == |p.orders|
  {
    if Asserted(p.answers[s]) then p.orders[s]
    else if p.round == 0 then population.order(s, MORE_TESTS)
    else
      var asked := AskedTests(population, p, s);
      asked + population.lastOrder(s, asked, LAST_TESTS)
  }

  ghost predicate AllRefused(listed: seq<nat>, refused: set<Pair>, s: nat, tests: nat) {
    forall i | 0 <= i < |listed| :: listed[i] < tests && (s, listed[i]) in refused
  }

  lemma {:induction false} RefusedTestsHold(refused: set<Pair>, s: nat, tests: nat)
    ensures AllRefused(RefusedTests(refused, s, tests), refused, s, tests)
  {
    if tests > 0 {
      RefusedTestsHold(refused, s, tests - 1);
    }
  }

  ghost predicate Widened(population: Population, p: Progress, q: Progress) {
    && |p.answers| == |p.orders| == |q.orders|
    && q.answers == p.answers && q.refused == p.refused && q.round == p.round + 1
    && forall s | 0 <= s < |p.answers| :: q.orders[s] == WiderOrder(population, p, s)
  }

  lemma {:induction false} WidenedIsSound(population: Population, p: Progress, q: Progress)
    requires Selects(population) && Sound(population, p) && Widened(population, p, q) && p.round < 2
    ensures Sound(population, q) && Grows(p, q)
  {
    forall s | 0 <= s < |q.orders|
      ensures Bounded(q.orders[s], population.tests) && OpenOnce(q, s)
    {
      WiderOrderHolds(population, p, q, s);
    }
  }

  lemma {:induction false} WiderOrderHolds(population: Population, p: Progress, q: Progress, s: nat)
    requires Selects(population) && Sound(population, p) && Widened(population, p, q) && s < |p.orders|
    ensures Bounded(q.orders[s], population.tests) && OpenOnce(q, s)
  {
    assert Bounded(p.orders[s], population.tests) && OpenOnce(p, s) && TestsBelow(p.answers[s], population.tests);
    if Asserted(p.answers[s]) {
    } else if p.round == 0 {
      assert Chosen(population.order(s, MORE_TESTS), population.tests);
    } else {
      var asked := AskedTests(population, p, s);
      var last := population.lastOrder(s, asked, LAST_TESTS);
      assert Chosen(last, population.tests);
      var refused := RefusedTests(p.refused, s, population.tests);
      RefusedTestsHold(p.refused, s, population.tests);
      assert asked == TestsOf(p.answers[s]) + refused;
      forall i | 0 <= i < |asked|
        ensures asked[i] < population.tests && !Open(q, s, asked[i])
      {
        if i < |p.answers[s]| {
          assert p.answers[s][i].test == asked[i];
        } else {
          assert asked[i] == refused[i - |p.answers[s]|];
        }
      }
      LastOnes(q, s, asked, last, population.tests);
    }
  }

  lemma {:induction false} LastOnes(q: Progress, s: nat, asked: seq<nat>, last: seq<nat>, tests: nat)
    requires s < |q.answers| == |q.orders| && q.orders[s] == asked + last && Chosen(last, tests)
    requires forall i | 0 <= i < |asked| :: asked[i] < tests && !Open(q, s, asked[i])
    ensures Bounded(q.orders[s], tests) && OpenOnce(q, s)
  {
    var order := q.orders[s];
    forall i, j | 0 <= i < j < |order|
      ensures order[i] != order[j] || !Open(q, s, order[i])
    {
      if i < |asked| {
        assert order[i] == asked[i];
      } else {
        assert last[i - |asked|] != last[j - |asked|];
      }
    }
  }

  lemma {:induction false} WidenedWithinLimit(population: Population, p: Progress, q: Progress)
    requires Shaped(population, p) && Shaped(population, q) && Widened(population, p, q) && WithinLimit(population, p)
    ensures WithinLimit(population, q)
  {
    forall s | 0 <= s < population.statements
      ensures Spent(q, s) <= Limit(population, q, s)
    {
      assert Spent(p, s) <= Limit(population, p, s);
    }
  }
}
