/** What a pass offers to ask, round by round, and what is left unasked when it ends:
    of the tests the population chooses for a statement, none that could still be. */
module AssertionOffers {
  import opened RequestLimits
  import opened AssertionPlan
  import opened AssertionPass
  import opened SavedAnswers

  /** The test was answered about the statement, or refused for it. */
  predicate Done(p: Progress, s: nat, t: nat)
    requires s < |p.answers|
  {
    Asked(p.answers[s], t) || (s, t) in p.refused
  }

  lemma {:induction false} DoneStays(p: Progress, q: Progress, s: nat, t: nat)
    requires Grows(p, q) && s < |p.answers| && Done(p, s, t)
    ensures Done(q, s, t)
  {
    assert p.answers[s] <= q.answers[s];
    if Asked(p.answers[s], t) {
      var i :| 0 <= i < |p.answers[s]| && p.answers[s][i].test == t;
      assert q.answers[s][i].test == t;
    }
  }

  lemma {:induction false} AssertedStays(p: Progress, q: Progress, s: nat)
    requires Grows(p, q) && s < |p.answers|
    ensures Asserted(p.answers[s]) ==> Asserted(q.answers[s])
  {
    assert p.answers[s] <= q.answers[s];
    if Asserted(p.answers[s]) {
      var i :| 0 <= i < |p.answers[s]| && p.answers[s][i].value >= THRESHOLD;
      assert q.answers[s][i] == p.answers[s][i];
    }
  }

  ghost predicate AllDone(p: Progress, s: nat, tests: seq<nat>)
    requires s < |p.answers|
  {
    forall i | 0 <= i < |tests| :: Done(p, s, tests[i])
  }

  lemma {:induction false} AllDoneStays(p: Progress, q: Progress, s: nat, tests: seq<nat>)
    requires Grows(p, q) && s < |p.answers| && AllDone(p, s, tests)
    ensures AllDone(q, s, tests)
  {
    forall i | 0 <= i < |tests|
      ensures Done(q, s, tests[i])
    {
      DoneStays(p, q, s, tests[i]);
    }
  }

  // -- what is asked before the last tests are chosen ----------------------------------------------

  lemma {:induction false} RefusedAreListed(refused: set<Pair>, s: nat, tests: nat, t: nat)
    ensures t in RefusedTests(refused, s, tests) <==> t < tests && (s, t) in refused
    ensures forall i, j | 0 <= i < j < |RefusedTests(refused, s, tests)| ::
      RefusedTests(refused, s, tests)[i] < RefusedTests(refused, s, tests)[j]
  {
    RefusedTestsHold(refused, s, tests);
    if tests > 0 {
      RefusedAreListed(refused, s, tests - 1, t);
      RefusedTestsHold(refused, s, tests - 1);
    }
  }

  /** The tests `lastOrder` is told of: those answered, in order, and then those
      refused, from the least on. */
  lemma {:induction false} AskedTestsAre(population: Population, p: Progress, s: nat, t: nat)
    requires Sound(population, p) && s < population.statements
    ensures t in AskedTests(population, p, s) <==> Done(p, s, t)
    ensures var asked, n := AskedTests(population, p, s), |p.answers[s]|;
      && n <= |asked| && (forall i | 0 <= i < n :: asked[i] == p.answers[s][i].test)
      && forall i, j | n <= i < j < |asked| :: asked[i] < asked[j]
  {
    var tests, refused := TestsOf(p.answers[s]), RefusedTests(p.refused, s, population.tests);
    RefusedAreListed(p.refused, s, population.tests, t);
    assert t in AskedTests(population, p, s) <==> t in tests || t in refused;
    if Asked(p.answers[s], t) {
      var i :| 0 <= i < |p.answers[s]| && p.answers[s][i].test == t;
      assert tests[i] == t;
    }
  }

  // -- what a wider round offers --------------------------------------------------------------------

  /** In the second round, up to 15 tests of the statements not asserted. */
  ghost predicate MoreOffered(population: Population, p: Progress)
    requires Shaped(population, p)
  {
    forall s | 0 <= s < population.statements && !Asserted(p.answers[s]) :: p.orders[s] == population.order(s, 15)
  }

  /** In the third, those asked when the second was left, and three more. */
  ghost predicate LastOffered(population: Population, left: Progress, p: Progress)
    requires Shaped(population, left) && Shaped(population, p)
  {
    forall s | 0 <= s < population.statements && !Asserted(p.answers[s]) ::
      p.orders[s]
      == AskedTests(population, left, s) + population.lastOrder(s, AskedTests(population, left, s), 3)
  }

  ghost predicate Offered(population: Population, p: Progress, q: Progress)
    requires Shaped(population, p) && Shaped(population, q)
  {
    if p.round == 0 then MoreOffered(population, q) else LastOffered(population, p, q)
  }

  lemma {:induction false} WideningOffers(population: Population, p: Progress, q: Progress)
    requires Shaped(population, p) && p.round < 2 && Widened(population, p, q)
    ensures Shaped(population, q) && Offered(population, p, q)
  {
  }

  /** What is open to a statement that is not asserted, once the pass widened: exactly
      the tests the population chooses that are neither answered nor refused. */
  lemma {:induction false} OpenAreTheChosen(population: Population, p: Progress, q: Progress, s: nat, t: nat)
    requires Sound(population, p) && p.round < 2 && Widened(population, p, q)
    requires s < population.statements && !Asserted(p.answers[s])
    ensures |q.orders| == |q.answers| == population.statements
    ensures Open(q, s, t)
      <==> !Done(p, s, t)
           && if p.round == 0 then t in population.order(s, 15)
              else t in population.lastOrder(s, AskedTests(population, p, s), 3)
  {
    WideningOffers(population, p, q);
    if p.round == 1 {
      var asked := AskedTests(population, p, s);
      AskedTestsAre(population, p, s, t);
      assert q.orders[s] == asked + population.lastOrder(s, asked, 3);
    }
  }

  /** Offers do not change but where a statement is asserted. */
  lemma {:induction false} OffersStay(population: Population, p: Progress, q: Progress)
    requires Shaped(population, p) && Shaped(population, q) && Grows(p, q) && q.orders == p.orders
    ensures MoreOffered(population, p) ==> MoreOffered(population, q)
    ensures forall left | Shaped(population, left) && LastOffered(population, left, p) :: LastOffered(population, left, q)
  {
    forall s | 0 <= s < population.statements
      ensures Asserted(p.answers[s]) ==> Asserted(q.answers[s])
    {
      AssertedStays(p, q, s);
    }
  }

  // -- all that is asked comes from the 15 -----------------------------------------------------------

  ghost predicate AllFrom(tests: seq<nat>, chosen: seq<nat>) {
    forall i | 0 <= i < |tests| :: tests[i] in chosen
  }

  /** In the first two rounds: what is offered, answered or refused of a statement is
      among its 15. */
  ghost predicate FromMore(population: Population, p: Progress, s: nat)
    requires s < |p.answers| == |p.orders|
  {
    var more := population.order(s, 15);
    && AllFrom(p.orders[s], more) && AllFrom(TestsOf(p.answers[s]), more)
    && forall t: nat | (s, t) in p.refused :: t in more
  }

  /** No test is both answered and refused of the statement: only a saved answer is
      taken up of a refused pair. */
  predicate NoneBoth(p: Progress, s: nat)
    requires s < |p.answers|
  {
    forall i | 0 <= i < |p.answers[s]| :: (s, p.answers[s][i].test) !in p.refused
  }

  ghost predicate AllFromMore(population: Population, p: Progress) {
    Shaped(population, p) && forall s | 0 <= s < population.statements :: FromMore(population, p, s)
  }

  /** A pass that is new offers the first 5 of the 15, if that is what is chosen of 5. */
  lemma {:induction false} NewIsFromMore(population: Population, p: Progress)
    requires Shaped(population, p) && p.refused == {}
    requires forall s | 0 <= s < population.statements :: p.answers[s] == [] && p.orders[s] == population.order(s, 5)
    requires forall s: nat | s < population.statements :: AllFrom(population.order(s, 5), population.order(s, 15))
    ensures AllFromMore(population, p)
  {
    forall s | 0 <= s < population.statements
      ensures FromMore(population, p, s)
    {
      assert AllFrom(population.order(s, 5), population.order(s, 15));
    }
  }

  lemma {:induction false} RoundFromMore(
    population: Population, p: Progress, q: Progress, asks: seq<Pair>, over: seq<Pair>, s: nat)
    requires Settled(population, p, q, asks, over) && s < population.statements
    requires Settleable(population, p, asks) && Settleable(population, p, over)
    requires FromMore(population, p, s)
    ensures FromMore(population, q, s)
  {
    var more := population.order(s, 15);
    assert Added(s, p.answers[s], q.answers[s], asks);
    RefusedFromMore(population, p, q, over, s);
    if q.answers[s] != p.answers[s] {
      var last := q.answers[s][|p.answers[s]|];
      var i :| 0 <= i < |asks| && asks[i] == (s, last.test);
      assert Askable(population, p, asks[i].0, asks[i].1);
      assert q.answers[s] == p.answers[s] + [last];
      assert TestsOf(q.answers[s]) == TestsOf(p.answers[s]) + [last.test];
    }
  }

  lemma {:induction false} RefusedFromMore(population: Population, p: Progress, q: Progress, over: seq<Pair>, s: nat)
    requires Shaped(population, p) && Settleable(population, p, over) && q.refused == p.refused + Elements(over)
    requires s < population.statements && FromMore(population, p, s)
    ensures forall t: nat | (s, t) in q.refused :: t in population.order(s, 15)
  {
    forall t: nat | (s, t) in Elements(over)
      ensures t in population.order(s, 15)
    {
      var i :| 0 <= i < |over| && over[i] == (s, t);
      assert Askable(population, p, over[i].0, over[i].1);
      var j :| 0 <= j < |p.orders[s]| && p.orders[s][j] == t;
    }
  }

  lemma {:induction false} RoundKeepsFromMore(
    population: Population, p: Progress, q: Progress, asks: seq<Pair>, over: seq<Pair>)
    requires Settled(population, p, q, asks, over) && AllFromMore(population, p)
    requires Settleable(population, p, asks) && Settleable(population, p, over)
    ensures AllFromMore(population, q)
  {
    forall s | 0 <= s < population.statements
      ensures FromMore(population, q, s)
    {
      RoundFromMore(population, p, q, asks, over, s);
    }
  }

  lemma {:induction false} WideningKeepsFromMore(population: Population, p: Progress, q: Progress)
    requires AllFromMore(population, p) && p.round == 0 && Widened(population, p, q)
    ensures AllFromMore(population, q)
  {
    forall s | 0 <= s < population.statements
      ensures FromMore(population, q, s)
    {
      assert FromMore(population, p, s);
    }
  }

  lemma {:induction false} SeedingKeepsFromMore(population: Population, p: Progress, q: Progress, cache: Cache)
    requires Shaped(population, p) && Shaped(population, q) && Grows(p, q)
    requires AllFromMore(population, p) && SeededFrom(population, p, q, cache)
    ensures AllFromMore(population, q)
  {
    forall s | 0 <= s < population.statements
      ensures FromMore(population, q, s)
    {
      SeededFromMore(population, p, q, cache, s);
    }
  }

  lemma {:induction false} SeededFromMore(population: Population, p: Progress, q: Progress, cache: Cache, s: nat)
    requires Shaped(population, p) && Shaped(population, q) && Grows(p, q) && s < population.statements
    requires FromMore(population, p, s) && SeededFrom(population, p, q, cache)
    ensures FromMore(population, q, s)
  {
    var more, n := population.order(s, 15), |p.answers[s]|;
    var at := TakenUpAreSaved(p.answers[s], p.orders[s], s, population.pairKey, cache, 0);
    assert p.answers[s] <= q.answers[s];
    forall i | 0 <= i < |q.answers[s]|
      ensures TestsOf(q.answers[s])[i] in more
    {
      if i < n {
        assert TestsOf(p.answers[s])[i] == TestsOf(q.answers[s])[i];
      } else {
        var m: nat := i - n;
        assert q.answers[s][n + m].test == p.orders[s][at[m]];
      }
    }
  }

  // -- a statement with as many done as chosen --------------------------------------------------------

  lemma {:induction false} CountAtMost(s: seq<nat>)
    ensures |Members(s)| <= |s|
    decreases |s|
  {
    if s != [] {
      var last, rest := s[|s| - 1], s[..|s| - 1];
      CountAtMost(rest);
      assert Members(s) == Members(rest) + {last};
    }
  }

  /** The refused tests of a statement, as many as its refused pairs. */
  function RefusedSet(refused: set<Pair>, s: nat): set<nat> {
    set p | p in RefusedOf(refused, s) :: p.1
  }

  lemma {:induction false} RefusedCount(pairs: set<Pair>, s: nat)
    requires forall p | p in pairs :: p.0 == s
    ensures |set p | p in pairs :: p.1| == |pairs|
    decreases |pairs|
  {
    if pairs != {} {
      var pair :| pair in pairs;
      var rest := pairs - {pair};
      RefusedCount(rest, s);
      assert (set p | p in pairs :: p.1) == (set p | p in rest :: p.1) + {pair.1};
      forall p | p in rest
        ensures p.1 != pair.1
      {
        assert p == (s, p.1) && pair == (s, pair.1);
      }
    }
  }

  lemma {:induction false} FullSubset(small: set<nat>, large: set<nat>)
    requires small <= large && |small| >= |large|
    ensures small == large
  {
    assert large == small + (large - small);
  }

  /** A statement that has its limit of 15, or of all it has, done, has all of the
      chosen done. */
  lemma {:induction false} SpentIsAll(population: Population, p: Progress, s: nat)
    requires Sound(population, p) && s < population.statements && FromMore(population, p, s) && NoneBoth(p, s)
    requires Spent(p, s) >= |population.order(s, 15)|
    ensures AllDone(p, s, population.order(s, 15))
  {
    var more, tests := population.order(s, 15), TestsOf(p.answers[s]);
    var answered, refused := Members(tests), RefusedSet(p.refused, s);
    assert TestsOnce(p.answers[s]);
    DistinctCount(tests);
    RefusedCount(RefusedOf(p.refused, s), s);
    CountAtMost(more);
    BothFrom(population, p, s, answered, refused, Members(more));
    FullSubset(answered + refused, Members(more));
    forall i | 0 <= i < |more|
      ensures Done(p, s, more[i])
    {
      assert more[i] in answered + refused;
    }
  }

  lemma {:induction false} BothFrom(
    population: Population, p: Progress, s: nat, answered: set<nat>, refused: set<nat>, more: set<nat>)
    requires s < |p.answers| == |p.orders| && FromMore(population, p, s) && NoneBoth(p, s)
    requires answered == Members(TestsOf(p.answers[s])) && refused == RefusedSet(p.refused, s)
    requires more == Members(population.order(s, 15))
    ensures answered + refused <= more && answered !! refused && |answered + refused| == |answered| + |refused|
  {
    forall t | t in refused
      ensures t in more && t !in answered
    {
      var pair :| pair in RefusedOf(p.refused, s) && pair.1 == t;
      assert pair == (s, t);
    }
    forall t | t in answered
      ensures t in more
    {
      var i :| 0 <= i < |p.answers[s]| && TestsOf(p.answers[s])[i] == t;
    }
  }

  // -- the course of a pass -------------------------------------------------------------------------

  ghost predicate NoneAskable(population: Population, p: Progress)
    requires Shaped(population, p)
  {
    forall s: nat, t: nat | s < population.statements :: !Askable(population, p, s, t)
  }

  /** How a pass that began at `start` stands at `p`; `left` is where it left its second
      round. `anew` says that all it began with was from the 15. */
  ghost predicate Course(population: Population, start: Progress, left: Progress, p: Progress, anew: bool) {
    && Sound(population, p) && Grows(start, p)
    && (start.round == 0 && p.round == 1 ==> MoreOffered(population, p))
    && (start.round == 0 && p.round <= 1 && anew ==> AllFromMore(population, p))
    && (start.round <= 1 && p.round == 2 ==>
          && Sound(population, left) && left.round == 1 && Grows(left, p) && NoneAskable(population, left)
          && LastOffered(population, left, p)
          && (start.round == 0 ==> MoreOffered(population, left) && (anew ==> AllFromMore(population, left))))
  }

  lemma {:induction false} CourseBegins(population: Population, p: Progress, anew: bool)
    requires Sound(population, p) && (anew ==> AllFromMore(population, p))
    ensures Course(population, p, p, p, anew)
  {
  }

  lemma {:induction false} CourseAsks(
    population: Population, start: Progress, left: Progress, p: Progress, q: Progress, anew: bool)
    requires Course(population, start, left, p, anew) && Sound(population, q) && Grows(p, q)
    requires q.orders == p.orders && q.round == p.round
    requires AllFromMore(population, p) ==> AllFromMore(population, q)
    ensures Course(population, start, left, q, anew)
  {
    GrowsOn(start, p, q);
    OffersStay(population, p, q);
    if start.round <= 1 && p.round == 2 {
      GrowsOn(left, p, q);
    }
  }

  lemma {:induction false} CourseWidens(
    population: Population, start: Progress, left: Progress, p: Progress, q: Progress, anew: bool)
    requires Course(population, start, left, p, anew) && NoneAskable(population, p) && p.round < 2
    requires Sound(population, q) && Grows(p, q) && q.round == p.round + 1 && Offered(population, p, q)
    requires anew && p.round == 0 && AllFromMore(population, p) ==> AllFromMore(population, q)
    ensures Course(population, start, if p.round == 1 then p else left, q, anew)
  {
    GrowsOn(start, p, q);
  }

  /** When a pass ends: of every statement still undecided each of the last tests chosen
      is done; and of every statement not asserted each of the 15 is, if it was still
      undecided when they were left, or if the pass began with none but those, they are
      no more than may be asked and no test was both answered and refused. */
  ghost predicate NothingUnasked(population: Population, start: Progress, left: Progress, p: Progress, anew: bool)
    requires Shaped(population, p)
  {
    && (start.round <= 1 ==>
          && Shaped(population, left)
          && forall s | 0 <= s < population.statements && Undecided(population, p, s) ::
               AllDone(p, s, population.lastOrder(s, AskedTests(population, left, s), 3)))
    && (start.round == 0 ==>
          && Shaped(population, left)
          && forall s | 0 <= s < population.statements && !Asserted(p.answers[s])
                        && (Undecided(population, left, s) || (anew && AtMostSpent(population, s) && NoneBoth(p, s))) ::
               AllDone(p, s, population.order(s, 15)))
  }

  /** As many tests are chosen as may be asked: 15, or all there are. */
  predicate AtMostSpent(population: Population, s: nat) {
    |population.order(s, 15)| <= 15 && |population.order(s, 15)| <= population.ranBy(s)
  }

  lemma {:induction false} NoneLeft(population: Population, p: Progress, s: nat, tests: seq<nat>)
    requires Shaped(population, p) && NoneAskable(population, p) && s < population.statements && Undecided(population, p, s)
    requires forall i | 0 <= i < |tests| :: tests[i] in p.orders[s]
    ensures AllDone(p, s, tests)
  {
    forall i | 0 <= i < |tests|
      ensures Done(p, s, tests[i])
    {
      assert !Askable(population, p, s, tests[i]);
    }
  }

  lemma {:induction false} CourseEnds(population: Population, start: Progress, left: Progress, p: Progress, anew: bool)
    requires Course(population, start, left, p, anew) && p.round == 2 && NoneAskable(population, p)
    ensures NothingUnasked(population, start, left, p, anew)
  {
    if start.round <= 1 {
      forall s | 0 <= s < population.statements && Undecided(population, p, s)
        ensures AllDone(p, s, population.lastOrder(s, AskedTests(population, left, s), 3))
      {
        LastDone(population, left, p, s);
      }
    }
    if start.round == 0 {
      forall s | 0 <= s < population.statements && !Asserted(p.answers[s])
                 && (Undecided(population, left, s) || (anew && AtMostSpent(population, s) && NoneBoth(p, s)))
        ensures AllDone(p, s, population.order(s, 15))
      {
        MoreDone(population, left, p, s);
      }
    }
  }

  lemma {:induction false} LastDone(population: Population, left: Progress, p: Progress, s: nat)
    requires Shaped(population, left) && Shaped(population, p) && LastOffered(population, left, p)
    requires NoneAskable(population, p) && s < population.statements && Undecided(population, p, s)
    ensures AllDone(p, s, population.lastOrder(s, AskedTests(population, left, s), 3))
  {
    var asked := AskedTests(population, left, s);
    var last := population.lastOrder(s, asked, 3);
    assert p.orders[s] == asked + last;
    assert forall i | 0 <= i < |last| :: last[i] == p.orders[s][|asked| + i];
    NoneLeft(population, p, s, last);
  }

  lemma {:induction false} BothStay(p: Progress, q: Progress, s: nat)
    requires Grows(p, q) && s < |p.answers| && NoneBoth(q, s)
    ensures NoneBoth(p, s)
  {
    assert p.answers[s] <= q.answers[s];
    forall i | 0 <= i < |p.answers[s]|
      ensures (s, p.answers[s][i].test) !in p.refused
    {
      assert q.answers[s][i] == p.answers[s][i];
    }
  }

  lemma {:induction false} MoreDone(population: Population, left: Progress, p: Progress, s: nat)
    requires Sound(population, left) && left.round == 1 && Grows(left, p) && NoneAskable(population, left)
    requires MoreOffered(population, left) && s < population.statements && !Asserted(p.answers[s])
    requires Undecided(population, left, s)
             || (FromMore(population, left, s) && AtMostSpent(population, s) && NoneBoth(p, s))
    ensures AllDone(p, s, population.order(s, 15))
  {
    AssertedStays(left, p, s);
    if Undecided(population, left, s) {
      NoneLeft(population, left, s, population.order(s, 15));
    } else {
      BothStay(left, p, s);
      SpentIsAll(population, left, s);
    }
    AllDoneStays(left, p, s, population.order(s, 15));
  }
}
