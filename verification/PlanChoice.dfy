/** Which requests a plan makes: of the tests not yet used, always one that most of the
    statements no request took can still be asked of. */
module PlanChoice {
  import opened RequestLimits
  import opened AssertionPlan

  /** Undecided, in numbers: no answer of a half or more, and fewer than 5, 15 or 18
      tests answered or refused, by the round, and not all that run it. */
  lemma {:induction false} UndecidedInNumbers(population: Population, p: Progress, s: nat)
    requires Shaped(population, p) && s < population.statements
    ensures var tests := |p.answers[s]| + |set pair | pair in p.refused && pair.0 == s|;
      Undecided(population, p, s)
      <==> (forall i | 0 <= i < |p.answers[s]| :: p.answers[s][i].value < 0.5)
           && tests < (if p.round == 0 then 5 else if p.round == 1 then 15 else 18) && tests < population.ranBy(s)
  {
    assert RefusedOf(p.refused, s) == set pair | pair in p.refused && pair.0 == s;
  }

  /** The statements the test can be asked about that no request has taken. */
  function Claims(population: Population, p: Progress, batch: seq<Request>, t: nat): set<nat>
    requires Shaped(population, p)
  {
    set s | 0 <= s < population.statements && Askable(population, p, s, t)
            && forall j | 0 <= j < |batch| :: s !in batch[j].asked
  }

  lemma {:induction false} TakenAre(batch: seq<Request>, s: nat)
    ensures s in Taken(batch) <==> exists j :: 0 <= j < |batch| && s in batch[j].asked
  {
    if batch != [] {
      var before, last := batch[..|batch| - 1], batch[|batch| - 1];
      TakenAre(before, s);
      assert s in Members(last.asked) <==> s in last.asked;
      if s in Taken(before) {
        var j :| 0 <= j < |before| && s in before[j].asked;
        assert batch[j] == before[j];
      }
      if j :| 0 <= j < |batch| && s in batch[j].asked {
        assert j < |before| ==> batch[j] == before[j];
      }
    }
  }

  ghost predicate Increasing(ss: seq<nat>) {
    forall i, j | 0 <= i < j < |ss| :: ss[i] < ss[j]
  }

  lemma {:induction false} AskableIncrease(population: Population, p: Progress, t: nat, k: nat)
    requires Shaped(population, p) && k <= population.statements
    ensures Increasing(AskableFor(population, p, t, k))
  {
    AskableForHolds(population, p, t, k);
    if k > 0 {
      AskableIncrease(population, p, t, k - 1);
      AskableForHolds(population, p, t, k - 1);
    }
  }

  lemma {:induction false} WithoutIncreases(ss: seq<nat>, taken: set<nat>)
    requires Increasing(ss)
    ensures Increasing(Without(ss, taken))
  {
    if ss != [] {
      var rest := Without(ss[1..], taken);
      WithoutIncreases(ss[1..], taken);
      WithoutHolds(ss[1..], taken);
      forall i | 0 <= i < |rest|
        ensures ss[0] < rest[i]
      {
        var j :| 0 <= j < |ss[1..]| && ss[1..][j] == rest[i];
        assert ss[0] < ss[j + 1];
      }
    }
  }

  /** What a test can still be asked about is its claims, from the least on. */
  lemma {:induction false} RemainingAre(population: Population, p: Progress, batch: seq<Request>, t: nat)
    requires Shaped(population, p)
    ensures var rest := Remaining(population, p, t, batch);
      Increasing(rest) && Members(rest) == Claims(population, p, batch, t) && |rest| == |Members(rest)|
  {
    var rest := Remaining(population, p, t, batch);
    RemainingHolds(population, p, t, batch);
    AskableIncrease(population, p, t, population.statements);
    WithoutIncreases(AskableFor(population, p, t, population.statements), Taken(batch));
    DistinctCount(rest);
    forall s: nat
      ensures s in Members(rest) <==> s in Claims(population, p, batch, t)
    {
      TakenAre(batch, s);
    }
  }

  /** Each request of a plan: its test has the most claims of those not used before it,
      the least of them at a tie, and it asks of the first 150 of its claims. */
  lemma {:induction false} MostAreAsked(population: Population, p: Progress, requests: nat, batch: seq<Request>, i: nat, u: nat)
    requires Shaped(population, p) && Planned(population, p, requests, batch) && i < |batch|
    requires forall j | 0 <= j < i :: batch[j].test != u
    ensures var mine, others :=
        Claims(population, p, batch[..i], batch[i].test), Claims(population, p, batch[..i], u);
      |mine| > |others| || (|mine| == |others| && batch[i].test <= u)
  {
    var before := batch[..i];
    assert Greedy(population, p, before, batch[i]);
    RemainingAre(population, p, before, batch[i].test);
    RemainingAre(population, p, before, u);
    forall j | 0 <= j < |before|
      ensures before[j].test != u
    {
      assert before[j] == batch[j];
    }
    assert u !in Tests(before);
    assert Remaining(population, p, u, before) == [] || Beats(population, p, before, batch[i].test, u);
  }

  lemma {:induction false} FirstAreAsked(population: Population, p: Progress, requests: nat, batch: seq<Request>, i: nat)
    requires Shaped(population, p) && Planned(population, p, requests, batch) && i < |batch|
    ensures var asked, claims := batch[i].asked, Claims(population, p, batch[..i], batch[i].test);
      && Increasing(asked) && |asked| == (if |claims| < 150 then |claims| else 150)
      && (forall k | 0 <= k < |asked| :: asked[k] in claims)
      && forall s, k | s in claims && s !in asked && 0 <= k < |asked| :: asked[k] < s
  {
    var before, t := batch[..i], batch[i].test;
    assert Greedy(population, p, before, batch[i]);
    RemainingAre(population, p, before, t);
    var rest, asked := Remaining(population, p, t, before), batch[i].asked;
    assert forall k | 0 <= k < |asked| :: asked[k] == rest[k];
    forall k | 0 <= k < |asked|
      ensures asked[k] in Claims(population, p, before, t)
    {
      assert rest[k] in Members(rest);
    }
    forall s, k | s in Claims(population, p, before, t) && s !in asked && 0 <= k < |asked|
      ensures asked[k] < s
    {
      var m :| 0 <= m < |rest| && rest[m] == s;
    }
  }
}
