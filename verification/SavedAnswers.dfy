/** What is in the cache of answers after a round, and what a later pass takes from it. */
module SavedAnswers {
  import opened RequestLimits
  import opened AssertionPlan
  import opened AssertionPass

  // -- what is saved -----------------------------------------------------------------------------

  /** The i-th reply answered about its j-th statement, under this key. */
  predicate WroteKey(
    pairKey: Pair -> string, batch: seq<Request>, replies: seq<Reply>, i: nat, j: nat, key: string)
  {
    && i < |batch| && i < |replies| && replies[i].Answered? && j < |batch[i].asked|
    && pairKey((batch[i].asked[j], batch[i].test)) == key
  }

  lemma {:induction false} OneKeepsOthers(
    cache: Cache, pairKey: Pair -> string, request: Request, values: seq<real>, j: nat, key: string)
    requires j <= |values| == |request.asked|
    requires forall x | 0 <= x < j :: pairKey((request.asked[x], request.test)) != key
    ensures var saved := SaveOne(cache, pairKey, request, values, j);
      (key in saved <==> key in cache) && (key in cache ==> saved[key] == cache[key])
  {
    if j > 0 {
      OneKeepsOthers(cache, pairKey, request, values, j - 1, key);
    }
  }

  lemma {:induction false} OneIsSaved(
    cache: Cache, pairKey: Pair -> string, request: Request, values: seq<real>, j: nat, x: nat, key: string)
    requires x < j <= |values| == |request.asked| && pairKey((request.asked[x], request.test)) == key
    requires forall y | x < y < j :: pairKey((request.asked[y], request.test)) != key
    ensures var saved := SaveOne(cache, pairKey, request, values, j); key in saved && saved[key] == values[x]
  {
    if x < j - 1 {
      OneIsSaved(cache, pairKey, request, values, j - 1, x, key);
    }
  }

  /** A key no reply answered under is as it was. */
  lemma {:induction false} OthersAreKept(
    cache: Cache, pairKey: Pair -> string, batch: seq<Request>, replies: seq<Reply>, k: nat, key: string)
    requires AllFitting(batch, replies) && k <= |batch|
    requires forall i: nat, j: nat | i < k :: !WroteKey(pairKey, batch, replies, i, j, key)
    ensures var saved := Saved(cache, pairKey, batch, replies, k);
      (key in saved <==> key in cache) && (key in cache ==> saved[key] == cache[key])
  {
    if k > 0 {
      OthersAreKept(cache, pairKey, batch, replies, k - 1, key);
      LaterKeeps(Saved(cache, pairKey, batch, replies, k - 1), pairKey, batch, replies, k - 1, key);
    }
  }

  lemma {:induction false} LaterKeeps(
    before: Cache, pairKey: Pair -> string, batch: seq<Request>, replies: seq<Reply>, k: nat, key: string)
    requires AllFitting(batch, replies) && k < |batch|
    requires forall j: nat :: !WroteKey(pairKey, batch, replies, k, j, key)
    ensures replies[k].Answered? ==>
      var saved := SaveOne(before, pairKey, batch[k], replies[k].values, |replies[k].values|);
      (key in saved <==> key in before) && (key in before ==> saved[key] == before[key])
  {
    if replies[k].Answered? {
      assert Fitting(batch[k], replies[k]);
      forall x | 0 <= x < |batch[k].asked|
        ensures pairKey((batch[k].asked[x], batch[k].test)) != key
      {
        assert !WroteKey(pairKey, batch, replies, k, x, key);
      }
      OneKeepsOthers(before, pairKey, batch[k], replies[k].values, |replies[k].values|, key);
    }
  }

  /** A key some reply answered under holds the value of the last that did. */
  lemma {:induction false} LastIsSaved(
    cache: Cache, pairKey: Pair -> string, batch: seq<Request>, replies: seq<Reply>, k: nat, i: nat, x: nat, key: string)
    requires AllFitting(batch, replies) && i < k <= |batch| && WroteKey(pairKey, batch, replies, i, x, key)
    requires forall j: nat | x < j :: !WroteKey(pairKey, batch, replies, i, j, key)
    requires forall m: nat, j: nat | i < m < k :: !WroteKey(pairKey, batch, replies, m, j, key)
    ensures Fitting(batch[i], replies[i])
    ensures var saved := Saved(cache, pairKey, batch, replies, k); key in saved && saved[key] == replies[i].values[x]
  {
    assert Fitting(batch[i], replies[i]);
    var before := Saved(cache, pairKey, batch, replies, k - 1);
    if i < k - 1 {
      LastIsSaved(cache, pairKey, batch, replies, k - 1, i, x, key);
      LaterKeeps(before, pairKey, batch, replies, k - 1, key);
    } else {
      forall y | x < y < |batch[i].asked|
        ensures pairKey((batch[i].asked[y], batch[i].test)) != key
      {
        assert !WroteKey(pairKey, batch, replies, i, y, key);
      }
      OneIsSaved(before, pairKey, batch[i], replies[i].values, |replies[i].values|, x, key);
    }
  }

  // -- what is taken up ----------------------------------------------------------------------------

  ghost predicate Rising(at: seq<nat>, from: nat, to: nat) {
    && (forall i | 0 <= i < |at| :: from <= at[i] < to)
    && forall i, j | 0 <= i < j < |at| :: at[i] < at[j]
  }

  /** The answers past the first `n` are the saved ones of the order's tests `at`. */
  ghost predicate FromCache(
    seeded: seq<Answer>, n: nat, order: seq<nat>, s: nat, pairKey: Pair -> string, cache: Cache, at: seq<nat>)
  {
    && |seeded| == n + |at|
    && forall i | 0 <= i < |at| ::
         && at[i] < |order| && pairKey((s, order[at[i]])) in cache
         && seeded[n + i] == Answer(order[at[i]], cache[pairKey((s, order[at[i]]))])
  }

  /** Every answer taken up is of a test of the order and holds the value saved of it;
      they come in the order's order. */
  lemma {:induction false} TakenUpAreSaved(
    answers: seq<Answer>, order: seq<nat>, s: nat, pairKey: Pair -> string, cache: Cache, j: nat)
    returns (at: seq<nat>)
    requires j <= |order|
    ensures Rising(at, j, |order|)
    ensures FromCache(Seeded(answers, order, s, pairKey, cache, j), |answers|, order, s, pairKey, cache, at)
    decreases |order| - j
  {
    at := [];
    if j < |order| {
      var key := pairKey((s, order[j]));
      if Asked(answers, order[j]) || key !in cache {
        at := TakenUpAreSaved(answers, order, s, pairKey, cache, j + 1);
      } else {
        var more := answers + [Answer(order[j], cache[key])];
        if cache[key] >= THRESHOLD {
          at := [j];
        } else {
          var rest := TakenUpAreSaved(more, order, s, pairKey, cache, j + 1);
          SeededKeeps(more, order, s, pairKey, cache, j + 1, |answers|);
          at := [j] + rest;
          FirstFromCache(answers, order, s, pairKey, cache, j, Seeded(more, order, s, pairKey, cache, j + 1), rest);
        }
      }
    }
  }

  lemma {:induction false} FirstFromCache(
    answers: seq<Answer>, order: seq<nat>, s: nat, pairKey: Pair -> string, cache: Cache, j: nat, seeded: seq<Answer>,
    rest: seq<nat>)
    requires j < |order| && pairKey((s, order[j])) in cache && Rising(rest, j + 1, |order|)
    requires FromCache(seeded, |answers| + 1, order, s, pairKey, cache, rest)
    requires seeded[|answers|] == Answer(order[j], cache[pairKey((s, order[j]))])
    ensures Rising([j] + rest, j, |order|) && FromCache(seeded, |answers|, order, s, pairKey, cache, [j] + rest)
  {
    var at := [j] + rest;
    forall i | 0 <= i < |at|
      ensures at[i] < |order| && pairKey((s, order[at[i]])) in cache
      ensures seeded[|answers| + i] == Answer(order[at[i]], cache[pairKey((s, order[at[i]]))])
    {
      if i > 0 {
        assert at[i] == rest[i - 1];
        assert seeded[|answers| + 1 + (i - 1)] == Answer(order[rest[i - 1]], cache[pairKey((s, order[rest[i - 1]]))]);
      }
    }
  }

  /** Every test of the order with a saved answer is answered, unless one taken up
      before it asserts the statement. */
  lemma {:induction false} SavedAreTakenUp(
    answers: seq<Answer>, order: seq<nat>, s: nat, pairKey: Pair -> string, cache: Cache, j: nat, x: nat)
    requires j <= x < |order| && pairKey((s, order[x])) in cache
    ensures var seeded := Seeded(answers, order, s, pairKey, cache, j);
      Asked(seeded, order[x]) || (|answers| < |seeded| && seeded[|seeded| - 1].value >= 0.5)
    decreases |order| - j
  {
    var t := order[j];
    var key := pairKey((s, t));
    if Asked(answers, t) || key !in cache {
      if j == x {
        StaysAsked(answers, order, s, pairKey, cache, j + 1, t);
      } else {
        SavedAreTakenUp(answers, order, s, pairKey, cache, j + 1, x);
      }
    } else if cache[key] < THRESHOLD {
      var more := answers + [Answer(t, cache[key])];
      if j == x {
        assert more[|answers|].test == t;
        StaysAsked(more, order, s, pairKey, cache, j + 1, t);
      } else {
        SavedAreTakenUp(more, order, s, pairKey, cache, j + 1, x);
      }
    }
  }

  lemma {:induction false} StaysAsked(
    answers: seq<Answer>, order: seq<nat>, s: nat, pairKey: Pair -> string, cache: Cache, j: nat, t: nat)
    requires j <= |order| && Asked(answers, t)
    ensures Asked(Seeded(answers, order, s, pairKey, cache, j), t)
  {
    var i :| 0 <= i < |answers| && answers[i].test == t;
    SeededKeeps(answers, order, s, pairKey, cache, j, i);
    assert Seeded(answers, order, s, pairKey, cache, j)[i].test == t;
  }

  /** So what a round saved a later pass need not ask: it has an answer to the test,
      or one that asserts the statement. */
  lemma {:induction false} NotAskedTwice(
    cache: Cache, pairKey: Pair -> string, batch: seq<Request>, replies: seq<Reply>, k: nat, i: nat, x: nat,
    answers: seq<Answer>, order: seq<nat>, y: nat)
    requires AllFitting(batch, replies) && i < k <= |batch| && replies[i].Answered? && x < |batch[i].asked|
    requires y < |order| && order[y] == batch[i].test
    ensures var s := batch[i].asked[x];
      var seeded := Seeded(answers, order, s, pairKey, Saved(cache, pairKey, batch, replies, k), 0);
      Asked(seeded, batch[i].test) || Asserted(seeded)
  {
    var s := batch[i].asked[x];
    var saved := Saved(cache, pairKey, batch, replies, k);
    var key := pairKey((s, batch[i].test));
    assert WroteKey(pairKey, batch, replies, i, x, key);
    WrittenIsThere(cache, pairKey, batch, replies, k, i, x, key);
    SavedAreTakenUp(answers, order, s, pairKey, saved, 0, y);
  }

  lemma {:induction false} OneIsThere(
    cache: Cache, pairKey: Pair -> string, request: Request, values: seq<real>, j: nat, x: nat, key: string)
    requires j <= |values| == |request.asked|
    requires key in cache || (x < j && pairKey((request.asked[x], request.test)) == key)
    ensures key in SaveOne(cache, pairKey, request, values, j)
  {
    if j > 0 && (key in cache || x < j - 1) {
      OneIsThere(cache, pairKey, request, values, j - 1, x, key);
    }
  }

  lemma {:induction false} WrittenIsThere(
    cache: Cache, pairKey: Pair -> string, batch: seq<Request>, replies: seq<Reply>, k: nat, i: nat, x: nat, key: string)
    requires AllFitting(batch, replies) && i < k <= |batch| && WroteKey(pairKey, batch, replies, i, x, key)
    ensures key in Saved(cache, pairKey, batch, replies, k)
  {
    if i < k - 1 {
      WrittenIsThere(cache, pairKey, batch, replies, k - 1, i, x, key);
    }
    if replies[k - 1].Answered? {
      assert Fitting(batch[k - 1], replies[k - 1]);
      var before := Saved(cache, pairKey, batch, replies, k - 1);
      OneIsThere(before, pairKey, batch[k - 1], replies[k - 1].values, |replies[k - 1].values|, x, key);
    }
  }

  // -- the cache a pass leaves ---------------------------------------------------------------------

  ghost predicate Injective(pairKey: Pair -> string) {
    forall p: Pair, q: Pair :: pairKey(p) == pairKey(q) ==> p == q
  }

  /** An answer there was not at the start. */
  predicate IsNew(start: Progress, p: Progress, s: nat, i: nat) {
    s < |p.answers| && s < |start.answers| && |start.answers[s]| <= i < |p.answers[s]|
  }

  /** The answer's key is in the cache, with its value if keys tell pairs apart. */
  ghost predicate Holds(pairKey: Pair -> string, cache: Cache, s: nat, answer: Answer) {
    var key := pairKey((s, answer.test));
    key in cache && (Injective(pairKey) ==> cache[key] == answer.value)
  }

  ghost predicate SomeNew(pairKey: Pair -> string, start: Progress, p: Progress, key: string, value: real) {
    exists s: nat, i: nat ::
      IsNew(start, p, s, i) && pairKey((s, p.answers[s][i].test)) == key && p.answers[s][i].value == value
  }

  /** Every new answer is in the cache, and all else in it was there before. */
  ghost predicate CacheHolds(pairKey: Pair -> string, start: Progress, p: Progress, was: Cache, cache: Cache) {
    && was.Keys <= cache.Keys
    && (forall s: nat, i: nat | IsNew(start, p, s, i) :: Holds(pairKey, cache, s, p.answers[s][i]))
    && forall key | key in cache :: (key in was && cache[key] == was[key]) || SomeNew(pairKey, start, p, key, cache[key])
  }

  lemma {:induction false} StaysNew(
    pairKey: Pair -> string, start: Progress, p: Progress, q: Progress, key: string, value: real)
    requires Grows(p, q) && SomeNew(pairKey, start, p, key, value)
    ensures SomeNew(pairKey, start, q, key, value)
  {
    var s: nat, i: nat :| IsNew(start, p, s, i) && pairKey((s, p.answers[s][i].test)) == key
                          && p.answers[s][i].value == value;
    assert p.answers[s] <= q.answers[s];
    assert q.answers[s][i] == p.answers[s][i];
    assert IsNew(start, q, s, i);
  }

  lemma {:induction false} SameAnswers(
    pairKey: Pair -> string, start: Progress, p: Progress, q: Progress, was: Cache, cache: Cache)
    requires CacheHolds(pairKey, start, p, was, cache) && q.answers == p.answers
    ensures CacheHolds(pairKey, start, q, was, cache)
  {
    forall key | key in cache && SomeNew(pairKey, start, p, key, cache[key])
      ensures SomeNew(pairKey, start, q, key, cache[key])
    {
      var s: nat, i: nat :| IsNew(start, p, s, i) && pairKey((s, p.answers[s][i].test)) == key
                            && p.answers[s][i].value == cache[key];
      assert IsNew(start, q, s, i);
    }
    forall s: nat, i: nat | IsNew(start, q, s, i)
      ensures Holds(pairKey, cache, s, q.answers[s][i])
    {
      assert IsNew(start, p, s, i);
    }
  }

  lemma {:induction false} SeedingKeepsCache(
    population: Population, start: Progress, p: Progress, q: Progress, was: Cache, cache: Cache)
    requires SeededFrom(population, p, q, cache) && Grows(p, q) && Grows(start, p)
    requires CacheHolds(population.pairKey, start, p, was, cache)
    ensures CacheHolds(population.pairKey, start, q, was, cache)
  {
    forall s: nat, i: nat | IsNew(start, q, s, i)
      ensures Holds(population.pairKey, cache, s, q.answers[s][i])
    {
      var n := |p.answers[s]|;
      assert p.answers[s] <= q.answers[s];
      if i < n {
        assert IsNew(start, p, s, i);
      } else {
        var at := TakenUpAreSaved(p.answers[s], p.orders[s], s, population.pairKey, cache, 0);
        var m: nat := i - n;
        assert q.answers[s][n + m]
            == Answer(p.orders[s][at[m]], cache[population.pairKey((s, p.orders[s][at[m]]))]);
      }
    }
    forall key | key in cache && SomeNew(population.pairKey, start, p, key, cache[key])
      ensures SomeNew(population.pairKey, start, q, key, cache[key])
    {
      StaysNew(population.pairKey, start, p, q, key, cache[key]);
    }
  }

  // -- a round and the cache -----------------------------------------------------------------------

  /** Of what is asked no answer is known, and no statement is asked about twice. */
  ghost predicate NotKnown(p: Progress, batch: seq<Request>) {
    && Unique(AllAsks(batch))
    && forall i, j | 0 <= i < |batch| && 0 <= j < |batch[i].asked| ::
         batch[i].asked[j] < |p.answers| && !Asked(p.answers[batch[i].asked[j]], batch[i].test)
  }

  ghost predicate WroteSome(pairKey: Pair -> string, batch: seq<Request>, replies: seq<Reply>, k: nat, key: string) {
    exists i: nat, j: nat :: i < k && WroteKey(pairKey, batch, replies, i, j, key)
  }

  /** The value under a key is as it was, or of some reply that answered under it. */
  lemma {:induction false} ValueIsSomeReply(
    cache: Cache, pairKey: Pair -> string, batch: seq<Request>, replies: seq<Reply>, k: nat, key: string)
    requires AllFitting(batch, replies) && k <= |batch|
    requires key in Saved(cache, pairKey, batch, replies, k)
    ensures var value := Saved(cache, pairKey, batch, replies, k)[key];
      (key in cache && value == cache[key] && !WroteSome(pairKey, batch, replies, k, key))
      || exists i: nat, j: nat ::
           i < k && WroteKey(pairKey, batch, replies, i, j, key) && Fitting(batch[i], replies[i])
           && value == replies[i].values[j]
  {
    if WroteSome(pairKey, batch, replies, k, key) {
      var i, j := LastToWrite(pairKey, batch, replies, k, key);
      LastIsSaved(cache, pairKey, batch, replies, k, i, j, key);
    } else {
      OthersAreKept(cache, pairKey, batch, replies, k, key);
    }
  }

  lemma {:induction false} LastToWrite(
    pairKey: Pair -> string, batch: seq<Request>, replies: seq<Reply>, k: nat, key: string) returns (i: nat, j: nat)
    requires k <= |batch| && WroteSome(pairKey, batch, replies, k, key)
    ensures i < k && WroteKey(pairKey, batch, replies, i, j, key)
    ensures forall y: nat | j < y :: !WroteKey(pairKey, batch, replies, i, y, key)
    ensures forall m: nat, y: nat | i < m < k :: !WroteKey(pairKey, batch, replies, m, y, key)
  {
    var last := k - 1;
    if some: nat :| WroteKey(pairKey, batch, replies, last, some, key) {
      i := last;
      j := LastInReply(pairKey, batch, replies, i, |batch[i].asked|, key, some);
    } else {
      assert WroteSome(pairKey, batch, replies, k - 1, key);
      i, j := LastToWrite(pairKey, batch, replies, k - 1, key);
    }
  }

  lemma {:induction false} LastInReply(
    pairKey: Pair -> string, batch: seq<Request>, replies: seq<Reply>, i: nat, n: nat, key: string, some: nat)
    returns (j: nat)
    requires i < |batch| && some < n <= |batch[i].asked| && WroteKey(pairKey, batch, replies, i, some, key)
    requires forall y: nat | n <= y :: !WroteKey(pairKey, batch, replies, i, y, key)
    ensures WroteKey(pairKey, batch, replies, i, j, key)
    ensures forall y: nat | j < y :: !WroteKey(pairKey, batch, replies, i, y, key)
    decreases n
  {
    if WroteKey(pairKey, batch, replies, i, n - 1, key) {
      j := n - 1;
    } else {
      j := LastInReply(pairKey, batch, replies, i, n - 1, key, some);
    }
  }

  lemma {:induction false} FromReplyIs(s: nat, request: Request, reply: Reply) returns (j: nat)
    requires Fitting(request, reply) && Unique(Asks(request)) && FromReply(s, request, reply) != []
    ensures reply.Answered? && j < |request.asked| && request.asked[j] == s
    ensures FromReply(s, request, reply) == [Answer(request.test, reply.values[j])]
  {
    OfHolds(s, request, reply.values, |reply.values|);
    j :| 0 <= j < |reply.values| && request.asked[j] == s
         && FromReply(s, request, reply) == [Answer(request.test, reply.values[j])];
  }

  /** The answer a statement gets in a round is of one of the replies. */
  lemma {:induction false} NewIsOfReply(s: nat, batch: seq<Request>, replies: seq<Reply>, k: nat) returns (i: nat, j: nat)
    requires AllFitting(batch, replies) && k <= |batch| && Unique(AllAsks(batch[..k])) && New(s, batch, replies, k) != []
    ensures i < k && replies[i].Answered? && j < |batch[i].asked| && batch[i].asked[j] == s && Fitting(batch[i], replies[i])
  {
    PrefixAsks(batch, k);
    UniqueParts(AllAsks(batch[..k - 1]), Asks(batch[k - 1]));
    if FromReply(s, batch[k - 1], replies[k - 1]) != [] {
      i := k - 1;
      j := FromReplyIs(s, batch[i], replies[i]);
    } else {
      i, j := NewIsOfReply(s, batch, replies, k - 1);
    }
  }

  /** Where keys tell pairs apart, the saved value of a pair that was asked is the
      reply's, and of one that was not what it was. */
  lemma {:induction false} OwnValue(
    p: Progress, pairKey: Pair -> string, batch: seq<Request>, replies: seq<Reply>, k: nat, cache: Cache, s: nat, t: nat)
    requires AllFitting(batch, replies) && k <= |batch| && NotKnown(p, batch) && Injective(pairKey)
    requires pairKey((s, t)) in Saved(cache, pairKey, batch, replies, k)
    ensures var key, now := pairKey((s, t)), Saved(cache, pairKey, batch, replies, k);
      (key in cache && now[key] == cache[key] && !WroteSome(pairKey, batch, replies, k, key))
      || (New(s, batch, replies, k) == [Answer(t, now[key])] && s < |p.answers| && !Asked(p.answers[s], t))
  {
    var key := pairKey((s, t));
    ValueIsSomeReply(cache, pairKey, batch, replies, k, key);
    if WroteSome(pairKey, batch, replies, k, key) {
      var i: nat, j: nat :| i < k && WroteKey(pairKey, batch, replies, i, j, key) && Fitting(batch[i], replies[i])
                            && Saved(cache, pairKey, batch, replies, k)[key] == replies[i].values[j];
      assert (batch[i].asked[j], batch[i].test) == (s, t);
      UniquePrefix(batch, k);
      EachIsKept(batch, replies, k, i, j);
    }
  }

  lemma {:induction false} OldStay(
    pairKey: Pair -> string, p: Progress, batch: seq<Request>, replies: seq<Reply>, k: nat, cache: Cache, s: nat,
    answer: Answer)
    requires AllFitting(batch, replies) && k <= |batch| && NotKnown(p, batch) && Holds(pairKey, cache, s, answer)
    requires s < |p.answers| && Asked(p.answers[s], answer.test)
    ensures Holds(pairKey, Saved(cache, pairKey, batch, replies, k), s, answer)
  {
    KeysStay(cache, pairKey, batch, replies, k, pairKey((s, answer.test)));
    if Injective(pairKey) {
      OwnValue(p, pairKey, batch, replies, k, cache, s, answer.test);
    }
  }

  lemma {:induction false} KeysStay(
    cache: Cache, pairKey: Pair -> string, batch: seq<Request>, replies: seq<Reply>, k: nat, key: string)
    requires AllFitting(batch, replies) && k <= |batch| && key in cache
    ensures key in Saved(cache, pairKey, batch, replies, k)
  {
    if WroteSome(pairKey, batch, replies, k, key) {
      var i: nat, j: nat :| i < k && WroteKey(pairKey, batch, replies, i, j, key);
      WrittenIsThere(cache, pairKey, batch, replies, k, i, j, key);
    } else {
      OthersAreKept(cache, pairKey, batch, replies, k, key);
    }
  }

  lemma {:induction false} NewIsSaved(
    pairKey: Pair -> string, p: Progress, batch: seq<Request>, replies: seq<Reply>, k: nat, cache: Cache, s: nat)
    requires AllFitting(batch, replies) && k <= |batch| && NotKnown(p, batch) && New(s, batch, replies, k) != []
    ensures |New(s, batch, replies, k)| == 1
    ensures Holds(pairKey, Saved(cache, pairKey, batch, replies, k), s, New(s, batch, replies, k)[0])
  {
    UniquePrefix(batch, k);
    var i, j := NewIsOfReply(s, batch, replies, k);
    EachIsKept(batch, replies, k, i, j);
    var key := pairKey((s, batch[i].test));
    assert WroteKey(pairKey, batch, replies, i, j, key);
    WrittenIsThere(cache, pairKey, batch, replies, k, i, j, key);
    if Injective(pairKey) {
      OwnValue(p, pairKey, batch, replies, k, cache, s, batch[i].test);
      assert WroteSome(pairKey, batch, replies, k, key);
    }
  }

  /** How `q` comes of `p` by the first `k` replies. */
  ghost predicate Heard(p: Progress, q: Progress, batch: seq<Request>, replies: seq<Reply>, k: nat)
    requires AllFitting(batch, replies) && k <= |batch|
  {
    |q.answers| == |p.answers| && forall s | 0 <= s < |p.answers| :: q.answers[s] == p.answers[s] + New(s, batch, replies, k)
  }

  lemma {:induction false} HeardAreSaved(
    pairKey: Pair -> string, start: Progress, p: Progress, q: Progress, batch: seq<Request>, replies: seq<Reply>, k: nat,
    was: Cache, cache: Cache, s: nat, i: nat)
    requires AllFitting(batch, replies) && k <= |batch| && NotKnown(p, batch) && Heard(p, q, batch, replies, k)
    requires CacheHolds(pairKey, start, p, was, cache) && IsNew(start, q, s, i)
    ensures Holds(pairKey, Saved(cache, pairKey, batch, replies, k), s, q.answers[s][i])
  {
    if i < |p.answers[s]| {
      assert IsNew(start, p, s, i) && p.answers[s][i] == q.answers[s][i];
      OldStay(pairKey, p, batch, replies, k, cache, s, p.answers[s][i]);
    } else {
      NewIsSaved(pairKey, p, batch, replies, k, cache, s);
      assert q.answers[s][i] == New(s, batch, replies, k)[0];
    }
  }

  lemma {:induction false} SavedWereHeard(
    pairKey: Pair -> string, start: Progress, p: Progress, q: Progress, batch: seq<Request>, replies: seq<Reply>, k: nat,
    was: Cache, cache: Cache, key: string)
    requires AllFitting(batch, replies) && k <= |batch| && NotKnown(p, batch) && Heard(p, q, batch, replies, k)
    requires CacheHolds(pairKey, start, p, was, cache) && Grows(start, p) && Grows(p, q)
    requires key in Saved(cache, pairKey, batch, replies, k)
    ensures var value := Saved(cache, pairKey, batch, replies, k)[key];
      (key in was && value == was[key]) || SomeNew(pairKey, start, q, key, value)
  {
    var value := Saved(cache, pairKey, batch, replies, k)[key];
    ValueIsSomeReply(cache, pairKey, batch, replies, k, key);
    if WroteSome(pairKey, batch, replies, k, key) {
      var i: nat, j: nat :| i < k && WroteKey(pairKey, batch, replies, i, j, key) && Fitting(batch[i], replies[i])
                            && value == replies[i].values[j];
      var s := batch[i].asked[j];
      UniquePrefix(batch, k);
      EachIsKept(batch, replies, k, i, j);
      assert q.answers[s][|p.answers[s]|] == Answer(batch[i].test, value);
      assert start.answers[s] <= p.answers[s];
      assert IsNew(start, q, s, |p.answers[s]|);
    } else if SomeNew(pairKey, start, p, key, value) {
      StaysNew(pairKey, start, p, q, key, value);
    }
  }

  /** A round's answers and the cache they are saved in. */
  lemma {:induction false} RoundKeepsCache(
    pairKey: Pair -> string, start: Progress, p: Progress, q: Progress, batch: seq<Request>, replies: seq<Reply>, k: nat,
    was: Cache, cache: Cache)
    requires AllFitting(batch, replies) && k <= |batch| && NotKnown(p, batch) && Heard(p, q, batch, replies, k)
    requires CacheHolds(pairKey, start, p, was, cache) && Grows(start, p) && Grows(p, q)
    ensures CacheHolds(pairKey, start, q, was, Saved(cache, pairKey, batch, replies, k))
  {
    var saved := Saved(cache, pairKey, batch, replies, k);
    forall s: nat, i: nat | IsNew(start, q, s, i)
      ensures Holds(pairKey, saved, s, q.answers[s][i])
    {
      HeardAreSaved(pairKey, start, p, q, batch, replies, k, was, cache, s, i);
    }
    forall key | key in saved
      ensures (key in was && saved[key] == was[key]) || SomeNew(pairKey, start, q, key, saved[key])
    {
      SavedWereHeard(pairKey, start, p, q, batch, replies, k, was, cache, key);
    }
    forall key | key in was
      ensures key in saved
    {
      KeysStay(cache, pairKey, batch, replies, k, key);
    }
  }

  /** The cache as a pass leaves it: one that keeps its answers saves each. */
  ghost predicate CacheIs(
    keep: bool, pairKey: Pair -> string, start: Progress, p: Progress, was: Cache, cache: Cache)
  {
    if keep then CacheHolds(pairKey, start, p, was, cache) else cache == was
  }

  lemma {:induction false} CacheBegins(keep: bool, pairKey: Pair -> string, start: Progress, was: Cache)
    ensures CacheIs(keep, pairKey, start, start, was, was)
  {
  }
}
