/** The assertion pass's requests, split until each is within the model's limits. */
module RequestLimits {

  const STATE_AND_QUESTION_TOKENS := 30_000
  const STATE_AND_QUESTIONS_TOKENS := 60_000

  /** A test, and the statements it is asked about. */
  datatype Request = Request(test: nat, asked: seq<nat>)

  /** A statement and a test. */
  type Pair = (nat, nat)

  /** The estimated tokens of a request's state, of its longest question, and of
      all of it. */
  datatype Sizes = Sizes(state: Request -> nat, longest: Request -> nat, whole: Request -> nat)

  predicate Fits(sizes: Sizes, request: Request) {
    && sizes.state(request) + sizes.longest(request) <= STATE_AND_QUESTION_TOKENS
    && sizes.whole(request) <= STATE_AND_QUESTIONS_TOKENS
  }

  predicate AsksSomething(request: Request) {
    request.asked != []
  }

  ghost predicate AllAskSomething(batch: seq<Request>) {
    forall i | 0 <= i < |batch| :: AsksSomething(batch[i])
  }

  function Asks(request: Request): (pairs: seq<Pair>)
    ensures |pairs| == |request.asked|
  {
    seq(|request.asked|, i requires 0 <= i < |request.asked| => (request.asked[i], request.test))
  }

  function AllAsks(batch: seq<Request>): seq<Pair> {
    if batch == [] then [] else Asks(batch[0]) + AllAsks(batch[1..])
  }

  // -- what becomes of one request, and of a stack of them ----------------------------

  function Half(request: Request, second: bool): Request {
    var middle := |request.asked| / 2;
    Request(request.test, if second then request.asked[middle..] else request.asked[..middle])
  }

  /** The requests that come of one; the half pushed last is popped first. */
  function Parts(sizes: Sizes, request: Request): seq<Request>
    requires AsksSomething(request)
    decreases |request.asked|
  {
    if Fits(sizes, request) then [request]
    else if |request.asked| > 1 then Parts(sizes, Half(request, true)) + Parts(sizes, Half(request, false))
    else []
  }

  /** The pairs that are over the limits even alone. */
  function TooLong(sizes: Sizes, request: Request): seq<Pair>
    requires AsksSomething(request)
    decreases |request.asked|
  {
    if Fits(sizes, request) then []
    else if |request.asked| > 1 then TooLong(sizes, Half(request, true)) + TooLong(sizes, Half(request, false))
    else Asks(request)
  }

  function Kept(sizes: Sizes, batch: seq<Request>): seq<Request>
    requires AllAskSomething(batch)
  {
    if batch == [] then [] else Parts(sizes, batch[|batch| - 1]) + Kept(sizes, batch[..|batch| - 1])
  }

  function Refused(sizes: Sizes, batch: seq<Request>): seq<Pair>
    requires AllAskSomething(batch)
  {
    if batch == [] then [] else TooLong(sizes, batch[|batch| - 1]) + Refused(sizes, batch[..|batch| - 1])
  }

  // -- conservation ---------------------------------------------------------------------

  lemma {:induction false} AllAsksConcat(first: seq<Request>, second: seq<Request>)
    ensures AllAsks(first + second) == AllAsks(first) + AllAsks(second)
  {
    if first == [] {
      assert first + second == second;
    } else {
      assert (first + second)[1..] == first[1..] + second;
      AllAsksConcat(first[1..], second);
    }
  }

  lemma {:induction false} HalvesAsk(request: Request)
    ensures multiset(Asks(request)) == multiset(Asks(Half(request, true))) + multiset(Asks(Half(request, false)))
  {
    assert Asks(request) == Asks(Half(request, false)) + Asks(Half(request, true));
  }

  lemma {:induction false} PartsConserve(sizes: Sizes, request: Request)
    requires AsksSomething(request)
    ensures multiset(AllAsks(Parts(sizes, request))) + multiset(TooLong(sizes, request)) == multiset(Asks(request))
    decreases |request.asked|
  {
    if Fits(sizes, request) {
      assert AllAsks([request]) == Asks(request) + AllAsks([]);
    } else if |request.asked| > 1 {
      PartsConserve(sizes, Half(request, true));
      PartsConserve(sizes, Half(request, false));
      AllAsksConcat(Parts(sizes, Half(request, true)), Parts(sizes, Half(request, false)));
      HalvesAsk(request);
    }
  }

  /** Every pair of the batch is asked in exactly one request or refused, and none
      is made up. */
  lemma {:induction false} PairsAreConserved(sizes: Sizes, batch: seq<Request>)
    requires AllAskSomething(batch)
    ensures multiset(AllAsks(Kept(sizes, batch))) + multiset(Refused(sizes, batch)) == multiset(AllAsks(batch))
  {
    if batch != [] {
      var last, before := batch[|batch| - 1], batch[..|batch| - 1];
      PartsConserve(sizes, last);
      PairsAreConserved(sizes, before);
      AllAsksConcat(Parts(sizes, last), Kept(sizes, before));
      LastAsks(batch);
    }
  }

  lemma {:induction false} LastAsks(batch: seq<Request>)
    requires batch != []
    ensures AllAsks(batch) == AllAsks(batch[..|batch| - 1]) + Asks(batch[|batch| - 1])
  {
    var last, before := batch[|batch| - 1], batch[..|batch| - 1];
    AllAsksConcat(before, [last]);
    assert before + [last] == batch;
    assert AllAsks([last]) == Asks(last) + AllAsks([]);
  }

  // -- both limits hold, and nothing was refused for less ----------------------------------

  ghost predicate WithinBoth(sizes: Sizes, batch: seq<Request>) {
    forall i | 0 <= i < |batch| :: Fits(sizes, batch[i]) && AsksSomething(batch[i])
  }

  ghost predicate OverAlone(sizes: Sizes, pairs: seq<Pair>) {
    forall i | 0 <= i < |pairs| :: !Fits(sizes, Request(pairs[i].1, [pairs[i].0]))
  }

  lemma {:induction false} PartsFit(sizes: Sizes, request: Request)
    requires AsksSomething(request)
    ensures WithinBoth(sizes, Parts(sizes, request)) && OverAlone(sizes, TooLong(sizes, request))
    decreases |request.asked|
  {
    if !Fits(sizes, request) {
      if |request.asked| > 1 {
        PartsFit(sizes, Half(request, true));
        PartsFit(sizes, Half(request, false));
      } else {
        assert request == Request(request.test, [request.asked[0]]);
      }
    }
  }

  /** Every request asked is within both limits and about some statement, and a
      refused pair's own request breaks one of them. */
  lemma {:induction false} LimitsHold(sizes: Sizes, batch: seq<Request>)
    requires AllAskSomething(batch)
    ensures WithinBoth(sizes, Kept(sizes, batch)) && OverAlone(sizes, Refused(sizes, batch))
  {
    if batch != [] {
      PartsFit(sizes, batch[|batch| - 1]);
      LimitsHold(sizes, batch[..|batch| - 1]);
    }
  }

  /** A piece asks its test about at most as much as the request it came of. */
  lemma {:induction false} PartsAreNoLonger(sizes: Sizes, request: Request, bound: nat)
    requires AsksSomething(request) && |request.asked| <= bound
    ensures forall i | 0 <= i < |Parts(sizes, request)| :: |Parts(sizes, request)[i].asked| <= bound
    decreases |request.asked|
  {
    if !Fits(sizes, request) && |request.asked| > 1 {
      PartsAreNoLonger(sizes, Half(request, true), bound);
      PartsAreNoLonger(sizes, Half(request, false), bound);
    }
  }

  // -- what is split, and the order of what comes out ---------------------------------------

  predicate IsHalf(part: Request, whole: Request) {
    && part.test == whole.test && |whole.asked| >= 2
    && (part.asked == whole.asked[..|whole.asked| / 2] || part.asked == whole.asked[|whole.asked| / 2..])
  }

  /** The requests before and after a split: only one over the limits is, in halves. */
  ghost predicate SplitFrom(sizes: Sizes, part: Request, request: Request)
    decreases |request.asked|
  {
    part == request
    || (!Fits(sizes, request)
        && exists half ::
             IsHalf(half, request) && |half.asked| < |request.asked| && SplitFrom(sizes, part, half))
  }

  /** Every piece comes of the request by halving what is over the limits and nothing
      else: a request within them is asked as it is. */
  lemma {:induction false} OnlyHalved(sizes: Sizes, request: Request, i: nat)
    requires AsksSomething(request) && i < |Parts(sizes, request)|
    ensures SplitFrom(sizes, Parts(sizes, request)[i], request)
    decreases |request.asked|
  {
    if !Fits(sizes, request) {
      var second, first := Half(request, true), Half(request, false);
      var n := |Parts(sizes, second)|;
      if i < n {
        OnlyHalved(sizes, second, i);
        assert IsHalf(second, request) && |second.asked| < |request.asked|;
      } else {
        OnlyHalved(sizes, first, i - n);
        assert IsHalf(first, request) && |first.asked| < |request.asked|;
      }
    }
  }

  lemma {:induction false} AllOnlyHalved(sizes: Sizes, batch: seq<Request>, i: nat)
    requires AllAskSomething(batch) && i < |Kept(sizes, batch)|
    ensures exists j :: 0 <= j < |batch| && SplitFrom(sizes, Kept(sizes, batch)[i], batch[j])
  {
    var last, before := batch[|batch| - 1], batch[..|batch| - 1];
    var n := |Parts(sizes, last)|;
    if i < n {
      OnlyHalved(sizes, last, i);
    } else {
      AllOnlyHalved(sizes, before, i - n);
      var j :| 0 <= j < |before| && SplitFrom(sizes, Kept(sizes, before)[i - n], before[j]);
      assert before[j] == batch[j];
    }
  }

  /** What the requests ask, from the last request to the first. */
  function AsksBackwards(batch: seq<Request>): seq<Pair> {
    if batch == [] then [] else AsksBackwards(batch[1..]) + Asks(batch[0])
  }

  lemma {:induction false} BackwardsConcat(first: seq<Request>, second: seq<Request>)
    ensures AsksBackwards(first + second) == AsksBackwards(second) + AsksBackwards(first)
  {
    if first == [] {
      assert first + second == second;
    } else {
      assert (first + second)[1..] == first[1..] + second;
      BackwardsConcat(first[1..], second);
    }
  }

  /** `some` are those of `all` at the positions `at`, in order. */
  ghost predicate InOrder(some: seq<Pair>, all: seq<Pair>, at: seq<nat>) {
    && |at| == |some| && (forall i | 0 <= i < |at| :: at[i] < |all| && some[i] == all[at[i]])
    && forall i, j | 0 <= i < j < |at| :: at[i] < at[j]
  }

  lemma {:induction false} OrderedConcat(
    some: seq<Pair>, all: seq<Pair>, at: seq<nat>, more: seq<Pair>, rest: seq<Pair>, after: seq<nat>)
    returns (both: seq<nat>)
    requires InOrder(some, all, at) && InOrder(more, rest, after)
    ensures InOrder(some + more, all + rest, both)
  {
    both := at + seq(|after|, i requires 0 <= i < |after| => |all| + after[i]);
    forall i | 0 <= i < |both|
      ensures both[i] < |all + rest| && (some + more)[i] == (all + rest)[both[i]]
    {
      if i >= |at| {
        assert both[i] == |all| + after[i - |at|];
      }
    }
    forall i, j | 0 <= i < j < |both|
      ensures both[i] < both[j]
    {
      if j >= |at| {
        assert both[j] == |all| + after[j - |at|];
        if i >= |at| {
          assert both[i] == |all| + after[i - |at|];
        }
      }
    }
  }

  lemma {:induction false} JoinedInOrder(
    first: seq<Request>, of: seq<Pair>, sooner: seq<nat>, second: seq<Request>, last: seq<Pair>, later: seq<nat>)
    returns (at: seq<nat>)
    requires InOrder(AsksBackwards(first), of, sooner) && InOrder(AsksBackwards(second), last, later)
    ensures InOrder(AsksBackwards(second + first), of + last, at)
  {
    BackwardsConcat(second, first);
    at := OrderedConcat(AsksBackwards(first), of, sooner, AsksBackwards(second), last, later);
  }

  lemma {:induction false} PartsInOrder(sizes: Sizes, request: Request) returns (at: seq<nat>)
    requires AsksSomething(request)
    ensures InOrder(AsksBackwards(Parts(sizes, request)), Asks(request), at)
    decreases |request.asked|
  {
    if Fits(sizes, request) {
      at := seq(|request.asked|, i => i);
      assert AsksBackwards([request]) == AsksBackwards([]) + Asks(request);
    } else if |request.asked| > 1 {
      var second, first := Half(request, true), Half(request, false);
      var later := PartsInOrder(sizes, second);
      var sooner := PartsInOrder(sizes, first);
      assert Asks(request) == Asks(first) + Asks(second);
      at := JoinedInOrder(Parts(sizes, first), Asks(first), sooner, Parts(sizes, second), Asks(second), later);
    } else {
      at := [];
    }
  }

  /** The last requests go out first, and so do the halves; read backwards they ask the
      batch's pairs in the batch's order. */
  lemma {:induction false} OrderIsReversed(sizes: Sizes, batch: seq<Request>) returns (at: seq<nat>)
    requires AllAskSomething(batch)
    ensures InOrder(AsksBackwards(Kept(sizes, batch)), AllAsks(batch), at)
  {
    if batch == [] {
      at := [];
    } else {
      var last, before := batch[|batch| - 1], batch[..|batch| - 1];
      var sooner := OrderIsReversed(sizes, before);
      var later := PartsInOrder(sizes, last);
      LastAsks(batch);
      at := JoinedInOrder(Kept(sizes, before), AllAsks(before), sooner, Parts(sizes, last), Asks(last), later);
    }
  }

  // -- the loop --------------------------------------------------------------------------

  function Measure(pending: seq<Request>): nat
    requires AllAskSomething(pending)
  {
    if pending == [] then 0
    else 2 * |pending[|pending| - 1].asked| - 1 + Measure(pending[..|pending| - 1])
  }

  function Elements(pairs: seq<Pair>): set<Pair> {
    set i | 0 <= i < |pairs| :: pairs[i]
  }

  lemma {:induction false} ElementsConcat(first: seq<Pair>, second: seq<Pair>)
    ensures Elements(first + second) == Elements(first) + Elements(second)
  {
    forall p | p in Elements(first) + Elements(second)
      ensures p in Elements(first + second)
    {
      if p in Elements(first) {
        var i :| 0 <= i < |first| && first[i] == p;
        assert (first + second)[i] == p;
      } else {
        var i :| 0 <= i < |second| && second[i] == p;
        assert (first + second)[|first| + i] == p;
      }
    }
  }

  lemma {:induction false} OneElement(p: Pair)
    ensures Elements([p]) == {p}
  {
    assert [p][0] == p;
  }

  lemma {:induction false} Pushed(sizes: Sizes, pending: seq<Request>, first: Request, second: Request)
    requires AllAskSomething(pending) && AsksSomething(first) && AsksSomething(second)
    ensures var pushed := pending + [first, second];
      && AllAskSomething(pushed)
      && Kept(sizes, pushed) == Parts(sizes, second) + Parts(sizes, first) + Kept(sizes, pending)
      && Refused(sizes, pushed) == TooLong(sizes, second) + TooLong(sizes, first) + Refused(sizes, pending)
      && Measure(pushed) == Measure(pending) + 2 * |first.asked| - 1 + 2 * |second.asked| - 1
  {
    var pushed := pending + [first, second];
    assert pushed[..|pushed| - 1] == pending + [first];
    assert (pending + [first])[..|pending|] == pending;
  }

  /** `within_limits`: the requests asked and the refused pairs it adds are the ones
      described above. */
  method WithinLimits(sizes: Sizes, refused: set<Pair>, batch: seq<Request>) returns (out: seq<Request>, nowRefused: set<Pair>)
    requires AllAskSomething(batch)
    ensures out == Kept(sizes, batch)
    ensures nowRefused == refused + Elements(Refused(sizes, batch))
  {
    out, nowRefused := [], refused;
    var pending := batch;
    while pending != []
      invariant AllAskSomething(pending)
      invariant out + Kept(sizes, pending) == Kept(sizes, batch)
      invariant nowRefused + Elements(Refused(sizes, pending)) == refused + Elements(Refused(sizes, batch))
      decreases Measure(pending)
    {
      var request, rest := pending[|pending| - 1], pending[..|pending| - 1];
      ElementsConcat(TooLong(sizes, request), Refused(sizes, rest));
      if Fits(sizes, request) {
        assert out + ([request] + Kept(sizes, rest)) == out + [request] + Kept(sizes, rest);
        out, pending := out + [request], rest;
      } else if |request.asked| > 1 {
        var left, right := Half(request, false), Half(request, true);
        Pushed(sizes, rest, left, right);
        assert TooLong(sizes, right) + TooLong(sizes, left) + Refused(sizes, rest) == Refused(sizes, pending);
        assert Parts(sizes, right) + Parts(sizes, left) + Kept(sizes, rest) == Kept(sizes, pending);
        pending := rest + [left, right];
      } else {
        assert Asks(request) == [(request.asked[0], request.test)];
        OneElement((request.asked[0], request.test));
        nowRefused, pending := nowRefused + {(request.asked[0], request.test)}, rest;
      }
    }
  }
}
