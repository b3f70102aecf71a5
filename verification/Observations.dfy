/** First sightings: each observed id is queued once per context together with all
    it implies, and written as numbers into a growing table of names. */
module Observations {

  type Id = string
  type Context = nat

  datatype Decision = Decision(id: Id, value: bool, outcome: Id)
  datatype Implication = Implication(hits: seq<Id>, decisions: seq<Decision>)
  type Implied = map<Id, Implication>

  /** A one-condition decision's vector: its digit is 2 when the value was true. */
  datatype Vector = Vector(context: Context, decision: Id, digits: string, outcome: bool)

  // -- what an id implies --------------------------------------------------------------

  function OutcomesOf(decisions: seq<Decision>): seq<Id> {
    if decisions == [] then [] else [decisions[0].outcome] + OutcomesOf(decisions[1..])
  }

  predicate Implies(implied: Implied, id: Id, other: Id) {
    id in implied
    && ((exists i | 0 <= i < |implied[id].hits| :: implied[id].hits[i] == other)
        || exists i | 0 <= i < |implied[id].decisions| :: implied[id].decisions[i].outcome == other)
  }

  /** A chain of implications from `id` to `other`. */
  ghost predicate Chain(implied: Implied, path: seq<Id>, id: Id, other: Id) {
    && path != [] && path[0] == id && path[|path| - 1] == other
    && forall i | 0 <= i < |path| - 1 :: Implies(implied, path[i], path[i + 1])
  }

  ghost predicate Reaches(implied: Implied, id: Id, other: Id) {
    exists path :: Chain(implied, path, id, other)
  }

  lemma {:induction false} ReachesItself(implied: Implied, id: Id)
    ensures Reaches(implied, id, id)
  {
    assert Chain(implied, [id], id, id);
  }

  lemma {:induction false} ReachesOn(implied: Implied, id: Id, next: Id, other: Id)
    requires Implies(implied, id, next) && Reaches(implied, next, other)
    ensures Reaches(implied, id, other)
  {
    var path :| Chain(implied, path, next, other);
    var longer := [id] + path;
    forall i | 0 <= i < |longer| - 1
      ensures Implies(implied, longer[i], longer[i + 1])
    {
      if i > 0 {
        assert Implies(implied, path[i - 1], path[i]);
      }
    }
    assert Chain(implied, longer, id, other);
  }

  ghost predicate Closed(implied: Implied, ids: set<Id>) {
    forall id, other | id in ids && Implies(implied, id, other) :: other in ids
  }

  lemma {:induction false} ClosedHoldsChains(implied: Implied, ids: set<Id>, path: seq<Id>, i: nat)
    requires Closed(implied, ids) && path != [] && path[0] in ids && i < |path|
    requires forall k | 0 <= k < |path| - 1 :: Implies(implied, path[k], path[k + 1])
    ensures path[i] in ids
  {
    if i > 0 {
      ClosedHoldsChains(implied, ids, path, i - 1);
      assert Implies(implied, path[i - 1], path[i]);
    }
  }

  /** Everything an id of a closed set reaches is in the set. */
  lemma {:induction false} ClosedHoldsReached(implied: Implied, ids: set<Id>, id: Id, other: Id)
    requires Closed(implied, ids) && id in ids && Reaches(implied, id, other)
    ensures other in ids
  {
    var path :| Chain(implied, path, id, other);
    ClosedHoldsChains(implied, ids, path, |path| - 1);
  }

  /** Ids on the right of some implication. */
  function Mentioned(implied: Implied): set<Id> {
    (set id, i | id in implied && 0 <= i < |implied[id].hits| :: implied[id].hits[i])
    + (set id, i | id in implied && 0 <= i < |implied[id].decisions| :: implied[id].decisions[i].outcome)
  }

  // -- one observation and all it proves --------------------------------------------------

  /** What a set of sightings grew to from one: all that is new is reached from
      it, and has had its own implications followed. */
  ghost predicate Follows(implied: Implied, was: set<Id>, now: set<Id>, from: Id) {
    && was <= now
    && (forall id | id in now - was :: Reaches(implied, from, id))
    && forall id, other | id in now - was && Implies(implied, id, other) :: other in now
  }

  /** When the sightings were closed, the new ones are exactly the observed id and
      what it reaches, whatever cycles there are. */
  lemma {:induction false} ExactlyReached(implied: Implied, was: set<Id>, now: set<Id>, from: Id)
    requires Closed(implied, was) && Follows(implied, was, now, from) && from in now
    ensures Closed(implied, now)
    ensures forall id :: id in now <==> id in was || Reaches(implied, from, id)
  {
    forall id | Reaches(implied, from, id)
      ensures id in now
    {
      ClosedHoldsReached(implied, now, from, id);
    }
  }

  lemma {:induction false} FollowsOn(implied: Implied, was: set<Id>, middle: set<Id>, now: set<Id>, id: Id, next: Id)
    requires Follows(implied, was, middle, id) && Follows(implied, middle, now, next) && Implies(implied, id, next)
    ensures Follows(implied, was, now, id)
  {
    forall other | other in now - was
      ensures Reaches(implied, id, other)
    {
      if other !in middle {
        ReachesOn(implied, id, next, other);
      }
    }
  }

  lemma {:induction false} Twice(implied: Implied, was: set<Id>, middle: set<Id>, now: set<Id>, id: Id)
    requires Follows(implied, was, middle, id) && Follows(implied, middle, now, id)
    ensures Follows(implied, was, now, id)
  {
  }

  lemma {:induction false} MentionedHolds(implied: Implied, id: Id, other: Id)
    requires Implies(implied, id, other)
    ensures other in Mentioned(implied)
  {
  }

  // -- lists of ids -----------------------------------------------------------------------

  ghost predicate NoRepeats<T>(ids: seq<T>) {
    forall i, j | 0 <= i < j < |ids| :: ids[i] != ids[j]
  }

  ghost function Elements<T>(ids: seq<T>): set<T> {
    set i | 0 <= i < |ids| :: ids[i]
  }

  lemma {:induction false} OneMore<T>(ids: seq<T>, id: T)
    ensures Elements(ids + [id]) == Elements(ids) + {id}
    ensures NoRepeats(ids) && id !in Elements(ids) ==> NoRepeats(ids + [id])
  {
    assert (ids + [id])[|ids|] == id;
    assert forall i | 0 <= i < |ids| :: (ids + [id])[i] == ids[i];
  }

  /** The list holds what is in the set, each once. */
  ghost predicate Once<T>(ids: seq<T>, all: set<T>) {
    if ids == [] then all == {}
    else
      var last := ids[|ids| - 1];
      last in all && Once(ids[..|ids| - 1], all - {last})
  }

  lemma {:induction false} OnceMeans<T>(ids: seq<T>, all: set<T>)
    ensures Once(ids, all) <==> NoRepeats(ids) && Elements(ids) == all
    decreases |ids|
  {
    if ids != [] {
      var before, last := ids[..|ids| - 1], ids[|ids| - 1];
      OnceMeans(before, all - {last});
      assert ids == before + [last];
      OneMore(before, last);
      if NoRepeats(ids) {
        assert forall i | 0 <= i < |before| :: before[i] == ids[i] && ids[i] != ids[|ids| - 1];
        assert last !in Elements(before);
      }
    }
  }

  lemma {:induction false} OnceMore<T>(ids: seq<T>, all: set<T>, id: T)
    requires Once(ids, all) && id !in all
    ensures Once(ids + [id], all + {id})
  {
    var more := ids + [id];
    assert more[..|more| - 1] == ids;
    assert all + {id} - {id} == all;
  }

  function Under<V>(lists: map<Context, seq<V>>, context: Context): seq<V> {
    if context in lists then lists[context] else []
  }

  // -- the vectors that sightings decide ---------------------------------------------------------

  function VectorOf(context: Context, decision: Decision): Vector {
    Vector(context, decision.id, if decision.value then "2" else "1", decision.value)
  }

  predicate Decides(implied: Implied, context: Context, id: Id, vector: Vector) {
    id in implied
    && IsAmong(implied[id].decisions, context, |implied[id].decisions|, vector)
  }

  /** The vector is one of the first `n` decisions'. */
  predicate IsAmong(decisions: seq<Decision>, context: Context, n: nat, vector: Vector)
    requires n <= |decisions|
  {
    exists i | 0 <= i < n :: VectorOf(context, decisions[i]) == vector
  }

  lemma {:induction false} Smaller<T>(small: set<T>, large: set<T>, x: T)
    requires small <= large && x in large && x !in small
    ensures |small| < |large|
  {
    assert small <= large - {x};
    NotLarger(small, large - {x});
  }

  lemma {:induction false} NotLarger<T>(small: set<T>, large: set<T>)
    requires small <= large
    ensures |small| <= |large|
  {
    assert large == small + (large - small);
  }

  lemma {:induction false} NoLarger(implied: Implied, was: set<Id>, middle: set<Id>, id: Id, other: Id)
    requires Implies(implied, id, other) && was <= middle
    ensures |{other} + Mentioned(implied) - middle| <= |Mentioned(implied) - was|
  {
    MentionedHolds(implied, id, other);
    NotLarger({other} + Mentioned(implied) - middle, Mentioned(implied) - was);
  }

  lemma {:induction false} HitFollows(implied: Implied, was: set<Id>, now: set<Id>, id: Id)
    requires Follows(implied, was + {id}, now, id) && forall other | Implies(implied, id, other) :: other in now
    ensures Follows(implied, was, now, id)
  {
    ReachesItself(implied, id);
  }

  // -- following implications --------------------------------------------------------------------

  /** What is known of one context: its sightings, those queued and not written
      yet, and, of all contexts, the vectors written. */
  datatype Known = Known(seen: set<Id>, queue: seq<Id>, vectors: set<Vector>, written: seq<Vector>)

  function AfterVector(k: Known, vector: Vector): Known {
    if vector in k.vectors then k else Known(k.seen, k.queue, k.vectors + {vector}, k.written + [vector])
  }

  function AfterHit(implied: Implied, context: Context, k: Known, id: Id): (after: Known)
    ensures k.seen <= after.seen
    decreases |{id} + Mentioned(implied) - k.seen|, 0, 0
  {
    if id in k.seen then k
    else
      FewerLeft(implied, k.seen, id);
      AfterImply(implied, context, Known(k.seen + {id}, k.queue + [id], k.vectors, k.written), id)
  }

  function AfterImply(implied: Implied, context: Context, k: Known, id: Id): (after: Known)
    ensures k.seen <= after.seen
    decreases |Mentioned(implied) - k.seen|, 2, 0
  {
    if id !in implied then k
    else
      var middle := AfterHits(implied, context, k, id, |implied[id].hits|);
      NotLarger(Mentioned(implied) - middle.seen, Mentioned(implied) - k.seen);
      AfterDecisions(implied, context, middle, id, |implied[id].decisions|)
  }

  /** After the first `n` hits that an id implies. */
  function AfterHits(implied: Implied, context: Context, k: Known, id: Id, n: nat): (after: Known)
    requires id in implied && n <= |implied[id].hits|
    ensures k.seen <= after.seen
    decreases |Mentioned(implied) - k.seen|, 1, n
  {
    if n == 0 then k
    else
      var before := AfterHits(implied, context, k, id, n - 1);
      NoLarger(implied, k.seen, before.seen, id, implied[id].hits[n - 1]);
      AfterHit(implied, context, before, implied[id].hits[n - 1])
  }

  function AfterDecisions(implied: Implied, context: Context, k: Known, id: Id, n: nat): (after: Known)
    requires id in implied && n <= |implied[id].decisions|
    ensures k.seen <= after.seen
    decreases |Mentioned(implied) - k.seen|, 1, n
  {
    if n == 0 then k
    else
      var before := AfterDecisions(implied, context, k, id, n - 1);
      var decision := implied[id].decisions[n - 1];
      NoLarger(implied, k.seen, before.seen, id, decision.outcome);
      AfterHit(implied, context, AfterVector(before, VectorOf(context, decision)), decision.outcome)
  }

  lemma {:induction false} FewerLeft(implied: Implied, was: set<Id>, id: Id)
    requires id !in was
    ensures |Mentioned(implied) - (was + {id})| < |{id} + Mentioned(implied) - was|
  {
    Smaller(Mentioned(implied) - (was + {id}), {id} + Mentioned(implied) - was, id);
  }

  /** One observation adds the id and what follows from it. */
  lemma {:induction false} HitIsFollowed(implied: Implied, context: Context, k: Known, id: Id)
    ensures var after := AfterHit(implied, context, k, id);
      id in after.seen && Follows(implied, k.seen, after.seen, id)
    decreases |{id} + Mentioned(implied) - k.seen|, 0, 0
  {
    if id !in k.seen {
      FewerLeft(implied, k.seen, id);
      var next := Known(k.seen + {id}, k.queue + [id], k.vectors, k.written);
      ImplyIsFollowed(implied, context, next, id);
      HitFollows(implied, k.seen, AfterImply(implied, context, next, id).seen, id);
    }
  }

  lemma {:induction false} ImplyIsFollowed(implied: Implied, context: Context, k: Known, id: Id)
    requires id in k.seen
    ensures var after := AfterImply(implied, context, k, id);
      Follows(implied, k.seen, after.seen, id) && forall other | Implies(implied, id, other) :: other in after.seen
    decreases |Mentioned(implied) - k.seen|, 2, 0
  {
    if id in implied {
      var middle := AfterHits(implied, context, k, id, |implied[id].hits|);
      HitsAreFollowed(implied, context, k, id, |implied[id].hits|);
      NotLarger(Mentioned(implied) - middle.seen, Mentioned(implied) - k.seen);
      DecisionsAreFollowed(implied, context, middle, id, |implied[id].decisions|);
      Twice(implied, k.seen, middle.seen, AfterImply(implied, context, k, id).seen, id);
    }
  }

  lemma {:induction false} HitsAreFollowed(implied: Implied, context: Context, k: Known, id: Id, n: nat)
    requires id in k.seen && id in implied && n <= |implied[id].hits|
    ensures var after := AfterHits(implied, context, k, id, n);
      Follows(implied, k.seen, after.seen, id) && forall i | 0 <= i < n :: implied[id].hits[i] in after.seen
    decreases |Mentioned(implied) - k.seen|, 1, n
  {
    if n > 0 {
      var before, next := AfterHits(implied, context, k, id, n - 1), implied[id].hits[n - 1];
      HitsAreFollowed(implied, context, k, id, n - 1);
      NoLarger(implied, k.seen, before.seen, id, next);
      HitIsFollowed(implied, context, before, next);
      FollowsOn(implied, k.seen, before.seen, AfterHit(implied, context, before, next).seen, id, next);
    }
  }

  lemma {:induction false} DecisionsAreFollowed(implied: Implied, context: Context, k: Known, id: Id, n: nat)
    requires id in k.seen && id in implied && n <= |implied[id].decisions|
    ensures var after := AfterDecisions(implied, context, k, id, n);
      Follows(implied, k.seen, after.seen, id) && forall i | 0 <= i < n :: implied[id].decisions[i].outcome in after.seen
    decreases |Mentioned(implied) - k.seen|, 1, n
  {
    if n > 0 {
      var before, decision := AfterDecisions(implied, context, k, id, n - 1), implied[id].decisions[n - 1];
      var next := AfterVector(before, VectorOf(context, decision));
      DecisionsAreFollowed(implied, context, k, id, n - 1);
      NoLarger(implied, k.seen, before.seen, id, decision.outcome);
      HitIsFollowed(implied, context, next, decision.outcome);
      OneDecisionFollowed(implied, context, k, id, n);
    }
  }

  lemma {:induction false} OneDecisionFollowed(implied: Implied, context: Context, k: Known, id: Id, n: nat)
    requires id in implied && 0 < n <= |implied[id].decisions|
    requires var before, outcome := AfterDecisions(implied, context, k, id, n - 1), implied[id].decisions[n - 1].outcome;
      && Follows(implied, k.seen, before.seen, id)
      && (forall i | 0 <= i < n - 1 :: implied[id].decisions[i].outcome in before.seen)
      && var after := AfterDecisions(implied, context, k, id, n);
         outcome in after.seen && Follows(implied, before.seen, after.seen, outcome)
    ensures var after := AfterDecisions(implied, context, k, id, n);
      Follows(implied, k.seen, after.seen, id) && forall i | 0 <= i < n :: implied[id].decisions[i].outcome in after.seen
  {
    var before, after := AfterDecisions(implied, context, k, id, n - 1), AfterDecisions(implied, context, k, id, n);
    FollowsOn(implied, k.seen, before.seen, after.seen, id, implied[id].decisions[n - 1].outcome);
  }

  // -- each sighting is queued, and each vector written, once --------------------------------------

  /** What stays so from `k` to `after`, `base` being what was queued before. */
  ghost predicate StaysOnce(k: Known, after: Known, base: seq<Id>) {
    && (Once(base + k.queue, k.seen) ==> Once(base + after.queue, after.seen))
    && (Once(k.written, k.vectors) ==> Once(after.written, after.vectors))
    && k.queue <= after.queue && k.written <= after.written
  }

  lemma {:induction false} OnceOn(k: Known, middle: Known, after: Known, base: seq<Id>)
    requires StaysOnce(k, middle, base) && StaysOnce(middle, after, base)
    ensures StaysOnce(k, after, base)
  {
  }

  lemma {:induction false} VectorStaysOnce(k: Known, vector: Vector, base: seq<Id>)
    ensures StaysOnce(k, AfterVector(k, vector), base)
  {
    if Once(k.written, k.vectors) && vector !in k.vectors {
      OnceMore(k.written, k.vectors, vector);
    }
  }

  lemma {:induction false} QueuedStaysOnce(k: Known, id: Id, base: seq<Id>)
    requires id !in k.seen
    ensures StaysOnce(k, Known(k.seen + {id}, k.queue + [id], k.vectors, k.written), base)
  {
    if Once(base + k.queue, k.seen) {
      OnceMore(base + k.queue, k.seen, id);
      assert base + k.queue + [id] == base + (k.queue + [id]);
    }
  }

  lemma {:induction false} HitStaysOnce(implied: Implied, context: Context, k: Known, id: Id, base: seq<Id>)
    ensures StaysOnce(k, AfterHit(implied, context, k, id), base)
    decreases |{id} + Mentioned(implied) - k.seen|, 0, 0
  {
    if id !in k.seen {
      FewerLeft(implied, k.seen, id);
      QueuedStaysOnce(k, id, base);
      ImplyStaysOnce(implied, context, Known(k.seen + {id}, k.queue + [id], k.vectors, k.written), id, base);
    }
  }

  lemma {:induction false} ImplyStaysOnce(implied: Implied, context: Context, k: Known, id: Id, base: seq<Id>)
    ensures StaysOnce(k, AfterImply(implied, context, k, id), base)
    decreases |Mentioned(implied) - k.seen|, 2, 0
  {
    if id in implied {
      var middle := AfterHits(implied, context, k, id, |implied[id].hits|);
      HitsStayOnce(implied, context, k, id, |implied[id].hits|, base);
      NotLarger(Mentioned(implied) - middle.seen, Mentioned(implied) - k.seen);
      DecisionsStayOnce(implied, context, middle, id, |implied[id].decisions|, base);
    }
  }

  lemma {:induction false} HitsStayOnce(implied: Implied, context: Context, k: Known, id: Id, n: nat, base: seq<Id>)
    requires id in implied && n <= |implied[id].hits|
    ensures StaysOnce(k, AfterHits(implied, context, k, id, n), base)
    decreases |Mentioned(implied) - k.seen|, 1, n
  {
    if n > 0 {
      var before, next := AfterHits(implied, context, k, id, n - 1), implied[id].hits[n - 1];
      HitsStayOnce(implied, context, k, id, n - 1, base);
      NoLarger(implied, k.seen, before.seen, id, next);
      HitStaysOnce(implied, context, before, next, base);
    }
  }

  lemma {:induction false} DecisionsStayOnce(implied: Implied, context: Context, k: Known, id: Id, n: nat, base: seq<Id>)
    requires id in implied && n <= |implied[id].decisions|
    ensures StaysOnce(k, AfterDecisions(implied, context, k, id, n), base)
    decreases |Mentioned(implied) - k.seen|, 1, n
  {
    if n > 0 {
      var before, decision := AfterDecisions(implied, context, k, id, n - 1), implied[id].decisions[n - 1];
      DecisionsStayOnce(implied, context, k, id, n - 1, base);
      NoLarger(implied, k.seen, before.seen, id, decision.outcome);
      var next := AfterVector(before, VectorOf(context, decision));
      VectorStaysOnce(before, VectorOf(context, decision), base);
      OnceOn(k, before, next, base);
      HitStaysOnce(implied, context, next, decision.outcome, base);
      var after := OneMoreDecision(implied, context, k, id, n, next);
      OnceOn(k, next, after, base);
    }
  }

  lemma {:induction false} OneMoreDecision(implied: Implied, context: Context, k: Known, id: Id, n: nat, next: Known)
    returns (after: Known)
    requires id in implied && 0 < n <= |implied[id].decisions|
    requires next == AfterVector(AfterDecisions(implied, context, k, id, n - 1), VectorOf(context, implied[id].decisions[n - 1]))
    ensures after == AfterHit(implied, context, next, implied[id].decisions[n - 1].outcome)
    ensures after == AfterDecisions(implied, context, k, id, n)
  {
    after := AfterHit(implied, context, next, implied[id].decisions[n - 1].outcome);
  }

  // -- and the vectors are those the new sightings decide ----------------------------------------------

  ghost predicate DecidedSince(implied: Implied, context: Context, was: set<Id>, now: set<Id>, vector: Vector) {
    exists id :: id in now && id !in was && Decides(implied, context, id, vector)
  }

  lemma {:induction false} SinceJoin(implied: Implied, context: Context, was: set<Id>, middle: set<Id>, now: set<Id>, vector: Vector)
    requires was <= middle <= now
    ensures DecidedSince(implied, context, was, now, vector)
      <==> DecidedSince(implied, context, was, middle, vector) || DecidedSince(implied, context, middle, now, vector)
  {
  }

  lemma {:induction false} DecidedFirst(decisions: seq<Decision>, context: Context, n: nat, vector: Vector)
    requires 0 < n <= |decisions|
    ensures IsAmong(decisions, context, n, vector)
      <==> IsAmong(decisions, context, n - 1, vector) || VectorOf(context, decisions[n - 1]) == vector
  {
  }

  lemma {:induction false} HitDecides(implied: Implied, context: Context, k: Known, id: Id, vector: Vector)
    ensures var after := AfterHit(implied, context, k, id);
      vector in after.vectors <==> vector in k.vectors || DecidedSince(implied, context, k.seen, after.seen, vector)
    decreases |{id} + Mentioned(implied) - k.seen|, 0, 0
  {
    if id !in k.seen {
      FewerLeft(implied, k.seen, id);
      ImplyDecides(implied, context, Known(k.seen + {id}, k.queue + [id], k.vectors, k.written), id, vector);
    }
  }

  lemma {:induction false} ImplyDecides(implied: Implied, context: Context, k: Known, id: Id, vector: Vector)
    ensures var after := AfterImply(implied, context, k, id);
      vector in after.vectors
      <==> (vector in k.vectors || Decides(implied, context, id, vector)
            || DecidedSince(implied, context, k.seen, after.seen, vector))
    decreases |Mentioned(implied) - k.seen|, 2, 0
  {
    if id in implied {
      var middle := AfterHits(implied, context, k, id, |implied[id].hits|);
      HitsDecide(implied, context, k, id, |implied[id].hits|, vector);
      NotLarger(Mentioned(implied) - middle.seen, Mentioned(implied) - k.seen);
      DecisionsDecide(implied, context, middle, id, |implied[id].decisions|, vector);
    }
  }

  lemma {:induction false} HitsDecide(implied: Implied, context: Context, k: Known, id: Id, n: nat, vector: Vector)
    requires id in implied && n <= |implied[id].hits|
    ensures var after := AfterHits(implied, context, k, id, n);
      vector in after.vectors <==> vector in k.vectors || DecidedSince(implied, context, k.seen, after.seen, vector)
    decreases |Mentioned(implied) - k.seen|, 1, n
  {
    if n > 0 {
      var before, next := AfterHits(implied, context, k, id, n - 1), implied[id].hits[n - 1];
      HitsDecide(implied, context, k, id, n - 1, vector);
      NoLarger(implied, k.seen, before.seen, id, next);
      HitDecides(implied, context, before, next, vector);
    }
  }

  lemma {:induction false} DecisionsDecide(implied: Implied, context: Context, k: Known, id: Id, n: nat, vector: Vector)
    requires id in implied && n <= |implied[id].decisions|
    ensures var after := AfterDecisions(implied, context, k, id, n);
      vector in after.vectors
      <==> (vector in k.vectors || DecidedSince(implied, context, k.seen, after.seen, vector)
            || IsAmong(implied[id].decisions, context, n, vector))
    decreases |Mentioned(implied) - k.seen|, 1, n
  {
    if n > 0 {
      var before, decision := AfterDecisions(implied, context, k, id, n - 1), implied[id].decisions[n - 1];
      DecisionsDecide(implied, context, k, id, n - 1, vector);
      NoLarger(implied, k.seen, before.seen, id, decision.outcome);
      var next := AfterVector(before, VectorOf(context, decision));
      HitDecides(implied, context, next, decision.outcome, vector);
      var after := OneMoreDecision(implied, context, k, id, n, next);
      DecisionJoined(implied, context, k, before, next, after, implied[id].decisions, n, vector);
    }
  }

  /** The decisions so far, one more, and what its outcome implies. */
  lemma {:induction false} DecisionJoined(
    implied: Implied, context: Context, k: Known, before: Known, next: Known, after: Known, decisions: seq<Decision>,
    n: nat, vector: Vector)
    requires 0 < n <= |decisions| && next == AfterVector(before, VectorOf(context, decisions[n - 1]))
    requires k.seen <= before.seen <= after.seen
    requires vector in before.vectors
      <==> (vector in k.vectors || DecidedSince(implied, context, k.seen, before.seen, vector)
            || IsAmong(decisions, context, n - 1, vector))
    requires vector in after.vectors <==> vector in next.vectors || DecidedSince(implied, context, next.seen, after.seen, vector)
    ensures vector in after.vectors
      <==> (vector in k.vectors || DecidedSince(implied, context, k.seen, after.seen, vector)
            || IsAmong(decisions, context, n, vector))
  {
    SinceJoin(implied, context, k.seen, next.seen, after.seen, vector);
    DecidedFirst(decisions, context, n, vector);
  }

  // -- a phase's harvested lines -------------------------------------------------------------------

  /** Sightings and the list of new ones after the first `n` ids are marked. */
  function Marked(seen: set<Id>, ids: seq<Id>, n: nat): (marked: (set<Id>, seq<Id>))
    requires n <= |ids|
    ensures seen <= marked.0
  {
    if n == 0 then (seen, [])
    else
      var (before, news) := Marked(seen, ids, n - 1);
      if ids[n - 1] in before then (before, news) else (before + {ids[n - 1]}, news + [ids[n - 1]])
  }

  /** Then the implications of each new one are followed. */
  function AfterEach(implied: Implied, context: Context, k: Known, news: seq<Id>, n: nat): (after: Known)
    requires n <= |news|
    ensures k.seen <= after.seen
  {
    if n == 0 then k else AfterImply(implied, context, AfterEach(implied, context, k, news, n - 1), news[n - 1])
  }

  function AfterMarks(k: Known, ids: seq<Id>): Known {
    var (seen, news) := Marked(k.seen, ids, |ids|);
    Known(seen, k.queue + news, k.vectors, k.written)
  }

  function AfterHarvest(implied: Implied, context: Context, k: Known, ids: seq<Id>): Known {
    var news := Marked(k.seen, ids, |ids|).1;
    AfterEach(implied, context, AfterMarks(k, ids), news, |news|)
  }

  lemma {:induction false} MarkedHolds(seen: set<Id>, ids: seq<Id>, n: nat)
    requires n <= |ids|
    ensures var (now, news) := Marked(seen, ids, n);
      && (forall i | 0 <= i < n :: ids[i] in now)
      && (forall i | 0 <= i < |news| :: news[i] in ids && news[i] !in seen)
      && (forall id :: id in now <==> id in seen || id in news)
  {
    if n > 0 {
      MarkedHolds(seen, ids, n - 1);
    }
  }

  lemma {:induction false} MarkedOnce(seen: set<Id>, ids: seq<Id>, n: nat, queued: seq<Id>)
    requires n <= |ids| && Once(queued, seen)
    ensures var (now, news) := Marked(seen, ids, n);
      Once(queued + news, now)
  {
    if n == 0 {
      assert queued + [] == queued;
    } else {
      MarkedOnce(seen, ids, n - 1, queued);
      var (before, news) := Marked(seen, ids, n - 1);
      if ids[n - 1] !in before {
        OnceMore(queued + news, before, ids[n - 1]);
        assert queued + news + [ids[n - 1]] == queued + (news + [ids[n - 1]]);
      }
    }
  }

  /** Whatever is not closed yet is among the new ones still to follow. */
  lemma {:induction false} EachIsFollowed(
    implied: Implied, context: Context, k: Known, marked: Known, ids: seq<Id>, news: seq<Id>, n: nat)
    requires Closed(implied, k.seen) && k.seen <= marked.seen && n <= |news|
    requires forall i | 0 <= i < |news| :: news[i] in ids && news[i] in marked.seen
    requires forall id | id in marked.seen :: id in k.seen || id in news
    ensures var after := AfterEach(implied, context, marked, news, n);
      && (forall id | id in after.seen && id !in k.seen :: ReachedFrom(implied, ids, id))
      && (forall id, other | id in after.seen && Implies(implied, id, other) ::
            other in after.seen || exists i :: n <= i < |news| && news[i] == id)
  {
    if n == 0 {
      forall id | id in marked.seen && id !in k.seen
        ensures ReachedFrom(implied, ids, id)
      {
        ReachesItself(implied, id);
      }
    } else {
      var before, next := AfterEach(implied, context, marked, news, n - 1), news[n - 1];
      var after := AfterEach(implied, context, marked, news, n);
      EachIsFollowed(implied, context, k, marked, ids, news, n - 1);
      ImplyIsFollowed(implied, context, before, next);
      forall id, other | id in after.seen && Implies(implied, id, other)
        ensures other in after.seen || exists i :: n <= i < |news| && news[i] == id
      {
        if id in before.seen && other !in before.seen {
          var i :| n - 1 <= i < |news| && news[i] == id;
        }
      }
    }
  }

  ghost predicate ReachedFrom(implied: Implied, ids: seq<Id>, id: Id) {
    exists start :: start in ids && Reaches(implied, start, id)
  }

  /** A harvest leaves exactly the sightings there were and all that the harvested
      ids reach; one observation does the same for its id. */
  lemma {:induction false} HarvestIsExact(implied: Implied, context: Context, k: Known, ids: seq<Id>)
    requires Closed(implied, k.seen)
    ensures var after := AfterHarvest(implied, context, k, ids);
      Closed(implied, after.seen) && forall id :: id in after.seen <==> id in k.seen || ReachedFrom(implied, ids, id)
  {
    var marked, news := AfterMarks(k, ids), Marked(k.seen, ids, |ids|).1;
    var after := AfterHarvest(implied, context, k, ids);
    MarkedHolds(k.seen, ids, |ids|);
    EachIsFollowed(implied, context, k, marked, ids, news, |news|);
    forall id | ReachedFrom(implied, ids, id)
      ensures id in after.seen
    {
      var start :| start in ids && Reaches(implied, start, id);
      ClosedHoldsReached(implied, after.seen, start, id);
    }
  }

  lemma {:induction false} HitIsExact(implied: Implied, context: Context, k: Known, id: Id)
    requires Closed(implied, k.seen)
    ensures var after := AfterHit(implied, context, k, id);
      Closed(implied, after.seen) && forall other :: other in after.seen <==> other in k.seen || Reaches(implied, id, other)
  {
    HitIsFollowed(implied, context, k, id);
    ExactlyReached(implied, k.seen, AfterHit(implied, context, k, id).seen, id);
  }

  lemma {:induction false} EachStaysOnce(
    implied: Implied, context: Context, k: Known, news: seq<Id>, n: nat, base: seq<Id>)
    requires n <= |news|
    ensures StaysOnce(k, AfterEach(implied, context, k, news, n), base)
  {
    if n > 0 {
      EachStaysOnce(implied, context, k, news, n - 1, base);
      ImplyStaysOnce(implied, context, AfterEach(implied, context, k, news, n - 1), news[n - 1], base);
    }
  }

  lemma {:induction false} HarvestStaysOnce(implied: Implied, context: Context, k: Known, ids: seq<Id>, base: seq<Id>)
    ensures StaysOnce(k, AfterHarvest(implied, context, k, ids), base)
  {
    var news := Marked(k.seen, ids, |ids|).1;
    if Once(base + k.queue, k.seen) {
      MarkedOnce(k.seen, ids, |ids|, base + k.queue);
      assert base + k.queue + news == base + (k.queue + news);
    }
    EachStaysOnce(implied, context, AfterMarks(k, ids), news, |news|, base);
  }

  lemma {:induction false} EachDecides(
    implied: Implied, context: Context, k: Known, news: seq<Id>, n: nat, vector: Vector)
    requires n <= |news|
    ensures var after := AfterEach(implied, context, k, news, n);
      vector in after.vectors
      <==> (vector in k.vectors || DecidedSince(implied, context, k.seen, after.seen, vector)
            || exists i | 0 <= i < n :: Decides(implied, context, news[i], vector))
  {
    if n > 0 {
      EachDecides(implied, context, k, news, n - 1, vector);
      ImplyDecides(implied, context, AfterEach(implied, context, k, news, n - 1), news[n - 1], vector);
    }
  }

  /** Of the vectors too: those there were and those the new sightings decide. */
  lemma {:induction false} HarvestDecides(implied: Implied, context: Context, k: Known, ids: seq<Id>, vector: Vector)
    ensures var after := AfterHarvest(implied, context, k, ids);
      vector in after.vectors <==> vector in k.vectors || DecidedSince(implied, context, k.seen, after.seen, vector)
  {
    var marked, news := AfterMarks(k, ids), Marked(k.seen, ids, |ids|).1;
    var after := AfterHarvest(implied, context, k, ids);
    MarkedHolds(k.seen, ids, |ids|);
    EachDecides(implied, context, marked, news, |news|, vector);
    if i :| 0 <= i < |news| && Decides(implied, context, news[i], vector) {
      assert news[i] in after.seen && news[i] !in k.seen;
    }
    if id :| id in after.seen && id !in k.seen && Decides(implied, context, id, vector) {
      assert id in marked.seen ==> id in news;
    }
  }
}
