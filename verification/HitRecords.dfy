/** The runtime's observations in place, and the records they are written as: ids
    named once per file and numbered after that. */
module HitRecords {
  import opened Observations

  // -- the table of names -----------------------------------------------------------------------

  datatype Record = Ids(first: nat, names: seq<Id>) | Hits(context: Context, numbers: seq<nat>)

  /** What the reader has made of a file so far. */
  datatype Decoded = Refused | Decoded(names: seq<Id>, hits: map<Context, seq<Id>>)

  predicate Named(names: seq<Id>, numbers: seq<nat>) {
    forall i | 0 <= i < |numbers| :: numbers[i] < |names|
  }

  function NamesOf(names: seq<Id>, numbers: seq<nat>): seq<Id>
    requires Named(names, numbers)
  {
    seq(|numbers|, i requires 0 <= i < |numbers| => names[numbers[i]])
  }

  function Read(decoded: Decoded, record: Record): Decoded {
    if decoded.Refused? then Refused
    else
      match record
      case Ids(first, names) =>
        if first != |decoded.names| then Refused else Decoded(decoded.names + names, decoded.hits)
      case Hits(context, numbers) =>
        if !Named(decoded.names, numbers) then Refused
        else
          var ids := Under(decoded.hits, context) + NamesOf(decoded.names, numbers);
          Decoded(decoded.names, decoded.hits[context := ids])
  }

  /** The reader's pass over one evidence file. */
  function Decode(records: seq<Record>): Decoded {
    if records == [] then Decoded([], map[])
    else Read(Decode(records[..|records| - 1]), records[|records| - 1])
  }

  lemma {:induction false} DecodeOneMore(records: seq<Record>, record: Record)
    ensures Decode(records + [record]) == Read(Decode(records), record)
  {
    assert (records + [record])[..|records|] == records;
  }

  /** The writer's numbers and the names they stand for: dense, and one each. */
  ghost predicate Numbers(numbers: map<Id, nat>, names: seq<Id>) {
    && |numbers| == |names|
    && (forall i | 0 <= i < |names| :: names[i] in numbers && numbers[names[i]] == i)
    && forall id | id in numbers :: numbers[id] < |names| && names[numbers[id]] == id
  }

  lemma {:induction false} OneMoreName(numbers: map<Id, nat>, names: seq<Id>, id: Id)
    requires Numbers(numbers, names) && id !in numbers
    ensures Numbers(numbers[id := |numbers|], names + [id]) && id !in names
  {
    var more, all := numbers[id := |numbers|], names + [id];
    assert more.Keys == numbers.Keys + {id};
    forall i | 0 <= i < |all|
      ensures all[i] in more && more[all[i]] == i
    {
      if i < |names| {
        assert all[i] == names[i] && names[i] in numbers;
      }
    }
  }

  /** An `ids` record for the new names, if there are any, then a `hits` record:
      the reader gets back exactly the ids, in order. */
  lemma {:induction false} RecordsDecode(
    records: seq<Record>, names: seq<Id>, news: seq<Id>, hits: map<Context, seq<Id>>, context: Context,
    numbers: seq<nat>, ids: seq<Id>)
    requires Decode(records) == Decoded(names, hits)
    requires Named(names + news, numbers) && NamesOf(names + news, numbers) == ids
    ensures var named := if news == [] then records else records + [Ids(|names|, news)];
      Decode(named + [Hits(context, numbers)]) == Decoded(names + news, hits[context := Under(hits, context) + ids])
  {
    var named := if news == [] then records else records + [Ids(|names|, news)];
    DecodeOneMore(records, Ids(|names|, news));
    assert names + [] == names;
    DecodeOneMore(named, Hits(context, numbers));
  }

  // -- the runtime's observations ----------------------------------------------------------------

  class Observer {
    const implied: Implied
    const lineIds: map<nat, Id>
    var seen: map<Context, set<Id>>
    var pending: map<Context, seq<Id>>
    var vectors: set<Vector>
    var written: seq<Vector> // the vector records
    var numbers: map<Id, nat>
    var records: seq<Record> // this file's `ids` and `hits` records
    ghost var names: seq<Id>
    ghost var flushed: map<Context, seq<Id>> // by this file's records
    ghost var earlier: map<Context, seq<Id>> // by those of the files before a fork

    constructor (implied: Implied, lineIds: map<nat, Id>)
      ensures this.implied == implied && this.lineIds == lineIds
      ensures Valid() && forall context :: Seen(context) == {}
    {
      this.implied, this.lineIds := implied, lineIds;
      seen, pending, vectors, written, numbers, records := map[], map[], {}, [], map[], [];
      names, flushed, earlier := [], map[], map[];
    }

    function Seen(context: Context): set<Id>
      reads this`seen
    {
      SightingsOf(seen, context)
    }

    function Now(context: Context): Known
      reads this`seen, this`pending, this`vectors, this`written
    {
      Known(Seen(context), Under(pending, context), vectors, written)
    }

    /** What is known of the contexts but one. */
    ghost function Others(context: Context): (map<Context, set<Id>>, map<Context, seq<Id>>)
      reads this`seen, this`pending
    {
      (seen - {context}, pending - {context})
    }

    /** What was queued for a context and written. */
    ghost function Gone(context: Context): seq<Id>
      reads this`earlier, this`flushed
    {
      Under(earlier, context) + Under(flushed, context)
    }

    /** Each sighting of a context is queued exactly once and nothing else is, each
        vector is written once, and what a context saw is closed. */
    ghost predicate Sound()
      reads this`seen, this`pending, this`vectors, this`written, this`earlier, this`flushed
    {
      && QueuedOnce(seen, earlier, flushed, pending)
      && (forall context :: Closed(implied, Seen(context)))
      && Once(written, vectors)
    }

    /** The file's records decode to what was flushed to it. */
    ghost predicate Readable()
      reads this`numbers, this`names, this`records, this`flushed
    {
      Numbers(numbers, names) && Decode(records) == Decoded(names, flushed)
    }

    ghost predicate Valid()
      reads this
    {
      Sound() && Readable()
    }

    method Enqueue(context: Context, id: Id)
      modifies this`seen, this`pending
      ensures Now(context)
        == old(Known(Seen(context) + {id}, Under(pending, context) + [id], vectors, written))
      ensures Others(context) == old(Others(context))
    {
      seen := seen[context := Seen(context) + {id}];
      pending := pending[context := Under(pending, context) + [id]];
      assert seen - {context} == old(seen) - {context} && pending - {context} == old(pending) - {context};
    }

    /** `vector`. */
    method WriteVector(context: Context, vector: Vector)
      modifies this`vectors, this`written
      ensures Now(context) == AfterVector(old(Now(context)), vector)
    {
      if vector !in vectors {
        vectors, written := vectors + {vector}, written + [vector];
      }
    }

    /** `hit`. */
    method Hit(context: Context, id: Id)
      modifies this`seen, this`pending, this`vectors, this`written
      ensures Now(context) == AfterHit(implied, context, old(Now(context)), id)
      ensures Others(context) == old(Others(context))
      decreases |{id} + Mentioned(implied) - Seen(context)|, 0
    {
      if id in Seen(context) {
        return;
      }
      FewerLeft(implied, Seen(context), id);
      Enqueue(context, id);
      Imply(context, id);
    }

    /** `imply`. */
    method Imply(context: Context, id: Id)
      modifies this`seen, this`pending, this`vectors, this`written
      ensures Now(context) == AfterImply(implied, context, old(Now(context)), id)
      ensures Others(context) == old(Others(context))
      decreases |Mentioned(implied) - Seen(context)|, 3
    {
      if id in implied {
        ghost var first := Now(context);
        ImplyHits(context, id);
        NotLarger(Mentioned(implied) - Seen(context), Mentioned(implied) - first.seen);
        ImplyDecisions(context, id);
      }
    }

    method ImplyHits(context: Context, id: Id)
      requires id in implied
      modifies this`seen, this`pending, this`vectors, this`written
      ensures Now(context) == AfterHits(implied, context, old(Now(context)), id, |implied[id].hits|)
      ensures Others(context) == old(Others(context))
      decreases |Mentioned(implied) - Seen(context)|, 2
    {
      ghost var first := Now(context);
      var hits, i := implied[id].hits, 0;
      while i < |hits|
        invariant i <= |hits| && Now(context) == AfterHits(implied, context, first, id, i)
        invariant Others(context) == old(Others(context))
      {
        NoLarger(implied, first.seen, Seen(context), id, hits[i]);
        Hit(context, hits[i]);
        i := i + 1;
      }
    }

    method ImplyDecisions(context: Context, id: Id)
      requires id in implied
      modifies this`seen, this`pending, this`vectors, this`written
      ensures Now(context) == AfterDecisions(implied, context, old(Now(context)), id, |implied[id].decisions|)
      ensures Others(context) == old(Others(context))
      decreases |Mentioned(implied) - Seen(context)|, 2
    {
      ghost var first := Now(context);
      var decisions, i := implied[id].decisions, 0;
      while i < |decisions|
        invariant i <= |decisions| && Now(context) == AfterDecisions(implied, context, first, id, i)
        invariant Others(context) == old(Others(context))
      {
        NoLarger(implied, first.seen, Seen(context), id, decisions[i].outcome);
        Decide(context, decisions[i]);
        i := i + 1;
      }
    }

    method Decide(context: Context, decision: Decision)
      modifies this`seen, this`pending, this`vectors, this`written
      ensures
        var before := old(Now(context));
        Now(context) == AfterHit(implied, context, AfterVector(before, VectorOf(context, decision)), decision.outcome)
      ensures Others(context) == old(Others(context))
      decreases |{decision.outcome} + Mentioned(implied) - Seen(context)|, 1
    {
      WriteVector(context, VectorOf(context, decision));
      Hit(context, decision.outcome);
    }

    /** All that is known, but of one context, as values. */
    ghost predicate SoundBut(context: Context, seen: map<Context, set<Id>>, pending: map<Context, seq<Id>>)
      reads this`earlier, this`flushed
    {
      forall other | other != context :: SoundOne(Gone(other), SightingsOf(seen, other), Under(pending, other))
    }

    ghost predicate SoundOne(gone: seq<Id>, seen: set<Id>, pending: seq<Id>) {
      Once(gone + pending, seen) && Closed(implied, seen)
    }

    lemma {:induction false} SoundParts(context: Context)
      requires Sound()
      ensures SoundBut(context, Others(context).0, Others(context).1)
      ensures Once(Gone(context) + Now(context).queue, Now(context).seen) && Closed(implied, Now(context).seen)
      ensures Once(written, vectors)
    {
      forall other | other != context
        ensures SoundOne(Gone(other), SightingsOf(Others(context).0, other), Under(Others(context).1, other))
      {
        assert QueuedOnceIn(seen, earlier, flushed, pending, other) && Closed(implied, Seen(other));
      }
      assert QueuedOnceIn(seen, earlier, flushed, pending, context);
    }

    lemma {:induction false} SoundAgain(context: Context)
      requires SoundBut(context, Others(context).0, Others(context).1)
      requires Once(Gone(context) + Now(context).queue, Now(context).seen) && Closed(implied, Now(context).seen)
      requires Once(written, vectors)
      ensures Sound()
    {
      forall other
        ensures QueuedOnceIn(seen, earlier, flushed, pending, other) && Closed(implied, Seen(other))
      {
        if other != context {
          assert SoundOne(Gone(other), SightingsOf(Others(context).0, other), Under(Others(context).1, other));
        }
      }
    }

    /** An outermost `hit`: the context then has seen exactly what it had and what
        the id reaches. */
    method Observe(context: Context, id: Id)
      requires Sound()
      modifies this`seen, this`pending, this`vectors, this`written
      ensures Sound() && Now(context) == AfterHit(implied, context, old(Now(context)), id)
      ensures forall other :: other in Seen(context) <==> other in old(Seen(context)) || Reaches(implied, id, other)
      ensures Others(context) == old(Others(context))
    {
      SoundParts(context);
      HitIsExact(implied, context, Now(context), id);
      HitStaysOnce(implied, context, Now(context), id, Gone(context));
      Hit(context, id);
      SoundAgain(context);
    }

    /** `harvest_lines`. */
    method HarvestLines(context: Context, keys: seq<nat>)
      requires Sound()
      modifies this`seen, this`pending, this`vectors, this`written
      ensures Sound() && Now(context) == AfterHarvest(implied, context, old(Now(context)), IdsOf(lineIds, keys, |keys|))
      ensures forall id ::
        id in Seen(context) <==> id in old(Seen(context)) || ReachedFromKey(implied, lineIds, keys, id)
      ensures Others(context) == old(Others(context))
    {
      ghost var ids := IdsOf(lineIds, keys, |keys|);
      forall id ensures ReachedFrom(implied, ids, id) <==> ReachedFromKey(implied, lineIds, keys, id) {
        ReachedFromTheirIds(implied, lineIds, keys, id);
      }
      SoundParts(context);
      HarvestIsExact(implied, context, Now(context), ids);
      HarvestStaysOnce(implied, context, Now(context), ids, Gone(context));
      MarkAndFollow(context, keys);
      SoundAgain(context);
    }

    method MarkAndFollow(context: Context, keys: seq<nat>)
      modifies this`seen, this`pending, this`vectors, this`written
      ensures Now(context) == AfterHarvest(implied, context, old(Now(context)), IdsOf(lineIds, keys, |keys|))
      ensures Others(context) == old(Others(context))
    {
      var now, news := Mark(Seen(context), lineIds, keys);
      seen := seen[context := now];
      pending := pending[context := Under(pending, context) + news];
      assert seen - {context} == old(seen) - {context} && pending - {context} == old(pending) - {context};
      ghost var marked := Now(context);
      var i := 0;
      while i < |news|
        invariant i <= |news| && Now(context) == AfterEach(implied, context, marked, news, i)
        invariant Others(context) == old(Others(context))
      {
        Imply(context, news[i]);
        i := i + 1;
      }
    }

    /** Numbers for one context's ids; the new names in the order they came up. */
    method Number(ids: seq<Id>) returns (named: seq<nat>, news: seq<Id>)
      requires Numbers(numbers, names)
      modifies this`numbers
      ensures Numbers(numbers, names + news)
      ensures Named(names + news, named) && NamesOf(names + news, named) == ids
    {
      named, news := [], [];
      var i := 0;
      while i < |ids|
        invariant i <= |ids| && Numbers(numbers, names + news) && Named(names + news, named)
        invariant NamesOf(names + news, named) == ids[..i]
      {
        ghost var before := names + news;
        if ids[i] !in numbers {
          OneMoreName(numbers, before, ids[i]);
          assert before + [ids[i]] == names + (news + [ids[i]]);
          numbers, news := numbers[ids[i] := |numbers|], news + [ids[i]];
        }
        NamesStay(before, names + news, named);
        NamesOneMore(names + news, named, numbers[ids[i]]);
        named := named + [numbers[ids[i]]];
        assert ids[..i + 1] == ids[..i] + [ids[i]];
        i := i + 1;
      }
      assert ids[..i] == ids;
    }

    /** `flush_hits` for one context. */
    method FlushContext(context: Context, ids: seq<Id>)
      requires Readable()
      modifies this`numbers, this`records, this`names, this`flushed
      ensures Readable() && old(names) <= names
      ensures flushed == old(flushed)[context := Under(old(flushed), context) + ids]
    {
      var named, news := Number(ids);
      RecordsDecode(records, names, news, flushed, context, named, ids);
      assert |numbers| - |news| == |names|;
      if news != [] {
        records := records + [Ids(|numbers| - |news|, news)];
      }
      records := records + [Hits(context, named)];
      names := names + news;
      flushed := flushed[context := Under(flushed, context) + ids];
    }

    /** `flush_hits`: what was queued is written, each context's in order; no number
        ever comes to stand for another id. */
    method FlushHits()
      requires Readable()
      modifies this`pending, this`numbers, this`records, this`names, this`flushed
      ensures Readable() && pending == map[] && old(names) <= names
      ensures forall context :: Under(flushed, context) == old(Under(flushed, context) + Under(pending, context))
    {
      var taken := pending;
      pending := map[];
      ghost var before, all := flushed, taken;
      while taken != map[]
        invariant Readable() && pending == map[] && old(names) <= names
        invariant Poured(before, all, taken, flushed)
        decreases |taken|
      {
        var context :| context in taken;
        PouredOn(before, all, taken, flushed, context);
        FlushContext(context, taken[context]);
        taken := taken - {context};
      }
    }

    /** A flush keeps all that is known of what was seen and queued. */
    method Flush()
      requires Valid()
      modifies this`pending, this`numbers, this`records, this`names, this`flushed
      ensures Valid() && pending == map[] && old(names) <= names
      ensures forall context :: Under(flushed, context) == old(Under(flushed, context) + Under(pending, context))
    {
      FlushKeeps(seen, earlier, flushed, pending);
      FlushHits();
      PouredOut(seen, earlier, old(flushed), old(pending), flushed);
    }

    /** A forked child's first record opens a file of its own, which names its ids
        afresh; what it inherited as seen stays seen. */
    method Fork()
      requires Valid()
      modifies this`numbers, this`records, this`names, this`flushed, this`earlier
      ensures Valid() && Decode(records) == Decoded([], map[])
      ensures forall context :: Gone(context) == old(Gone(context))
    {
      ForkKeeps(seen, earlier, flushed, pending);
      earlier := Both(earlier, flushed);
      numbers, records, names, flushed := map[], [], [], map[];
    }
  }

  ghost predicate QueuedOnce(
    seen: map<Context, set<Id>>, earlier: map<Context, seq<Id>>, flushed: map<Context, seq<Id>>,
    pending: map<Context, seq<Id>>)
  {
    forall context :: QueuedOnceIn(seen, earlier, flushed, pending, context)
  }

  ghost predicate QueuedOnceIn(
    seen: map<Context, set<Id>>, earlier: map<Context, seq<Id>>, flushed: map<Context, seq<Id>>,
    pending: map<Context, seq<Id>>, context: Context)
  {
    Once(Under(earlier, context) + Under(flushed, context) + Under(pending, context), SightingsOf(seen, context))
  }

  ghost function Both(first: map<Context, seq<Id>>, second: map<Context, seq<Id>>): (both: map<Context, seq<Id>>)
    ensures forall context :: Under(both, context) == Under(first, context) + Under(second, context)
  {
    map context | context in first.Keys + second.Keys :: Under(first, context) + Under(second, context)
  }

  lemma {:induction false} ForkKeeps(
    seen: map<Context, set<Id>>, earlier: map<Context, seq<Id>>, flushed: map<Context, seq<Id>>,
    pending: map<Context, seq<Id>>)
    requires QueuedOnce(seen, earlier, flushed, pending)
    ensures QueuedOnce(seen, Both(earlier, flushed), map[], pending)
    ensures forall context :: Under(Both(earlier, flushed), context) + [] == Under(earlier, context) + Under(flushed, context)
  {
    forall context
      ensures QueuedOnceIn(seen, Both(earlier, flushed), map[], pending, context)
    {
      assert QueuedOnceIn(seen, earlier, flushed, pending, context);
      var gone := Under(earlier, context) + Under(flushed, context);
      assert gone + [] == gone;
    }
  }

  lemma {:induction false} FlushKeeps(
    seen: map<Context, set<Id>>, earlier: map<Context, seq<Id>>, flushed: map<Context, seq<Id>>,
    pending: map<Context, seq<Id>>)
    requires QueuedOnce(seen, earlier, flushed, pending)
    ensures QueuedOnce(seen, earlier, Both(flushed, pending), map[])
  {
    forall context
      ensures QueuedOnceIn(seen, earlier, Both(flushed, pending), map[], context)
    {
      assert QueuedOnceIn(seen, earlier, flushed, pending, context);
      StillOnce(Under(earlier, context), Under(flushed, context), Under(pending, context), SightingsOf(seen, context));
    }
  }

  lemma {:induction false} StillOnce(a: seq<Id>, b: seq<Id>, c: seq<Id>, sightings: set<Id>)
    requires Once(a + b + c, sightings)
    ensures Once(a + (b + c) + [], sightings)
  {
    assert a + (b + c) + [] == a + b + c;
  }

  lemma {:induction false} PouredOut(
    seen: map<Context, set<Id>>, earlier: map<Context, seq<Id>>, flushed: map<Context, seq<Id>>,
    pending: map<Context, seq<Id>>, now: map<Context, seq<Id>>)
    requires QueuedOnce(seen, earlier, Both(flushed, pending), map[])
    requires forall context :: Under(now, context) == Under(flushed, context) + Under(pending, context)
    ensures QueuedOnce(seen, earlier, now, map[])
  {
    forall context
      ensures QueuedOnceIn(seen, earlier, now, map[], context)
    {
      assert QueuedOnceIn(seen, earlier, Both(flushed, pending), map[], context);
    }
  }

  /** All but what is still in `taken` has been added to `before`. */
  ghost predicate Poured(
    before: map<Context, seq<Id>>, all: map<Context, seq<Id>>, taken: map<Context, seq<Id>>, now: map<Context, seq<Id>>)
  {
    && (forall context | context in taken :: context in all && taken[context] == all[context])
    && forall context ::
         Under(now, context) == if context in taken then Under(before, context) else Under(before, context) + Under(all, context)
  }

  lemma {:induction false} PouredOn(
    before: map<Context, seq<Id>>, all: map<Context, seq<Id>>, taken: map<Context, seq<Id>>, now: map<Context, seq<Id>>,
    context: Context)
    requires Poured(before, all, taken, now) && context in taken
    ensures Poured(before, all, taken - {context}, now[context := Under(now, context) + taken[context]])
    ensures |taken - {context}| < |taken|
  {
    assert (taken - {context}).Keys == taken.Keys - {context};
    assert |(taken - {context}).Keys| == |taken.Keys| - 1;
  }

  lemma {:induction false} NamesStay(names: seq<Id>, more: seq<Id>, named: seq<nat>)
    requires names <= more && Named(names, named)
    ensures Named(more, named) && NamesOf(more, named) == NamesOf(names, named)
  {
  }

  lemma {:induction false} NamesOneMore(names: seq<Id>, named: seq<nat>, number: nat)
    requires Named(names, named) && number < |names|
    ensures Named(names, named + [number])
    ensures NamesOf(names, named + [number]) == NamesOf(names, named) + [names[number]]
  {
  }

  function SightingsOf(seen: map<Context, set<Id>>, context: Context): set<Id> {
    if context in seen then seen[context] else {}
  }

  /** The ids of the first `n` keys, of those that have one. */
  function IdsOf(lineIds: map<nat, Id>, keys: seq<nat>, n: nat): seq<Id>
    requires n <= |keys|
  {
    if n == 0 then []
    else IdsOf(lineIds, keys, n - 1) + (if keys[n - 1] in lineIds then [lineIds[keys[n - 1]]] else [])
  }

  lemma {:induction false} IdsAreTheKeys(lineIds: map<nat, Id>, keys: seq<nat>, n: nat, id: Id)
    requires n <= |keys|
    ensures id in IdsOf(lineIds, keys, n) <==> exists i :: 0 <= i < n && keys[i] in lineIds && lineIds[keys[i]] == id
  {
    if n > 0 {
      IdsAreTheKeys(lineIds, keys, n - 1, id);
    }
  }

  /** Some key has an id that is the one or implies it. */
  ghost predicate ReachedFromKey(implied: Implied, lineIds: map<nat, Id>, keys: seq<nat>, id: Id) {
    exists i :: 0 <= i < |keys| && keys[i] in lineIds && Reaches(implied, lineIds[keys[i]], id)
  }

  lemma {:induction false} ReachedFromTheirIds(implied: Implied, lineIds: map<nat, Id>, keys: seq<nat>, id: Id)
    ensures ReachedFrom(implied, IdsOf(lineIds, keys, |keys|), id) <==> ReachedFromKey(implied, lineIds, keys, id)
  {
    var ids := IdsOf(lineIds, keys, |keys|);
    if ReachedFrom(implied, ids, id) {
      var start :| start in ids && Reaches(implied, start, id);
      IdsAreTheKeys(lineIds, keys, |keys|, start);
    }
    if ReachedFromKey(implied, lineIds, keys, id) {
      var i :| 0 <= i < |keys| && keys[i] in lineIds && Reaches(implied, lineIds[keys[i]], id);
      IdsAreTheKeys(lineIds, keys, |keys|, lineIds[keys[i]]);
    }
  }

  /** The part of `harvest_lines` under its lock. */
  method Mark(seen: set<Id>, lineIds: map<nat, Id>, keys: seq<nat>) returns (now: set<Id>, news: seq<Id>)
    ensures var ids := IdsOf(lineIds, keys, |keys|);
      (now, news) == Marked(seen, ids, |ids|)
  {
    now, news := seen, [];
    var i := 0;
    while i < |keys|
      invariant i <= |keys|
      invariant var ids := IdsOf(lineIds, keys, i);
        (now, news) == Marked(seen, ids, |ids|)
    {
      if keys[i] in lineIds {
        var id := lineIds[keys[i]];
        MarkedMore(seen, IdsOf(lineIds, keys, i), id);
        if id !in now {
          now, news := now + {id}, news + [id];
        }
      } else {
        assert IdsOf(lineIds, keys, i + 1) == IdsOf(lineIds, keys, i);
      }
      i := i + 1;
    }
  }

  lemma {:induction false} MarkedSame(seen: set<Id>, ids: seq<Id>, more: seq<Id>, n: nat)
    requires n <= |ids| && n <= |more| && forall i | 0 <= i < n :: ids[i] == more[i]
    ensures Marked(seen, ids, n) == Marked(seen, more, n)
  {
    if n > 0 {
      MarkedSame(seen, ids, more, n - 1);
    }
  }

  lemma {:induction false} MarkedMore(seen: set<Id>, ids: seq<Id>, id: Id)
    ensures var (now, news) := Marked(seen, ids, |ids|);
      Marked(seen, ids + [id], |ids| + 1) == if id in now then (now, news) else (now + {id}, news + [id])
  {
    MarkedSame(seen, ids, ids + [id], |ids|);
  }
}
