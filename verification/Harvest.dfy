/** One harvest without interference: a slot's set bytes as runs, cleared as they
    are found, written in chunks the reader decodes to the same bytes. */
module Harvest {
  import opened Options

  const HARVEST_CHUNK := 40000

  // -- the runs of a slot --------------------------------------------------------

  /** The first index from `from` on that holds `value`, or the length. */
  function Find(bytes: seq<bool>, value: bool, from: nat): (index: nat)
    requires from <= |bytes|
    ensures from <= index <= |bytes|
    ensures index < |bytes| ==> bytes[index] == value
    decreases |bytes| - from
  {
    if from == |bytes| || bytes[from] == value then from else Find(bytes, value, from + 1)
  }

  lemma {:induction false} FindSkips(bytes: seq<bool>, value: bool, from: nat)
    requires from <= |bytes|
    ensures forall i | from <= i < Find(bytes, value, from) :: bytes[i] != value
    decreases |bytes| - from
  {
    if from < |bytes| && bytes[from] != value {
      FindSkips(bytes, value, from + 1);
    }
  }

  /** First byte and length of each maximal run of set bytes, in order. */
  function Runs(bytes: seq<bool>, from: nat): seq<nat>
    requires from <= |bytes|
    decreases |bytes| - from
  {
    var start := Find(bytes, true, from);
    if start == |bytes| then []
    else
      var stop := Find(bytes, false, start);
      [start, stop - start] + Runs(bytes, stop)
  }

  /** What the reader requires of a record's runs before it decodes them. */
  predicate Readable(runs: seq<nat>, header: nat, size: nat) {
    runs == [] ||
    (|runs| >= 2 && runs[1] > 0 && header <= runs[0] && runs[0] + runs[1] <= size && Readable(runs[2..], header, size))
  }

  /** The reader's decoding of a record's runs. */
  predicate Decodes(runs: seq<nat>, index: nat) {
    |runs| >= 2 && (runs[0] <= index < runs[0] + runs[1] || Decodes(runs[2..], index))
  }

  /** Runs in increasing order from `from` on, each ending at a clear byte or the
      end of the slot: none touches the next and none can be extended. */
  predicate Maximal(runs: seq<nat>, bytes: seq<bool>, from: nat) {
    runs == [] ||
    (|runs| >= 2 && from <= runs[0]
     && var end := runs[0] + runs[1];
        (if end >= |bytes| then |runs| == 2 else !bytes[end] && Maximal(runs[2..], bytes, end + 1)))
  }

  lemma {:induction false} RunsAreExact(bytes: seq<bool>, from: nat)
    requires from <= |bytes|
    ensures Readable(Runs(bytes, from), from, |bytes|)
    ensures Maximal(Runs(bytes, from), bytes, from)
    ensures forall i: nat :: Decodes(Runs(bytes, from), i) <==> from <= i < |bytes| && bytes[i]
    decreases |bytes| - from
  {
    var runs, start := Runs(bytes, from), Find(bytes, true, from);
    FindSkips(bytes, true, from);
    if start < |bytes| {
      FindSkips(bytes, false, start);
      var stop := Find(bytes, false, start);
      RunsAreExact(bytes, stop);
      assert runs[2..] == Runs(bytes, stop);
      ReadableFrom(Runs(bytes, stop), stop, from, |bytes|);
      if stop < |bytes| {
        MaximalAfter(bytes, stop);
      }
    }
  }

  lemma {:induction false} ReadableFrom(runs: seq<nat>, from: nat, header: nat, size: nat)
    requires header <= from && Readable(runs, from, size)
    ensures Readable(runs, header, size)
  {
    if runs != [] {
      ReadableFrom(runs[2..], from, header, size);
    }
  }

  /** From a clear byte the runs are those after it. */
  lemma {:induction false} MaximalAfter(bytes: seq<bool>, stop: nat)
    requires stop < |bytes| && !bytes[stop] && Maximal(Runs(bytes, stop), bytes, stop)
    ensures Maximal(Runs(bytes, stop), bytes, stop + 1)
  {
    var start := Find(bytes, true, stop);
    assert start > stop;
  }

  // -- records -------------------------------------------------------------------------

  /** Records of at most `chunk` numbers each. */
  function Chunks(runs: seq<nat>, chunk: nat): seq<seq<nat>>
    requires chunk > 0
  {
    if runs == [] then []
    else if |runs| <= chunk then [runs]
    else [runs[..chunk]] + Chunks(runs[chunk..], chunk)
  }

  predicate AnyDecodes(records: seq<seq<nat>>, index: nat) {
    records != [] && (Decodes(records[0], index) || AnyDecodes(records[1..], index))
  }

  predicate AllReadable(records: seq<seq<nat>>, chunk: nat, header: nat, size: nat) {
    records == [] ||
    (0 < |records[0]| <= chunk && Readable(records[0], header, size) && AllReadable(records[1..], chunk, header, size))
  }

  lemma {:induction false} SplitRuns(first: seq<nat>, rest: seq<nat>, header: nat, size: nat, i: nat)
    requires |first| % 2 == 0 && Readable(first + rest, header, size)
    ensures Readable(first, header, size) && Readable(rest, header, size)
    ensures Decodes(first + rest, i) <==> Decodes(first, i) || Decodes(rest, i)
  {
    if first == [] {
      assert first + rest == rest;
    } else {
      assert (first + rest)[2..] == first[2..] + rest;
      SplitRuns(first[2..], rest, header, size, i);
    }
  }

  /** A chunk of even length never separates a start from its length: every record
      is readable, and together they decode to what the runs do. */
  lemma {:induction false} ChunksAreExact(runs: seq<nat>, chunk: nat, header: nat, size: nat, i: nat)
    requires chunk > 0 && chunk % 2 == 0 && Readable(runs, header, size)
    ensures AllReadable(Chunks(runs, chunk), chunk, header, size)
    ensures AnyDecodes(Chunks(runs, chunk), i) <==> Decodes(runs, i)
    decreases |runs|
  {
    if |runs| > chunk {
      assert runs == runs[..chunk] + runs[chunk..];
      SplitRuns(runs[..chunk], runs[chunk..], header, size, i);
      ChunksAreExact(runs[chunk..], chunk, header, size, i);
      assert Chunks(runs, chunk)[1..] == Chunks(runs[chunk..], chunk);
    }
  }

  lemma {:induction false} ChunksCover(runs: seq<nat>, chunk: nat)
    requires chunk > 0
    ensures |runs| <= |Chunks(runs, chunk)| * chunk
    decreases |runs|
  {
    if |runs| > chunk {
      ChunksCover(runs[chunk..], chunk);
      var rest := |Chunks(runs[chunk..], chunk)|;
      assert (rest + 1) * chunk == rest * chunk + chunk;
    }
  }

  /** The chunks are the runs cut at every multiple of their length: each is full but
      the last, and none is empty. */
  lemma {:induction false} ChunksAreFull(runs: seq<nat>, chunk: nat, k: nat)
    requires chunk > 0 && k < |Chunks(runs, chunk)|
    ensures k * chunk < |runs| <= |Chunks(runs, chunk)| * chunk
    ensures Chunks(runs, chunk)[k] == runs[k * chunk..if (k + 1) * chunk < |runs| then (k + 1) * chunk else |runs|]
    decreases |runs|
  {
    ChunksCover(runs, chunk);
    if k > 0 {
      ChunksAreFull(runs[chunk..], chunk, k - 1);
      assert Chunks(runs, chunk)[k] == Chunks(runs[chunk..], chunk)[k - 1];
      CutOfRest(runs, chunk, k, (k - 1) * chunk, k * chunk, (k + 1) * chunk);
    } else {
      assert 0 * chunk == 0 && 1 * chunk == chunk;
    }
  }

  lemma {:induction false} CutOfRest(runs: seq<nat>, chunk: nat, k: nat, before: nat, from: nat, to: nat)
    requires 0 < chunk < |runs| && 0 < k && before == (k - 1) * chunk && from == k * chunk && to == (k + 1) * chunk
    ensures from == before + chunk && to == from + chunk
    ensures var rest := runs[chunk..];
      before < |rest| ==>
        rest[before..if from < |rest| then from else |rest|] == runs[from..if to < |runs| then to else |runs|]
  {
    assert from == (k - 1) * chunk + chunk && to == k * chunk + chunk;
  }

  /** What the reader makes of a harvest's records is exactly the bytes that were
      set, and it refuses none of the records. */
  lemma {:induction false} HarvestDecodes(bytes: seq<bool>, header: nat, i: nat)
    requires header <= |bytes|
    ensures var records := Chunks(Runs(bytes, header), HARVEST_CHUNK);
      && AllReadable(records, HARVEST_CHUNK, header, |bytes|)
      && (AnyDecodes(records, i) <==> header <= i < |bytes| && bytes[i])
  {
    RunsAreExact(bytes, header);
    ChunksAreExact(Runs(bytes, header), HARVEST_CHUNK, header, |bytes|, i);
  }

  // -- `_harvest` ------------------------------------------------------------------------

  /** The mapping's `find`. */
  method FindIn(slot: array<bool>, value: bool, from: nat) returns (index: int)
    requires from <= slot.Length
    ensures index == Next(slot[..], value, from)
  {
    var i := from;
    while i < slot.Length
      invariant from <= i <= slot.Length
      invariant Find(slot[..], value, from) == Find(slot[..], value, i)
    {
      if slot[i] == value {
        return i;
      }
      i := i + 1;
    }
    index := -1;
  }

  /** `bytes` with a stretch cleared. */
  function Cleared(bytes: seq<bool>, from: nat, stop: nat): (cleared: seq<bool>)
    ensures |cleared| == |bytes|
  {
    seq(|bytes|, i requires 0 <= i < |bytes| => if from <= i < stop then false else bytes[i])
  }

  method ClearRun(slot: array<bool>, from: nat, stop: nat)
    requires from <= stop <= slot.Length
    modifies slot
    ensures slot[..] == Cleared(old(slot[..]), from, stop)
  {
    for i := from to stop
      invariant forall j | 0 <= j < slot.Length :: slot[j] == (if from <= j < i then false else old(slot[j]))
    {
      slot[i] := false;
    }
  }

  function Next(bytes: seq<bool>, value: bool, from: nat): int
    requires from <= |bytes|
  {
    var found := Find(bytes, value, from);
    if found == |bytes| then -1 else found
  }

  /** A search past the cleared part finds what it would have found before. */
  lemma {:induction false} SearchIgnoresCleared(bytes: seq<bool>, header: nat, from: nat, value: bool, at: nat)
    requires from <= at <= |bytes|
    ensures Next(Cleared(bytes, header, from), value, at) == Next(bytes, value, at)
    decreases |bytes| - at
  {
    if at < |bytes| && bytes[at] != value {
      SearchIgnoresCleared(bytes, header, from, value, at + 1);
    }
  }

  /** Clearing the next run leaves everything up to its end clear. */
  lemma {:induction false} ClearedGrows(bytes: seq<bool>, header: nat, from: nat, index: nat, stop: nat)
    requires header <= from <= index <= stop <= |bytes|
    requires index == Find(bytes, true, from)
    ensures Cleared(Cleared(bytes, header, from), index, stop) == Cleared(bytes, header, stop)
  {
    FindSkips(bytes, true, from);
  }

  /** One run: its end is searched for, it is cleared by one store, and named. */
  method TakeRun(slot: array<bool>, runs: seq<nat>, index: nat, ghost before: seq<bool>, ghost header: nat, ghost from: nat)
    returns (named: seq<nat>, stop: nat)
    requires slot.Length == |before| && header <= from <= index < slot.Length
    requires index == Find(before, true, from) && slot[..] == Cleared(before, header, from)
    modifies slot
    ensures index < stop <= slot.Length && slot[..] == Cleared(before, header, stop)
    ensures named + Runs(before, stop) == runs + Runs(before, from)
  {
    SearchIgnoresCleared(before, header, from, false, index);
    var end := FindIn(slot, false, index);
    stop := if end == -1 then slot.Length else end;
    ClearedGrows(before, header, from, index, stop);
    ClearRun(slot, index, stop);
    named := runs + [index] + [stop - index];
    Appended(runs, index, stop - index, Runs(before, stop));
  }

  lemma {:induction false} Appended(runs: seq<nat>, first: nat, length: nat, rest: seq<nat>)
    ensures runs + [first] + [length] + rest == runs + ([first, length] + rest)
  {
  }

  method HarvestSlot(slot: array<bool>, header: nat, closed: bool) returns (records: seq<seq<nat>>)
    requires header <= slot.Length
    modifies slot
    ensures records == if closed then [] else Chunks(Runs(old(slot[..]), header), HARVEST_CHUNK)
    ensures slot[..] == Cleared(old(slot[..]), header, slot.Length)
  {
    ghost var before := slot[..];
    var runs: seq<nat> := [];
    var found := FindIn(slot, true, header);
    ghost var from := header;
    assert slot[..] == Cleared(before, header, header);
    while found != -1
      invariant header <= from <= slot.Length
      invariant found == Next(before, true, from)
      invariant slot[..] == Cleared(before, header, from)
      invariant runs + Runs(before, from) == Runs(before, header)
      decreases slot.Length - from
    {
      var stop;
      runs, stop := TakeRun(slot, runs, found, before, header, from);
      SearchIgnoresCleared(before, header, stop, true, stop);
      found := FindIn(slot, true, stop);
      from := stop;
    }
    FindSkips(before, true, from);
    assert Cleared(before, header, from) == Cleared(before, header, slot.Length);
    assert runs == Runs(before, header);
    if closed {
      records := [];
    } else {
      records := WriteRecords(runs);
    }
  }

  /** The slices of `runs`, a chunk at a time. */
  method WriteRecords(runs: seq<nat>) returns (records: seq<seq<nat>>)
    ensures records == Chunks(runs, HARVEST_CHUNK)
  {
    records := [];
    var at := 0;
    while at < |runs|
      invariant 0 <= at <= |runs|
      invariant records + Chunks(runs[at..], HARVEST_CHUNK) == Chunks(runs, HARVEST_CHUNK)
    {
      var stop := if at + HARVEST_CHUNK <= |runs| then at + HARVEST_CHUNK else |runs|;
      ghost var rest := runs[at..];
      assert runs[at..stop] == rest[..stop - at] && runs[stop..] == rest[stop - at..];
      if stop == |runs| {
        assert runs[at..stop] == rest && runs[stop..] == [];
      }
      assert Chunks(rest, HARVEST_CHUNK) == [runs[at..stop]] + Chunks(runs[stop..], HARVEST_CHUNK);
      records := records + [runs[at..stop]];
      at := stop;
    }
  }
}
