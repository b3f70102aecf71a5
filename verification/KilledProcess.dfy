/** What the reader makes of the file of a process that was killed: after which
    stores it takes exactly the records committed so far, and what it says after
    the others. The stores are all of the process's, from the one that sizes its
    file on. */
module KilledProcess {
  import opened Transport

  // -- opening the file ----------------------------------------------------------------

  /** How many stores that takes. */
  const OPENING := 1 + HEADER_SIZE

  /** `_open_output` sizes the file and stores its header. */
  function Opening(pid: nat): seq<Event> {
    [Extend(INITIAL_CAPACITY)] + Puts(0, Header(pid))
  }

  /** With `j` bytes of the header stored there is a process id. */
  predicate HasPid(pid: nat, j: nat) {
    j > 32 && pid % Pow256(if j < 40 then j - 32 else 8) != 0
  }

  /** The file with only the first `j` bytes of its header. */
  function Begun(pid: nat, j: nat): seq<Byte>
    requires j <= HEADER_SIZE
  {
    Header(pid)[..j] + Zeros(INITIAL_CAPACITY - j)
  }

  lemma {:induction false} OpeningBegins(pid: nat, j: nat)
    requires j <= HEADER_SIZE
    ensures |Opening(pid)| == OPENING
    ensures Replay([], Opening(pid)[..1 + j]) == Begun(pid, j)
  {
    var sized, header := [Extend(INITIAL_CAPACITY)], Header(pid);
    PutsPrefix(0, header, j);
    assert Opening(pid)[..1 + j] == sized + Puts(0, header)[..j];
    ReplayConcat([], sized, Puts(0, header[..j]));
    OneEvent([], Extend(INITIAL_CAPACITY));
    assert [] + Zeros(INITIAL_CAPACITY) == Zeros(INITIAL_CAPACITY);
    PutsOverlay(Zeros(INITIAL_CAPACITY), 0, header[..j]);
    LaidOnZeros(header[..j], INITIAL_CAPACITY);
  }

  lemma {:induction false} LaidOnZeros(bytes: seq<Byte>, size: nat)
    requires |bytes| <= size
    ensures Overlay(Zeros(size), 0, bytes) == bytes + Zeros(size - |bytes|)
  {
  }

  /** A field of a header cut off after `j` bytes. */
  lemma {:induction false} CutField(pid: nat, j: nat, at: nat, n: nat)
    requires j <= HEADER_SIZE && at + 8 <= HEADER_SIZE
    requires n == if j <= at then 0 else if j < at + 8 then j - at else 8
    ensures Begun(pid, j)[at..at + 8] == Header(pid)[at..at + 8][..n] + Zeros(8)[n..]
  {
    CutBytes(Header(pid), Begun(pid, j), j, at, n);
  }

  lemma {:induction false} CutBytes(header: seq<Byte>, file: seq<Byte>, j: nat, at: nat, n: nat)
    requires j <= |header| <= |file| && at + 8 <= |header|
    requires forall i | 0 <= i < |header| :: file[i] == if i < j then header[i] else 0
    requires n == if j <= at then 0 else if j < at + 8 then j - at else 8
    ensures file[at..at + 8] == header[at..at + 8][..n] + Zeros(8)[n..]
  {
    var cut, field := file[at..at + 8], header[at..at + 8];
    forall i | 0 <= i < 8
      ensures cut[i] == (field[..n] + Zeros(8)[n..])[i]
    {
      assert cut[i] == file[at + i] && field[i] == header[at + i];
    }
  }

  lemma {:induction false} CutPid(pid: nat, j: nat)
    requires 0 < pid < Pow256(8) && j <= HEADER_SIZE
    ensures FromLittle(Begun(pid, j)[32..40]) != 0 <==> HasPid(pid, j)
  {
    var n := if j <= 32 then 0 else if j < 40 then j - 32 else 8;
    HeaderParts(pid);
    CutField(pid, j, 32, n);
    TornPid(pid, n);
  }

  lemma {:induction false} TornPid(pid: nat, n: nat)
    requires 0 < pid < Pow256(8) && n <= 8
    ensures FromLittle(Little(pid, 8)[..n] + Zeros(8)[n..]) == pid % Pow256(n)
  {
    NoLittle(8);
    TornField(0, pid, 8, n);
  }

  lemma {:induction false} CutCount(pid: nat, j: nat)
    requires j <= HEADER_SIZE
    ensures FromLittle(Begun(pid, j)[24..32]) == 0
  {
    HeaderParts(pid);
    CutZeros(Header(pid), Begun(pid, j), j);
    ZerosRead(8);
  }

  lemma {:induction false} CutZeros(header: seq<Byte>, file: seq<Byte>, j: nat)
    requires |header| == HEADER_SIZE <= |file| && header[24..32] == Zeros(8)
    requires forall i | 0 <= i < |header| :: file[i] == if i < j then header[i] else 0
    ensures file[24..32] == Zeros(8)
  {
    forall i | 0 <= i < 8
      ensures file[24..32][i] == 0
    {
      assert header[24..32][i] == header[24 + i];
    }
  }

  lemma {:induction false} ZerosRead(width: nat)
    ensures FromLittle(Zeros(width)) == 0
  {
    NoLittle(width);
    LittleRoundTrip(0, width);
  }

  /** Until the process id is there the reader refuses the header, from then on it
      reads a file without records. */
  lemma {:induction false} BegunIsJudged(pid: nat, j: nat, crc: Payload -> Word)
    requires 0 < pid < Pow256(8) && j <= HEADER_SIZE
    ensures Parse(Begun(pid, j), crc) == if HasPid(pid, j) then Records([]) else HeaderRefused
  {
    CutPid(pid, j);
    CutCount(pid, j);
    if j > 32 {
      CutAfterCount(pid, j);
      FieldsAreRead(INITIAL_CAPACITY, 0);
      assert Stops(Begun(pid, j), HEADER_SIZE);
    }
  }

  lemma {:induction false} CutAfterCount(pid: nat, j: nat)
    requires 0 < pid < Pow256(8) && 32 < j <= HEADER_SIZE
    ensures var file := Begun(pid, j);
      && file[..8] == MAGIC && FromLittle(file[8..12]) == VERSION && FromLittle(file[12..16]) == HEADER_SIZE
      && file[16..24] == Little(INITIAL_CAPACITY, 8) && file[HEADER_SIZE] == 0
  {
    var file, whole := Begun(pid, j), Fresh(pid);
    FreshIsHeaded(pid);
    assert forall i | 0 <= i < 32 :: file[i] == whole[i];
    assert file[..8] == whole[..8] && file[8..12] == whole[8..12];
    assert file[12..16] == whole[12..16] && file[16..24] == whole[16..24];
  }

  lemma {:induction false} BegunIsFresh(pid: nat)
    ensures Begun(pid, HEADER_SIZE) == Fresh(pid)
  {
    assert Header(pid)[..HEADER_SIZE] == Header(pid);
  }

  // -- in the middle of one write ------------------------------------------------------------

  /** Between writes, or with `done` of an attempt's stores done. */
  datatype Moment = Resting(writer: Writer) | Writing(writer: Writer, attempt: Attempt, done: nat)

  function UnderWay(m: Moment, crc: Payload -> Word): Written
    requires m.Writing? && m.writer.capacity > 0
  {
    Write(m.writer, m.attempt.payload, m.attempt.mapFails, crc)
  }

  /** Three bytes of a capacity that crosses 16 MiB are stored, and the fourth not. */
  predicate CapacityTorn(m: Moment, crc: Payload -> Word)
    requires m.writer.capacity > 0
  {
    m.Writing? && m.done == 4 && UnderWay(m, crc).accepted
    && m.writer.capacity < 0x100_0000 <= UnderWay(m, crc).writer.capacity
  }

  /** An attempt that drops its record is storing the new count. */
  predicate Counting(m: Moment, crc: Payload -> Word)
    requires m.writer.capacity > 0
  {
    m.Writing? && !UnderWay(m, crc).accepted
  }

  /** What the bytes of the dropped count say, the first `j` of them being new. */
  function TornCount(dropped: nat, j: nat): nat {
    (dropped + 1) % Pow256(j) + Whole(dropped, Pow256(j))
  }

  /** Without what is below a multiple of `p`. */
  function Whole(n: nat, p: nat): nat
    requires p > 0
  {
    n - n % p
  }

  lemma {:induction false} WholeIsMultiple(n: nat, p: nat)
    requires p > 0
    ensures n / p * p == Whole(n, p)
  {
  }

  function CountShown(m: Moment, crc: Payload -> Word): nat
    requires m.writer.capacity > 0
  {
    if Counting(m, crc) then TornCount(m.writer.dropped, m.done) else m.writer.dropped
  }

  /** What the reader says of a file caught at a moment. */
  function Shown(m: Moment, committed: seq<Payload>, crc: Payload -> Word): Parsed
    requires m.writer.capacity > 0
  {
    if CapacityTorn(m, crc) then HeaderRefused
    else if CountShown(m, crc) != 0 then Dropped(CountShown(m, crc))
    else Records(committed)
  }

  /** A torn count says nothing was dropped when nothing was and its first byte is
      not yet stored, or when all bytes stored are a carry out of the count: the
      255 records, or 65535, ... dropped so far are forgotten. */
  lemma {:induction false} TornCountIsZero(dropped: nat, j: nat)
    ensures TornCount(dropped, j) == 0 <==> dropped + 1 == Pow256(j)
  {
    ZeroPast(dropped, Pow256(j));
  }

  lemma {:induction false} ZeroPast(n: nat, p: nat)
    requires p > 0
    ensures (n + 1) % p + Whole(n, p) == 0 <==> n + 1 == p
  {
    if n + 1 < p {
      QuotientIs(n + 1, p, 0, n + 1);
    } else if n + 1 == p {
      QuotientIs(n, p, 0, n);
    }
  }

  lemma {:induction false} DropIsJudged(file: seq<Byte>, w: Writer, committed: seq<Payload>, j: nat, crc: Payload -> Word)
    requires Ready(file, w, committed, crc) && w.dropped + 1 < Pow256(8) && j <= 8
    ensures |Drop(w).events| == 8
    ensures Parse(Replay(file, Drop(w).events[..j]), crc) == Judged(|file|, w.capacity, TornCount(w.dropped, j), committed)
  {
    var bytes := DropEvents(w, j);
    var after := CountPlaced(file, w, committed, bytes, crc);
    CountCut(file, after, w, committed, j, bytes, crc);
  }

  lemma {:induction false} DropEvents(w: Writer, j: nat) returns (bytes: seq<Byte>)
    requires j <= 8
    ensures bytes == Little(w.dropped + 1, 8)[..j]
    ensures |Drop(w).events| == 8 && Drop(w).events[..j] == Puts(24, bytes)
  {
    bytes := Little(w.dropped + 1, 8)[..j];
    PutsPrefix(24, Little(w.dropped + 1, 8), j);
  }

  lemma {:induction false} CountPlaced(file: seq<Byte>, w: Writer, committed: seq<Payload>, bytes: seq<Byte>, crc: Payload -> Word)
    returns (after: seq<Byte>)
    requires Ready(file, w, committed, crc) && |bytes| <= 8
    ensures after == Replay(file, Puts(24, bytes)) == Overlay(file, 24, bytes)
    ensures ReadFrames(after, HEADER_SIZE, crc) == Ok(committed)
  {
    after := Replay(file, Puts(24, bytes));
    PutsOverlay(file, 24, bytes);
    PutsAreQuiet(24, bytes, w.cursor);
    QuietIsInvisible(file, Puts(24, bytes), committed, w.cursor, crc);
  }

  lemma {:induction false} CountCut(file: seq<Byte>, after: seq<Byte>, w: Writer, committed: seq<Payload>, j: nat, bytes: seq<Byte>, crc: Payload -> Word)
    requires Ready(file, w, committed, crc) && w.dropped + 1 < Pow256(8) && j <= 8
    requires bytes == Little(w.dropped + 1, 8)[..j] && after == Overlay(file, 24, bytes)
    requires ReadFrames(after, HEADER_SIZE, crc) == Ok(committed)
    ensures Parse(after, crc) == Judged(|file|, w.capacity, TornCount(w.dropped, j), committed)
  {
    CountFields(file, after, w, j, bytes);
    ParseHeaded(after, w.capacity, TornCount(w.dropped, j), committed, crc);
  }

  lemma {:induction false} CountFields(file: seq<Byte>, after: seq<Byte>, w: Writer, j: nat, bytes: seq<Byte>)
    requires Declared(file, w) && w.dropped + 1 < Pow256(8) && j <= 8
    requires bytes == Little(w.dropped + 1, 8)[..j] && after == Overlay(file, 24, bytes)
    ensures |after| == |file| && Headed(after)
    ensures FromLittle(after[16..24]) == w.capacity && FromLittle(after[24..32]) == TornCount(w.dropped, j)
  {
    CountBytes(file, after, bytes);
    HeadKept(file, after);
    CountIsTorn(w.dropped, j);
    FieldsAreRead(w.capacity, 0);
  }

  lemma {:induction false} CountIsTorn(dropped: nat, j: nat)
    requires dropped < Pow256(8) && j <= 8
    ensures FromLittle(Little(dropped + 1, 8)[..j] + Little(dropped, 8)[j..]) == TornCount(dropped, j)
  {
    TornField(dropped, dropped + 1, 8, j);
    WholeIsMultiple(dropped, Pow256(j));
  }

  lemma {:induction false} CountBytes(file: seq<Byte>, after: seq<Byte>, bytes: seq<Byte>)
    requires |file| >= HEADER_SIZE && |bytes| <= 8 && after == Overlay(file, 24, bytes)
    ensures forall i | 0 <= i < 16 || 32 <= i < HEADER_SIZE :: after[i] == file[i]
    ensures after[16..24] == file[16..24] && after[24..32] == bytes + file[24..32][|bytes|..]
  {
    OverlayAt(file, 24, bytes);
  }

  // -- stores behind the header ------------------------------------------------------------------

  ghost predicate AllBehind(events: seq<Event>, cursor: nat) {
    forall k | 0 <= k < |events| :: events[k].Put? && events[k].offset >= cursor
  }

  lemma {:induction false} PutsAreBehind(offset: nat, bytes: seq<Byte>, cursor: nat)
    requires offset >= cursor
    ensures AllBehind(Puts(offset, bytes), cursor)
    decreases |bytes|
  {
    if bytes != [] {
      PutsAreBehind(offset + 1, bytes[1..], cursor);
    }
  }

  lemma {:induction false} StoresAreBehind(w: Writer, payload: Payload, mapped: bool, crc: Payload -> Word)
    ensures AllBehind(Stores(w, payload, mapped, crc), w.cursor)
  {
    PutsAreBehind(w.cursor, Frame(0, payload, crc), w.cursor);
    PutsAreBehind(w.cursor + RECORD_HEADER_SIZE, payload, w.cursor);
    PutsAreBehind(w.cursor + RECORD_HEADER_SIZE + |payload|, Padding(payload), w.cursor);
    PutsAreBehind(w.cursor + 4, Fields(payload, crc), w.cursor);
  }

  lemma {:induction false} BehindKeepsHeader(file: seq<Byte>, events: seq<Event>, cursor: nat)
    requires AllBehind(events, cursor)
    ensures var after := Replay(file, events);
      |after| == |file| && forall i | 0 <= i < cursor && i < |file| :: after[i] == file[i]
    decreases |events|
  {
    if events != [] {
      assert events[0].Put? && events[0].offset >= cursor;
      assert forall k | 0 <= k < |events[1..]| :: events[1..][k] == events[k + 1];
      BehindKeepsHeader(ApplyEvent(file, events[0]), events[1..], cursor);
    }
  }

  lemma {:induction false} StoresAreJudged(file: seq<Byte>, w: Writer, committed: seq<Payload>, events: seq<Event>, crc: Payload -> Word)
    requires Ready(file, w, committed, crc) && w.dropped < Pow256(8)
    requires AllBehind(events, w.cursor) && AllQuiet(events, w.cursor)
    ensures Parse(Replay(file, events), crc) == Judged(|file|, w.capacity, w.dropped, committed)
  {
    var after := Replay(file, events);
    QuietIsInvisible(file, events, committed, w.cursor, crc);
    BehindKeepsHeader(file, events, w.cursor);
    HeaderKept(file, after, w.cursor);
    FieldsAreRead(w.capacity, w.dropped);
    ParseHeaded(after, w.capacity, w.dropped, committed, crc);
  }

  lemma {:induction false} PrefixIsBehind(events: seq<Event>, k: nat, cursor: nat)
    requires k <= |events| && AllBehind(events, cursor) && AllQuiet(events, cursor)
    ensures AllBehind(events[..k], cursor) && AllQuiet(events[..k], cursor)
  {
    assert forall i | 0 <= i < k :: events[..k][i] == events[i];
  }

  /** The growth of a file is one resize and eight bytes. */
  lemma {:induction false} GrowthParts(w: Writer, payload: Payload)
    requires w.capacity > 0 && Growth(w, payload) != []
    ensures var capacity := Grown(w.capacity, w.cursor + FrameSize(payload));
      Growth(w, payload) == [Extend(capacity)] + Puts(16, Little(capacity, 8)) && |Growth(w, payload)| == 9
  {
    PutsLength(16, Little(Grown(w.capacity, w.cursor + FrameSize(payload)), 8));
  }

  /** A kept record, caught before its commit. */
  lemma {:induction false} KeptIsJudged(
    file: seq<Byte>, w: Writer, committed: seq<Payload>, attempt: Attempt, written: Written, k: nat, crc: Payload -> Word)
    requires Ready(file, w, committed, crc) && IsCapacity(w.capacity) && w.dropped < Pow256(8)
    requires IsRecord(attempt.payload) && written == Write(w, attempt.payload, attempt.mapFails, crc)
    requires written.accepted && k < |written.events|
    ensures Parse(Replay(file, written.events[..k]), crc) == Shown(Writing(w, attempt, k), committed, crc)
  {
    var growth := Growth(w, attempt.payload);
    KeptEvents(w, attempt.payload, attempt.mapFails, written, k, crc);
    ShownOfKept(w, attempt, written, k, committed, crc);
    if k <= |growth| {
      if growth != [] {
        growth := GrowthOf(w, attempt.payload, attempt.mapFails, written, crc);
      }
      GrowingIsJudged(file, w, committed, written.writer.capacity, growth, k, crc);
    } else {
      PlacedIsJudged(file, w, committed, attempt.payload, attempt.mapFails, written, k - |growth|, crc);
      FullGrowth(w, attempt.payload, written, growth, k);
    }
  }

  lemma {:induction false} KeptEvents(w: Writer, payload: Payload, mapFails: bool, written: Written, k: nat, crc: Payload -> Word)
    requires w.capacity > 0 && written == Write(w, payload, mapFails, crc) && written.accepted && k < |written.events|
    ensures var growth, stores := Growth(w, payload), Stores(w, payload, written.writer.mapped, crc);
      && k <= |growth| + |stores|
      && written.events[..k] == (if k <= |growth| then growth[..k] else growth + stores[..k - |growth|])
      && (growth == [] ==> written.writer.capacity == w.capacity)
  {
    SplitStores(Growth(w, payload), Stores(w, payload, written.writer.mapped, crc), [Put(w.cursor, COMMIT)], k);
  }

  lemma {:induction false} ShownOfKept(w: Writer, attempt: Attempt, written: Written, k: nat, committed: seq<Payload>, crc: Payload -> Word)
    requires w.capacity > 0 && written == Write(w, attempt.payload, attempt.mapFails, crc) && written.accepted
    ensures Shown(Writing(w, attempt, k), committed, crc)
         == if k == 4 && w.capacity < 0x100_0000 <= written.writer.capacity then HeaderRefused
            else if w.dropped != 0 then Dropped(w.dropped)
            else Records(committed)
  {
  }

  /** A file caught while it grows, or before. */
  lemma {:induction false} GrowingIsJudged(
    file: seq<Byte>, w: Writer, committed: seq<Payload>, capacity: nat, growth: seq<Event>, k: nat, crc: Payload -> Word)
    requires Ready(file, w, committed, crc) && IsCapacity(w.capacity) && w.dropped < Pow256(8) && k <= |growth|
    requires growth != [] ==>
      && IsCapacity(capacity) && w.capacity < capacity
      && growth == [Extend(capacity)] + Puts(16, Little(capacity, 8)) && |growth| == 9
    ensures Parse(Replay(file, growth[..k]), crc)
         == if k == 4 && w.capacity < 0x100_0000 <= capacity then HeaderRefused
            else if w.dropped != 0 then Dropped(w.dropped)
            else Records(committed)
  {
    if k == 0 {
      assert growth[..0] == [];
      RestingFileIsParsed(file, w, committed, crc);
    } else {
      TornGrowth(file, w, committed, capacity, growth, k - 1, crc);
    }
  }

  lemma {:induction false} GrowthOf(w: Writer, payload: Payload, mapFails: bool, written: Written, crc: Payload -> Word)
    returns (growth: seq<Event>)
    requires IsCapacity(w.capacity) && written == Write(w, payload, mapFails, crc) && written.accepted
    requires Growth(w, payload) != []
    ensures growth == Growth(w, payload) && |growth| == 9
    ensures growth == [Extend(written.writer.capacity)] + Puts(16, Little(written.writer.capacity, 8))
    ensures IsCapacity(written.writer.capacity) && w.capacity < written.writer.capacity
  {
    growth := Growth(w, payload);
    GrowthParts(w, payload);
    GrownIsCapacity(w.capacity, w.cursor + FrameSize(payload));
  }

  /** Past the growth the capacity is whole. */
  lemma {:induction false} FullGrowth(w: Writer, payload: Payload, written: Written, growth: seq<Event>, k: nat)
    requires w.capacity > 0 && growth == Growth(w, payload) && k > |growth|
    requires growth == [] ==> written.writer.capacity == w.capacity
    ensures !(k == 4 && w.capacity < 0x100_0000 <= written.writer.capacity)
  {
    if growth != [] {
      GrowthParts(w, payload);
    }
  }

  lemma {:induction false} SplitStores(growth: seq<Event>, stores: seq<Event>, commit: seq<Event>, k: nat)
    requires k < |growth + stores + commit| && |commit| == 1
    ensures (growth + stores + commit)[..k]
         == if k <= |growth| then growth[..k] else growth + stores[..k - |growth|]
  {
  }

  lemma {:induction false} PlacedIsJudged(
    file: seq<Byte>, w: Writer, committed: seq<Payload>, payload: Payload, mapFails: bool, written: Written, n: nat,
    crc: Payload -> Word)
    requires Ready(file, w, committed, crc) && w.dropped < Pow256(8)
    requires written == Write(w, payload, mapFails, crc) && written.accepted
    requires n <= |Stores(w, payload, written.writer.mapped, crc)|
    ensures Parse(Replay(file, Growth(w, payload) + Stores(w, payload, written.writer.mapped, crc)[..n]), crc)
         == if w.dropped != 0 then Dropped(w.dropped) else Records(committed)
  {
    var growth, stores := Growth(w, payload), Stores(w, payload, written.writer.mapped, crc);
    var capacity := written.writer.capacity;
    if growth != [] {
      GrowthReady(file, w, committed, capacity, crc);
    }
    ReplayConcat(file, growth, stores[..n]);
    StoresAreBehind(w, payload, written.writer.mapped, crc);
    StoresAreQuiet(w.cursor, payload, written.writer.mapped, crc);
    PrefixIsBehind(stores, n, w.cursor);
    StoresAreJudged(Replay(file, growth), w.(capacity := capacity), committed, stores[..n], crc);
  }

  /** Any attempt, caught before its last store. */
  lemma {:induction false} MomentIsJudged(
    file: seq<Byte>, w: Writer, committed: seq<Payload>, attempt: Attempt, k: nat, crc: Payload -> Word)
    requires Ready(file, w, committed, crc) && IsCapacity(w.capacity) && w.dropped + 1 < Pow256(8)
    requires IsRecord(attempt.payload)
    requires k < |Write(w, attempt.payload, attempt.mapFails, crc).events|
    ensures Parse(Replay(file, Write(w, attempt.payload, attempt.mapFails, crc).events[..k]), crc)
         == Shown(Writing(w, attempt, k), committed, crc)
  {
    var written := Write(w, attempt.payload, attempt.mapFails, crc);
    if written.accepted {
      KeptIsJudged(file, w, committed, attempt, written, k, crc);
    } else {
      PutsLength(24, Little(w.dropped + 1, 8));
      DropIsJudged(file, w, committed, k, crc);
    }
  }

  // -- the whole process ---------------------------------------------------------------------------

  function MomentAt(w: Writer, attempts: seq<Attempt>, crc: Payload -> Word, k: nat): (m: Moment)
    requires w.capacity > 0
    ensures m.writer.capacity > 0
    decreases |attempts|
  {
    if attempts == [] then Resting(w)
    else
      var written := Write(w, attempts[0].payload, attempts[0].mapFails, crc);
      if k < |written.events| then Writing(w, attempts[0], k)
      else MomentAt(written.writer, attempts[1..], crc, k - |written.events|)
  }

  /** From a file that is ready on. */
  lemma {:induction false} EveryPrefixIsJudged(
    file: seq<Byte>, w: Writer, committed: seq<Payload>, attempts: seq<Attempt>, crc: Payload -> Word, k: nat)
    requires Ready(file, w, committed, crc) && IsCapacity(w.capacity) && w.dropped + |attempts| < Pow256(8)
    requires k <= |AllEvents(w, attempts, crc)|
    requires forall i | 0 <= i < |attempts| :: IsRecord(attempts[i].payload)
    ensures Parse(Replay(file, AllEvents(w, attempts, crc)[..k]), crc)
         == Shown(MomentAt(w, attempts, crc, k), committed + CommittedBy(w, attempts, crc, k), crc)
    decreases |attempts|
  {
    if attempts == [] {
      RestingFileIsParsed(file, w, committed, crc);
      assert AllEvents(w, attempts, crc)[..k] == [] && committed + [] == committed;
    } else {
      var first := attempts[0];
      var written := Write(w, first.payload, first.mapFails, crc);
      if k < |written.events| {
        FirstAttempt(w, attempts, crc, k, written, committed);
        MomentIsJudged(file, w, committed, first, k, crc);
      } else {
        var rest, later := LaterAttempts(w, attempts, crc, k, written, committed);
        var after := WriteGoesOn(file, w, committed, first, written, rest, crc);
        WriterStays(w, first, crc);
        EveryPrefixIsJudged(after, written.writer, Kept(committed, written, first.payload), attempts[1..], crc,
          k - |written.events|);
      }
    }
  }

  lemma {:induction false} WriterStays(w: Writer, attempt: Attempt, crc: Payload -> Word)
    requires IsCapacity(w.capacity)
    ensures IsCapacity(Write(w, attempt.payload, attempt.mapFails, crc).writer.capacity)
  {
    GrownIsCapacity(w.capacity, w.cursor + FrameSize(attempt.payload));
  }

  /** All stores of a process: its file's and header's, and then its records'. */
  function ProcessStores(pid: nat, mapped: bool, attempts: seq<Attempt>, crc: Payload -> Word): seq<Event> {
    Opening(pid) + AllEvents(Opened(mapped), attempts, crc)
  }

  /** How many of the first `k` stores are records'. */
  function RecordStores(k: nat): nat {
    if k < OPENING then 0 else k - OPENING
  }

  /** The process id was stored. */
  predicate Identified(pid: nat, k: nat) {
    k >= OPENING || (k > 0 && HasPid(pid, k - 1))
  }

  /** The file after the first `k` stores. */
  function ProcessFile(pid: nat, mapped: bool, attempts: seq<Attempt>, crc: Payload -> Word, k: nat): seq<Byte>
    requires k <= |ProcessStores(pid, mapped, attempts, crc)|
  {
    Replay([], ProcessStores(pid, mapped, attempts, crc)[..k])
  }

  function ProcessMoment(mapped: bool, attempts: seq<Attempt>, crc: Payload -> Word, k: nat): (m: Moment)
    ensures m.writer.capacity > 0
  {
    MomentAt(Opened(mapped), attempts, crc, RecordStores(k))
  }

  /** The records whose commits are among the first `k` stores. */
  function ProcessRecords(mapped: bool, attempts: seq<Attempt>, crc: Payload -> Word, k: nat): seq<Payload> {
    CommittedBy(Opened(mapped), attempts, crc, RecordStores(k))
  }

  /** For every process, back end and sequence of writes, killed after any store,
      exactly what the reader makes of its file. */
  lemma {:induction false} KilledProcessIsJudged(pid: nat, mapped: bool, attempts: seq<Attempt>, crc: Payload -> Word, k: nat)
    requires 0 < pid < Pow256(8) && |attempts| < Pow256(8) && k <= |ProcessStores(pid, mapped, attempts, crc)|
    requires forall i | 0 <= i < |attempts| :: IsRecord(attempts[i].payload)
    ensures Parse(ProcessFile(pid, mapped, attempts, crc, k), crc)
         == if !Identified(pid, k) then HeaderRefused
            else Shown(ProcessMoment(mapped, attempts, crc, k), ProcessRecords(mapped, attempts, crc, k), crc)
  {
    if k < OPENING {
      KilledOpening(pid, mapped, attempts, crc, k);
      NotYetWriting(mapped, attempts, crc);
    } else {
      KilledWriting(pid, mapped, attempts, crc, k);
    }
  }

  lemma {:induction false} KilledOpening(pid: nat, mapped: bool, attempts: seq<Attempt>, crc: Payload -> Word, k: nat)
    requires 0 < pid < Pow256(8) && k < OPENING && k <= |ProcessStores(pid, mapped, attempts, crc)|
    ensures Parse(ProcessFile(pid, mapped, attempts, crc, k), crc) == if Identified(pid, k) then Records([]) else HeaderRefused
  {
    OpeningBegins(pid, 0);
    var file := OpeningPrefix(pid, AllEvents(Opened(mapped), attempts, crc), k);
    OpeningIsJudged(pid, k, file, crc);
  }

  lemma {:induction false} OpeningPrefix(pid: nat, records: seq<Event>, k: nat) returns (file: seq<Byte>)
    requires k <= |Opening(pid)|
    ensures file == Replay([], (Opening(pid) + records)[..k]) == Replay([], Opening(pid)[..k])
  {
    SplitPrefix(Opening(pid), records, Opening(pid) + records, k);
    file := Replay([], Opening(pid)[..k]);
  }

  lemma {:induction false} KilledWriting(pid: nat, mapped: bool, attempts: seq<Attempt>, crc: Payload -> Word, k: nat)
    requires 0 < pid < Pow256(8) && |attempts| < Pow256(8) && OPENING <= k <= |ProcessStores(pid, mapped, attempts, crc)|
    requires forall i | 0 <= i < |attempts| :: IsRecord(attempts[i].payload)
    ensures Parse(ProcessFile(pid, mapped, attempts, crc, k), crc)
         == Shown(ProcessMoment(mapped, attempts, crc, k), ProcessRecords(mapped, attempts, crc, k), crc)
  {
    var n := RecordStores(k);
    var file := WritingPrefix(pid, mapped, attempts, crc, k);
    WritingIsJudged(pid, mapped, attempts, crc, n, file);
  }

  lemma {:induction false} WritingPrefix(pid: nat, mapped: bool, attempts: seq<Attempt>, crc: Payload -> Word, k: nat)
    returns (file: seq<Byte>)
    requires OPENING <= k <= |ProcessStores(pid, mapped, attempts, crc)|
    ensures RecordStores(k) <= |AllEvents(Opened(mapped), attempts, crc)|
    ensures file == ProcessFile(pid, mapped, attempts, crc, k)
    ensures file == Replay(Replay([], Opening(pid)), AllEvents(Opened(mapped), attempts, crc)[..RecordStores(k)])
  {
    OpeningBegins(pid, 0);
    file := RecordsPrefix(pid, AllEvents(Opened(mapped), attempts, crc), RecordStores(k));
  }

  lemma {:induction false} RecordsPrefix(pid: nat, records: seq<Event>, n: nat) returns (file: seq<Byte>)
    requires n <= |records|
    ensures file == Replay([], (Opening(pid) + records)[..|Opening(pid)| + n])
    ensures file == Replay(Replay([], Opening(pid)), records[..n])
  {
    SplitPrefix(Opening(pid), records, Opening(pid) + records, |Opening(pid)| + n);
    ReplayConcat([], Opening(pid), records[..n]);
    file := Replay(Replay([], Opening(pid)), records[..n]);
  }

  lemma {:induction false} OpeningIsJudged(pid: nat, k: nat, file: seq<Byte>, crc: Payload -> Word)
    requires 0 < pid < Pow256(8) && k < OPENING && k <= |Opening(pid)| && file == Replay([], Opening(pid)[..k])
    ensures Parse(file, crc) == if Identified(pid, k) then Records([]) else HeaderRefused
  {
    if k > 0 {
      OpeningBegins(pid, k - 1);
      BegunIsJudged(pid, k - 1, crc);
    } else {
      assert Opening(pid)[..0] == [];
    }
  }

  lemma {:induction false} WritingIsJudged(
    pid: nat, mapped: bool, attempts: seq<Attempt>, crc: Payload -> Word, n: nat, file: seq<Byte>)
    requires 0 < pid < Pow256(8) && |attempts| < Pow256(8) && n <= |AllEvents(Opened(mapped), attempts, crc)|
    requires forall i | 0 <= i < |attempts| :: IsRecord(attempts[i].payload)
    requires file == Replay(Replay([], Opening(pid)), AllEvents(Opened(mapped), attempts, crc)[..n])
    ensures Parse(file, crc)
         == Shown(MomentAt(Opened(mapped), attempts, crc, n), CommittedBy(Opened(mapped), attempts, crc, n), crc)
  {
    var events, committed := AllEvents(Opened(mapped), attempts, crc), CommittedBy(Opened(mapped), attempts, crc, n);
    OpenedIsFresh(pid);
    FreshIsReady(pid, mapped, crc);
    EveryPrefixIsJudged(Fresh(pid), Opened(mapped), [], attempts, crc, n);
    assert [] + committed == committed;
  }

  lemma {:induction false} OpenedIsFresh(pid: nat)
    ensures Replay([], Opening(pid)) == Fresh(pid)
  {
    OpeningBegins(pid, HEADER_SIZE);
    assert Opening(pid)[..1 + HEADER_SIZE] == Opening(pid);
    BegunIsFresh(pid);
  }

  /** Before the first store of a record nothing is torn and nothing committed. */
  lemma {:induction false} NotYetWriting(mapped: bool, attempts: seq<Attempt>, crc: Payload -> Word)
    ensures Shown(MomentAt(Opened(mapped), attempts, crc, 0), CommittedBy(Opened(mapped), attempts, crc, 0), crc) == Records([])
  {
  }

  /** So it takes exactly the committed records if and only if the process id was
      stored, the process was not between the third and fourth byte of a capacity
      that crosses 16 MiB, and nothing was dropped so far, or the count of the
      dropped is just being stored with nothing but a carry in it. */
  lemma {:induction false} KilledProcessIsReadable(pid: nat, mapped: bool, attempts: seq<Attempt>, crc: Payload -> Word, k: nat)
    requires 0 < pid < Pow256(8) && |attempts| < Pow256(8) && k <= |ProcessStores(pid, mapped, attempts, crc)|
    requires forall i | 0 <= i < |attempts| :: IsRecord(attempts[i].payload)
    ensures
      var m := ProcessMoment(mapped, attempts, crc, k);
      Parse(ProcessFile(pid, mapped, attempts, crc, k), crc) == Records(ProcessRecords(mapped, attempts, crc, k))
      <==> Identified(pid, k) && !CapacityTorn(m, crc)
           && (if Counting(m, crc) then m.writer.dropped + 1 == Pow256(m.done) else m.writer.dropped == 0)
  {
    var m := ProcessMoment(mapped, attempts, crc, k);
    KilledProcessIsJudged(pid, mapped, attempts, crc, k);
    if Counting(m, crc) {
      TornCountIsZero(m.writer.dropped, m.done);
    }
  }

  // -- a count that is forgotten ---------------------------------------------------------------------

  function Repeated(payload: Payload, n: nat): seq<Attempt> {
    if n == 0 then [] else [Attempt(payload, false)] + Repeated(payload, n - 1)
  }

  lemma {:induction false} AllDropped(w: Writer, payload: Payload, n: nat, last: nat, crc: Payload -> Word)
    requires w.capacity > 0 && |payload| > MAX_RECORD_SIZE && last < 8
    ensures var attempts := Repeated(payload, n + 1);
      && |attempts| == n + 1 && (forall i | 0 <= i <= n :: attempts[i].payload == payload)
      && 8 * n + last <= |AllEvents(w, attempts, crc)|
      && MomentAt(w, attempts, crc, 8 * n + last) == Writing(w.(dropped := w.dropped + n), Attempt(payload, false), last)
      && CommittedBy(w, attempts, crc, 8 * n + last) == []
    decreases n
  {
    OneDropped(w, payload, Repeated(payload, n), 8 * n + last, crc);
    if n > 0 {
      AllDropped(Drop(w).writer, payload, n - 1, last, crc);
    } else {
      assert Repeated(payload, 0) == [];
    }
  }

  lemma {:induction false} OneDropped(w: Writer, payload: Payload, rest: seq<Attempt>, k: nat, crc: Payload -> Word)
    requires w.capacity > 0 && |payload| > MAX_RECORD_SIZE
    ensures var attempts, later := [Attempt(payload, false)] + rest, Drop(w).writer;
      && |AllEvents(w, attempts, crc)| == 8 + |AllEvents(later, rest, crc)|
      && MomentAt(w, attempts, crc, k)
         == (if k < 8 then Writing(w, Attempt(payload, false), k) else MomentAt(later, rest, crc, k - 8))
      && CommittedBy(w, attempts, crc, k) == if k < 8 then [] else CommittedBy(later, rest, crc, k - 8)
  {
    var attempts := [Attempt(payload, false)] + rest;
    PutsLength(24, Little(w.dropped + 1, 8));
    assert attempts[1..] == rest;
    assert Write(w, payload, false, crc) == Drop(w);
  }

  /** A process's record of itself, and then 256 records too long to be kept. */
  function Forgetful(first: Attempt, payload: Payload): seq<Attempt> {
    [first] + Repeated(payload, 256)
  }

  /** Killed after the first byte of their count: the reader takes the file, as if
      nothing had been dropped. */
  lemma {:induction false} ForgottenCount(pid: nat, mapped: bool, first: Attempt, payload: Payload, crc: Payload -> Word)
    requires 0 < pid < Pow256(8) && IsRecord(first.payload) && |payload| > MAX_RECORD_SIZE
    requires Write(Opened(mapped), first.payload, first.mapFails, crc).accepted
    ensures
      var attempts := Forgetful(first, payload);
      var k := OPENING + |Write(Opened(mapped), first.payload, first.mapFails, crc).events| + 8 * 255 + 1;
      && k <= |ProcessStores(pid, mapped, attempts, crc)|
      && ProcessMoment(mapped, attempts, crc, k).writer.dropped == 255
      && Parse(ProcessFile(pid, mapped, attempts, crc, k), crc) == Records([first.payload])
  {
    var attempts := Forgetful(first, payload);
    var n := ForgetfulMoment(mapped, first, payload, crc);
    ForgetfulRecords(first, payload);
    OneByteOfCount(attempts);
    AllStores(pid, mapped, attempts, crc);
    KilledAt(pid, mapped, attempts, crc, OPENING + n, ProcessMoment(mapped, attempts, crc, OPENING + n), [first.payload]);
  }

  /** What the reader takes with 255 dropped and the count one byte into 256. */
  lemma {:induction false} KilledAt(
    pid: nat, mapped: bool, attempts: seq<Attempt>, crc: Payload -> Word, k: nat, m: Moment, records: seq<Payload>)
    requires 0 < pid < Pow256(8) && |attempts| < Pow256(8) && Pow256(1) == 256
    requires forall i | 0 <= i < |attempts| :: IsRecord(attempts[i].payload)
    requires OPENING <= k <= |ProcessStores(pid, mapped, attempts, crc)|
    requires m == ProcessMoment(mapped, attempts, crc, k) && records == ProcessRecords(mapped, attempts, crc, k)
    requires m.Writing? && |m.attempt.payload| > MAX_RECORD_SIZE && m.done == 1 && m.writer.dropped == 255
    requires m.writer.capacity > 0
    ensures Parse(ProcessFile(pid, mapped, attempts, crc, k), crc) == Records(records)
  {
    DropsLong(m, crc);
    KilledProcessIsReadable(pid, mapped, attempts, crc, k);
  }

  lemma {:induction false} AllStores(pid: nat, mapped: bool, attempts: seq<Attempt>, crc: Payload -> Word)
    ensures |ProcessStores(pid, mapped, attempts, crc)| == OPENING + |AllEvents(Opened(mapped), attempts, crc)|
  {
    OpeningBegins(pid, 0);
  }

  lemma {:induction false} DropsLong(m: Moment, crc: Payload -> Word)
    requires m.Writing? && m.writer.capacity > 0 && |m.attempt.payload| > MAX_RECORD_SIZE
    ensures Counting(m, crc) && !CapacityTorn(m, crc)
  {
  }

  lemma {:induction false} ForgetfulMoment(mapped: bool, first: Attempt, payload: Payload, crc: Payload -> Word)
    returns (n: nat)
    requires |payload| > MAX_RECORD_SIZE && Write(Opened(mapped), first.payload, first.mapFails, crc).accepted
    ensures n == |Write(Opened(mapped), first.payload, first.mapFails, crc).events| + 8 * 255 + 1
    ensures n <= |AllEvents(Opened(mapped), Forgetful(first, payload), crc)|
    ensures CommittedBy(Opened(mapped), Forgetful(first, payload), crc, n) == [first.payload]
    ensures var m := MomentAt(Opened(mapped), Forgetful(first, payload), crc, n);
      m.Writing? && m.attempt == Attempt(payload, false) && m.done == 1 && m.writer.dropped == 255
  {
    var written := Write(Opened(mapped), first.payload, first.mapFails, crc);
    n := |written.events| + 8 * 255 + 1;
    AllDropped(written.writer, payload, 255, 1, crc);
    AfterFirst(mapped, first, Repeated(payload, 256), written, 8 * 255 + 1, crc);
  }

  lemma {:induction false} ForgetfulRecords(first: Attempt, payload: Payload)
    requires IsRecord(first.payload) && IsRecord(payload)
    ensures forall i | 0 <= i < |Forgetful(first, payload)| :: IsRecord(Forgetful(first, payload)[i].payload)
    ensures |Forgetful(first, payload)| == 257
  {
    RepeatedPayload(payload, 256);
  }

  lemma {:induction false} RepeatedPayload(payload: Payload, n: nat)
    ensures |Repeated(payload, n)| == n && forall i | 0 <= i < n :: Repeated(payload, n)[i].payload == payload
  {
    if n > 0 {
      RepeatedPayload(payload, n - 1);
    }
  }

  lemma {:induction false} AfterFirst(
    mapped: bool, first: Attempt, rest: seq<Attempt>, written: Written, n: nat, crc: Payload -> Word)
    requires written == Write(Opened(mapped), first.payload, first.mapFails, crc) && written.accepted
    ensures var attempts, k := [first] + rest, |written.events| + n;
      && |AllEvents(Opened(mapped), attempts, crc)| == |written.events| + |AllEvents(written.writer, rest, crc)|
      && MomentAt(Opened(mapped), attempts, crc, k) == MomentAt(written.writer, rest, crc, n)
      && CommittedBy(Opened(mapped), attempts, crc, k) == [first.payload] + CommittedBy(written.writer, rest, crc, n)
    ensures written.writer.dropped == 0
  {
    assert ([first] + rest)[1..] == rest;
  }

  lemma {:induction false} OneByteOfCount(attempts: seq<Attempt>)
    requires |attempts| <= 257
    ensures |attempts| < Pow256(8) && 255 + 1 == Pow256(1)
  {
    Powers();
    PowGrows(4, 8);
  }
}
