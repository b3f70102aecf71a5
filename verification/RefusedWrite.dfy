/** A positioned write that the system refused half way leaves bytes behind the
    cursor, and the next record is written over them. When that hides them, and
    what the reader says when it does not. */
module RefusedWrite {
  import opened Transport

  // -- any bytes behind the cursor ----------------------------------------------------------

  /** The frames are still in place, but the bytes after them are any bytes. Then a
      positioned write is read back alone exactly when the byte where the next
      frame would start is zero or there is no room for a frame's header. */
  lemma {:induction false} LeftoverDecides(file: seq<Byte>, cursor: nat, committed: seq<Payload>, payload: Payload, crc: Payload -> Word)
    requires Laid(file, HEADER_SIZE, committed, cursor, crc) && cursor % 8 == 0
    requires Sized(payload) && cursor + FrameSize(payload) <= |file|
    ensures
      var after := Overlay(file, cursor, Frame(COMMIT, payload, crc));
      var next := cursor + FrameSize(payload);
      && Replay(file, FileStores(cursor, payload, crc) + [Put(cursor, COMMIT)]) == after
      && (ReadFrames(after, HEADER_SIZE, crc) == Ok(committed + [payload])
          <==> next + RECORD_HEADER_SIZE > |file| || file[next] == 0)
  {
    FileStoresCommit(file, cursor, payload, crc);
    LeftoverRead(file, cursor, committed, payload, Overlay(file, cursor, Frame(COMMIT, payload, crc)), crc);
  }

  lemma {:induction false} LeftoverRead(
    file: seq<Byte>, cursor: nat, committed: seq<Payload>, payload: Payload, after: seq<Byte>, crc: Payload -> Word)
    requires Laid(file, HEADER_SIZE, committed, cursor, crc) && cursor % 8 == 0
    requires Sized(payload) && cursor + FrameSize(payload) <= |file|
    requires after == Overlay(file, cursor, Frame(COMMIT, payload, crc))
    ensures ReadFrames(after, HEADER_SIZE, crc)
         == Following(committed + [payload], ReadFrames(after, cursor + FrameSize(payload), crc))
    ensures ReadFrames(after, HEADER_SIZE, crc) == Ok(committed + [payload]) <==> Stops(file, cursor + FrameSize(payload))
  {
    OneMoreLaid(file, cursor, committed, payload, crc);
    LeftoverKept(file, cursor, Frame(COMMIT, payload, crc));
    LaidThenNothing(after, committed + [payload], cursor + FrameSize(payload), crc);
  }

  lemma {:induction false} LeftoverKept(file: seq<Byte>, cursor: nat, frame: seq<Byte>)
    requires cursor + |frame| <= |file|
    ensures Stops(Overlay(file, cursor, frame), cursor + |frame|) <==> Stops(file, cursor + |frame|)
  {
  }

  lemma {:induction false} FileStoresCommit(file: seq<Byte>, cursor: nat, payload: Payload, crc: Payload -> Word)
    requires cursor + FrameSize(payload) <= |file|
    ensures Replay(file, FileStores(cursor, payload, crc) + [Put(cursor, COMMIT)])
         == Overlay(file, cursor, Frame(COMMIT, payload, crc))
  {
    PutsOverlay(file, cursor, Frame(0, payload, crc));
    Committed(file, FileStores(cursor, payload, crc), cursor, 0, payload, crc);
  }

  /** The commit byte over whatever the frame began with. */
  lemma {:induction false} Committed(file: seq<Byte>, stores: seq<Event>, cursor: nat, byte: Byte, payload: Payload, crc: Payload -> Word)
    requires cursor + FrameSize(payload) <= |file|
    requires Replay(file, stores) == Overlay(file, cursor, Frame(byte, payload, crc))
    ensures Replay(file, stores + [Put(cursor, COMMIT)]) == Overlay(file, cursor, Frame(COMMIT, payload, crc))
  {
    ReplayConcat(file, stores, [Put(cursor, COMMIT)]);
    OneEvent(Overlay(file, cursor, Frame(byte, payload, crc)), Put(cursor, COMMIT));
    SetFirst(file, cursor, Frame(byte, payload, crc), COMMIT);
    assert Frame(byte, payload, crc)[0 := COMMIT] == Frame(COMMIT, payload, crc);
  }

  /** Just the committed payloads are read exactly when the reader stops after them. */
  lemma {:induction false} LaidThenNothing(file: seq<Byte>, committed: seq<Payload>, cursor: nat, crc: Payload -> Word)
    requires Laid(file, HEADER_SIZE, committed, cursor, crc)
    ensures ReadFrames(file, HEADER_SIZE, crc) == Following(committed, ReadFrames(file, cursor, crc))
    ensures ReadFrames(file, HEADER_SIZE, crc) == Ok(committed) <==> Stops(file, cursor)
  {
    LaidIsRead(file, HEADER_SIZE, committed, cursor, crc);
    OnlyEmptyAddsNothing(committed, ReadFrames(file, cursor, crc));
    ReadsSomething(file, cursor, crc);
  }

  lemma {:induction false} ReadsSomething(file: seq<Byte>, cursor: nat, crc: Payload -> Word)
    ensures ReadFrames(file, cursor, crc) == Ok([]) <==> Stops(file, cursor)
  {
  }

  lemma {:induction false} OnlyEmptyAddsNothing(committed: seq<Payload>, rest: Result<seq<Payload>>)
    ensures Following(committed, rest) == Ok(committed) <==> rest == Ok([])
  {
    if rest.Ok? {
      assert |committed + rest.value| == |committed| + |rest.value|;
      if rest.value == [] {
        assert committed + rest.value == committed;
      }
    }
  }

  // -- the same through the mapping -----------------------------------------------------------

  /** A write through the mapping leaves the reserved bytes as they are. It is read
      back alone exactly when they are zero and the next frame's byte allows it,
      and a file with other reserved bytes is refused. */
  lemma {:induction false} MappedLeftoverDecides(
    file: seq<Byte>, cursor: nat, committed: seq<Payload>, payload: Payload, crc: Payload -> Word)
    requires Laid(file, HEADER_SIZE, committed, cursor, crc) && cursor % 8 == 0
    requires Sized(payload) && cursor + FrameSize(payload) <= |file|
    ensures
      var read := ReadFrames(Replay(file, MappedStores(cursor, payload, crc) + [Put(cursor, COMMIT)]), HEADER_SIZE, crc);
      var next := cursor + FrameSize(payload);
      && (read == Ok(committed + [payload])
          <==> Reserved(file, cursor) && (next + RECORD_HEADER_SIZE > |file| || file[next] == 0))
      && (!Reserved(file, cursor) ==> read == Refused)
  {
    if Reserved(file, cursor) {
      MappedOverlay(file, cursor, payload, crc);
      Committed(file, MappedStores(cursor, payload, crc), cursor, file[cursor], payload, crc);
      LeftoverRead(file, cursor, committed, payload, Overlay(file, cursor, Frame(COMMIT, payload, crc)), crc);
    } else {
      var after := MappedAround(file, cursor, payload, crc);
      UnreservedIsRefused(file, after, cursor, committed, crc);
    }
  }

  /** What is around the parts a mapped write stores. */
  lemma {:induction false} MappedAround(file: seq<Byte>, cursor: nat, payload: Payload, crc: Payload -> Word) returns (after: seq<Byte>)
    requires cursor + FrameSize(payload) <= |file|
    ensures after == Replay(file, MappedStores(cursor, payload, crc) + [Put(cursor, COMMIT)])
    ensures |after| == |file| && after[cursor] == COMMIT
    ensures forall i | 0 <= i < cursor || cursor < i < cursor + 4 || cursor + 12 <= i < cursor + 16 :: after[i] == file[i]
  {
    var stores := MappedStores(cursor, payload, crc);
    var body, padded, whole := ThreePuts(file, stores, cursor + RECORD_HEADER_SIZE, payload,
      cursor + RECORD_HEADER_SIZE + |payload|, Padding(payload), cursor + 4, Fields(payload, crc));
    OverlayAt(file, cursor + RECORD_HEADER_SIZE, payload);
    OverlayAt(body, cursor + RECORD_HEADER_SIZE + |payload|, Padding(payload));
    OverlayAt(padded, cursor + 4, Fields(payload, crc));
    after := whole[cursor := COMMIT];
    ReplayConcat(file, stores, [Put(cursor, COMMIT)]);
    OneEvent(whole, Put(cursor, COMMIT));
  }

  lemma {:induction false} UnreservedIsRefused(file: seq<Byte>, after: seq<Byte>, cursor: nat, committed: seq<Payload>, crc: Payload -> Word)
    requires Laid(file, HEADER_SIZE, committed, cursor, crc) && cursor + RECORD_HEADER_SIZE <= |file|
    requires !Reserved(file, cursor)
    requires |after| == |file| && after[cursor] == COMMIT
    requires forall i | 0 <= i < cursor || cursor < i < cursor + 4 || cursor + 12 <= i < cursor + 16 :: after[i] == file[i]
    ensures ReadFrames(after, HEADER_SIZE, crc) == Refused
  {
    assert after[cursor + 1..cursor + 4] == file[cursor + 1..cursor + 4];
    assert after[cursor + 12..cursor + 16] == file[cursor + 12..cursor + 16];
    assert ReadFrame(after, cursor, crc) == Refused;
    LaidKept(file, after, HEADER_SIZE, committed, cursor, crc);
    LaidIsRead(after, HEADER_SIZE, committed, cursor, crc);
  }

  // -- what a refused write leaves -------------------------------------------------------------

  /** The file a refused write leaves, and that after the next record's stores. */
  function Left(file: seq<Byte>, w: Writer, long: Payload, n: nat, crc: Payload -> Word): seq<Byte> {
    var stores := FileStores(w.cursor, long, crc);
    Replay(file, if n <= |stores| then stores[..n] else stores)
  }

  /** `mapFails` is whether mapping the file would fail by then. */
  function Next(left: seq<Byte>, w: Writer, next: Payload, mapFails: bool, crc: Payload -> Word): seq<Byte>
    requires w.capacity > 0
  {
    Replay(left, Write(w, next, mapFails, crc).events)
  }

  /** Zeros behind the cursor, but for the first `n` bytes of a frame. */
  ghost predicate Leaves(left: seq<Byte>, cursor: nat, frame: seq<Byte>, n: nat) {
    && n <= |frame| && cursor + |frame| <= |left|
    && forall i | cursor <= i < |left| :: left[i] == if i < cursor + n then frame[i - cursor] else 0
  }

  lemma {:induction false} PartLaid(file: seq<Byte>, cursor: nat, frame: seq<Byte>, n: nat) returns (left: seq<Byte>)
    requires n <= |frame| && cursor + |frame| <= |file| && forall i | cursor <= i < |file| :: file[i] == 0
    ensures left == Replay(file, Puts(cursor, frame[..n])) && |left| == |file|
    ensures Leaves(left, cursor, frame, n) && forall i | 0 <= i < cursor :: left[i] == file[i]
  {
    PutsOverlay(file, cursor, frame[..n]);
    OverlayAt(file, cursor, frame[..n]);
    left := Overlay(file, cursor, frame[..n]);
  }

  /** A byte that is left where the frame of a shorter record ends. */
  predicate LeftAt(long: Payload, n: nat, size: nat) {
    RECORD_HEADER_SIZE <= size < n && size - RECORD_HEADER_SIZE < |long| && long[size - RECORD_HEADER_SIZE] != 0
  }

  /** What the first `n` stores of a longer record leave of a file at rest. */
  lemma {:induction false} LeftoverOf(
    file: seq<Byte>, w: Writer, committed: seq<Payload>, long: Payload, n: nat, size: nat, crc: Payload -> Word)
    returns (left: seq<Byte>)
    requires Ready(file, w, committed, crc) && n <= FrameSize(long) && w.cursor + FrameSize(long) <= w.capacity
    requires RECORD_HEADER_SIZE <= size
    ensures left == Left(file, w, long, n, crc) && |left| == |file|
    ensures Laid(left, HEADER_SIZE, committed, w.cursor, crc) && Reserved(left, w.cursor)
    ensures w.cursor + size < |left| ==>
      && (left[w.cursor + size] != 0 <==> LeftAt(long, n, size))
      && (LeftAt(long, n, size) ==> left[w.cursor + size] == long[size - RECORD_HEADER_SIZE])
  {
    var frame := UncommittedFrame(long, size, crc);
    LeftIs(file, w, long, frame, n, crc);
    left := PartLaid(file, w.cursor, frame, n);
    LaidKept(file, left, HEADER_SIZE, committed, w.cursor, crc);
    LeftBytes(left, w.cursor, frame, n, size, long);
  }

  lemma {:induction false} LeftIs(file: seq<Byte>, w: Writer, long: Payload, frame: seq<Byte>, n: nat, crc: Payload -> Word)
    requires frame == Frame(0, long, crc) && n <= |frame|
    ensures Left(file, w, long, n, crc) == Replay(file, Puts(w.cursor, frame[..n]))
  {
    PutsPrefix(w.cursor, frame, n);
  }

  lemma {:induction false} LeftBytes(left: seq<Byte>, cursor: nat, frame: seq<Byte>, n: nat, size: nat, long: Payload)
    requires Leaves(left, cursor, frame, n) && RECORD_HEADER_SIZE <= size && RECORD_HEADER_SIZE + |long| <= |frame|
    requires frame[1..4] == Zeros(3) && frame[12..16] == Zeros(4)
    requires size < |frame| ==>
      frame[size] == if size - RECORD_HEADER_SIZE < |long| then long[size - RECORD_HEADER_SIZE] else 0
    ensures Reserved(left, cursor)
    ensures cursor + size < |left| ==>
      && (left[cursor + size] != 0 <==> LeftAt(long, n, size))
      && (LeftAt(long, n, size) ==> left[cursor + size] == long[size - RECORD_HEADER_SIZE])
  {
    LeftReserved(left, cursor, frame, n);
  }

  lemma {:induction false} UncommittedFrame(long: Payload, size: nat, crc: Payload -> Word) returns (frame: seq<Byte>)
    requires RECORD_HEADER_SIZE <= size
    ensures frame == Frame(0, long, crc) && |frame| == FrameSize(long)
    ensures frame[1..4] == Zeros(3) && frame[12..16] == Zeros(4)
    ensures size < |frame| ==>
      frame[size] == if size - RECORD_HEADER_SIZE < |long| then long[size - RECORD_HEADER_SIZE] else 0
  {
    frame := Frame(0, long, crc);
    FrameParts([0, 0, 0, 0], Little(|long|, 4), Little(crc(long), 4), Zeros(4), long, Padding(long));
  }

  lemma {:induction false} LeftReserved(left: seq<Byte>, cursor: nat, frame: seq<Byte>, n: nat)
    requires Leaves(left, cursor, frame, n) && |frame| >= RECORD_HEADER_SIZE
    requires frame[1..4] == Zeros(3) && frame[12..16] == Zeros(4)
    ensures Reserved(left, cursor)
  {
    var first, last := left[cursor + 1..cursor + 4], left[cursor + 12..cursor + 16];
    forall i | 0 <= i < 3
      ensures first[i] == 0
    {
      assert frame[1..4][i] == frame[1 + i];
    }
    forall i | 0 <= i < 4
      ensures last[i] == 0
    {
      assert frame[12..16][i] == frame[12 + i];
    }
  }

  /** The record that is written next, be it through the mapping or where the file has
      to grow for it: it is read back after the committed ones exactly when no byte of
      the refused one is left where its own frame ends, or there is no room for a frame
      there. Where such a byte is left and is not a commit byte, as none of a JSON text
      is, the reader refuses the whole file. */
  lemma {:induction false} NextAfterRefused(
    file: seq<Byte>, w: Writer, committed: seq<Payload>, long: Payload, n: nat, next: Payload, mapFails: bool,
    crc: Payload -> Word)
    requires Ready(file, w, committed, crc) && n <= FrameSize(long) && w.cursor + FrameSize(long) <= w.capacity
    requires IsRecord(next) && Write(w, next, mapFails, crc).accepted
    ensures
      var after := Next(Left(file, w, long, n, crc), w, next, mapFails, crc);
      var size, read := FrameSize(next), ReadFrames(after, HEADER_SIZE, crc);
      var room := w.cursor + size + RECORD_HEADER_SIZE <= Write(w, next, mapFails, crc).writer.capacity;
      && (read == Ok(committed + [next]) <==> !room || !LeftAt(long, n, size))
      && (room && LeftAt(long, n, size) && long[size - RECORD_HEADER_SIZE] != COMMIT ==> read == Refused)
  {
    var left := LeftoverOf(file, w, committed, long, n, FrameSize(next), crc);
    var grown := LeftoverGrown(left, w, committed, next, mapFails, crc);
    var after := NextStored(left, grown, w, next, mapFails, crc);
    NextRead(grown, after, w.cursor, committed, next, crc);
  }

  /** Growing the file keeps what is behind the cursor, and adds zeros. */
  lemma {:induction false} LeftoverGrown(
    left: seq<Byte>, w: Writer, committed: seq<Payload>, next: Payload, mapFails: bool, crc: Payload -> Word)
    returns (grown: seq<Byte>)
    requires HEADER_SIZE <= w.cursor <= w.capacity == |left| && w.cursor + RECORD_HEADER_SIZE <= |left|
    requires Laid(left, HEADER_SIZE, committed, w.cursor, crc) && Reserved(left, w.cursor)
    requires Write(w, next, mapFails, crc).accepted
    ensures grown == Replay(left, Growth(w, next)) && |grown| == Write(w, next, mapFails, crc).writer.capacity
    ensures w.cursor + FrameSize(next) <= |grown|
    ensures Laid(grown, HEADER_SIZE, committed, w.cursor, crc) && Reserved(grown, w.cursor)
    ensures forall i | w.cursor <= i < |grown| :: grown[i] == if i < |left| then left[i] else 0
  {
    if Growth(w, next) == [] {
      grown := left;
    } else {
      var capacity := Grown(w.capacity, w.cursor + FrameSize(next));
      grown := GrownFile(left, capacity, Growth(w, next), w.cursor);
      LaidKept(left, grown, HEADER_SIZE, committed, w.cursor, crc);
      ReservedKept(left, grown, w.cursor);
    }
  }

  lemma {:induction false} GrownFile(left: seq<Byte>, capacity: nat, growth: seq<Event>, cursor: nat)
    returns (grown: seq<Byte>)
    requires HEADER_SIZE <= cursor <= |left| < capacity && growth == [Extend(capacity)] + Puts(16, Little(capacity, 8))
    ensures grown == Replay(left, growth) && |grown| == capacity
    ensures forall i | HEADER_SIZE <= i < capacity :: grown[i] == if i < |left| then left[i] else 0
  {
    PutsLength(16, Little(capacity, 8));
    grown := TornFile(left, capacity, growth, 8);
    assert growth[..9] == growth;
    OverlayAt(left + Zeros(capacity - |left|), 16, Little(capacity, 8)[..8]);
  }

  lemma {:induction false} ReservedKept(left: seq<Byte>, grown: seq<Byte>, cursor: nat)
    requires cursor + RECORD_HEADER_SIZE <= |left| <= |grown| && Reserved(left, cursor)
    requires forall i | cursor <= i < |left| :: grown[i] == left[i]
    ensures Reserved(grown, cursor)
  {
    assert grown[cursor + 1..cursor + 4] == left[cursor + 1..cursor + 4];
    assert grown[cursor + 12..cursor + 16] == left[cursor + 12..cursor + 16];
  }

  lemma {:induction false} NextStored(
    left: seq<Byte>, grown: seq<Byte>, w: Writer, next: Payload, mapFails: bool, crc: Payload -> Word)
    returns (after: seq<Byte>)
    requires w.capacity > 0 && Write(w, next, mapFails, crc).accepted && grown == Replay(left, Growth(w, next))
    requires w.cursor + FrameSize(next) <= |grown| && Reserved(grown, w.cursor)
    ensures after == Overlay(grown, w.cursor, Frame(COMMIT, next, crc))
    ensures after == Next(left, w, next, mapFails, crc)
  {
    var mapped := Write(w, next, mapFails, crc).writer.mapped;
    after := StoresOver(grown, w, next, mapped, crc);
    Associated(left, Growth(w, next), Stores(w, next, mapped, crc), [Put(w.cursor, COMMIT)]);
  }

  lemma {:induction false} NextRead(
    left: seq<Byte>, after: seq<Byte>, cursor: nat, committed: seq<Payload>, next: Payload, crc: Payload -> Word)
    requires Laid(left, HEADER_SIZE, committed, cursor, crc) && cursor % 8 == 0
    requires Sized(next) && cursor + FrameSize(next) <= |left|
    requires after == Overlay(left, cursor, Frame(COMMIT, next, crc))
    ensures
      var at, read := cursor + FrameSize(next), ReadFrames(after, HEADER_SIZE, crc);
      && (read == Ok(committed + [next]) <==> at + RECORD_HEADER_SIZE > |left| || left[at] == 0)
      && (at + RECORD_HEADER_SIZE <= |left| && left[at] != 0 && left[at] != COMMIT ==> read == Refused)
  {
    LeftoverRead(left, cursor, committed, next, after, crc);
    OverlayEnds(left, cursor, Frame(COMMIT, next, crc));
    RefusedThere(after, cursor + FrameSize(next), crc);
  }

  lemma {:induction false} StoresOver(left: seq<Byte>, w: Writer, next: Payload, mapped: bool, crc: Payload -> Word)
    returns (after: seq<Byte>)
    requires w.cursor + FrameSize(next) <= |left| && Reserved(left, w.cursor)
    ensures after == Overlay(left, w.cursor, Frame(COMMIT, next, crc))
    ensures after == Replay(left, Stores(w, next, mapped, crc) + [Put(w.cursor, COMMIT)])
  {
    after := Overlay(left, w.cursor, Frame(COMMIT, next, crc));
    if mapped {
      MappedOverlay(left, w.cursor, next, crc);
      Committed(left, MappedStores(w.cursor, next, crc), w.cursor, left[w.cursor], next, crc);
    } else {
      FileStoresCommit(left, w.cursor, next, crc);
    }
  }

  /** A byte that is neither zero nor a commit where a frame would start. */
  lemma {:induction false} RefusedThere(after: seq<Byte>, at: nat, crc: Payload -> Word)
    ensures at + RECORD_HEADER_SIZE <= |after| && after[at] != 0 && after[at] != COMMIT
      ==> ReadFrames(after, at, crc) == Refused
  {
  }

  /** The file of a process that wrote one record, and the writer then. */
  function FirstFile(pid: nat, first: Payload, crc: Payload -> Word): seq<Byte> {
    Replay(Fresh(pid), Write(Opened(false), first, false, crc).events)
  }

  function FirstWriter(first: Payload, crc: Payload -> Word): Writer {
    Write(Opened(false), first, false, crc).writer
  }

  /** After a process's first record: 57 of the 128 bytes of a frame with 112 bytes of
      text, and then a record of 40 bytes. The file is refused whole. */
  lemma {:induction false} LeftoverIsRefused(
    pid: nat, first: Payload, long: Payload, next: Payload, mapFails: bool, crc: Payload -> Word)
    requires 0 < pid < Pow256(8) && 0 < |first| <= 0x1000
    requires |long| == 112 && |next| == 40 && long[40] >= 0x20
    ensures FirstWriter(first, crc).capacity > 0
    ensures
      var w := FirstWriter(first, crc);
      var after := Next(Left(FirstFile(pid, first, crc), w, long, 57, crc), w, next, mapFails, crc);
      ReadFrames(after, HEADER_SIZE, crc) == Refused
  {
    FreshIsReady(pid, false, crc);
    WriteKeepsReady(Fresh(pid), Opened(false), [], first, false, crc);
    FirstFits(first, crc);
    var committed := Kept([], Write(Opened(false), first, false, crc), first);
    TextIsRefused(FirstFile(pid, first, crc), FirstWriter(first, crc), committed, long, next, mapFails, crc);
  }

  lemma {:induction false} FirstFits(first: Payload, crc: Payload -> Word)
    requires 0 < |first| <= 0x1000
    ensures FirstWriter(first, crc).cursor + 0x100 <= FirstWriter(first, crc).capacity
  {
  }

  lemma {:induction false} TextIsRefused(
    file: seq<Byte>, w: Writer, committed: seq<Payload>, long: Payload, next: Payload, mapFails: bool, crc: Payload -> Word)
    requires Ready(file, w, committed, crc) && w.cursor + 0x100 <= w.capacity
    requires |long| == 112 && |next| == 40 && long[40] >= 0x20
    ensures ReadFrames(Next(Left(file, w, long, 57, crc), w, next, mapFails, crc), HEADER_SIZE, crc) == Refused
  {
    assert FrameSize(long) == 128 && FrameSize(next) == 56;
    NextAfterRefused(file, w, committed, long, 57, next, mapFails, crc);
  }
}
