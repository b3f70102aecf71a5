/** The evidence transport: framed records whose commit byte is written last, in a
    file that grows by doubling, written by positioned writes or through a
    mapping. The reader is the one that joins the run's evidence. */
module Transport {

  type Byte = b: nat | b < 0x100
  type Word = w: nat | w < 0x1_0000_0000
  type Payload = seq<Byte>

  const HEADER_SIZE := 64
  const RECORD_HEADER_SIZE := 16
  const INITIAL_CAPACITY := 0x10_0000
  const MAP_AFTER_BYTES := 0x1_0000
  const MAX_CAPACITY := 0x2000_0000
  const MAX_RECORD_SIZE := 0x40_0000

  const COMMIT: Byte := 1

  // -- little-endian fields --------------------------------------------------------

  function Little(n: nat, width: nat): (field: seq<Byte>)
    ensures |field| == width
  {
    if width == 0 then [] else [n % 0x100] + Little(n / 0x100, width - 1)
  }

  function FromLittle(field: seq<Byte>): nat {
    if field == [] then 0 else field[0] + 0x100 * FromLittle(field[1..])
  }

  function Pow256(k: nat): (p: nat)
    ensures p > 0
  {
    if k == 0 then 1 else 0x100 * Pow256(k - 1)
  }

  lemma {:induction false} LittleRoundTrip(n: nat, width: nat)
    requires n < Pow256(width)
    ensures FromLittle(Little(n, width)) == n
  {
    if width > 0 {
      LittleRoundTrip(n / 0x100, width - 1);
    }
  }

  // -- frames ------------------------------------------------------------------------

  function Zeros(n: nat): (z: seq<Byte>)
    ensures |z| == n && forall i | 0 <= i < n :: z[i] == 0
  {
    seq(n, _ => 0)
  }

  function Align(n: nat): (aligned: nat)
    ensures aligned % 8 == 0 && n <= aligned < n + 8
  {
    (n + 7) / 8 * 8
  }

  /** Bytes a payload's frame takes; frames start at multiples of 8. */
  function FrameSize(payload: Payload): nat {
    Align(RECORD_HEADER_SIZE + |payload|)
  }

  /** The length and checksum fields. */
  function Fields(payload: Payload, crc: Payload -> Word): (fields: seq<Byte>)
    ensures |fields| == 8
  {
    Little(|payload|, 4) + Little(crc(payload), 4)
  }

  function Padding(payload: Payload): (padding: seq<Byte>)
    ensures RECORD_HEADER_SIZE + |payload| + |padding| == FrameSize(payload)
    ensures forall i | 0 <= i < |padding| :: padding[i] == 0
  {
    Zeros(FrameSize(payload) - RECORD_HEADER_SIZE - |payload|)
  }

  function Frame(commit: Byte, payload: Payload, crc: Payload -> Word): (frame: seq<Byte>)
    ensures |frame| == FrameSize(payload) == RECORD_HEADER_SIZE + |payload| + |Padding(payload)|
  {
    [commit, 0, 0, 0] + Fields(payload, crc) + Zeros(4) + payload + Padding(payload)
  }

  // -- the reader ----------------------------------------------------------------------

  datatype Result<+T> = Ok(value: T) | Refused

  predicate Stops(file: seq<Byte>, cursor: nat) {
    cursor + RECORD_HEADER_SIZE > |file| || file[cursor] == 0
  }

  /** One frame that is not uncommitted: its payload, or a refusal. */
  function ReadFrame(file: seq<Byte>, cursor: nat, crc: Payload -> Word): (read: Result<Payload>)
    requires !Stops(file, cursor)
    ensures read.Ok? ==> Align(cursor + RECORD_HEADER_SIZE + |read.value|) <= |file|
  {
    if file[cursor] != COMMIT || file[cursor + 1..cursor + 4] != Zeros(3)
       || file[cursor + 12..cursor + 16] != Zeros(4) then Refused
    else
      var length := FromLittle(file[cursor + 4..cursor + 8]);
      var end := cursor + RECORD_HEADER_SIZE + length;
      if length == 0 || length > MAX_RECORD_SIZE || Align(end) > |file| then Refused
      else
        var payload := file[cursor + RECORD_HEADER_SIZE..end];
        if file[end..Align(end)] != Zeros(Align(end) - end)
           || FromLittle(file[cursor + 8..cursor + 12]) != crc(payload) then Refused
        else Ok(payload)
  }

  /** `parse_transport`'s loop over the frames. */
  function ReadFrames(file: seq<Byte>, cursor: nat, crc: Payload -> Word): Result<seq<Payload>>
    decreases |file| - cursor
  {
    if Stops(file, cursor) then Ok([])
    else
      match ReadFrame(file, cursor, crc)
      case Refused => Refused
      case Ok(payload) => Before(payload, ReadFrames(file, Align(cursor + RECORD_HEADER_SIZE + |payload|), crc))
  }

  function Before(payload: Payload, rest: Result<seq<Payload>>): Result<seq<Payload>> {
    if rest.Ok? then Ok([payload] + rest.value) else Refused
  }

  const MAGIC: seq<Byte> := [0x53, 0x43, 0x56, 0x50, 0x59, 0x54, 0x48, 0x31] // SCVPYTH1
  const VERSION := 2

  /** The fixed part of the header: magic, version, header size, process id. */
  predicate Headed(file: seq<Byte>) {
    && |file| >= HEADER_SIZE
    && file[..8] == MAGIC && FromLittle(file[8..12]) == VERSION && FromLittle(file[12..16]) == HEADER_SIZE
    && FromLittle(file[32..40]) != 0
  }

  datatype Parsed = HeaderRefused | Dropped(count: nat) | FrameRefused | Records(payloads: seq<Payload>)

  /** `parse_transport`, up to what the payloads mean. */
  function Parse(file: seq<Byte>, crc: Payload -> Word): Parsed {
    if |file| < HEADER_SIZE || file[..8] != MAGIC || FromLittle(file[8..12]) != VERSION
       || FromLittle(file[12..16]) != HEADER_SIZE then HeaderRefused
    else
      var capacity, dropped := FromLittle(file[16..24]), FromLittle(file[24..32]);
      if capacity < HEADER_SIZE || capacity > |file| then HeaderRefused
      else if dropped != 0 then Dropped(dropped)
      else if FromLittle(file[32..40]) == 0 then HeaderRefused
      else
        match ReadFrames(file, HEADER_SIZE, crc)
        case Refused => FrameRefused
        case Ok(payloads) => Records(payloads)
  }

  // -- files that hold committed frames --------------------------------------------------

  /** A payload the reader can take: not empty, not over the bound. */
  predicate Sized(payload: Payload) {
    0 < |payload| <= MAX_RECORD_SIZE
  }

  /** From `at` to `cursor` the file holds the committed payloads' frames. */
  ghost predicate Laid(file: seq<Byte>, at: nat, committed: seq<Payload>, cursor: nat, crc: Payload -> Word)
    decreases |committed|
  {
    if committed == [] then at == cursor
    else
      && Sized(committed[0])
      && at % 8 == 0 && at + FrameSize(committed[0]) <= |file|
      && file[at..at + FrameSize(committed[0])] == Frame(COMMIT, committed[0], crc)
      && Laid(file, at + FrameSize(committed[0]), committed[1..], cursor, crc)
  }

  lemma {:induction false} LaidBounds(file: seq<Byte>, at: nat, committed: seq<Payload>, cursor: nat, crc: Payload -> Word)
    requires Laid(file, at, committed, cursor, crc)
    ensures at <= cursor && (at <= |file| ==> cursor <= |file|) && (at % 8 == 0 ==> cursor % 8 == 0)
    decreases |committed|
  {
    if committed != [] {
      LaidBounds(file, at + FrameSize(committed[0]), committed[1..], cursor, crc);
    }
  }

  lemma {:induction false} FrameFields(commit: Byte, payload: Payload, crc: Payload -> Word)
    requires |payload| <= MAX_RECORD_SIZE
    ensures var frame := Frame(commit, payload, crc);
      && frame[0] == commit && frame[1..4] == Zeros(3) && frame[12..16] == Zeros(4)
      && FromLittle(frame[4..8]) == |payload| && FromLittle(frame[8..12]) == crc(payload)
      && frame[16..16 + |payload|] == payload
      && frame[16 + |payload|..] == Padding(payload)
  {
    LengthAndChecksum(|payload|, crc(payload));
    FrameParts([commit, 0, 0, 0], Little(|payload|, 4), Little(crc(payload), 4), Zeros(4), payload, Padding(payload));
  }

  lemma {:induction false} LengthAndChecksum(length: nat, checksum: Word)
    requires length <= MAX_RECORD_SIZE
    ensures FromLittle(Little(length, 4)) == length && FromLittle(Little(checksum, 4)) == checksum
  {
    assert Pow256(4) == 0x1_0000_0000 by {
      assert Pow256(2) == 0x1_0000 && Pow256(3) == 0x100_0000;
    }
    LittleRoundTrip(length, 4);
    LittleRoundTrip(checksum, 4);
  }

  lemma {:induction false} FrameParts(a: seq<Byte>, b: seq<Byte>, c: seq<Byte>, d: seq<Byte>, e: seq<Byte>, f: seq<Byte>)
    requires |a| == |b| == |c| == |d| == 4
    ensures var frame := a + (b + c) + d + e + f;
      && frame[0] == a[0] && frame[1..4] == a[1..] && frame[4..8] == b && frame[8..12] == c && frame[12..16] == d
      && frame[16..16 + |e|] == e && frame[16 + |e|..] == f
  {
  }

  lemma {:induction false} SubSlice(file: seq<Byte>, at: nat, size: nat, a: nat, b: nat)
    requires a <= b <= size && at + size <= |file|
    ensures file[at + a..at + b] == file[at..at + size][a..b]
  {
    var part := file[at..at + size];
    forall i | 0 <= i < b - a
      ensures file[at + a..at + b][i] == part[a..b][i]
    {
      assert part[a + i] == file[at + a + i];
    }
  }

  lemma {:induction false} AlignShifts(at: nat, n: nat)
    requires at % 8 == 0
    ensures Align(at + n) == at + Align(n)
  {
  }

  /** The reader takes a frame back apart into its payload. */
  lemma {:induction false} FrameIsRead(file: seq<Byte>, at: nat, payload: Payload, crc: Payload -> Word)
    requires Sized(payload) && at % 8 == 0 && at + FrameSize(payload) <= |file|
    requires file[at..at + FrameSize(payload)] == Frame(COMMIT, payload, crc)
    ensures !Stops(file, at) && ReadFrame(file, at, crc) == Ok(payload)
  {
    var frame, size, end := Frame(COMMIT, payload, crc), FrameSize(payload), RECORD_HEADER_SIZE + |payload|;
    FrameFields(COMMIT, payload, crc);
    AlignShifts(at, end);
    assert file[at] == file[at..at + size][0];
    SubSlice(file, at, size, 1, 4);
    SubSlice(file, at, size, 4, 8);
    SubSlice(file, at, size, 8, 12);
    SubSlice(file, at, size, 12, 16);
    SubSlice(file, at, size, 16, end);
    SubSlice(file, at, size, end, size);
    assert frame[end..size] == frame[end..];
  }

  lemma {:induction false} FrameThenRest(file: seq<Byte>, at: nat, payload: Payload, crc: Payload -> Word)
    requires !Stops(file, at) && ReadFrame(file, at, crc) == Ok(payload) && at % 8 == 0
    ensures ReadFrames(file, at, crc) == Before(payload, ReadFrames(file, at + FrameSize(payload), crc))
  {
    AlignShifts(at, RECORD_HEADER_SIZE + |payload|);
  }

  /** Committed frames are read back in order, up to the first uncommitted one. */
  lemma {:induction false} LaidIsRead(file: seq<Byte>, at: nat, committed: seq<Payload>, cursor: nat, crc: Payload -> Word)
    requires Laid(file, at, committed, cursor, crc)
    ensures ReadFrames(file, at, crc) == Following(committed, ReadFrames(file, cursor, crc))
    decreases |committed|
  {
    if committed == [] {
      NoneFollowed(ReadFrames(file, cursor, crc));
    } else {
      LaidIsRead(file, at + FrameSize(committed[0]), committed[1..], cursor, crc);
      OneMoreIsRead(file, at, committed, ReadFrames(file, cursor, crc), crc);
    }
  }

  lemma {:induction false} OneMoreIsRead(file: seq<Byte>, at: nat, committed: seq<Payload>, rest: Result<seq<Payload>>, crc: Payload -> Word)
    requires committed != [] && Sized(committed[0]) && at % 8 == 0 && at + FrameSize(committed[0]) <= |file|
    requires file[at..at + FrameSize(committed[0])] == Frame(COMMIT, committed[0], crc)
    requires ReadFrames(file, at + FrameSize(committed[0]), crc) == Following(committed[1..], rest)
    ensures ReadFrames(file, at, crc) == Following(committed, rest)
  {
    var later := FirstIsRead(file, at, committed[0], crc);
    OneFollowed(committed, later, rest);
  }

  lemma {:induction false} FirstIsRead(file: seq<Byte>, at: nat, payload: Payload, crc: Payload -> Word)
    returns (later: Result<seq<Payload>>)
    requires Sized(payload) && at % 8 == 0 && at + FrameSize(payload) <= |file|
    requires file[at..at + FrameSize(payload)] == Frame(COMMIT, payload, crc)
    ensures later == ReadFrames(file, at + FrameSize(payload), crc)
    ensures ReadFrames(file, at, crc) == Before(payload, later)
  {
    FrameIsRead(file, at, payload, crc);
    FrameThenRest(file, at, payload, crc);
    later := ReadFrames(file, at + FrameSize(payload), crc);
  }

  function Following(committed: seq<Payload>, rest: Result<seq<Payload>>): Result<seq<Payload>> {
    if rest.Ok? then Ok(committed + rest.value) else Refused
  }

  lemma {:induction false} NoneFollowed(rest: Result<seq<Payload>>)
    ensures Following([], rest) == rest
  {
    if rest.Ok? {
      assert [] + rest.value == rest.value;
    }
  }

  lemma {:induction false} OneFollowed(committed: seq<Payload>, later: Result<seq<Payload>>, rest: Result<seq<Payload>>)
    requires committed != [] && later == Following(committed[1..], rest)
    ensures Before(committed[0], later) == Following(committed, rest)
  {
    if rest.Ok? {
      assert [committed[0]] + (committed[1..] + rest.value) == committed + rest.value;
    }
  }

  // -- stores -------------------------------------------------------------------------------

  /** One byte stored, or the file resized; a killed process leaves a prefix. */
  datatype Event = Put(offset: nat, byte: Byte) | Extend(capacity: nat)

  function ApplyEvent(file: seq<Byte>, event: Event): seq<Byte> {
    match event
    case Put(offset, byte) => if offset < |file| then file[offset := byte] else file
    case Extend(capacity) => if capacity > |file| then file + Zeros(capacity - |file|) else file
  }

  function Replay(file: seq<Byte>, events: seq<Event>): seq<Byte>
    decreases |events|
  {
    if events == [] then file else Replay(ApplyEvent(file, events[0]), events[1..])
  }

  function Puts(offset: nat, bytes: seq<Byte>): seq<Event>
    decreases |bytes|
  {
    if bytes == [] then [] else [Put(offset, bytes[0])] + Puts(offset + 1, bytes[1..])
  }

  function Overlay(file: seq<Byte>, offset: nat, bytes: seq<Byte>): (laid: seq<Byte>)
    requires offset + |bytes| <= |file|
    ensures |laid| == |file|
  {
    file[..offset] + bytes + file[offset + |bytes|..]
  }

  lemma {:induction false} ReplayConcat(file: seq<Byte>, first: seq<Event>, second: seq<Event>)
    ensures Replay(file, first + second) == Replay(Replay(file, first), second)
    decreases |first|
  {
    if first == [] {
      assert first + second == second;
    } else {
      assert (first + second)[1..] == first[1..] + second;
      ReplayConcat(ApplyEvent(file, first[0]), first[1..], second);
    }
  }

  lemma {:induction false} PutsOverlay(file: seq<Byte>, offset: nat, bytes: seq<Byte>)
    requires offset + |bytes| <= |file|
    ensures Replay(file, Puts(offset, bytes)) == Overlay(file, offset, bytes)
    decreases |bytes|
  {
    if bytes == [] {
      OverlayNothing(file, offset);
    } else {
      OverlayFirst(file, offset, bytes);
      PutsOverlay(file[offset := bytes[0]], offset + 1, bytes[1..]);
      assert Puts(offset, bytes)[1..] == Puts(offset + 1, bytes[1..]);
    }
  }

  lemma {:induction false} OverlayNothing(file: seq<Byte>, offset: nat)
    requires offset <= |file|
    ensures Overlay(file, offset, []) == file
  {
  }

  lemma {:induction false} OverlayFirst(file: seq<Byte>, offset: nat, bytes: seq<Byte>)
    requires bytes != [] && offset + |bytes| <= |file|
    ensures Overlay(file[offset := bytes[0]], offset + 1, bytes[1..]) == Overlay(file, offset, bytes)
  {
  }

  // -- stores that leave the committed frames alone -----------------------------------------------

  /** A store to the header's capacity or dropped count, behind the cursor's
      commit byte, or a zero onto it; or a resize. */
  predicate Quiet(event: Event, cursor: nat) {
    match event
    case Put(offset, byte) => 16 <= offset < 32 || offset > cursor || (offset == cursor && byte == 0)
    case Extend(_) => true
  }

  ghost predicate Undisturbed(before: seq<Byte>, after: seq<Byte>, cursor: nat) {
    && |before| <= |after|
    && (forall i | HEADER_SIZE <= i < cursor && i < |before| :: after[i] == before[i])
    && (cursor < |after| ==> after[cursor] == 0)
  }

  ghost predicate AllQuiet(events: seq<Event>, cursor: nat) {
    forall k | 0 <= k < |events| :: Quiet(events[k], cursor)
  }

  lemma {:induction false} QuietStores(file: seq<Byte>, events: seq<Event>, cursor: nat)
    requires HEADER_SIZE <= cursor <= |file| && (cursor < |file| ==> file[cursor] == 0) && AllQuiet(events, cursor)
    ensures Undisturbed(file, Replay(file, events), cursor)
    decreases |events|
  {
    if events != [] {
      var next := ApplyEvent(file, events[0]);
      assert Quiet(events[0], cursor);
      assert forall k | 0 <= k < |events[1..]| :: Quiet(events[1..][k], cursor) by {
        assert forall k | 0 <= k < |events[1..]| :: events[1..][k] == events[k + 1];
      }
      assert Undisturbed(file, next, cursor);
      QuietStores(next, events[1..], cursor);
    }
  }

  lemma {:induction false} PutsAreQuiet(offset: nat, bytes: seq<Byte>, cursor: nat)
    requires offset > cursor || (16 <= offset && offset + |bytes| <= 32) || (offset == cursor && (bytes == [] || bytes[0] == 0))
    ensures AllQuiet(Puts(offset, bytes), cursor)
    decreases |bytes|
  {
    if bytes != [] {
      PutsAreQuiet(offset + 1, bytes[1..], cursor);
    }
  }

  lemma {:induction false} LaidKept(
    before: seq<Byte>, after: seq<Byte>, at: nat, committed: seq<Payload>, cursor: nat, crc: Payload -> Word)
    requires Laid(before, at, committed, cursor, crc) && HEADER_SIZE <= at
    requires |before| <= |after| && forall i | HEADER_SIZE <= i < cursor && i < |before| :: after[i] == before[i]
    ensures Laid(after, at, committed, cursor, crc)
    decreases |committed|
  {
    if committed != [] {
      var next := at + FrameSize(committed[0]);
      LaidBounds(before, next, committed[1..], cursor, crc);
      assert before[at..next] == after[at..next];
      LaidKept(before, after, next, committed[1..], cursor, crc);
    }
  }

  /** After quiet stores the reader still finds the committed payloads. */
  lemma {:induction false} QuietIsInvisible(file: seq<Byte>, events: seq<Event>, committed: seq<Payload>, cursor: nat, crc: Payload -> Word)
    requires Laid(file, HEADER_SIZE, committed, cursor, crc) && cursor <= |file|
    requires (cursor < |file| ==> file[cursor] == 0) && AllQuiet(events, cursor)
    ensures ReadFrames(Replay(file, events), HEADER_SIZE, crc) == Ok(committed)
  {
    LaidBounds(file, HEADER_SIZE, committed, cursor, crc);
    QuietStores(file, events, cursor);
    var after := Replay(file, events);
    LaidKept(file, after, HEADER_SIZE, committed, cursor, crc);
    LaidIsRead(after, HEADER_SIZE, committed, cursor, crc);
    assert committed + [] == committed;
  }

  // -- the writer ------------------------------------------------------------------------------

  /** `mapped` is which back end `output` is; `mapFailed` that mapping was given up. */
  datatype Writer = Writer(capacity: nat, cursor: nat, dropped: nat, mapped: bool, mapFailed: bool)

  /** What a write stores, the writer after it, and whether the record was taken. */
  datatype Written = Written(events: seq<Event>, writer: Writer, accepted: bool)

  function Grown(capacity: nat, required: nat): (grown: nat)
    requires capacity > 0
    ensures grown >= capacity
    ensures grown < required ==> grown >= MAX_CAPACITY
    ensures capacity <= MAX_CAPACITY ==> grown <= MAX_CAPACITY
    decreases MAX_CAPACITY - capacity
  {
    if capacity < required && capacity < MAX_CAPACITY then
      Grown(if capacity * 2 < MAX_CAPACITY then capacity * 2 else MAX_CAPACITY, required)
    else capacity
  }

  function Drop(w: Writer): Written {
    Written(Puts(24, Little(w.dropped + 1, 8)), w.(dropped := w.dropped + 1), false)
  }

  /** A positioned write of the whole frame, uncommitted, then the commit byte. */
  function FileStores(cursor: nat, payload: Payload, crc: Payload -> Word): seq<Event>
  {
    Puts(cursor, Frame(0, payload, crc))
  }

  /** Through the mapping: the payload, its padding, the length and checksum. */
  function MappedStores(cursor: nat, payload: Payload, crc: Payload -> Word): seq<Event>
  {
    Puts(cursor + RECORD_HEADER_SIZE, payload)
    + Puts(cursor + RECORD_HEADER_SIZE + |payload|, Padding(payload))
    + Puts(cursor + 4, Fields(payload, crc))
  }

  /** The stores that make room for a payload, if it needs room. */
  function Growth(w: Writer, payload: Payload): seq<Event>
    requires w.capacity > 0
  {
    var next := w.cursor + FrameSize(payload);
    if next <= w.capacity then []
    else [Extend(Grown(w.capacity, next))] + Puts(16, Little(Grown(w.capacity, next), 8))
  }

  function Stores(w: Writer, payload: Payload, mapped: bool, crc: Payload -> Word): seq<Event> {
    if mapped then MappedStores(w.cursor, payload, crc) else FileStores(w.cursor, payload, crc)
  }

  /** `_write_payload`; `mapFails` is whether mapping the file would fail now. */
  function Write(w: Writer, payload: Payload, mapFails: bool, crc: Payload -> Word): Written
    requires w.capacity > 0
  {
    var next := w.cursor + FrameSize(payload);
    var grows := next > w.capacity;
    var capacity := if grows then Grown(w.capacity, next) else w.capacity;
    if |payload| > MAX_RECORD_SIZE || capacity < next then Drop(w)
    else
      var gaveUp := w.mapFailed && !grows;
      var tries := !w.mapped && !gaveUp && next > MAP_AFTER_BYTES;
      var mapped := w.mapped || (tries && !mapFails);
      Written(Growth(w, payload) + Stores(w, payload, mapped, crc) + [Put(w.cursor, COMMIT)],
        Writer(capacity, next, w.dropped, mapped, gaveUp || (tries && mapFails)), true)
  }

  /** Between writes: frames up to the cursor, nothing but zeros after it, and the
      header's capacity and dropped count up to date. */
  ghost predicate Ready(file: seq<Byte>, w: Writer, committed: seq<Payload>, crc: Payload -> Word) {
    && Declared(file, w)
    && Laid(file, HEADER_SIZE, committed, w.cursor, crc)
    && (forall i | w.cursor <= i < |file| :: file[i] == 0)
  }

  predicate Declared(file: seq<Byte>, w: Writer) {
    && Headed(file) && HEADER_SIZE <= w.cursor <= w.capacity == |file| <= MAX_CAPACITY && w.cursor % 8 == 0
    && file[16..24] == Little(w.capacity, 8) && file[24..32] == Little(w.dropped, 8)
  }

  // -- what one write does ---------------------------------------------------------------------

  lemma {:induction false} OverlayAt(file: seq<Byte>, offset: nat, bytes: seq<Byte>)
    requires offset + |bytes| <= |file|
    ensures forall i | 0 <= i < |file| ::
      Overlay(file, offset, bytes)[i] == if offset <= i < offset + |bytes| then bytes[i - offset] else file[i]
  {
  }

  /** What a mapped write leaves as it is: the reserved bytes of the next frame. */
  predicate Reserved(file: seq<Byte>, cursor: nat)
    requires cursor + RECORD_HEADER_SIZE <= |file|
  {
    file[cursor + 1..cursor + 4] == Zeros(3) && file[cursor + 12..cursor + 16] == Zeros(4)
  }

  /** Payload, padding and fields laid around what a frame begins with, and its
      reserved bytes, are the frame. */
  lemma {:induction false} PiecesLaid(
    file: seq<Byte>, body: seq<Byte>, padded: seq<Byte>, whole: seq<Byte>, cursor: nat, frame: seq<Byte>,
    fields: seq<Byte>, payload: seq<Byte>, padding: seq<Byte>)
    requires |fields| == 8 && |frame| == 16 + |payload| + |padding| && cursor + |frame| <= |file|
    requires body == Overlay(file, cursor + 16, payload)
    requires padded == Overlay(body, cursor + 16 + |payload|, padding)
    requires whole == Overlay(padded, cursor + 4, fields)
    requires forall i | 0 <= i < 4 || 12 <= i < 16 :: file[cursor + i] == frame[i]
    requires frame[4..12] == fields && frame[16..16 + |payload|] == payload && frame[16 + |payload|..] == padding
    ensures whole == Overlay(file, cursor, frame)
  {
    OverlayAt(file, cursor + 16, payload);
    OverlayAt(body, cursor + 16 + |payload|, padding);
    OverlayAt(padded, cursor + 4, fields);
    OverlayAt(file, cursor, frame);
    FrameAt(frame, fields, payload, padding);
  }

  lemma {:induction false} FrameAt(frame: seq<Byte>, fields: seq<Byte>, payload: seq<Byte>, padding: seq<Byte>)
    requires |fields| == 8 && |frame| == 16 + |payload| + |padding|
    requires frame[4..12] == fields && frame[16..16 + |payload|] == payload && frame[16 + |payload|..] == padding
    ensures forall i | 0 <= i < |frame| ::
      (4 <= i < 12 ==> frame[i] == fields[i - 4])
      && (16 <= i < 16 + |payload| ==> frame[i] == payload[i - 16])
      && (16 + |payload| <= i ==> frame[i] == padding[i - 16 - |payload|])
  {
    forall i | 0 <= i < |frame|
      ensures 4 <= i < 12 ==> frame[i] == fields[i - 4]
      ensures 16 <= i < 16 + |payload| ==> frame[i] == payload[i - 16]
      ensures 16 + |payload| <= i ==> frame[i] == padding[i - 16 - |payload|]
    {
    }
  }

  lemma {:induction false} PiecesAreFrame(
    file: seq<Byte>, body: seq<Byte>, padded: seq<Byte>, whole: seq<Byte>, cursor: nat, payload: Payload,
    crc: Payload -> Word)
    requires cursor + FrameSize(payload) <= |file| && Reserved(file, cursor)
    requires body == Overlay(file, cursor + 16, payload)
    requires padded == Overlay(body, cursor + 16 + |payload|, Padding(payload))
    requires whole == Overlay(padded, cursor + 4, Fields(payload, crc))
    ensures whole == Overlay(file, cursor, Frame(file[cursor], payload, crc))
  {
    var frame := Frame(file[cursor], payload, crc);
    FrameParts([file[cursor], 0, 0, 0], Little(|payload|, 4), Little(crc(payload), 4), Zeros(4), payload, Padding(payload));
    assert frame[4..12] == frame[4..8] + frame[8..12];
    ReservedAt(file, cursor, frame);
    PiecesLaid(file, body, padded, whole, cursor, frame, Fields(payload, crc), payload, Padding(payload));
  }

  lemma {:induction false} ReservedAt(file: seq<Byte>, cursor: nat, frame: seq<Byte>)
    requires cursor + 16 <= |file| && |frame| >= 16 && Reserved(file, cursor)
    requires frame[0] == file[cursor] && frame[1..4] == Zeros(3) && frame[12..16] == Zeros(4)
    ensures forall i | 0 <= i < 4 || 12 <= i < 16 :: file[cursor + i] == frame[i]
  {
    forall i | 0 <= i < 4 || 12 <= i < 16
      ensures file[cursor + i] == frame[i]
    {
      if 0 < i < 4 {
        assert file[cursor + 1..cursor + 4][i - 1] == frame[1..4][i - 1];
      } else if 12 <= i {
        assert file[cursor + 12..cursor + 16][i - 12] == frame[12..16][i - 12];
      }
    }
  }

  lemma {:induction false} MappedOverlay(file: seq<Byte>, cursor: nat, payload: Payload, crc: Payload -> Word)
    requires cursor + FrameSize(payload) <= |file| && Reserved(file, cursor)
    ensures Replay(file, MappedStores(cursor, payload, crc)) == Overlay(file, cursor, Frame(file[cursor], payload, crc))
  {
    var body, padded, whole := ThreePuts(file, MappedStores(cursor, payload, crc), cursor + RECORD_HEADER_SIZE, payload,
      cursor + RECORD_HEADER_SIZE + |payload|, Padding(payload), cursor + 4, Fields(payload, crc));
    PiecesAreFrame(file, body, padded, whole, cursor, payload, crc);
  }

  lemma {:induction false} ThreePuts(file: seq<Byte>, events: seq<Event>, o1: nat, b1: seq<Byte>, o2: nat, b2: seq<Byte>, o3: nat, b3: seq<Byte>)
    returns (first: seq<Byte>, second: seq<Byte>, third: seq<Byte>)
    requires o1 + |b1| <= |file| && o2 + |b2| <= |file| && o3 + |b3| <= |file|
    requires events == Puts(o1, b1) + Puts(o2, b2) + Puts(o3, b3)
    ensures first == Overlay(file, o1, b1) && second == Overlay(first, o2, b2) && third == Overlay(second, o3, b3)
    ensures Replay(file, events) == third
  {
    first := Overlay(file, o1, b1);
    second := Overlay(first, o2, b2);
    third := Overlay(second, o3, b3);
    ReplayConcat(file, Puts(o1, b1) + Puts(o2, b2), Puts(o3, b3));
    ReplayConcat(file, Puts(o1, b1), Puts(o2, b2));
    PutsOverlay(file, o1, b1);
    PutsOverlay(first, o2, b2);
    PutsOverlay(second, o3, b3);
  }

  /** The two back ends leave identical bytes. */
  lemma {:induction false} BackEndsAgree(file: seq<Byte>, cursor: nat, payload: Payload, crc: Payload -> Word)
    requires cursor + FrameSize(payload) <= |file|
    requires forall i | cursor <= i < |file| :: file[i] == 0
    ensures Replay(file, FileStores(cursor, payload, crc)) == Replay(file, MappedStores(cursor, payload, crc))
    ensures Replay(file, FileStores(cursor, payload, crc)) == Overlay(file, cursor, Frame(0, payload, crc))
  {
    assert Reserved(file, cursor) && file[cursor] == 0;
    MappedOverlay(file, cursor, payload, crc);
    PutsOverlay(file, cursor, Frame(0, payload, crc));
  }

  lemma {:induction false} BothQuiet(first: seq<Event>, second: seq<Event>, cursor: nat)
    requires AllQuiet(first, cursor) && AllQuiet(second, cursor)
    ensures AllQuiet(first + second, cursor)
  {
  }

  lemma {:induction false} StoresAreQuiet(cursor: nat, payload: Payload, mapped: bool, crc: Payload -> Word)
    ensures AllQuiet(if mapped then MappedStores(cursor, payload, crc) else FileStores(cursor, payload, crc), cursor)
  {
    if mapped {
      var body, after := cursor + RECORD_HEADER_SIZE, cursor + RECORD_HEADER_SIZE + |payload|;
      PutsAreQuiet(body, payload, cursor);
      PutsAreQuiet(after, Padding(payload), cursor);
      PutsAreQuiet(cursor + 4, Fields(payload, crc), cursor);
      BothQuiet(Puts(body, payload), Puts(after, Padding(payload)), cursor);
      BothQuiet(Puts(body, payload) + Puts(after, Padding(payload)), Puts(cursor + 4, Fields(payload, crc)), cursor);
    } else {
      PutsAreQuiet(cursor, Frame(0, payload, crc), cursor);
    }
  }

  /** Growing resizes the file with zeros and then updates the header. */
  lemma {:induction false} GrowthReady(file: seq<Byte>, w: Writer, committed: seq<Payload>, capacity: nat, crc: Payload -> Word)
    requires Ready(file, w, committed, crc) && w.capacity <= capacity <= MAX_CAPACITY
    ensures var events := [Extend(capacity)] + Puts(16, Little(capacity, 8));
      Ready(Replay(file, events), w.(capacity := capacity), committed, crc) && AllQuiet(events, w.cursor)
  {
    var field := Little(capacity, 8);
    var extended := ApplyEvent(file, Extend(capacity));
    ReplayConcat(file, [Extend(capacity)], Puts(16, field));
    assert Replay(file, [Extend(capacity)]) == Replay(extended, []);
    PutsOverlay(extended, 16, field);
    PutsAreQuiet(16, field, w.cursor);
    LaidKept(file, extended, HEADER_SIZE, committed, w.cursor, crc);
    HeadKept(file, extended);
    assert extended[24..32] == file[24..32];
    FieldReady(extended, w, committed, capacity, crc);
  }

  lemma {:induction false} FieldReady(extended: seq<Byte>, w: Writer, committed: seq<Payload>, capacity: nat, crc: Payload -> Word)
    requires HEADER_SIZE <= w.cursor <= capacity == |extended| <= MAX_CAPACITY && w.cursor % 8 == 0
    requires Laid(extended, HEADER_SIZE, committed, w.cursor, crc)
    requires forall i | w.cursor <= i < |extended| :: extended[i] == 0
    requires Headed(extended) && extended[24..32] == Little(w.dropped, 8)
    ensures Ready(Overlay(extended, 16, Little(capacity, 8)), w.(capacity := capacity), committed, crc)
  {
    var field := Little(capacity, 8);
    var grown := Overlay(extended, 16, field);
    OverlayAt(extended, 16, field);
    LaidKept(extended, grown, HEADER_SIZE, committed, w.cursor, crc);
    HeadKept(extended, grown);
    assert grown[16..24] == field;
    assert grown[24..32] == extended[24..32];
  }

  lemma {:induction false} LaidAppended(
    file: seq<Byte>, at: nat, committed: seq<Payload>, cursor: nat, payload: Payload, crc: Payload -> Word)
    requires Laid(file, at, committed, cursor, crc) && Laid(file, cursor, [payload], cursor + FrameSize(payload), crc)
    ensures Laid(file, at, committed + [payload], cursor + FrameSize(payload), crc)
    decreases |committed|
  {
    if committed == [] {
      assert committed + [payload] == [payload];
    } else {
      assert (committed + [payload])[1..] == committed[1..] + [payload];
      LaidAppended(file, at + FrameSize(committed[0]), committed[1..], cursor, payload, crc);
    }
  }

  lemma {:induction false} OverlayIsLaid(file: seq<Byte>, cursor: nat, payload: Payload, crc: Payload -> Word)
    requires Sized(payload) && cursor % 8 == 0 && cursor + FrameSize(payload) <= |file|
    ensures Laid(Overlay(file, cursor, Frame(COMMIT, payload, crc)), cursor, [payload], cursor + FrameSize(payload), crc)
  {
    var frame := Frame(COMMIT, payload, crc);
    assert Overlay(file, cursor, frame)[cursor..cursor + |frame|] == frame;
    assert [payload][1..] == [];
  }

  lemma {:induction false} CommitReady(file: seq<Byte>, w: Writer, committed: seq<Payload>, payload: Payload, crc: Payload -> Word)
    requires Ready(file, w, committed, crc) && Sized(payload) && w.cursor + FrameSize(payload) <= w.capacity
    ensures Ready(Overlay(file, w.cursor, Frame(COMMIT, payload, crc)),
      w.(cursor := w.cursor + FrameSize(payload)), committed + [payload], crc)
  {
    OneMoreLaid(file, w.cursor, committed, payload, crc);
    OverlayReady(file, w, committed, committed + [payload], Frame(COMMIT, payload, crc), crc);
  }

  lemma {:induction false} OneMoreLaid(file: seq<Byte>, cursor: nat, committed: seq<Payload>, payload: Payload, crc: Payload -> Word)
    requires Laid(file, HEADER_SIZE, committed, cursor, crc) && cursor % 8 == 0
    requires Sized(payload) && cursor + FrameSize(payload) <= |file|
    ensures Laid(Overlay(file, cursor, Frame(COMMIT, payload, crc)), HEADER_SIZE, committed + [payload],
      cursor + FrameSize(payload), crc)
  {
    var after := Overlay(file, cursor, Frame(COMMIT, payload, crc));
    OverlayEnds(file, cursor, Frame(COMMIT, payload, crc));
    LaidKept(file, after, HEADER_SIZE, committed, cursor, crc);
    OverlayIsLaid(file, cursor, payload, crc);
    LaidAppended(after, HEADER_SIZE, committed, cursor, payload, crc);
  }

  lemma {:induction false} OverlayEnds(file: seq<Byte>, offset: nat, bytes: seq<Byte>)
    requires offset + |bytes| <= |file|
    ensures forall i | 0 <= i < offset :: Overlay(file, offset, bytes)[i] == file[i]
    ensures forall i | offset + |bytes| <= i < |file| :: Overlay(file, offset, bytes)[i] == file[i]
  {
  }

  lemma {:induction false} OverlayReady(
    file: seq<Byte>, w: Writer, committed: seq<Payload>, all: seq<Payload>, frame: seq<Byte>, crc: Payload -> Word)
    requires Ready(file, w, committed, crc) && w.cursor + |frame| <= w.capacity && |frame| % 8 == 0
    requires Laid(Overlay(file, w.cursor, frame), HEADER_SIZE, all, w.cursor + |frame|, crc)
    ensures Ready(Overlay(file, w.cursor, frame), w.(cursor := w.cursor + |frame|), all, crc)
  {
    OverlayEnds(file, w.cursor, frame);
    StillDeclared(file, Overlay(file, w.cursor, frame), w, |frame|);
  }

  lemma {:induction false} StillDeclared(file: seq<Byte>, after: seq<Byte>, w: Writer, size: nat)
    requires Declared(file, w) && w.cursor + size <= w.capacity && size % 8 == 0
    requires |after| == |file| && forall i | 0 <= i < w.cursor :: after[i] == file[i]
    ensures Declared(after, w.(cursor := w.cursor + size))
  {
    HeaderKept(file, after, w.cursor);
  }

  lemma {:induction false} HeaderKept(before: seq<Byte>, after: seq<Byte>, cursor: nat)
    requires HEADER_SIZE <= cursor <= |before| == |after| && forall i | 0 <= i < cursor :: after[i] == before[i]
    ensures after[16..24] == before[16..24] && after[24..32] == before[24..32]
    ensures Headed(before) ==> Headed(after)
  {
    if Headed(before) {
      HeadKept(before, after);
    }
  }

  lemma {:induction false} HeadKept(before: seq<Byte>, after: seq<Byte>)
    requires Headed(before) && |after| >= |before|
    requires forall i | 0 <= i < 16 || 32 <= i < HEADER_SIZE :: after[i] == before[i]
    ensures Headed(after)
  {
    assert after[..8] == before[..8] && after[8..12] == before[8..12];
    assert after[12..16] == before[12..16] && after[32..40] == before[32..40];
  }

  lemma {:induction false} SetFirst(file: seq<Byte>, cursor: nat, frame: seq<Byte>, byte: Byte)
    requires frame != [] && cursor + |frame| <= |file|
    ensures Overlay(file, cursor, frame)[cursor := byte] == Overlay(file, cursor, frame[0 := byte])
  {
    OverlayAt(file, cursor, frame);
    OverlayAt(file, cursor, frame[0 := byte]);
  }

  lemma {:induction false} CommittedFrame(payload: Payload, crc: Payload -> Word)
    ensures Frame(0, payload, crc)[0 := COMMIT] == Frame(COMMIT, payload, crc)
  {
  }

  lemma {:induction false} StoresCommit(file: seq<Byte>, cursor: nat, payload: Payload, stores: seq<Event>, crc: Payload -> Word)
    requires cursor + FrameSize(payload) <= |file| && forall i | cursor <= i < |file| :: file[i] == 0
    requires stores == MappedStores(cursor, payload, crc) || stores == FileStores(cursor, payload, crc)
    ensures Replay(file, stores + [Put(cursor, COMMIT)]) == Overlay(file, cursor, Frame(COMMIT, payload, crc))
  {
    BackEndsAgree(file, cursor, payload, crc);
    ReplayConcat(file, stores, [Put(cursor, COMMIT)]);
    OneEvent(Overlay(file, cursor, Frame(0, payload, crc)), Put(cursor, COMMIT));
    SetFirst(file, cursor, Frame(0, payload, crc), COMMIT);
    CommittedFrame(payload, crc);
  }

  lemma {:induction false} OneEvent(file: seq<Byte>, event: Event)
    ensures Replay(file, [event]) == ApplyEvent(file, event)
  {
    assert [event][1..] == [];
    assert Replay(ApplyEvent(file, event), []) == ApplyEvent(file, event);
  }

  lemma {:induction false} DropReady(file: seq<Byte>, w: Writer, committed: seq<Payload>, crc: Payload -> Word)
    requires Ready(file, w, committed, crc)
    ensures var written := Drop(w);
      && Ready(Replay(file, written.events), written.writer, committed, crc)
      && AllQuiet(written.events, w.cursor)
  {
    var field := Little(w.dropped + 1, 8);
    PutsOverlay(file, 24, field);
    PutsAreQuiet(24, field, w.cursor);
    var after := CountDeclared(file, w);
    LaidKept(file, after, HEADER_SIZE, committed, w.cursor, crc);
  }

  lemma {:induction false} CountDeclared(file: seq<Byte>, w: Writer) returns (after: seq<Byte>)
    requires Declared(file, w)
    ensures after == Overlay(file, 24, Little(w.dropped + 1, 8)) && Declared(after, w.(dropped := w.dropped + 1))
    ensures forall i | HEADER_SIZE <= i < |file| :: after[i] == file[i]
  {
    var field := Little(w.dropped + 1, 8);
    after := Overlay(file, 24, field);
    OverlayAt(file, 24, field);
    HeadKept(file, after);
    assert after[16..24] == file[16..24] && after[24..32] == field;
  }

  function Kept(committed: seq<Payload>, written: Written, payload: Payload): seq<Payload> {
    if written.accepted then committed + [payload] else committed
  }

  /** A payload a record can be: JSON, so never empty. */
  predicate IsRecord(payload: Payload) {
    payload != []
  }

  /** Ready stays ready, with the record kept or counted as dropped, and all but
      the last store of a kept record are quiet. */
  lemma {:induction false} WriteKeepsReady(
    file: seq<Byte>, w: Writer, committed: seq<Payload>, payload: Payload, mapFails: bool, crc: Payload -> Word)
    requires Ready(file, w, committed, crc) && IsRecord(payload)
    ensures var written := Write(w, payload, mapFails, crc);
      && Ready(Replay(file, written.events), written.writer, Kept(committed, written, payload), crc)
      && written.writer.dropped == w.dropped + (if written.accepted then 0 else 1)
      && written.events != []
      && AllQuiet(if written.accepted then written.events[..|written.events| - 1] else written.events, w.cursor)
  {
    var written := Write(w, payload, mapFails, crc);
    if !written.accepted {
      DropReady(file, w, committed, crc);
    } else {
      var capacity, growth, stores := written.writer.capacity, Growth(w, payload), Stores(w, payload, written.writer.mapped, crc);
      if w.cursor + FrameSize(payload) > w.capacity {
        GrowthReady(file, w, committed, capacity, crc);
      }
      StoresAreQuiet(w.cursor, payload, written.writer.mapped, crc);
      AcceptedReady(file, w, committed, payload, growth, stores, written.writer, crc);
      QuietUntilCommit(growth, stores, w.cursor);
    }
  }

  lemma {:induction false} QuietUntilCommit(growth: seq<Event>, stores: seq<Event>, cursor: nat)
    requires AllQuiet(growth, cursor) && AllQuiet(stores, cursor)
    ensures var events := growth + stores + [Put(cursor, COMMIT)];
      AllQuiet(events[..|events| - 1], cursor)
  {
    assert (growth + stores + [Put(cursor, COMMIT)])[..|growth + stores|] == growth + stores;
  }

  lemma {:induction false} AcceptedReady(
    file: seq<Byte>, w: Writer, committed: seq<Payload>, payload: Payload, growth: seq<Event>, stores: seq<Event>,
    after: Writer, crc: Payload -> Word)
    requires Sized(payload) && after.cursor == w.cursor + FrameSize(payload) <= after.capacity
    requires after.dropped == w.dropped
    requires Ready(Replay(file, growth), w.(capacity := after.capacity), committed, crc)
    requires stores == MappedStores(w.cursor, payload, crc) || stores == FileStores(w.cursor, payload, crc)
    ensures Ready(Replay(file, growth + stores + [Put(w.cursor, COMMIT)]), after, committed + [payload], crc)
  {
    Associated(file, growth, stores, [Put(w.cursor, COMMIT)]);
    PlacedReady(Replay(file, growth), w.(capacity := after.capacity), committed, payload, stores, after, crc);
  }

  lemma {:induction false} PlacedReady(
    file: seq<Byte>, w: Writer, committed: seq<Payload>, payload: Payload, stores: seq<Event>, after: Writer,
    crc: Payload -> Word)
    requires Ready(file, w, committed, crc) && Sized(payload) && w.cursor + FrameSize(payload) <= w.capacity
    requires after.capacity == w.capacity && after.dropped == w.dropped && after.cursor == w.cursor + FrameSize(payload)
    requires stores == MappedStores(w.cursor, payload, crc) || stores == FileStores(w.cursor, payload, crc)
    ensures Ready(Replay(file, stores + [Put(w.cursor, COMMIT)]), after, committed + [payload], crc)
  {
    StoresCommit(file, w.cursor, payload, stores, crc);
    CommitReady(file, w, committed, payload, crc);
  }

  function Header(pid: nat): (header: seq<Byte>)
    ensures |header| == HEADER_SIZE
  {
    MAGIC + Little(VERSION, 4) + Little(HEADER_SIZE, 4) + Little(INITIAL_CAPACITY, 8) + Zeros(8) + Little(pid, 8) + Zeros(24)
  }

  function Fresh(pid: nat): seq<Byte> {
    Header(pid) + Zeros(INITIAL_CAPACITY - HEADER_SIZE)
  }

  function Opened(mapped: bool): Writer {
    Writer(INITIAL_CAPACITY, HEADER_SIZE, 0, mapped, false)
  }

  /** The file a process starts with is ready for its first record. */
  lemma {:induction false} FreshIsReady(pid: nat, mapped: bool, crc: Payload -> Word)
    requires 0 < pid < Pow256(8)
    ensures Ready(Fresh(pid), Opened(mapped), [], crc)
  {
    FreshIsHeaded(pid);
    NoLittle(8);
  }

  lemma {:induction false} FreshIsHeaded(pid: nat)
    requires 0 < pid < Pow256(8)
    ensures var file := Fresh(pid);
      && |file| == INITIAL_CAPACITY && Headed(file)
      && file[16..24] == Little(INITIAL_CAPACITY, 8) && file[24..32] == Zeros(8)
      && forall i | HEADER_SIZE <= i < |file| :: file[i] == 0
  {
    var header, file := Header(pid), Fresh(pid);
    HeaderParts(pid);
    LittleRoundTrip(pid, 8);
    assert Pow256(4) >= 0x100 by { Powers(); }
    LittleRoundTrip(VERSION, 4);
    LittleRoundTrip(HEADER_SIZE, 4);
    StartKept(header, Zeros(INITIAL_CAPACITY - HEADER_SIZE));
  }

  lemma {:induction false} StartKept(header: seq<Byte>, rest: seq<Byte>)
    requires |header| >= 40
    ensures var file := header + rest;
      && file[..8] == header[..8] && file[8..12] == header[8..12] && file[12..16] == header[12..16]
      && file[16..24] == header[16..24] && file[24..32] == header[24..32] && file[32..40] == header[32..40]
  {
  }

  lemma {:induction false} HeaderParts(pid: nat)
    ensures var header := Header(pid);
      && header[..8] == MAGIC && header[8..12] == Little(VERSION, 4) && header[12..16] == Little(HEADER_SIZE, 4)
      && header[16..24] == Little(INITIAL_CAPACITY, 8) && header[24..32] == Zeros(8) && header[32..40] == Little(pid, 8)
  {
    Parts(MAGIC, Little(VERSION, 4), Little(HEADER_SIZE, 4), Little(INITIAL_CAPACITY, 8), Zeros(8), Little(pid, 8), Zeros(24));
  }

  lemma {:induction false} Parts(a: seq<Byte>, b: seq<Byte>, c: seq<Byte>, d: seq<Byte>, e: seq<Byte>, f: seq<Byte>, g: seq<Byte>)
    requires |a| == |d| == |e| == |f| == 8 && |b| == |c| == 4
    ensures var all := a + b + c + d + e + f + g;
      && all[..8] == a && all[8..12] == b && all[12..16] == c && all[16..24] == d && all[24..32] == e && all[32..40] == f
  {
  }

  lemma {:induction false} NoLittle(width: nat)
    ensures Little(0, width) == Zeros(width)
  {
    if width > 0 {
      NoLittle(width - 1);
      assert Zeros(width) == [0] + Zeros(width - 1);
    }
  }

  // -- the main results -------------------------------------------------------------------------

  lemma {:induction false} ReadyIsRead(file: seq<Byte>, w: Writer, committed: seq<Payload>, crc: Payload -> Word)
    requires Ready(file, w, committed, crc)
    ensures ReadFrames(file, HEADER_SIZE, crc) == Ok(committed)
  {
    LaidIsRead(file, HEADER_SIZE, committed, w.cursor, crc);
    assert committed + [] == committed;
  }

  /** A process killed anywhere in a write: the record is there exactly when its
      very last store, the commit byte, is. */
  lemma {:induction false} WriteIsAtomic(
    file: seq<Byte>, w: Writer, committed: seq<Payload>, payload: Payload, mapFails: bool, crc: Payload -> Word, k: nat)
    requires Ready(file, w, committed, crc) && IsRecord(payload)
    requires k <= |Write(w, payload, mapFails, crc).events|
    ensures var written := Write(w, payload, mapFails, crc);
      ReadFrames(Replay(file, written.events[..k]), HEADER_SIZE, crc)
      == Ok(if k == |written.events| then Kept(committed, written, payload) else committed)
  {
    var written := Write(w, payload, mapFails, crc);
    WriteKeepsReady(file, w, committed, payload, mapFails, crc);
    if k == |written.events| {
      assert written.events[..k] == written.events;
      ReadyIsRead(Replay(file, written.events), written.writer, Kept(committed, written, payload), crc);
    } else {
      var quiet := if written.accepted then written.events[..|written.events| - 1] else written.events;
      assert forall i | 0 <= i < k :: written.events[..k][i] == quiet[i];
      QuietIsInvisible(file, written.events[..k], committed, w.cursor, crc);
    }
  }

  /** One call: the payload, and whether mapping the file would fail then. */
  datatype Attempt = Attempt(payload: Payload, mapFails: bool)

  function AllEvents(w: Writer, attempts: seq<Attempt>, crc: Payload -> Word): seq<Event>
    requires w.capacity > 0
    decreases |attempts|
  {
    if attempts == [] then []
    else
      var written := Write(w, attempts[0].payload, attempts[0].mapFails, crc);
      written.events + AllEvents(written.writer, attempts[1..], crc)
  }

  function After(w: Writer, attempts: seq<Attempt>, crc: Payload -> Word): (after: Writer)
    requires w.capacity > 0
    ensures after.capacity > 0
    decreases |attempts|
  {
    if attempts == [] then w
    else After(Write(w, attempts[0].payload, attempts[0].mapFails, crc).writer, attempts[1..], crc)
  }

  /** The records whose stores, commit included, are among the first `k`. */
  function CommittedBy(w: Writer, attempts: seq<Attempt>, crc: Payload -> Word, k: nat): seq<Payload>
    requires w.capacity > 0
    decreases |attempts|
  {
    if attempts == [] then []
    else
      var written := Write(w, attempts[0].payload, attempts[0].mapFails, crc);
      if k < |written.events| then []
      else
        (if written.accepted then [attempts[0].payload] else [])
        + CommittedBy(written.writer, attempts[1..], crc, k - |written.events|)
  }

  lemma {:induction false} WriteGoesOn(
    file: seq<Byte>, w: Writer, committed: seq<Payload>, attempt: Attempt, written: Written, rest: seq<Event>,
    crc: Payload -> Word) returns (after: seq<Byte>)
    requires Ready(file, w, committed, crc) && IsRecord(attempt.payload)
    requires written == Write(w, attempt.payload, attempt.mapFails, crc)
    ensures Replay(file, written.events + rest) == Replay(after, rest)
    ensures Ready(after, written.writer, Kept(committed, written, attempt.payload), crc)
    ensures written.writer.dropped == w.dropped + (if written.accepted then 0 else 1)
  {
    after := Replay(file, written.events);
    ReplayConcat(file, written.events, rest);
    WriteKeepsReady(file, w, committed, attempt.payload, attempt.mapFails, crc);
  }

  /** For every sequence of writes, growth, both back ends and the switch between
      them included, and every prefix of their stores: the reader finds exactly
      the records committed so far, in order, and never refuses a frame. */
  lemma {:induction false} EveryPrefixIsReadable(
    file: seq<Byte>, w: Writer, committed: seq<Payload>, attempts: seq<Attempt>, crc: Payload -> Word, k: nat)
    requires Ready(file, w, committed, crc) && k <= |AllEvents(w, attempts, crc)|
    requires forall i | 0 <= i < |attempts| :: IsRecord(attempts[i].payload)
    ensures ReadFrames(Replay(file, AllEvents(w, attempts, crc)[..k]), HEADER_SIZE, crc)
         == Ok(committed + CommittedBy(w, attempts, crc, k))
    decreases |attempts|
  {
    var events := AllEvents(w, attempts, crc);
    if attempts == [] {
      ReadyIsRead(file, w, committed, crc);
      assert events[..k] == [] && committed + [] == committed;
    } else {
      var first := attempts[0];
      var written := Write(w, first.payload, first.mapFails, crc);
      if k < |written.events| {
        FirstAttempt(w, attempts, crc, k, written, committed);
        WriteIsAtomic(file, w, committed, first.payload, first.mapFails, crc, k);
      } else {
        var rest, later := LaterAttempts(w, attempts, crc, k, written, committed);
        var after := WriteGoesOn(file, w, committed, first, written, rest, crc);
        EveryPrefixIsReadable(after, written.writer, Kept(committed, written, first.payload), attempts[1..], crc,
          k - |written.events|);
      }
    }
  }

  /** Within the first write, only some of its own stores are done. */
  lemma {:induction false} FirstAttempt(
    w: Writer, attempts: seq<Attempt>, crc: Payload -> Word, k: nat, written: Written, committed: seq<Payload>)
    requires w.capacity > 0 && attempts != [] && k < |written.events|
    requires written == Write(w, attempts[0].payload, attempts[0].mapFails, crc)
    ensures k <= |AllEvents(w, attempts, crc)| && AllEvents(w, attempts, crc)[..k] == written.events[..k]
    ensures committed + CommittedBy(w, attempts, crc, k) == committed
  {
    SplitPrefix(written.events, AllEvents(written.writer, attempts[1..], crc), AllEvents(w, attempts, crc), k);
    assert committed + [] == committed;
  }

  /** Past it, the stores and the records of the later ones. */
  lemma {:induction false} LaterAttempts(
    w: Writer, attempts: seq<Attempt>, crc: Payload -> Word, k: nat, written: Written, committed: seq<Payload>)
    returns (rest: seq<Event>, later: seq<Payload>)
    requires w.capacity > 0 && attempts != [] && |written.events| <= k <= |AllEvents(w, attempts, crc)|
    requires written == Write(w, attempts[0].payload, attempts[0].mapFails, crc)
    ensures var n := k - |written.events|;
      && n <= |AllEvents(written.writer, attempts[1..], crc)|
      && rest == AllEvents(written.writer, attempts[1..], crc)[..n]
      && later == CommittedBy(written.writer, attempts[1..], crc, n)
    ensures AllEvents(w, attempts, crc)[..k] == written.events + rest
    ensures Kept(committed, written, attempts[0].payload) + later == committed + CommittedBy(w, attempts, crc, k)
  {
    rest := LaterEvents(w, attempts, crc, k, written);
    later := LaterRecords(w, attempts, crc, k, written, committed);
  }

  lemma {:induction false} LaterEvents(w: Writer, attempts: seq<Attempt>, crc: Payload -> Word, k: nat, written: Written)
    returns (rest: seq<Event>)
    requires w.capacity > 0 && attempts != [] && |written.events| <= k <= |AllEvents(w, attempts, crc)|
    requires written == Write(w, attempts[0].payload, attempts[0].mapFails, crc)
    ensures k - |written.events| <= |AllEvents(written.writer, attempts[1..], crc)|
    ensures rest == AllEvents(written.writer, attempts[1..], crc)[..k - |written.events|]
    ensures AllEvents(w, attempts, crc)[..k] == written.events + rest
  {
    var all := AllEvents(written.writer, attempts[1..], crc);
    assert AllEvents(w, attempts, crc) == written.events + all;
    rest := all[..k - |written.events|];
    SplitPrefix(written.events, all, written.events + all, k);
  }

  lemma {:induction false} LaterRecords(
    w: Writer, attempts: seq<Attempt>, crc: Payload -> Word, k: nat, written: Written, committed: seq<Payload>)
    returns (later: seq<Payload>)
    requires w.capacity > 0 && attempts != [] && |written.events| <= k
    requires written == Write(w, attempts[0].payload, attempts[0].mapFails, crc)
    ensures later == CommittedBy(written.writer, attempts[1..], crc, k - |written.events|)
    ensures Kept(committed, written, attempts[0].payload) + later == committed + CommittedBy(w, attempts, crc, k)
  {
    later := CommittedBy(written.writer, attempts[1..], crc, k - |written.events|);
    KeptThen(committed, if written.accepted then [attempts[0].payload] else [], later);
  }

  lemma {:induction false} SplitPrefix<T>(first: seq<T>, rest: seq<T>, all: seq<T>, k: nat)
    requires all == first + rest && k <= |all|
    ensures all[..k] == if k < |first| then first[..k] else first + rest[..k - |first|]
  {
  }

  lemma {:induction false} KeptThen(committed: seq<Payload>, first: seq<Payload>, later: seq<Payload>)
    ensures committed + (first + later) == committed + first + later && committed + [] == committed
  {
  }

  lemma {:induction false} WritesKeepReady(
    file: seq<Byte>, w: Writer, committed: seq<Payload>, attempts: seq<Attempt>, crc: Payload -> Word)
    requires Ready(file, w, committed, crc)
    requires forall i | 0 <= i < |attempts| :: IsRecord(attempts[i].payload)
    ensures var events := AllEvents(w, attempts, crc);
      Ready(Replay(file, events), After(w, attempts, crc), committed + CommittedBy(w, attempts, crc, |events|), crc)
    decreases |attempts|
  {
    if attempts == [] {
      assert committed + [] == committed;
    } else {
      var first, all := attempts[0], |AllEvents(w, attempts, crc)|;
      var written := Write(w, first.payload, first.mapFails, crc);
      var rest, later := LaterAttempts(w, attempts, crc, all, written, committed);
      assert rest == AllEvents(written.writer, attempts[1..], crc);
      var after := WriteGoesOn(file, w, committed, first, written, rest, crc);
      WritesKeepReady(after, written.writer, Kept(committed, written, first.payload), attempts[1..], crc);
      assert AllEvents(w, attempts, crc)[..all] == AllEvents(w, attempts, crc);
    }
  }

  lemma {:induction false} EachIsCounted(w: Writer, attempts: seq<Attempt>, crc: Payload -> Word)
    requires w.capacity > 0
    ensures |CommittedBy(w, attempts, crc, |AllEvents(w, attempts, crc)|)| + (After(w, attempts, crc).dropped - w.dropped)
         == |attempts|
    decreases |attempts|
  {
    if attempts != [] {
      EachIsCounted(Write(w, attempts[0].payload, attempts[0].mapFails, crc).writer, attempts[1..], crc);
    }
  }

  /** And once they are done: every record is committed or counted as dropped, in
      the writer and in the header, and the cursor is aligned and in the file. */
  lemma {:induction false} AttemptsAreAccountedFor(
    file: seq<Byte>, w: Writer, committed: seq<Payload>, attempts: seq<Attempt>, crc: Payload -> Word)
    requires Ready(file, w, committed, crc)
    requires forall i | 0 <= i < |attempts| :: IsRecord(attempts[i].payload)
    ensures
      var events, after := AllEvents(w, attempts, crc), After(w, attempts, crc);
      var taken := CommittedBy(w, attempts, crc, |events|);
      && Ready(Replay(file, events), after, committed + taken, crc)
      && |taken| + (after.dropped - w.dropped) == |attempts|
  {
    WritesKeepReady(file, w, committed, attempts, crc);
    EachIsCounted(w, attempts, crc);
  }

  lemma {:induction false} FieldsAreRead(capacity: nat, dropped: nat)
    requires capacity <= MAX_CAPACITY && dropped < Pow256(8)
    ensures FromLittle(Little(capacity, 8)) == capacity && FromLittle(Little(dropped, 8)) == dropped
  {
    assert Pow256(8) >= 0x1_0000_0000 by {
      assert Pow256(2) == 0x1_0000 && Pow256(4) == 0x1_0000_0000;
      assert Pow256(6) >= Pow256(4);
    }
    LittleRoundTrip(capacity, 8);
    LittleRoundTrip(dropped, 8);
  }

  /** Between writes the reader accepts the file exactly when nothing was dropped,
      and then reads every committed record; otherwise it says how many were. */
  lemma {:induction false} RestingFileIsParsed(file: seq<Byte>, w: Writer, committed: seq<Payload>, crc: Payload -> Word)
    requires Ready(file, w, committed, crc) && w.dropped < Pow256(8)
    ensures Parse(file, crc) == if w.dropped == 0 then Records(committed) else Dropped(w.dropped)
  {
    ReadyIsRead(file, w, committed, crc);
    FieldsAreRead(w.capacity, w.dropped);
  }

  // -- growth caught between the bytes of its header field --------------------------------------

  lemma {:induction false} TornField(older: nat, newer: nat, width: nat, j: nat)
    requires j <= width && older < Pow256(width)
    ensures FromLittle(Little(newer, width)[..j] + Little(older, width)[j..])
         == newer % Pow256(j) + older / Pow256(j) * Pow256(j)
  {
    var mixed := Little(newer, width)[..j] + Little(older, width)[j..];
    if j == 0 {
      assert mixed == Little(older, width);
      LittleRoundTrip(older, width);
    } else {
      TornField(older / 0x100, newer / 0x100, width - 1, j - 1);
      assert mixed[0] == newer % 0x100;
      assert mixed[1..] == Little(newer / 0x100, width - 1)[..j - 1] + Little(older / 0x100, width - 1)[j - 1..];
      TornDigits(older, newer, Pow256(j - 1));
    }
  }

  lemma {:induction false} TornDigits(older: nat, newer: nat, p: nat)
    requires p > 0
    ensures newer % 0x100 + 0x100 * (newer / 0x100 % p + older / 0x100 / p * p)
         == newer % (0x100 * p) + older / (0x100 * p) * (0x100 * p)
  {
    DivTwice(older, p);
    DivTwice(newer, p);
    assert newer / 0x100 == p * (newer / 0x100 / p) + newer / 0x100 % p;
    assert newer == 0x100 * p * (newer / (0x100 * p)) + newer % (0x100 * p);
    assert newer == 0x100 * (newer / 0x100) + newer % 0x100;
  }

  lemma {:induction false} DivTwice(n: nat, p: nat)
    requires p > 0
    ensures n / 0x100 / p == n / (0x100 * p)
  {
    var q := n / 0x100 / p;
    var r := n - 0x100 * p * q;
    assert n / 0x100 == p * q + n / 0x100 % p;
    assert n == 0x100 * (p * q) + (0x100 * (n / 0x100 % p) + n % 0x100);
    assert 0 <= 0x100 * (n / 0x100 % p) + n % 0x100 < 0x100 * p;
    QuotientIs(n, 0x100 * p, q, 0x100 * (n / 0x100 % p) + n % 0x100);
  }

  lemma {:induction false} QuotientIs(n: nat, d: nat, q: nat, r: nat)
    requires d > 0 && n == d * q + r && r < d
    ensures n / d == q
  {
    NotAbove(d, q, r, n / d, n % d);
    NotAbove(d, n / d, n % d, q, r);
  }

  lemma {:induction false} NotAbove(d: nat, q: nat, r: nat, p: nat, s: nat)
    requires d * q + r == d * p + s && r < d && s < d
    ensures q <= p
  {
    if q > p {
      Multiples(d, p, q);
    }
  }

  lemma {:induction false} Multiples(d: nat, p: nat, q: nat)
    requires p < q
    ensures d * p + d <= d * q
  {
    assert d * q == d * p + d * (q - p);
    assert d * (q - p) == d + d * (q - p - 1);
  }

  /** Capacities double from 1 MiB to 512 MiB. */
  predicate IsCapacity(c: nat) {
    c in {0x10_0000, 0x20_0000, 0x40_0000, 0x80_0000, 0x100_0000, 0x200_0000, 0x400_0000, 0x800_0000, 0x1000_0000, 0x2000_0000}
  }

  lemma {:induction false} GrownIsCapacity(capacity: nat, required: nat)
    requires IsCapacity(capacity)
    ensures IsCapacity(Grown(capacity, required))
    decreases MAX_CAPACITY - capacity
  {
    if capacity < required && capacity < MAX_CAPACITY {
      GrownIsCapacity(if capacity * 2 < MAX_CAPACITY then capacity * 2 else MAX_CAPACITY, required);
    }
  }

  /** The file grows to the least of the capacities that is enough, if one is. */
  lemma {:induction false} GrownIsLeast(capacity: nat, required: nat, other: nat)
    requires IsCapacity(capacity) && required <= 0x2000_0000
    ensures capacity <= Grown(capacity, required) && required <= Grown(capacity, required)
    ensures IsCapacity(other) && other >= capacity && other >= required ==> Grown(capacity, required) <= other
    decreases MAX_CAPACITY - capacity
  {
    if capacity < required {
      GrownIsLeast(if capacity * 2 < MAX_CAPACITY then capacity * 2 else MAX_CAPACITY, required, other);
    }
  }

  /** A record is kept exactly when it is at most 4 MiB and its frame, of 16 bytes and
      the payload rounded up to 8, ends within 512 MiB. */
  predicate IsKept(cursor: nat, payload: Payload) {
    |payload| <= 0x40_0000 && cursor + (16 + |payload| + 7) / 8 * 8 <= 0x2000_0000
  }

  lemma {:induction false} KeptExactly(w: Writer, payload: Payload, mapFails: bool, crc: Payload -> Word)
    requires IsCapacity(w.capacity)
    ensures Write(w, payload, mapFails, crc).accepted <==> IsKept(w.cursor, payload)
    ensures var after := Write(w, payload, mapFails, crc).writer;
      IsCapacity(after.capacity)
      && after.cursor == if IsKept(w.cursor, payload) then w.cursor + (16 + |payload| + 7) / 8 * 8 else w.cursor
  {
    var next := w.cursor + FrameSize(payload);
    RoomExactly(w.capacity, next);
    GrownIsCapacity(w.capacity, next);
    WriteDecides(w, payload, mapFails, crc, next);
  }

  /** There is, or comes to be, room up to 512 MiB. */
  lemma {:induction false} RoomExactly(capacity: nat, next: nat)
    requires IsCapacity(capacity)
    ensures next > capacity ==> (Grown(capacity, next) >= next <==> next <= 0x2000_0000)
  {
    if next <= 0x2000_0000 {
      GrownIsLeast(capacity, next, capacity);
    }
  }

  lemma {:induction false} WriteDecides(w: Writer, payload: Payload, mapFails: bool, crc: Payload -> Word, next: nat)
    requires w.capacity > 0 && next == w.cursor + FrameSize(payload)
    ensures var written := Write(w, payload, mapFails, crc);
      && (written.accepted <==> |payload| <= MAX_RECORD_SIZE && (next <= w.capacity || Grown(w.capacity, next) >= next))
      && (written.writer.capacity == w.capacity || written.writer.capacity == Grown(w.capacity, next))
      && written.writer.cursor == if written.accepted then next else w.cursor
  {
  }

  /** Those of the payloads that fit, from a cursor on. */
  function Fitting(cursor: nat, attempts: seq<Attempt>): seq<Payload>
    decreases |attempts|
  {
    if attempts == [] then []
    else if IsKept(cursor, attempts[0].payload) then
      [attempts[0].payload] + Fitting(cursor + (16 + |attempts[0].payload| + 7) / 8 * 8, attempts[1..])
    else Fitting(cursor, attempts[1..])
  }

  /** Over any attempts the committed records are exactly those that fit, in order. */
  lemma {:induction false} ThoseThatFitAreCommitted(w: Writer, attempts: seq<Attempt>, crc: Payload -> Word)
    requires IsCapacity(w.capacity)
    ensures CommittedBy(w, attempts, crc, |AllEvents(w, attempts, crc)|) == Fitting(w.cursor, attempts)
    decreases |attempts|
  {
    if attempts != [] {
      var after := FirstCommitted(w, attempts, crc);
      ThoseThatFitAreCommitted(after, attempts[1..], crc);
    }
  }

  /** Where the next frame starts. */
  function CursorAfter(cursor: nat, payload: Payload): nat {
    if IsKept(cursor, payload) then cursor + (16 + |payload| + 7) / 8 * 8 else cursor
  }

  function KeptOf(cursor: nat, payload: Payload): seq<Payload> {
    if IsKept(cursor, payload) then [payload] else []
  }

  lemma {:induction false} FirstCommitted(w: Writer, attempts: seq<Attempt>, crc: Payload -> Word) returns (after: Writer)
    requires IsCapacity(w.capacity) && attempts != []
    ensures IsCapacity(after.capacity) && after.cursor == CursorAfter(w.cursor, attempts[0].payload)
    ensures CommittedBy(w, attempts, crc, |AllEvents(w, attempts, crc)|)
         == KeptOf(w.cursor, attempts[0].payload) + CommittedBy(after, attempts[1..], crc, |AllEvents(after, attempts[1..], crc)|)
  {
    KeptExactly(w, attempts[0].payload, attempts[0].mapFails, crc);
    after := Write(w, attempts[0].payload, attempts[0].mapFails, crc).writer;
  }

  /** And caught after any store they are the first of those. */
  lemma {:induction false} CommittedComeFirst(w: Writer, attempts: seq<Attempt>, crc: Payload -> Word, k: nat)
    requires IsCapacity(w.capacity)
    ensures CommittedBy(w, attempts, crc, k) <= Fitting(w.cursor, attempts)
    decreases |attempts|
  {
    if attempts != [] {
      var after, n := CommittedFrom(w, attempts, crc, k);
      if k >= n {
        CommittedComeFirst(after, attempts[1..], crc, k - n);
        FirstThen(KeptOf(w.cursor, attempts[0].payload), CommittedBy(after, attempts[1..], crc, k - n),
          Fitting(after.cursor, attempts[1..]));
      }
    }
  }

  lemma {:induction false} CommittedFrom(w: Writer, attempts: seq<Attempt>, crc: Payload -> Word, k: nat)
    returns (after: Writer, n: nat)
    requires IsCapacity(w.capacity) && attempts != []
    ensures IsCapacity(after.capacity) && after.cursor == CursorAfter(w.cursor, attempts[0].payload)
    ensures CommittedBy(w, attempts, crc, k)
         == if k < n then [] else KeptOf(w.cursor, attempts[0].payload) + CommittedBy(after, attempts[1..], crc, k - n)
  {
    KeptExactly(w, attempts[0].payload, attempts[0].mapFails, crc);
    var written := Write(w, attempts[0].payload, attempts[0].mapFails, crc);
    after, n := written.writer, |written.events|;
  }

  lemma {:induction false} FirstThen(first: seq<Payload>, some: seq<Payload>, all: seq<Payload>)
    requires some <= all
    ensures first + some <= first + all
  {
  }

  // -- which back end -------------------------------------------------------------------------

  /** A writer maps its file only past 64 KiB, and past that has mapped it or failed to. */
  predicate BackEndFits(w: Writer, started: bool) {
    && (w.mapped ==> started || w.cursor > 0x1_0000)
    && (w.cursor > 0x1_0000 ==> w.mapped || w.mapFailed)
    && (started ==> w.mapped)
  }

  lemma {:induction false} WriteFits(w: Writer, payload: Payload, mapFails: bool, crc: Payload -> Word, started: bool)
    requires w.capacity > 0 && BackEndFits(w, started)
    ensures var after := Write(w, payload, mapFails, crc).writer;
      BackEndFits(after, started) && (!mapFails && !w.mapFailed ==> !after.mapFailed)
  {
  }

  /** Over any attempts: a file that was not mapped from the start is mapped only once
      its records end past 64 KiB, and then it is, unless mapping failed. */
  lemma {:induction false} MappedPast64KiB(w: Writer, attempts: seq<Attempt>, crc: Payload -> Word, started: bool)
    requires w.capacity > 0 && BackEndFits(w, started)
    ensures var after := After(w, attempts, crc);
      && (after.mapped ==> started || after.cursor > 0x1_0000)
      && (after.cursor > 0x1_0000 ==> after.mapped || after.mapFailed)
      && ((forall i | 0 <= i < |attempts| :: !attempts[i].mapFails) && !w.mapFailed ==>
            (after.mapped <==> started || after.cursor > 0x1_0000))
    decreases |attempts|
  {
    if attempts != [] {
      WriteFits(w, attempts[0].payload, attempts[0].mapFails, crc, started);
      var next := Write(w, attempts[0].payload, attempts[0].mapFails, crc).writer;
      MappedPast64KiB(next, attempts[1..], crc, started);
      if forall i | 0 <= i < |attempts| :: !attempts[i].mapFails {
        assert forall i | 0 <= i < |attempts[1..]| :: !attempts[1..][i].mapFails;
      }
    }
  }

  /** A capacity field with only its first `j` bytes updated holds the old or the
      new capacity, or nothing at all when the two lie around 16 MiB. */
  lemma {:induction false} TornCapacity(older: nat, newer: nat, j: nat)
    requires IsCapacity(older) && IsCapacity(newer) && older < newer && j <= 8
    ensures var field := FromLittle(Little(newer, 8)[..j] + Little(older, 8)[j..]);
      if j == 3 && older < 0x100_0000 <= newer then field == 0 else field == older || field == newer
  {
    CapacityBelow(older);
    CapacityBelow(newer);
    TornField(older, newer, 8, j);
    if j >= 4 {
      PowGrows(4, j);
      SmallDigits(newer, older, Pow256(j));
    } else {
      FirstBytes(older, newer, j);
    }
  }

  lemma {:induction false} CapacityBelow(c: nat)
    requires IsCapacity(c)
    ensures c < Pow256(4) <= Pow256(8)
  {
    Powers();
    PowGrows(4, 8);
  }

  lemma {:induction false} FirstBytes(older: nat, newer: nat, j: nat)
    requires IsCapacity(older) && IsCapacity(newer) && older < newer && j < 4
    ensures var field := newer % Pow256(j) + older / Pow256(j) * Pow256(j);
      if j == 3 && older < 0x100_0000 <= newer then field == 0 else field == older || field == newer
  {
    Powers();
    if j == 3 {
      ThirdByte(older, newer);
    } else {
      LowBytes(older);
      LowBytes(newer);
    }
  }

  lemma {:induction false} Powers()
    ensures Pow256(0) == 1 && Pow256(1) == 0x100 && Pow256(2) == 0x1_0000 && Pow256(3) == 0x100_0000
    ensures Pow256(4) == 0x1_0000_0000
  {
    assert Pow256(1) == 0x100 && Pow256(2) == 0x100 * Pow256(1);
    assert Pow256(3) == 0x100 * Pow256(2) && Pow256(4) == 0x100 * Pow256(3);
  }

  lemma {:induction false} SmallDigits(newer: nat, older: nat, p: nat)
    requires newer < p && older < p
    ensures newer % p + older / p * p == newer
  {
    QuotientIs(newer, p, 0, newer);
    QuotientIs(older, p, 0, older);
  }

  lemma {:induction false} ThirdByte(older: nat, newer: nat)
    requires IsCapacity(older) && IsCapacity(newer) && older < newer
    ensures newer % 0x100_0000 + older / 0x100_0000 * 0x100_0000
         == if older < 0x100_0000 <= newer then 0 else if newer < 0x100_0000 then newer else older
  {
  }

  lemma {:induction false} LowBytes(c: nat)
    requires IsCapacity(c)
    ensures c % 1 == 0 && c % 0x100 == 0 && c % 0x1_0000 == 0
    ensures c / 1 * 1 == c && c / 0x100 * 0x100 == c && c / 0x1_0000 * 0x1_0000 == c
  {
  }

  lemma {:induction false} PowGrows(small: nat, large: nat)
    requires small <= large
    ensures Pow256(small) <= Pow256(large)
  {
    if small < large {
      PowGrows(small, large - 1);
    }
  }

  lemma {:induction false} PutsPrefix(offset: nat, bytes: seq<Byte>, j: nat)
    requires j <= |bytes|
    ensures |Puts(offset, bytes)| == |bytes| && Puts(offset, bytes)[..j] == Puts(offset, bytes[..j])
    decreases j
  {
    PutsLength(offset, bytes);
    if j > 0 {
      PutsPrefix(offset + 1, bytes[1..], j - 1);
      assert bytes[..j][1..] == bytes[1..][..j - 1];
    }
  }

  lemma {:induction false} PutsLength(offset: nat, bytes: seq<Byte>)
    ensures |Puts(offset, bytes)| == |bytes|
    decreases |bytes|
  {
    if bytes != [] {
      PutsLength(offset + 1, bytes[1..]);
    }
  }

  /** What the reader makes of a header that declares `capacity` and `count`
      dropped records, before frames it can read. */
  function Judged(size: nat, capacity: nat, count: nat, committed: seq<Payload>): Parsed {
    if capacity < HEADER_SIZE || capacity > size then HeaderRefused
    else if count != 0 then Dropped(count)
    else Records(committed)
  }

  /** A process killed while it grew the file leaves one the reader judges as
      before, except between the third and fourth byte of a capacity field that
      crosses 16 MiB. */
  lemma {:induction false} TornGrowth(file: seq<Byte>, w: Writer, committed: seq<Payload>, capacity: nat,
    events: seq<Event>, j: nat, crc: Payload -> Word)
    requires Ready(file, w, committed, crc) && w.dropped < Pow256(8) && j <= 8
    requires IsCapacity(w.capacity) && IsCapacity(capacity) && w.capacity < capacity
    requires events == [Extend(capacity)] + Puts(16, Little(capacity, 8))
    ensures 1 + j <= |events|
      && Parse(Replay(file, events[..1 + j]), crc)
         == if j == 3 && w.capacity < 0x100_0000 <= capacity then HeaderRefused
            else if w.dropped != 0 then Dropped(w.dropped)
            else Records(committed)
  {
    var torn := TornFile(file, capacity, events, j);
    TornIsRead(file, torn, w, committed, capacity, j, crc);
    TornHeader(file, torn, w, committed, capacity, j, crc);
  }

  lemma {:induction false} TornIsRead(
    file: seq<Byte>, torn: seq<Byte>, w: Writer, committed: seq<Payload>, capacity: nat, j: nat, crc: Payload -> Word)
    requires Ready(file, w, committed, crc) && j <= 8
    requires torn == Replay(file, [Extend(capacity)] + Puts(16, Little(capacity, 8)[..j]))
    ensures ReadFrames(torn, HEADER_SIZE, crc) == Ok(committed)
  {
    var stored := Little(capacity, 8)[..j];
    PutsAreQuiet(16, stored, w.cursor);
    QuietIsInvisible(file, [Extend(capacity)] + Puts(16, stored), committed, w.cursor, crc);
  }

  /** The file when only the first `j` bytes of the new capacity are stored. */
  lemma {:induction false} TornFile(file: seq<Byte>, capacity: nat, all: seq<Event>, j: nat) returns (torn: seq<Byte>)
    requires HEADER_SIZE <= |file| < capacity && j <= 8
    requires all == [Extend(capacity)] + Puts(16, Little(capacity, 8))
    ensures var stored := Little(capacity, 8)[..j];
      && 1 + j <= |all| && all[..1 + j] == [Extend(capacity)] + Puts(16, stored)
      && torn == Replay(file, all[..1 + j]) == Overlay(file + Zeros(capacity - |file|), 16, stored)
  {
    var field := Little(capacity, 8);
    var extended := ApplyEvent(file, Extend(capacity));
    PutsPrefix(16, field, j);
    assert all[..1 + j] == [Extend(capacity)] + Puts(16, field)[..j];
    ReplayConcat(file, [Extend(capacity)], Puts(16, field[..j]));
    OneEvent(file, Extend(capacity));
    PutsOverlay(extended, 16, field[..j]);
    torn := Overlay(extended, 16, field[..j]);
  }

  lemma {:induction false} TornHeader(
    file: seq<Byte>, torn: seq<Byte>, w: Writer, committed: seq<Payload>, capacity: nat, j: nat, crc: Payload -> Word)
    requires Ready(file, w, committed, crc) && w.dropped < Pow256(8) && j <= 8
    requires IsCapacity(w.capacity) && IsCapacity(capacity) && w.capacity < capacity
    requires |file| <= capacity
    requires torn == Overlay(file + Zeros(capacity - |file|), 16, Little(capacity, 8)[..j])
    requires ReadFrames(torn, HEADER_SIZE, crc) == Ok(committed)
    ensures Parse(torn, crc)
         == if j == 3 && w.capacity < 0x100_0000 <= capacity then HeaderRefused
            else if w.dropped != 0 then Dropped(w.dropped)
            else Records(committed)
  {
    TornBytes(file, torn, capacity, Little(capacity, 8)[..j]);
    HeadKept(file, torn);
    TornCapacity(w.capacity, capacity, j);
    FieldsAreRead(w.capacity, w.dropped);
    ParseHeaded(torn, FromLittle(Little(capacity, 8)[..j] + Little(w.capacity, 8)[j..]), w.dropped, committed, crc);
  }

  lemma {:induction false} TornBytes(file: seq<Byte>, torn: seq<Byte>, capacity: nat, bytes: seq<Byte>)
    requires |file| >= HEADER_SIZE && |file| <= capacity && |bytes| <= 8
    requires torn == Overlay(file + Zeros(capacity - |file|), 16, bytes)
    ensures |torn| == capacity
    ensures forall i | 0 <= i < 16 || 32 <= i < HEADER_SIZE :: torn[i] == file[i]
    ensures torn[16..24] == bytes + file[16..24][|bytes|..] && torn[24..32] == file[24..32]
  {
    OverlayAt(file + Zeros(capacity - |file|), 16, bytes);
  }

  lemma {:induction false} ParseHeaded(file: seq<Byte>, capacity: nat, count: nat, committed: seq<Payload>, crc: Payload -> Word)
    requires Headed(file) && FromLittle(file[16..24]) == capacity && FromLittle(file[24..32]) == count
    requires ReadFrames(file, HEADER_SIZE, crc) == Ok(committed)
    ensures Parse(file, crc) == Judged(|file|, capacity, count, committed)
  {
  }

  // -- the writer's methods --------------------------------------------------------------------

  lemma {:induction false} OverlayInTwo(file: seq<Byte>, offset: nat, data: seq<Byte>, done: nat, more: nat)
    requires offset + |data| <= |file| && done + more <= |data|
    ensures Overlay(Overlay(file, offset, data[..done]), offset + done, data[done..][..more])
         == Overlay(file, offset, data[..done + more])
    ensures data[done..][more..] == data[done + more..]
  {
    assert data[done..][..more] == data[done..done + more];
    OverlayAt(file, offset, data[..done]);
    OverlayAt(file, offset, data[..done + more]);
    OverlayAt(Overlay(file, offset, data[..done]), offset + done, data[done..done + more]);
  }

  lemma {:induction false} ThreeReplays(file: seq<Byte>, events: seq<Event>, first: seq<Event>, second: seq<Event>, third: seq<Event>)
    requires events == first + second + third
    ensures Replay(file, events) == Replay(Replay(Replay(file, first), second), third)
    ensures Replay(Replay(file, first), []) == Replay(file, first)
  {
    ReplayConcat(file, first + second, third);
    ReplayConcat(file, first, second);
  }

  predicate HasRoom(w: Writer, payload: Payload)
    requires w.capacity > 0
  {
    var next := w.cursor + FrameSize(payload);
    |payload| <= MAX_RECORD_SIZE && (next <= w.capacity || Grown(w.capacity, next) >= next)
  }

  /** The writer once there is room: a file grown is one whose mapping is tried again. */
  function Roomy(w: Writer, payload: Payload): Writer
    requires w.capacity > 0
  {
    var next := w.cursor + FrameSize(payload);
    if next <= w.capacity then w else w.(capacity := Grown(w.capacity, next), mapFailed := false)
  }

  class Transport {
    const crc: Payload -> Word
    var file: seq<Byte> // what is behind the descriptor
    var capacity: nat
    var cursor: nat
    var dropped: nat
    var mapped: bool
    var mapFailed: bool

    /** `_open_output`; `mapped` is the platform's choice of back end. */
    constructor (crc: Payload -> Word, pid: nat, mapped: bool)
      ensures this.crc == crc && file == Fresh(pid) && State() == Opened(mapped)
    {
      this.crc, file := crc, Header(pid) + Zeros(INITIAL_CAPACITY - HEADER_SIZE);
      capacity, cursor, dropped, mapFailed := INITIAL_CAPACITY, HEADER_SIZE, 0, false;
      this.mapped := mapped;
    }

    ghost function State(): Writer
      reads this
    {
      Writer(capacity, cursor, dropped, mapped, mapFailed)
    }

    predicate Open()
      reads this
    {
      HEADER_SIZE <= cursor <= capacity == |file| && cursor % 8 == 0
    }

    /** `_FileOutput.write_at`: the kernel takes as many bytes as it likes, at
        least one. */
    method WriteAt(offset: nat, data: seq<Byte>)
      requires offset + |data| <= |file|
      modifies this`file
      ensures file == Replay(old(file), Puts(offset, data)) && |file| == |old(file)|
    {
      var at, rest := offset, data;
      OverlayNothing(file, offset);
      while rest != []
        invariant |file| == |old(file)| && offset <= at <= offset + |data|
        invariant rest == data[at - offset..]
        invariant file == Overlay(old(file), offset, data[..at - offset])
        decreases |rest|
      {
        var written :| 1 <= written <= |rest|;
        OverlayInTwo(old(file), offset, data, at - offset, written);
        file := Overlay(file, at, rest[..written]);
        at, rest := at + written, rest[written..];
      }
      assert data[..at - offset] == data;
      PutsOverlay(old(file), offset, data);
    }

    /** A slice assigned through the mapping. */
    method Store(offset: nat, data: seq<Byte>)
      requires offset + |data| <= |file|
      modifies this`file
      ensures file == Replay(old(file), Puts(offset, data)) && |file| == |old(file)|
    {
      PutsOverlay(file, offset, data);
      file := file[..offset] + data + file[offset + |data|..];
    }

    /** `_grow_output`: nothing changes unless the required size is reached. */
    method GrowOutput(required: nat) returns (grown: bool)
      requires Open()
      modifies this
      ensures
        var size := Grown(old(capacity), required);
        && grown == (size >= required)
        && file == (if grown then Replay(old(file), [Extend(size)] + Puts(16, Little(size, 8))) else old(file))
        && State() == (if grown then old(State()).(capacity := size, mapFailed := mapFailed) else old(State()))
        && mapFailed == (old(mapFailed) && !grown)
        && |file| == capacity
    {
      var size := capacity;
      while size < required && size < MAX_CAPACITY
        invariant size > 0 && size >= capacity && Grown(size, required) == Grown(capacity, required)
        decreases MAX_CAPACITY - size
      {
        size := if size * 2 < MAX_CAPACITY then size * 2 else MAX_CAPACITY;
      }
      if size < required {
        return false;
      }
      ReplayConcat(file, [Extend(size)], Puts(16, Little(size, 8)));
      OneEvent(file, Extend(size));
      assert file + Zeros(size - |file|) == ApplyEvent(file, Extend(size));
      file := file + Zeros(size - |file|);
      PutsOverlay(file, 16, Little(size, 8));
      mapFailed, capacity := false, size;
      Store(16, Little(size, 8));
      grown := true;
    }

    method DropRecord()
      requires Open()
      modifies this
      ensures file == Replay(old(file), Drop(old(State())).events) && State() == Drop(old(State())).writer && Open()
    {
      dropped := dropped + 1;
      Store(24, Little(dropped, 8));
    }

    /** The frame and then its commit, the whole frame by positioned writes. */
    method WriteFrame(payload: Payload)
      requires cursor + FrameSize(payload) <= |file|
      modifies this`file
      ensures file == Replay(old(file), FileStores(cursor, payload, crc) + [Put(cursor, COMMIT)]) && |file| == |old(file)|
    {
      var end := cursor + RECORD_HEADER_SIZE + |payload|;
      var frame := Zeros(4) + (Little(|payload|, 4) + Little(crc(payload), 4)) + Zeros(4) + payload;
      var padded := frame + Zeros(FrameSize(payload) - RECORD_HEADER_SIZE - |payload|);
      assert padded == Frame(0, payload, crc);
      PutsOverlay(file, cursor, padded);
      ReplayConcat(file, FileStores(cursor, payload, crc), [Put(cursor, COMMIT)]);
      WriteAt(cursor, padded);
      assert Puts(cursor, [COMMIT]) == [Put(cursor, COMMIT)];
      WriteAt(cursor, [COMMIT]);
    }

    /** The frame's parts through the mapping, and then its commit. */
    method StoreFrame(payload: Payload)
      requires cursor + FrameSize(payload) <= |file|
      modifies this`file
      ensures file == Replay(old(file), MappedStores(cursor, payload, crc) + [Put(cursor, COMMIT)]) && |file| == |old(file)|
    {
      ReplayConcat(file, MappedStores(cursor, payload, crc), [Put(cursor, COMMIT)]);
      StoreParts(payload);
      OneEvent(file, Put(cursor, COMMIT));
      file := file[cursor := COMMIT];
    }

    method StoreParts(payload: Payload)
      requires cursor + FrameSize(payload) <= |file|
      modifies this`file
      ensures file == Replay(old(file), MappedStores(cursor, payload, crc)) && |file| == |old(file)|
    {
      var body, padding := cursor + RECORD_HEADER_SIZE, Padding(payload);
      ThreeReplays(file, MappedStores(cursor, payload, crc), Puts(body, payload), Puts(body + |payload|, padding),
        Puts(cursor + 4, Fields(payload, crc)));
      Store(body, payload);
      if padding != [] {
        Store(body + |payload|, padding);
      }
      Store(cursor + 4, Little(|payload|, 4) + Little(crc(payload), 4));
    }

    /** `_write_payload`: stores what `Write` says, and becomes the writer it says. */
    method WritePayload(payload: Payload, mapFails: bool) returns (accepted: bool)
      requires Open()
      modifies this
      ensures
        var written := Write(old(State()), payload, mapFails, crc);
        && file == Replay(old(file), written.events)
        && State() == written.writer
        && accepted == written.accepted && Open()
      ensures IsCapacity(old(capacity)) ==> IsCapacity(capacity) && (accepted <==> IsKept(old(cursor), payload))
    {
      ghost var before, was := file, State();
      if IsCapacity(capacity) {
        KeptExactly(was, payload, mapFails, crc);
      }
      var room := MakeRoom(payload);
      if !room {
        DropRecord();
        return false;
      }
      PlaceFrame(payload, mapFails);
      accepted := true;
      Combined(before, was, payload, mapFails, crc, file, State(), mapped);
    }

    /** Whether there is room for the payload, grown if it must be. */
    method MakeRoom(payload: Payload) returns (room: bool)
      requires Open()
      modifies this
      ensures Open() && room == HasRoom(old(State()), payload)
      ensures room ==> file == Replay(old(file), Growth(old(State()), payload)) && State() == Roomy(old(State()), payload)
      ensures !room ==> file == old(file) && State() == old(State())
    {
      if |payload| > MAX_RECORD_SIZE {
        return false;
      }
      var end := cursor + RECORD_HEADER_SIZE + |payload|;
      var next := Align(end);
      AlignShifts(cursor, RECORD_HEADER_SIZE + |payload|);
      room := true;
      if next > capacity {
        room := GrowOutput(next);
      }
    }

    /** Whether this write is the one that switches to a mapping. */
    ghost predicate Switches(mapFails: bool, next: nat)
      reads this
    {
      !mapped && !mapFailed && next > MAP_AFTER_BYTES && !mapFails
    }

    /** The part of `_write_payload` after the room is there. */
    method PlaceFrame(payload: Payload, mapFails: bool)
      requires Open() && cursor + FrameSize(payload) <= capacity
      modifies this
      ensures
        var next := old(cursor) + FrameSize(payload);
        var tries := !old(mapped) && !old(mapFailed) && next > MAP_AFTER_BYTES;
        && mapped == (old(mapped) || old(Switches(mapFails, next)))
        && mapFailed == (old(mapFailed) || (tries && mapFails))
        && cursor == next && capacity == old(capacity) && dropped == old(dropped)
        && file == Replay(old(file), Stores(old(State()), payload, mapped, crc) + [Put(old(cursor), COMMIT)])
        && Open()
    {
      var next := cursor + FrameSize(payload);
      if !mapped && !mapFailed && next > MAP_AFTER_BYTES {
        if mapFails {
          mapFailed := true;
        } else {
          mapped := true;
        }
      }
      if mapped {
        StoreFrame(payload);
      } else {
        WriteFrame(payload);
      }
      cursor := next;
    }
  }

  /** Growth and then the frame are what one write stores. */
  lemma {:induction false} Combined(
    file: seq<Byte>, w: Writer, payload: Payload, mapFails: bool, crc: Payload -> Word, after: seq<Byte>, writer: Writer,
    mapped: bool)
    requires w.capacity > 0 && |payload| <= MAX_RECORD_SIZE
    requires writer == Write(w, payload, mapFails, crc).writer && Write(w, payload, mapFails, crc).accepted
    requires mapped == writer.mapped
    requires after == Replay(Replay(file, Growth(w, payload)), Stores(w, payload, mapped, crc) + [Put(w.cursor, COMMIT)])
    ensures after == Replay(file, Write(w, payload, mapFails, crc).events)
  {
    Associated(file, Growth(w, payload), Stores(w, payload, mapped, crc), [Put(w.cursor, COMMIT)]);
  }

  lemma {:induction false} Associated(file: seq<Byte>, growth: seq<Event>, stores: seq<Event>, commit: seq<Event>)
    ensures Replay(file, growth + stores + commit) == Replay(Replay(file, growth), stores + commit)
  {
    assert growth + stores + commit == growth + (stores + commit);
    ReplayConcat(file, growth, stores + commit);
  }
}
