/** Load-time repair of one file's plan: insertions spliced into a source, and,
    computed apart from that, where each position of the source lands. */
module LoadTime {

  type Byte = b: nat | b < 0x100
  const NEWLINE: Byte := 10

  datatype Rank = Statement | Opener | Closer
  datatype Edit = Edit(offset: nat, text: seq<Byte>, rank: Rank, scope: nat)

  // -- lines ---------------------------------------------------------------------------

  /** Where lines start after the newlines of a piece that begins at `base`. */
  function Breaks(piece: seq<Byte>, base: nat): seq<nat> {
    if piece == [] then []
    else (if piece[0] == NEWLINE then [base + 1] else []) + Breaks(piece[1..], base + 1)
  }

  function LineStarts(source: seq<Byte>): (starts: seq<nat>)
    ensures |starts| > 0
  {
    [0] + Breaks(source, 0)
  }

  lemma {:induction false} BreaksConcat(first: seq<Byte>, second: seq<Byte>, base: nat)
    ensures Breaks(first + second, base) == Breaks(first, base) + Breaks(second, base + |first|)
    decreases |first|
  {
    if first == [] {
      assert first + second == second;
    } else {
      var head, rest := if first[0] == NEWLINE then [base + 1] else [], first[1..];
      assert (first + second)[1..] == rest + second;
      BreaksConcat(rest, second, base + 1);
      var mine, others := Breaks(rest, base + 1), Breaks(second, base + |first|);
      assert Breaks(first + second, base) == head + (mine + others);
      assert head + (mine + others) == (head + mine) + others;
    }
  }

  predicate OneLine(text: seq<Byte>) {
    forall i | 0 <= i < |text| :: text[i] != NEWLINE
  }

  lemma {:induction false} OneLineHasNoBreaks(text: seq<Byte>, base: nat)
    requires OneLine(text)
    ensures Breaks(text, base) == []
    decreases |text|
  {
    if text != [] {
      OneLineHasNoBreaks(text[1..], base + 1);
    }
  }

  ghost predicate Ascending(s: seq<nat>) {
    forall i, j | 0 <= i < j < |s| :: s[i] < s[j]
  }

  lemma {:induction false} BreaksAscend(piece: seq<Byte>, base: nat)
    ensures Ascending(Breaks(piece, base))
    ensures forall i | 0 <= i < |Breaks(piece, base)| :: base < Breaks(piece, base)[i] <= base + |piece|
    decreases |piece|
  {
    if piece != [] {
      BreaksAscend(piece[1..], base + 1);
    }
  }

  /** Lines start at 0 and then in order, inside the source. */
  lemma {:induction false} StartsAscend(source: seq<Byte>)
    ensures var starts := LineStarts(source);
      starts[0] == 0 && Ascending(starts) && forall i | 0 <= i < |starts| :: starts[i] <= |source|
  {
    BreaksAscend(source, 0);
  }

  lemma {:induction false} InEither(n: nat, first: seq<nat>, second: seq<nat>)
    ensures n in first + second <==> n in first || n in second
  {
  }

  /** Whether a newline is just before `n`, in a piece that begins at `base`. */
  predicate EndsBefore(piece: seq<Byte>, base: nat, n: nat) {
    base < n <= base + |piece| && piece[n - base - 1] == 10
  }

  lemma {:induction false} EndsInRest(piece: seq<Byte>, base: nat, n: nat)
    requires piece != []
    ensures EndsBefore(piece, base, n) <==> (n == base + 1 && piece[0] == 10) || EndsBefore(piece[1..], base + 1, n)
  {
  }

  lemma {:induction false} BreaksAreExact(piece: seq<Byte>, base: nat, n: nat)
    ensures n in Breaks(piece, base) <==> EndsBefore(piece, base, n)
    decreases |piece|
  {
    if piece != [] {
      BreaksAreExact(piece[1..], base + 1, n);
      InEither(n, if piece[0] == NEWLINE then [base + 1] else [], Breaks(piece[1..], base + 1));
      EndsInRest(piece, base, n);
    }
  }

  /** A line starts at 0 and after every newline, and nowhere else. */
  lemma {:induction false} StartsAreExact(source: seq<Byte>, n: nat)
    ensures n in LineStarts(source) <==> n == 0 || (n <= |source| && source[n - 1] == 10)
  {
    BreaksAreExact(source, 0, n);
  }

  /** The line an offset is on, counted from 1. */
  predicate OnLine(starts: seq<nat>, offset: nat, line: nat) {
    1 <= line <= |starts| && starts[line - 1] <= offset && (line < |starts| ==> offset < starts[line])
  }

  lemma {:induction false} OneLineOnly(starts: seq<nat>, offset: nat, line: nat, other: nat)
    requires Ascending(starts) && OnLine(starts, offset, line) && OnLine(starts, offset, other)
    ensures line == other
  {
    LinesAround(starts, offset, line);
    LinesAround(starts, offset, other);
  }

  lemma {:induction false} LinesAround(starts: seq<nat>, offset: nat, line: nat)
    requires Ascending(starts) && OnLine(starts, offset, line)
    ensures forall k | 0 <= k < line :: starts[k] <= offset
    ensures forall k | line <= k < |starts| :: offset < starts[k]
  {
  }

  method FindLineStarts(source: seq<Byte>) returns (starts: seq<nat>)
    ensures starts == LineStarts(source)
  {
    starts := [0];
    var index := 0;
    while index < |source|
      invariant index <= |source| && starts == LineStarts(source[..index])
    {
      BreaksConcat(source[..index], [source[index]], 0);
      assert source[..index] + [source[index]] == source[..index + 1];
      assert Breaks([source[index]], index) == if source[index] == NEWLINE then [index + 1] else [];
      if source[index] == NEWLINE {
        starts := starts + [index + 1];
      }
      index := index + 1;
    }
    assert source[..index] == source;
  }

  /** `line_of`, by bisection. */
  method LineOf(starts: seq<nat>, offset: nat) returns (line: nat)
    requires |starts| > 0 && starts[0] == 0 && Ascending(starts)
    ensures OnLine(starts, offset, line)
  {
    var low, high := 0, |starts| - 1;
    while low < high
      invariant 0 <= low <= high < |starts|
      invariant starts[low] <= offset
      invariant forall i | high < i < |starts| :: offset < starts[i]
    {
      var middle := (low + high + 1) / 2;
      if starts[middle] <= offset {
        low := middle;
      } else {
        high := middle - 1;
        assert forall i | high < i < |starts| :: starts[middle] <= starts[i];
      }
    }
    line := low + 1;
  }

  // -- splicing --------------------------------------------------------------------------

  /** Edits in order, in the source, and each on one line. */
  ghost predicate Applicable(source: seq<Byte>, edits: seq<Edit>, cursor: nat) {
    && cursor <= |source|
    && (forall i | 0 <= i < |edits| :: cursor <= edits[i].offset <= |source| && OneLine(edits[i].text))
    && forall i, j | 0 <= i < j < |edits| :: edits[i].offset <= edits[j].offset
  }

  /** The source from `cursor` on with the edits in place. */
  function Spliced(source: seq<Byte>, edits: seq<Edit>, cursor: nat): seq<Byte>
    requires Applicable(source, edits, cursor)
    decreases |edits|
  {
    if edits == [] then source[cursor..]
    else source[cursor..edits[0].offset] + edits[0].text + Spliced(source, edits[1..], edits[0].offset)
  }

  /** `apply_edits`. */
  method ApplyEdits(source: seq<Byte>, edits: seq<Edit>) returns (out: seq<Byte>)
    requires Applicable(source, edits, 0)
    ensures out == Spliced(source, edits, 0)
  {
    if edits == [] {
      return source;
    }
    var pieces, cursor: nat, i := [], 0, 0;
    while i < |edits|
      invariant i <= |edits| && Applicable(source, edits[i..], cursor)
      invariant Joined(pieces) + Spliced(source, edits[i..], cursor) == Spliced(source, edits, 0)
    {
      var edit := edits[i];
      assert edits[i..][1..] == edits[i + 1..] && edits[i..][0] == edit;
      OnePlaced(source, edits[i..], cursor, pieces);
      pieces := pieces + [source[cursor..edit.offset]] + [edit.text];
      cursor := edit.offset;
      i := i + 1;
    }
    JoinedOne(pieces, source[cursor..]);
    out := Joined(pieces + [source[cursor..]]);
  }

  /** One turn of the loop: a piece of the source, and the text of an edit. */
  lemma {:induction false} OnePlaced(source: seq<Byte>, edits: seq<Edit>, cursor: nat, pieces: seq<seq<Byte>>)
    requires Applicable(source, edits, cursor) && edits != []
    ensures Applicable(source, edits[1..], edits[0].offset)
    ensures Joined(pieces + [source[cursor..edits[0].offset]] + [edits[0].text]) + Spliced(source, edits[1..], edits[0].offset)
         == Joined(pieces) + Spliced(source, edits, cursor)
  {
    var kept, text, rest := source[cursor..edits[0].offset], edits[0].text, Spliced(source, edits[1..], edits[0].offset);
    JoinedTwo(pieces, kept, text);
    FourParts(Joined(pieces), kept, text, rest);
  }

  lemma {:induction false} FourParts(a: seq<Byte>, b: seq<Byte>, c: seq<Byte>, d: seq<Byte>)
    ensures a + (b + c + d) == a + b + c + d
  {
  }

  function Joined(pieces: seq<seq<Byte>>): seq<Byte> {
    if pieces == [] then [] else Joined(pieces[..|pieces| - 1]) + pieces[|pieces| - 1]
  }

  lemma {:induction false} JoinedOne(pieces: seq<seq<Byte>>, piece: seq<Byte>)
    ensures Joined(pieces + [piece]) == Joined(pieces) + piece
  {
    assert (pieces + [piece])[..|pieces|] == pieces;
  }

  lemma {:induction false} JoinedTwo(pieces: seq<seq<Byte>>, first: seq<Byte>, second: seq<Byte>)
    ensures Joined(pieces + [first] + [second]) == Joined(pieces) + first + second
  {
    JoinedOne(pieces, first);
    JoinedOne(pieces + [first], second);
  }

  /** The insertions cut out again. */
  function Erased(out: seq<Byte>, edits: seq<Edit>, cursor: nat): seq<Byte>
    decreases |edits|
  {
    if edits == [] then out
    else
      var kept := if cursor <= edits[0].offset then edits[0].offset - cursor else 0;
      var skip := kept + |edits[0].text|;
      if skip > |out| then out else out[..kept] + Erased(out[skip..], edits[1..], edits[0].offset)
  }

  /** No byte of the source is lost, moved or doubled. */
  lemma {:induction false} ErasingRestores(source: seq<Byte>, edits: seq<Edit>, cursor: nat)
    requires Applicable(source, edits, cursor)
    ensures Erased(Spliced(source, edits, cursor), edits, cursor) == source[cursor..]
    decreases |edits|
  {
    if edits != [] {
      var offset, text := edits[0].offset, edits[0].text;
      var rest := Spliced(source, edits[1..], offset);
      ErasingRestores(source, edits[1..], offset);
      FirstErased(source[cursor..offset], text, rest, edits, cursor);
      Rejoined(source, cursor, offset);
    }
  }

  lemma {:induction false} FirstErased(kept: seq<Byte>, text: seq<Byte>, rest: seq<Byte>, edits: seq<Edit>, cursor: nat)
    requires edits != [] && text == edits[0].text && cursor + |kept| == edits[0].offset
    ensures Erased(kept + text + rest, edits, cursor) == kept + Erased(rest, edits[1..], edits[0].offset)
  {
    ThreeParts(kept, text, rest);
  }

  lemma {:induction false} ThreeParts(kept: seq<Byte>, text: seq<Byte>, rest: seq<Byte>)
    ensures var out := kept + text + rest;
      out[..|kept|] == kept && out[|kept| + |text|..] == rest
  {
  }

  lemma {:induction false} Rejoined(source: seq<Byte>, cursor: nat, offset: nat)
    requires cursor <= offset <= |source|
    ensures source[cursor..offset] + source[offset..] == source[cursor..]
  {
  }

  // -- how far things move -----------------------------------------------------------------

  /** The bytes of the edits that `moves` picks. */
  function Bytes(edits: seq<Edit>, moves: Edit -> bool): nat {
    if edits == [] then 0
    else (if moves(edits[0]) then |edits[0].text| else 0) + Bytes(edits[1..], moves)
  }

  function Before(edits: seq<Edit>, offset: nat): nat {
    Bytes(edits, EarlierThan(offset))
  }

  function EarlierThan(offset: nat): Edit -> bool {
    (edit: Edit) => edit.offset < offset
  }

  lemma {:induction false} BytesAgree(edits: seq<Edit>, f: Edit -> bool, g: Edit -> bool)
    requires forall i | 0 <= i < |edits| :: f(edits[i]) == g(edits[i])
    ensures Bytes(edits, f) == Bytes(edits, g)
  {
    if edits != [] {
      assert f(edits[0]) == g(edits[0]);
      assert forall i | 0 <= i < |edits[1..]| :: edits[1..][i] == edits[i + 1];
      BytesAgree(edits[1..], f, g);
    }
  }

  lemma {:induction false} BytesGrow(edits: seq<Edit>, f: Edit -> bool, g: Edit -> bool)
    requires forall i | 0 <= i < |edits| && f(edits[i]) :: g(edits[i])
    ensures Bytes(edits, f) <= Bytes(edits, g)
  {
    if edits != [] {
      assert f(edits[0]) ==> g(edits[0]);
      assert forall i | 0 <= i < |edits[1..]| :: edits[1..][i] == edits[i + 1];
      BytesGrow(edits[1..], f, g);
    }
  }

  lemma {:induction false} BytesSplit(edits: seq<Edit>, f: Edit -> bool, g: Edit -> bool, h: Edit -> bool)
    requires forall i | 0 <= i < |edits| :: f(edits[i]) == (g(edits[i]) || h(edits[i])) && !(g(edits[i]) && h(edits[i]))
    ensures Bytes(edits, f) == Bytes(edits, g) + Bytes(edits, h)
  {
    if edits != [] {
      assert f(edits[0]) == (g(edits[0]) || h(edits[0])) && !(g(edits[0]) && h(edits[0]));
      assert forall i | 0 <= i < |edits[1..]| :: edits[1..][i] == edits[i + 1];
      BytesSplit(edits[1..], f, g, h);
    }
  }

  lemma {:induction false} BytesOfNone(edits: seq<Edit>, f: Edit -> bool)
    requires forall i | 0 <= i < |edits| :: !f(edits[i])
    ensures Bytes(edits, f) == 0
  {
    if edits != [] {
      assert !f(edits[0]);
      assert forall i | 0 <= i < |edits[1..]| :: edits[1..][i] == edits[i + 1];
      BytesOfNone(edits[1..], f);
    }
  }

  // -- where lines start in the output ---------------------------------------------------------

  function Moved(offsets: seq<nat>, added: nat, edits: seq<Edit>): (moved: seq<nat>)
    ensures |moved| == |offsets|
    ensures forall i | 0 <= i < |moved| :: moved[i] == offsets[i] + added + Before(edits, offsets[i])
  {
    if offsets == [] then [] else [offsets[0] + added + Before(edits, offsets[0])] + Moved(offsets[1..], added, edits)
  }

  lemma {:induction false} BreaksShift(piece: seq<Byte>, base: nat, added: nat)
    ensures |Breaks(piece, base + added)| == |Breaks(piece, base)|
    ensures forall i | 0 <= i < |Breaks(piece, base)| :: Breaks(piece, base + added)[i] == Breaks(piece, base)[i] + added
    decreases |piece|
  {
    if piece != [] {
      BreaksShift(piece[1..], base + 1, added);
      var rest, moved := Breaks(piece[1..], base + 1), Breaks(piece[1..], base + 1 + added);
      assert Breaks(piece, base + added) == (if piece[0] == NEWLINE then [base + 1 + added] else []) + moved;
      assert Breaks(piece, base) == (if piece[0] == NEWLINE then [base + 1] else []) + rest;
    }
  }

  lemma {:induction false} BeforeFirst(edits: seq<Edit>, offset: nat)
    requires forall i | 0 <= i < |edits| :: offset <= edits[i].offset
    ensures Before(edits, offset) == 0
  {
    BytesOfNone(edits, EarlierThan(offset));
  }

  lemma {:induction false} NoEditsMove(piece: seq<Byte>, cursor: nat, added: nat)
    ensures Breaks(piece, cursor + added) == Moved(Breaks(piece, cursor), added, [])
  {
    BreaksShift(piece, cursor, added);
  }

  lemma {:induction false} BreaksOfSpliced(source: seq<Byte>, edits: seq<Edit>, cursor: nat, added: nat)
    requires Applicable(source, edits, cursor)
    ensures Breaks(Spliced(source, edits, cursor), cursor + added) == Moved(Breaks(source[cursor..], cursor), added, edits)
    decreases |edits|
  {
    if edits == [] {
      NoEditsMove(source[cursor..], cursor, added);
    } else {
      BreaksOfSpliced(source, edits[1..], edits[0].offset, added + |edits[0].text|);
      FirstEditSpliced(source, edits, cursor, added, Spliced(source, edits[1..], edits[0].offset));
    }
  }

  lemma {:induction false} FirstEditSpliced(source: seq<Byte>, edits: seq<Edit>, cursor: nat, added: nat, rest: seq<Byte>)
    requires edits != [] && Applicable(source, edits, cursor)
    requires var offset, more := edits[0].offset, added + |edits[0].text|;
      Breaks(rest, offset + more) == Moved(Breaks(source[offset..], offset), more, edits[1..])
    ensures Breaks(source[cursor..edits[0].offset] + edits[0].text + rest, cursor + added)
         == Moved(Breaks(source[cursor..], cursor), added, edits)
  {
    Rejoined(source, cursor, edits[0].offset);
    OneEditSpliced(source[cursor..edits[0].offset], rest, source[edits[0].offset..], cursor, added, edits);
  }

  ghost predicate ByOffset(edits: seq<Edit>) {
    forall i, j | 0 <= i < j < |edits| :: edits[i].offset <= edits[j].offset
  }

  lemma {:induction false} OneEditSpliced(kept: seq<Byte>, rest: seq<Byte>, tail: seq<Byte>, cursor: nat, added: nat, edits: seq<Edit>)
    requires edits != [] && ByOffset(edits)
    requires OneLine(edits[0].text) && cursor + |kept| == edits[0].offset
    requires var more := added + |edits[0].text|;
      Breaks(rest, edits[0].offset + more) == Moved(Breaks(tail, edits[0].offset), more, edits[1..])
    ensures Breaks(kept + edits[0].text + rest, cursor + added) == Moved(Breaks(kept + tail, cursor), added, edits)
  {
    BreaksConcat(kept, tail, cursor);
    BreaksOfThree(kept, edits[0].text, rest, cursor + added);
    BothMoved(kept, tail, cursor, added, edits);
  }

  /** The lines of the kept piece move by what was added, and the rest by the
      first edit too. */
  lemma {:induction false} BothMoved(kept: seq<Byte>, tail: seq<Byte>, cursor: nat, added: nat, edits: seq<Edit>)
    requires edits != [] && ByOffset(edits) && cursor + |kept| == edits[0].offset
    ensures Moved(Breaks(kept, cursor) + Breaks(tail, edits[0].offset), added, edits)
         == Breaks(kept, cursor + added) + Moved(Breaks(tail, edits[0].offset), added + |edits[0].text|, edits[1..])
  {
    KeptBreaks(kept, cursor, added, edits);
    BreaksAscend(tail, edits[0].offset);
    SecondPart(Breaks(tail, edits[0].offset), added, edits);
    MovedConcat(Breaks(kept, cursor), Breaks(tail, edits[0].offset), added, edits);
  }

  lemma {:induction false} BreaksOfThree(kept: seq<Byte>, text: seq<Byte>, rest: seq<Byte>, at: nat)
    requires OneLine(text)
    ensures Breaks(kept + text + rest, at) == Breaks(kept, at) + Breaks(rest, at + |kept| + |text|)
  {
    BreaksConcat(kept + text, rest, at);
    BreaksConcat(kept, text, at);
    OneLineHasNoBreaks(text, at + |kept|);
  }

  lemma {:induction false} KeptBreaks(kept: seq<Byte>, cursor: nat, added: nat, edits: seq<Edit>)
    requires edits != [] && ByOffset(edits) && cursor + |kept| <= edits[0].offset
    ensures Breaks(kept, cursor + added) == Moved(Breaks(kept, cursor), added, edits)
  {
    BreaksShift(kept, cursor, added);
    BreaksAscend(kept, cursor);
    FirstPart(Breaks(kept, cursor), added, edits);
  }

  lemma {:induction false} FirstPart(offsets: seq<nat>, added: nat, edits: seq<Edit>)
    requires edits != [] && ByOffset(edits)
    requires forall i | 0 <= i < |offsets| :: offsets[i] <= edits[0].offset
    ensures forall i | 0 <= i < |offsets| :: Moved(offsets, added, edits)[i] == offsets[i] + added
  {
    forall i | 0 <= i < |offsets|
      ensures Before(edits, offsets[i]) == 0
    {
      BeforeFirst(edits, offsets[i]);
    }
  }

  lemma {:induction false} SecondPart(offsets: seq<nat>, added: nat, edits: seq<Edit>)
    requires edits != [] && forall i | 0 <= i < |offsets| :: offsets[i] > edits[0].offset
    ensures Moved(offsets, added, edits) == Moved(offsets, added + |edits[0].text|, edits[1..])
  {
  }

  lemma {:induction false} MovedConcat(first: seq<nat>, second: seq<nat>, added: nat, edits: seq<Edit>)
    ensures Moved(first + second, added, edits) == Moved(first, added, edits) + Moved(second, added, edits)
    decreases |first|
  {
    if first == [] {
      assert first + second == second;
    } else {
      assert (first + second)[1..] == first[1..] + second;
      MovedConcat(first[1..], second, added, edits);
    }
  }

  /** A line of the output starts where it started, plus the bytes of the edits
      before it; so every line keeps its number. */
  lemma {:induction false} LinesOfSpliced(source: seq<Byte>, edits: seq<Edit>)
    requires Applicable(source, edits, 0)
    ensures var starts, out := LineStarts(source), LineStarts(Spliced(source, edits, 0));
      |out| == |starts| && forall i | 0 <= i < |starts| :: out[i] == starts[i] + Before(edits, starts[i])
  {
    BreaksOfSpliced(source, edits, 0, 0);
    assert source[0..] == source;
    BeforeFirst(edits, 0);
  }

  // -- where bytes land ---------------------------------------------------------------------------

  /** The offset in the output of a source byte: after the edits at it too. */
  function Landing(edits: seq<Edit>, offset: nat): nat {
    offset + Before(edits, offset + 1)
  }

  lemma {:induction false} ByteLands(source: seq<Byte>, edits: seq<Edit>, cursor: nat, offset: nat)
    requires Applicable(source, edits, cursor) && cursor <= offset < |source|
    ensures var out := Spliced(source, edits, cursor);
      Landing(edits, offset) - cursor < |out| && out[Landing(edits, offset) - cursor] == source[offset]
    decreases |edits|
  {
    if edits != [] {
      var at, text := edits[0].offset, edits[0].text;
      if offset < at {
        BeforeFirst(edits, offset + 1);
        InFirst(source[cursor..at], text, Spliced(source, edits[1..], at), offset - cursor);
      } else {
        ByteLands(source, edits[1..], at, offset);
        LandsInRest(source[cursor..at], Spliced(source, edits[1..], at), edits, cursor, offset, source[offset]);
      }
    }
  }

  lemma {:induction false} LandsInRest(kept: seq<Byte>, rest: seq<Byte>, edits: seq<Edit>, cursor: nat, offset: nat, byte: Byte)
    requires edits != [] && edits[0].offset <= offset && cursor + |kept| == edits[0].offset
    requires var at := Landing(edits[1..], offset) - edits[0].offset; at < |rest| && rest[at] == byte
    ensures var out, at := kept + edits[0].text + rest, Landing(edits, offset) - cursor;
      0 <= at < |out| && out[at] == byte
  {
    PastFirst(edits, offset);
    InLast(kept, edits[0].text, rest, Landing(edits[1..], offset) - edits[0].offset);
  }

  lemma {:induction false} PastFirst(edits: seq<Edit>, offset: nat)
    requires edits != [] && edits[0].offset <= offset
    ensures Landing(edits, offset) == Landing(edits[1..], offset) + |edits[0].text|
  {
  }

  lemma {:induction false} InFirst(first: seq<Byte>, second: seq<Byte>, third: seq<Byte>, i: nat)
    requires i < |first|
    ensures (first + second + third)[i] == first[i]
  {
  }

  lemma {:induction false} InLast(first: seq<Byte>, second: seq<Byte>, third: seq<Byte>, i: nat)
    requires i < |third|
    ensures (first + second + third)[|first| + |second| + i] == third[i]
  {
  }

  lemma {:induction false} BeforeGrows(edits: seq<Edit>, first: nat, second: nat)
    requires first <= second
    ensures Before(edits, first) <= Before(edits, second)
  {
    BytesGrow(edits, EarlierThan(first), EarlierThan(second));
  }

  /** And the byte is on the line it was on. */
  lemma {:induction false} LandsOnItsLine(source: seq<Byte>, edits: seq<Edit>, offset: nat, line: nat)
    requires Applicable(source, edits, 0) && OnLine(LineStarts(source), offset, line)
    ensures OnLine(LineStarts(Spliced(source, edits, 0)), Landing(edits, offset), line)
  {
    var starts := LineStarts(source);
    LinesOfSpliced(source, edits);
    BeforeGrows(edits, starts[line - 1], offset + 1);
    if line < |starts| {
      BeforeGrows(edits, offset + 1, starts[line]);
    }
  }

  // -- spans --------------------------------------------------------------------------------------

  datatype Kind = Point | List | Other
  datatype Position = Position(line: nat, column: nat)
  datatype Span = Span(start: Position, end: Position)

  /** Whether an edit moves a span's start, the span being from `start` to `end`. */
  predicate MovesStart(edit: Edit, kind: Kind, start: nat, end: nat) {
    edit.offset < start
    || (edit.offset == start
        && if kind.Point? then true
           else if edit.rank.Closer? then false
           else if kind.List? then end < edit.scope
           else if edit.rank.Opener? then end <= edit.scope
           else true)
  }

  predicate MovesEnd(edit: Edit, kind: Kind, start: nat, end: nat) {
    edit.offset < end
    || (edit.offset == end
        && if kind.Point? then true
           else if edit.rank.Closer? && kind.List? then edit.scope >= start
           else if edit.rank.Closer? then edit.scope > start
           else false)
  }

  function OnLines(edits: seq<Edit>, starts: seq<nat>, line: nat): seq<Edit>
    requires |starts| > 0
  {
    if edits == [] then []
    else
      var last := edits[|edits| - 1];
      OnLines(edits[..|edits| - 1], starts, line) + (if OnLine(starts, last.offset, line) then [last] else [])
  }

  function StartMover(kind: Kind, start: nat, end: nat): Edit -> bool {
    (edit: Edit) => MovesStart(edit, kind, start, end)
  }

  function EndMover(kind: Kind, start: nat, end: nat): Edit -> bool {
    (edit: Edit) => MovesEnd(edit, kind, start, end)
  }

  datatype Index = Index(starts: seq<nat>, byLine: map<nat, seq<Edit>>)

  ghost predicate Indexed(index: Index, starts: seq<nat>, edits: seq<Edit>)
    requires |starts| > 0
  {
    && index.starts == starts
    && forall line: nat ::
         OnLines(edits, starts, line) == if line in index.byLine then index.byLine[line] else []
  }

  lemma {:induction false} OneIndexed(starts: seq<nat>, byLine: map<nat, seq<Edit>>, edits: seq<Edit>, i: nat, line: nat)
    requires |starts| > 0 && Ascending(starts) && i < |edits| && OnLine(starts, edits[i].offset, line)
    requires Indexed(Index(starts, byLine), starts, edits[..i])
    ensures var before := if line in byLine then byLine[line] else [];
      Indexed(Index(starts, byLine[line := before + [edits[i]]]), starts, edits[..i + 1])
  {
    var before := if line in byLine then byLine[line] else [];
    var more, all := byLine[line := before + [edits[i]]], edits[..i + 1];
    assert all[..i] == edits[..i];
    forall other: nat
      ensures OnLines(all, starts, other) == if other in more then more[other] else []
    {
      assert OnLines(edits[..i], starts, other) == if other in byLine then byLine[other] else [];
      if OnLine(starts, edits[i].offset, other) {
        OneLineOnly(starts, edits[i].offset, line, other);
      }
    }
  }

  /** `index_edits`. */
  method IndexEdits(source: seq<Byte>, edits: seq<Edit>) returns (index: Index)
    ensures Indexed(index, LineStarts(source), edits)
  {
    var starts := FindLineStarts(source);
    StartsAscend(source);
    var byLine: map<nat, seq<Edit>> := map[];
    var i := 0;
    while i < |edits|
      invariant i <= |edits| && Indexed(Index(starts, byLine), starts, edits[..i])
    {
      var line := LineOf(starts, edits[i].offset);
      var before := if line in byLine then byLine[line] else [];
      var more := byLine[line := before + [edits[i]]];
      OneIndexed(starts, byLine, edits, i, line);
      byLine := more;
      i := i + 1;
    }
    assert edits[..|edits|] == edits;
    index := Index(starts, byLine);
  }

  function Offset(starts: seq<nat>, position: Position): nat
    requires 1 <= position.line <= |starts|
  {
    starts[position.line - 1] + position.column
  }

  /** A position on a line the source has. */
  ghost predicate Within(starts: seq<nat>, position: Position) {
    1 <= position.line <= |starts| && OnLine(starts, Offset(starts, position), position.line)
  }

  function StartShift(span: Span, kind: Kind, starts: seq<nat>, edits: seq<Edit>): nat
    requires 1 <= span.start.line <= |starts| && 1 <= span.end.line <= |starts|
  {
    Bytes(edits, StartMover(kind, Offset(starts, span.start), Offset(starts, span.end)))
  }

  function EndShift(span: Span, kind: Kind, starts: seq<nat>, edits: seq<Edit>): nat
    requires 1 <= span.start.line <= |starts| && 1 <= span.end.line <= |starts|
  {
    Bytes(edits, EndMover(kind, Offset(starts, span.start), Offset(starts, span.end)))
  }

  function EditsOn(index: Index, line: nat): seq<Edit> {
    if line in index.byLine then index.byLine[line] else []
  }

  /** `shift`: each end moves by the edits of its own line that move it. */
  method Shift(span: Span, kind: Kind, index: Index) returns (shifted: Span)
    requires 1 <= span.start.line <= |index.starts| && 1 <= span.end.line <= |index.starts|
    ensures shifted.start.line == span.start.line && shifted.end.line == span.end.line
    ensures shifted.start.column
      == span.start.column + StartShift(span, kind, index.starts, EditsOn(index, span.start.line))
    ensures shifted.end.column == span.end.column + EndShift(span, kind, index.starts, EditsOn(index, span.end.line))
  {
    var start, end := Offset(index.starts, span.start), Offset(index.starts, span.end);
    var startShift, endShift, i := 0, 0, 0;
    var edits := EditsOn(index, span.start.line);
    while i < |edits|
      invariant i <= |edits|
      invariant startShift + StartShift(span, kind, index.starts, edits[i..]) == StartShift(span, kind, index.starts, edits)
    {
      assert edits[i..][1..] == edits[i + 1..];
      if MovesStart(edits[i], kind, start, end) {
        startShift := startShift + |edits[i].text|;
      }
      i := i + 1;
    }
    edits, i := EditsOn(index, span.end.line), 0;
    while i < |edits|
      invariant i <= |edits|
      invariant endShift + EndShift(span, kind, index.starts, edits[i..]) == EndShift(span, kind, index.starts, edits)
    {
      assert edits[i..][1..] == edits[i + 1..];
      if MovesEnd(edits[i], kind, start, end) {
        endShift := endShift + |edits[i].text|;
      }
      i := i + 1;
    }
    shifted := Span(Position(span.start.line, span.start.column + startShift), Position(span.end.line, span.end.column + endShift));
  }

  // -- the two computations agree --------------------------------------------------------------

  lemma {:induction false} BytesOfLine(edits: seq<Edit>, starts: seq<nat>, line: nat, moves: Edit -> bool)
    requires |starts| > 0
    ensures Bytes(OnLines(edits, starts, line), moves)
         == Bytes(edits, (edit: Edit) => moves(edit) && OnLine(starts, edit.offset, line))
  {
    if edits != [] {
      var last, before := edits[|edits| - 1], edits[..|edits| - 1];
      var on := (edit: Edit) => moves(edit) && OnLine(starts, edit.offset, line);
      BytesOfLine(before, starts, line, moves);
      BytesOfLast(edits, on);
      var listed := OnLines(edits, starts, line);
      if OnLine(starts, last.offset, line) {
        BytesOfLast(listed, moves);
        assert listed[..|listed| - 1] == OnLines(before, starts, line);
      } else {
        assert listed == OnLines(before, starts, line);
      }
    }
  }

  lemma {:induction false} BytesOfLast(edits: seq<Edit>, moves: Edit -> bool)
    requires edits != []
    ensures var last := edits[|edits| - 1];
      Bytes(edits, moves) == Bytes(edits[..|edits| - 1], moves) + (if moves(last) then |last.text| else 0)
    decreases |edits|
  {
    if |edits| > 1 {
      BytesOfLast(edits[1..], moves);
      assert edits[1..][..|edits| - 2] == edits[..|edits| - 1][1..];
    }
  }

  /** Of the edits that move an offset, those on its line and those on earlier
      lines, which are the ones before its line's start. */
  lemma {:induction false} LineAndBefore(edits: seq<Edit>, starts: seq<nat>, offset: nat, line: nat, moves: Edit -> bool)
    requires |starts| > 0 && starts[0] == 0 && Ascending(starts) && OnLine(starts, offset, line)
    requires forall i | 0 <= i < |edits| ::
      (edits[i].offset < offset ==> moves(edits[i])) && (moves(edits[i]) ==> edits[i].offset <= offset)
    ensures Before(edits, starts[line - 1]) + Bytes(OnLines(edits, starts, line), moves) == Bytes(edits, moves)
  {
    var earlier := EarlierThan(starts[line - 1]);
    var on := (edit: Edit) => moves(edit) && OnLine(starts, edit.offset, line);
    BytesOfLine(edits, starts, line, moves);
    forall i | 0 <= i < |edits|
      ensures moves(edits[i]) == (earlier(edits[i]) || on(edits[i])) && !(earlier(edits[i]) && on(edits[i]))
    {
    }
    BytesSplit(edits, moves, earlier, on);
  }

  /** The bytes of the edits at an offset that `moves` picks. */
  function Here(edits: seq<Edit>, offset: nat, moves: Edit -> bool): nat {
    Bytes(edits, At(offset, moves))
  }

  function At(offset: nat, moves: Edit -> bool): Edit -> bool {
    (edit: Edit) => edit.offset == offset && moves(edit)
  }

  lemma {:induction false} BeforeAndHere(edits: seq<Edit>, offset: nat, moves: Edit -> bool)
    requires forall i | 0 <= i < |edits| ::
      (edits[i].offset < offset ==> moves(edits[i])) && (moves(edits[i]) ==> edits[i].offset <= offset)
    ensures Bytes(edits, moves) == Before(edits, offset) + Here(edits, offset, moves)
  {
    BytesSplit(edits, moves, EarlierThan(offset), At(offset, moves));
  }

  /** One end of a span: its shifted line and column, read through the output's own
      lines, are the original offset plus the bytes of all edits before it and of
      those at it that move it. */
  lemma {:induction false} EndLands(source: seq<Byte>, edits: seq<Edit>, position: Position, moves: Edit -> bool)
    requires Applicable(source, edits, 0) && Within(LineStarts(source), position)
    requires var offset := Offset(LineStarts(source), position);
      forall i | 0 <= i < |edits| ::
        (edits[i].offset < offset ==> moves(edits[i])) && (moves(edits[i]) ==> edits[i].offset <= offset)
    ensures var starts, out := LineStarts(source), LineStarts(Spliced(source, edits, 0));
      var shift, offset := Bytes(OnLines(edits, starts, position.line), moves), Offset(starts, position);
      && position.line <= |out|
      && out[position.line - 1] + (position.column + shift) == offset + Before(edits, offset) + Here(edits, offset, moves)
  {
    var starts := LineStarts(source);
    var offset := Offset(starts, position);
    StartsAscend(source);
    LinesOfSpliced(source, edits);
    LineAndBefore(edits, starts, offset, position.line, moves);
    BeforeAndHere(edits, offset, moves);
  }

  /** The whole span, of any kind. */
  lemma {:induction false} SpanLands(source: seq<Byte>, edits: seq<Edit>, span: Span, kind: Kind, shifted: Span)
    requires Applicable(source, edits, 0)
    requires Within(LineStarts(source), span.start) && Within(LineStarts(source), span.end)
    requires var starts := LineStarts(source);
      && shifted.start.line == span.start.line && shifted.end.line == span.end.line
      && shifted.start.column
         == span.start.column + StartShift(span, kind, starts, OnLines(edits, starts, span.start.line))
      && shifted.end.column == span.end.column + EndShift(span, kind, starts, OnLines(edits, starts, span.end.line))
    ensures var starts, out := LineStarts(source), LineStarts(Spliced(source, edits, 0));
      var start, end := Offset(starts, span.start), Offset(starts, span.end);
      && |out| == |starts|
      && Offset(out, shifted.start)
         == start + Before(edits, start) + Here(edits, start, StartMover(kind, start, end))
      && Offset(out, shifted.end)
         == end + Before(edits, end) + Here(edits, end, EndMover(kind, start, end))
  {
    var starts := LineStarts(source);
    var start, end := Offset(starts, span.start), Offset(starts, span.end);
    LinesOfSpliced(source, edits);
    EndLands(source, edits, span.start, StartMover(kind, start, end));
    EndLands(source, edits, span.end, EndMover(kind, start, end));
  }

  /** A point stays on the byte it pointed at. */
  lemma {:induction false} PointStays(source: seq<Byte>, edits: seq<Edit>, offset: nat)
    requires Applicable(source, edits, 0) && offset < |source|
    ensures var out := Spliced(source, edits, 0);
      var at := offset + Before(edits, offset) + Here(edits, offset, StartMover(Point, offset, offset));
      at < |out| && out[at] == source[offset]
  {
    ByteLands(source, edits, 0, offset);
    BeforeAndHere(edits, offset, EarlierThan(offset + 1));
    BytesAgree(edits, At(offset, EarlierThan(offset + 1)), At(offset, StartMover(Point, offset, offset)));
  }

  /** A span that is not empty stays so. */
  lemma {:induction false} SpanStaysOrdered(edits: seq<Edit>, kind: Kind, start: nat, end: nat)
    requires start < end
    ensures start + Before(edits, start) + Here(edits, start, StartMover(kind, start, end))
          < end + Before(edits, end) + Here(edits, end, EndMover(kind, start, end))
  {
    var upTo := (edit: Edit) => edit.offset < start || At(start, StartMover(kind, start, end))(edit);
    BytesSplit(edits, upTo, EarlierThan(start), At(start, StartMover(kind, start, end)));
    BytesGrow(edits, upTo, EarlierThan(end));
  }

  // -- spans and what is wrapped -------------------------------------------------------------------

  /** An insertion of `size` bytes at `at` is in the output between two offsets, or it
      is before or after them. */
  predicate Holds(start: nat, end: nat, at: nat, size: nat) {
    start <= at && at + size <= end
  }

  predicate LeavesOut(start: nat, end: nat, at: nat, size: nat) {
    at + size <= start || end <= at
  }

  lemma {:induction false} BytesOfTwo(first: Edit, second: Edit, moves: Edit -> bool)
    ensures Bytes([first, second], moves)
         == (if moves(first) then |first.text| else 0) + (if moves(second) then |second.text| else 0)
  {
    assert [first, second][1..] == [second] && [second][1..] == [];
    assert Bytes([second], moves) == if moves(second) then |second.text| else 0;
  }

  /** An end of a span among two edits: what moves it is before it, or at it and picked. */
  lemma {:induction false} MovedByTwo(first: Edit, second: Edit, offset: nat, moves: Edit -> bool)
    ensures Before([first, second], offset) + Here([first, second], offset, moves)
         == (if first.offset < offset || (first.offset == offset && moves(first)) then |first.text| else 0)
            + (if second.offset < offset || (second.offset == offset && moves(second)) then |second.text| else 0)
  {
    BytesOfTwo(first, second, EarlierThan(offset));
    BytesOfTwo(first, second, At(offset, moves));
  }

  /** Where the insertions of two edits are in the output. */
  lemma {:induction false} TwoInserted(source: seq<Byte>, first: Edit, second: Edit)
    requires Applicable(source, [first, second], 0)
    ensures var out, at := Spliced(source, [first, second], 0), second.offset + |first.text|;
      && at + |second.text| <= |out|
      && out[first.offset..first.offset + |first.text|] == first.text && out[at..at + |second.text|] == second.text
  {
    var edits := [first, second];
    assert edits[0] == first && edits[1] == second && first.offset <= second.offset <= |source|;
    assert edits[1..] == [second] && [second][1..] == [];
    var middle, rest := source[first.offset..second.offset], source[second.offset..];
    assert Spliced(source, edits[1..], first.offset) == middle + second.text + rest;
    TwoPlaced(source[0..first.offset], first.text, middle, second.text, rest);
  }

  lemma {:induction false} TwoPlaced(a: seq<Byte>, b: seq<Byte>, c: seq<Byte>, d: seq<Byte>, e: seq<Byte>)
    ensures var out, at := a + b + (c + d + e), |a| + |b| + |c|;
      at + |d| <= |out| && out[|a|..|a| + |b|] == b && out[at..at + |d|] == d
  {
  }

  /** What is put around a stretch of the source: an opener at its start with its end
      as scope, and a closer at its end with its start. */
  ghost predicate Wraps(source: seq<Byte>, opener: Edit, closer: Edit) {
    && opener.rank.Opener? && closer.rank.Closer? && opener.text != [] && closer.text != []
    && opener.offset < closer.offset && opener.scope == closer.offset && closer.scope == opener.offset
    && Applicable(source, [opener, closer], 0)
  }

  /** One of the two spans is in the other. */
  predicate Nested(start: nat, end: nat, from: nat, to: nat) {
    (from <= start && end <= to) || (start <= from && to <= end)
  }

  /** What `shift` makes of a span among the edits. */
  ghost predicate IsShifted(source: seq<Byte>, edits: seq<Edit>, span: Span, kind: Kind, shifted: Span) {
    var starts := LineStarts(source);
    && Within(starts, span.start) && Within(starts, span.end)
    && shifted.start.line == span.start.line && shifted.end.line == span.end.line
    && shifted.start.column
       == span.start.column + StartShift(span, kind, starts, OnLines(edits, starts, span.start.line))
    && shifted.end.column == span.end.column + EndShift(span, kind, starts, OnLines(edits, starts, span.end.line))
  }

  /** A span that is nested with what is wrapped holds both insertions in the output or
      neither: a node's both exactly when the wrapped is inside it and not all of it, a
      list's both exactly when it is inside it, all of it included. */
  lemma {:induction false} WrappersStayTogether(
    source: seq<Byte>, opener: Edit, closer: Edit, span: Span, kind: Kind, shifted: Span)
    requires Wraps(source, opener, closer) && !kind.Point?
    requires IsShifted(source, [opener, closer], span, kind, shifted)
    requires var starts := LineStarts(source);
      var start, end := Offset(starts, span.start), Offset(starts, span.end);
      start < end && Nested(start, end, opener.offset, closer.offset)
    ensures
      var starts, out := LineStarts(source), LineStarts(Spliced(source, [opener, closer], 0));
      var start, end := Offset(starts, span.start), Offset(starts, span.end);
      && |out| == |starts|
      && var from, to := Offset(out, shifted.start), Offset(out, shifted.end);
      var first, second := opener.offset, closer.offset + |opener.text|;
      var inside := start <= opener.offset && closer.offset <= end
                    && (kind.List? || start < opener.offset || closer.offset < end);
      if inside then Holds(from, to, first, |opener.text|) && Holds(from, to, second, |closer.text|)
      else LeavesOut(from, to, first, |opener.text|) && LeavesOut(from, to, second, |closer.text|)
  {
    var starts := LineStarts(source);
    var start, end := Offset(starts, span.start), Offset(starts, span.end);
    SpanLands(source, [opener, closer], span, kind, shifted);
    MovedByTwo(opener, closer, start, StartMover(kind, start, end));
    MovedByTwo(opener, closer, end, EndMover(kind, start, end));
  }

  /** Of spans apart from the wrapped one, all leave both insertions out but those that
      start right where it ends, which hold the closer. */
  lemma {:induction false} WrappersBeside(
    source: seq<Byte>, opener: Edit, closer: Edit, span: Span, kind: Kind, shifted: Span)
    requires Wraps(source, opener, closer) && !kind.Point?
    requires IsShifted(source, [opener, closer], span, kind, shifted)
    requires var starts := LineStarts(source);
      var start, end := Offset(starts, span.start), Offset(starts, span.end);
      start < end && (end <= opener.offset || closer.offset <= start)
    ensures
      var starts, out := LineStarts(source), LineStarts(Spliced(source, [opener, closer], 0));
      var start := Offset(starts, span.start);
      && |out| == |starts|
      && var from, to := Offset(out, shifted.start), Offset(out, shifted.end);
      var first, second := opener.offset, closer.offset + |opener.text|;
      && LeavesOut(from, to, first, |opener.text|)
      && if start == closer.offset then Holds(from, to, second, |closer.text|) else LeavesOut(from, to, second, |closer.text|)
  {
    var starts := LineStarts(source);
    var start, end := Offset(starts, span.start), Offset(starts, span.end);
    SpanLands(source, [opener, closer], span, kind, shifted);
    MovedByTwo(opener, closer, start, StartMover(kind, start, end));
    MovedByTwo(opener, closer, end, EndMover(kind, start, end));
  }

  /** A statement's probe is in the output of a span exactly when the statement is in
      the span, and for a node not at its very start: there the probe runs before it. */
  lemma {:induction false} StatementProbeStays(source: seq<Byte>, probe: Edit, span: Span, kind: Kind, shifted: Span)
    requires probe.rank.Statement? && probe.text != [] && probe.offset < probe.scope && !kind.Point?
    requires Applicable(source, [probe], 0) && IsShifted(source, [probe], span, kind, shifted)
    requires var starts := LineStarts(source);
      var start, end := Offset(starts, span.start), Offset(starts, span.end);
      start < end && (Nested(start, end, probe.offset, probe.scope) || end <= probe.offset || probe.scope <= start)
    ensures
      var starts, out := LineStarts(source), LineStarts(Spliced(source, [probe], 0));
      var start, end := Offset(starts, span.start), Offset(starts, span.end);
      && |out| == |starts|
      && var from, to := Offset(out, shifted.start), Offset(out, shifted.end);
      var inside := start <= probe.offset && probe.scope <= end && (kind.List? || start < probe.offset);
      if inside then Holds(from, to, probe.offset, |probe.text|) else LeavesOut(from, to, probe.offset, |probe.text|)
  {
    var starts := LineStarts(source);
    var start, end := Offset(starts, span.start), Offset(starts, span.end);
    SpanLands(source, [probe], span, kind, shifted);
    BytesOfOne(probe, EarlierThan(start));
    BytesOfOne(probe, EarlierThan(end));
    BytesOfOne(probe, At(start, StartMover(kind, start, end)));
    BytesOfOne(probe, At(end, EndMover(kind, start, end)));
  }

  lemma {:induction false} BytesOfOne(edit: Edit, moves: Edit -> bool)
    ensures Bytes([edit], moves) == if moves(edit) then |edit.text| else 0
  {
    assert [edit][1..] == [];
  }

  // -- empty spans ----------------------------------------------------------------------------------

  /** The edits at an empty span that move its start, and those that move its end:
      for a point all of them; for a list those opened for something longer, and
      closers of what began at the span or after it; for a node statements and
      openers that are not of what ended before, and closers of what began after. */
  predicate PushesStart(edit: Edit, kind: Kind, offset: nat) {
    && edit.offset == offset
    && match kind
       case Point => true
       case List => !edit.rank.Closer? && edit.scope > offset
       case Other => edit.rank.Statement? || (edit.rank.Opener? && edit.scope >= offset)
  }

  predicate PushesEnd(edit: Edit, kind: Kind, offset: nat) {
    && edit.offset == offset
    && match kind
       case Point => true
       case List => edit.rank.Closer? && edit.scope >= offset
       case Other => edit.rank.Closer? && edit.scope > offset
  }

  function AtStart(edits: seq<Edit>, kind: Kind, offset: nat): nat {
    if edits == [] then 0
    else (if PushesStart(edits[0], kind, offset) then |edits[0].text| else 0) + AtStart(edits[1..], kind, offset)
  }

  function AtEnd(edits: seq<Edit>, kind: Kind, offset: nat): nat {
    if edits == [] then 0
    else (if PushesEnd(edits[0], kind, offset) then |edits[0].text| else 0) + AtEnd(edits[1..], kind, offset)
  }

  lemma {:induction false} PushesAreMoves(edits: seq<Edit>, kind: Kind, offset: nat)
    ensures Here(edits, offset, StartMover(kind, offset, offset)) == AtStart(edits, kind, offset)
    ensures Here(edits, offset, EndMover(kind, offset, offset)) == AtEnd(edits, kind, offset)
  {
    if edits != [] {
      PushesAreMoves(edits[1..], kind, offset);
    }
  }

  /** An empty span keeps its order exactly when the edits at it that move its start
      are no longer than those that move its end. */
  lemma {:induction false} EmptySpanOrder(source: seq<Byte>, edits: seq<Edit>, span: Span, kind: Kind, shifted: Span)
    requires Applicable(source, edits, 0)
    requires Within(LineStarts(source), span.start) && span.end == span.start
    requires var starts := LineStarts(source);
      && shifted.start.line == span.start.line && shifted.end.line == span.end.line
      && shifted.start.column
         == span.start.column + StartShift(span, kind, starts, OnLines(edits, starts, span.start.line))
      && shifted.end.column == span.end.column + EndShift(span, kind, starts, OnLines(edits, starts, span.end.line))
    ensures var offset := Offset(LineStarts(source), span.start);
      shifted.start.column <= shifted.end.column <==> AtStart(edits, kind, offset) <= AtEnd(edits, kind, offset)
  {
    var starts, out := LineStarts(source), LineStarts(Spliced(source, edits, 0));
    SpanLands(source, edits, span, kind, shifted);
    PushesAreMoves(edits, kind, Offset(starts, span.start));
    assert Offset(out, shifted.start) - shifted.start.column == Offset(out, shifted.end) - shifted.end.column;
  }

  /** Every offset of a source is on one of its lines. */
  lemma {:induction false} SomeLine(starts: seq<nat>, offset: nat) returns (line: nat)
    requires starts != [] && starts[0] <= offset && Ascending(starts)
    ensures OnLine(starts, offset, line)
    decreases |starts|
  {
    var last := |starts| - 1;
    if starts[last] <= offset {
      line := |starts|;
    } else {
      line := SomeLine(starts[..last], offset);
    }
  }

  /** So at every offset of every source there is an empty span that one insertion
      turns around: a statement's or an opener's for a node, and for a list any
      that closes nothing and is for something longer. */
  lemma {:induction false} EmptySpanCanCross(source: seq<Byte>, edit: Edit, kind: Kind) returns (span: Span, shifted: Span)
    requires Applicable(source, [edit], 0) && edit.text != [] && !kind.Point?
    requires PushesStart(edit, kind, edit.offset)
    ensures Within(LineStarts(source), span.start) && span.end == span.start
    ensures var starts := LineStarts(source);
      && Offset(starts, span.start) == edit.offset
      && shifted.start.line == span.start.line && shifted.end.line == span.end.line
      && shifted.start.column
         == span.start.column + StartShift(span, kind, starts, OnLines([edit], starts, span.start.line))
      && shifted.end.column == span.end.column + EndShift(span, kind, starts, OnLines([edit], starts, span.end.line))
    ensures shifted.start.column > shifted.end.column
  {
    var starts := LineStarts(source);
    StartsAscend(source);
    var line := SomeLine(starts, edit.offset);
    var at := Position(line, edit.offset - starts[line - 1]);
    span := Span(at, at);
    var edits := OnLines([edit], starts, line);
    shifted := Span(Position(line, at.column + StartShift(span, kind, starts, edits)),
      Position(line, at.column + EndShift(span, kind, starts, edits)));
    EmptySpanOrder(source, [edit], span, kind, shifted);
    assert AtStart([edit], kind, edit.offset) == |edit.text| && AtEnd([edit], kind, edit.offset) == 0;
  }

  // -- merging ------------------------------------------------------------------------------------

  /** An edit with its group, load-time first, and its place among all. */
  datatype Entry = Entry(edit: Edit, group: nat, place: nat)

  predicate Precedes(a: Entry, b: Entry) {
    a.edit.offset < b.edit.offset
    || (a.edit.offset == b.edit.offset && (a.group < b.group || (a.group == b.group && a.place < b.place)))
  }

  function Entries(edits: seq<Edit>, group: nat, place: nat): (entries: seq<Entry>)
    ensures |entries| == |edits|
    ensures forall i | 0 <= i < |entries| :: entries[i] == Entry(edits[i], group, place + i)
  {
    if edits == [] then [] else [Entry(edits[0], group, place)] + Entries(edits[1..], group, place + 1)
  }

  function Ranked(planned: seq<Edit>, extra: seq<Edit>): seq<Entry> {
    Entries(extra, 0, 0) + Entries(planned, 1, |extra|)
  }

  function Inserted(sorted: seq<Entry>, entry: Entry): seq<Entry> {
    if sorted == [] || Precedes(entry, sorted[0]) then [entry] + sorted
    else [sorted[0]] + Inserted(sorted[1..], entry)
  }

  function Sorted(entries: seq<Entry>): seq<Entry> {
    if entries == [] then [] else Inserted(Sorted(entries[..|entries| - 1]), entries[|entries| - 1])
  }

  function EditsOf(entries: seq<Entry>): (edits: seq<Edit>)
    ensures |edits| == |entries| && forall i | 0 <= i < |edits| :: edits[i] == entries[i].edit
  {
    seq(|entries|, i requires 0 <= i < |entries| => entries[i].edit)
  }

  /** `merge_edits`. */
  function Merged(planned: seq<Edit>, extra: seq<Edit>): seq<Edit> {
    if extra == [] then planned else EditsOf(Sorted(Ranked(planned, extra)))
  }

  ghost predicate InOrder(entries: seq<Entry>) {
    forall i, j | 0 <= i < j < |entries| :: Precedes(entries[i], entries[j])
  }

  ghost predicate Distinct(entries: seq<Entry>) {
    forall i, j | 0 <= i < j < |entries| :: entries[i].place != entries[j].place
  }

  ghost predicate Outside(entries: seq<Entry>, entry: Entry) {
    forall i | 0 <= i < |entries| :: entries[i].place != entry.place
  }

  lemma {:induction false} InsertedHolds(sorted: seq<Entry>, entry: Entry)
    requires InOrder(sorted) && Outside(sorted, entry)
    ensures InOrder(Inserted(sorted, entry)) && multiset(Inserted(sorted, entry)) == multiset(sorted) + multiset{entry}
  {
    if sorted != [] && !Precedes(entry, sorted[0]) {
      InsertedHolds(sorted[1..], entry);
      var rest := Inserted(sorted[1..], entry);
      assert sorted == [sorted[0]] + sorted[1..];
      forall j | 0 <= j < |rest|
        ensures Precedes(sorted[0], rest[j])
      {
        assert rest[j] in multiset(rest);
        assert rest[j] == entry || rest[j] in sorted[1..];
      }
    }
  }

  lemma {:induction false} SortedHolds(entries: seq<Entry>)
    requires Distinct(entries)
    ensures InOrder(Sorted(entries)) && multiset(Sorted(entries)) == multiset(entries)
  {
    if entries != [] {
      var last, before := entries[|entries| - 1], entries[..|entries| - 1];
      SortedHolds(before);
      var sorted := Sorted(before);
      forall i | 0 <= i < |sorted|
        ensures sorted[i].place != last.place
      {
        assert sorted[i] in multiset(before);
      }
      assert entries == before + [last];
      InsertedHolds(sorted, last);
    }
  }

  /** The merged entries are all of them, by offset, load-time ones first at a tie,
      and each group in its own order there. */
  lemma {:induction false} MergeHolds(planned: seq<Edit>, extra: seq<Edit>)
    ensures var sorted := Sorted(Ranked(planned, extra));
      && multiset(sorted) == multiset(Entries(extra, 0, 0)) + multiset(Entries(planned, 1, |extra|))
      && forall i, j | 0 <= i < j < |sorted| ::
           && sorted[i].edit.offset <= sorted[j].edit.offset
           && (sorted[i].edit.offset == sorted[j].edit.offset ==>
                 sorted[i].group < sorted[j].group
                 || (sorted[i].group == sorted[j].group && sorted[i].place < sorted[j].place))
  {
    SortedHolds(Ranked(planned, extra));
  }

  lemma {:induction false} EditsOfMore(first: Entry, rest: seq<Entry>)
    ensures EditsOf([first] + rest) == [first.edit] + EditsOf(rest)
    ensures EditsOf(rest + [first]) == EditsOf(rest) + [first.edit]
  {
  }

  lemma {:induction false} Counted(first: Edit, edits: seq<Edit>)
    ensures multiset([first] + edits) == multiset{first} + multiset(edits)
    ensures multiset(edits + [first]) == multiset(edits) + multiset{first}
  {
  }

  lemma {:induction false} InsertedEdits(sorted: seq<Entry>, entry: Entry)
    ensures multiset(EditsOf(Inserted(sorted, entry))) == multiset(EditsOf(sorted)) + multiset{entry.edit}
  {
    if sorted == [] || Precedes(entry, sorted[0]) {
      EditsOfMore(entry, sorted);
      Counted(entry.edit, EditsOf(sorted));
    } else {
      var rest, more := sorted[1..], Inserted(sorted[1..], entry);
      InsertedEdits(rest, entry);
      FrontCounted(sorted[0], rest, more, entry.edit);
      assert sorted == [sorted[0]] + rest;
    }
  }

  lemma {:induction false} FrontCounted(first: Entry, rest: seq<Entry>, more: seq<Entry>, edit: Edit)
    requires multiset(EditsOf(more)) == multiset(EditsOf(rest)) + multiset{edit}
    ensures multiset(EditsOf([first] + more)) == multiset(EditsOf([first] + rest)) + multiset{edit}
  {
    EditsOfMore(first, rest);
    EditsOfMore(first, more);
    Counted(first.edit, EditsOf(rest));
    Counted(first.edit, EditsOf(more));
  }

  lemma {:induction false} SortedEdits(entries: seq<Entry>)
    ensures multiset(EditsOf(Sorted(entries))) == multiset(EditsOf(entries))
  {
    if entries != [] {
      var last, before := entries[|entries| - 1], entries[..|entries| - 1];
      SortedEdits(before);
      InsertedEdits(Sorted(before), last);
      EditsOfMore(last, before);
      Counted(last.edit, EditsOf(before));
      assert entries == before + [last];
    }
  }

  lemma {:induction false} RankedEdits(planned: seq<Edit>, extra: seq<Edit>)
    ensures EditsOf(Ranked(planned, extra)) == extra + planned
  {
  }

  /** The merged edits are the planned and the load-time ones, each as often as it
      was there. */
  lemma {:induction false} MergeConserves(planned: seq<Edit>, extra: seq<Edit>)
    ensures multiset(Merged(planned, extra)) == multiset(planned) + multiset(extra)
  {
    if extra != [] {
      SortedEdits(Ranked(planned, extra));
      RankedEdits(planned, extra);
      assert multiset(extra + planned) == multiset(extra) + multiset(planned);
    }
  }

  ghost predicate Fitting(source: seq<Byte>, edits: seq<Edit>) {
    forall i | 0 <= i < |edits| :: edits[i].offset <= |source| && OneLine(edits[i].text)
  }

  /** So what is merged of fitting edits can be spliced, and everything above holds
      of it. */
  lemma {:induction false} MergedIsApplicable(source: seq<Byte>, planned: seq<Edit>, extra: seq<Edit>)
    requires Fitting(source, planned) && Fitting(source, extra)
    requires forall i, j | 0 <= i < j < |planned| :: planned[i].offset <= planned[j].offset
    ensures Applicable(source, Merged(planned, extra), 0)
    ensures |Merged(planned, extra)| == |planned| + |extra|
  {
    if extra != [] {
      var entries := Ranked(planned, extra);
      SortedHolds(entries);
      SortedIsApplicable(source, entries, Sorted(entries));
    }
  }

  lemma {:induction false} SortedIsApplicable(source: seq<Byte>, entries: seq<Entry>, sorted: seq<Entry>)
    requires InOrder(sorted) && multiset(sorted) == multiset(entries)
    requires forall i | 0 <= i < |entries| :: entries[i].edit.offset <= |source| && OneLine(entries[i].edit.text)
    ensures Applicable(source, EditsOf(sorted), 0) && |sorted| == |entries|
  {
    assert |multiset(sorted)| == |multiset(entries)|;
    forall i | 0 <= i < |sorted|
      ensures sorted[i].edit.offset <= |source| && OneLine(sorted[i].edit.text)
    {
      assert sorted[i] in multiset(entries);
    }
  }
}
