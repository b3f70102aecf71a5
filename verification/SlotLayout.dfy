/** Every planned file's obligations and decisions numbered into one slot of bytes,
    and the reader that takes a byte back to what it stands for. */
module SlotLayout {
  import opened ConditionTrees
  import opened DecisionVectors
  import opened Options

  datatype Id = Id(text: string)

  const SLOT_HEADER := 16
  const MAX_REGION_WIDTH := 6

  // -- plans ---------------------------------------------------------------------------

  datatype FunctionPlan = FunctionPlan(id: Id, named: bool, first: Option<Id>)
  datatype LoopPlan = LoopPlan(entered: Id, zero: Id, first: Option<Id>)
  datatype DecisionPlan = DecisionPlan(id: Id, width: nat, whenTrue: Option<Id>, whenFalse: Option<Id>)

  /** One file's plan; `others` are the ids of its tries and matches in the order
      they are numbered. */
  datatype FilePlan = FilePlan(
    statements: seq<Id>, functions: seq<FunctionPlan>, loops: seq<LoopPlan>, others: seq<Id>, decisions: seq<DecisionPlan>)

  /** The file's ids in the order of their numbers, which start at `base`. */
  datatype FileProbes = FileProbes(
    base: nat, ids: seq<Id>, statements: map<Id, nat>, entryHeads: map<nat, nat>, loopHeads: map<nat, nat>,
    decisionHeads: seq<(Option<nat>, Option<nat>)>)

  // -- one file's numbers ------------------------------------------------------------------

  function FunctionIds(functions: seq<FunctionPlan>, n: nat): (ids: seq<Id>)
    requires n <= |functions|
    ensures |ids| == n
  {
    if n == 0 then [] else FunctionIds(functions, n - 1) + [functions[n - 1].id]
  }

  function LoopIds(loops: seq<LoopPlan>, n: nat): (ids: seq<Id>)
    requires n <= |loops|
    ensures |ids| == 2 * n
  {
    if n == 0 then [] else LoopIds(loops, n - 1) + [loops[n - 1].entered, loops[n - 1].zero]
  }

  function IdsOf(plan: FilePlan): seq<Id> {
    plan.statements + FunctionIds(plan.functions, |plan.functions|) + LoopIds(plan.loops, |plan.loops|) + plan.others
  }

  function FunctionNumber(plan: FilePlan, base: nat, j: nat): nat {
    base + |plan.statements| + j
  }

  function EnteredNumber(plan: FilePlan, base: nat, j: nat): nat {
    base + |plan.statements| + |plan.functions| + 2 * j
  }

  /** The numbers of the first `n` statements; an id met twice has the later one. */
  function StatementNumbers(plan: FilePlan, base: nat, n: nat): map<Id, nat>
    requires n <= |plan.statements|
  {
    if n == 0 then map[] else StatementNumbers(plan, base, n - 1)[plan.statements[n - 1] := base + n - 1]
  }

  function HeadOf(plan: FilePlan, base: nat, first: Option<Id>): Option<nat> {
    var numbers := StatementNumbers(plan, base, |plan.statements|);
    if first.Some? && first.value in numbers then Some(numbers[first.value]) else None
  }

  function EntryHeads(plan: FilePlan, base: nat, n: nat): map<nat, nat>
    requires n <= |plan.functions|
  {
    if n == 0 then map[]
    else
      var before, planned := EntryHeads(plan, base, n - 1), plan.functions[n - 1];
      var head := HeadOf(plan, base, planned.first);
      if planned.named && head.Some? then before[FunctionNumber(plan, base, n - 1) := head.value] else before
  }

  function LoopHeads(plan: FilePlan, base: nat, n: nat): map<nat, nat>
    requires n <= |plan.loops|
  {
    if n == 0 then map[]
    else
      var before, head := LoopHeads(plan, base, n - 1), HeadOf(plan, base, plan.loops[n - 1].first);
      if head.Some? then before[EnteredNumber(plan, base, n - 1) := head.value] else before
  }

  function DecisionHeads(plan: FilePlan, base: nat, n: nat): (heads: seq<(Option<nat>, Option<nat>)>)
    requires n <= |plan.decisions|
    ensures |heads| == n
  {
    if n == 0 then []
    else
      var decision := plan.decisions[n - 1];
      DecisionHeads(plan, base, n - 1)
      + [(HeadOf(plan, base, decision.whenTrue), HeadOf(plan, base, decision.whenFalse))]
  }

  /** What one file's numbering from `base` comes to. */
  function ProbesOf(plan: FilePlan, base: nat): FileProbes {
    FileProbes(base, IdsOf(plan), StatementNumbers(plan, base, |plan.statements|),
      EntryHeads(plan, base, |plan.functions|), LoopHeads(plan, base, |plan.loops|),
      DecisionHeads(plan, base, |plan.decisions|))
  }

  /** `FileProbes`: each obligation appended in turn and numbered by its place. */
  method NumberFile(plan: FilePlan, base: nat) returns (probes: FileProbes)
    ensures probes == ProbesOf(plan, base)
  {
    var ids, statements := [], map[];
    for n := 0 to |plan.statements|
      invariant ids == plan.statements[..n] && statements == StatementNumbers(plan, base, n)
    {
      ids := ids + [plan.statements[n]];
      statements := statements[plan.statements[n] := base + |ids| - 1];
    }
    assert ids == plan.statements;
    var entryHeads := map[];
    for n := 0 to |plan.functions|
      invariant ids == plan.statements + FunctionIds(plan.functions, n) && entryHeads == EntryHeads(plan, base, n)
    {
      var planned, before := plan.functions[n], ids;
      ids := ids + [planned.id];
      assert ids == plan.statements + FunctionIds(plan.functions, n + 1);
      if planned.named && planned.first.Some? && planned.first.value in statements {
        entryHeads := entryHeads[base + |ids| - 1 := statements[planned.first.value]];
      }
    }
    ghost var upToLoops := ids;
    var loopHeads := map[];
    for n := 0 to |plan.loops|
      invariant ids == upToLoops + LoopIds(plan.loops, n) && loopHeads == LoopHeads(plan, base, n)
    {
      var loop := plan.loops[n];
      ids := ids + [loop.entered];
      var entered := base + |ids| - 1;
      ids := ids + [loop.zero];
      assert ids == upToLoops + LoopIds(plan.loops, n + 1);
      if loop.first.Some? && loop.first.value in statements {
        loopHeads := loopHeads[entered := statements[loop.first.value]];
      }
    }
    ids := ids + plan.others;
    var decisionHeads := [];
    for n := 0 to |plan.decisions|
      invariant decisionHeads == DecisionHeads(plan, base, n)
    {
      var decision := plan.decisions[n];
      var whenTrue := if decision.whenTrue.Some? && decision.whenTrue.value in statements
                      then Some(statements[decision.whenTrue.value]) else None;
      var whenFalse := if decision.whenFalse.Some? && decision.whenFalse.value in statements
                       then Some(statements[decision.whenFalse.value]) else None;
      decisionHeads := decisionHeads + [(whenTrue, whenFalse)];
    }
    probes := FileProbes(base, ids, statements, entryHeads, loopHeads, decisionHeads);
  }

  /** A head is a statement's number in its file, and one with the id it was named by. */
  lemma {:induction false} HeadIsStatement(plan: FilePlan, base: nat, n: nat, id: Id)
    requires n <= |plan.statements|
    ensures var numbers := StatementNumbers(plan, base, n);
      if id in numbers then base <= numbers[id] < base + n && plan.statements[numbers[id] - base] == id
      else forall i | 0 <= i < n :: plan.statements[i] != id
  {
    if n > 0 {
      HeadIsStatement(plan, base, n - 1, id);
    }
  }

  // -- all files in one slot --------------------------------------------------------------------

  /** The ids, and the decisions, of the first `n` files. */
  function IdsUpTo(files: seq<FilePlan>, n: nat): seq<Id>
    requires n <= |files|
  {
    if n == 0 then [] else IdsUpTo(files, n - 1) + IdsOf(files[n - 1])
  }

  function DecisionsUpTo(files: seq<FilePlan>, n: nat): seq<DecisionPlan>
    requires n <= |files|
  {
    if n == 0 then [] else DecisionsUpTo(files, n - 1) + files[n - 1].decisions
  }

  function AllIds(files: seq<FilePlan>): seq<Id> {
    IdsUpTo(files, |files|)
  }

  function AllDecisions(files: seq<FilePlan>): seq<DecisionPlan> {
    DecisionsUpTo(files, |files|)
  }

  function Base(files: seq<FilePlan>, i: nat): nat
    requires i <= |files|
  {
    SLOT_HEADER + |IdsUpTo(files, i)|
  }

  function DecisionBase(files: seq<FilePlan>, i: nat): nat
    requires i <= |files|
  {
    |DecisionsUpTo(files, i)|
  }

  function IdEnd(files: seq<FilePlan>): nat {
    Base(files, |files|)
  }

  predicate Wide(width: nat) {
    width > MAX_REGION_WIDTH
  }

  /** The bytes of the first `n` decisions' regions. */
  function RegionsBefore(decisions: seq<DecisionPlan>, n: nat): nat
    requires n <= |decisions|
  {
    if n == 0 then 0
    else
      RegionsBefore(decisions, n - 1) + (if Wide(decisions[n - 1].width) then 0 else RegionBytes(decisions[n - 1].width))
  }

  function Region(decisions: seq<DecisionPlan>, start: nat, d: nat): int
    requires d < |decisions|
  {
    if Wide(decisions[d].width) then -1 else start + RegionsBefore(decisions, d)
  }

  /** A region's first byte, its decision's width, and the decision. */
  datatype TableRow = TableRow(start: nat, width: nat, decision: nat)

  function Table(decisions: seq<DecisionPlan>, start: nat, n: nat): seq<TableRow>
    requires n <= |decisions|
  {
    if n == 0 then []
    else
      var before, width := Table(decisions, start, n - 1), decisions[n - 1].width;
      if Wide(width) then before else before + [TableRow(start + RegionsBefore(decisions, n - 1), width, n - 1)]
  }

  function SlotBytes(files: seq<FilePlan>): nat {
    IdEnd(files) + RegionsBefore(AllDecisions(files), |AllDecisions(files)|)
  }

  // -- what is implied -----------------------------------------------------------------------------

  function OnePair(head: Option<nat>, byte: nat): set<(nat, nat)> {
    if head.Some? then {(head.value, byte)} else {}
  }

  function FunctionPairs(plan: FilePlan, base: nat, n: nat): set<(nat, nat)>
    requires n <= |plan.functions|
  {
    if n == 0 then {}
    else
      var head := if plan.functions[n - 1].named then HeadOf(plan, base, plan.functions[n - 1].first) else None;
      FunctionPairs(plan, base, n - 1) + OnePair(head, FunctionNumber(plan, base, n - 1))
  }

  function LoopPairs(plan: FilePlan, base: nat, n: nat): set<(nat, nat)>
    requires n <= |plan.loops|
  {
    if n == 0 then {}
    else
      LoopPairs(plan, base, n - 1)
      + OnePair(HeadOf(plan, base, plan.loops[n - 1].first), EnteredNumber(plan, base, n - 1))
  }

  /** The outcomes of the file's first `n` decisions, those of one condition only;
      the file's decisions start at `first` among all. */
  function OutcomePairs(plan: FilePlan, base: nat, decisions: seq<DecisionPlan>, start: nat, first: nat, n: nat): set<(nat, nat)>
    requires n <= |plan.decisions| && first + n <= |decisions|
  {
    if n == 0 then {}
    else
      var before, decision := OutcomePairs(plan, base, decisions, start, first, n - 1), plan.decisions[n - 1];
      var region := Region(decisions, start, first + n - 1);
      if decision.width != 1 || region < 0 then before
      else
        before + OnePair(HeadOf(plan, base, decision.whenTrue), region + 1)
        + OnePair(HeadOf(plan, base, decision.whenFalse), region)
  }

  // -- a byte's meaning -------------------------------------------------------------------------------

  /** The reader's layout: ids from the header on, then the table's regions. */
  datatype Layout = Layout(bytes: nat, ids: nat, table: seq<TableRow>, implied: map<nat, seq<nat>>)

  datatype Meaning = Obligation(index: nat) | Vector(decision: nat, digits: seq<Digit>, outcome: bool)

  /** Regions back to back from `cursor`, each of a width there is a region for. */
  predicate BackToBack(table: seq<TableRow>, cursor: nat, end: nat) {
    if table == [] then cursor == end
    else
      && table[0].start == cursor && 0 < table[0].width <= MAX_REGION_WIDTH
      && BackToBack(table[1..], cursor + RegionBytes(table[0].width), end)
  }

  predicate ImpliedFits(layout: Layout, head: nat)
    requires head in layout.implied
  {
    && SLOT_HEADER <= head < SLOT_HEADER + layout.ids
    && forall i | 0 <= i < |layout.implied[head]| ::
         var byte := layout.implied[head][i];
         SLOT_HEADER <= byte < layout.bytes && byte != head && byte !in layout.implied
  }

  /** `SlotLayout::read`'s checks. */
  predicate Accepted(layout: Layout) {
    && BackToBack(layout.table, SLOT_HEADER + layout.ids, layout.bytes)
    && forall head | head in layout.implied :: ImpliedFits(layout, head)
  }

  /** How many rows start at or before a byte, as `partition_point` finds it. */
  function RowsUpTo(table: seq<TableRow>, byte: nat): (rows: nat)
    ensures rows <= |table|
  {
    if table == [] || table[0].start > byte then 0 else 1 + RowsUpTo(table[1..], byte)
  }

  /** `decode_one`. */
  function DecodeOne(layout: Layout, byte: nat): Option<Meaning>
    requires SLOT_HEADER <= byte
  {
    if byte < SLOT_HEADER + layout.ids then Some(Obligation(byte - SLOT_HEADER))
    else
      var rows := RowsUpTo(layout.table, byte);
      if rows == 0 then None
      else
        var row := layout.table[rows - 1];
        if byte < row.start then None
        else
          var (digits, outcome) := Decode(byte - row.start, row.width);
          Some(Vector(row.decision, digits, outcome))
  }

  // -- regions fill the slot ----------------------------------------------------------------------

  ghost predicate HasConditions(decisions: seq<DecisionPlan>) {
    forall d | 0 <= d < |decisions| :: decisions[d].width > 0
  }

  lemma {:induction false} BackToBackOneMore(table: seq<TableRow>, cursor: nat, end: nat, row: TableRow)
    requires BackToBack(table, cursor, end) && row.start == end && 0 < row.width <= MAX_REGION_WIDTH
    ensures BackToBack(table + [row], cursor, end + RegionBytes(row.width))
    decreases |table|
  {
    if table == [] {
      assert [row][1..] == [];
    } else {
      assert (table + [row])[1..] == table[1..] + [row];
      BackToBackOneMore(table[1..], cursor + RegionBytes(table[0].width), end, row);
    }
  }

  /** The table's rows are the decisions that have a region, in order, back to back. */
  lemma {:induction false} TableIsBackToBack(decisions: seq<DecisionPlan>, start: nat, n: nat)
    requires HasConditions(decisions) && n <= |decisions|
    ensures BackToBack(Table(decisions, start, n), start, start + RegionsBefore(decisions, n))
  {
    if n > 0 {
      TableIsBackToBack(decisions, start, n - 1);
      if !Wide(decisions[n - 1].width) {
        BackToBackOneMore(Table(decisions, start, n - 1), start, start + RegionsBefore(decisions, n - 1),
          TableRow(start + RegionsBefore(decisions, n - 1), decisions[n - 1].width, n - 1));
      }
    }
  }

  ghost predicate RowIs(decisions: seq<DecisionPlan>, start: nat, row: TableRow) {
    && row.decision < |decisions| && row.width == decisions[row.decision].width && !Wide(row.width)
    && row.start == Region(decisions, start, row.decision)
  }

  lemma {:induction false} TableRows(decisions: seq<DecisionPlan>, start: nat, n: nat)
    requires n <= |decisions|
    ensures forall j | 0 <= j < |Table(decisions, start, n)| :: RowIs(decisions, start, Table(decisions, start, n)[j])
  {
    if n > 0 {
      TableRows(decisions, start, n - 1);
    }
  }

  lemma {:induction false} RowOf(decisions: seq<DecisionPlan>, start: nat, n: nat, d: nat) returns (j: nat)
    requires d < n <= |decisions| && !Wide(decisions[d].width)
    ensures j < |Table(decisions, start, n)|
    ensures Table(decisions, start, n)[j] == TableRow(start + RegionsBefore(decisions, d), decisions[d].width, d)
  {
    if d == n - 1 {
      j := |Table(decisions, start, n)| - 1;
    } else {
      j := RowOf(decisions, start, n - 1, d);
    }
  }

  predicate InRow(row: TableRow, byte: nat) {
    row.start <= byte < row.start + RegionBytes(row.width)
  }

  /** The row found for a byte of the regions holds it, and is the only one to. */
  lemma {:induction false} FindsRow(table: seq<TableRow>, cursor: nat, end: nat, byte: nat)
    requires BackToBack(table, cursor, end) && cursor <= byte < end
    ensures var rows := RowsUpTo(table, byte);
      && rows > 0 && InRow(table[rows - 1], byte)
      && forall j | 0 <= j < |table| :: InRow(table[j], byte) ==> j == rows - 1
    decreases |table|
  {
    var next := cursor + RegionBytes(table[0].width);
    StartsFrom(table[1..], next, end);
    if byte < next {
      assert table[1..] == [] || table[1..][0].start > byte;
    } else {
      FindsRow(table[1..], next, end, byte);
    }
    forall j | 0 < j < |table|
      ensures table[j] == table[1..][j - 1]
    {
    }
  }

  lemma {:induction false} StartsFrom(table: seq<TableRow>, cursor: nat, end: nat)
    requires BackToBack(table, cursor, end)
    ensures cursor <= end
    ensures forall j | 0 <= j < |table| :: cursor <= table[j].start && table[j].start + RegionBytes(table[j].width) <= end
    decreases |table|
  {
    if table != [] {
      StartsFrom(table[1..], cursor + RegionBytes(table[0].width), end);
      forall j | 0 < j < |table|
        ensures table[j] == table[1..][j - 1]
      {
      }
    }
  }

  // -- one byte, one meaning ---------------------------------------------------------------------------

  function LayoutOf(files: seq<FilePlan>, implied: map<nat, seq<nat>>): Layout {
    var decisions := AllDecisions(files);
    Layout(SlotBytes(files), |AllIds(files)|, Table(decisions, IdEnd(files), |decisions|), implied)
  }

  /** An obligation of the run, or an evaluation of one of its decisions that has a
      region, as a vector of its conditions with its outcome. */
  predicate Possible(files: seq<FilePlan>, meaning: Meaning) {
    match meaning
    case Obligation(index) => index < |AllIds(files)|
    case Vector(decision, digits, outcome) =>
      var decisions := AllDecisions(files);
      && decision < |decisions| && !Wide(decisions[decision].width) && |digits| == decisions[decision].width
      && (|digits| == 1 ==> digits == [if outcome then 2 else 1])
  }

  /** The byte stored for a meaning: see the runtime's decision probe. */
  function ByteOf(files: seq<FilePlan>, meaning: Meaning): nat
    requires Possible(files, meaning)
  {
    match meaning
    case Obligation(index) => SLOT_HEADER + index
    case Vector(decision, digits, outcome) =>
      Region(AllDecisions(files), IdEnd(files), decision)
      + (if |digits| == 1 then (if outcome then 1 else 0) else Offset(Mask(digits), outcome))
  }

  lemma {:induction false} OffsetDecodes(digits: seq<Digit>, outcome: bool)
    requires |digits| > 0 && (|digits| == 1 ==> digits == [if outcome then 2 else 1])
    ensures var offset := if |digits| == 1 then (if outcome then 1 else 0) else Offset(Mask(digits), outcome);
      offset < RegionBytes(|digits|) && Decode(offset, |digits|) == (digits, outcome)
  {
    if |digits| > 1 {
      RegionRoundTrip(digits, outcome);
    }
  }

  /** Every obligation and every vector has its own byte of the slot, and the reader
      takes that byte back to it. */
  lemma {:induction false} MeaningRoundTrip(files: seq<FilePlan>, implied: map<nat, seq<nat>>, meaning: Meaning)
    requires Possible(files, meaning) && HasConditions(AllDecisions(files))
    ensures SLOT_HEADER <= ByteOf(files, meaning) < SlotBytes(files)
    ensures DecodeOne(LayoutOf(files, implied), ByteOf(files, meaning)) == Some(meaning)
  {
    match meaning
    case Obligation(index) =>
    case Vector(d, digits, outcome) => VectorRoundTrip(files, implied, d, digits, outcome, ByteOf(files, meaning));
  }

  lemma {:induction false} VectorRoundTrip(
    files: seq<FilePlan>, implied: map<nat, seq<nat>>, d: nat, digits: seq<Digit>, outcome: bool, byte: nat)
    requires Possible(files, Vector(d, digits, outcome)) && HasConditions(AllDecisions(files))
    requires byte == ByteOf(files, Vector(d, digits, outcome))
    ensures SLOT_HEADER <= byte < SlotBytes(files)
    ensures DecodeOne(LayoutOf(files, implied), byte) == Some(Vector(d, digits, outcome))
  {
    var row, offset := VectorByte(files, d, digits, outcome, byte);
    FoundByte(files, implied, d, row, byte);
    RowDecodes(LayoutOf(files, implied), byte, row, digits, outcome);
  }

  /** The row of a vector's decision, and the vector's place in it. */
  lemma {:induction false} VectorByte(files: seq<FilePlan>, d: nat, digits: seq<Digit>, outcome: bool, byte: nat)
    returns (row: TableRow, offset: nat)
    requires Possible(files, Vector(d, digits, outcome)) && HasConditions(AllDecisions(files))
    requires byte == ByteOf(files, Vector(d, digits, outcome))
    ensures row.decision == d && row.width == AllDecisions(files)[d].width
    ensures row.start == IdEnd(files) + RegionsBefore(AllDecisions(files), d) && byte == row.start + offset
    ensures offset < RegionBytes(row.width) && Decode(offset, row.width) == (digits, outcome)
  {
    OffsetDecodes(digits, outcome);
    row := TableRow(IdEnd(files) + RegionsBefore(AllDecisions(files), d), AllDecisions(files)[d].width, d);
    offset := byte - row.start;
  }

  lemma {:induction false} FoundByte(files: seq<FilePlan>, implied: map<nat, seq<nat>>, d: nat, row: TableRow, byte: nat)
    requires HasConditions(AllDecisions(files)) && d < |AllDecisions(files)| && !Wide(AllDecisions(files)[d].width)
    requires row == TableRow(IdEnd(files) + RegionsBefore(AllDecisions(files), d), AllDecisions(files)[d].width, d)
    requires row.start <= byte < row.start + RegionBytes(row.width)
    ensures var layout := LayoutOf(files, implied);
      && SLOT_HEADER + layout.ids <= byte < SlotBytes(files)
      && RowsUpTo(layout.table, byte) > 0 && layout.table[RowsUpTo(layout.table, byte) - 1] == row
  {
    RegionByteIsFound(AllDecisions(files), IdEnd(files), d, byte);
  }

  /** What a byte in a row means. */
  lemma {:induction false} RowDecodes(layout: Layout, byte: nat, row: TableRow, digits: seq<Digit>, outcome: bool)
    requires SLOT_HEADER + layout.ids <= byte && row.start <= byte
    requires RowsUpTo(layout.table, byte) > 0 && layout.table[RowsUpTo(layout.table, byte) - 1] == row
    requires Decode(byte - row.start, row.width) == (digits, outcome)
    ensures DecodeOne(layout, byte) == Some(Vector(row.decision, digits, outcome))
  {
  }

  lemma {:induction false} RegionByteIsFound(decisions: seq<DecisionPlan>, start: nat, d: nat, byte: nat)
    requires HasConditions(decisions) && d < |decisions| && !Wide(decisions[d].width)
    requires start + RegionsBefore(decisions, d) <= byte
    requires byte < start + RegionsBefore(decisions, d) + RegionBytes(decisions[d].width)
    ensures var table, n := Table(decisions, start, |decisions|), |decisions|;
      && byte < start + RegionsBefore(decisions, n) && RowsUpTo(table, byte) > 0
      && table[RowsUpTo(table, byte) - 1] == TableRow(start + RegionsBefore(decisions, d), decisions[d].width, d)
  {
    var table, end := Table(decisions, start, |decisions|), start + RegionsBefore(decisions, |decisions|);
    var j := RowOf(decisions, start, |decisions|, d);
    TableIsBackToBack(decisions, start, |decisions|);
    StartsFrom(table, start, end);
    assert InRow(table[j], byte);
    FindsRow(table, start, end, byte);
  }

  /** And every byte after the header is some meaning's: no byte is idle, and none
      stands for two things. */
  lemma {:induction false} EveryByteMeans(files: seq<FilePlan>, implied: map<nat, seq<nat>>, byte: nat)
    requires SLOT_HEADER <= byte < SlotBytes(files) && HasConditions(AllDecisions(files))
    ensures var decoded := DecodeOne(LayoutOf(files, implied), byte);
      decoded.Some? && Possible(files, decoded.value) && ByteOf(files, decoded.value) == byte
  {
    if byte >= IdEnd(files) {
      RegionByteMeans(AllDecisions(files), IdEnd(files), byte);
    }
  }

  lemma {:induction false} RegionByteMeans(decisions: seq<DecisionPlan>, start: nat, byte: nat)
    requires HasConditions(decisions) && start <= byte < start + RegionsBefore(decisions, |decisions|)
    ensures var table := Table(decisions, start, |decisions|);
      && RowsUpTo(table, byte) > 0 && table[RowsUpTo(table, byte) - 1].start <= byte
      && var row := table[RowsUpTo(table, byte) - 1];
         var (digits, outcome) := Decode(byte - row.start, row.width);
         && RowIs(decisions, start, row) && |digits| == row.width
         && (row.width == 1 ==> digits == [if outcome then 2 else 1])
         && byte == row.start + if row.width == 1 then (if outcome then 1 else 0) else Offset(Mask(digits), outcome)
  {
    var table, end := Table(decisions, start, |decisions|), start + RegionsBefore(decisions, |decisions|);
    TableIsBackToBack(decisions, start, |decisions|);
    FindsRow(table, start, end, byte);
    TableRows(decisions, start, |decisions|);
    var row := table[RowsUpTo(table, byte) - 1];
    assert RowIs(decisions, start, row);
    RegionOffset(byte - row.start, row.width);
  }

  lemma {:induction false} RegionOffset(offset: nat, width: nat)
    requires width > 0 && offset < RegionBytes(width)
    ensures var (digits, outcome) := Decode(offset, width);
      && |digits| == width && (width == 1 ==> digits == [if outcome then 2 else 1])
      && offset == if width == 1 then (if outcome then 1 else 0) else Offset(Mask(digits), outcome)
  {
    if width > 1 {
      RegionIsFull(offset, width);
    }
  }

  // -- files do not collide ------------------------------------------------------------------------------

  lemma {:induction false} IdAt(files: seq<FilePlan>, n: nat, i: nat, k: nat)
    requires i < n <= |files| && k < |IdsOf(files[i])|
    ensures |IdsUpTo(files, i)| + k < |IdsUpTo(files, n)|
    ensures IdsUpTo(files, n)[|IdsUpTo(files, i)| + k] == IdsOf(files[i])[k]
  {
    if i < n - 1 {
      IdAt(files, n - 1, i, k);
    }
  }

  lemma {:induction false} DecisionAt(files: seq<FilePlan>, n: nat, i: nat, d: nat)
    requires i < n <= |files| && d < |files[i].decisions|
    ensures |DecisionsUpTo(files, i)| + d < |DecisionsUpTo(files, n)|
    ensures DecisionsUpTo(files, n)[|DecisionsUpTo(files, i)| + d] == files[i].decisions[d]
  {
    if i < n - 1 {
      DecisionAt(files, n - 1, i, d);
    }
  }

  /** Each file's numbers end before the next file's start. */
  lemma {:induction false} NumbersAreApart(files: seq<FilePlan>, i: nat, n: nat)
    requires i < n <= |files|
    ensures Base(files, i) + |IdsOf(files[i])| <= Base(files, n)
  {
    if i < n - 1 {
      NumbersAreApart(files, i, n - 1);
    }
  }

  /** And each file's decisions. */
  lemma {:induction false} DecisionsAreApart(files: seq<FilePlan>, i: nat, n: nat)
    requires i < n <= |files|
    ensures DecisionBase(files, i) + |files[i].decisions| <= DecisionBase(files, n)
  {
    if i < n - 1 {
      DecisionsAreApart(files, i, n - 1);
    }
  }

  /** A file's number for an obligation is the byte of that obligation in the slot,
      and no other file's. */
  lemma {:induction false} NumbersAreBytes(files: seq<FilePlan>, implied: map<nat, seq<nat>>, i: nat, k: nat)
    requires i < |files| && k < |IdsOf(files[i])|
    ensures var index := Base(files, i) + k - SLOT_HEADER;
      && index < |AllIds(files)| && AllIds(files)[index] == IdsOf(files[i])[k]
      && DecodeOne(LayoutOf(files, implied), Base(files, i) + k) == Some(Obligation(index))
  {
    IdAt(files, |files|, i, k);
  }

  // -- which obligation each number is -----------------------------------------------------------

  lemma {:induction false} FunctionIdAt(functions: seq<FunctionPlan>, n: nat, j: nat)
    requires j < n <= |functions|
    ensures FunctionIds(functions, n)[j] == functions[j].id
  {
    if j < n - 1 {
      FunctionIdAt(functions, n - 1, j);
    }
  }

  lemma {:induction false} LoopIdsAt(loops: seq<LoopPlan>, n: nat, j: nat)
    requires j < n <= |loops|
    ensures LoopIds(loops, n)[2 * j] == loops[j].entered && LoopIds(loops, n)[2 * j + 1] == loops[j].zero
  {
    if j < n - 1 {
      LoopIdsAt(loops, n - 1, j);
    }
  }

  /** The layout's byte stands for the obligation of that id. */
  predicate StandsFor(files: seq<FilePlan>, implied: map<nat, seq<nat>>, ids: seq<Id>, byte: nat, id: Id) {
    && byte >= SLOT_HEADER && byte - SLOT_HEADER < |ids| && ids[byte - SLOT_HEADER] == id
    && DecodeOne(LayoutOf(files, implied), byte) == Some(Obligation(byte - SLOT_HEADER))
  }

  lemma {:induction false} NumberStandsFor(files: seq<FilePlan>, implied: map<nat, seq<nat>>, i: nat, k: nat, id: Id)
    requires i < |files| && k < |IdsOf(files[i])| && IdsOf(files[i])[k] == id
    ensures StandsFor(files, implied, AllIds(files), Base(files, i) + k, id)
  {
    NumbersAreBytes(files, implied, i, k);
  }

  /** Every obligation's number is the byte its own id is at: a statement's, a
      function's, the two of a loop, and the others'. */
  lemma {:induction false} EachNumberIsItsOwn(files: seq<FilePlan>, implied: map<nat, seq<nat>>, ids: seq<Id>, i: nat, j: nat)
    requires i < |files| && ids == AllIds(files)
    ensures var plan, base := files[i], Base(files, i);
      && (j < |plan.statements| ==> StandsFor(files, implied, ids, base + j, plan.statements[j]))
      && (j < |plan.functions| ==> StandsFor(files, implied, ids, FunctionNumber(plan, base, j), plan.functions[j].id))
      && (j < |plan.loops| ==>
            && StandsFor(files, implied, ids, EnteredNumber(plan, base, j), plan.loops[j].entered)
            && StandsFor(files, implied, ids, EnteredNumber(plan, base, j) + 1, plan.loops[j].zero))
      && (j < |plan.others| ==>
            StandsFor(files, implied, ids, EnteredNumber(plan, base, |plan.loops|) + j, plan.others[j]))
  {
    var plan := files[i];
    if j < |plan.statements| {
      NumberStandsFor(files, implied, i, j, plan.statements[j]);
    }
    if j < |plan.functions| {
      FunctionIdAt(plan.functions, |plan.functions|, j);
      NumberStandsFor(files, implied, i, |plan.statements| + j, plan.functions[j].id);
    }
    if j < |plan.loops| {
      LoopStandsFor(files, implied, i, j);
    }
    if j < |plan.others| {
      NumberStandsFor(files, implied, i, |plan.statements| + |plan.functions| + 2 * |plan.loops| + j, plan.others[j]);
    }
  }

  lemma {:induction false} LoopStandsFor(files: seq<FilePlan>, implied: map<nat, seq<nat>>, i: nat, j: nat)
    requires i < |files| && j < |files[i].loops|
    ensures var plan, base := files[i], Base(files, i);
      && StandsFor(files, implied, AllIds(files), EnteredNumber(plan, base, j), plan.loops[j].entered)
      && StandsFor(files, implied, AllIds(files), EnteredNumber(plan, base, j) + 1, plan.loops[j].zero)
  {
    var plan := files[i];
    var k := |plan.statements| + |plan.functions| + 2 * j;
    LoopIdsAt(plan.loops, |plan.loops|, j);
    NumberStandsFor(files, implied, i, k, plan.loops[j].entered);
    NumberStandsFor(files, implied, i, k + 1, plan.loops[j].zero);
  }

  /** Likewise its decisions, once rebased. */
  lemma {:induction false} DecisionsAreRebased(files: seq<FilePlan>, i: nat, d: nat)
    requires i < |files| && d < |files[i].decisions|
    ensures DecisionBase(files, i) + d < |AllDecisions(files)|
    ensures AllDecisions(files)[DecisionBase(files, i) + d] == files[i].decisions[d]
  {
    DecisionAt(files, |files|, i, d);
  }

  // -- what the whole plan implies -------------------------------------------------------------------------

  /** What one file's heads imply, its decisions being those from `first` on. */
  function PlanPairs(plan: FilePlan, base: nat, decisions: seq<DecisionPlan>, start: nat, first: nat): set<(nat, nat)>
    requires first + |plan.decisions| <= |decisions|
  {
    FunctionPairs(plan, base, |plan.functions|) + LoopPairs(plan, base, |plan.loops|)
    + OutcomePairs(plan, base, decisions, start, first, |plan.decisions|)
  }

  function FilePairs(files: seq<FilePlan>, i: nat): set<(nat, nat)>
    requires i < |files|
  {
    DecisionsAreApart(files, i, |files|);
    PlanPairs(files[i], Base(files, i), AllDecisions(files), IdEnd(files), DecisionBase(files, i))
  }

  function AllPairs(files: seq<FilePlan>, n: nat): set<(nat, nat)>
    requires n <= |files|
  {
    if n == 0 then {} else AllPairs(files, n - 1) + FilePairs(files, n - 1)
  }

  function Pairs(implied: map<nat, seq<nat>>): set<(nat, nat)> {
    set head, i | head in implied && 0 <= i < |implied[head]| :: (head, implied[head][i])
  }

  /** A head is a statement's byte; what it implies is in the slot, and no statement's. */
  predicate Fits(statements: set<nat>, end: nat, pair: (nat, nat)) {
    pair.0 in statements && Tail(statements, end, pair.1)
  }

  predicate Tail(statements: set<nat>, end: nat, byte: nat) {
    SLOT_HEADER <= byte < end && byte !in statements
  }

  /** One file's heads are statements, and its other numbers are no statement's. */
  ghost predicate FileFits(statements: set<nat>, end: nat, plan: FilePlan, base: nat) {
    && (forall id :: HeadOf(plan, base, id).Some? ==> HeadOf(plan, base, id).value in statements)
    && forall k: nat | base + |plan.statements| <= k < base + |IdsOf(plan)| :: Tail(statements, end, k)
  }

  lemma {:induction false} FunctionPairFits(
    statements: set<nat>, end: nat, plan: FilePlan, base: nat, n: nat, pair: (nat, nat))
    requires FileFits(statements, end, plan, base) && n <= |plan.functions| && pair in FunctionPairs(plan, base, n)
    ensures Fits(statements, end, pair)
  {
    if pair in FunctionPairs(plan, base, n - 1) {
      FunctionPairFits(statements, end, plan, base, n - 1, pair);
    } else {
      assert pair.1 == FunctionNumber(plan, base, n - 1) < base + |IdsOf(plan)|;
    }
  }

  lemma {:induction false} LoopPairFits(
    statements: set<nat>, end: nat, plan: FilePlan, base: nat, n: nat, pair: (nat, nat))
    requires FileFits(statements, end, plan, base) && n <= |plan.loops| && pair in LoopPairs(plan, base, n)
    ensures Fits(statements, end, pair)
  {
    if pair in LoopPairs(plan, base, n - 1) {
      LoopPairFits(statements, end, plan, base, n - 1, pair);
    } else {
      assert pair.1 == EnteredNumber(plan, base, n - 1) < base + |IdsOf(plan)|;
    }
  }

  lemma {:induction false} OutcomePairFits(
    statements: set<nat>, end: nat, plan: FilePlan, base: nat, decisions: seq<DecisionPlan>, start: nat, first: nat, n: nat,
    pair: (nat, nat))
    requires FileFits(statements, end, plan, base) && n <= |plan.decisions| && first + n <= |decisions|
    requires HasConditions(decisions) && end == start + RegionsBefore(decisions, |decisions|)
    requires forall k: nat | start <= k < end :: Tail(statements, end, k)
    requires forall d | 0 <= d < n :: decisions[first + d] == plan.decisions[d]
    requires pair in OutcomePairs(plan, base, decisions, start, first, n)
    ensures Fits(statements, end, pair)
  {
    if pair in OutcomePairs(plan, base, decisions, start, first, n - 1) {
      OutcomePairFits(statements, end, plan, base, decisions, start, first, n - 1, pair);
    } else {
      var region := start + RegionsBefore(decisions, first + n - 1);
      RegionByteIsFound(decisions, start, first + n - 1, region + 1);
      assert Tail(statements, end, region) && Tail(statements, end, region + 1);
    }
  }

  // -- the statements of all files ----------------------------------------------------------------------

  function Stretch(base: nat, length: nat): set<nat> {
    if length == 0 then {} else Stretch(base, length - 1) + {base + length - 1}
  }

  lemma {:induction false} StretchHolds(base: nat, length: nat, byte: nat)
    ensures byte in Stretch(base, length) <==> base <= byte < base + length
  {
    if length > 0 {
      StretchHolds(base, length - 1, byte);
    }
  }

  function StatementBytes(files: seq<FilePlan>, n: nat): set<nat>
    requires n <= |files|
  {
    if n == 0 then {}
    else
      var base := Base(files, n - 1);
      StatementBytes(files, n - 1) + Stretch(base, |files[n - 1].statements|)
  }

  predicate InStatements(files: seq<FilePlan>, i: nat, byte: nat)
    requires i < |files|
  {
    Base(files, i) <= byte < Base(files, i) + |files[i].statements|
  }

  lemma {:induction false} StatementByte(files: seq<FilePlan>, n: nat, byte: nat)
    requires n <= |files|
    ensures byte in StatementBytes(files, n)
      <==> exists i: nat :: i < n && InStatements(files, i, byte)
  {
    if n > 0 {
      StatementByte(files, n - 1, byte);
      StretchHolds(Base(files, n - 1), |files[n - 1].statements|, byte);
      var last: nat := n - 1;
      if InStatements(files, last, byte) {
        assert last < n;
      }
    }
  }

  /** A file's number past its statements is no statement's, its own or another's. */
  lemma {:induction false} PastStatements(files: seq<FilePlan>, i: nat, number: nat)
    requires i < |files|
    requires Base(files, i) + |files[i].statements| <= number < Base(files, i) + |IdsOf(files[i])|
    ensures number !in StatementBytes(files, |files|) && SLOT_HEADER <= number < IdEnd(files)
  {
    NumbersAreApart(files, i, |files|);
    StatementByte(files, |files|, number);
    forall j: nat | j < |files|
      ensures !InStatements(files, j, number)
    {
      if j < i {
        NumbersAreApart(files, j, i);
      } else if j > i {
        NumbersAreApart(files, i, j);
      }
    }
  }

  /** Statements' bytes are among the obligations'. */
  lemma {:induction false} StatementsInIds(files: seq<FilePlan>, n: nat)
    requires n <= |files|
    ensures forall byte | byte in StatementBytes(files, n) :: SLOT_HEADER <= byte < IdEnd(files)
  {
    if n > 0 {
      StatementsInIds(files, n - 1);
      NumbersAreApart(files, n - 1, |files|);
      InStretch(Base(files, n - 1), |files[n - 1].statements|, IdEnd(files));
    }
  }

  lemma {:induction false} InStretch(base: nat, length: nat, end: nat)
    requires SLOT_HEADER <= base && base + length <= end
    ensures forall byte | byte in Stretch(base, length) :: SLOT_HEADER <= byte < end
  {
    forall byte | byte in Stretch(base, length)
      ensures SLOT_HEADER <= byte < end
    {
      StretchHolds(base, length, byte);
    }
  }

  lemma {:induction false} EachFileFits(files: seq<FilePlan>, i: nat, statements: set<nat>, end: nat)
    requires i < |files| && statements == StatementBytes(files, |files|) && end == SlotBytes(files)
    ensures FileFits(statements, end, files[i], Base(files, i))
  {
    var plan, base := files[i], Base(files, i);
    forall id | HeadOf(plan, base, id).Some?
      ensures HeadOf(plan, base, id).value in statements
    {
      HeadIsStatement(plan, base, |plan.statements|, id.value);
      StatementByte(files, |files|, HeadOf(plan, base, id).value);
      assert InStatements(files, i, HeadOf(plan, base, id).value);
    }
    forall k: nat | base + |plan.statements| <= k < base + |IdsOf(plan)|
      ensures Tail(statements, end, k)
    {
      PastStatements(files, i, k);
    }
  }

  /** What makes one file's pairs fit. */
  ghost predicate PlanFits(
    statements: set<nat>, end: nat, plan: FilePlan, base: nat, decisions: seq<DecisionPlan>, start: nat, first: nat)
  {
    && FileFits(statements, end, plan, base) && first + |plan.decisions| <= |decisions|
    && HasConditions(decisions) && SLOT_HEADER <= start && end == start + RegionsBefore(decisions, |decisions|)
    && (forall byte | byte in statements :: byte < start)
    && forall d | 0 <= d < |plan.decisions| :: decisions[first + d] == plan.decisions[d]
  }

  lemma {:induction false} EachPlanFits(files: seq<FilePlan>, i: nat, statements: set<nat>, end: nat)
    requires i < |files| && HasConditions(AllDecisions(files))
    requires statements == StatementBytes(files, |files|) && end == SlotBytes(files)
    ensures PlanFits(statements, end, files[i], Base(files, i), AllDecisions(files), IdEnd(files), DecisionBase(files, i))
  {
    EachFileFits(files, i, statements, end);
    StatementsInIds(files, |files|);
    FileDecisions(files, i);
  }

  lemma {:induction false} FilePairFits(files: seq<FilePlan>, i: nat, statements: set<nat>, end: nat, pair: (nat, nat))
    requires i < |files| && HasConditions(AllDecisions(files)) && pair in FilePairs(files, i)
    requires statements == StatementBytes(files, |files|) && end == SlotBytes(files)
    ensures Fits(statements, end, pair)
  {
    EachPlanFits(files, i, statements, end);
    PlanPairFits(statements, end, files[i], Base(files, i), AllDecisions(files), IdEnd(files), DecisionBase(files, i), pair);
  }

  lemma {:induction false} PlanPairFits(
    statements: set<nat>, end: nat, plan: FilePlan, base: nat, decisions: seq<DecisionPlan>, start: nat, first: nat,
    pair: (nat, nat))
    requires PlanFits(statements, end, plan, base, decisions, start, first)
    requires pair in PlanPairs(plan, base, decisions, start, first)
    ensures Fits(statements, end, pair)
  {
    if pair in FunctionPairs(plan, base, |plan.functions|) {
      FunctionPairFits(statements, end, plan, base, |plan.functions|, pair);
    } else if pair in LoopPairs(plan, base, |plan.loops|) {
      LoopPairFits(statements, end, plan, base, |plan.loops|, pair);
    } else {
      OutcomePairFits(statements, end, plan, base, decisions, start, first, |plan.decisions|, pair);
    }
  }

  lemma {:induction false} FileDecisions(files: seq<FilePlan>, i: nat)
    requires i < |files|
    ensures DecisionBase(files, i) + |files[i].decisions| <= |AllDecisions(files)|
    ensures forall d | 0 <= d < |files[i].decisions| ::
      AllDecisions(files)[DecisionBase(files, i) + d] == files[i].decisions[d]
  {
    DecisionsAreApart(files, i, |files|);
    forall d | 0 <= d < |files[i].decisions|
      ensures AllDecisions(files)[DecisionBase(files, i) + d] == files[i].decisions[d]
    {
      DecisionsAreRebased(files, i, d);
    }
  }

  /** A set that grew by one file's pairs. */
  lemma {:induction false} InEither(before: set<(nat, nat)>, more: set<(nat, nat)>, all: set<(nat, nat)>, pair: (nat, nat))
    returns (earlier: bool)
    requires all == before + more && pair in all
    ensures if earlier then pair in before else pair in more
  {
    earlier := pair in before;
  }

  lemma {:induction false} PairOfFile(files: seq<FilePlan>, n: nat, pair: (nat, nat)) returns (i: nat)
    requires n <= |files| && pair in AllPairs(files, n)
    ensures i < n && pair in FilePairs(files, i)
  {
    i := n - 1;
    var earlier := InEither(AllPairs(files, i), FilePairs(files, i), AllPairs(files, n), pair);
    if earlier {
      i := PairOfFile(files, i, pair);
    }
  }

  lemma {:induction false} LayoutIsAccepted(files: seq<FilePlan>, implied: map<nat, seq<nat>>)
    requires HasConditions(AllDecisions(files)) && Pairs(implied) == AllPairs(files, |files|) && NoneEmpty(implied)
    ensures Accepted(LayoutOf(files, implied))
  {
    var layout := LayoutOf(files, implied);
    LayoutIsBackToBack(files, layout);
    ImpliedIsFit(files, implied, layout);
  }

  lemma {:induction false} ImpliedIsFit(files: seq<FilePlan>, implied: map<nat, seq<nat>>, layout: Layout)
    requires HasConditions(AllDecisions(files)) && Pairs(implied) == AllPairs(files, |files|) && NoneEmpty(implied)
    requires SLOT_HEADER + layout.ids == IdEnd(files) && layout.bytes == SlotBytes(files) && layout.implied == implied
    ensures forall head | head in layout.implied :: ImpliedFits(layout, head)
  {
    var statements := SomeStatements(files, implied);
    HeadsFit(layout, statements);
  }

  lemma {:induction false} LayoutIsBackToBack(files: seq<FilePlan>, layout: Layout)
    requires HasConditions(AllDecisions(files)) && layout == LayoutOf(files, layout.implied)
    ensures BackToBack(layout.table, SLOT_HEADER + layout.ids, layout.bytes)
  {
    TableIsBackToBack(AllDecisions(files), IdEnd(files), |AllDecisions(files)|);
  }

  ghost predicate AllFit(statements: set<nat>, end: nat, implied: map<nat, seq<nat>>) {
    forall pair | pair in Pairs(implied) :: Fits(statements, end, pair)
  }

  lemma {:induction false} SomeStatements(files: seq<FilePlan>, implied: map<nat, seq<nat>>) returns (statements: set<nat>)
    requires HasConditions(AllDecisions(files)) && Pairs(implied) == AllPairs(files, |files|)
    ensures AllFit(statements, SlotBytes(files), implied)
    ensures forall byte | byte in statements :: SLOT_HEADER <= byte < IdEnd(files)
  {
    statements := StatementBytes(files, |files|);
    StatementsInIds(files, |files|);
    forall pair | pair in Pairs(implied)
      ensures Fits(statements, SlotBytes(files), pair)
    {
      var i := PairOfFile(files, |files|, pair);
      FilePairFits(files, i, statements, SlotBytes(files), pair);
    }
  }

  lemma {:induction false} HeadsFit(layout: Layout, statements: set<nat>)
    requires AllFit(statements, layout.bytes, layout.implied) && NoneEmpty(layout.implied)
    requires forall byte | byte in statements :: SLOT_HEADER <= byte < SLOT_HEADER + layout.ids
    ensures forall head | head in layout.implied :: ImpliedFits(layout, head)
  {
    var implied := layout.implied;
    forall head | head in implied
      ensures head in statements
    {
      assert (head, implied[head][0]) in Pairs(implied);
    }
    forall head | head in implied
      ensures ImpliedFits(layout, head)
    {
      forall i | 0 <= i < |implied[head]|
        ensures Tail(statements, layout.bytes, implied[head][i])
      {
        assert (head, implied[head][i]) in Pairs(implied);
      }
    }
  }

  /** What an outcome's head stands for: the head is the byte of the statement the
      plan names, and what it implies is the decision's one-condition vector. */
  lemma {:induction false} OutcomeIsImplied(files: seq<FilePlan>, implied: map<nat, seq<nat>>, i: nat, d: nat, outcome: bool, head: nat)
    requires i < |files| && d < |files[i].decisions| && files[i].decisions[d].width == 1
    requires HasConditions(AllDecisions(files))
    requires var decision := files[i].decisions[d];
      HeadOf(files[i], Base(files, i), if outcome then decision.whenTrue else decision.whenFalse) == Some(head)
    ensures
      var vector := Vector(DecisionBase(files, i) + d, [if outcome then 2 else 1], outcome);
      && Possible(files, vector) && SLOT_HEADER <= ByteOf(files, vector)
      && DecodeOne(LayoutOf(files, implied), ByteOf(files, vector)) == Some(vector)
    ensures SLOT_HEADER <= head < IdEnd(files)
    ensures var decision := files[i].decisions[d];
      Some(AllIds(files)[head - SLOT_HEADER]) == if outcome then decision.whenTrue else decision.whenFalse
  {
    var decision := files[i].decisions[d];
    DecisionsAreRebased(files, i, d);
    MeaningRoundTrip(files, implied, Vector(DecisionBase(files, i) + d, [if outcome then 2 else 1], outcome));
    var named := if outcome then decision.whenTrue else decision.whenFalse;
    HeadIsStatement(files[i], Base(files, i), |files[i].statements|, named.value);
    NumbersAreBytes(files, implied, i, head - Base(files, i));
  }

  // -- the whole index ----------------------------------------------------------------------------------

  datatype PlanIndex = PlanIndex(
    files: seq<FileProbes>, ids: seq<Id>, decisions: seq<DecisionPlan>, regions: seq<int>, table: seq<TableRow>,
    slotBytes: nat, implied: map<nat, seq<nat>>)

  function Add(implied: map<nat, seq<nat>>, head: Option<nat>, byte: nat): map<nat, seq<nat>> {
    if head.None? then implied
    else implied[head.value := (if head.value in implied then implied[head.value] else []) + [byte]]
  }

  ghost predicate NoneEmpty(implied: map<nat, seq<nat>>) {
    forall head | head in implied :: implied[head] != []
  }

  lemma {:induction false} AddedPair(implied: map<nat, seq<nat>>, head: Option<nat>, byte: nat)
    requires NoneEmpty(implied)
    ensures Pairs(Add(implied, head, byte)) == Pairs(implied) + OnePair(head, byte) && NoneEmpty(Add(implied, head, byte))
  {
    if head.Some? {
      var more := Add(implied, head, byte);
      var before := if head.value in implied then implied[head.value] else [];
      assert more[head.value][|before|] == byte;
      forall pair | pair in Pairs(implied)
        ensures pair in Pairs(more)
      {
        var i :| 0 <= i < |implied[pair.0]| && implied[pair.0][i] == pair.1;
        assert more[pair.0][i] == pair.1;
      }
      forall pair | pair in Pairs(more)
        ensures pair in Pairs(implied) + {(head.value, byte)}
      {
        var i :| 0 <= i < |more[pair.0]| && more[pair.0][i] == pair.1;
        assert pair.0 != head.value || i < |before| || i == |before|;
      }
    }
  }

  /** The regions' places, a wide decision having none. */
  method PlaceRegions(decisions: seq<DecisionPlan>, start: nat) returns (regions: seq<int>, table: seq<TableRow>, end: nat)
    ensures |regions| == |decisions| && forall d | 0 <= d < |decisions| :: regions[d] == Region(decisions, start, d)
    ensures table == Table(decisions, start, |decisions|)
    ensures end == start + RegionsBefore(decisions, |decisions|)
  {
    regions, table, end := [], [], start;
    for d := 0 to |decisions|
      invariant |regions| == d && forall e | 0 <= e < d :: regions[e] == Region(decisions, start, e)
      invariant table == Table(decisions, start, d) && end == start + RegionsBefore(decisions, d)
    {
      var width := decisions[d].width;
      if Wide(width) {
        regions := regions + [-1];
      } else {
        regions, table := regions + [end], table + [TableRow(end, width, d)];
        end := end + if width == 1 then 2 else 2 * Pow3(width);
      }
    }
  }

  /** A decision of up to six conditions has its bytes after the ids and those of the
      decisions before it, two and for more than one condition two to each vector; a
      wider one has none. */
  predicate RegionPlaced(decisions: seq<DecisionPlan>, regions: seq<int>, ids: nat, d: nat)
    requires d < |decisions| == |regions|
  {
    if decisions[d].width > 6 then regions[d] == -1
    else
      && regions[d] >= 16 + ids
      && forall e | 0 <= e < d && decisions[e].width <= 6 ::
           regions[e] + (if decisions[e].width == 1 then 2 else 2 * Pow3(decisions[e].width)) <= regions[d]
  }

  lemma {:induction false} RegionsFollow(decisions: seq<DecisionPlan>, e: nat, d: nat)
    requires e < d < |decisions| && decisions[e].width <= 6
    ensures RegionsBefore(decisions, e) + RegionBytes(decisions[e].width) <= RegionsBefore(decisions, d)
    decreases d
  {
    if e < d - 1 {
      RegionsFollow(decisions, e, d - 1);
    }
  }

  lemma {:induction false} AllPlaced(decisions: seq<DecisionPlan>, regions: seq<int>, ids: nat)
    requires |regions| == |decisions|
    requires forall d | 0 <= d < |decisions| :: regions[d] == Region(decisions, SLOT_HEADER + ids, d)
    ensures forall d | 0 <= d < |decisions| :: RegionPlaced(decisions, regions, ids, d)
  {
    forall d | 0 <= d < |decisions|
      ensures RegionPlaced(decisions, regions, ids, d)
    {
      forall e | 0 <= e < d && decisions[e].width <= 6 && decisions[d].width <= 6
        ensures regions[e] + (if decisions[e].width == 1 then 2 else 2 * Pow3(decisions[e].width)) <= regions[d]
      {
        RegionsFollow(decisions, e, d);
      }
    }
  }

  /** A dictionary of heads, as what they imply. */
  function Headed(heads: map<nat, nat>): set<(nat, nat)> {
    set tail | tail in heads :: (heads[tail], tail)
  }

  lemma {:induction false} HeadedOneMore(heads: map<nat, nat>, tail: nat, head: nat)
    requires tail !in heads
    ensures Headed(heads[tail := head]) == Headed(heads) + {(head, tail)}
  {
    var more := heads[tail := head];
    forall pair | pair in Headed(heads) + {(head, tail)}
      ensures pair in Headed(more)
    {
      assert pair.1 in more && more[pair.1] == pair.0;
    }
  }

  lemma {:induction false} EntriesAreHeaded(plan: FilePlan, base: nat, n: nat)
    requires n <= |plan.functions|
    ensures Headed(EntryHeads(plan, base, n)) == FunctionPairs(plan, base, n)
    ensures forall k | k in EntryHeads(plan, base, n) :: k < FunctionNumber(plan, base, n)
  {
    if n > 0 {
      EntriesAreHeaded(plan, base, n - 1);
      var head := HeadOf(plan, base, plan.functions[n - 1].first);
      if plan.functions[n - 1].named && head.Some? {
        HeadedOneMore(EntryHeads(plan, base, n - 1), FunctionNumber(plan, base, n - 1), head.value);
      }
    }
  }

  lemma {:induction false} LoopsAreHeaded(plan: FilePlan, base: nat, n: nat)
    requires n <= |plan.loops|
    ensures Headed(LoopHeads(plan, base, n)) == LoopPairs(plan, base, n)
    ensures forall k | k in LoopHeads(plan, base, n) :: k < EnteredNumber(plan, base, n)
  {
    if n > 0 {
      LoopsAreHeaded(plan, base, n - 1);
      var head := HeadOf(plan, base, plan.loops[n - 1].first);
      if head.Some? {
        HeadedOneMore(LoopHeads(plan, base, n - 1), EnteredNumber(plan, base, n - 1), head.value);
      }
    }
  }

  lemma {:induction false} DecisionHeadsAt(plan: FilePlan, base: nat, n: nat, d: nat)
    requires d < n <= |plan.decisions|
    ensures DecisionHeads(plan, base, n)[d]
      == (HeadOf(plan, base, plan.decisions[d].whenTrue), HeadOf(plan, base, plan.decisions[d].whenFalse))
  {
    if d < n - 1 {
      DecisionHeadsAt(plan, base, n - 1, d);
    }
  }

  /** One dictionary's heads added to what is implied. */
  method ImplyHeads(heads: map<nat, nat>, before: map<nat, seq<nat>>) returns (implied: map<nat, seq<nat>>)
    requires NoneEmpty(before)
    ensures NoneEmpty(implied) && Pairs(implied) == Pairs(before) + Headed(heads)
  {
    implied := before;
    var rest := heads;
    while rest != map[]
      invariant rest.Keys <= heads.Keys && forall k | k in rest :: rest[k] == heads[k]
      invariant NoneEmpty(implied) && Pairs(implied) + Headed(rest) == Pairs(before) + Headed(heads)
      decreases |rest|
    {
      var tail :| tail in rest;
      AddedPair(implied, Some(rest[tail]), tail);
      Removed(rest, tail);
      implied := Add(implied, Some(rest[tail]), tail);
      rest := rest - {tail};
    }
  }

  lemma {:induction false} Removed(heads: map<nat, nat>, tail: nat)
    requires tail in heads
    ensures Headed(heads) == Headed(heads - {tail}) + {(heads[tail], tail)} && |heads - {tail}| < |heads|
  {
    var less := heads - {tail};
    assert less.Keys == heads.Keys - {tail};
    assert |less.Keys| == |heads.Keys| - 1;
    HeadedOneMore(less, tail, heads[tail]);
    assert less[tail := heads[tail]] == heads;
  }

  lemma {:induction false} AddedTwo(implied: map<nat, seq<nat>>, whenTrue: Option<nat>, whenFalse: Option<nat>, region: nat)
    requires NoneEmpty(implied)
    ensures var more := Add(Add(implied, whenTrue, region + 1), whenFalse, region);
      NoneEmpty(more) && Pairs(more) == Pairs(implied) + OnePair(whenTrue, region + 1) + OnePair(whenFalse, region)
  {
    AddedPair(implied, whenTrue, region + 1);
    AddedPair(Add(implied, whenTrue, region + 1), whenFalse, region);
  }

  /** The bytes one file's heads stand for, added to what the others' do. */
  method ImplyFile(
    ghost plan: FilePlan, probes: FileProbes, decisions: seq<DecisionPlan>, start: nat, regions: seq<int>, first: nat,
    before: map<nat, seq<nat>>)
    returns (implied: map<nat, seq<nat>>)
    requires first + |plan.decisions| <= |decisions| == |regions| && NoneEmpty(before)
    requires forall d | 0 <= d < |decisions| :: regions[d] == Region(decisions, start, d)
    requires forall d | 0 <= d < |plan.decisions| :: decisions[first + d] == plan.decisions[d]
    requires probes == ProbesOf(plan, probes.base)
    ensures NoneEmpty(implied)
    ensures Pairs(implied) == Pairs(before) + PlanPairs(plan, probes.base, decisions, start, first)
  {
    EntriesAreHeaded(plan, probes.base, |plan.functions|);
    LoopsAreHeaded(plan, probes.base, |plan.loops|);
    implied := ImplyHeads(probes.entryHeads, before);
    implied := ImplyHeads(probes.loopHeads, implied);
    implied := ImplyOutcomes(plan, probes, decisions, start, regions, first, implied);
  }

  method ImplyOutcomes(
    ghost plan: FilePlan, probes: FileProbes, decisions: seq<DecisionPlan>, ghost start: nat, regions: seq<int>, first: nat,
    before: map<nat, seq<nat>>)
    returns (implied: map<nat, seq<nat>>)
    requires first + |plan.decisions| <= |decisions| == |regions| && NoneEmpty(before)
    requires forall d | 0 <= d < |decisions| :: regions[d] == Region(decisions, start, d)
    requires forall d | 0 <= d < |plan.decisions| :: decisions[first + d] == plan.decisions[d]
    requires probes.decisionHeads == DecisionHeads(plan, probes.base, |plan.decisions|)
    ensures NoneEmpty(implied)
    ensures Pairs(implied)
      == Pairs(before) + OutcomePairs(plan, probes.base, decisions, start, first, |plan.decisions|)
  {
    implied := before;
    for n := 0 to |probes.decisionHeads|
      invariant NoneEmpty(implied)
      invariant Pairs(implied) == Pairs(before) + OutcomePairs(plan, probes.base, decisions, start, first, n)
    {
      implied := ImplyOutcome(plan, probes, decisions, start, first, n, regions[first + n], Pairs(before), implied);
    }
  }

  /** One decision's outcomes, if it has a region and one condition. */
  method ImplyOutcome(
    ghost plan: FilePlan, probes: FileProbes, decisions: seq<DecisionPlan>, ghost start: nat, first: nat, n: nat,
    region: int, ghost base: set<(nat, nat)>, before: map<nat, seq<nat>>)
    returns (implied: map<nat, seq<nat>>)
    requires n < |plan.decisions| && first + |plan.decisions| <= |decisions|
    requires decisions[first + n] == plan.decisions[n] && region == Region(decisions, start, first + n)
    requires probes.decisionHeads == DecisionHeads(plan, probes.base, |plan.decisions|)
    requires NoneEmpty(before)
    requires Pairs(before) == base + OutcomePairs(plan, probes.base, decisions, start, first, n)
    ensures NoneEmpty(implied)
    ensures Pairs(implied) == base + OutcomePairs(plan, probes.base, decisions, start, first, n + 1)
  {
    implied := before;
    OutcomesNext(plan, probes, decisions, start, first, n);
    if decisions[first + n].width == 1 && region >= 0 {
      implied := ImplyBoth(before, probes.decisionHeads[n], region);
    }
  }

  /** The heads of one test's branches. */
  method ImplyBoth(before: map<nat, seq<nat>>, heads: (Option<nat>, Option<nat>), region: nat)
    returns (implied: map<nat, seq<nat>>)
    requires NoneEmpty(before)
    ensures NoneEmpty(implied)
    ensures Pairs(implied) == Pairs(before) + OnePair(heads.0, region + 1) + OnePair(heads.1, region)
  {
    AddedTwo(before, heads.0, heads.1, region);
    implied := Add(Add(before, heads.0, region + 1), heads.1, region);
  }

  lemma {:induction false} OutcomesNext(
    plan: FilePlan, probes: FileProbes, decisions: seq<DecisionPlan>, start: nat, first: nat, n: nat)
    requires n < |plan.decisions| && first + |plan.decisions| <= |decisions|
    requires decisions[first + n] == plan.decisions[n]
    requires probes.decisionHeads == DecisionHeads(plan, probes.base, |plan.decisions|)
    ensures var before, region := OutcomePairs(plan, probes.base, decisions, start, first, n), Region(decisions, start, first + n);
      OutcomePairs(plan, probes.base, decisions, start, first, n + 1)
      == if decisions[first + n].width != 1 || region < 0 then before
         else before + OnePair(probes.decisionHeads[n].0, region + 1) + OnePair(probes.decisionHeads[n].1, region)
  {
    DecisionHeadsAt(plan, probes.base, |plan.decisions|, n);
  }

  /** The ids at a loop's two numbers, and at a function's, are its own. */
  predicate LoopNamed(plans: seq<FilePlan>, ids: seq<Id>, i: nat, j: nat)
    requires i < |plans| && j < |plans[i].loops|
  {
    var entered := EnteredNumber(plans[i], Base(plans, i), j) - SLOT_HEADER;
    0 <= entered < |ids| - 1 && ids[entered] == plans[i].loops[j].entered && ids[entered + 1] == plans[i].loops[j].zero
  }

  predicate FunctionNamed(plans: seq<FilePlan>, ids: seq<Id>, i: nat, j: nat)
    requires i < |plans| && j < |plans[i].functions|
  {
    var number := FunctionNumber(plans[i], Base(plans, i), j) - SLOT_HEADER;
    0 <= number < |ids| && ids[number] == plans[i].functions[j].id
  }

  lemma {:induction false} AllNamed(plans: seq<FilePlan>, ids: seq<Id>)
    requires ids == AllIds(plans)
    ensures forall i, j | 0 <= i < |plans| && 0 <= j < |plans[i].loops| :: LoopNamed(plans, ids, i, j)
    ensures forall i, j | 0 <= i < |plans| && 0 <= j < |plans[i].functions| :: FunctionNamed(plans, ids, i, j)
  {
    forall i, j | 0 <= i < |plans| && 0 <= j < |plans[i].loops|
      ensures LoopNamed(plans, ids, i, j)
    {
      LoopStandsFor(plans, map[], i, j);
    }
    forall i, j | 0 <= i < |plans| && 0 <= j < |plans[i].functions|
      ensures FunctionNamed(plans, ids, i, j)
    {
      EachNumberIsItsOwn(plans, map[], ids, i, j);
    }
  }

  /** `PlanIndex`. */
  method IndexPlan(plans: seq<FilePlan>) returns (index: PlanIndex)
    requires HasConditions(AllDecisions(plans))
    ensures index.files == ProbesUpTo(plans, |plans|)
    ensures index.ids == AllIds(plans) && index.decisions == AllDecisions(plans)
    ensures index.slotBytes == SlotBytes(plans)
    ensures |index.regions| == |index.decisions|
    ensures forall d | 0 <= d < |index.regions| :: index.regions[d] == Region(AllDecisions(plans), IdEnd(plans), d)
    ensures forall d | 0 <= d < |index.regions| :: RegionPlaced(index.decisions, index.regions, |index.ids|, d)
    ensures Layout(index.slotBytes, |index.ids|, index.table, index.implied) == LayoutOf(plans, index.implied)
    ensures Pairs(index.implied) == AllPairs(plans, |plans|) && Accepted(LayoutOf(plans, index.implied))
    ensures forall i, j | 0 <= i < |plans| && 0 <= j < |plans[i].loops| :: LoopNamed(plans, index.ids, i, j)
    ensures forall i, j | 0 <= i < |plans| && 0 <= j < |plans[i].functions| :: FunctionNamed(plans, index.ids, i, j)
  {
    var files, ids, decisions := NumberFiles(plans);
    var regions, table, slotBytes := PlaceRegions(decisions, SLOT_HEADER + |ids|);
    var implied := ImplyAll(plans, files, decisions, SLOT_HEADER + |ids|, regions);
    LayoutIsAccepted(plans, implied);
    AllNamed(plans, ids);
    AllPlaced(decisions, regions, |ids|);
    index := PlanIndex(files, ids, decisions, regions, table, slotBytes, implied);
  }

  method NumberFiles(plans: seq<FilePlan>)
    returns (files: seq<FileProbes>, ids: seq<Id>, decisions: seq<DecisionPlan>)
    ensures files == ProbesUpTo(plans, |plans|)
    ensures ids == AllIds(plans) && decisions == AllDecisions(plans)
  {
    files, ids, decisions := [], [], [];
    for i := 0 to |plans|
      invariant ids == IdsUpTo(plans, i) && decisions == DecisionsUpTo(plans, i) && files == ProbesUpTo(plans, i)
    {
      var probes := NumberFile(plans[i], SLOT_HEADER + |ids|);
      files, ids, decisions := files + [probes], ids + probes.ids, decisions + plans[i].decisions;
    }
  }

  function ProbesUpTo(plans: seq<FilePlan>, n: nat): (files: seq<FileProbes>)
    requires n <= |plans|
    ensures |files| == n
  {
    if n == 0 then [] else ProbesUpTo(plans, n - 1) + [ProbesOf(plans[n - 1], Base(plans, n - 1))]
  }

  lemma {:induction false} ProbesAt(plans: seq<FilePlan>, n: nat, i: nat, probes: FileProbes)
    requires i < n <= |plans| && probes == ProbesOf(plans[i], Base(plans, i))
    ensures ProbesUpTo(plans, n)[i] == probes
  {
    Appended(ProbesUpTo(plans, n - 1), ProbesOf(plans[n - 1], Base(plans, n - 1)), ProbesUpTo(plans, n), i);
    if i < n - 1 {
      ProbesAt(plans, n - 1, i, probes);
    }
  }

  lemma {:induction false} Appended<T>(before: seq<T>, last: T, all: seq<T>, i: nat)
    requires all == before + [last] && i <= |before|
    ensures all[i] == if i < |before| then before[i] else last
  {
  }

  method ImplyAll(
    plans: seq<FilePlan>, files: seq<FileProbes>, decisions: seq<DecisionPlan>, start: nat, regions: seq<int>)
    returns (implied: map<nat, seq<nat>>)
    requires files == ProbesUpTo(plans, |plans|)
    requires decisions == AllDecisions(plans) && start == IdEnd(plans) && |regions| == |decisions|
    requires forall d | 0 <= d < |decisions| :: regions[d] == Region(decisions, start, d)
    ensures NoneEmpty(implied) && Pairs(implied) == AllPairs(plans, |plans|)
  {
    implied := map[];
    var first := 0;
    for i := 0 to |plans|
      invariant NoneEmpty(implied) && Pairs(implied) == AllPairs(plans, i) && first == DecisionBase(plans, i)
    {
      implied := ImplyNext(plans, files, decisions, start, regions, i, first, implied);
      first := first + |plans[i].decisions|;
    }
  }

  method ImplyNext(
    plans: seq<FilePlan>, files: seq<FileProbes>, decisions: seq<DecisionPlan>, start: nat, regions: seq<int>, i: nat,
    first: nat, before: map<nat, seq<nat>>)
    returns (implied: map<nat, seq<nat>>)
    requires files == ProbesUpTo(plans, |plans|) && i < |plans| && first == DecisionBase(plans, i)
    requires decisions == AllDecisions(plans) && start == IdEnd(plans) && |regions| == |decisions|
    requires forall d | 0 <= d < |decisions| :: regions[d] == Region(decisions, start, d)
    requires NoneEmpty(before) && Pairs(before) == AllPairs(plans, i)
    ensures NoneEmpty(implied) && Pairs(implied) == AllPairs(plans, i + 1)
  {
    ProbesAt(plans, |plans|, i, ProbesOf(plans[i], Base(plans, i)));
    FileDecisions(plans, i);
    implied := ImplyFile(plans[i], files[i], decisions, start, regions, first, before);
    PairsNext(plans, decisions, i, first);
  }

  lemma {:induction false} PairsNext(plans: seq<FilePlan>, decisions: seq<DecisionPlan>, i: nat, first: nat)
    requires i < |plans| && decisions == AllDecisions(plans) && first == DecisionBase(plans, i)
    requires first + |plans[i].decisions| <= |decisions|
    ensures AllPairs(plans, i + 1)
      == AllPairs(plans, i) + PlanPairs(plans[i], Base(plans, i), decisions, IdEnd(plans), first)
  {
  }
}
