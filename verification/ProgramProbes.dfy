/** A program's probes store the numbers its plan was given: what the transform
    asks of them holds of every file's, and the reader's implied bytes, those of
    all files together, say of a function's bytes exactly what its own do. */
module ProgramProbes {
  import A = AstTransform
  import opened Options
  import opened SlotLayout

  // -- the bytes that heads stand for ---------------------------------------------------------

  /** What a file's plan has a head for: a function's entry, a loop's `entered`, and
      the two outcomes of a decision with one condition. */
  datatype Item = Entry(index: nat) | Entered(loop: nat) | Outcome(decision: nat, whenTrue: bool)

  predicate IsItem(plan: FilePlan, item: Item) {
    match item
    case Entry(j) => j < |plan.functions|
    case Entered(j) => j < |plan.loops|
    case Outcome(d, _) => d < |plan.decisions| && plan.decisions[d].width == 1
  }

  function HeadOfItem(plan: FilePlan, base: nat, item: Item): Option<nat>
    requires IsItem(plan, item)
  {
    match item
    case Entry(j) => if plan.functions[j].named then HeadOf(plan, base, plan.functions[j].first) else None
    case Entered(j) => HeadOf(plan, base, plan.loops[j].first)
    case Outcome(d, whenTrue) =>
      HeadOf(plan, base, if whenTrue then plan.decisions[d].whenTrue else plan.decisions[d].whenFalse)
  }

  function ByteOfItem(files: seq<FilePlan>, i: nat, item: Item): nat
    requires i < |files| && IsItem(files[i], item)
  {
    match item
    case Entry(j) => FunctionNumber(files[i], Base(files, i), j)
    case Entered(j) => EnteredNumber(files[i], Base(files, i), j)
    case Outcome(d, whenTrue) =>
      DecisionsAreApart(files, i, |files|);
      IdEnd(files) + RegionsBefore(AllDecisions(files), DecisionBase(files, i) + d) + if whenTrue then 1 else 0
  }

  /** The pair is an item's head and byte. */
  predicate Stands(files: seq<FilePlan>, i: nat, item: Item, pair: (nat, nat)) {
    && i < |files| && IsItem(files[i], item)
    && HeadOfItem(files[i], Base(files, i), item) == Some(pair.0) && ByteOfItem(files, i, item) == pair.1
  }

  // -- pairs of the layout are items' ------------------------------------------------------------

  lemma {:induction false} FunctionPairOf(plan: FilePlan, base: nat, n: nat, pair: (nat, nat)) returns (j: nat)
    requires n <= |plan.functions| && pair in FunctionPairs(plan, base, n)
    ensures j < n && HeadOfItem(plan, base, Entry(j)) == Some(pair.0) && FunctionNumber(plan, base, j) == pair.1
  {
    j := n - 1;
    if pair in FunctionPairs(plan, base, n - 1) {
      j := FunctionPairOf(plan, base, n - 1, pair);
    }
  }

  lemma {:induction false} LoopPairOf(plan: FilePlan, base: nat, n: nat, pair: (nat, nat)) returns (j: nat)
    requires n <= |plan.loops| && pair in LoopPairs(plan, base, n)
    ensures j < n && HeadOfItem(plan, base, Entered(j)) == Some(pair.0) && EnteredNumber(plan, base, j) == pair.1
  {
    j := n - 1;
    if pair in LoopPairs(plan, base, n - 1) {
      j := LoopPairOf(plan, base, n - 1, pair);
    }
  }

  lemma {:induction false} OutcomePairOf(
    plan: FilePlan, base: nat, decisions: seq<DecisionPlan>, start: nat, first: nat, n: nat, pair: (nat, nat))
    returns (d: nat, whenTrue: bool)
    requires n <= |plan.decisions| && first + |plan.decisions| <= |decisions|
    requires forall k | 0 <= k < |plan.decisions| :: decisions[first + k] == plan.decisions[k]
    requires pair in OutcomePairs(plan, base, decisions, start, first, n)
    ensures d < n && plan.decisions[d].width == 1
    ensures HeadOfItem(plan, base, Outcome(d, whenTrue)) == Some(pair.0)
    ensures start + RegionsBefore(decisions, first + d) + (if whenTrue then 1 else 0) == pair.1
  {
    d := n - 1;
    if pair in OutcomePairs(plan, base, decisions, start, first, n - 1) {
      d, whenTrue := OutcomePairOf(plan, base, decisions, start, first, n - 1, pair);
    } else {
      assert decisions[first + d] == plan.decisions[d];
      whenTrue := pair in OnePair(HeadOf(plan, base, plan.decisions[d].whenTrue), Region(decisions, start, first + d) + 1);
    }
  }

  lemma {:induction false} PairIsItem(files: seq<FilePlan>, pair: (nat, nat)) returns (i: nat, item: Item)
    requires pair in AllPairs(files, |files|)
    ensures Stands(files, i, item, pair)
  {
    i := PairOfFile(files, |files|, pair);
    FileDecisions(files, i);
    item := PlanPairIsItem(files, i, pair);
  }

  lemma {:induction false} PlanPairIsItem(files: seq<FilePlan>, i: nat, pair: (nat, nat)) returns (item: Item)
    requires i < |files| && pair in FilePairs(files, i)
    requires DecisionBase(files, i) + |files[i].decisions| <= |AllDecisions(files)|
    requires forall d | 0 <= d < |files[i].decisions| ::
      AllDecisions(files)[DecisionBase(files, i) + d] == files[i].decisions[d]
    ensures Stands(files, i, item, pair)
  {
    var plan, base := files[i], Base(files, i);
    if pair in FunctionPairs(plan, base, |plan.functions|) {
      var j := FunctionPairOf(plan, base, |plan.functions|, pair);
      item := Entry(j);
    } else if pair in LoopPairs(plan, base, |plan.loops|) {
      var j := LoopPairOf(plan, base, |plan.loops|, pair);
      item := Entered(j);
    } else {
      var d, whenTrue := OutcomePairOf(plan, base, AllDecisions(files), IdEnd(files), DecisionBase(files, i),
        |plan.decisions|, pair);
      item := Outcome(d, whenTrue);
    }
  }

  // -- and items' pairs are the layout's -----------------------------------------------------------

  lemma {:induction false} EntryPair(plan: FilePlan, base: nat, n: nat, j: nat, pair: (nat, nat))
    requires j < n <= |plan.functions|
    requires HeadOfItem(plan, base, Entry(j)) == Some(pair.0) && FunctionNumber(plan, base, j) == pair.1
    ensures pair in FunctionPairs(plan, base, n)
  {
    if j < n - 1 {
      EntryPair(plan, base, n - 1, j, pair);
    }
  }

  lemma {:induction false} EnteredPair(plan: FilePlan, base: nat, n: nat, j: nat, pair: (nat, nat))
    requires j < n <= |plan.loops|
    requires HeadOfItem(plan, base, Entered(j)) == Some(pair.0) && EnteredNumber(plan, base, j) == pair.1
    ensures pair in LoopPairs(plan, base, n)
  {
    if j < n - 1 {
      EnteredPair(plan, base, n - 1, j, pair);
    }
  }

  lemma {:induction false} OutcomePair(
    plan: FilePlan, base: nat, decisions: seq<DecisionPlan>, start: nat, first: nat, n: nat, d: nat, whenTrue: bool,
    pair: (nat, nat))
    requires d < n <= |plan.decisions| && first + |plan.decisions| <= |decisions| && plan.decisions[d].width == 1
    requires decisions[first + d] == plan.decisions[d]
    requires HeadOfItem(plan, base, Outcome(d, whenTrue)) == Some(pair.0)
    requires start + RegionsBefore(decisions, first + d) + (if whenTrue then 1 else 0) == pair.1
    ensures pair in OutcomePairs(plan, base, decisions, start, first, n)
  {
    if d < n - 1 {
      OutcomePair(plan, base, decisions, start, first, n - 1, d, whenTrue, pair);
    }
  }

  lemma {:induction false} ItemIsPair(files: seq<FilePlan>, i: nat, item: Item, pair: (nat, nat))
    requires Stands(files, i, item, pair)
    ensures pair in FilePairs(files, i)
  {
    var plan, base, first := files[i], Base(files, i), DecisionBase(files, i);
    FileDecisions(files, i);
    match item
    case Entry(j) => EntryPair(plan, base, |plan.functions|, j, pair);
    case Entered(j) => EnteredPair(plan, base, |plan.loops|, j, pair);
    case Outcome(d, whenTrue) =>
      OutcomePair(plan, base, AllDecisions(files), IdEnd(files), first, |plan.decisions|, d, whenTrue, pair);
  }

  lemma {:induction false} LastFile(files: seq<FilePlan>, i: nat, pair: (nat, nat))
    requires i < |files| && pair in FilePairs(files, i)
    ensures pair in AllPairs(files, i + 1)
  {
    Joined(AllPairs(files, i), FilePairs(files, i), AllPairs(files, i + 1), pair);
  }

  lemma {:induction false} OneMoreFile(files: seq<FilePlan>, i: nat, pair: (nat, nat))
    requires i < |files| && pair in AllPairs(files, i)
    ensures pair in AllPairs(files, i + 1)
  {
    Joined(AllPairs(files, i), FilePairs(files, i), AllPairs(files, i + 1), pair);
  }

  lemma {:induction false} StaysAmongAll(files: seq<FilePlan>, i: nat, pair: (nat, nat))
    requires i <= |files| && pair in AllPairs(files, i)
    ensures pair in AllPairs(files, |files|)
    decreases |files| - i
  {
    if i < |files| {
      OneMoreFile(files, i, pair);
      StaysAmongAll(files, i + 1, pair);
    }
  }

  lemma {:induction false} Joined(before: set<(nat, nat)>, more: set<(nat, nat)>, all: set<(nat, nat)>, pair: (nat, nat))
    requires all == before + more && (pair in before || pair in more)
    ensures pair in all
  {
  }

  /** The layout's pairs are those of the items. */
  ghost predicate IsImplied(files: seq<FilePlan>, pair: (nat, nat)) {
    exists i: nat, item :: Stands(files, i, item, pair)
  }

  lemma {:induction false} PairsAreItems(files: seq<FilePlan>, pair: (nat, nat))
    ensures pair in AllPairs(files, |files|) <==> IsImplied(files, pair)
  {
    if pair in AllPairs(files, |files|) {
      var i, item := PairIsItem(files, pair);
    }
    if IsImplied(files, pair) {
      var i: nat, item :| Stands(files, i, item, pair);
      ItemIsPair(files, i, item, pair);
      LastFile(files, i, pair);
      StaysAmongAll(files, i + 1, pair);
    }
  }

  /** The statement the plan puts first in what the item is about. */
  function FirstOf(plan: FilePlan, item: Item): Option<Id>
    requires IsItem(plan, item)
  {
    match item
    case Entry(j) => if plan.functions[j].named then plan.functions[j].first else None
    case Entered(j) => plan.loops[j].first
    case Outcome(d, true) => plan.decisions[d].whenTrue
    case Outcome(d, false) => plan.decisions[d].whenFalse
  }

  /** The number is of the file's statement with the id, the last if ids repeat. */
  ghost predicate IsNumberOf(plan: FilePlan, base: nat, id: Id, k: nat) {
    && base <= k < base + |plan.statements| && plan.statements[k - base] == id
    && forall i | k - base < i < |plan.statements| :: plan.statements[i] != id
  }

  lemma {:induction false} NumbersAreLast(plan: FilePlan, base: nat, n: nat, id: Id)
    requires n <= |plan.statements|
    ensures var numbers := StatementNumbers(plan, base, n);
      if id in numbers then
        && base <= numbers[id] < base + n && plan.statements[numbers[id] - base] == id
        && forall i | numbers[id] - base < i < n :: plan.statements[i] != id
      else forall i | 0 <= i < n :: plan.statements[i] != id
  {
    if n > 0 {
      NumbersAreLast(plan, base, n - 1, id);
    }
  }

  lemma {:induction false} HeadIsNumber(plan: FilePlan, base: nat, first: Option<Id>, k: nat)
    ensures HeadOf(plan, base, first) == Some(k) <==> first.Some? && IsNumberOf(plan, base, first.value, k)
  {
    if first.Some? {
      NumbersAreLast(plan, base, |plan.statements|, first.value);
    }
  }

  /** The layout's implied pairs are just these: the number of the statement an entry, a
      loop's body or an outcome starts with, and the byte of that item. */
  lemma {:induction false} ImpliedByTheFirst(files: seq<FilePlan>, pair: (nat, nat))
    ensures pair in AllPairs(files, |files|) <==>
      exists i: nat, item ::
        i < |files| && IsItem(files[i], item) && ByteOfItem(files, i, item) == pair.1
        && FirstOf(files[i], item).Some? && IsNumberOf(files[i], Base(files, i), FirstOf(files[i], item).value, pair.0)
  {
    PairsAreItems(files, pair);
    forall i: nat, item | i < |files| && IsItem(files[i], item)
      ensures Stands(files, i, item, pair) <==>
        ByteOfItem(files, i, item) == pair.1 && FirstOf(files[i], item).Some?
        && IsNumberOf(files[i], Base(files, i), FirstOf(files[i], item).value, pair.0)
    {
      HeadIsNumber(files[i], Base(files, i), FirstOf(files[i], item), pair.0);
    }
  }

  // -- a byte is one item's ------------------------------------------------------------------------

  lemma {:induction false} RegionsGrow(decisions: seq<DecisionPlan>, g: nat, h: nat)
    requires g < h <= |decisions| && decisions[g].width == 1
    ensures RegionsBefore(decisions, g) + 2 <= RegionsBefore(decisions, h)
  {
    if g < h - 1 {
      RegionsGrow(decisions, g, h - 1);
    }
  }

  lemma {:induction false} ItemPlace(files: seq<FilePlan>, i: nat, item: Item)
    requires i < |files| && IsItem(files[i], item)
    ensures ByteOfItem(files, i, item) >= Base(files, i) + |files[i].statements|
    ensures item.Outcome? <==> ByteOfItem(files, i, item) >= IdEnd(files)
    ensures !item.Outcome? ==> ByteOfItem(files, i, item) < Base(files, i) + |IdsOf(files[i])|
  {
    NumbersAreApart(files, i, |files|);
  }

  lemma {:induction false} SameFile(files: seq<FilePlan>, i: nat, k: nat, byte: nat)
    requires i < |files| && Base(files, i) <= byte < Base(files, i) + |IdsOf(files[i])|
    requires k < |files| && Base(files, k) <= byte < Base(files, k) + |IdsOf(files[k])|
    ensures i == k
  {
    if i < k {
      NumbersAreApart(files, i, k);
    } else if k < i {
      NumbersAreApart(files, k, i);
    }
  }

  lemma {:induction false} SameOutcome(files: seq<FilePlan>, i: nat, item: Item, k: nat, other: Item)
    requires i < |files| && IsItem(files[i], item) && k < |files| && IsItem(files[k], other)
    requires item.Outcome? && other.Outcome? && ByteOfItem(files, i, item) == ByteOfItem(files, k, other)
    ensures i == k && item == other
  {
    FileDecisions(files, i);
    FileDecisions(files, k);
    var all, g, h := AllDecisions(files), DecisionBase(files, i) + item.decision, DecisionBase(files, k) + other.decision;
    assert all[g].width == 1 && all[h].width == 1;
    if g < h {
      RegionsGrow(all, g, h);
    } else if h < g {
      RegionsGrow(all, h, g);
    }
    if i < k {
      DecisionsAreApart(files, i, k);
    } else if k < i {
      DecisionsAreApart(files, k, i);
    }
  }

  lemma {:induction false} SameItem(files: seq<FilePlan>, i: nat, item: Item, k: nat, other: Item)
    requires i < |files| && IsItem(files[i], item) && k < |files| && IsItem(files[k], other)
    requires ByteOfItem(files, i, item) == ByteOfItem(files, k, other)
    ensures i == k && item == other
  {
    ItemPlace(files, i, item);
    ItemPlace(files, k, other);
    if item.Outcome? {
      SameOutcome(files, i, item, k, other);
    } else {
      SameFile(files, i, k, ByteOfItem(files, i, item));
    }
  }

  // -- programs written for a plan --------------------------------------------------------------------

  predicate IsStatement(files: seq<FilePlan>, i: nat, byte: nat)
    requires i < |files|
  {
    Base(files, i) <= byte < Base(files, i) + |files[i].statements|
  }

  predicate DrawnNumber(files: seq<FilePlan>, i: nat, k: Option<nat>)
    requires i < |files|
  {
    k.Some? ==> IsStatement(files, i, k.value)
  }

  /** A byte and its head are an item's of the plan. */
  predicate DrawnByte(files: seq<FilePlan>, i: nat, item: Item, head: Option<nat>, byte: nat)
    requires i < |files|
  {
    IsItem(files[i], item) && head == HeadOfItem(files[i], Base(files, i), item) && byte == ByteOfItem(files, i, item)
  }

  ghost predicate DrawnTest(files: seq<FilePlan>, i: nat, slot: Option<nat>, heads: A.Heads)
    requires i < |files|
  {
    slot.Some? ==> exists d: nat ::
      DrawnByte(files, i, Outcome(d, true), heads.whenTrue, slot.value + 1)
      && DrawnByte(files, i, Outcome(d, false), heads.whenFalse, slot.value)
  }

  /** A loop's `zero` is the number after its `entered`. */
  ghost predicate DrawnLoop(files: seq<FilePlan>, i: nat, plan: Option<A.Loop>)
    requires i < |files|
  {
    plan.Some? ==>
      plan.value.zero == plan.value.entered + 1
      && exists j: nat :: DrawnByte(files, i, Entered(j), plan.value.head, plan.value.entered)
  }

  ghost predicate DrawnBlock(files: seq<FilePlan>, i: nat, block: seq<A.Stmt>)
    requires i < |files|
  {
    block == [] || (DrawnStmt(files, i, block[0]) && DrawnBlock(files, i, block[1..]))
  }

  ghost predicate DrawnStmt(files: seq<FilePlan>, i: nat, s: A.Stmt)
    requires i < |files|
  {
    DrawnNumber(files, i, A.Number(s)) &&
    match s
    case If(_, _, slot, heads, body, orelse) =>
      DrawnTest(files, i, slot, heads) && DrawnBlock(files, i, body) && DrawnBlock(files, i, orelse)
    case While(_, _, slot, heads, body, orelse) =>
      DrawnTest(files, i, slot, heads) && DrawnBlock(files, i, body) && DrawnBlock(files, i, orelse)
    case For(_, _, plan, body, orelse) =>
      DrawnLoop(files, i, plan) && DrawnBlock(files, i, body) && DrawnBlock(files, i, orelse)
    case _ => true
  }

  ghost predicate Drawn(files: seq<FilePlan>, i: nat, f: A.Function)
    requires i < |files|
  {
    DrawnBlock(files, i, f.body) && exists j: nat :: DrawnByte(files, i, Entry(j), f.head, f.entry)
  }

  // -- statements' numbers and structural bytes ----------------------------------------------------------

  lemma {:induction false} NumbersAreStatements(files: seq<FilePlan>, i: nat, block: seq<A.Stmt>, byte: nat)
    requires i < |files| && DrawnBlock(files, i, block) && byte in A.Numbers(block)
    ensures IsStatement(files, i, byte)
    decreases block
  {
    var s := block[0];
    if byte in A.Numbers(block[1..]) {
      NumbersAreStatements(files, i, block[1..], byte);
    } else if byte in A.Inside(s) {
      if byte in A.Numbers(s.body) {
        NumbersAreStatements(files, i, s.body, byte);
      } else {
        NumbersAreStatements(files, i, s.orelse, byte);
      }
    }
  }

  /** A structural byte is past the statements, and where a head stands for it, that
      is a pair of the program's own. */
  ghost predicate Settled(files: seq<FilePlan>, i: nat, byte: nat, own: set<(nat, nat)>)
    requires i < |files|
  {
    && byte >= Base(files, i) + |files[i].statements|
    && forall head: nat | IsImplied(files, (head, byte)) :: (head, byte) in own
  }

  lemma {:induction false} ItemSettled(files: seq<FilePlan>, i: nat, item: Item, head: Option<nat>, byte: nat)
    requires i < |files| && DrawnByte(files, i, item, head, byte)
    ensures Settled(files, i, byte, A.Pair(head, byte))
  {
    ItemPlace(files, i, item);
    forall k: nat | IsImplied(files, (k, byte))
      ensures (k, byte) in A.Pair(head, byte)
    {
      var other: nat, another :| Stands(files, other, another, (k, byte));
      SameItem(files, i, item, other, another);
    }
  }

  /** No head stands for a loop's `zero`. */
  lemma {:induction false} ZeroSettled(files: seq<FilePlan>, i: nat, j: nat, byte: nat)
    requires i < |files| && j < |files[i].loops| && byte == EnteredNumber(files[i], Base(files, i), j) + 1
    ensures Settled(files, i, byte, {})
  {
    forall k: nat
      ensures !IsImplied(files, (k, byte))
    {
      if IsImplied(files, (k, byte)) {
        var other: nat, item :| Stands(files, other, item, (k, byte));
        NoItemIsZero(files, i, j, other, item);
      }
    }
  }

  lemma {:induction false} NoItemIsZero(files: seq<FilePlan>, i: nat, j: nat, other: nat, item: Item)
    requires i < |files| && j < |files[i].loops| && other < |files| && IsItem(files[other], item)
    ensures ByteOfItem(files, other, item) != EnteredNumber(files[i], Base(files, i), j) + 1
  {
    var byte := EnteredNumber(files[i], Base(files, i), j) + 1;
    if ByteOfItem(files, other, item) == byte {
      ItemPlace(files, other, item);
      NumbersAreApart(files, i, |files|);
      SameFile(files, i, other, byte);
    }
  }

  lemma {:induction false} SettledMore(files: seq<FilePlan>, i: nat, byte: nat, own: set<(nat, nat)>, more: set<(nat, nat)>)
    requires i < |files| && Settled(files, i, byte, own) && own <= more
    ensures Settled(files, i, byte, more)
  {
  }

  lemma {:induction false} TestSettled(files: seq<FilePlan>, i: nat, slot: nat, heads: A.Heads, byte: nat)
    requires i < |files| && DrawnTest(files, i, Some(slot), heads) && (byte == slot || byte == slot + 1)
    ensures Settled(files, i, byte, A.Pair(heads.whenTrue, slot + 1) + A.Pair(heads.whenFalse, slot))
  {
    var d: nat :| DrawnByte(files, i, Outcome(d, true), heads.whenTrue, slot + 1)
      && DrawnByte(files, i, Outcome(d, false), heads.whenFalse, slot);
    var yes, no := A.Pair(heads.whenTrue, slot + 1), A.Pair(heads.whenFalse, slot);
    if byte == slot {
      ItemSettled(files, i, Outcome(d, false), heads.whenFalse, slot);
      SettledMore(files, i, byte, no, yes + no);
    } else {
      ItemSettled(files, i, Outcome(d, true), heads.whenTrue, slot + 1);
      SettledMore(files, i, byte, yes, yes + no);
    }
  }

  lemma {:induction false} LoopSettled(files: seq<FilePlan>, i: nat, plan: A.Loop, byte: nat)
    requires i < |files| && DrawnLoop(files, i, Some(plan)) && (byte == plan.entered || byte == plan.zero)
    ensures Settled(files, i, byte, A.Pair(plan.head, plan.entered))
  {
    var j: nat :| DrawnByte(files, i, Entered(j), plan.head, plan.entered);
    if byte == plan.entered {
      ItemSettled(files, i, Entered(j), plan.head, plan.entered);
    } else {
      ZeroSettled(files, i, j, byte);
      SettledMore(files, i, byte, {}, A.Pair(plan.head, plan.entered));
    }
  }

  lemma {:induction false} StructuralSettled(files: seq<FilePlan>, i: nat, block: seq<A.Stmt>, byte: nat)
    requires i < |files| && DrawnBlock(files, i, block) && byte in A.Structural(block)
    ensures Settled(files, i, byte, A.Implied(block))
    decreases block, 0
  {
    var s := block[0];
    if byte in A.StructuralOf(s) {
      StmtSettled(files, i, s, byte);
    } else {
      StructuralSettled(files, i, block[1..], byte);
    }
  }

  lemma {:induction false} StmtSettled(files: seq<FilePlan>, i: nat, s: A.Stmt, byte: nat)
    requires i < |files| && DrawnStmt(files, i, s) && byte in A.StructuralOf(s)
    ensures Settled(files, i, byte, A.ImpliedOf(s))
    decreases s, 1
  {
    if byte in A.Own(s) {
      OwnSettled(files, i, s, byte);
    } else if byte in A.Structural(s.body) {
      StructuralSettled(files, i, s.body, byte);
    } else {
      StructuralSettled(files, i, s.orelse, byte);
    }
  }

  lemma {:induction false} OwnSettled(files: seq<FilePlan>, i: nat, s: A.Stmt, byte: nat)
    requires i < |files| && DrawnStmt(files, i, s) && byte in A.Own(s)
    ensures Settled(files, i, byte, A.ImpliedOf(s))
  {
    match s
    case If(_, _, slot, heads, body, orelse) => TestSettled(files, i, slot.value, heads, byte);
    case While(_, _, slot, heads, body, orelse) => TestSettled(files, i, slot.value, heads, byte);
    case For(_, _, plan, body, orelse) => LoopSettled(files, i, plan.value, byte);
  }

  // -- the program's pairs are the layout's ----------------------------------------------------------------

  ghost predicate AllImplied(files: seq<FilePlan>, pairs: set<(nat, nat)>) {
    forall pair | pair in pairs :: IsImplied(files, pair)
  }

  lemma {:induction false} DrawnPair(files: seq<FilePlan>, i: nat, item: Item, head: Option<nat>, byte: nat)
    requires i < |files| && DrawnByte(files, i, item, head, byte)
    ensures AllImplied(files, A.Pair(head, byte))
  {
    if head.Some? {
      assert Stands(files, i, item, (head.value, byte));
    }
  }

  lemma {:induction false} TestPairs(files: seq<FilePlan>, i: nat, slot: Option<nat>, heads: A.Heads)
    requires i < |files| && DrawnTest(files, i, slot, heads)
    ensures AllImplied(files, A.OutcomePair(slot, heads.whenTrue, 1)) && AllImplied(files, A.OutcomePair(slot, heads.whenFalse, 0))
  {
    if slot.Some? {
      var d: nat :| DrawnByte(files, i, Outcome(d, true), heads.whenTrue, slot.value + 1)
        && DrawnByte(files, i, Outcome(d, false), heads.whenFalse, slot.value);
      DrawnPair(files, i, Outcome(d, true), heads.whenTrue, slot.value + 1);
      DrawnPair(files, i, Outcome(d, false), heads.whenFalse, slot.value);
    }
  }

  lemma {:induction false} LoopPair(files: seq<FilePlan>, i: nat, plan: A.Loop)
    requires i < |files| && DrawnLoop(files, i, Some(plan))
    ensures AllImplied(files, A.Pair(plan.head, plan.entered))
  {
    var j: nat :| DrawnByte(files, i, Entered(j), plan.head, plan.entered);
    DrawnPair(files, i, Entered(j), plan.head, plan.entered);
  }

  lemma {:induction false} BlockPairs(files: seq<FilePlan>, i: nat, block: seq<A.Stmt>)
    requires i < |files| && DrawnBlock(files, i, block)
    ensures AllImplied(files, A.Implied(block))
    decreases block, 0
  {
    if block != [] {
      StmtPairs(files, i, block[0]);
      BlockPairs(files, i, block[1..]);
    }
  }

  lemma {:induction false} StmtPairs(files: seq<FilePlan>, i: nat, s: A.Stmt)
    requires i < |files| && DrawnStmt(files, i, s)
    ensures AllImplied(files, A.ImpliedOf(s))
    decreases s, 1
  {
    match s
    case If(_, _, slot, heads, body, orelse) =>
      BlockPairs(files, i, body);
      BlockPairs(files, i, orelse);
      TestPairs(files, i, slot, heads);
    case While(_, _, slot, heads, body, orelse) =>
      BlockPairs(files, i, body);
      BlockPairs(files, i, orelse);
      TestPairs(files, i, slot, heads);
    case For(_, _, plan, body, orelse) =>
      BlockPairs(files, i, body);
      BlockPairs(files, i, orelse);
      if plan.Some? {
        LoopPair(files, i, plan.value);
      }
    case _ =>
  }

  lemma {:induction false} OwnPairs(files: seq<FilePlan>, i: nat, f: A.Function)
    requires i < |files| && Drawn(files, i, f)
    ensures AllImplied(files, A.Implied(f.body) + A.Pair(f.head, f.entry))
  {
    var j: nat :| DrawnByte(files, i, Entry(j), f.head, f.entry);
    BlockPairs(files, i, f.body);
    DrawnPair(files, i, Entry(j), f.head, f.entry);
  }

  // -- the main results ----------------------------------------------------------------------------------------

  /** A function whose probes store its plan's numbers meets what the transform asks:
      no structural byte is a statement's. And the bytes its heads stand for are
      among the layout's implied ones. */
  lemma {:induction false} NumbersServeTheTransform(files: seq<FilePlan>, i: nat, f: A.Function)
    requires i < |files| && Drawn(files, i, f)
    requires A.Planned(f.body) && A.HeadOf(f.head, f.body)
    ensures A.PlannedFunction(f)
    ensures A.Implied(f.body) + A.Pair(f.head, f.entry) <= AllPairs(files, |files|)
  {
    StructuralIsApart(files, i, f);
    OwnPairs(files, i, f);
    forall pair | pair in A.Implied(f.body) + A.Pair(f.head, f.entry)
      ensures pair in AllPairs(files, |files|)
    {
      PairsAreItems(files, pair);
    }
  }

  lemma {:induction false} StructuralIsApart(files: seq<FilePlan>, i: nat, f: A.Function)
    requires i < |files| && Drawn(files, i, f)
    ensures (A.Structural(f.body) + {f.entry}) !! A.Numbers(f.body)
  {
    var j: nat :| DrawnByte(files, i, Entry(j), f.head, f.entry);
    ItemPlace(files, i, Entry(j));
    forall byte | byte in A.Structural(f.body) + {f.entry}
      ensures byte !in A.Numbers(f.body)
    {
      if byte in A.Structural(f.body) {
        StructuralSettled(files, i, f.body, byte);
      }
      if byte in A.Numbers(f.body) {
        NumbersAreStatements(files, i, f.body, byte);
      }
    }
  }

  /** Of a byte of the function, the layout's pairs say what its own do. */
  lemma {:induction false} SaysTheSame(
    files: seq<FilePlan>, i: nat, f: A.Function, all: set<(nat, nat)>, stored: set<nat>, byte: nat)
    requires i < |files| && Drawn(files, i, f) && A.Planned(f.body) && A.HeadOf(f.head, f.body)
    requires byte in A.Bytes(f.body) + {f.entry} && all == AllPairs(files, |files|)
    ensures byte in A.Expand(all, stored) <==> byte in A.Expand(A.Implied(f.body) + A.Pair(f.head, f.entry), stored)
  {
    NumbersServeTheTransform(files, i, f);
    var own := A.Implied(f.body) + A.Pair(f.head, f.entry);
    forall pair | pair in all && pair.1 == byte
      ensures pair in own
    {
      PairsAreItems(files, pair);
      PairIsOwn(files, i, f, pair.0, byte);
    }
    SameExpanded(all, own, stored, byte);
  }

  lemma {:induction false} SameExpanded(all: set<(nat, nat)>, own: set<(nat, nat)>, stored: set<nat>, byte: nat)
    requires own <= all && forall pair | pair in all && pair.1 == byte :: pair in own
    ensures byte in A.Expand(all, stored) <==> byte in A.Expand(own, stored)
  {
  }

  lemma {:induction false} PairIsOwn(files: seq<FilePlan>, i: nat, f: A.Function, head: nat, byte: nat)
    requires i < |files| && Drawn(files, i, f) && IsImplied(files, (head, byte))
    requires byte in A.Bytes(f.body) + {f.entry}
    ensures (head, byte) in A.Implied(f.body) + A.Pair(f.head, f.entry)
  {
    if byte in A.Structural(f.body) {
      StructuralSettled(files, i, f.body, byte);
    } else if byte == f.entry {
      var j: nat :| DrawnByte(files, i, Entry(j), f.head, f.entry);
      ItemSettled(files, i, Entry(j), f.head, f.entry);
    } else {
      NumbersAreStatements(files, i, f.body, byte);
      NothingStandsForStatements(files, i, head, byte);
    }
  }

  /** No head stands for a statement. */
  lemma {:induction false} NothingStandsForStatements(files: seq<FilePlan>, i: nat, head: nat, byte: nat)
    requires i < |files| && IsImplied(files, (head, byte))
    ensures !IsStatement(files, i, byte)
  {
    var k: nat, item :| Stands(files, k, item, (head, byte));
    ItemPlace(files, k, item);
    if IsStatement(files, i, byte) {
      NumbersAreApart(files, i, |files|);
      SameFile(files, i, k, byte);
    }
  }

  /** From the plan to the reader: for every function with its plan's numbers, every
      world and every bound on its loops, a byte of the function is set, once the
      reader added what the layout of all files says is implied, exactly when the
      run showed what it stands for. */
  lemma {:induction false} ReaderSeesTheRun<S(!new)>(
    files: seq<FilePlan>, i: nat, implied: map<nat, seq<nat>>, f: A.Function, w: A.World<S>, fuel: nat, state: S, byte: nat)
    requires i < |files| && Pairs(implied) == AllPairs(files, |files|)
    requires Drawn(files, i, f) && A.Planned(f.body) && A.HeadOf(f.head, f.body)
    requires byte in A.Bytes(f.body) + {f.entry}
    ensures
      var r := A.ExecBlock(w, fuel, f.body, state, map[]);
      var t := A.ExecBlock(w, fuel, A.TransformFunction(f), state, map[]);
      byte in A.Expand(Pairs(implied), t.stored) <==> byte in {f.entry} + r.facts
  {
    NumbersServeTheTransform(files, i, f);
    A.TransformedFunctionIsFaithful(w, fuel, f, state);
    var t := A.ExecBlock(w, fuel, A.TransformFunction(f), state, map[]);
    SaysTheSame(files, i, f, Pairs(implied), t.stored, byte);
  }
}
