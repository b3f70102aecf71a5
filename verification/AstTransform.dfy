/** The Python transform: probes inserted into statement lists. The language is
    the one the insertion rules are about: simple statements, `if` and `while`
    with a one-condition test, `for`, their `else` blocks, break, continue,
    return and raise (a simple statement whose effect raises).

    The transformed program behaves as the original does, and the bytes it
    stores, read with the layout's implied bytes, are exactly the facts of the
    run, although a structural probe is left out wherever a head's stands for it. */
module AstTransform {
  import opened Options

  /** `k` is the statement's own number, absent where the plan has none. A
      test's region starts at `slot`: false is `slot`, true is `slot + 1`. */
  datatype Stmt =
    | Simple(k: Option<nat>, id: nat)
    | Break(k: Option<nat>)
    | Continue(k: Option<nat>)
    | Return(k: Option<nat>, id: nat)
    | If(k: Option<nat>, test: nat, slot: Option<nat>, heads: Heads, body: seq<Stmt>, orelse: seq<Stmt>)
    | While(k: Option<nat>, test: nat, slot: Option<nat>, heads: Heads, body: seq<Stmt>, orelse: seq<Stmt>)
    | For(k: Option<nat>, iter: nat, plan: Option<Loop>, body: seq<Stmt>, orelse: seq<Stmt>)
    | Hit(byte: nat)                  // hits()[byte] = 1
    | Reset(flag: nat)                // flag = 0
    | Mark(flag: nat, byte: nat)      // flag = hits()[byte] = 1
    | Check(flag: nat, byte: nat)     // if not flag: hits()[byte] = 1

  /** The statements that start the branches of a test. */
  datatype Heads = Heads(whenTrue: Option<nat>, whenFalse: Option<nat>)

  datatype Loop = Loop(entered: nat, zero: nat, head: Option<nat>)

  datatype Function = Function(entry: nat, head: Option<nat>, body: seq<Stmt>)

  function Number(s: Stmt): Option<nat> {
    if s.Hit? || s.Reset? || s.Mark? || s.Check? then None else s.k
  }

  // -- behaviour -----------------------------------------------------------------

  datatype Answer = Yes | No | Error
  datatype Outcome = Normal | Broke | Continued | Returned | Raised | OutOfFuel

  /** What the program's own expressions do to a state no probe can see. */
  datatype World<!S> = World(
    effect: (nat, S) -> (S, bool),
    test: (nat, S) -> (S, Answer),
    next: (nat, S) -> (S, Answer))

  /** A finished run: the program's state, the probes' local flags, how it ended,
      the bytes its probes stored, and the facts a perfect observer saw. */
  datatype Run<S> = Run(state: S, flags: map<nat, bool>, outcome: Outcome, stored: set<nat>, facts: set<nat>)

  function Of(k: Option<nat>): set<nat> {
    if k.Some? then {k.value} else {}
  }

  function Shifted(k: Option<nat>, offset: nat): set<nat> {
    if k.Some? then {k.value + offset} else {}
  }

  /** `second` after what `first` stored and showed. */
  function After<S>(stored: set<nat>, facts: set<nat>, second: Run<S>): Run<S> {
    second.(stored := stored + second.stored, facts := facts + second.facts)
  }

  /** `fuel` bounds the iterations of a loop, so every run has an end. */
  function ExecBlock<S>(w: World<S>, fuel: nat, block: seq<Stmt>, state: S, flags: map<nat, bool>): Run<S>
    decreases fuel, block, 0
  {
    if block == [] then Run(state, flags, Normal, {}, {})
    else
      var first := Exec(w, fuel, block[0], state, flags);
      if first.outcome != Normal then first
      else After(first.stored, first.facts, ExecBlock(w, fuel, block[1..], first.state, first.flags))
  }

  function Exec<S>(w: World<S>, fuel: nat, s: Stmt, state: S, flags: map<nat, bool>): Run<S>
    decreases fuel, s, 2
  {
    match s
    case Simple(k, id) =>
      var (after, raises) := w.effect(id, state);
      Run(after, flags, if raises then Raised else Normal, {}, Of(k))
    case Break(k) => Run(state, flags, Broke, {}, Of(k))
    case Continue(k) => Run(state, flags, Continued, {}, Of(k))
    case Return(k, id) =>
      var (after, raises) := w.effect(id, state);
      Run(after, flags, if raises then Raised else Returned, {}, Of(k))
    case If(k, test, slot, _, body, orelse) =>
      var (tested, answer) := w.test(test, state);
      (match answer
       case Error => Run(tested, flags, Raised, {}, Of(k))
       case Yes => After({}, Of(k) + Shifted(slot, 1), ExecBlock(w, fuel, body, tested, flags))
       case No => After({}, Of(k) + Shifted(slot, 0), ExecBlock(w, fuel, orelse, tested, flags)))
    case While(k, _, _, _, _, _) => After({}, Of(k), ExecWhile(w, fuel, s, state, flags))
    case For(k, iter, _, _, _) =>
      var (begun, raises) := w.effect(iter, state);
      if raises then Run(begun, flags, Raised, {}, Of(k))
      else After({}, Of(k), ExecFor(w, fuel, s, begun, flags, false))
    case Hit(byte) => Run(state, flags, Normal, {byte}, {})
    case Reset(flag) => Run(state, flags[flag := false], Normal, {}, {})
    case Mark(flag, byte) => Run(state, flags[flag := true], Normal, {byte}, {})
    case Check(flag, byte) =>
      if flag !in flags then Run(state, flags, Raised, {}, {})
      else Run(state, flags, Normal, if flags[flag] then {} else {byte}, {})
  }

  function ExecWhile<S>(w: World<S>, fuel: nat, s: Stmt, state: S, flags: map<nat, bool>): Run<S>
    requires s.While?
    decreases fuel, s, 0
  {
    var (tested, answer) := w.test(s.test, state);
    match answer
    case Error => Run(tested, flags, Raised, {}, {})
    case No => After({}, Shifted(s.slot, 0), ExecBlock(w, fuel, s.orelse, tested, flags))
    case Yes =>
      var r := After({}, Shifted(s.slot, 1), ExecBlock(w, fuel, s.body, tested, flags));
      if r.outcome == Broke then r.(outcome := Normal)
      else if r.outcome != Normal && r.outcome != Continued then r
      else if fuel == 0 then r.(outcome := OutOfFuel)
      else After(r.stored, r.facts, ExecWhile(w, fuel - 1, s, r.state, r.flags))
  }

  /** `started` says whether an item came out already. */
  function ExecFor<S>(w: World<S>, fuel: nat, s: Stmt, state: S, flags: map<nat, bool>, started: bool): Run<S>
    requires s.For?
    decreases fuel, s, 1
  {
    var (stepped, answer) := w.next(s.iter, state);
    match answer
    case Error => Run(stepped, flags, Raised, {}, {})
    case No =>
      After({}, if started then {} else ZeroOf(s.plan), ExecBlock(w, fuel, s.orelse, stepped, flags))
    case Yes => AfterItem(w, fuel, s, stepped, flags)
  }

  /** The body for one item, then the rest of the loop. */
  function AfterItem<S>(w: World<S>, fuel: nat, s: Stmt, state: S, flags: map<nat, bool>): Run<S>
    requires s.For?
    decreases fuel, s, 0
  {
    var r := After({}, EnteredOf(s.plan), ExecBlock(w, fuel, s.body, state, flags));
    if r.outcome == Broke then r.(outcome := Normal)
    else if r.outcome != Normal && r.outcome != Continued then r
    else if fuel == 0 then r.(outcome := OutOfFuel)
    else After(r.stored, r.facts, ExecFor(w, fuel - 1, s, r.state, r.flags, true))
  }

  function EnteredOf(plan: Option<Loop>): set<nat> {
    if plan.Some? then {plan.value.entered} else {}
  }

  function ZeroOf(plan: Option<Loop>): set<nat> {
    if plan.Some? then {plan.value.zero} else {}
  }

  // -- the transform ---------------------------------------------------------------

  /** Whether a list starts with the probe that stores `byte`. */
  predicate StartsWith(statements: seq<Stmt>, byte: Option<nat>) {
    byte.Some? && statements != [] && statements[0] == Hit(byte.value)
  }

  function HitOf(k: Option<nat>): seq<Stmt> {
    if k.Some? then [Hit(k.value)] else []
  }

  function Transform(block: seq<Stmt>): seq<Stmt> {
    if block == [] then []
    else HitOf(Number(block[0])) + TransformStmt(block[0]) + Transform(block[1..])
  }

  /** A branch records its outcome at its start, unless its head's probe is there. */
  function Branch(statements: seq<Stmt>, head: Option<nat>, byte: nat): seq<Stmt> {
    if StartsWith(statements, head) then statements else [Hit(byte)] + statements
  }

  function LoopBody(body: seq<Stmt>, plan: Loop): seq<Stmt> {
    if StartsWith(body, plan.head) then [Mark(plan.entered, plan.head.value)] + body[1..]
    else [Mark(plan.entered, plan.entered)] + body
  }

  /** The branch of a test with its outcome probe, if the plan has one. */
  function OutcomeBranch(block: seq<Stmt>, slot: Option<nat>, head: Option<nat>, offset: nat): seq<Stmt> {
    if slot == None then block else Branch(block, head, slot.value + offset)
  }

  /** The loop itself: its body marks the flag, and its `else` checks it first. */
  function TransformFor(s: Stmt, body: seq<Stmt>, orelse: seq<Stmt>): Stmt
    requires s.For?
  {
    match s.plan
    case None => For(s.k, s.iter, s.plan, body, orelse)
    case Some(loop) =>
      For(s.k, s.iter, s.plan, LoopBody(body, loop),
          if orelse == [] then [] else [Check(loop.entered, loop.zero)] + orelse)
  }

  function TransformStmt(s: Stmt): seq<Stmt> {
    match s
    case If(k, test, slot, heads, body, orelse) =>
      [If(k, test, slot, heads,
          OutcomeBranch(Transform(body), slot, heads.whenTrue, 1),
          OutcomeBranch(Transform(orelse), slot, heads.whenFalse, 0))]
    case While(k, test, slot, heads, body, orelse) =>
      [While(k, test, slot, heads,
          OutcomeBranch(Transform(body), slot, heads.whenTrue, 1),
          OutcomeBranch(Transform(orelse), slot, heads.whenFalse, 0))]
    case For(k, iter, None, body, orelse) => [TransformFor(s, Transform(body), Transform(orelse))]
    case For(k, iter, Some(loop), body, orelse) =>
      [Reset(loop.entered), TransformFor(s, Transform(body), Transform(orelse))]
      + if orelse == [] then [Check(loop.entered, loop.zero)] else []
    case _ => [s]
  }

  function TransformFunction(f: Function): seq<Stmt> {
    Branch(Transform(f.body), f.head, f.entry)
  }

  // -- what the plan promises --------------------------------------------------------

  /** The statement numbers below a list, which only heads are taken from. */
  function Numbers(block: seq<Stmt>): set<nat> {
    if block == [] then {} else Of(Number(block[0])) + Inside(block[0]) + Numbers(block[1..])
  }

  function Inside(s: Stmt): set<nat> {
    match s
    case If(_, _, _, _, body, orelse) => Numbers(body) + Numbers(orelse)
    case While(_, _, _, _, body, orelse) => Numbers(body) + Numbers(orelse)
    case For(_, _, _, body, orelse) => Numbers(body) + Numbers(orelse)
    case _ => {}
  }

  /** The bytes of structural obligations: outcomes, `entered`, `zero`. */
  function Structural(block: seq<Stmt>): set<nat> {
    if block == [] then {} else StructuralOf(block[0]) + Structural(block[1..])
  }

  function Own(s: Stmt): set<nat> {
    match s
    case If(_, _, slot, _, _, _) => Shifted(slot, 0) + Shifted(slot, 1)
    case While(_, _, slot, _, _, _) => Shifted(slot, 0) + Shifted(slot, 1)
    case For(_, _, plan, _, _) => EnteredOf(plan) + ZeroOf(plan)
    case _ => {}
  }

  function StructuralOf(s: Stmt): set<nat> {
    match s
    case If(_, _, _, _, body, orelse) => Own(s) + Structural(body) + Structural(orelse)
    case While(_, _, _, _, body, orelse) => Own(s) + Structural(body) + Structural(orelse)
    case For(_, _, _, body, orelse) => Own(s) + Structural(body) + Structural(orelse)
    case _ => {}
  }

  predicate HeadOf(head: Option<nat>, block: seq<Stmt>) {
    head.Some? ==> block != [] && Number(block[0]) == head
  }

  /** A program without probes whose plan names no byte twice and whose heads
      are the first statements of the branches and bodies they stand for. */
  predicate Planned(block: seq<Stmt>) {
    block == [] ||
    (PlannedStmt(block[0]) && Planned(block[1..])
     && (Of(Number(block[0])) !! Inside(block[0]))
     && ((Of(Number(block[0])) + Inside(block[0])) !! Numbers(block[1..])))
  }

  predicate PlannedStmt(s: Stmt) {
    match s
    case If(_, _, slot, heads, body, orelse) =>
      && Planned(body) && Planned(orelse) && (Numbers(body) !! Numbers(orelse))
      && HeadOf(heads.whenTrue, body) && HeadOf(heads.whenFalse, orelse)
    case While(_, _, slot, heads, body, orelse) =>
      && Planned(body) && Planned(orelse) && (Numbers(body) !! Numbers(orelse))
      && HeadOf(heads.whenTrue, body) && HeadOf(heads.whenFalse, orelse)
    case For(_, _, plan, body, orelse) =>
      && Planned(body) && Planned(orelse) && (Numbers(body) !! Numbers(orelse))
      && (plan.Some? ==> HeadOf(plan.value.head, body) && plan.value.entered !in Structural(body))
    case Hit(_) => false
    case Reset(_) => false
    case Mark(_, _) => false
    case Check(_, _) => false
    case _ => true
  }

  /** The layout's implied bytes: a head's byte with a byte it stands for. */
  function Pair(head: Option<nat>, byte: nat): set<(nat, nat)> {
    if head.Some? then {(head.value, byte)} else {}
  }

  function Implied(block: seq<Stmt>): set<(nat, nat)> {
    if block == [] then {} else ImpliedOf(block[0]) + Implied(block[1..])
  }

  function OutcomePair(slot: Option<nat>, head: Option<nat>, offset: nat): set<(nat, nat)> {
    if slot == None then {} else Pair(head, slot.value + offset)
  }

  function ImpliedOf(s: Stmt): set<(nat, nat)> {
    match s
    case If(_, _, slot, heads, body, orelse) =>
      (Implied(body) + OutcomePair(slot, heads.whenTrue, 1)) + (Implied(orelse) + OutcomePair(slot, heads.whenFalse, 0))
    case While(_, _, slot, heads, body, orelse) =>
      (Implied(body) + OutcomePair(slot, heads.whenTrue, 1)) + (Implied(orelse) + OutcomePair(slot, heads.whenFalse, 0))
    case For(_, _, None, body, orelse) => Implied(body) + Implied(orelse)
    case For(_, _, Some(loop), body, orelse) => (Implied(body) + Pair(loop.head, loop.entered)) + Implied(orelse)
    case _ => {}
  }

  /** Stored bytes with the bytes they stand for, as the reader decodes them. */
  function Expand(implied: set<(nat, nat)>, stored: set<nat>): set<nat> {
    stored + set pair | pair in implied && pair.0 in stored :: pair.1
  }

  // -- reading bytes -------------------------------------------------------------------

  ghost predicate HeadsAmong(implied: set<(nat, nat)>, numbers: set<nat>) {
    forall pair | pair in implied :: pair.0 in numbers
  }

  lemma {:induction false} ExpandUnion(implied: set<(nat, nat)>, first: set<nat>, second: set<nat>)
    ensures Expand(implied, first + second) == Expand(implied, first) + Expand(implied, second)
  {
  }

  /** Implied bytes whose heads were not stored change nothing. */
  lemma {:induction false} ExpandPad(implied: set<(nat, nat)>, more: set<(nat, nat)>, heads: set<nat>, stored: set<nat>)
    requires HeadsAmong(more, heads) && heads !! stored
    ensures Expand(implied + more, stored) == Expand(implied, stored)
    ensures Expand(more + implied, stored) == Expand(implied, stored)
  {
  }

  lemma {:induction false} ExpandSplit(
    implied1: set<(nat, nat)>, heads1: set<nat>, stored1: set<nat>,
    implied2: set<(nat, nat)>, heads2: set<nat>, stored2: set<nat>)
    requires HeadsAmong(implied1, heads1) && HeadsAmong(implied2, heads2)
    requires heads1 !! stored2 && heads2 !! stored1
    ensures Expand(implied1 + implied2, stored1 + stored2) == Expand(implied1, stored1) + Expand(implied2, stored2)
  {
    ExpandUnion(implied1 + implied2, stored1, stored2);
    ExpandPad(implied1, implied2, heads2, stored1);
    ExpandPad(implied2, implied1, heads1, stored2);
  }

  lemma {:induction false} HeadsAreNumbers(block: seq<Stmt>)
    requires Planned(block)
    ensures HeadsAmong(Implied(block), Numbers(block))
    decreases block, 0
  {
    if block != [] {
      StmtHeadsAreNumbers(block[0]);
      HeadsAreNumbers(block[1..]);
    }
  }

  lemma {:induction false} StmtHeadsAreNumbers(s: Stmt)
    requires PlannedStmt(s)
    ensures HeadsAmong(ImpliedOf(s), Inside(s))
    decreases s, 1
  {
    match s
    case If(_, _, _, _, body, orelse) => HeadsAreNumbers(body); HeadsAreNumbers(orelse);
    case While(_, _, _, _, body, orelse) => HeadsAreNumbers(body); HeadsAreNumbers(orelse);
    case For(_, _, _, body, orelse) => HeadsAreNumbers(body); HeadsAreNumbers(orelse);
    case _ =>
  }

  // -- running lists ---------------------------------------------------------------------

  lemma {:induction false} ExecConcat<S>(
    w: World<S>, fuel: nat, first: seq<Stmt>, second: seq<Stmt>, state: S, flags: map<nat, bool>)
    ensures var r := ExecBlock(w, fuel, first, state, flags);
      ExecBlock(w, fuel, first + second, state, flags)
      == if r.outcome != Normal then r
         else After(r.stored, r.facts, ExecBlock(w, fuel, second, r.state, r.flags))
  {
    if first == [] {
      assert first + second == second;
    } else {
      assert (first + second)[1..] == first[1..] + second;
      var one := Exec(w, fuel, first[0], state, flags);
      if one.outcome == Normal {
        ExecConcat(w, fuel, first[1..], second, one.state, one.flags);
      }
    }
  }

  lemma {:induction false} ExecOne<S>(w: World<S>, fuel: nat, s: Stmt, state: S, flags: map<nat, bool>)
    ensures ExecBlock(w, fuel, [s], state, flags) == Exec(w, fuel, s, state, flags)
  {
    var one := Exec(w, fuel, s, state, flags);
    assert [s][1..] == [];
    if one.outcome == Normal {
      assert ExecBlock(w, fuel, [], one.state, one.flags) == Run(one.state, one.flags, Normal, {}, {});
    }
  }

  // -- the transformed program against the original -----------------------------------------

  ghost predicate FlagsKept(before: map<nat, bool>, after: map<nat, bool>, touched: set<nat>) {
    forall flag | flag !in touched ::
      (flag in before <==> flag in after) && (flag in before ==> before[flag] == after[flag])
  }

  /** What a part of the transformed program owes the original: the same state,
      outcome and facts, and stored bytes that say those facts. `shown` are facts
      its surroundings show, `said` are facts their stores say. */
  ghost predicate Faithful<S>(
    r: Run<S>, t: Run<S>, shown: set<nat>, said: set<nat>, implied: set<(nat, nat)>, bytes: set<nat>,
    flags: map<nat, bool>, touched: set<nat>)
  {
    && t.state == r.state && t.outcome == r.outcome && t.facts == r.facts
    && shown + r.facts == said + Expand(implied, t.stored)
    && t.stored <= bytes
    && FlagsKept(flags, t.flags, touched)
  }

  ghost predicate Apart(block: seq<Stmt>) {
    Planned(block) && Structural(block) !! Numbers(block)
  }

  function Bytes(block: seq<Stmt>): set<nat> {
    Numbers(block) + Structural(block)
  }

  lemma {:induction false} TransformHeads(block: seq<Stmt>)
    requires Planned(block) && block != []
    ensures Number(block[0]).Some? ==> StartsWith(Transform(block), Number(block[0]))
    ensures Transform(block) != []
  {
  }

  /** A branch says its outcome, by its own probe or by its head's. */
  lemma {:induction false} BranchFaithful<S>(
    w: World<S>, fuel: nat, block: seq<Stmt>, head: Option<nat>, byte: nat, r: Run<S>, state: S, flags: map<nat, bool>)
    requires Apart(block) && HeadOf(head, block) && byte !in Numbers(block)
    requires var t := ExecBlock(w, fuel, Transform(block), state, flags);
      && Faithful(r, t, {}, {}, Implied(block), Bytes(block), flags, Structural(block))
      && (block != [] ==> Of(Number(block[0])) <= t.stored)
    ensures Faithful(r, ExecBlock(w, fuel, Branch(Transform(block), head, byte), state, flags),
      {byte}, {}, Implied(block) + Pair(head, byte), Bytes(block) + {byte}, flags, Structural(block))
  {
    var transformed := Transform(block);
    var t := ExecBlock(w, fuel, transformed, state, flags);
    HeadsAreNumbers(block);
    if head.Some? {
      TransformHeads(block);
      assert head.value in t.stored;
      ExpandUnionPairs(Implied(block), Pair(head, byte), t.stored);
    } else {
      ExecConcat(w, fuel, [Hit(byte)], transformed, state, flags);
      ExecOne(w, fuel, Hit(byte), state, flags);
      assert !StartsWith(transformed, head);
      ExpandUnion(Implied(block), {byte}, t.stored);
      assert Implied(block) + Pair(head, byte) == Implied(block);
    }
  }

  lemma {:induction false} ExpandUnionPairs(implied: set<(nat, nat)>, more: set<(nat, nat)>, stored: set<nat>)
    ensures Expand(implied + more, stored) == Expand(implied, stored) + Expand(more, stored)
  {
  }

  /** The first statement's probe, what became of it, and the rest. */
  lemma {:induction false} FirstTransformed<S>(w: World<S>, fuel: nat, block: seq<Stmt>, state: S, flags: map<nat, bool>)
    requires block != []
    ensures var k := Of(Number(block[0]));
      var t := ExecBlock(w, fuel, TransformStmt(block[0]), state, flags);
      ExecBlock(w, fuel, Transform(block), state, flags)
      == if t.outcome != Normal then After(k, {}, t)
         else After(k + t.stored, t.facts, ExecBlock(w, fuel, Transform(block[1..]), t.state, t.flags))
  {
    var hit, body := HitOf(Number(block[0])), TransformStmt(block[0]);
    HitStores(w, fuel, Number(block[0]), state, flags);
    ExecConcat(w, fuel, hit, body, state, flags);
    ExecConcat(w, fuel, hit + body, Transform(block[1..]), state, flags);
    var t := ExecBlock(w, fuel, body, state, flags);
    assert {} + t.facts == t.facts;
  }

  /** One list, on any state and any flags. */
  lemma {:induction false} BlockFaithful<S(!new)>(
    w: World<S>, fuel: nat, block: seq<Stmt>, state: S, own: map<nat, bool>, flags: map<nat, bool>)
    requires Apart(block)
    ensures var t := ExecBlock(w, fuel, Transform(block), state, flags);
      && Faithful(ExecBlock(w, fuel, block, state, own), t, {}, {}, Implied(block), Bytes(block), flags, Structural(block))
      && (block != [] ==> Of(Number(block[0])) <= t.stored)
    decreases fuel, block, 0
  {
    if block == [] {
    } else {
      var s, rest := block[0], block[1..];
      var r := Exec(w, fuel, s, state, own);
      var t := ExecBlock(w, fuel, TransformStmt(s), state, flags);
      StmtFaithful(w, fuel, s, state, own, flags);
      FirstTransformed(w, fuel, block, state, flags);
      HeadsAreNumbers(rest);
      StmtHeadsAreNumbers(s);
      StoredNumber(ImpliedOf(s), Inside(s), Number(s), t.stored);
      if r.outcome == Normal {
        BlockFaithful(w, fuel, rest, r.state, r.flags, t.flags);
        var u := ExecBlock(w, fuel, Transform(rest), t.state, t.flags);
        ExpandSplit(ImpliedOf(s), Inside(s), Of(Number(s)) + t.stored, Implied(rest), Numbers(rest), u.stored);
      } else {
        ExpandPad(ImpliedOf(s), Implied(rest), Numbers(rest), Of(Number(s)) + t.stored);
      }
    }
  }

  lemma {:induction false} HitStores<S>(w: World<S>, fuel: nat, k: Option<nat>, state: S, flags: map<nat, bool>)
    ensures ExecBlock(w, fuel, HitOf(k), state, flags) == Run(state, flags, Normal, Of(k), {})
  {
    if k.Some? {
      ExecOne(w, fuel, Hit(k.value), state, flags);
    }
  }

  lemma {:induction false} StoredNumber(implied: set<(nat, nat)>, heads: set<nat>, k: Option<nat>, stored: set<nat>)
    requires HeadsAmong(implied, heads) && Of(k) !! heads
    ensures Expand(implied, Of(k) + stored) == Of(k) + Expand(implied, stored)
  {
    ExpandUnion(implied, Of(k), stored);
  }

  /** The facts a test's statement shows before its branch are those its
      branch's stores and its own number's say. */
  lemma {:induction false} Enclose<S>(
    r: Run<S>, t: Run<S>, shown: set<nat>, said: set<nat>, implied: set<(nat, nat)>,
    bytes: set<nat>, allBytes: set<nat>, flags: map<nat, bool>, touched: set<nat>, allTouched: set<nat>)
    requires Faithful(r, t, shown, {}, implied, bytes, flags, touched) && bytes <= allBytes && touched <= allTouched
    ensures Faithful(After({}, said + shown, r), After({}, said + shown, t), {}, said, implied, allBytes, flags, allTouched)
  {
    assert said + shown + r.facts == said + (shown + r.facts);
  }

  /** One iteration after another, in the same loop. */
  lemma {:induction false} FollowedBy<S>(
    r: Run<S>, t: Run<S>, nextR: Run<S>, nextT: Run<S>, said: set<nat>, implied: set<(nat, nat)>,
    bytes: set<nat>, flags: map<nat, bool>, touched: set<nat>)
    requires Faithful(r, t, {}, {}, implied, bytes, flags, touched)
    requires Faithful(nextR, nextT, {}, said, implied, bytes, t.flags, touched)
    ensures Faithful(After(r.stored, r.facts, nextR), After(t.stored, t.facts, nextT), {}, said, implied, bytes, flags, touched)
  {
    ExpandUnion(implied, t.stored, nextT.stored);
  }

  predicate IsTest(s: Stmt) {
    s.If? || s.While?
  }

  /** The branch a test took, in the whole statement. */
  lemma {:induction false} TakenFaithful<S(!new)>(
    w: World<S>, fuel: nat, s: Stmt, answer: bool, state: S, own: map<nat, bool>, flags: map<nat, bool>, said: set<nat>)
    requires IsTest(s) && PlannedStmt(s) && StructuralOf(s) !! Inside(s)
    ensures
      var offset := if answer then 1 else 0;
      var block := if answer then s.body else s.orelse;
      var head := if answer then s.heads.whenTrue else s.heads.whenFalse;
      var taken := said + Shifted(s.slot, offset);
      var r := After({}, taken, ExecBlock(w, fuel, block, state, own));
      var t := After({}, taken, ExecBlock(w, fuel, OutcomeBranch(Transform(block), s.slot, head, offset), state, flags));
      Faithful(r, t, {}, said, ImpliedOf(s), Inside(s) + StructuralOf(s), flags, StructuralOf(s))
    decreases fuel, s, 1
  {
    var offset := if answer then 1 else 0;
    var (block, head) := if answer then (s.body, s.heads.whenTrue) else (s.orelse, s.heads.whenFalse);
    var (other, pair) :=
      if answer then (s.orelse, OutcomePair(s.slot, s.heads.whenFalse, 0))
      else (s.body, OutcomePair(s.slot, s.heads.whenTrue, 1));
    var r := ExecBlock(w, fuel, block, state, own);
    var t := ExecBlock(w, fuel, OutcomeBranch(Transform(block), s.slot, head, offset), state, flags);
    BlockFaithful(w, fuel, block, state, own, flags);
    OutcomeFaithful(w, fuel, block, s.slot, head, offset, r, state, flags, other, pair);
    Enclose(r, t, Shifted(s.slot, offset), said, ImpliedOf(s),
      Bytes(block) + Shifted(s.slot, offset), Inside(s) + StructuralOf(s), flags, Structural(block), StructuralOf(s));
  }

  lemma {:induction false} StmtFaithful<S(!new)>(
    w: World<S>, fuel: nat, s: Stmt, state: S, own: map<nat, bool>, flags: map<nat, bool>)
    requires PlannedStmt(s) && StructuralOf(s) !! Inside(s)
    ensures Faithful(Exec(w, fuel, s, state, own), ExecBlock(w, fuel, TransformStmt(s), state, flags),
      {}, Of(Number(s)), ImpliedOf(s), Inside(s) + StructuralOf(s), flags, StructuralOf(s))
    decreases fuel, s, 4
  {
    if s.If? {
      IfFaithful(w, fuel, s, state, own, flags);
    } else if s.While? {
      var u := TransformStmt(s)[0];
      WhileFaithful(w, fuel, s, state, own, flags);
      WholeWhile(w, fuel, s, u, state, own, flags, ImpliedOf(s), Inside(s) + StructuralOf(s), StructuralOf(s));
      ExecOne(w, fuel, u, state, flags);
    } else if s.For? {
      ForFaithful(w, fuel, s, state, own, flags);
    } else {
      ExecOne(w, fuel, s, state, flags);
    }
  }

  lemma {:induction false} IfFaithful<S(!new)>(
    w: World<S>, fuel: nat, s: Stmt, state: S, own: map<nat, bool>, flags: map<nat, bool>)
    requires s.If? && PlannedStmt(s) && StructuralOf(s) !! Inside(s)
    ensures Faithful(Exec(w, fuel, s, state, own), ExecBlock(w, fuel, TransformStmt(s), state, flags),
      {}, Of(Number(s)), ImpliedOf(s), Inside(s) + StructuralOf(s), flags, StructuralOf(s))
    decreases fuel, s, 3
  {
    ExecOne(w, fuel, TransformStmt(s)[0], state, flags);
    var (tested, answer) := w.test(s.test, state);
    if answer != Error {
      TakenFaithful(w, fuel, s, answer == Yes, tested, own, flags, Of(s.k));
    }
  }

  lemma {:induction false} WholeWhile<S>(
    w: World<S>, fuel: nat, s: Stmt, u: Stmt, state: S, own: map<nat, bool>, flags: map<nat, bool>,
    implied: set<(nat, nat)>, bytes: set<nat>, touched: set<nat>)
    requires s.While? && u.While? && u.k == s.k
    requires Faithful(ExecWhile(w, fuel, s, state, own), ExecWhile(w, fuel, u, state, flags), {}, {}, implied, bytes, flags, touched)
    ensures Faithful(Exec(w, fuel, s, state, own), Exec(w, fuel, u, state, flags), {}, Of(s.k), implied, bytes, flags, touched)
  {
    var r, t := ExecWhile(w, fuel, s, state, own), ExecWhile(w, fuel, u, state, flags);
    Enclose(r, t, {}, Of(s.k), implied, bytes, bytes, flags, touched, touched);
    assert Of(s.k) + {} == Of(s.k);
  }

  /** One branch of a `while` and of its transform, from the same test on. */
  ghost predicate BranchAgrees<S>(
    w: World<S>, fuel: nat, s: Stmt, u: Stmt, answer: bool, state: S, own: map<nat, bool>, flags: map<nat, bool>,
    implied: set<(nat, nat)>, bytes: set<nat>, touched: set<nat>)
    requires s.While? && u.While?
  {
    var taken := Shifted(s.slot, if answer then 1 else 0);
    Faithful(
      After({}, taken, ExecBlock(w, fuel, if answer then s.body else s.orelse, state, own)),
      After({}, taken, ExecBlock(w, fuel, if answer then u.body else u.orelse, state, flags)),
      {}, {}, implied, bytes, flags, touched)
  }

  /** Loops whose branches agree on every state agree. */
  lemma {:induction false} LoopsAgree<S(!new)>(
    w: World<S>, fuel: nat, s: Stmt, u: Stmt, state: S, own: map<nat, bool>, flags: map<nat, bool>,
    implied: set<(nat, nat)>, bytes: set<nat>, touched: set<nat>)
    requires s.While? && u.While? && u.test == s.test && u.slot == s.slot
    requires forall fuel': nat, answer, st: S, own', flags' | fuel' <= fuel ::
      BranchAgrees(w, fuel', s, u, answer, st, own', flags', implied, bytes, touched)
    ensures Faithful(ExecWhile(w, fuel, s, state, own), ExecWhile(w, fuel, u, state, flags),
      {}, {}, implied, bytes, flags, touched)
    decreases fuel
  {
    var (tested, answer) := w.test(s.test, state);
    if answer != Error {
      assert BranchAgrees(w, fuel, s, u, answer == Yes, tested, own, flags, implied, bytes, touched);
    }
    if answer == Yes && fuel > 0 {
      var r, t := ExecBlock(w, fuel, s.body, tested, own), ExecBlock(w, fuel, u.body, tested, flags);
      LoopsAgree(w, fuel - 1, s, u, r.state, r.flags, t.flags, implied, bytes, touched);
    }
    LoopTurn(w, fuel, s, u, state, own, flags, implied, bytes, touched);
  }

  /** One turn: the branch the test took agrees, and so does the loop after it. */
  lemma {:induction false} LoopTurn<S>(
    w: World<S>, fuel: nat, s: Stmt, u: Stmt, state: S, own: map<nat, bool>, flags: map<nat, bool>,
    implied: set<(nat, nat)>, bytes: set<nat>, touched: set<nat>)
    requires s.While? && u.While? && u.test == s.test && u.slot == s.slot
    requires var (tested, answer) := w.test(s.test, state);
      && (answer != Error ==>
            BranchAgrees(w, fuel, s, u, answer == Yes, tested, own, flags, implied, bytes, touched))
      && (answer == Yes && fuel > 0 ==>
            var r, t := ExecBlock(w, fuel, s.body, tested, own), ExecBlock(w, fuel, u.body, tested, flags);
            Faithful(ExecWhile(w, fuel - 1, s, r.state, r.flags), ExecWhile(w, fuel - 1, u, r.state, t.flags),
              {}, {}, implied, bytes, t.flags, touched))
    ensures Faithful(ExecWhile(w, fuel, s, state, own), ExecWhile(w, fuel, u, state, flags),
      {}, {}, implied, bytes, flags, touched)
  {
    var (tested, answer) := w.test(s.test, state);
    if answer == Yes {
      var r := After({}, Shifted(s.slot, 1), ExecBlock(w, fuel, s.body, tested, own));
      var t := After({}, Shifted(s.slot, 1), ExecBlock(w, fuel, u.body, tested, flags));
      if (r.outcome == Normal || r.outcome == Continued) && fuel > 0 {
        FollowedBy(r, t, ExecWhile(w, fuel - 1, s, r.state, r.flags), ExecWhile(w, fuel - 1, u, t.state, t.flags),
          {}, implied, bytes, flags, touched);
      }
    }
  }

  lemma {:induction false} WhileFaithful<S(!new)>(
    w: World<S>, fuel: nat, s: Stmt, state: S, own: map<nat, bool>, flags: map<nat, bool>)
    requires s.While? && PlannedStmt(s) && StructuralOf(s) !! Inside(s)
    ensures Faithful(ExecWhile(w, fuel, s, state, own), ExecWhile(w, fuel, TransformStmt(s)[0], state, flags),
      {}, {}, ImpliedOf(s), Inside(s) + StructuralOf(s), flags, StructuralOf(s))
    decreases fuel, s, 2
  {
    var u := TransformStmt(s)[0];
    var implied, bytes, touched := ImpliedOf(s), Inside(s) + StructuralOf(s), StructuralOf(s);
    forall fuel': nat, answer, st: S, own', flags' | fuel' <= fuel
      ensures BranchAgrees(w, fuel', s, u, answer, st, own', flags', implied, bytes, touched)
    {
      TakenFaithful(w, fuel', s, answer, st, own', flags', {});
      var taken := Shifted(s.slot, if answer then 1 else 0);
      assert {} + taken == taken;
    }
    LoopsAgree(w, fuel, s, u, state, own, flags, implied, bytes, touched);
  }

  /** A branch within the whole statement: the other branch's heads did not run. */
  lemma {:induction false} OutcomeFaithful<S>(
    w: World<S>, fuel: nat, block: seq<Stmt>, slot: Option<nat>, head: Option<nat>, offset: nat,
    r: Run<S>, state: S, flags: map<nat, bool>, other: seq<Stmt>, pair: set<(nat, nat)>)
    requires Apart(block) && HeadOf(head, block) && Shifted(slot, offset) !! Numbers(block)
    requires Planned(other) && HeadsAmong(pair, Numbers(other))
    requires (Bytes(block) + Shifted(slot, offset)) !! Numbers(other)
    requires var t := ExecBlock(w, fuel, Transform(block), state, flags);
      && Faithful(r, t, {}, {}, Implied(block), Bytes(block), flags, Structural(block))
      && (block != [] ==> Of(Number(block[0])) <= t.stored)
    ensures var t := ExecBlock(w, fuel, OutcomeBranch(Transform(block), slot, head, offset), state, flags);
      var here := Implied(block) + OutcomePair(slot, head, offset);
      var there := Implied(other) + pair;
      var bytes := Bytes(block) + Shifted(slot, offset);
      && Faithful(r, t, Shifted(slot, offset), {}, here + there, bytes, flags, Structural(block))
      && Faithful(r, t, Shifted(slot, offset), {}, there + here, bytes, flags, Structural(block))
  {
    var here := Implied(block) + OutcomePair(slot, head, offset);
    if slot.Some? {
      BranchFaithful(w, fuel, block, head, slot.value + offset, r, state, flags);
    } else {
      assert here == Implied(block);
    }
    HeadsAreNumbers(other);
    var t := ExecBlock(w, fuel, OutcomeBranch(Transform(block), slot, head, offset), state, flags);
    ExpandPad(here, Implied(other) + pair, Numbers(other), t.stored);
  }

  // -- `for` ---------------------------------------------------------------------------------

  /** The flag of an instrumented loop holds whether an item came out. */
  predicate FlagIs(plan: Option<Loop>, flags: map<nat, bool>, started: bool) {
    plan.Some? ==> plan.value.entered in flags && flags[plan.value.entered] == started
  }

  /** `zero` of a loop without `else` is stored by the check after the loop. */
  function Pending(s: Stmt, outcome: Outcome, flags: map<nat, bool>): set<nat>
    requires s.For?
  {
    if s.plan.Some? && s.orelse == [] && outcome == Normal && FlagIs(s.plan, flags, false)
    then {s.plan.value.zero} else {}
  }

  ghost predicate ItemAgrees<S>(
    w: World<S>, fuel: nat, s: Stmt, u: Stmt, state: S, own: map<nat, bool>, flags: map<nat, bool>,
    implied: set<(nat, nat)>, bytes: set<nat>, touched: set<nat>)
    requires s.For? && u.For?
  {
    var t := ExecBlock(w, fuel, u.body, state, flags);
    && Faithful(
      After({}, EnteredOf(s.plan), ExecBlock(w, fuel, s.body, state, own)), After({}, EnteredOf(s.plan), t),
      {}, {}, implied, bytes, flags, touched)
    && FlagIs(s.plan, t.flags, true)
  }

  ghost predicate EndAgrees<S>(
    w: World<S>, fuel: nat, s: Stmt, u: Stmt, started: bool, state: S, own: map<nat, bool>, flags: map<nat, bool>,
    implied: set<(nat, nat)>, bytes: set<nat>, touched: set<nat>)
    requires s.For? && u.For?
  {
    FlagIs(s.plan, flags, started) ==>
      var shown := if started then {} else ZeroOf(s.plan);
      var t := ExecBlock(w, fuel, u.orelse, state, flags);
      && Faithful(
        After({}, shown, ExecBlock(w, fuel, s.orelse, state, own)), After({}, shown, t),
        {}, Pending(s, t.outcome, t.flags), implied, bytes, flags, touched)
      && (s.orelse == [] ==> t.flags == flags)
  }

  lemma {:induction false} ForsAgree<S(!new)>(
    w: World<S>, fuel: nat, s: Stmt, u: Stmt, state: S, own: map<nat, bool>, flags: map<nat, bool>, started: bool,
    implied: set<(nat, nat)>, bytes: set<nat>, touched: set<nat>)
    requires s.For? && u.For? && u.iter == s.iter && u.plan == s.plan && FlagIs(s.plan, flags, started)
    requires forall fuel': nat, st: S, own', flags' | fuel' <= fuel ::
      ItemAgrees(w, fuel', s, u, st, own', flags', implied, bytes, touched)
    requires forall fuel': nat, started', st: S, own', flags' | fuel' <= fuel ::
      EndAgrees(w, fuel', s, u, started', st, own', flags', implied, bytes, touched)
    ensures var t := ExecFor(w, fuel, u, state, flags, started);
      && Faithful(ExecFor(w, fuel, s, state, own, started), t,
        {}, Pending(s, t.outcome, t.flags), implied, bytes, flags, touched)
      && (s.plan.Some? && s.orelse == [] && t.outcome == Normal ==> s.plan.value.entered in t.flags)
    decreases fuel, 1
  {
    var (stepped, answer) := w.next(s.iter, state);
    if answer == No {
      assert EndAgrees(w, fuel, s, u, started, stepped, own, flags, implied, bytes, touched);
    } else if answer == Yes {
      ItemsAgree(w, fuel, s, u, stepped, own, flags, implied, bytes, touched);
    }
  }

  /** From an item on: its body, then the rest of the loop. */
  lemma {:induction false} ItemsAgree<S(!new)>(
    w: World<S>, fuel: nat, s: Stmt, u: Stmt, state: S, own: map<nat, bool>, flags: map<nat, bool>,
    implied: set<(nat, nat)>, bytes: set<nat>, touched: set<nat>)
    requires s.For? && u.For? && u.iter == s.iter && u.plan == s.plan
    requires forall fuel': nat, st: S, own', flags' | fuel' <= fuel ::
      ItemAgrees(w, fuel', s, u, st, own', flags', implied, bytes, touched)
    requires forall fuel': nat, started', st: S, own', flags' | fuel' <= fuel ::
      EndAgrees(w, fuel', s, u, started', st, own', flags', implied, bytes, touched)
    ensures var r, t := AfterItem(w, fuel, s, state, own), AfterItem(w, fuel, u, state, flags);
      && Faithful(r, t, {}, Pending(s, t.outcome, t.flags), implied, bytes, flags, touched)
      && (s.plan.Some? && s.orelse == [] && t.outcome == Normal ==> s.plan.value.entered in t.flags)
    decreases fuel, 0
  {
    assert ItemAgrees(w, fuel, s, u, state, own, flags, implied, bytes, touched);
    var r := After({}, EnteredOf(s.plan), ExecBlock(w, fuel, s.body, state, own));
    var t := After({}, EnteredOf(s.plan), ExecBlock(w, fuel, u.body, state, flags));
    assert forall outcome :: Pending(s, outcome, t.flags) == {};
    if (r.outcome == Normal || r.outcome == Continued) && fuel > 0 {
      ForsAgree(w, fuel - 1, s, u, r.state, r.flags, t.flags, true, implied, bytes, touched);
      var next := ExecFor(w, fuel - 1, u, t.state, t.flags, true);
      FollowedBy(r, t, ExecFor(w, fuel - 1, s, r.state, r.flags, true), next,
        Pending(s, next.outcome, next.flags), implied, bytes, flags, touched);
    }
  }

  /** A loop body marks the flag and says `entered`, itself or by its head. */
  lemma {:induction false} MarkedBody<S>(
    w: World<S>, fuel: nat, body: seq<Stmt>, loop: Loop, r: Run<S>, state: S, flags: map<nat, bool>)
    requires Apart(body) && HeadOf(loop.head, body)
    requires loop.entered !in Structural(body) && loop.entered !in Numbers(body)
    requires var t := ExecBlock(w, fuel, Transform(body), state, flags[loop.entered := true]);
      && Faithful(r, t, {}, {}, Implied(body), Bytes(body), flags[loop.entered := true], Structural(body))
      && (body != [] ==> Of(Number(body[0])) <= t.stored)
    ensures var t := ExecBlock(w, fuel, LoopBody(Transform(body), loop), state, flags);
      && Faithful(r, t, {loop.entered}, {}, Implied(body) + Pair(loop.head, loop.entered),
        Bytes(body) + {loop.entered}, flags, Structural(body) + {loop.entered})
      && FlagIs(Some(loop), t.flags, true)
  {
    HeadsAreNumbers(body);
    var t := ExecBlock(w, fuel, Transform(body), state, flags[loop.entered := true]);
    if loop.head.Some? {
      TransformHeads(body);
      MarkReplacesHit(w, fuel, Transform(body), loop, state, flags);
      HeadSaysEntered(body, loop, r, t, flags);
    } else {
      assert !StartsWith(Transform(body), loop.head);
      ExecConcat(w, fuel, [Mark(loop.entered, loop.entered)], Transform(body), state, flags);
      ExecOne(w, fuel, Mark(loop.entered, loop.entered), state, flags);
      MarkSaysEntered(body, loop, r, t, flags);
    }
  }

  lemma {:induction false} HeadSaysEntered<S>(body: seq<Stmt>, loop: Loop, r: Run<S>, t: Run<S>, flags: map<nat, bool>)
    requires Faithful(r, t, {}, {}, Implied(body), Bytes(body), flags[loop.entered := true], Structural(body))
    requires loop.head.Some? && loop.head.value in t.stored && loop.entered !in Structural(body)
    ensures Faithful(r, t, {loop.entered}, {}, Implied(body) + Pair(loop.head, loop.entered),
      Bytes(body) + {loop.entered}, flags, Structural(body) + {loop.entered})
    ensures FlagIs(Some(loop), t.flags, true)
  {
    ExpandUnionPairs(Implied(body), Pair(loop.head, loop.entered), t.stored);
  }

  lemma {:induction false} MarkSaysEntered<S>(body: seq<Stmt>, loop: Loop, r: Run<S>, t: Run<S>, flags: map<nat, bool>)
    requires Faithful(r, t, {}, {}, Implied(body), Bytes(body), flags[loop.entered := true], Structural(body))
    requires loop.head.None? && loop.entered !in Structural(body)
    requires forall pair | pair in Implied(body) :: pair.0 != loop.entered
    ensures Faithful(r, t.(stored := {loop.entered} + t.stored), {loop.entered}, {},
      Implied(body) + Pair(loop.head, loop.entered), Bytes(body) + {loop.entered}, flags, Structural(body) + {loop.entered})
    ensures FlagIs(Some(loop), t.flags, true)
  {
    ExpandUnion(Implied(body), {loop.entered}, t.stored);
    assert Implied(body) + Pair(loop.head, loop.entered) == Implied(body);
    assert Expand(Implied(body), {loop.entered}) == {loop.entered};
  }

  /** Storing the head's byte with the flag is setting the flag and running the
      head's own probe. */
  lemma {:induction false} MarkReplacesHit<S>(
    w: World<S>, fuel: nat, body: seq<Stmt>, loop: Loop, state: S, flags: map<nat, bool>)
    requires StartsWith(body, loop.head)
    ensures ExecBlock(w, fuel, LoopBody(body, loop), state, flags)
         == ExecBlock(w, fuel, body, state, flags[loop.entered := true])
  {
    var hit, mark := Hit(loop.head.value), Mark(loop.entered, loop.head.value);
    assert body == [hit] + body[1..];
    ExecConcat(w, fuel, [hit], body[1..], state, flags[loop.entered := true]);
    ExecOne(w, fuel, hit, state, flags[loop.entered := true]);
    ExecConcat(w, fuel, [mark], body[1..], state, flags);
    ExecOne(w, fuel, mark, state, flags);
  }

  /** A part of a loop within the whole statement: `more` has no head that ran. */
  lemma {:induction false} Widen<S>(
    r: Run<S>, t: Run<S>, shown: set<nat>, said: set<nat>, implied: set<(nat, nat)>, more: set<(nat, nat)>, heads: set<nat>,
    bytes: set<nat>, allBytes: set<nat>, flags: map<nat, bool>, touched: set<nat>, allTouched: set<nat>)
    requires Faithful(r, t, shown, said, implied, bytes, flags, touched)
    requires HeadsAmong(more, heads) && heads !! bytes && bytes <= allBytes && touched <= allTouched
    ensures Faithful(After({}, shown, r), After({}, shown, t), {}, said, implied + more, allBytes, flags, allTouched)
    ensures Faithful(After({}, shown, r), After({}, shown, t), {}, said, more + implied, allBytes, flags, allTouched)
  {
    ExpandPad(implied, more, heads, t.stored);
    assert {} + (shown + r.facts) == shown + r.facts;
  }

  lemma {:induction false} ItemFaithful<S(!new)>(
    w: World<S>, fuel: nat, s: Stmt, state: S, own: map<nat, bool>, flags: map<nat, bool>)
    requires s.For? && PlannedStmt(s) && StructuralOf(s) !! Inside(s)
    ensures ItemAgrees(w, fuel, s, TransformFor(s, Transform(s.body), Transform(s.orelse)), state, own, flags,
      ImpliedOf(s), Inside(s) + StructuralOf(s), StructuralOf(s))
    decreases fuel, s, 1
  {
    var For(_, _, plan, body, orelse) := s;
    var r := ExecBlock(w, fuel, body, state, own);
    var all, touched := Inside(s) + StructuralOf(s), StructuralOf(s);
    HeadsAreNumbers(orelse);
    match plan
    case None =>
      BlockFaithful(w, fuel, body, state, own, flags);
      Widen(r, ExecBlock(w, fuel, Transform(body), state, flags), {}, {}, Implied(body), Implied(orelse), Numbers(orelse),
        Bytes(body), all, flags, Structural(body), touched);
    case Some(loop) =>
      BlockFaithful(w, fuel, body, state, own, flags[loop.entered := true]);
      MarkedBody(w, fuel, body, loop, r, state, flags);
      Widen(r, ExecBlock(w, fuel, LoopBody(Transform(body), loop), state, flags), {loop.entered}, {},
        Implied(body) + Pair(loop.head, loop.entered), Implied(orelse), Numbers(orelse),
        Bytes(body) + {loop.entered}, all, flags, Structural(body) + {loop.entered}, touched);
  }

  /** Checking a flag and then running a list. */
  lemma {:induction false} CheckFirst<S>(
    w: World<S>, fuel: nat, loop: Loop, started: bool, block: seq<Stmt>, state: S, flags: map<nat, bool>)
    requires loop.entered in flags && flags[loop.entered] == started
    ensures ExecBlock(w, fuel, [Check(loop.entered, loop.zero)] + block, state, flags)
         == After(if started then {} else {loop.zero}, {}, ExecBlock(w, fuel, block, state, flags))
  {
    ExecConcat(w, fuel, [Check(loop.entered, loop.zero)], block, state, flags);
    ExecOne(w, fuel, Check(loop.entered, loop.zero), state, flags);
  }

  /** The `else` of a loop, its check first. */
  lemma {:induction false} CheckedElse<S>(
    w: World<S>, fuel: nat, s: Stmt, started: bool, r: Run<S>, state: S, flags: map<nat, bool>)
    requires s.For? && s.plan.Some? && FlagIs(s.plan, flags, started)
    requires Apart(s.orelse) && s.plan.value.zero !in Numbers(s.orelse)
    requires var t := ExecBlock(w, fuel, Transform(s.orelse), state, flags);
      && Faithful(r, t, {}, {}, Implied(s.orelse), Bytes(s.orelse), flags, Structural(s.orelse))
    requires s.orelse == [] ==> r == ExecBlock(w, fuel, [], state, r.flags)
    ensures var u := TransformFor(s, Transform(s.body), Transform(s.orelse));
      var t := ExecBlock(w, fuel, u.orelse, state, flags);
      var shown := if started then {} else ZeroOf(s.plan);
      && Faithful(r, t, shown, Pending(s, t.outcome, t.flags), Implied(s.orelse),
        Bytes(s.orelse) + ZeroOf(s.plan), flags, Structural(s.orelse))
      && (s.orelse == [] ==> t.flags == flags)
  {
    var loop, transformed := s.plan.value, Transform(s.orelse);
    if s.orelse != [] {
      TransformHeads(s.orelse);
      CheckFirst(w, fuel, loop, started, transformed, state, flags);
      HeadsAreNumbers(s.orelse);
      StoredNumber(Implied(s.orelse), Numbers(s.orelse), Some(loop.zero), ExecBlock(w, fuel, transformed, state, flags).stored);
    }
  }

  lemma {:induction false} EndFaithful<S(!new)>(
    w: World<S>, fuel: nat, s: Stmt, started: bool, state: S, own: map<nat, bool>, flags: map<nat, bool>)
    requires s.For? && PlannedStmt(s) && StructuralOf(s) !! Inside(s)
    ensures EndAgrees(w, fuel, s, TransformFor(s, Transform(s.body), Transform(s.orelse)), started, state, own, flags,
      ImpliedOf(s), Inside(s) + StructuralOf(s), StructuralOf(s))
    decreases fuel, s, 1
  {
    var u := TransformFor(s, Transform(s.body), Transform(s.orelse));
    var r, t := ExecBlock(w, fuel, s.orelse, state, own), ExecBlock(w, fuel, u.orelse, state, flags);
    BlockFaithful(w, fuel, s.orelse, state, own, flags);
    if s.plan == None {
      WidenElse(s, r, t, {}, {}, flags);
    } else if FlagIs(s.plan, flags, started) {
      CheckedElse(w, fuel, s, started, r, state, flags);
      WidenElse(s, r, t, if started then {} else ZeroOf(s.plan), Pending(s, t.outcome, t.flags), flags);
    }
  }

  lemma {:induction false} WidenElse<S>(s: Stmt, r: Run<S>, t: Run<S>, shown: set<nat>, said: set<nat>, flags: map<nat, bool>)
    requires s.For? && PlannedStmt(s) && StructuralOf(s) !! Inside(s)
    requires Faithful(r, t, shown, said, Implied(s.orelse), Bytes(s.orelse) + ZeroOf(s.plan), flags, Structural(s.orelse))
    ensures Faithful(After({}, shown, r), After({}, shown, t), {}, said, ImpliedOf(s),
      Inside(s) + StructuralOf(s), flags, StructuralOf(s))
  {
    HeadsAreNumbers(s.body);
    var pair := if s.plan.Some? then Pair(s.plan.value.head, s.plan.value.entered) else {};
    var more := Implied(s.body) + pair;
    assert HeadsAmong(more, Numbers(s.body));
    Widen(r, t, shown, said, Implied(s.orelse), more, Numbers(s.body),
      Bytes(s.orelse) + ZeroOf(s.plan), Inside(s) + StructuralOf(s), flags, Structural(s.orelse), StructuralOf(s));
    assert ImpliedOf(s) == more + Implied(s.orelse);
  }

  lemma {:induction false} ForFaithful<S(!new)>(
    w: World<S>, fuel: nat, s: Stmt, state: S, own: map<nat, bool>, flags: map<nat, bool>)
    requires s.For? && PlannedStmt(s) && StructuralOf(s) !! Inside(s)
    ensures Faithful(Exec(w, fuel, s, state, own), ExecBlock(w, fuel, TransformStmt(s), state, flags),
      {}, Of(Number(s)), ImpliedOf(s), Inside(s) + StructuralOf(s), flags, StructuralOf(s))
    decreases fuel, s, 3
  {
    var u := TransformFor(s, Transform(s.body), Transform(s.orelse));
    var implied, bytes, touched := ImpliedOf(s), Inside(s) + StructuralOf(s), StructuralOf(s);
    forall fuel': nat, st: S, own', flags' | fuel' <= fuel
      ensures ItemAgrees(w, fuel', s, u, st, own', flags', implied, bytes, touched)
    {
      ItemFaithful(w, fuel', s, st, own', flags');
    }
    forall fuel': nat, started, st: S, own', flags' | fuel' <= fuel
      ensures EndAgrees(w, fuel', s, u, started, st, own', flags', implied, bytes, touched)
    {
      EndFaithful(w, fuel', s, started, st, own', flags');
    }
    StmtHeadsAreNumbers(s);
    WholeFor(w, fuel, s, u, state, own, flags, implied, bytes, touched);
    if s.plan == None {
      assert [] + [u] + [] == TransformStmt(s);
    } else {
      var reset, check := Reset(s.plan.value.entered), Check(s.plan.value.entered, s.plan.value.zero);
      assert [reset] + [u] + (if s.orelse == [] then [check] else []) == TransformStmt(s);
    }
  }

  /** The statement with its reset before and its check after the loop. */
  lemma {:induction false} WholeFor<S(!new)>(
    w: World<S>, fuel: nat, s: Stmt, u: Stmt, state: S, own: map<nat, bool>, flags: map<nat, bool>,
    implied: set<(nat, nat)>, bytes: set<nat>, touched: set<nat>)
    requires s.For? && u.For? && u.iter == s.iter && u.plan == s.plan && u.k == s.k
    requires EnteredOf(s.plan) <= touched && ZeroOf(s.plan) <= bytes
    requires forall pair | pair in implied :: pair.0 !in ZeroOf(s.plan)
    requires forall fuel': nat, st: S, own', flags' | fuel' <= fuel ::
      ItemAgrees(w, fuel', s, u, st, own', flags', implied, bytes, touched)
    requires forall fuel': nat, started', st: S, own', flags' | fuel' <= fuel ::
      EndAgrees(w, fuel', s, u, started', st, own', flags', implied, bytes, touched)
    ensures
      var before := if s.plan.Some? then [Reset(s.plan.value.entered)] else [];
      var after := if s.plan.Some? && s.orelse == [] then [Check(s.plan.value.entered, s.plan.value.zero)] else [];
      Faithful(Exec(w, fuel, s, state, own), ExecBlock(w, fuel, before + [u] + after, state, flags),
        {}, Of(s.k), implied, bytes, flags, touched)
  {
    if s.plan == None {
      LoopItself(w, fuel, s, u, state, own, flags, implied, bytes, touched);
      assert [] + [u] + [] == [u];
      ExecOne(w, fuel, u, state, flags);
      assert Of(s.k) + {} == Of(s.k);
    } else {
      var unset := flags[s.plan.value.entered := false];
      LoopItself(w, fuel, s, u, state, own, unset, implied, bytes, touched);
      LoopLists(w, fuel, s, u, state, flags);
      CheckSaysZero(Exec(w, fuel, s, state, own), Exec(w, fuel, u, state, unset), s, implied, bytes, flags, touched);
    }
  }

  lemma {:induction false} LoopLists<S>(w: World<S>, fuel: nat, s: Stmt, u: Stmt, state: S, flags: map<nat, bool>)
    requires s.For? && s.plan.Some?
    requires var t := Exec(w, fuel, u, state, flags[s.plan.value.entered := false]);
      s.orelse == [] && t.outcome == Normal ==> s.plan.value.entered in t.flags
    ensures
      var before := [Reset(s.plan.value.entered)];
      var after := if s.orelse == [] then [Check(s.plan.value.entered, s.plan.value.zero)] else [];
      var t := Exec(w, fuel, u, state, flags[s.plan.value.entered := false]);
      ExecBlock(w, fuel, before + [u] + after, state, flags) == t.(stored := t.stored + Pending(s, t.outcome, t.flags))
  {
    var loop := s.plan.value;
    var reset, check, unset := Reset(loop.entered), Check(loop.entered, loop.zero), flags[loop.entered := false];
    var after := if s.orelse == [] then [check] else [];
    var t := Exec(w, fuel, u, state, unset);
    ExecOne(w, fuel, reset, state, flags);
    ExecOne(w, fuel, u, state, unset);
    ExecConcat(w, fuel, [reset], [u], state, flags);
    assert ExecBlock(w, fuel, [reset] + [u], state, flags) == t;
    ExecConcat(w, fuel, [reset] + [u], after, state, flags);
    ExecOne(w, fuel, check, t.state, t.flags);
  }

  lemma {:induction false} LoopItself<S(!new)>(
    w: World<S>, fuel: nat, s: Stmt, u: Stmt, state: S, own: map<nat, bool>, flags: map<nat, bool>,
    implied: set<(nat, nat)>, bytes: set<nat>, touched: set<nat>)
    requires s.For? && u.For? && u.iter == s.iter && u.plan == s.plan && u.k == s.k && FlagIs(s.plan, flags, false)
    requires forall fuel': nat, st: S, own', flags' | fuel' <= fuel ::
      ItemAgrees(w, fuel', s, u, st, own', flags', implied, bytes, touched)
    requires forall fuel': nat, started', st: S, own', flags' | fuel' <= fuel ::
      EndAgrees(w, fuel', s, u, started', st, own', flags', implied, bytes, touched)
    ensures var t := Exec(w, fuel, u, state, flags);
      && Faithful(Exec(w, fuel, s, state, own), t,
        {}, Of(s.k) + Pending(s, t.outcome, t.flags), implied, bytes, flags, touched)
      && (s.plan.Some? && s.orelse == [] && t.outcome == Normal ==> s.plan.value.entered in t.flags)
  {
    var (begun, raises) := w.effect(s.iter, state);
    if !raises {
      ForsAgree(w, fuel, s, u, begun, own, flags, false, implied, bytes, touched);
    }
    LoopBegins(w, fuel, s, u, state, own, flags, implied, bytes, touched);
  }

  /** The statement's own fact before the loop's. */
  lemma {:induction false} LoopBegins<S>(
    w: World<S>, fuel: nat, s: Stmt, u: Stmt, state: S, own: map<nat, bool>, flags: map<nat, bool>,
    implied: set<(nat, nat)>, bytes: set<nat>, touched: set<nat>)
    requires s.For? && u.For? && u.iter == s.iter && u.plan == s.plan && u.k == s.k
    requires var (begun, raises) := w.effect(s.iter, state);
      !raises ==>
        var t := ExecFor(w, fuel, u, begun, flags, false);
        && Faithful(ExecFor(w, fuel, s, begun, own, false), t,
          {}, Pending(s, t.outcome, t.flags), implied, bytes, flags, touched)
        && (s.plan.Some? && s.orelse == [] && t.outcome == Normal ==> s.plan.value.entered in t.flags)
    ensures var t := Exec(w, fuel, u, state, flags);
      && Faithful(Exec(w, fuel, s, state, own), t,
        {}, Of(s.k) + Pending(s, t.outcome, t.flags), implied, bytes, flags, touched)
      && (s.plan.Some? && s.orelse == [] && t.outcome == Normal ==> s.plan.value.entered in t.flags)
  {
    var (begun, raises) := w.effect(s.iter, state);
    if raises {
      assert Expand(implied, {}) == {};
    }
  }

  /** The check after a loop stores `zero` exactly when it is still unsaid. */
  lemma {:induction false} CheckSaysZero<S>(
    r: Run<S>, t: Run<S>, s: Stmt, implied: set<(nat, nat)>, bytes: set<nat>, flags: map<nat, bool>, touched: set<nat>)
    requires s.For? && s.plan.Some? && s.plan.value.entered in touched && s.plan.value.zero in bytes
    requires forall pair | pair in implied :: pair.0 != s.plan.value.zero
    requires Faithful(r, t, {}, Of(s.k) + Pending(s, t.outcome, t.flags), implied, bytes,
      flags[s.plan.value.entered := false], touched)
    ensures Faithful(r, t.(stored := t.stored + Pending(s, t.outcome, t.flags)),
      {}, Of(s.k), implied, bytes, flags, touched)
  {
    var pending := Pending(s, t.outcome, t.flags);
    ExpandUnion(implied, t.stored, pending);
    assert Expand(implied, pending) == pending;
  }

  // -- the main result -------------------------------------------------------------------------

  predicate PlannedFunction(f: Function) {
    Planned(f.body) && HeadOf(f.head, f.body)
    && (Structural(f.body) + {f.entry}) !! Numbers(f.body)
  }

  /** For every planned function, every world and every bound on its loops: the
      transformed function ends as the original does, in the same state, and the
      bytes it stored, expanded by the layout's implied bytes, are exactly the
      facts of the run: its entry, the statements that ran, the outcomes its
      tests had, the loops entered and the loops that ran zero times. The
      program's state is any type, so it may well be the trace of its effects. */
  lemma {:induction false} TransformedFunctionIsFaithful<S(!new)>(w: World<S>, fuel: nat, f: Function, state: S)
    requires PlannedFunction(f)
    ensures
      var r := ExecBlock(w, fuel, f.body, state, map[]);
      var t := ExecBlock(w, fuel, TransformFunction(f), state, map[]);
      && t.state == r.state && t.outcome == r.outcome
      && Expand(Implied(f.body) + Pair(f.head, f.entry), t.stored) == {f.entry} + r.facts
  {
    BlockFaithful(w, fuel, f.body, state, map[], map[]);
    BranchFaithful(w, fuel, f.body, f.head, f.entry, ExecBlock(w, fuel, f.body, state, map[]), state, map[]);
  }

  // -- the inserter ------------------------------------------------------------------------------

  /** `_body`: each statement's own probe, then what visiting it left. */
  method Body(statements: seq<Stmt>) returns (out: seq<Stmt>)
    ensures out == Transform(statements)
    decreases statements, 0
  {
    out := [];
    for i := 0 to |statements|
      invariant out + Transform(statements[i..]) == Transform(statements)
    {
      OneTransformed(out, statements, i);
      var k := Number(statements[i]);
      var probe := if k.Some? then [Hit(k.value)] else [];
      var visited := Visit(statements[i]);
      out := out + probe + visited;
    }
    assert Transform(statements[|statements|..]) == [];
  }

  lemma {:induction false} OneTransformed(out: seq<Stmt>, statements: seq<Stmt>, i: nat)
    requires i < |statements|
    ensures out + Transform(statements[i..])
         == out + HitOf(Number(statements[i])) + TransformStmt(statements[i]) + Transform(statements[i + 1..])
  {
    assert statements[i..][0] == statements[i] && statements[i..][1..] == statements[i + 1..];
  }

  method Visit(s: Stmt) returns (out: seq<Stmt>)
    ensures out == TransformStmt(s)
    decreases s, 1
  {
    match s
    case If(k, test, slot, heads, body, orelse) =>
      var visitedBody, visitedElse := Branches(s, slot, heads, body, orelse);
      out := [If(k, test, slot, heads, visitedBody, visitedElse)];
    case While(k, test, slot, heads, body, orelse) =>
      var visitedBody, visitedElse := Branches(s, slot, heads, body, orelse);
      out := [While(k, test, slot, heads, visitedBody, visitedElse)];
    case For(_, _, _, _, _) => out := LoopStatement(s);
    case _ => out := [s];
  }

  /** `_branches`: a probe at the head of each branch the plan has no head for. */
  method Branches(ghost s: Stmt, slot: Option<nat>, heads: Heads, body: seq<Stmt>, orelse: seq<Stmt>)
    returns (visitedBody: seq<Stmt>, visitedElse: seq<Stmt>)
    requires IsTest(s) && s.body == body && s.orelse == orelse
    ensures visitedBody == OutcomeBranch(Transform(body), slot, heads.whenTrue, 1)
    ensures visitedElse == OutcomeBranch(Transform(orelse), slot, heads.whenFalse, 0)
    decreases s, 0
  {
    visitedBody := Body(body);
    visitedElse := Body(orelse);
    if slot.Some? {
      visitedBody := WithOutcome(visitedBody, heads.whenTrue, slot.value + 1);
      visitedElse := WithOutcome(visitedElse, heads.whenFalse, slot.value);
    }
  }

  /** A branch that does not start with its head's probe gets the outcome's. */
  method WithOutcome(block: seq<Stmt>, head: Option<nat>, byte: nat) returns (probed: seq<Stmt>)
    ensures probed == Branch(block, head, byte)
  {
    probed := block;
    if head == None || probed == [] || probed[0] != Hit(head.value) {
      probed := [Hit(byte)] + probed;
    }
  }

  /** `_loop`: the flag reset before, marked in the body, checked in the `else`
      or after the loop. */
  method LoopStatement(s: Stmt) returns (out: seq<Stmt>)
    requires s.For?
    ensures out == TransformStmt(s)
    decreases s, 0
  {
    var body := Body(s.body);
    var orelse := Body(s.orelse);
    if s.plan == None {
      return [For(s.k, s.iter, s.plan, body, orelse)];
    }
    var Loop(entered, zero, head) := s.plan.value;
    var stored := entered;
    if head.Some? && body != [] && body[0] == Hit(head.value) {
      body := body[1..];
      stored := head.value;
    }
    body := [Mark(entered, stored)] + body;
    var check := Check(entered, zero);
    if orelse != [] {
      orelse := [check] + orelse;
      out := [Reset(entered), For(s.k, s.iter, s.plan, body, orelse)];
    } else {
      out := [Reset(entered), For(s.k, s.iter, s.plan, body, orelse), check];
    }
  }
}
