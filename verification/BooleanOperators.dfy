/** Standalone `and`/`or` expressions of the Python runtime: the stack of open
    evaluations each (context, group) keeps, and what its records say.

    An inner evaluation that short-circuits at once records no operand, so it
    closes whatever frame is on top, which belongs to an outer evaluation; the
    outer one's next operand then opens a new frame or joins an older one. The
    theorems say that the reports are exact all the same, as long as no frame had
    to be dropped, and what exactly dropped frames take from them. */
module BooleanOperators {
  import opened KeyedRuns

  const MAX_OPEN_EVALUATIONS := 64

  /** The operands one open evaluation recorded; operand 0 is always there. */
  type Frame = f: seq<nat> | |f| > 0 witness [0]

  /** A right operand's place in its expression. */
  type Index = i: nat | i > 0 witness 1

  datatype Event = Operand(index: Index) | Close

  /** The frames of one (context, group), the operands of each frame closed, and
      those of each frame dropped because 64 were open. */
  datatype State = State(stack: seq<Frame>, closed: seq<set<nat>>, dropped: seq<set<nat>>)

  const IDLE := State([], [], [])

  function Last<T>(s: seq<T>): T
    requires |s| > 0
  {
    s[|s| - 1]
  }

  function Init<T>(s: seq<T>): seq<T>
    requires |s| > 0
  {
    s[..|s| - 1]
  }

  function Elements(frame: Frame): set<nat> {
    set i | i in frame
  }

  /** `_operand_probe` on one stack. */
  function Record(stack: seq<Frame>, index: Index): seq<Frame> {
    var ready :=
      if Opens(stack, index) then
        (if |stack| >= MAX_OPEN_EVALUATIONS then stack[1..] else stack) + [[0]]
      else stack;
    Joined(ready, index)
  }

  /** One more operand in the top frame. */
  function Joined(stack: seq<Frame>, index: Index): seq<Frame>
    requires stack != []
  {
    Init(stack) + [Last(stack) + [index]]
  }

  predicate Opens(stack: seq<Frame>, index: Index) {
    stack == [] || index <= Last(Last(stack))
  }

  /** The branch of `_operand_probe` that drops the oldest frame. */
  predicate Drops(stack: seq<Frame>, index: Index) {
    Opens(stack, index) && |stack| >= MAX_OPEN_EVALUATIONS
  }

  function Step(state: State, event: Event): State {
    match event
    case Operand(index) =>
      State(Record(state.stack, index), state.closed,
            state.dropped + if Drops(state.stack, index) then [Elements(state.stack[0])] else [])
    case Close =>
      if state.stack == [] then state.(closed := state.closed + [{0}])
      else state.(stack := Init(state.stack), closed := state.closed + [Elements(Last(state.stack))])
  }

  // -- properly nested runs --------------------------------------------------

  /** One evaluation: what ran inside operand 0, then each further operand that
      was evaluated, with what ran inside it. */
  datatype Evaluation = Evaluation(first: Forest, rest: Operands)
  datatype Forest = Nothing | Then(head: Evaluation, tail: Forest)
  datatype Operands = Stop | Next(inner: Forest, more: Operands)

  function Trace(e: Evaluation): seq<Event> {
    ForestTrace(e.first) + OperandsTrace(e.rest, 1) + [Close]
  }

  function ForestTrace(f: Forest): seq<Event> {
    match f
    case Nothing => []
    case Then(head, tail) => Trace(head) + ForestTrace(tail)
  }

  /** An operand's probe runs once its value, and all that ran inside it, is there. */
  function OperandsTrace(o: Operands, index: Index): seq<Event> {
    match o
    case Stop => []
    case Next(inner, more) => ForestTrace(inner) + [Operand(index)] + OperandsTrace(more, index + 1)
  }

  function Max(a: nat, b: nat): nat {
    if a < b then b else a
  }

  /** How many evaluations are open at once, at most. */
  function Depth(e: Evaluation): nat {
    1 + Max(ForestDepth(e.first), OperandsDepth(e.rest))
  }

  function ForestDepth(f: Forest): nat {
    match f
    case Nothing => 0
    case Then(head, tail) => Max(Depth(head), ForestDepth(tail))
  }

  function OperandsDepth(o: Operands): nat {
    match o
    case Stop => 0
    case Next(inner, more) => Max(ForestDepth(inner), OperandsDepth(more))
  }

  /** How many evaluations of a run evaluated operand `i`; all evaluate operand 0. */
  function Evaluated(e: Evaluation, i: nat): nat {
    (if i == 0 then 1 else 0) + ForestEvaluated(e.first, i) + OperandsEvaluated(e.rest, 1, i)
  }

  function ForestEvaluated(f: Forest, i: nat): nat {
    match f
    case Nothing => 0
    case Then(head, tail) => Evaluated(head, i) + ForestEvaluated(tail, i)
  }

  function OperandsEvaluated(o: Operands, index: nat, i: nat): nat {
    match o
    case Stop => 0
    case Next(inner, more) =>
      (if index == i then 1 else 0) + ForestEvaluated(inner, i) + OperandsEvaluated(more, index + 1, i)
  }

  function Length(o: Operands): nat {
    match o
    case Stop => 0
    case Next(_, more) => 1 + Length(more)
  }

  // -- counting ----------------------------------------------------------------

  function Among(sets: seq<set<nat>>, i: nat): nat {
    if sets == [] then 0 else Among(Init(sets), i) + (if i in Last(sets) then 1 else 0)
  }

  function Open(stack: seq<Frame>, i: nat): nat {
    if stack == [] then 0 else Open(Init(stack), i) + (if i in Last(stack) then 1 else 0)
  }

  /** A frame starts at operand 0 and records at least one more, in increasing order. */
  ghost predicate OrderedFrame(frame: Frame) {
    |frame| > 1 && frame[0] == 0 && forall a, b | 0 <= a < b < |frame| :: frame[a] < frame[b]
  }

  ghost predicate Ordered(stack: seq<Frame>) {
    forall k | 0 <= k < |stack| :: OrderedFrame(stack[k])
  }

  /** The frames operand `i` is in: closed, dropped and open ones. */
  function Holding(state: State, i: nat): nat {
    Among(state.closed, i) + Among(state.dropped, i) + Open(state.stack, i)
  }

  lemma {:induction false} OpenFront(stack: seq<Frame>, i: nat)
    requires stack != []
    ensures Open(stack, i) == (if i in stack[0] then 1 else 0) + Open(stack[1..], i)
  {
    if |stack| > 1 {
      OpenFront(Init(stack), i);
      assert Init(stack)[1..] == Init(stack[1..]);
    } else {
      assert stack == [stack[0]] && Init(stack) == [];
    }
  }

  /** The stack an operand opens its frame on. */
  function Room(stack: seq<Frame>): seq<Frame> {
    if |stack| >= MAX_OPEN_EVALUATIONS then stack[1..] else stack
  }

  lemma {:induction false} RecordOpens(stack: seq<Frame>, index: Index)
    requires Ordered(stack) && Opens(stack, index)
    ensures var place: nat := index;
      var frame: Frame := [0] + [place];
      Record(stack, index) == Room(stack) + [frame] && Ordered(Room(stack) + [frame])
  {
    var start: Frame := [0];
    assert Init(Room(stack) + [start]) == Room(stack);
  }

  lemma {:induction false} RecordJoins(stack: seq<Frame>, index: Index)
    requires Ordered(stack) && !Opens(stack, index)
    ensures index !in Last(stack)
    ensures Record(stack, index) == Init(stack) + [Last(stack) + [index]] && Ordered(Record(stack, index))
  {
    var frame := Last(stack);
    assert OrderedFrame(frame);
    assert OrderedFrame(frame + [index]);
  }

  /** An operand is recorded in one frame more, whether or not one is dropped. */
  lemma {:induction false} RecordConserves(state: State, index: Index, i: Index)
    requires Ordered(state.stack)
    ensures Holding(Step(state, Operand(index)), i) == Holding(state, i) + if i == index then 1 else 0
    ensures Ordered(Step(state, Operand(index)).stack)
  {
    var stack, after := state.stack, Step(state, Operand(index));
    if Opens(stack, index) {
      RecordOpens(stack, index);
      assert Init(after.stack) == Room(stack);
      if Drops(stack, index) {
        OpenFront(stack, i);
        assert Init(after.dropped) == state.dropped && Last(after.dropped) == Elements(stack[0]);
      } else {
        assert after.dropped == state.dropped;
      }
    } else {
      RecordJoins(stack, index);
      assert Init(after.stack) == Init(stack);
      assert after.dropped == state.dropped;
    }
  }

  lemma {:induction false} CloseConserves(state: State, i: Index)
    requires Ordered(state.stack)
    ensures Holding(Step(state, Close), i) == Holding(state, i)
    ensures Ordered(Step(state, Close).stack)
  {
    assert Init(Step(state, Close).closed) == state.closed;
  }

  // -- what a nested run does to the stack ----------------------------------------

  /** Frames of `outer`, some gone from the top and some from the bottom. */
  ghost predicate Inside(inner: seq<Frame>, outer: seq<Frame>) {
    exists a: nat, b: nat :: a <= b <= |outer| && inner == outer[a..b]
  }

  lemma {:induction false} InsideItself(stack: seq<Frame>)
    ensures Inside(stack, stack)
    ensures stack != [] ==> Inside(stack[1..], stack) && Inside(Init(stack), stack)
  {
    assert stack == stack[0..|stack|];
    if stack != [] {
      assert stack[1..] == stack[1..|stack|] && Init(stack) == stack[0..|stack| - 1];
    }
  }

  lemma {:induction false} SliceOfSlice<T>(s: seq<T>, a: nat, b: nat, c: nat, d: nat)
    requires a <= b <= |s| && c <= d <= b - a
    ensures s[a..b][c..d] == s[a + c..a + d]
  {
    var middle := s[a..b];
    assert forall k | c <= k < d :: middle[k] == s[a + k];
  }

  lemma {:induction false} InsideInside(inner: seq<Frame>, middle: seq<Frame>, outer: seq<Frame>)
    requires Inside(inner, middle) && Inside(middle, outer)
    ensures Inside(inner, outer)
  {
    var a: nat, b: nat :| a <= b <= |outer| && middle == outer[a..b];
    var c: nat, d: nat :| c <= d <= |middle| && inner == middle[c..d];
    SliceOfSlice(outer, a, b, c, d);
  }

  lemma {:induction false} InsideOrdered(inner: seq<Frame>, outer: seq<Frame>)
    requires Inside(inner, outer)
    ensures |inner| <= |outer| && (Ordered(outer) ==> Ordered(inner))
  {
  }

  /** Frames inside a stack still have its top frame, or are inside what is under it. */
  lemma {:induction false} InsideTop(inner: seq<Frame>, outer: seq<Frame>)
    requires Inside(inner, outer) && outer != []
    ensures Inside(inner, Init(outer)) || (inner != [] && Last(inner) == Last(outer) && Inside(Init(inner), Init(outer)))
  {
    var a: nat, b: nat :| a <= b <= |outer| && inner == outer[a..b];
    if b < |outer| {
      assert inner == Init(outer)[a..b];
    } else if a == b {
      assert inner == Init(outer)[0..0];
    } else {
      SliceOfSlice(outer, 0, |outer| - 1, a, b - 1);
      SliceOfSlice(outer, a, b, 0, b - a - 1);
      assert Init(inner) == Init(outer)[a..b - 1];
    }
  }

  /** Between operands of an evaluation that started on `base`: what is left of
      `base`, and once an operand was recorded the frame with the latest one. */
  ghost predicate Between(base: seq<Frame>, stack: seq<Frame>, index: Index) {
    if index <= 1 then Inside(stack, base)
    else stack != [] && Inside(Init(stack), base) && Last(Last(stack)) == index - 1
  }

  /** The next operand keeps that shape, whatever the runs inside it took off, and
      opens a frame only on what is left of `base`. */
  lemma {:induction false} RecordKeepsBetween(base: seq<Frame>, before: seq<Frame>, stack: seq<Frame>, index: Index)
    requires Between(base, before, index) && Inside(stack, before) && Ordered(stack)
    ensures Opens(stack, index) ==> Inside(stack, base)
    ensures Between(base, Record(stack, index), index + 1)
  {
    if index <= 1 {
      InsideInside(stack, before, base);
    } else {
      InsideTop(stack, before);
      if Inside(stack, Init(before)) {
        InsideInside(stack, Init(before), base);
      } else {
        InsideInside(Init(stack), Init(before), base);
      }
    }
    if Opens(stack, index) {
      RecordOpens(stack, index);
      InsideItself(stack);
      InsideInside(Room(stack), stack, base);
      assert Init(Record(stack, index)) == Room(stack);
    } else {
      RecordJoins(stack, index);
      InsideItself(stack);
      if Inside(stack, base) {
        InsideInside(Init(stack), stack, base);
      }
      assert Init(Record(stack, index)) == Init(stack);
    }
  }

  /** Closing takes the evaluation's own frame, or one of `base`. */
  lemma {:induction false} CloseLeavesBase(base: seq<Frame>, state: State, index: Index)
    requires Between(base, state.stack, index)
    ensures Inside(Step(state, Close).stack, base)
  {
    if state.stack != [] && index <= 1 {
      InsideItself(state.stack);
      InsideInside(Init(state.stack), state.stack, base);
    }
  }

  /** The state an evaluation leaves, following its structure. */
  function After(e: Evaluation, state: State): State {
    Step(AfterOperands(e.rest, 1, AfterForest(e.first, state)), Close)
  }

  function AfterForest(f: Forest, state: State): State {
    match f
    case Nothing => state
    case Then(head, tail) => AfterForest(tail, After(head, state))
  }

  function AfterOperands(o: Operands, index: Index, state: State): State {
    match o
    case Stop => state
    case Next(inner, more) => AfterOperands(more, index + 1, Step(AfterForest(inner, state), Operand(index)))
  }

  lemma {:induction false} TraceLeads(e: Evaluation, state: State)
    ensures Run(Step, state, Trace(e)) == After(e, state)
    decreases e, 0
  {
    ForestLeads(e.first, state);
    OperandsLead(e.rest, 1, AfterForest(e.first, state));
    RunConcat(Step, state, ForestTrace(e.first), OperandsTrace(e.rest, 1));
    RunConcat(Step, state, ForestTrace(e.first) + OperandsTrace(e.rest, 1), [Close]);
  }

  lemma {:induction false} ForestLeads(f: Forest, state: State)
    ensures Run(Step, state, ForestTrace(f)) == AfterForest(f, state)
    decreases f, 0
  {
    match f
    case Nothing =>
    case Then(head, tail) =>
      TraceLeads(head, state);
      ForestLeads(tail, After(head, state));
      RunConcat(Step, state, Trace(head), ForestTrace(tail));
  }

  lemma {:induction false} OperandsLead(o: Operands, index: Index, state: State)
    ensures Run(Step, state, OperandsTrace(o, index)) == AfterOperands(o, index, state)
    decreases o, 0
  {
    match o
    case Stop =>
    case Next(inner, more) =>
      ForestLeads(inner, state);
      OperandsLead(more, index + 1, Step(AfterForest(inner, state), Operand(index)));
      RunConcat(Step, state, ForestTrace(inner), [Operand(index)]);
      RunConcat(Step, state, ForestTrace(inner) + [Operand(index)], OperandsTrace(more, index + 1));
  }

  /** A run from `before` to `after` left nothing of its own on the stack, and
      every operand it evaluated is in one more frame. */
  ghost predicate Settled(before: State, after: State, i: Index, evaluated: nat) {
    Inside(after.stack, before.stack) && Ordered(after.stack) && Holding(after, i) == Holding(before, i) + evaluated
  }

  lemma {:induction false} EvaluationSettles(e: Evaluation, state: State, i: Index)
    requires Ordered(state.stack)
    ensures Settled(state, After(e, state), i, Evaluated(e, i))
    decreases e, 0
  {
    ForestSettles(e.first, state, i);
    var begun := AfterForest(e.first, state);
    OperandsSettle(e.rest, 1, state.stack, begun, i);
    var ran := AfterOperands(e.rest, 1, begun);
    CloseConserves(ran, i);
    CloseLeavesBase(state.stack, ran, 1 + Length(e.rest));
  }

  lemma {:induction false} ForestSettles(f: Forest, state: State, i: Index)
    requires Ordered(state.stack)
    ensures Settled(state, AfterForest(f, state), i, ForestEvaluated(f, i))
    decreases f, 0
  {
    match f
    case Nothing => InsideItself(state.stack);
    case Then(head, tail) =>
      EvaluationSettles(head, state, i);
      ForestSettles(tail, After(head, state), i);
      InsideInside(AfterForest(f, state).stack, After(head, state).stack, state.stack);
  }

  lemma {:induction false} OperandsSettle(o: Operands, index: Index, base: seq<Frame>, state: State, i: Index)
    requires Ordered(state.stack) && Between(base, state.stack, index)
    ensures var after := AfterOperands(o, index, state);
      && Ordered(after.stack)
      && Between(base, after.stack, index + Length(o))
      && Holding(after, i) == Holding(state, i) + OperandsEvaluated(o, index, i)
    decreases o, 0
  {
    match o
    case Stop =>
    case Next(inner, more) =>
      ForestSettles(inner, state, i);
      var ran := AfterForest(inner, state);
      RecordKeepsBetween(base, state.stack, ran.stack, index);
      RecordConserves(ran, index, i);
      OperandsSettle(more, index + 1, base, Step(ran, Operand(index)), i);
  }

  /** A run that stays within 64 open evaluations drops no frame. */
  lemma {:induction false} EvaluationFits(e: Evaluation, state: State)
    requires Ordered(state.stack) && |state.stack| + Depth(e) <= MAX_OPEN_EVALUATIONS
    ensures After(e, state).dropped == state.dropped
    decreases e, 0
  {
    ForestFits(e.first, state);
    ForestSettles(e.first, state, 1);
    OperandsFit(e.rest, 1, state.stack, AfterForest(e.first, state));
  }

  lemma {:induction false} ForestFits(f: Forest, state: State)
    requires Ordered(state.stack) && |state.stack| + ForestDepth(f) <= MAX_OPEN_EVALUATIONS
    ensures AfterForest(f, state).dropped == state.dropped
    decreases f, 0
  {
    match f
    case Nothing =>
    case Then(head, tail) =>
      EvaluationFits(head, state);
      EvaluationSettles(head, state, 1);
      InsideOrdered(After(head, state).stack, state.stack);
      ForestFits(tail, After(head, state));
  }

  lemma {:induction false} OperandsFit(o: Operands, index: Index, base: seq<Frame>, state: State)
    requires Ordered(state.stack) && Between(base, state.stack, index)
    requires |base| + 1 + OperandsDepth(o) <= MAX_OPEN_EVALUATIONS
    ensures AfterOperands(o, index, state).dropped == state.dropped
    decreases o, 0
  {
    match o
    case Stop =>
    case Next(inner, more) =>
      BetweenIsShort(base, state.stack, index);
      ForestFits(inner, state);
      ForestSettles(inner, state, 1);
      var ran := AfterForest(inner, state);
      RecordKeepsBetween(base, state.stack, ran.stack, index);
      RecordFits(base, ran, index);
      OperandsFit(more, index + 1, base, Step(ran, Operand(index)));
  }

  lemma {:induction false} BetweenIsShort(base: seq<Frame>, stack: seq<Frame>, index: Index)
    requires Between(base, stack, index)
    ensures |stack| <= |base| + 1
  {
    InsideOrdered(if index <= 1 then stack else Init(stack), base);
  }

  lemma {:induction false} RecordFits(base: seq<Frame>, state: State, index: Index)
    requires Ordered(state.stack) && |base| < MAX_OPEN_EVALUATIONS
    requires Opens(state.stack, index) ==> Inside(state.stack, base)
    ensures var after := Step(state, Operand(index));
      after.dropped == state.dropped && Ordered(after.stack)
  {
    RecordConserves(state, index, 1);
    if Opens(state.stack, index) {
      InsideOrdered(state.stack, base);
    }
  }

  lemma {:induction false} EachEvaluationCloses(e: Evaluation, state: State)
    ensures |After(e, state).closed| == |state.closed| + Evaluated(e, 0)
    decreases e, 0
  {
    EachForestCloses(e.first, state);
    EachOperandCloses(e.rest, 1, AfterForest(e.first, state));
  }

  lemma {:induction false} EachForestCloses(f: Forest, state: State)
    ensures |AfterForest(f, state).closed| == |state.closed| + ForestEvaluated(f, 0)
    decreases f, 0
  {
    match f
    case Nothing =>
    case Then(head, tail) =>
      EachEvaluationCloses(head, state);
      EachForestCloses(tail, After(head, state));
  }

  lemma {:induction false} EachOperandCloses(o: Operands, index: Index, state: State)
    ensures |AfterOperands(o, index, state).closed| == |state.closed| + OperandsEvaluated(o, index, 0)
    decreases o, 0
  {
    match o
    case Stop =>
    case Next(inner, more) =>
      EachForestCloses(inner, state);
      EachOperandCloses(more, index + 1, Step(AfterForest(inner, state), Operand(index)));
  }

  // -- what is reported ------------------------------------------------------------

  /** `_boolop_probe` reports each right operand of each closed frame, once per
      (operand, whether it was evaluated). */
  ghost predicate Reported(closed: seq<set<nat>>, operand: nat, evaluated: bool) {
    exists k | 0 <= k < |closed| :: (operand in closed[k]) == evaluated
  }

  lemma {:induction false} AmongDecidesReports(closed: seq<set<nat>>, i: nat)
    ensures Reported(closed, i, true) <==> Among(closed, i) > 0
    ensures Reported(closed, i, false) <==> Among(closed, i) < |closed|
    ensures Among(closed, i) <= |closed|
  {
    if closed != [] {
      AmongDecidesReports(Init(closed), i);
      assert (i in closed[|closed| - 1]) == (i in Last(closed));
      forall evaluated | Reported(Init(closed), i, evaluated)
        ensures Reported(closed, i, evaluated)
      {
        var k :| 0 <= k < |Init(closed)| && (i in Init(closed)[k]) == evaluated;
        assert closed[k] == Init(closed)[k];
      }
      forall evaluated | Reported(closed, i, evaluated)
        ensures Reported(Init(closed), i, evaluated) || (i in Last(closed)) == evaluated
      {
        var k :| 0 <= k < |closed| && (i in closed[k]) == evaluated;
        assert k < |Init(closed)| ==> Init(closed)[k] == closed[k];
      }
    }
  }

  /** Every closed frame stands for an evaluation: it has operand 0. */
  ghost predicate AllStarted(sets: seq<set<nat>>) {
    forall k | 0 <= k < |sets| :: 0 in sets[k]
  }

  lemma {:induction false} StartedCount(sets: seq<set<nat>>)
    requires AllStarted(sets)
    ensures Among(sets, 0) == |sets|
  {
    if sets != [] {
      assert AllStarted(Init(sets)) && Last(sets) == sets[|sets| - 1];
      StartedCount(Init(sets));
    }
  }

  /** What every state of a run keeps: frames in order, closed ones with operand 0,
      dropped ones with some further operand. */
  ghost predicate Sound(state: State) {
    Ordered(state.stack) && AllStarted(state.closed) && AllRecorded(state.dropped)
  }

  ghost predicate AllRecorded(dropped: seq<set<nat>>) {
    forall k | 0 <= k < |dropped| :: HasRight(dropped[k])
  }

  ghost predicate HasRight(frame: set<nat>) {
    exists i: nat :: i > 0 && i in frame
  }

  lemma {:induction false} StepKeepsSound(state: State, event: Event)
    requires Sound(state)
    ensures Sound(Step(state, event))
  {
    match event
    case Close =>
      CloseConserves(state, 1);
      if state.stack != [] {
        assert OrderedFrame(Last(state.stack)) && Last(state.stack)[0] == 0;
      }
    case Operand(index) =>
      RecordConserves(state, index, 1);
      if Drops(state.stack, index) {
        var frame := state.stack[0];
        assert OrderedFrame(frame) && frame[1] > 0 && frame[1] in Elements(frame);
      }
  }

  lemma {:induction false} RunKeepsSound(state: State, events: seq<Event>)
    requires Sound(state)
    ensures Sound(Run(Step, state, events))
    decreases |events|
  {
    if events != [] {
      StepKeepsSound(state, events[0]);
      RunKeepsSound(Step(state, events[0]), events[1..]);
    }
  }

  /** Among evaluations of one expression, how many of operand `i` the closed
      frames lack: those of the frames that were dropped. */
  function Lost(after: State, i: nat): nat {
    if i == 0 then 0 else Among(after.dropped, i)
  }

  /** The main theorem for one (context, group). After any properly nested run, of
      any depth, no frame is left, and the closed frames holding an operand fall
      short of the evaluations that evaluated it by exactly the dropped frames
      holding it. So it is reported evaluated exactly when more evaluations
      evaluated it than dropped frames hold it, and short-circuited exactly when
      that difference is less than the number of evaluations. */
  lemma {:induction false} NestedRunsAreAccountedFor(f: Forest, operand: nat)
    ensures var after := Run(Step, IDLE, ForestTrace(f));
      && after.stack == []
      && Among(after.closed, operand) + Lost(after, operand) == ForestEvaluated(f, operand)
      && (Reported(after.closed, operand, true) <==> ForestEvaluated(f, operand) > Lost(after, operand))
      && (Reported(after.closed, operand, false)
          <==> ForestEvaluated(f, operand) < ForestEvaluated(f, 0) + Lost(after, operand))
  {
    var after := Run(Step, IDLE, ForestTrace(f));
    ForestLeads(f, IDLE);
    ForestSettles(f, IDLE, if operand == 0 then 1 else operand);
    InsideOrdered(after.stack, []);
    EachForestCloses(f, IDLE);
    RunKeepsSound(IDLE, ForestTrace(f));
    StartedCount(after.closed);
    AmongDecidesReports(after.closed, operand);
  }

  /** Each operand is in as many closed frames as evaluations evaluated it. */
  ghost predicate CountsAreExact(f: Forest, after: State) {
    forall i: nat :: Among(after.closed, i) == ForestEvaluated(f, i)
  }

  /** Exactly the runs in which no frame had to be dropped have exact counts. */
  lemma {:induction false} CountsAreExactUnlessDropped(f: Forest)
    ensures var after := Run(Step, IDLE, ForestTrace(f));
      CountsAreExact(f, after) <==> after.dropped == []
  {
    var after := Run(Step, IDLE, ForestTrace(f));
    if after.dropped == [] {
      forall i: nat ensures Among(after.closed, i) == ForestEvaluated(f, i) {
        NestedRunsAreAccountedFor(f, i);
      }
    } else {
      RunKeepsSound(IDLE, ForestTrace(f));
      assert HasRight(after.dropped[|after.dropped| - 1]);
      var i: nat :| i > 0 && i in after.dropped[|after.dropped| - 1];
      assert Among(after.dropped, i) > 0;
      NestedRunsAreAccountedFor(f, i);
    }
  }

  /** And then every report is exact: an operand is reported evaluated exactly when
      some evaluation evaluated it, and short-circuited exactly when some did not. */
  lemma {:induction false} NestedRunsAreExact(f: Forest, operand: nat)
    requires Run(Step, IDLE, ForestTrace(f)).dropped == []
    ensures var after := Run(Step, IDLE, ForestTrace(f));
      && after.stack == []
      && Among(after.closed, operand) == ForestEvaluated(f, operand)
      && (Reported(after.closed, operand, true) <==> ForestEvaluated(f, operand) > 0)
      && (Reported(after.closed, operand, false) <==> ForestEvaluated(f, operand) < ForestEvaluated(f, 0))
  {
    NestedRunsAreAccountedFor(f, operand);
  }

  /** No frame is dropped while at most 64 evaluations are open. */
  lemma {:induction false} ShallowRunsDropNothing(f: Forest)
    requires ForestDepth(f) <= MAX_OPEN_EVALUATIONS
    ensures Run(Step, IDLE, ForestTrace(f)).dropped == []
  {
    ForestLeads(f, IDLE);
    ForestFits(f, IDLE);
  }

  datatype Key = Key(context: int, group: nat)

  /** The same for a whole process: contexts and groups may interleave in any way,
      as long as each one's own events are properly nested. */
  lemma {:induction false} InterleavedRunsAreExact(events: seq<(Key, Event)>, key: Key, f: Forest, operand: nat)
    requires Project(events, key) == ForestTrace(f)
    ensures var after := At(RunAll(Step, IDLE, map[], events), key, IDLE);
      && after.stack == []
      && Among(after.closed, operand) + Lost(after, operand) == ForestEvaluated(f, operand)
      && (CountsAreExact(f, after) <==> after.dropped == [])
      && (ForestDepth(f) <= MAX_OPEN_EVALUATIONS ==> after.dropped == [])
      && (after.dropped == [] ==>
            && (Reported(after.closed, operand, true) <==> ForestEvaluated(f, operand) > 0)
            && (Reported(after.closed, operand, false) <==> ForestEvaluated(f, operand) < ForestEvaluated(f, 0)))
  {
    KeysAreIndependent(Step, IDLE, map[], events, key);
    NestedRunsAreAccountedFor(f, operand);
    CountsAreExactUnlessDropped(f);
    if ForestDepth(f) <= MAX_OPEN_EVALUATIONS {
      ShallowRunsDropNothing(f);
    }
  }

  // -- the bound is exact ------------------------------------------------------------

  /** `n` evaluations, each evaluating operand 1 and then, but for the innermost,
      operand 2 with the next evaluation inside it. */
  function Chain(n: nat): Evaluation
    requires n > 0
  {
    if n == 1 then Evaluation(Nothing, Next(Nothing, Stop))
    else Around(Chain(n - 1))
  }

  /** An evaluation of operand 1 and then operand 2, with one inside that. */
  function Around(inner: Evaluation): Evaluation {
    Evaluation(Nothing, Next(Nothing, Next(Then(inner, Nothing), Stop)))
  }

  lemma {:induction false} AroundDeepens(inner: Evaluation)
    ensures Depth(Around(inner)) == Depth(inner) + 1
  {
    var inside := Then(inner, Nothing);
    assert ForestDepth(inside) == Depth(inner);
    assert OperandsDepth(Next(inside, Stop)) == Depth(inner);
    assert OperandsDepth(Next(Nothing, Next(inside, Stop))) == Depth(inner);
  }

  lemma {:induction false} AroundEvaluates(inner: Evaluation, i: nat)
    requires i < 2
    ensures Evaluated(Around(inner), i) == Evaluated(inner, i) + 1
  {
    var inside := Then(inner, Nothing);
    assert ForestEvaluated(inside, i) == Evaluated(inner, i);
    assert OperandsEvaluated(Next(inside, Stop), 2, i) == Evaluated(inner, i);
    assert OperandsEvaluated(Next(Nothing, Next(inside, Stop)), 1, i) == (if i == 1 then 1 else 0) + Evaluated(inner, i);
  }

  lemma {:induction false} ChainEvaluates(n: nat)
    requires n > 0
    ensures Depth(Chain(n)) == n && Evaluated(Chain(n), 1) == n && Evaluated(Chain(n), 0) == n
  {
    if n > 1 {
      ChainEvaluates(n - 1);
      AroundDeepens(Chain(n - 1));
      AroundEvaluates(Chain(n - 1), 0);
      AroundEvaluates(Chain(n - 1), 1);
    } else {
      OneEvaluates(0);
      OneEvaluates(1);
    }
  }

  lemma {:induction false} OneEvaluates(i: nat)
    requires i < 2
    ensures var one := Evaluation(Nothing, Next(Nothing, Stop));
      Depth(one) == 1 && Evaluated(one, i) == 1
  {
    var rest := Next(Nothing, Stop);
    NothingInside(i);
    StopAt(rest, Nothing, Stop, i);
  }

  lemma {:induction false} NothingInside(i: nat)
    ensures ForestEvaluated(Nothing, i) == 0 && ForestDepth(Nothing) == 0
    ensures OperandsEvaluated(Stop, 2, i) == 0 && OperandsDepth(Stop) == 0
  {
  }

  /** One operand, with nothing inside or after it. */
  lemma {:induction false} StopAt(o: Operands, inner: Forest, more: Operands, i: nat)
    requires o == Next(inner, more) && ForestEvaluated(inner, i) == 0 && OperandsEvaluated(more, 2, i) == 0
    requires ForestDepth(inner) == 0 && OperandsDepth(more) == 0
    ensures OperandsEvaluated(o, 1, i) == (if i == 1 then 1 else 0) && OperandsDepth(o) == 0
  {
  }

  lemma {:induction false} ChainUnfolds(n: nat, state: State)
    requires n > 1
    ensures After(Chain(n), state)
         == Step(Step(After(Chain(n - 1), Step(state, Operand(1))), Operand(2)), Close)
  {
    var inside := Then(Chain(n - 1), Nothing);
    var first := Step(state, Operand(1));
    assert AfterForest(inside, first) == After(Chain(n - 1), first);
    assert AfterOperands(Next(inside, Stop), 2, first) == Step(AfterForest(inside, first), Operand(2));
  }

  lemma {:induction false} ChainEvicts(n: nat, state: State)
    requires n > 0 && Ordered(state.stack) && |state.stack| > 0 && |state.stack| + n == MAX_OPEN_EVALUATIONS + 1
    ensures After(Chain(n), state).stack == state.stack[1..]
  {
    var first := Step(state, Operand(1));
    FirstOperandOpens(state);
    if n == 1 {
      assert AfterOperands(Next(Nothing, Stop), 1, state) == first;
    } else {
      ChainUnfolds(n, state);
      ChainEvicts(n - 1, first);
      SecondOperandCloses(After(Chain(n - 1), first), state.stack[1..]);
    }
  }

  /** On a stack of ordered frames operand 1 opens one, the oldest going if there
      are 64. */
  lemma {:induction false} FirstOperandOpens(state: State)
    requires Ordered(state.stack) && 0 < |state.stack| <= MAX_OPEN_EVALUATIONS
    ensures var kept := if |state.stack| == MAX_OPEN_EVALUATIONS then state.stack[1..] else state.stack;
      var frame: Frame := [0] + [1];
      Step(state, Operand(1)).stack == kept + [frame] && Ordered(kept + [frame])
  {
    assert OrderedFrame(Last(state.stack));
    var frame: Frame := [0] + [1];
    assert OrderedFrame(frame);
  }

  lemma {:induction false} SecondOperandCloses(inner: State, rest: seq<Frame>)
    requires var frame: Frame := [0] + [1]; inner.stack == rest + [frame]
    ensures Step(Step(inner, Operand(2)), Close).stack == rest
  {
    assert Init(inner.stack) == rest;
    assert Init(Step(inner, Operand(2)).stack) == rest;
  }

  /** 64 is the most depth alone allows: of 65 evaluations open at once every one
      evaluates operand 1, and still it is reported short-circuited. */
  lemma {:induction false} OneMoreMisreports(n: nat)
    requires n == MAX_OPEN_EVALUATIONS + 1
    ensures Depth(Chain(n)) == n
    ensures Evaluated(Chain(n), 1) == Evaluated(Chain(n), 0)
    ensures Reported(Run(Step, IDLE, Trace(Chain(n))).closed, 1, false)
  {
    ChainEvaluates(n);
    TraceLeads(Chain(n), IDLE);
    OutermostIsEvicted(n - 1);
    ChainMisreports(n, IDLE);
  }

  lemma {:induction false} OutermostIsEvicted(n: nat)
    requires n == MAX_OPEN_EVALUATIONS
    ensures After(Chain(n), Step(IDLE, Operand(1))).stack == []
  {
    FirstFrame();
    ChainEvicts(n, Step(IDLE, Operand(1)));
  }

  lemma {:induction false} FirstFrame()
    ensures var first := Step(IDLE, Operand(1));
      |first.stack| == 1 && Ordered(first.stack) && first.stack[1..] == []
  {
    var frame: Frame := [0] + [1];
    RecordOnEmpty([], 1);
    assert OrderedFrame(frame);
  }

  lemma {:induction false} RecordOnEmpty(stack: seq<Frame>, index: Index)
    requires stack == []
    ensures var place: nat := index;
      var frame: Frame := [0] + [place];
      Record(stack, index) == [frame]
  {
    var start: Frame := [0];
    var ready: seq<Frame> := stack + [start];
    assert Init(ready) == [] && Last(ready) == start;
  }

  lemma {:induction false} ChainMisreports(n: nat, state: State)
    requires n > 1 && After(Chain(n - 1), Step(state, Operand(1))).stack == []
    ensures Reported(After(Chain(n), state).closed, 1, false)
  {
    ChainUnfolds(n, state);
    SecondOperandAlone(After(Chain(n - 1), Step(state, Operand(1))));
  }

  lemma {:induction false} SecondOperandAlone(state: State)
    requires state.stack == []
    ensures Reported(Step(Step(state, Operand(2)), Close).closed, 1, false)
  {
    var recorded := Step(state, Operand(2));
    RecordOnEmpty(state.stack, 2);
    var closed := Step(recorded, Close).closed;
    assert 1 !in closed[|closed| - 1];
  }

  // -- the runtime's methods ------------------------------------------------------------

  datatype Hit = Hit(key: Key, operand: nat, evaluated: bool)

  ghost predicate StacksMatch(open: map<Key, seq<Frame>>, states: map<Key, State>) {
    forall key :: SameStack(open, states, key)
  }

  ghost predicate SameStack(open: map<Key, seq<Frame>>, states: map<Key, State>, key: Key) {
    At(open, key, []) == At(states, key, IDLE).stack
  }

  ghost predicate HitsMatch(hits: set<Hit>, groups: seq<seq<nat>>, states: map<Key, State>) {
    forall hit :: hit in hits <==>
      (hit.key.group < |groups| && hit.operand in groups[hit.key.group]
       && Reported(At(states, hit.key, IDLE).closed, hit.operand, hit.evaluated))
  }

  lemma {:induction false} StacksStillMatch(open: map<Key, seq<Frame>>, states: map<Key, State>, key: Key, event: Event, stack: seq<Frame>)
    requires StacksMatch(open, states) && stack == Step(At(states, key, IDLE), event).stack
    ensures StacksMatch(open[key := stack], states[key := Step(At(states, key, IDLE), event)])
  {
    var grown, after := open[key := stack], states[key := Step(At(states, key, IDLE), event)];
    forall k
      ensures SameStack(grown, after, k)
    {
      assert SameStack(open, states, k);
    }
  }

  lemma {:induction false} HitsStillMatch(hits: set<Hit>, groups: seq<seq<nat>>, states: map<Key, State>, key: Key, state: State)
    requires HitsMatch(hits, groups, states) && state.closed == At(states, key, IDLE).closed
    ensures HitsMatch(hits, groups, states[key := state])
  {
    assert forall k :: At(states[key := state], k, IDLE).closed == At(states, k, IDLE).closed;
  }

  /** `_operand_probe`, on the one stack it changes. */
  method RecordOn(open: seq<Frame>, index: Index) returns (stack: seq<Frame>)
    ensures stack == Record(open, index)
  {
    stack := open;
    if stack == [] || index <= Last(Last(stack)) {
      if |stack| >= MAX_OPEN_EVALUATIONS {
        stack := stack[1..];
      }
      stack := stack + [[0]];
    }
    stack := Joined(stack, index);
  }

  class BoolOpProbes {
    /** For each group, the right operands of its expression. */
    const groups: seq<seq<nat>>
    /** `probe_open_boolops`. */
    var open: map<Key, seq<Frame>>
    var hits: set<Hit>
    ghost var states: map<Key, State>

    ghost predicate Valid()
      reads this
    {
      StacksMatch(open, states) && HitsMatch(hits, groups, states)
    }

    constructor (groups: seq<seq<nat>>)
      ensures Valid() && states == map[] && this.groups == groups
    {
      this.groups := groups;
      open, hits, states := map[], {}, map[];
    }

    method OperandProbe(context: int, g: nat, index: Index)
      requires Valid() && g < |groups|
      modifies this
      ensures Valid()
      ensures states == old(states)[Key(context, g) := Step(At(old(states), Key(context, g), IDLE), Operand(index))]
    {
      var key := Key(context, g);
      var stack: seq<Frame> := if key in open then open[key] else [];
      ghost var was := At(states, key, IDLE);
      assert SameStack(open, states, key);
      stack := RecordOn(stack, index);
      StacksStillMatch(open, states, key, Operand(index), stack);
      HitsStillMatch(hits, groups, states, key, Step(was, Operand(index)));
      open := open[key := stack];
      states := states[key := Step(was, Operand(index))];
    }

    method BoolOpProbe(context: int, g: nat)
      requires Valid() && g < |groups|
      modifies this
      ensures Valid()
      ensures states == old(states)[Key(context, g) := Step(At(old(states), Key(context, g), IDLE), Close)]
    {
      var key := Key(context, g);
      var stack: seq<Frame> := if key in open then open[key] else [];
      assert SameStack(open, states, key);
      var evaluated: set<nat> := {0};
      if stack != [] {
        evaluated := Elements(Last(stack));
      }
      var operands, before := groups[g], hits;
      for n := 0 to |operands|
        invariant open == old(open) && states == old(states)
        invariant forall hit :: hit in hits <==>
          (hit in before
           || (hit.key == key && hit.operand in operands[..n] && hit.evaluated == (hit.operand in evaluated)))
      {
        hits := hits + {Hit(key, operands[n], operands[n] in evaluated)};
      }
      assert operands[..|operands|] == operands;
      HitsMatchOnClose(before, hits, groups, states, key, evaluated);
      StacksStillMatch(open, states, key, Close, if stack == [] then [] else Init(stack));
      open := open[key := if stack == [] then [] else Init(stack)];
      states := states[key := Step(At(states, key, IDLE), Close)];
    }
  }

  lemma {:induction false} HitsMatchOnClose(
    before: set<Hit>, hits: set<Hit>, groups: seq<seq<nat>>, states: map<Key, State>, key: Key, evaluated: set<nat>)
    requires HitsMatch(before, groups, states) && key.group < |groups|
    requires Step(At(states, key, IDLE), Close).closed == At(states, key, IDLE).closed + [evaluated]
    requires forall hit :: hit in hits <==>
      (hit in before
       || (hit.key == key && hit.operand in groups[key.group] && hit.evaluated == (hit.operand in evaluated)))
    ensures HitsMatch(hits, groups, states[key := Step(At(states, key, IDLE), Close)])
  {
    var after := states[key := Step(At(states, key, IDLE), Close)];
    forall hit: Hit | hit.key.group < |groups| && hit.operand in groups[hit.key.group]
      ensures hit in hits <==> Reported(At(after, hit.key, IDLE).closed, hit.operand, hit.evaluated)
    {
      assert hit in before <==> Reported(At(states, hit.key, IDLE).closed, hit.operand, hit.evaluated);
      if hit.key == key {
        ReportedGrows(At(states, key, IDLE).closed, evaluated, hit.operand, hit.evaluated);
      }
    }
  }

  lemma {:induction false} ReportedGrows(closed: seq<set<nat>>, next: set<nat>, operand: nat, value: bool)
    ensures Reported(closed + [next], operand, value) <==> Reported(closed, operand, value) || (operand in next) == value
  {
    var grown := closed + [next];
    assert grown[|closed|] == next;
    if Reported(closed, operand, value) {
      var k :| 0 <= k < |closed| && (operand in closed[k]) == value;
      assert grown[k] == closed[k];
    }
  }
}
