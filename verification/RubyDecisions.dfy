/** Multi-condition decisions of the Ruby runtime: a stack of frames of condition
    values per (context, probe), and the check that an evaluation's values give
    its outcome before anything is recorded. A decision of one condition has no
    condition probe, so its runs have no `Condition` events; what it records is
    `LoneConditionIsRecorded`'s subject. */
module RubyDecisions {
  import opened ConditionTrees
  import opened KeyedRuns
  import opened NestedDecisions
  import opened Options

  const MAX_OPEN_EVALUATIONS := 64

  datatype Frame = Frame(values: Vector, last: int)

  /** The open frames, the values and outcome of each decision closed, and how
      many frames were dropped because 64 were open. */
  datatype State = State(width: nat, stack: seq<Frame>, log: seq<(Vector, bool)>, evicted: nat)

  function Idle(width: nat): State {
    State(width, [], [], 0)
  }

  function Blank(width: nat): Vector {
    seq(width, _ => None)
  }

  function Top(stack: seq<Frame>): Frame
    requires stack != []
  {
    stack[|stack| - 1]
  }

  predicate Opens(stack: seq<Frame>, index: nat) {
    stack == [] || index <= Top(stack).last
  }

  function SetAt(values: Vector, index: nat, value: bool): Vector {
    if index < |values| then values[index := Some(value)] else values
  }

  function Step(state: State, event: Event): State {
    match event
    case Condition(index, truth, _) =>
      var opens := Opens(state.stack, index);
      var evicts := opens && |state.stack| >= MAX_OPEN_EVALUATIONS;
      var kept := if evicts then state.stack[1..] else state.stack;
      var stack := if opens then kept + [Frame(Blank(state.width), -1)] else kept;
      state.(stack := stack[..|stack| - 1] + [Frame(SetAt(Top(stack).values, index, truth), index)],
             evicted := state.evicted + if evicts then 1 else 0)
    case Decision(outcome) =>
      if state.stack == [] then state.(log := state.log + [(Blank(state.width), outcome)])
      else state.(stack := state.stack[..|state.stack| - 1], log := state.log + [(Top(state.stack).values, outcome)])
  }

  // -- what a run should record ------------------------------------------------------

  /** The operands' truths at the conditions visited, each under its own `not`. */
  function OwnValues(plan: Plan, e: Evaluation): Vector {
    seq(|plan.nots|, i => if i in Visited(plan, e) then Some(TruthAt(e, i)) else None)
  }

  function Log(plan: Plan, e: Evaluation): seq<(Vector, bool)>
    decreases e, 1
  {
    VisitsLog(plan, e, 0) + [(OwnValues(plan, e), Outcome(plan, e))]
  }

  function VisitsLog(plan: Plan, e: Evaluation, k: nat): seq<(Vector, bool)>
    decreases e, 0, |Visited(plan, e)| - k
  {
    if k >= |Visited(plan, e)| then []
    else InsideLog(plan, e, Visited(plan, e)[k]) + VisitsLog(plan, e, k + 1)
  }

  function InsideLog(plan: Plan, e: Evaluation, i: nat): seq<(Vector, bool)>
    decreases e, 0, 0
  {
    if i < |e.inside| then ForestLog(plan, e.inside[i]) else []
  }

  function ForestLog(plan: Plan, f: Forest): seq<(Vector, bool)>
    decreases f
  {
    match f
    case Nothing => []
    case Then(head, tail) => Log(plan, head) + ForestLog(plan, tail)
  }

  /** How many evaluations are open at once, at most. */
  function Depth(plan: Plan, e: Evaluation): nat
    decreases e, 1
  {
    1 + VisitsDepth(plan, e, 0)
  }

  function VisitsDepth(plan: Plan, e: Evaluation, k: nat): nat
    decreases e, 0, |Visited(plan, e)| - k
  {
    if k >= |Visited(plan, e)| then 0
    else Max(InsideDepth(plan, e, Visited(plan, e)[k]), VisitsDepth(plan, e, k + 1))
  }

  function InsideDepth(plan: Plan, e: Evaluation, i: nat): nat
    decreases e, 0, 0
  {
    if i < |e.inside| then ForestDepth(plan, e.inside[i]) else 0
  }

  function ForestDepth(plan: Plan, f: Forest): nat
    decreases f
  {
    match f
    case Nothing => 0
    case Then(head, tail) => Max(Depth(plan, head), ForestDepth(plan, tail))
  }

  function Max(a: nat, b: nat): nat {
    if a < b then b else a
  }

  // -- one evaluation, on any stack -----------------------------------------------------

  /** The values while the first `k` of the conditions visited are recorded. */
  function ValuesSoFar(plan: Plan, e: Evaluation, k: nat): Vector
    requires k <= |Visited(plan, e)|
  {
    if k == 0 then Blank(|plan.nots|)
    else
      var i := Visited(plan, e)[k - 1];
      SetAt(ValuesSoFar(plan, e, k - 1), i, TruthAt(e, i))
  }

  lemma {:induction false} ValuesAre(plan: Plan, e: Evaluation, k: nat)
    requires ValidPlan(plan) && k <= |Visited(plan, e)|
    ensures ValuesSoFar(plan, e, k)
         == seq(|plan.nots|, i => if i in Visited(plan, e)[..k] then Some(TruthAt(e, i)) else None)
  {
    if k > 0 {
      ValuesAre(plan, e, k - 1);
      VisitsForward(plan.tree, 0, Written(plan, e));
      assert Visited(plan, e)[..k] == Visited(plan, e)[..k - 1] + [Visited(plan, e)[k - 1]];
    }
  }

  function SoFar(plan: Plan, e: Evaluation, k: nat, base: State, log: seq<(Vector, bool)>): State
    requires k <= |Visited(plan, e)|
  {
    if k == 0 then base.(log := log)
    else base.(stack := base.stack + [Frame(ValuesSoFar(plan, e, k), Visited(plan, e)[k - 1])], log := log)
  }

  /** Every open frame has recorded a condition. */
  ghost predicate Rested(plan: Plan, state: State) {
    state.width == |plan.nots| && forall k | 0 <= k < |state.stack| :: state.stack[k].last >= 0
  }

  lemma {:induction false} RecordCondition(plan: Plan, e: Evaluation, k: nat, base: State, log: seq<(Vector, bool)>)
    requires ValidPlan(plan) && Rested(plan, base) && k < |Visited(plan, e)| && |base.stack| < MAX_OPEN_EVALUATIONS
    ensures var i := Visited(plan, e)[k];
      Step(SoFar(plan, e, k, base, log), Condition(i, TruthAt(e, i), NotAt(plan, i))) == SoFar(plan, e, k + 1, base, log)
  {
    VisitsForward(plan.tree, 0, Written(plan, e));
    var i := Visited(plan, e)[k];
    var state := SoFar(plan, e, k, base, log);
    var grown := Step(state, Condition(i, TruthAt(e, i), NotAt(plan, i)));
    if k == 0 {
      assert Opens(state.stack, i);
      var pushed := base.stack + [Frame(Blank(state.width), -1)];
      assert pushed[..|pushed| - 1] == base.stack;
      assert ValuesSoFar(plan, e, 1) == SetAt(ValuesSoFar(plan, e, 0), i, TruthAt(e, i));
    } else {
      assert !Opens(state.stack, i);
      assert state.stack[..|state.stack| - 1] == base.stack;
    }
  }

  /** It leaves the open frames exactly as they were, and adds its values and
      those of all that ran inside it to the log, in the order they end. */
  lemma {:induction false} EvaluationRecords(plan: Plan, e: Evaluation, state: State)
    requires ValidPlan(plan) && Rested(plan, state) && |state.stack| + Depth(plan, e) <= MAX_OPEN_EVALUATIONS
    ensures After(plan, e, Step, state) == state.(log := state.log + Log(plan, e))
    decreases e, 1
  {
    var visited, log := Visited(plan, e), state.log + VisitsLog(plan, e, 0);
    VisitsForward(plan.tree, 0, Written(plan, e));
    VisitsRecord(plan, e, 0, state, state.log);
    AllValues(plan, e);
    var open := SoFar(plan, e, |visited|, state, log);
    assert open.stack[..|open.stack| - 1] == state.stack;
    var entry := (OwnValues(plan, e), Outcome(plan, e));
    assert log + [entry] == state.log + (VisitsLog(plan, e, 0) + [entry]);
  }

  lemma {:induction false} Associate<T>(a: seq<T>, b: seq<T>, c: seq<T>)
    ensures a + b + c == a + (b + c)
  {
  }

  lemma {:induction false} VisitsUnfold(plan: Plan, e: Evaluation, k: nat, state: State, next: State)
    requires k < |Visited(plan, e)| && AfterVisit(plan, e, k, Step, state) == next
    ensures AfterVisits(plan, e, k, Step, state) == AfterVisits(plan, e, k + 1, Step, next)
  {
  }

  lemma {:induction false} VisitsRecord(plan: Plan, e: Evaluation, k: nat, base: State, log: seq<(Vector, bool)>)
    requires ValidPlan(plan) && Rested(plan, base) && k <= |Visited(plan, e)|
    requires |base.stack| + 1 + VisitsDepth(plan, e, k) <= MAX_OPEN_EVALUATIONS
    ensures AfterVisits(plan, e, k, Step, SoFar(plan, e, k, base, log))
         == SoFar(plan, e, |Visited(plan, e)|, base, log + VisitsLog(plan, e, k))
    decreases e, 0, |Visited(plan, e)| - k, 1
  {
    if k == |Visited(plan, e)| {
      assert log + [] == log;
    } else {
      var inner := InsideLog(plan, e, Visited(plan, e)[k]);
      VisitRecords(plan, e, k, base, log);
      VisitsRecord(plan, e, k + 1, base, log + inner);
      Associate(log, inner, VisitsLog(plan, e, k + 1));
      VisitsUnfold(plan, e, k, SoFar(plan, e, k, base, log), SoFar(plan, e, k + 1, base, log + inner));
    }
  }

  lemma {:induction false} VisitRecords(plan: Plan, e: Evaluation, k: nat, base: State, log: seq<(Vector, bool)>)
    requires ValidPlan(plan) && Rested(plan, base) && k < |Visited(plan, e)|
    requires |base.stack| + 1 + InsideDepth(plan, e, Visited(plan, e)[k]) <= MAX_OPEN_EVALUATIONS
    ensures AfterVisit(plan, e, k, Step, SoFar(plan, e, k, base, log))
         == SoFar(plan, e, k + 1, base, log + InsideLog(plan, e, Visited(plan, e)[k]))
    decreases e, 0, |Visited(plan, e)| - k, 0
  {
    var i := Visited(plan, e)[k];
    if i < |e.inside| {
      ForestRecords(plan, e.inside[i], SoFar(plan, e, k, base, log));
    } else {
      assert log + [] == log;
    }
    RecordCondition(plan, e, k, base, log + InsideLog(plan, e, i));
  }

  lemma {:induction false} ForestRecords(plan: Plan, f: Forest, state: State)
    requires ValidPlan(plan) && Rested(plan, state) && |state.stack| + ForestDepth(plan, f) <= MAX_OPEN_EVALUATIONS
    ensures AfterForest(plan, f, Step, state) == state.(log := state.log + ForestLog(plan, f))
    decreases f
  {
    match f
    case Nothing => assert state.log + [] == state.log;
    case Then(head, tail) =>
      EvaluationRecords(plan, head, state);
      ForestRecords(plan, tail, After(plan, head, Step, state));
      assert state.log + Log(plan, head) + ForestLog(plan, tail) == state.log + (Log(plan, head) + ForestLog(plan, tail));
  }

  // -- at any depth ------------------------------------------------------------------------

  /** What is left of a stack once frames were dropped from its bottom. */
  ghost predicate Remains(stack: seq<Frame>, base: seq<Frame>) {
    exists a: nat :: a <= |base| && stack == base[a..]
  }

  lemma {:induction false} RemainsRemain(stack: seq<Frame>, middle: seq<Frame>, base: seq<Frame>)
    requires Remains(stack, middle) && Remains(middle, base)
    ensures Remains(stack, base)
  {
    var a: nat :| a <= |base| && middle == base[a..];
    var b: nat :| b <= |middle| && stack == middle[b..];
    assert stack == base[a + b..];
  }

  lemma {:induction false} NoneOrAll(stack: seq<Frame>)
    ensures Remains([], stack) && Remains(stack, stack)
    ensures stack != [] ==> Remains(stack[1..], stack)
  {
    assert stack[|stack|..] == [] && stack[0..] == stack;
  }

  /** A frame of an evaluation whose own was dropped: it lacks the first condition. */
  predicate Lost(values: Vector) {
    ValueAt(values, 0) == None
  }

  /** `entries` are `own`, but for values that lack the first condition. */
  ghost predicate OwnOrLost(entries: seq<(Vector, bool)>, own: seq<(Vector, bool)>) {
    |entries| == |own| && forall j | 0 <= j < |own| :: entries[j].1 == own[j].1 && (entries[j] == own[j] || Lost(entries[j].0))
  }

  lemma {:induction false} OwnOrLostBoth(a: seq<(Vector, bool)>, b: seq<(Vector, bool)>, c: seq<(Vector, bool)>, d: seq<(Vector, bool)>)
    requires OwnOrLost(a, c) && OwnOrLost(b, d)
    ensures OwnOrLost(a + b, c + d)
  {
  }

  /** The frames after `k` conditions of an evaluation on `base`: what remains of
      `base` with the evaluation's own frame on top; or that was dropped, and there
      is nothing, or one frame with conditions since. */
  ghost predicate Underway(plan: Plan, e: Evaluation, k: nat, base: seq<Frame>, stack: seq<Frame>)
    requires k <= |Visited(plan, e)|
  {
    if k == 0 then Remains(stack, base)
    else OwnOnTop(plan, e, k, base, stack) || Dropped(Visited(plan, e)[k - 1], stack)
  }

  ghost predicate OwnOnTop(plan: Plan, e: Evaluation, k: nat, base: seq<Frame>, stack: seq<Frame>)
    requires 0 < k <= |Visited(plan, e)|
  {
    stack != [] && Remains(stack[..|stack| - 1], base)
    && Top(stack) == Frame(ValuesSoFar(plan, e, k), Visited(plan, e)[k - 1])
  }

  predicate Dropped(last: nat, stack: seq<Frame>) {
    stack == [] || (|stack| == 1 && Lost(stack[0].values) && stack[0].last == last)
  }

  ghost predicate AllStarted(stack: seq<Frame>) {
    forall k | 0 <= k < |stack| :: stack[k].last >= 0
  }

  lemma {:induction false} RemainsStarted(stack: seq<Frame>, base: seq<Frame>)
    requires Remains(stack, base) && AllStarted(base)
    ensures AllStarted(stack)
  {
  }

  lemma {:induction false} UnderwayStarted(plan: Plan, e: Evaluation, k: nat, base: seq<Frame>, stack: seq<Frame>)
    requires k <= |Visited(plan, e)| && Underway(plan, e, k, base, stack) && AllStarted(base)
    ensures AllStarted(stack)
  {
    if k == 0 {
      RemainsStarted(stack, base);
    } else if OwnOnTop(plan, e, k, base, stack) {
      var under := stack[..|stack| - 1];
      RemainsStarted(under, base);
      assert forall j | 0 <= j < |under| :: stack[j] == under[j];
    }
  }

  /** Runs inside an operand may drop more frames from the bottom. */
  lemma {:induction false} UnderwayStays(plan: Plan, e: Evaluation, k: nat, base: seq<Frame>, before: seq<Frame>, stack: seq<Frame>)
    requires k <= |Visited(plan, e)| && Underway(plan, e, k, base, before) && Remains(stack, before)
    ensures Underway(plan, e, k, base, stack)
  {
    if k == 0 {
      RemainsRemain(stack, before, base);
    } else if stack != [] {
      var a: nat :| a <= |before| && stack == before[a..];
      if OwnOnTop(plan, e, k, base, before) {
        var under := before[..|before| - 1];
        assert stack[..|stack| - 1] == under[a..];
        RemainsRemain(stack[..|stack| - 1], under, base);
      } else {
        assert stack == before;
      }
    }
  }

  function Shelved(stack: seq<Frame>): seq<Frame> {
    if |stack| >= MAX_OPEN_EVALUATIONS then stack[1..] else stack
  }

  lemma {:induction false} OpensFrame(state: State, index: nat, truth: bool, inverted: bool)
    requires Opens(state.stack, index)
    ensures Step(state, Condition(index, truth, inverted)).stack
         == Shelved(state.stack) + [Frame(SetAt(Blank(state.width), index, truth), index)]
  {
    var pushed := Shelved(state.stack) + [Frame(Blank(state.width), -1)];
    assert pushed[..|pushed| - 1] == Shelved(state.stack);
  }

  lemma {:induction false} JoinsFrame(state: State, index: nat, truth: bool, inverted: bool)
    requires !Opens(state.stack, index)
    ensures var after := Step(state, Condition(index, truth, inverted)).stack;
      && after != [] && after[..|after| - 1] == state.stack[..|state.stack| - 1]
      && Top(after) == Frame(SetAt(Top(state.stack).values, index, truth), index)
  {
  }

  lemma {:induction false} FirstCondition(plan: Plan, e: Evaluation, base: seq<Frame>, state: State, after: seq<Frame>)
    requires state.width == |plan.nots| && |Visited(plan, e)| > 0 && Visited(plan, e)[0] == 0
    requires AllStarted(base) && Remains(state.stack, base)
    requires after == Step(state, Condition(0, TruthAt(e, 0), NotAt(plan, 0))).stack
    ensures OwnOnTop(plan, e, 1, base, after)
  {
    RemainsStarted(state.stack, base);
    OpensFrame(state, 0, TruthAt(e, 0), NotAt(plan, 0));
    NoneOrAll(state.stack);
    RemainsRemain(Shelved(state.stack), state.stack, base);
    assert after[..|after| - 1] == Shelved(state.stack);
    assert ValuesSoFar(plan, e, 1) == SetAt(ValuesSoFar(plan, e, 0), 0, TruthAt(e, 0));
  }

  /** In an evaluation whose frame was dropped. */
  lemma {:induction false} LostCondition(state: State, last: nat, index: nat, truth: bool, inverted: bool)
    requires Dropped(last, state.stack) && last < index
    ensures Dropped(index, Step(state, Condition(index, truth, inverted)).stack)
  {
    if state.stack == [] {
      OpensFrame(state, index, truth, inverted);
    } else {
      JoinsFrame(state, index, truth, inverted);
    }
  }

  lemma {:induction false} OwnCondition(plan: Plan, e: Evaluation, k: nat, base: seq<Frame>, state: State, after: seq<Frame>)
    requires 0 < k < |Visited(plan, e)| && Visited(plan, e)[k - 1] < Visited(plan, e)[k]
    requires OwnOnTop(plan, e, k, base, state.stack)
    requires var i := Visited(plan, e)[k]; after == Step(state, Condition(i, TruthAt(e, i), NotAt(plan, i))).stack
    ensures OwnOnTop(plan, e, k + 1, base, after)
  {
    var i := Visited(plan, e)[k];
    JoinsFrame(state, i, TruthAt(e, i), NotAt(plan, i));
  }

  /** The next condition goes to the evaluation's own frame, or to one that lacks
      the first condition. */
  lemma {:induction false} ConditionUnderway(plan: Plan, e: Evaluation, k: nat, base: seq<Frame>, state: State)
    requires ValidPlan(plan) && state.width == |plan.nots| && k < |Visited(plan, e)|
    requires AllStarted(base) && Underway(plan, e, k, base, state.stack)
    ensures var i := Visited(plan, e)[k];
      Underway(plan, e, k + 1, base, Step(state, Condition(i, TruthAt(e, i), NotAt(plan, i))).stack)
  {
    VisitsForward(plan.tree, 0, Written(plan, e));
    var i := Visited(plan, e)[k];
    var after := Step(state, Condition(i, TruthAt(e, i), NotAt(plan, i))).stack;
    if k == 0 {
      FirstCondition(plan, e, base, state, after);
    } else if OwnOnTop(plan, e, k, base, state.stack) {
      OwnCondition(plan, e, k, base, state, after);
    } else {
      LostCondition(state, Visited(plan, e)[k - 1], i, TruthAt(e, i), NotAt(plan, i));
    }
  }

  /** At its end an evaluation logs its own values, or some without the first
      condition, and leaves what remains of the frames it started on. */
  lemma {:induction false} DecisionEnds(plan: Plan, e: Evaluation, base: seq<Frame>, state: State) returns (after: State)
    requires ValidPlan(plan) && state.width == |plan.nots|
    requires Underway(plan, e, |Visited(plan, e)|, base, state.stack)
    ensures after == Step(state, Decision(Outcome(plan, e)))
    ensures Remains(after.stack, base) && after.width == state.width
    ensures Logged(state, after, [(OwnValues(plan, e), Outcome(plan, e))])
  {
    after := Step(state, Decision(Outcome(plan, e)));
    var values := if state.stack == [] then Blank(state.width) else Top(state.stack).values;
    VisitsForward(plan.tree, 0, Written(plan, e));
    if OwnOnTop(plan, e, |Visited(plan, e)|, base, state.stack) {
      AllValues(plan, e);
    } else {
      NoneOrAll(base);
      LostEnds(Visited(plan, e)[|Visited(plan, e)| - 1], state, Outcome(plan, e));
    }
    LoggedOne(state, after, values, OwnValues(plan, e), Outcome(plan, e));
  }

  lemma {:induction false} LostEnds(last: nat, state: State, outcome: bool)
    requires Dropped(last, state.stack)
    ensures Step(state, Decision(outcome)).stack == []
    ensures Lost(if state.stack == [] then Blank(state.width) else Top(state.stack).values)
  {
  }

  lemma {:induction false} LoggedOne(state: State, after: State, values: Vector, own: Vector, outcome: bool)
    requires after.log == state.log + [(values, outcome)] && (values == own || Lost(values))
    ensures Logged(state, after, [(own, outcome)])
  {
    assert after.log[|state.log|..] == [(values, outcome)];
  }

  lemma {:induction false} AllValues(plan: Plan, e: Evaluation)
    requires ValidPlan(plan)
    ensures ValuesSoFar(plan, e, |Visited(plan, e)|) == OwnValues(plan, e)
  {
    ValuesAre(plan, e, |Visited(plan, e)|);
    assert Visited(plan, e)[..|Visited(plan, e)|] == Visited(plan, e);
  }

  /** A run from `state` to `after`: frames remain, and the log grew by `own`. */
  ghost predicate Endured(state: State, after: State, own: seq<(Vector, bool)>) {
    && after.width == state.width && Remains(after.stack, state.stack)
    && Logged(state, after, own)
  }

  ghost predicate Logged(state: State, after: State, own: seq<(Vector, bool)>) {
    && |after.log| >= |state.log| && after.log[..|state.log|] == state.log
    && OwnOrLost(after.log[|state.log|..], own)
  }

  lemma {:induction false} LoggedBoth(state: State, middle: State, after: State, first: seq<(Vector, bool)>, second: seq<(Vector, bool)>)
    requires Logged(state, middle, first) && Logged(middle, after, second)
    ensures Logged(state, after, first + second)
  {
    var n, m := |state.log|, |middle.log|;
    OwnOrLostBoth(middle.log[n..], after.log[m..], first, second);
    assert after.log[..m] == middle.log;
    assert after.log[..n] == middle.log[..n];
    assert after.log[n..] == middle.log[n..] + after.log[m..];
  }

  lemma {:induction false} EvaluationEndures(plan: Plan, e: Evaluation, state: State)
    requires ValidPlan(plan) && state.width == |plan.nots| && AllStarted(state.stack)
    ensures Endured(state, After(plan, e, Step, state), Log(plan, e))
    decreases e, 1
  {
    NoneOrAll(state.stack);
    VisitsEndure(plan, e, 0, state.stack, state);
    var ran := AfterVisits(plan, e, 0, Step, state);
    var after := DecisionEnds(plan, e, state.stack, ran);
    LoggedBoth(state, ran, after, VisitsLog(plan, e, 0), [(OwnValues(plan, e), Outcome(plan, e))]);
  }

  lemma {:induction false} VisitsEndure(plan: Plan, e: Evaluation, k: nat, base: seq<Frame>, state: State)
    requires ValidPlan(plan) && state.width == |plan.nots| && AllStarted(base) && k <= |Visited(plan, e)|
    requires Underway(plan, e, k, base, state.stack)
    ensures var after := AfterVisits(plan, e, k, Step, state);
      && after.width == state.width && Underway(plan, e, |Visited(plan, e)|, base, after.stack)
      && Logged(state, after, VisitsLog(plan, e, k))
    decreases e, 0, |Visited(plan, e)| - k, 1
  {
    if k < |Visited(plan, e)| {
      VisitEndures(plan, e, k, base, state);
      var next := AfterVisit(plan, e, k, Step, state);
      VisitsEndure(plan, e, k + 1, base, next);
      LoggedBoth(state, next, AfterVisits(plan, e, k + 1, Step, next), InsideLog(plan, e, Visited(plan, e)[k]),
        VisitsLog(plan, e, k + 1));
    }
  }

  lemma {:induction false} VisitEndures(plan: Plan, e: Evaluation, k: nat, base: seq<Frame>, state: State)
    requires ValidPlan(plan) && state.width == |plan.nots| && AllStarted(base) && k < |Visited(plan, e)|
    requires Underway(plan, e, k, base, state.stack)
    ensures var after := AfterVisit(plan, e, k, Step, state);
      && after.width == state.width && Underway(plan, e, k + 1, base, after.stack)
      && Logged(state, after, InsideLog(plan, e, Visited(plan, e)[k]))
    decreases e, 0, |Visited(plan, e)| - k, 0
  {
    var i := Visited(plan, e)[k];
    var inner := state;
    if i < |e.inside| {
      UnderwayStarted(plan, e, k, base, state.stack);
      ForestEndures(plan, e.inside[i], state);
      inner := AfterForest(plan, e.inside[i], Step, state);
      UnderwayStays(plan, e, k, base, state.stack, inner.stack);
    }
    ConditionUnderway(plan, e, k, base, inner);
  }

  lemma {:induction false} ForestEndures(plan: Plan, f: Forest, state: State)
    requires ValidPlan(plan) && state.width == |plan.nots| && AllStarted(state.stack)
    ensures Endured(state, AfterForest(plan, f, Step, state), ForestLog(plan, f))
    decreases f
  {
    match f
    case Nothing => NoneOrAll(state.stack);
    case Then(head, tail) =>
      EvaluationEndures(plan, head, state);
      var next := After(plan, head, Step, state);
      RemainsStarted(next.stack, state.stack);
      ForestEndures(plan, tail, next);
      var after := AfterForest(plan, tail, Step, next);
      RemainsRemain(after.stack, next.stack, state.stack);
      LoggedBoth(state, next, after, Log(plan, head), ForestLog(plan, tail));
  }

  // -- what dropped frames leave behind --------------------------------------------------------

  ghost predicate NoneLostSince(log: seq<(Vector, bool)>, n: nat) {
    forall j | n <= j < |log| :: !Lost(log[j].0)
  }

  /** A run from `state` to `after` dropped no frame exactly when it left the frames it
      found, and logged no values without a first condition. */
  ghost predicate Told(state: State, after: State) {
    && after.evicted >= state.evicted
    && (after.evicted == state.evicted <==> after.stack == state.stack && NoneLostSince(after.log, |state.log|))
  }

  /** The frames of `base` are all there, with the evaluation's own on top. */
  ghost predicate Whole(plan: Plan, e: Evaluation, k: nat, base: seq<Frame>, stack: seq<Frame>)
    requires k <= |Visited(plan, e)|
  {
    if k == 0 then stack == base else OwnOnTop(plan, e, k, base, stack) && |stack| == |base| + 1
  }

  ghost predicate ToldSoFar(plan: Plan, e: Evaluation, k: nat, start: State, state: State)
    requires k <= |Visited(plan, e)|
  {
    && state.evicted >= start.evicted
    && (state.evicted == start.evicted
        <==> Whole(plan, e, k, start.stack, state.stack) && NoneLostSince(state.log, |start.log|))
  }

  lemma {:induction false} RemainsAll(stack: seq<Frame>, base: seq<Frame>)
    requires Remains(stack, base)
    ensures |stack| <= |base| && (|stack| == |base| ==> stack == base)
  {
  }

  lemma {:induction false} UnderwaySize(plan: Plan, e: Evaluation, k: nat, base: seq<Frame>, stack: seq<Frame>)
    requires k <= |Visited(plan, e)| && Underway(plan, e, k, base, stack)
    ensures |stack| <= |base| + (if k == 0 then 0 else 1)
  {
    if k == 0 {
      RemainsAll(stack, base);
    } else if OwnOnTop(plan, e, k, base, stack) {
      RemainsAll(stack[..|stack| - 1], base);
    }
  }

  lemma {:induction false} NoneLostBoth(first: State, middle: State, after: State)
    requires |middle.log| >= |first.log| && |after.log| >= |middle.log| && after.log[..|middle.log|] == middle.log
    ensures NoneLostSince(after.log, |first.log|)
      <==> NoneLostSince(middle.log, |first.log|) && NoneLostSince(after.log, |middle.log|)
  {
    assert forall j | 0 <= j < |middle.log| :: after.log[j] == middle.log[j];
  }

  lemma {:induction false} ToldBoth(state: State, middle: State, after: State)
    requires Told(state, middle) && Told(middle, after)
    requires Remains(middle.stack, state.stack) && Remains(after.stack, middle.stack)
    requires |middle.log| >= |state.log| && |after.log| >= |middle.log| && after.log[..|middle.log|] == middle.log
    ensures Told(state, after)
  {
    RemainsAll(middle.stack, state.stack);
    RemainsAll(after.stack, middle.stack);
    NoneLostBoth(state, middle, after);
  }

  /** A frame of one's own has the first condition. */
  lemma {:induction false} OwnHasFirst(plan: Plan, e: Evaluation, k: nat)
    requires ValidPlan(plan) && 0 < k <= |Visited(plan, e)|
    ensures !Lost(ValuesSoFar(plan, e, k))
  {
    ValuesAre(plan, e, k);
    VisitsForward(plan.tree, 0, Written(plan, e));
    assert Visited(plan, e)[..k][0] == 0;
    assert |plan.nots| > 0;
  }

  lemma {:induction false} OwnIsNotDropped(plan: Plan, e: Evaluation, k: nat, base: seq<Frame>, stack: seq<Frame>, last: nat)
    requires ValidPlan(plan) && 0 < k <= |Visited(plan, e)| && OwnOnTop(plan, e, k, base, stack)
    ensures !Dropped(last, stack)
  {
    OwnHasFirst(plan, e, k);
  }

  /** Before a condition the frames are whole exactly when they are after it and none
      was dropped for it. */
  lemma {:induction false} ConditionTold(
    plan: Plan, e: Evaluation, k: nat, base: seq<Frame>, before: seq<Frame>, state: State, after: State)
    requires ValidPlan(plan) && state.width == |plan.nots| && k < |Visited(plan, e)| && AllStarted(base)
    requires Underway(plan, e, k, base, before) && Remains(state.stack, before) && Underway(plan, e, k, base, state.stack)
    requires var i := Visited(plan, e)[k]; after == Step(state, Condition(i, TruthAt(e, i), NotAt(plan, i)))
    ensures after.log == state.log && after.evicted >= state.evicted
    ensures after.evicted == state.evicted && Whole(plan, e, k, base, before) && state.stack == before
      <==> Whole(plan, e, k + 1, base, after.stack)
  {
    VisitsForward(plan.tree, 0, Written(plan, e));
    ConditionUnderway(plan, e, k, base, state);
    RemainsAll(state.stack, before);
    UnderwaySize(plan, e, k, base, before);
    if k == 0 {
      FirstTold(plan, e, base, before, state, after);
    } else {
      NextTold(plan, e, k, base, before, state, after);
    }
  }

  lemma {:induction false} FirstTold(
    plan: Plan, e: Evaluation, base: seq<Frame>, before: seq<Frame>, state: State, after: State)
    requires ValidPlan(plan) && state.width == |plan.nots| && |Visited(plan, e)| > 0 && Visited(plan, e)[0] == 0
    requires AllStarted(base) && Remains(before, base) && Remains(state.stack, before) && |before| <= |base|
    requires after == Step(state, Condition(0, TruthAt(e, 0), NotAt(plan, 0)))
    ensures after.evicted == state.evicted && before == base && state.stack == before <==> Whole(plan, e, 1, base, after.stack)
  {
    RemainsRemain(state.stack, before, base);
    RemainsStarted(state.stack, base);
    FirstCondition(plan, e, base, state, after.stack);
    var kept := OpensAfter(state, 0, TruthAt(e, 0), NotAt(plan, 0));
    SizesTell(base, before, state.stack, kept);
  }

  /** A frame is dropped exactly where the stack was shortened for another. */
  lemma {:induction false} OpensAfter(state: State, index: nat, truth: bool, inverted: bool) returns (kept: nat)
    requires Opens(state.stack, index)
    ensures var after := Step(state, Condition(index, truth, inverted));
      |after.stack| == kept + 1 && (after.evicted == state.evicted <==> kept == |state.stack|)
    ensures kept <= |state.stack|
  {
    OpensFrame(state, index, truth, inverted);
    kept := |Shelved(state.stack)|;
  }

  lemma {:induction false} SizesTell(base: seq<Frame>, before: seq<Frame>, stack: seq<Frame>, kept: nat)
    requires Remains(before, base) && Remains(stack, before) && kept <= |stack|
    ensures kept == |base| <==> kept == |stack| && before == base && stack == before
  {
    RemainsAll(before, base);
    RemainsAll(stack, before);
  }

  lemma {:induction false} NextTold(
    plan: Plan, e: Evaluation, k: nat, base: seq<Frame>, before: seq<Frame>, state: State, after: State)
    requires ValidPlan(plan) && 0 < k < |Visited(plan, e)| && Visited(plan, e)[k - 1] < Visited(plan, e)[k]
    requires Underway(plan, e, k, base, state.stack) && Remains(state.stack, before) && |before| <= |base| + 1
    requires var i := Visited(plan, e)[k]; after == Step(state, Condition(i, TruthAt(e, i), NotAt(plan, i)))
    ensures after.evicted == state.evicted && Whole(plan, e, k, base, before) && state.stack == before
      <==> Whole(plan, e, k + 1, base, after.stack)
  {
    RemainsAll(state.stack, before);
    if OwnOnTop(plan, e, k, base, state.stack) {
      NextOwn(plan, e, k, base, state, after);
    } else {
      NextLost(plan, e, k, base, state, after);
    }
  }

  lemma {:induction false} NextOwn(plan: Plan, e: Evaluation, k: nat, base: seq<Frame>, state: State, after: State)
    requires 0 < k < |Visited(plan, e)| && Visited(plan, e)[k - 1] < Visited(plan, e)[k]
    requires OwnOnTop(plan, e, k, base, state.stack)
    requires var i := Visited(plan, e)[k]; after == Step(state, Condition(i, TruthAt(e, i), NotAt(plan, i)))
    ensures after.evicted == state.evicted && |after.stack| == |state.stack| && OwnOnTop(plan, e, k + 1, base, after.stack)
  {
    var i := Visited(plan, e)[k];
    JoinsAfter(state, i, TruthAt(e, i), NotAt(plan, i));
    OwnCondition(plan, e, k, base, state, after.stack);
  }

  lemma {:induction false} JoinsAfter(state: State, index: nat, truth: bool, inverted: bool)
    requires !Opens(state.stack, index)
    ensures var after := Step(state, Condition(index, truth, inverted));
      after.evicted == state.evicted && |after.stack| == |state.stack|
  {
  }

  lemma {:induction false} NextLost(plan: Plan, e: Evaluation, k: nat, base: seq<Frame>, state: State, after: State)
    requires ValidPlan(plan) && 0 < k < |Visited(plan, e)| && Visited(plan, e)[k - 1] < Visited(plan, e)[k]
    requires Dropped(Visited(plan, e)[k - 1], state.stack)
    requires var i := Visited(plan, e)[k]; after == Step(state, Condition(i, TruthAt(e, i), NotAt(plan, i)))
    ensures !OwnOnTop(plan, e, k + 1, base, after.stack)
  {
    var i := Visited(plan, e)[k];
    LostCondition(state, Visited(plan, e)[k - 1], i, TruthAt(e, i), NotAt(plan, i));
    if OwnOnTop(plan, e, k + 1, base, after.stack) {
      OwnIsNotDropped(plan, e, k + 1, base, after.stack, i);
    }
  }

  lemma {:induction false} EvaluationTold(plan: Plan, e: Evaluation, state: State)
    requires ValidPlan(plan) && state.width == |plan.nots| && AllStarted(state.stack)
    ensures Told(state, After(plan, e, Step, state))
    decreases e, 1
  {
    NoneOrAll(state.stack);
    VisitsEndure(plan, e, 0, state.stack, state);
    VisitsTold(plan, e, 0, state, state);
    DecisionTold(plan, e, state, AfterVisits(plan, e, 0, Step, state));
  }

  lemma {:induction false} DecisionTold(plan: Plan, e: Evaluation, start: State, state: State)
    requires ValidPlan(plan) && state.width == |plan.nots| && |state.log| >= |start.log|
    requires Underway(plan, e, |Visited(plan, e)|, start.stack, state.stack)
    requires ToldSoFar(plan, e, |Visited(plan, e)|, start, state)
    ensures Told(start, Step(state, Decision(Outcome(plan, e))))
  {
    var n, after := |Visited(plan, e)|, Step(state, Decision(Outcome(plan, e)));
    VisitsForward(plan.tree, 0, Written(plan, e));
    NoneLostBoth(start, state, after);
    if OwnOnTop(plan, e, n, start.stack, state.stack) {
      OwnHasFirst(plan, e, n);
      RemainsAll(state.stack[..|state.stack| - 1], start.stack);
    } else {
      LostEnds(Visited(plan, e)[n - 1], state, Outcome(plan, e));
      assert Lost(after.log[|state.log|].0);
    }
  }

  lemma {:induction false} VisitsTold(plan: Plan, e: Evaluation, k: nat, start: State, state: State)
    requires ValidPlan(plan) && state.width == |plan.nots| && AllStarted(start.stack) && k <= |Visited(plan, e)|
    requires |state.log| >= |start.log|
    requires Underway(plan, e, k, start.stack, state.stack) && ToldSoFar(plan, e, k, start, state)
    ensures ToldSoFar(plan, e, |Visited(plan, e)|, start, AfterVisits(plan, e, k, Step, state))
    decreases e, 0, |Visited(plan, e)| - k, 2
  {
    if k < |Visited(plan, e)| {
      VisitTold(plan, e, k, start, state);
      VisitEndures(plan, e, k, start.stack, state);
      VisitsTold(plan, e, k + 1, start, AfterVisit(plan, e, k, Step, state));
    }
  }

  lemma {:induction false} VisitTold(plan: Plan, e: Evaluation, k: nat, start: State, state: State)
    requires ValidPlan(plan) && state.width == |plan.nots| && AllStarted(start.stack) && k < |Visited(plan, e)|
    requires |state.log| >= |start.log|
    requires Underway(plan, e, k, start.stack, state.stack) && ToldSoFar(plan, e, k, start, state)
    ensures ToldSoFar(plan, e, k + 1, start, AfterVisit(plan, e, k, Step, state))
    decreases e, 0, |Visited(plan, e)| - k, 1
  {
    var i := Visited(plan, e)[k];
    var inner := InsideTold(plan, e, k, start.stack, state);
    InnerTold(plan, e, k, start, state, inner, Step(inner, Condition(i, TruthAt(e, i), NotAt(plan, i))));
  }

  lemma {:induction false} InsideTold(plan: Plan, e: Evaluation, k: nat, base: seq<Frame>, state: State)
    returns (inner: State)
    requires ValidPlan(plan) && state.width == |plan.nots| && AllStarted(base) && k < |Visited(plan, e)|
    requires Underway(plan, e, k, base, state.stack)
    ensures var i := Visited(plan, e)[k];
      inner == if i < |e.inside| then AfterForest(plan, e.inside[i], Step, state) else state
    ensures inner.width == state.width && |inner.log| >= |state.log| && inner.log[..|state.log|] == state.log
    ensures Told(state, inner) && Remains(inner.stack, state.stack) && Underway(plan, e, k, base, inner.stack)
    decreases e, 0, |Visited(plan, e)| - k, 0
  {
    var i := Visited(plan, e)[k];
    inner := state;
    if i < |e.inside| {
      inner := AfterForest(plan, e.inside[i], Step, state);
      UnderwayStarted(plan, e, k, base, state.stack);
      ForestTold(plan, e.inside[i], state);
      ForestExtends(plan, e.inside[i], state);
    } else {
      NoneOrAll(state.stack);
    }
    UnderwayStays(plan, e, k, base, state.stack, inner.stack);
  }

  lemma {:induction false} ForestExtends(plan: Plan, f: Forest, state: State)
    requires ValidPlan(plan) && state.width == |plan.nots| && AllStarted(state.stack)
    ensures var after := AfterForest(plan, f, Step, state);
      && after.width == state.width && Remains(after.stack, state.stack)
      && |after.log| >= |state.log| && after.log[..|state.log|] == state.log
  {
    ForestEndures(plan, f, state);
  }

  /** What ran inside an operand, and then its record. */
  lemma {:induction false} InnerTold(plan: Plan, e: Evaluation, k: nat, start: State, state: State, inner: State, after: State)
    requires ValidPlan(plan) && inner.width == |plan.nots| && AllStarted(start.stack) && k < |Visited(plan, e)|
    requires |state.log| >= |start.log| && |inner.log| >= |state.log| && inner.log[..|state.log|] == state.log
    requires Underway(plan, e, k, start.stack, state.stack) && ToldSoFar(plan, e, k, start, state)
    requires Told(state, inner) && Remains(inner.stack, state.stack) && Underway(plan, e, k, start.stack, inner.stack)
    requires var i := Visited(plan, e)[k]; after == Step(inner, Condition(i, TruthAt(e, i), NotAt(plan, i)))
    ensures ToldSoFar(plan, e, k + 1, start, after)
  {
    NoneLostBoth(start, state, inner);
    ConditionTold(plan, e, k, start.stack, state.stack, inner, after);
  }

  lemma {:induction false} ForestTold(plan: Plan, f: Forest, state: State)
    requires ValidPlan(plan) && state.width == |plan.nots| && AllStarted(state.stack)
    ensures Told(state, AfterForest(plan, f, Step, state))
    decreases f
  {
    match f
    case Nothing =>
    case Then(head, tail) =>
      var next := After(plan, head, Step, state);
      EvaluationTold(plan, head, state);
      EvaluationEndures(plan, head, state);
      RemainsStarted(next.stack, state.stack);
      ForestTold(plan, tail, next);
      ForestEndures(plan, tail, next);
      ToldBoth(state, next, AfterForest(plan, tail, Step, next));
  }

  lemma {:induction false} OwnAreNotLost(plan: Plan, f: Forest)
    requires ValidPlan(plan)
    ensures NoneLostSince(ForestLog(plan, f), 0)
    decreases f
  {
    match f
    case Nothing =>
    case Then(head, tail) =>
      OwnLogNotLost(plan, head);
      OwnAreNotLost(plan, tail);
  }

  lemma {:induction false} OwnLogNotLost(plan: Plan, e: Evaluation)
    requires ValidPlan(plan)
    ensures NoneLostSince(Log(plan, e), 0)
    decreases e, 1
  {
    VisitsNotLost(plan, e, 0);
    VisitsForward(plan.tree, 0, Written(plan, e));
    OwnHasFirst(plan, e, |Visited(plan, e)|);
    AllValues(plan, e);
  }

  lemma {:induction false} VisitsNotLost(plan: Plan, e: Evaluation, k: nat)
    requires ValidPlan(plan)
    ensures NoneLostSince(VisitsLog(plan, e, k), 0)
    decreases e, 0, |Visited(plan, e)| - k
  {
    if k < |Visited(plan, e)| {
      var i := Visited(plan, e)[k];
      if i < |e.inside| {
        OwnAreNotLost(plan, e.inside[i]);
      }
      VisitsNotLost(plan, e, k + 1);
    }
  }

  /** Of a nested run from idle: it logs exactly its evaluations' own values if and only
      if no frame was dropped. */
  lemma {:induction false} ForestIsExact(plan: Plan, f: Forest)
    requires ValidPlan(plan)
    ensures var after := AfterForest(plan, f, Step, Idle(|plan.nots|));
      && after.stack == [] && OwnOrLost(after.log, ForestLog(plan, f))
      && (after.log == ForestLog(plan, f) <==> after.evicted == 0)
  {
    var idle := Idle(|plan.nots|);
    var after, own := AfterForest(plan, f, Step, idle), ForestLog(plan, f);
    ForestEndures(plan, f, idle);
    ForestTold(plan, f, idle);
    OwnAreNotLost(plan, f);
    assert after.log[0..] == after.log;
    if NoneLostSince(after.log, 0) {
      assert forall j | 0 <= j < |own| :: after.log[j] == own[j];
    }
  }

  /** For any interleaving of contexts and probes: a properly nested run of any depth
      leaves no frame, and hands `finish_decision` exactly its evaluations' own values
      if and only if no frame was dropped; with at most 64 evaluations open none is. */
  lemma {:induction false} InterleavedRunsAreExact(plan: Plan, events: seq<(Key, Event)>, key: Key, f: Forest)
    requires ValidPlan(plan) && Project(events, key) == ForestTrace(plan, f)
    ensures var idle := Idle(|plan.nots|);
      var after := At(RunAll(Step, idle, map[], events), key, idle);
      && after.stack == []
      && (after.log == ForestLog(plan, f) <==> after.evicted == 0)
      && (ForestDepth(plan, f) <= MAX_OPEN_EVALUATIONS ==> after.evicted == 0)
  {
    var idle := Idle(|plan.nots|);
    KeysAreIndependent(Step, idle, map[], events, key);
    ForestLeads(plan, f, Step, idle);
    ForestIsExact(plan, f);
    if ForestDepth(plan, f) <= MAX_OPEN_EVALUATIONS {
      ForestRecords(plan, f, idle);
    }
  }

  // -- finish_decision -------------------------------------------------------------------

  datatype Finished = Inconsistent | Recorded(values: Vector, outcome: bool)

  function Negated(values: Vector, nots: seq<bool>): Vector {
    seq(|values|, i requires 0 <= i < |values| =>
      if values[i].Some? && i < |nots| && nots[i] then Some(!values[i].value) else values[i])
  }

  /** Values that do not give the outcome are declared, not recorded. */
  function Finish(plan: Plan, values: Vector, outcome: bool): Finished {
    var written := Negated(values, plan.nots);
    if EvaluateTree(plan.tree, written) == Some(outcome) then Recorded(written, outcome) else Inconsistent
  }

  /** Every evaluation of such a run is recorded, with its own vector: the
      inconsistency limitation never fires. */
  lemma {:induction false} OwnValuesAreRecorded(plan: Plan, e: Evaluation)
    requires ValidPlan(plan)
    ensures Finish(plan, OwnValues(plan, e), Outcome(plan, e))
         == Recorded(VectorOf(plan.tree, Written(plan, e), |plan.nots|), Outcome(plan, e))
  {
    var written := Negated(OwnValues(plan, e), plan.nots);
    assert written == VectorOf(plan.tree, Written(plan, e), |plan.nots|);
    VisitsForward(plan.tree, 0, Written(plan, e));
    VectorEvaluates(plan.tree, 0, Written(plan, e), written);
  }

  /** A frame that lost its first condition -- its own frame was dropped, or none
      was ever opened -- is never recorded, whatever else it holds. */
  lemma {:induction false} LostStartIsInconsistent(plan: Plan, values: Vector, outcome: bool)
    requires ValidPlan(plan) && ValueAt(values, 0) == None
    ensures Finish(plan, values, outcome) == Inconsistent
  {
    StartDecides(plan.tree, 0, Negated(values, plan.nots));
  }

  lemma {:induction false} StartDecides(tree: Tree, first: nat, values: Vector)
    requires Numbered(tree, first) && ValueAt(values, first) == None
    ensures EvaluateTree(tree, values) == None
  {
    if tree.Node? {
      StartDecides(tree.items[0], first, values);
    }
  }

  ghost predicate AllRecorded(plan: Plan, log: seq<(Vector, bool)>) {
    forall j | 0 <= j < |log| :: Finish(plan, log[j].0, log[j].1) != Inconsistent
  }

  lemma {:induction false} OwnLogRecorded(plan: Plan, e: Evaluation)
    requires ValidPlan(plan)
    ensures AllRecorded(plan, Log(plan, e))
    decreases e, 1
  {
    VisitsRecorded(plan, e, 0);
    OwnValuesAreRecorded(plan, e);
  }

  lemma {:induction false} VisitsRecorded(plan: Plan, e: Evaluation, k: nat)
    requires ValidPlan(plan)
    ensures AllRecorded(plan, VisitsLog(plan, e, k))
    decreases e, 0, |Visited(plan, e)| - k
  {
    if k < |Visited(plan, e)| {
      var i := Visited(plan, e)[k];
      if i < |e.inside| {
        ForestRecorded(plan, e.inside[i]);
      }
      VisitsRecorded(plan, e, k + 1);
    }
  }

  lemma {:induction false} ForestRecorded(plan: Plan, f: Forest)
    requires ValidPlan(plan)
    ensures AllRecorded(plan, ForestLog(plan, f))
    decreases f
  {
    match f
    case Nothing =>
    case Then(head, tail) =>
      OwnLogRecorded(plan, head);
      ForestRecorded(plan, tail);
  }

  /** However deep a nested run goes, nothing false is recorded: every decision it
      closes has its own values, which are recorded as its own vector, or is
      declared inconsistent; and some are exactly if a frame was dropped. */
  lemma {:induction false} DeepRunsAreSafe(plan: Plan, events: seq<(Key, Event)>, key: Key, f: Forest)
    requires ValidPlan(plan) && Project(events, key) == ForestTrace(plan, f)
    ensures var idle := Idle(|plan.nots|);
      var after := At(RunAll(Step, idle, map[], events), key, idle);
      && after.stack == [] && |after.log| == |ForestLog(plan, f)|
      && forall j | 0 <= j < |after.log| ::
           && after.log[j].1 == ForestLog(plan, f)[j].1
           && (after.log[j] == ForestLog(plan, f)[j] || Finish(plan, after.log[j].0, after.log[j].1) == Inconsistent)
    ensures var idle := Idle(|plan.nots|);
      var after := At(RunAll(Step, idle, map[], events), key, idle);
      AllRecorded(plan, after.log) <==> after.evicted == 0
  {
    var idle := Idle(|plan.nots|);
    KeysAreIndependent(Step, idle, map[], events, key);
    ForestLeads(plan, f, Step, idle);
    ForestIsExact(plan, f);
    ForestRecorded(plan, f);
    LostAreDeclared(plan, AfterForest(plan, f, Step, idle).log, ForestLog(plan, f));
  }

  lemma {:induction false} LostAreDeclared(plan: Plan, log: seq<(Vector, bool)>, own: seq<(Vector, bool)>)
    requires ValidPlan(plan) && OwnOrLost(log, own) && AllRecorded(plan, own)
    ensures forall j | 0 <= j < |log| :: log[j] == own[j] || Finish(plan, log[j].0, log[j].1) == Inconsistent
    ensures AllRecorded(plan, log) <==> log == own
  {
    forall j | 0 <= j < |log| && log[j] != own[j]
      ensures Finish(plan, log[j].0, log[j].1) == Inconsistent
    {
      LostStartIsInconsistent(plan, log[j].0, log[j].1);
    }
    if AllRecorded(plan, log) {
      assert forall j | 0 <= j < |log| :: log[j] == own[j];
    }
  }

  /** A lone condition has no probe of its own: its value is read back from the
      outcome through the condition's `not`, and is always recorded. */
  function LoneValues(plan: Plan, outcome: bool): Vector
    requires |plan.nots| == 1
  {
    [Some(if plan.nots[0] then !outcome else outcome)]
  }

  lemma {:induction false} LoneConditionIsRecorded(plan: Plan, outcome: bool)
    requires plan.tree == Leaf(0) && |plan.nots| == 1
    ensures Finish(plan, LoneValues(plan, outcome), outcome) == Recorded([Some(outcome)], outcome)
  {
    assert Negated(LoneValues(plan, outcome), plan.nots) == [Some(outcome)];
  }

  // -- the probe callbacks ---------------------------------------------------------------

  datatype Key = Key(context: int, probe: nat)

  /** `probe_condition`, on the one stack it changes. */
  method RecordOn(open: seq<Frame>, width: nat, index: nat, value: bool) returns (stack: seq<Frame>)
    ensures stack == Step(State(width, open, [], 0), Condition(index, value, false)).stack
  {
    stack := open;
    if stack == [] || index <= Top(stack).last {
      if |stack| >= MAX_OPEN_EVALUATIONS {
        stack := stack[1..];
      }
      stack := stack + [Frame(Blank(width), -1)];
    }
    var last := Top(stack);
    stack := stack[..|stack| - 1] + [Frame(SetAt(last.values, index, value), index)];
  }

  class Probes {
    const plans: map<nat, Plan>
    /** `@open`. */
    var open: map<Key, seq<Frame>>
    var finished: seq<(Key, Finished)>

    constructor (plans: map<nat, Plan>)
      ensures this.plans == plans && open == map[] && finished == []
    {
      this.plans := plans;
      open, finished := map[], [];
    }

    ghost function StateOf(key: Key): State
      requires key.probe in plans
      reads this`open
    {
      State(|plans[key.probe].nots|, At(open, key, []), [], 0)
    }

    method ProbeCondition(key: Key, index: nat, value: bool) returns (same: bool)
      requires key.probe in plans && index < |plans[key.probe].nots|
      modifies this`open
      ensures same == value
      ensures open == old(open)[key := Step(old(StateOf(key)), Condition(index, value, false)).stack]
    {
      var stack := if key in open then open[key] else [];
      stack := RecordOn(stack, |plans[key.probe].nots|, index, value);
      open := open[key := stack];
      same := value;
    }

    method ProbeDecision(key: Key, value: bool) returns (same: bool)
      requires key.probe in plans && |plans[key.probe].nots| > 0
      modifies this
      ensures same == value
      ensures
        var plan, after := plans[key.probe], Step(old(StateOf(key)), Decision(value));
        var values := if old(At(open, key, [])) == [] && |plan.nots| == 1 then LoneValues(plan, value) else after.log[0].0;
        && At(open, key, []) == after.stack
        && (forall other | other != key :: At(open, other, []) == old(At(open, other, [])))
        && finished == old(finished) + [(key, Finish(plan, values, value))]
    {
      var plan := plans[key.probe];
      var stack := if key in open then open[key] else [];
      var values;
      if stack != [] {
        values := Top(stack).values;
        open := open[key := stack[..|stack| - 1]];
      } else if |plan.nots| == 1 {
        values := LoneValues(plan, value);
      } else {
        values := Blank(|plan.nots|);
      }
      finished := finished + [(key, Finish(plan, values, value))];
      same := value;
    }
  }
}
