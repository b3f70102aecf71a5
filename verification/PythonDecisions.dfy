/** Multi-condition decisions of the Python runtime: one base-3 mask per
    evaluation in progress, nested evaluations of the same decision saved and
    restored. */
module PythonDecisions {
  import opened ConditionTrees
  import opened DecisionVectors
  import opened KeyedRuns
  import opened NestedDecisions
  import opened Options

  /** `_DecisionState`, and the vectors of the evaluations closed so far. */
  datatype State = State(mask: nat, last: int, saved: seq<(nat, int)>, log: seq<(nat, bool)>)

  const IDLE := State(0, -1, [], [])

  function DigitOf(truth: bool, inverted: bool): Digit {
    if truth != inverted then 2 else 1
  }

  function Step(state: State, event: Event): State {
    match event
    case Condition(index, truth, inverted) =>
      var nested := index <= state.last;
      State((if nested then 0 else state.mask) + DigitOf(truth, inverted) * Pow3(index),
            index,
            if nested then state.saved + [(state.mask, state.last)] else state.saved,
            state.log)
    case Decision(outcome) =>
      var log := state.log + [(state.mask, outcome)];
      if state.saved != [] then
        var (mask, last) := state.saved[|state.saved| - 1];
        State(mask, last, state.saved[..|state.saved| - 1], log)
      else State(0, -1, [], log)
  }

  // -- what a run should record --------------------------------------------------------

  /** The vector of one evaluation, by its own short circuits alone. */
  function OwnDigits(plan: Plan, e: Evaluation): seq<Digit> {
    seq(|plan.nots|, i => if i in Visited(plan, e) then DigitOf(TruthAt(e, i), NotAt(plan, i)) else 0)
  }

  /** The vectors a run should record: every evaluation's own, in the order in
      which the evaluations end. */
  function Log(plan: Plan, e: Evaluation): seq<(nat, bool)>
    decreases e, 1
  {
    VisitsLog(plan, e, 0) + [(Mask(OwnDigits(plan, e)), Outcome(plan, e))]
  }

  function VisitsLog(plan: Plan, e: Evaluation, k: nat): seq<(nat, bool)>
    decreases e, 0, |Visited(plan, e)| - k
  {
    if k >= |Visited(plan, e)| then []
    else InsideLog(plan, e, Visited(plan, e)[k]) + VisitsLog(plan, e, k + 1)
  }

  function InsideLog(plan: Plan, e: Evaluation, i: nat): seq<(nat, bool)>
    decreases e, 0, 0
  {
    if i < |e.inside| then ForestLog(plan, e.inside[i]) else []
  }

  function ForestLog(plan: Plan, f: Forest): seq<(nat, bool)>
    decreases f
  {
    match f
    case Nothing => []
    case Then(head, tail) => Log(plan, head) + ForestLog(plan, tail)
  }

  // -- the stack of open evaluations ------------------------------------------------------

  ghost predicate Rested(state: State) {
    state.last >= 0 || (state.last == -1 && state.mask == 0 && state.saved == [])
  }

  /** `base` with one more open evaluation on top. */
  function Opened(base: State, mask: nat, last: nat, log: seq<(nat, bool)>): State {
    State(mask, last, if base.last == -1 then [] else base.saved + [(base.mask, base.last)], log)
  }

  /** The vector while the first `k` of the conditions visited are recorded. */
  function DigitsSoFar(plan: Plan, e: Evaluation, k: nat): seq<Digit>
    requires k <= |Visited(plan, e)|
  {
    seq(|plan.nots|, i => if i in Visited(plan, e)[..k] then DigitOf(TruthAt(e, i), NotAt(plan, i)) else 0)
  }

  lemma {:induction false} DigitsGrow(plan: Plan, e: Evaluation, k: nat)
    requires ValidPlan(plan) && k < |Visited(plan, e)|
    ensures var i := Visited(plan, e)[k];
      && i < |plan.nots|
      && Mask(DigitsSoFar(plan, e, k + 1)) == Mask(DigitsSoFar(plan, e, k)) + DigitOf(TruthAt(e, i), NotAt(plan, i)) * Pow3(i)
  {
    var visited := Visited(plan, e);
    VisitsForward(plan.tree, 0, Written(plan, e));
    var i, digits := visited[k], DigitsSoFar(plan, e, k);
    assert visited[..k + 1] == visited[..k] + [i];
    assert i !in visited[..k];
    SetDigit(digits, i, DigitOf(TruthAt(e, i), NotAt(plan, i)));
    assert digits[i := DigitOf(TruthAt(e, i), NotAt(plan, i))] == DigitsSoFar(plan, e, k + 1);
  }

  lemma {:induction false} StartAndEnd(plan: Plan, e: Evaluation)
    requires ValidPlan(plan)
    ensures Mask(DigitsSoFar(plan, e, 0)) == 0
    ensures DigitsSoFar(plan, e, |Visited(plan, e)|) == OwnDigits(plan, e)
    ensures Visited(plan, e) != [] && Visited(plan, e)[0] == 0
  {
    VisitsForward(plan.tree, 0, Written(plan, e));
    MaskOfZeros(|plan.nots|);
    assert DigitsSoFar(plan, e, 0) == Zeros(|plan.nots|);
    assert Visited(plan, e)[..|Visited(plan, e)|] == Visited(plan, e);
  }

  /** The state when `k` conditions of `e` are recorded, on top of `base`. */
  function SoFar(plan: Plan, e: Evaluation, k: nat, base: State, log: seq<(nat, bool)>): State
    requires k <= |Visited(plan, e)|
  {
    if k == 0 then base.(log := log)
    else Opened(base, Mask(DigitsSoFar(plan, e, k)), Visited(plan, e)[k - 1], log)
  }

  /** One evaluation, on any state: it leaves the open evaluations exactly as
      they were, and adds its vectors to the log. */
  lemma {:induction false} EvaluationRecords(plan: Plan, e: Evaluation, state: State)
    requires ValidPlan(plan) && Rested(state)
    ensures After(plan, e, Step, state) == state.(log := state.log + Log(plan, e))
    decreases e, 1
  {
    StartAndEnd(plan, e);
    VisitsRecord(plan, e, 0, state, state.log);
    var entry := (Mask(OwnDigits(plan, e)), Outcome(plan, e));
    assert state.log + VisitsLog(plan, e, 0) + [entry] == state.log + (VisitsLog(plan, e, 0) + [entry]);
  }

  lemma {:induction false} RecordCondition(plan: Plan, e: Evaluation, k: nat, base: State, log: seq<(nat, bool)>)
    requires ValidPlan(plan) && Rested(base) && k < |Visited(plan, e)|
    ensures var i := Visited(plan, e)[k];
      Step(SoFar(plan, e, k, base, log), Condition(i, TruthAt(e, i), NotAt(plan, i))) == SoFar(plan, e, k + 1, base, log)
  {
    StartAndEnd(plan, e);
    DigitsGrow(plan, e, k);
    VisitsForward(plan.tree, 0, Written(plan, e));
  }

  lemma {:induction false} VisitsRecord(plan: Plan, e: Evaluation, k: nat, base: State, log: seq<(nat, bool)>)
    requires ValidPlan(plan) && Rested(base) && k <= |Visited(plan, e)|
    ensures AfterVisits(plan, e, k, Step, SoFar(plan, e, k, base, log))
         == SoFar(plan, e, |Visited(plan, e)|, base, log + VisitsLog(plan, e, k))
    decreases e, 0, |Visited(plan, e)| - k, 1
  {
    if k == |Visited(plan, e)| {
      assert log + [] == log;
    } else {
      var inner := InsideLog(plan, e, Visited(plan, e)[k]);
      VisitRecords(plan, e, k, base, log);
      VisitsRecord(plan, e, k + 1, base, log + inner);
      assert log + inner + VisitsLog(plan, e, k + 1) == log + (inner + VisitsLog(plan, e, k + 1));
    }
  }

  lemma {:induction false} VisitRecords(plan: Plan, e: Evaluation, k: nat, base: State, log: seq<(nat, bool)>)
    requires ValidPlan(plan) && Rested(base) && k < |Visited(plan, e)|
    ensures AfterVisit(plan, e, k, Step, SoFar(plan, e, k, base, log))
         == SoFar(plan, e, k + 1, base, log + InsideLog(plan, e, Visited(plan, e)[k]))
    decreases e, 0, |Visited(plan, e)| - k, 0
  {
    var i := Visited(plan, e)[k];
    if i < |e.inside| {
      ForestRecords(plan, e.inside[i], SoFar(plan, e, k, base, log));
    } else {
      assert log + [] == log;
    }
    RecordCondition(plan, e, k, base, log + InsideLog(plan, e, i));
  }

  lemma {:induction false} ForestRecords(plan: Plan, f: Forest, state: State)
    requires ValidPlan(plan) && Rested(state)
    ensures AfterForest(plan, f, Step, state) == state.(log := state.log + ForestLog(plan, f))
    decreases f
  {
    match f
    case Nothing => assert state.log + [] == state.log;
    case Then(head, tail) =>
      EvaluationRecords(plan, head, state);
      ForestRecords(plan, tail, After(plan, head, Step, state));
      assert state.log + Log(plan, head) + ForestLog(plan, tail) == state.log + (Log(plan, head) + ForestLog(plan, tail));
  }

  // -- the main results --------------------------------------------------------------------

  /** Every properly nested run of a decision, to any depth, records exactly the
      vectors of its evaluations, in the order they end, and leaves no trace of
      itself in the state. */
  lemma {:induction false} NestedRunsAreExact(plan: Plan, f: Forest)
    requires ValidPlan(plan)
    ensures Run(Step, IDLE, ForestTrace(plan, f)) == IDLE.(log := ForestLog(plan, f))
  {
    ForestLeads(plan, f, Step, IDLE);
    ForestRecords(plan, f, IDLE);
    assert [] + ForestLog(plan, f) == ForestLog(plan, f);
  }

  /** Decisions and slots may interleave in any way. */
  datatype Key = Key(slot: nat, decision: nat)

  lemma {:induction false} InterleavedRunsAreExact(plan: Plan, events: seq<(Key, Event)>, key: Key, f: Forest)
    requires ValidPlan(plan) && Project(events, key) == ForestTrace(plan, f)
    ensures At(RunAll(Step, IDLE, map[], events), key, IDLE) == IDLE.(log := ForestLog(plan, f))
  {
    KeysAreIndependent(Step, IDLE, map[], events, key);
    NestedRunsAreExact(plan, f);
  }

  /** What one recorded vector says: a value at exactly the conditions its own
      evaluation got to; the tree evaluates on it to the outcome; and its byte is
      in the decision's region and is read back as this vector and outcome. */
  lemma {:induction false} RecordedVectorIsOwn(plan: Plan, e: Evaluation)
    requires ValidPlan(plan) && |plan.nots| > 1
    ensures var digits, outcome, byte := OwnDigits(plan, e), Outcome(plan, e), Offset(Mask(OwnDigits(plan, e)), Outcome(plan, e));
      && Values(digits) == VectorOf(plan.tree, Written(plan, e), |plan.nots|)
      && EvaluateTree(plan.tree, Values(digits)) == Some(outcome)
      && byte < RegionBytes(|plan.nots|)
      && Decode(byte, |plan.nots|) == (digits, outcome)
  {
    var values := Values(OwnDigits(plan, e));
    assert values == VectorOf(plan.tree, Written(plan, e), |plan.nots|);
    VisitsForward(plan.tree, 0, Written(plan, e));
    VectorEvaluates(plan.tree, 0, Written(plan, e), values);
    RegionRoundTrip(OwnDigits(plan, e), Outcome(plan, e));
  }

  // -- the runtime's methods ---------------------------------------------------------------

  /** Masks hold digits of the conditions up to the last one recorded. */
  ghost predicate Bounded(state: State, width: nat) {
    && -1 <= state.last < width && state.mask < Pow3(state.last + 1)
    && forall k | 0 <= k < |state.saved| :: 0 <= state.saved[k].1 < width && state.saved[k].0 < Pow3(state.saved[k].1 + 1)
  }

  lemma {:induction false} Pow3Grows(small: nat, large: nat)
    requires small <= large
    ensures Pow3(small) <= Pow3(large)
  {
    if small < large {
      Pow3Grows(small, large - 1);
    }
  }

  lemma {:induction false} StepKeepsBounded(state: State, event: Event, width: nat)
    requires Bounded(state, width) && (event.Condition? ==> event.index < width)
    ensures Bounded(Step(state, event), width)
  {
    if event.Condition? && event.index > state.last {
      Pow3Grows(state.last + 1, event.index);
    }
  }

  class DecisionState {
    var mask: nat
    var last: int
    var saved: seq<(nat, int)>
    ghost var log: seq<(nat, bool)>

    ghost function Model(): State
      reads this
    {
      State(mask, last, saved, log)
    }

    constructor ()
      ensures Model() == IDLE
    {
      mask, last, saved, log := 0, -1, [], [];
    }
  }

  method ConditionProbe(state: DecisionState, ghost width: nat, index: nat, value: bool, inverted: bool)
    returns (truth: bool)
    requires Bounded(state.Model(), width) && index < width
    modifies state
    ensures truth == value
    ensures state.Model() == Step(old(state.Model()), Condition(index, value, inverted))
    ensures Bounded(state.Model(), width)
  {
    StepKeepsBounded(state.Model(), Condition(index, value, inverted), width);
    truth := value;
    if index <= state.last {
      state.saved := state.saved + [(state.mask, state.last)];
      state.mask := 0;
    }
    state.last := index;
    state.mask := state.mask + (if truth != inverted then 2 else 1) * Pow3(index);
  }

  /** `_decision_probe`: the vector's byte is set in the slot, or the vector is
      handed back for a decision too wide for a region (`start < 0`). Without a
      condition recorded there is nothing to say. */
  method DecisionProbe(state: DecisionState?, start: int, ghost width: nat, slot: array<bool>, value: bool)
    returns (outcome: bool, wide: Option<(nat, bool)>)
    requires state != null ==> Bounded(state.Model(), width) && width > 1
    requires start >= 0 ==> start + RegionBytes(width) <= slot.Length
    modifies state, slot
    ensures outcome == value
    ensures state != null ==> state.Model() == Step(old(state.Model()), Decision(value)) && Bounded(state.Model(), width)
    ensures state != null && start >= 0 ==>
      var byte := Offset(old(state.mask), value);
      byte < RegionBytes(width) && slot[..] == old(slot[..])[start + byte := true] && wide == None
    ensures state != null && start < 0 ==> slot[..] == old(slot[..]) && wide == Some((old(state.mask), value))
    ensures state == null ==> slot[..] == old(slot[..]) && wide == None
  {
    outcome, wide := value, None;
    if state == null {
      return;
    }
    StepKeepsBounded(state.Model(), Decision(value), width);
    Pow3Grows(state.last + 1, width);
    var mask := state.mask;
    if state.saved != [] {
      state.mask, state.last := state.saved[|state.saved| - 1].0, state.saved[|state.saved| - 1].1;
      state.saved := state.saved[..|state.saved| - 1];
    } else {
      state.mask := 0;
      state.last := -1;
    }
    state.log := state.log + [(mask, value)];
    if start >= 0 {
      slot[start + 2 * mask + (if outcome then 1 else 0)] := true;
    } else {
      wide := Some((mask, outcome));
    }
  }
}
