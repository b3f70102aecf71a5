/** Properly nested runs of one decision: every evaluation that starts also
    ends, and evaluations of the same decision may run inside its conditions.
    Both runtimes see such a run as the same sequence of probe calls. */
module NestedDecisions {
  import opened ConditionTrees
  import opened KeyedRuns

  datatype Event = Condition(index: nat, truth: bool, inverted: bool) | Decision(outcome: bool)

  /** A decision: its tree and which of its conditions are written with `not`. */
  datatype Plan = Plan(tree: Tree, nots: seq<bool>)

  predicate ValidPlan(plan: Plan) {
    Numbered(plan.tree, 0) && Width(plan.tree) == |plan.nots|
  }

  /** One evaluation of the decision: the truth of each operand, whatever is
      under its own `not`, and the evaluations of the same decision that ran
      while it was computed. */
  datatype Evaluation = Evaluation(truths: seq<bool>, inside: seq<Forest>)
  datatype Forest = Nothing | Then(head: Evaluation, tail: Forest)

  function TruthAt(e: Evaluation, i: nat): bool {
    i < |e.truths| && e.truths[i]
  }

  function NotAt(plan: Plan, i: nat): bool {
    i < |plan.nots| && plan.nots[i]
  }

  /** A condition's value as written. */
  function Written(plan: Plan, e: Evaluation): nat -> bool {
    (i: nat) => TruthAt(e, i) != NotAt(plan, i)
  }

  function Visited(plan: Plan, e: Evaluation): seq<nat> {
    Evaluate(plan.tree, Written(plan, e)).visited
  }

  function Outcome(plan: Plan, e: Evaluation): bool {
    Evaluate(plan.tree, Written(plan, e)).value
  }

  function Trace(plan: Plan, e: Evaluation): seq<Event>
    decreases e, 1
  {
    VisitsTrace(plan, e, 0) + [Decision(Outcome(plan, e))]
  }

  /** From the `k`-th condition visited on. A condition's probe runs once its
      operand, and all that ran inside it, is there. */
  function VisitsTrace(plan: Plan, e: Evaluation, k: nat): seq<Event>
    decreases e, 0, |Visited(plan, e)| - k
  {
    if k >= |Visited(plan, e)| then []
    else
      var i := Visited(plan, e)[k];
      (if i < |e.inside| then ForestTrace(plan, e.inside[i]) else [])
      + [Condition(i, TruthAt(e, i), NotAt(plan, i))]
      + VisitsTrace(plan, e, k + 1)
  }

  function ForestTrace(plan: Plan, f: Forest): seq<Event>
    decreases f
  {
    match f
    case Nothing => []
    case Then(head, tail) => Trace(plan, head) + ForestTrace(plan, tail)
  }

  // -- the state follows the structure of the run --------------------------------------

  function After<S>(plan: Plan, e: Evaluation, step: (S, Event) -> S, state: S): S
    decreases e, 1
  {
    step(AfterVisits(plan, e, 0, step, state), Decision(Outcome(plan, e)))
  }

  function AfterVisits<S>(plan: Plan, e: Evaluation, k: nat, step: (S, Event) -> S, state: S): S
    decreases e, 0, |Visited(plan, e)| - k
  {
    if k >= |Visited(plan, e)| then state else AfterVisits(plan, e, k + 1, step, AfterVisit(plan, e, k, step, state))
  }

  /** What ran inside one operand, then its record. */
  function AfterVisit<S>(plan: Plan, e: Evaluation, k: nat, step: (S, Event) -> S, state: S): S
    requires k < |Visited(plan, e)|
    decreases e, 0, 0
  {
    var i := Visited(plan, e)[k];
    var inner := if i < |e.inside| then AfterForest(plan, e.inside[i], step, state) else state;
    step(inner, Condition(i, TruthAt(e, i), NotAt(plan, i)))
  }

  function AfterForest<S>(plan: Plan, f: Forest, step: (S, Event) -> S, state: S): S
    decreases f
  {
    match f
    case Nothing => state
    case Then(head, tail) => AfterForest(plan, tail, step, After(plan, head, step, state))
  }

  lemma {:induction false} TraceLeads<S>(plan: Plan, e: Evaluation, step: (S, Event) -> S, state: S)
    ensures Run(step, state, Trace(plan, e)) == After(plan, e, step, state)
    decreases e, 1
  {
    VisitsLead(plan, e, 0, step, state);
    RunConcat(step, state, VisitsTrace(plan, e, 0), [Decision(Outcome(plan, e))]);
  }

  lemma {:induction false} VisitsLead<S>(plan: Plan, e: Evaluation, k: nat, step: (S, Event) -> S, state: S)
    ensures Run(step, state, VisitsTrace(plan, e, k)) == AfterVisits(plan, e, k, step, state)
    decreases e, 0, |Visited(plan, e)| - k
  {
    if k < |Visited(plan, e)| {
      var i := Visited(plan, e)[k];
      var inside := if i < |e.inside| then ForestTrace(plan, e.inside[i]) else [];
      if i < |e.inside| {
        ForestLeads(plan, e.inside[i], step, state);
      }
      var condition := Condition(i, TruthAt(e, i), NotAt(plan, i));
      RunConcat(step, state, inside, [condition]);
      RunConcat(step, state, inside + [condition], VisitsTrace(plan, e, k + 1));
      VisitsLead(plan, e, k + 1, step, AfterVisit(plan, e, k, step, state));
    }
  }

  lemma {:induction false} ForestLeads<S>(plan: Plan, f: Forest, step: (S, Event) -> S, state: S)
    ensures Run(step, state, ForestTrace(plan, f)) == AfterForest(plan, f, step, state)
    decreases f
  {
    match f
    case Nothing =>
    case Then(head, tail) =>
      TraceLeads(plan, head, step, state);
      ForestLeads(plan, tail, step, After(plan, head, step, state));
      RunConcat(step, state, Trace(plan, head), ForestTrace(plan, tail));
  }
}
