/** The vectors of one-condition decisions that a sighting implies: their digits say
    what the decision's own probe would have recorded. */
module ImpliedVectors {
  import C = ConditionTrees
  import N = NestedDecisions
  import O = Observations
  import R = RubyDecisions
  import opened Options

  /** A digit of a vector: 0 for a condition that was not evaluated, 1 for false and 2
      for true. */
  function ReadDigit(digit: char): Option<bool> {
    if digit == '2' then Some(true) else if digit == '1' then Some(false) else None
  }

  function ReadDigits(digits: string): C.Vector {
    seq(|digits|, i requires 0 <= i < |digits| => ReadDigit(digits[i]))
  }

  /** How `finish_decision` spells the values it records. */
  function Spelled(values: C.Vector): (digits: string)
    ensures |digits| == |values|
  {
    seq(|values|, i requires 0 <= i < |values| =>
      if values[i] == None then '0' else if values[i].value then '2' else '1')
  }

  lemma {:induction false} SpellingIsRead(values: C.Vector)
    ensures ReadDigits(Spelled(values)) == values
  {
    forall i | 0 <= i < |values|
      ensures ReadDigits(Spelled(values))[i] == values[i]
    {
      var digit := Spelled(values)[i];
      assert ReadDigits(Spelled(values))[i] == ReadDigit(digit);
    }
  }

  /** The vector of a decision with one condition: its digits give its outcome. */
  predicate Evaluates(vector: O.Vector) {
    C.EvaluateTree(C.Leaf(0), ReadDigits(vector.digits)) == Some(vector.outcome)
  }

  /** What the decision's own probe makes of an outcome. */
  function OwnRecord(plan: N.Plan, outcome: bool): R.Finished
    requires |plan.nots| == 1
  {
    R.Finish(plan, R.LoneValues(plan, outcome), outcome)
  }

  /** An implied vector has the outcome the plan names, its digits evaluate to it, and
      they are exactly what the decision's own probe records of that outcome. */
  lemma {:induction false} ImpliedVectorIsOwn(context: O.Context, decision: O.Decision, plan: N.Plan)
    requires plan.tree == C.Leaf(0) && |plan.nots| == 1
    ensures var vector := O.VectorOf(context, decision);
      && vector.context == context && vector.decision == decision.id && vector.outcome == decision.value
      && Evaluates(vector)
      && OwnRecord(plan, decision.value) == R.Recorded(ReadDigits(vector.digits), vector.outcome)
      && vector.digits == Spelled(ReadDigits(vector.digits))
  {
    var vector := O.VectorOf(context, decision);
    R.LoneConditionIsRecorded(plan, decision.value);
    assert ReadDigits(vector.digits) == [Some(decision.value)];
    assert Spelled([Some(decision.value)]) == vector.digits;
  }

  lemma {:induction false} DecidedEvaluates(
    implied: O.Implied, context: O.Context, was: set<O.Id>, now: set<O.Id>, vector: O.Vector)
    requires O.DecidedSince(implied, context, was, now, vector)
    ensures Evaluates(vector) && vector.context == context
  {
    var id :| id in now && id !in was && O.Decides(implied, context, id, vector);
    var i :| 0 <= i < |implied[id].decisions| && O.VectorOf(context, implied[id].decisions[i]) == vector;
    ImpliedVectorIsOwn(context, implied[id].decisions[i], N.Plan(C.Leaf(0), [false]));
  }

  /** So every vector that an observation adds evaluates to its own outcome. */
  lemma {:induction false} HitEvaluates(implied: O.Implied, context: O.Context, k: O.Known, id: O.Id, vector: O.Vector)
    requires vector in O.AfterHit(implied, context, k, id).vectors && vector !in k.vectors
    ensures Evaluates(vector) && vector.context == context
  {
    O.HitDecides(implied, context, k, id, vector);
    DecidedEvaluates(implied, context, k.seen, O.AfterHit(implied, context, k, id).seen, vector);
  }

  lemma {:induction false} HarvestEvaluates(
    implied: O.Implied, context: O.Context, k: O.Known, ids: seq<O.Id>, vector: O.Vector)
    requires vector in O.AfterHarvest(implied, context, k, ids).vectors && vector !in k.vectors
    ensures Evaluates(vector) && vector.context == context
  {
    O.HarvestDecides(implied, context, k, ids, vector);
    DecidedEvaluates(implied, context, k.seen, O.AfterHarvest(implied, context, k, ids).seen, vector);
  }
}
