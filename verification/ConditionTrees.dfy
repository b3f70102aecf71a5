/** The and/or tree of a decision, how it is evaluated with short circuits, and
    what the vector of its conditions says about that evaluation afterwards. */
module ConditionTrees {
  import opened Options

  datatype Op = And | Or

  /** Leaves are condition numbers; `not` in front of a leaf belongs to the
      condition, in front of an operator it is `negate`. */
  datatype Tree = Leaf(index: nat) | Node(op: Op, items: seq<Tree>, negate: bool)

  /** Conditions are numbered in source order, and an operator has operands. */
  predicate Numbered(tree: Tree, first: nat) {
    match tree
    case Leaf(index) => index == first
    case Node(_, items, _) => items != [] && ItemsNumbered(items, first)
  }

  predicate ItemsNumbered(items: seq<Tree>, first: nat) {
    items == [] || (Numbered(items[0], first) && ItemsNumbered(items[1..], first + Width(items[0])))
  }

  function Width(tree: Tree): nat {
    match tree
    case Leaf(_) => 1
    case Node(_, items, _) => ItemsWidth(items)
  }

  function ItemsWidth(items: seq<Tree>): nat {
    if items == [] then 0 else Width(items[0]) + ItemsWidth(items[1..])
  }

  // -- evaluation --------------------------------------------------------------

  /** The value of an evaluation and the conditions it evaluated, in order. */
  datatype TreeResult = TreeResult(value: bool, visited: seq<nat>)

  predicate Stops(op: Op, value: bool) {
    value == (op == Or)
  }

  /** Short-circuit evaluation; `truth` is each condition's value as written. */
  function Evaluate(tree: Tree, truth: nat -> bool): TreeResult
    decreases tree
  {
    match tree
    case Leaf(index) => TreeResult(truth(index), [index])
    case Node(op, items, negate) =>
      var r := EvaluateItems(op, items, truth);
      TreeResult(r.value != negate, r.visited)
  }

  function EvaluateItems(op: Op, items: seq<Tree>, truth: nat -> bool): TreeResult
    decreases items
  {
    if items == [] then TreeResult(op == And, [])
    else
      var head := Evaluate(items[0], truth);
      if Stops(op, head.value) || |items| == 1 then head
      else
        var rest := EvaluateItems(op, items[1..], truth);
        TreeResult(rest.value, head.visited + rest.visited)
  }

  ghost predicate Increasing(visited: seq<nat>, first: nat, end: nat) {
    && (forall i | 0 <= i < |visited| :: first <= visited[i] < end)
    && (forall i, j | 0 <= i < j < |visited| :: visited[i] < visited[j])
  }

  /** An evaluation starts at its first condition and goes forward. */
  lemma {:induction false} VisitsForward(tree: Tree, first: nat, truth: nat -> bool)
    requires Numbered(tree, first)
    ensures var visited := Evaluate(tree, truth).visited;
      visited != [] && visited[0] == first && Increasing(visited, first, first + Width(tree))
    decreases tree
  {
    if tree.Node? {
      ItemsVisitForward(tree.op, tree.items, first, truth);
    }
  }

  lemma {:induction false} ItemsVisitForward(op: Op, items: seq<Tree>, first: nat, truth: nat -> bool)
    requires items != [] && ItemsNumbered(items, first)
    ensures var visited := EvaluateItems(op, items, truth).visited;
      visited != [] && visited[0] == first && Increasing(visited, first, first + ItemsWidth(items))
    decreases items
  {
    VisitsForward(items[0], first, truth);
    if |items| > 1 {
      ItemsVisitForward(op, items[1..], first + Width(items[0]), truth);
    }
  }

  // -- the vector ----------------------------------------------------------------

  type Vector = seq<Option<bool>>

  /** A value at each evaluated condition, nothing elsewhere. */
  function VectorOf(tree: Tree, truth: nat -> bool, width: nat): Vector {
    var visited := Evaluate(tree, truth).visited;
    seq(width, i => if i in visited then Some(truth(i)) else None)
  }

  function ValueAt(values: Vector, i: nat): Option<bool> {
    if i < |values| then values[i] else None
  }

  /** `evaluate_tree`: the value a vector gives, or nothing if it lacks one. */
  function EvaluateTree(tree: Tree, values: Vector): Option<bool>
    decreases tree
  {
    match tree
    case Leaf(index) => ValueAt(values, index)
    case Node(op, items, negate) =>
      (match EvaluateTreeItems(op, items, values)
       case None => None
       case Some(value) => Some(value != negate))
  }

  function EvaluateTreeItems(op: Op, items: seq<Tree>, values: Vector): Option<bool>
    decreases items
  {
    if items == [] then None
    else
      match EvaluateTree(items[0], values)
      case None => None
      case Some(value) =>
        if Stops(op, value) || |items| == 1 then Some(value) else EvaluateTreeItems(op, items[1..], values)
  }

  ghost predicate Recorded(visited: seq<nat>, truth: nat -> bool, values: Vector) {
    forall k | 0 <= k < |visited| :: ValueAt(values, visited[k]) == Some(truth(visited[k]))
  }

  /** The vector a run recorded evaluates to the run's own outcome. */
  lemma {:induction false} VectorEvaluates(tree: Tree, first: nat, truth: nat -> bool, values: Vector)
    requires Numbered(tree, first)
    requires Recorded(Evaluate(tree, truth).visited, truth, values)
    ensures EvaluateTree(tree, values) == Some(Evaluate(tree, truth).value)
    decreases tree
  {
    match tree
    case Leaf(index) => assert Evaluate(tree, truth).visited[0] == index;
    case Node(op, items, _) => ItemsVectorEvaluates(op, items, first, truth, values);
  }

  lemma {:induction false} ItemsVectorEvaluates(op: Op, items: seq<Tree>, first: nat, truth: nat -> bool, values: Vector)
    requires items != [] && ItemsNumbered(items, first)
    requires Recorded(EvaluateItems(op, items, truth).visited, truth, values)
    ensures EvaluateTreeItems(op, items, values) == Some(EvaluateItems(op, items, truth).value)
    decreases items
  {
    var visited, head := EvaluateItems(op, items, truth).visited, Evaluate(items[0], truth);
    assert forall k | 0 <= k < |head.visited| :: head.visited[k] == visited[k];
    VectorEvaluates(items[0], first, truth, values);
    if !Stops(op, head.value) && |items| > 1 {
      var rest := EvaluateItems(op, items[1..], truth);
      assert forall k | 0 <= k < |rest.visited| :: rest.visited[k] == visited[|head.visited| + k];
      ItemsVectorEvaluates(op, items[1..], first + Width(items[0]), truth, values);
    }
  }

  // -- what an operator did ----------------------------------------------------------

  /** A path names an operand of an operand of ... the tree. */
  predicate IsPath(tree: Tree, path: seq<nat>) {
    path == [] || (tree.Node? && path[0] < |tree.items| && IsPath(tree.items[path[0]], path[1..]))
  }

  function Sub(tree: Tree, path: seq<nat>): Tree
    requires IsPath(tree, path)
  {
    if path == [] then tree else Sub(tree.items[path[0]], path[1..])
  }

  function Start(tree: Tree, first: nat, path: seq<nat>): nat
    requires IsPath(tree, path)
  {
    if path == [] then first
    else Start(tree.items[path[0]], first + ItemsWidth(tree.items[..path[0]]), path[1..])
  }

  /** Evaluation gets to operand `j`: none before it decided the operator. */
  predicate ItemReached(op: Op, items: seq<Tree>, truth: nat -> bool, j: nat)
    requires j < |items|
  {
    forall k | 0 <= k < j :: !Stops(op, Evaluate(items[k], truth).value)
  }

  predicate Reached(tree: Tree, truth: nat -> bool, path: seq<nat>)
    requires IsPath(tree, path)
  {
    path == [] ||
    (ItemReached(tree.op, tree.items, truth, path[0]) && Reached(tree.items[path[0]], truth, path[1..]))
  }

  lemma {:induction false} ItemsNumberedAt(items: seq<Tree>, first: nat, j: nat)
    requires ItemsNumbered(items, first) && j < |items|
    ensures Numbered(items[j], first + ItemsWidth(items[..j]))
    ensures ItemsWidth(items[..j]) + Width(items[j]) <= ItemsWidth(items)
    ensures j > 0 ==> ItemsWidth(items[..j]) == ItemsWidth(items[..j - 1]) + Width(items[j - 1])
  {
    if j > 0 {
      assert items[..j][1..] == items[1..][..j - 1];
      if j > 1 {
        assert items[..j - 1][1..] == items[1..][..j - 2];
      }
      ItemsNumberedAt(items[1..], first + Width(items[0]), j - 1);
    }
  }

  /** Within operand `j`, the whole evaluation visits what the operand's own
      does, or nothing if it was not reached. */
  lemma {:induction false} VisitsInItem(op: Op, items: seq<Tree>, first: nat, truth: nat -> bool, j: nat, leaf: nat)
    requires ItemsNumbered(items, first) && j < |items|
    requires var start := first + ItemsWidth(items[..j]); start <= leaf < start + Width(items[j])
    ensures leaf in EvaluateItems(op, items, truth).visited
      <==> ItemReached(op, items, truth, j) && leaf in Evaluate(items[j], truth).visited
  {
    var head := Evaluate(items[0], truth);
    VisitsForward(items[0], first, truth);
    if j == 0 {
      if |items| > 1 {
        ItemsVisitForward(op, items[1..], first + Width(items[0]), truth);
      }
    } else {
      assert items[..j][1..] == items[1..][..j - 1];
      VisitsInItem(op, items[1..], first + Width(items[0]), truth, j - 1, leaf);
      assert ItemReached(op, items, truth, j)
        <==> !Stops(op, head.value) && ItemReached(op, items[1..], truth, j - 1) by {
        assert forall k | 0 < k < j :: items[k] == items[1..][k - 1];
      }
    }
  }

  ghost predicate SomeVisited(visited: seq<nat>, start: nat, width: nat) {
    exists leaf | start <= leaf < start + width :: leaf in visited
  }

  /** A part of the tree was evaluated exactly when one of its conditions was. */
  lemma {:induction false} ReachedIsVisible(tree: Tree, first: nat, truth: nat -> bool, path: seq<nat>)
    requires Numbered(tree, first) && IsPath(tree, path)
    ensures var start, width := Start(tree, first, path), Width(Sub(tree, path));
      && Numbered(Sub(tree, path), start)
      && first <= start && start + width <= first + Width(tree)
      && (Reached(tree, truth, path) <==> SomeVisited(Evaluate(tree, truth).visited, start, width))
    decreases |path|
  {
    if path == [] {
      VisitsForward(tree, first, truth);
      assert first in Evaluate(tree, truth).visited;
    } else {
      var j := path[0];
      var from := first + ItemsWidth(tree.items[..j]);
      ItemsNumberedAt(tree.items, first, j);
      ReachedIsVisible(tree.items[j], from, truth, path[1..]);
      forall leaf: nat | from <= leaf < from + Width(tree.items[j])
        ensures leaf in Evaluate(tree, truth).visited
          <==> ItemReached(tree.op, tree.items, truth, j) && leaf in Evaluate(tree.items[j], truth).visited
      {
        VisitsInItem(tree.op, tree.items, first, truth, j, leaf);
      }
    }
  }

  // -- what is reported for an operator -------------------------------------------------

  /** The conditions of one operand. */
  datatype Leaves = Leaves(start: nat, width: nat)

  datatype Report = Nothing | Evaluated | ShortCircuited

  ghost predicate AnyEvaluated(values: Vector, leaves: Leaves) {
    exists i | leaves.start <= i < leaves.start + leaves.width :: ValueAt(values, i).Some?
  }

  /** What the evidence says of an operator's right operand, from the vector and
      the conditions of that operand and of the one before it. */
  ghost function Derived(values: Vector, previous: Leaves, operand: Leaves): Report {
    if AnyEvaluated(values, operand) then Evaluated
    else if AnyEvaluated(values, previous) then ShortCircuited
    else Nothing
  }

  function OperandLeaves(tree: Tree, first: nat, path: seq<nat>): Leaves
    requires IsPath(tree, path)
  {
    Leaves(Start(tree, first, path), Width(Sub(tree, path)))
  }

  lemma {:induction false} PathToOperand(tree: Tree, path: seq<nat>, j: nat)
    requires IsPath(tree, path) && Sub(tree, path).Node? && j < |Sub(tree, path).items|
    ensures IsPath(tree, path + [j])
    decreases |path|
  {
    if path == [] {
      assert IsPath(tree.items[j], [j][1..]);
    } else {
      assert (path + [j])[1..] == path[1..] + [j];
      PathToOperand(tree.items[path[0]], path[1..], j);
    }
  }

  lemma {:induction false} VisibleInVector(tree: Tree, truth: nat -> bool, width: nat, leaves: Leaves)
    requires leaves.start + leaves.width <= width
    ensures AnyEvaluated(VectorOf(tree, truth, width), leaves)
      <==> SomeVisited(Evaluate(tree, truth).visited, leaves.start, leaves.width)
  {
    var values, visited := VectorOf(tree, truth, width), Evaluate(tree, truth).visited;
    assert forall i: nat | i < width :: ValueAt(values, i).Some? <==> i in visited;
  }

  /** For every operator of every tree and every evaluation, the report for its
      operand `j` is what the operator did: evaluated exactly when evaluation got
      to operand `j`, short-circuited exactly when it got to the operand before
      and stopped there. */
  lemma {:induction false} ReportsAreExact(tree: Tree, truth: nat -> bool, width: nat, path: seq<nat>, j: nat)
    requires Numbered(tree, 0) && width == Width(tree)
    requires IsPath(tree, path) && Sub(tree, path).Node? && 0 < j < |Sub(tree, path).items|
    ensures IsPath(tree, path + [j - 1]) && IsPath(tree, path + [j])
    ensures
      var report := Derived(VectorOf(tree, truth, width),
        OperandLeaves(tree, 0, path + [j - 1]), OperandLeaves(tree, 0, path + [j]));
      && (report == Evaluated <==> Reached(tree, truth, path + [j]))
      && (report == ShortCircuited <==> Reached(tree, truth, path + [j - 1]) && !Reached(tree, truth, path + [j]))
  {
    PathToOperand(tree, path, j);
    PathToOperand(tree, path, j - 1);
    ReachedIsVisible(tree, 0, truth, path + [j]);
    ReachedIsVisible(tree, 0, truth, path + [j - 1]);
    VisibleInVector(tree, truth, width, OperandLeaves(tree, 0, path + [j]));
    VisibleInVector(tree, truth, width, OperandLeaves(tree, 0, path + [j - 1]));
  }

  /** Evaluation gets to an operand when it gets to its operator and no operand
      before decides. */
  lemma {:induction false} OperandReached(tree: Tree, truth: nat -> bool, path: seq<nat>, j: nat)
    requires IsPath(tree, path) && Sub(tree, path).Node? && j < |Sub(tree, path).items|
    ensures IsPath(tree, path + [j])
    ensures Reached(tree, truth, path + [j])
      <==> Reached(tree, truth, path) && ItemReached(Sub(tree, path).op, Sub(tree, path).items, truth, j)
    decreases |path|
  {
    PathToOperand(tree, path, j);
    if path == [] {
      assert [j][1..] == [];
      assert Reached(tree.items[j], truth, []);
    } else {
      assert (path + [j])[1..] == path[1..] + [j];
      OperandReached(tree.items[path[0]], truth, path[1..], j);
    }
  }

  /** The first operand is evaluated whenever its operator is. So for operators
      with two operands, as Ruby's are, short-circuited means: the operator was
      evaluated and its right operand was not. */
  lemma {:induction false} FirstOperandIsReached(tree: Tree, truth: nat -> bool, path: seq<nat>)
    requires IsPath(tree, path) && Sub(tree, path).Node? && Sub(tree, path).items != []
    ensures IsPath(tree, path + [0])
    ensures Reached(tree, truth, path + [0]) <==> Reached(tree, truth, path)
  {
    OperandReached(tree, truth, path, 0);
  }

  // -- reports of operators with more than two operands -----------------------------------

  /** Values that make every operand of a tree, at every level, come to what makes
      the whole tree come to `value`. */
  function Pushed(tree: Tree, first: nat, value: bool, leaf: nat): bool {
    match tree
    case Leaf(_) => value
    case Node(_, items, negate) => ItemsPushed(items, first, value != negate, leaf)
  }

  function ItemsPushed(items: seq<Tree>, first: nat, value: bool, leaf: nat): bool {
    if items == [] then false
    else if leaf < first + Width(items[0]) then Pushed(items[0], first, value, leaf)
    else ItemsPushed(items[1..], first + Width(items[0]), value, leaf)
  }

  /** Every numbered tree can be made either value. */
  lemma {:induction false} EitherValue(tree: Tree, first: nat, value: bool, truth: nat -> bool)
    requires Numbered(tree, first)
    requires forall leaf: nat | first <= leaf < first + Width(tree) :: truth(leaf) == Pushed(tree, first, value, leaf)
    ensures Evaluate(tree, truth).value == value
    decreases tree
  {
    if tree.Node? {
      ItemsEitherValue(tree.op, tree.items, first, value != tree.negate, truth);
    }
  }

  lemma {:induction false} ItemsEitherValue(op: Op, items: seq<Tree>, first: nat, value: bool, truth: nat -> bool)
    requires items != [] && ItemsNumbered(items, first)
    requires forall leaf: nat | first <= leaf < first + ItemsWidth(items) :: truth(leaf) == ItemsPushed(items, first, value, leaf)
    ensures EvaluateItems(op, items, truth).value == value
    decreases items
  {
    EitherValue(items[0], first, value, truth);
    if |items| > 1 {
      ItemsEitherValue(op, items[1..], first + Width(items[0]), value, truth);
    }
  }

  lemma {:induction false} OperandEitherValue(items: seq<Tree>, first: nat, value: bool, truth: nat -> bool, j: nat, k: nat)
    requires ItemsNumbered(items, first) && k < j <= |items|
    requires forall leaf: nat | first <= leaf < first + ItemsWidth(items[..j]) :: truth(leaf) == ItemsPushed(items, first, value, leaf)
    ensures Evaluate(items[k], truth).value == value
    decreases items
  {
    assert items[..j][1..] == items[1..][..j - 1];
    if k == 0 {
      EitherValue(items[0], first, value, truth);
    } else {
      OperandEitherValue(items[1..], first + Width(items[0]), value, truth, j - 1, k - 1);
    }
  }

  /** Values with which evaluation gets to the operator at `path` and stops there
      at its first operand. */
  function StoppingAt(tree: Tree, first: nat, path: seq<nat>, leaf: nat): bool
    requires IsPath(tree, path) && Sub(tree, path).Node? && Sub(tree, path).items != []
    decreases |path|
  {
    if path == [] then Pushed(tree.items[0], first, tree.op == Or, leaf)
    else
      var from := first + ItemsWidth(tree.items[..path[0]]);
      if leaf < from then ItemsPushed(tree.items, first, tree.op == And, leaf)
      else StoppingAt(tree.items[path[0]], from, path[1..], leaf)
  }

  lemma {:induction false} StopsThere(tree: Tree, first: nat, path: seq<nat>, truth: nat -> bool)
    requires Numbered(tree, first) && IsPath(tree, path) && Sub(tree, path).Node? && Sub(tree, path).items != []
    requires forall leaf: nat | first <= leaf < first + Width(tree) :: truth(leaf) == StoppingAt(tree, first, path, leaf)
    ensures Reached(tree, truth, path)
    ensures Stops(Sub(tree, path).op, Evaluate(Sub(tree, path).items[0], truth).value)
    decreases |path|
  {
    if path == [] {
      assert Width(tree) == Width(tree.items[0]) + ItemsWidth(tree.items[1..]);
      EitherValue(tree.items[0], first, tree.op == Or, truth);
    } else {
      var j := path[0];
      ItemsNumberedAt(tree.items, first, j);
      forall k | 0 <= k < j
        ensures !Stops(tree.op, Evaluate(tree.items[k], truth).value)
      {
        OperandEitherValue(tree.items, first, tree.op == And, truth, j, k);
      }
      StopsThere(tree.items[j], first + ItemsWidth(tree.items[..j]), path[1..], truth);
    }
  }

  /** What the docstring of `_Decision.implied` says of one evaluation: operand `j`
      is reported short-circuited exactly when its operator was evaluated and it
      was not. */
  ghost predicate SaysSkipped(tree: Tree, truth: nat -> bool, path: seq<nat>, j: nat)
    requires IsPath(tree, path) && Sub(tree, path).Node? && 0 < j < |Sub(tree, path).items|
    requires IsPath(tree, path + [j - 1]) && IsPath(tree, path + [j])
  {
    var report := Derived(VectorOf(tree, truth, Width(tree)),
      OperandLeaves(tree, 0, path + [j - 1]), OperandLeaves(tree, 0, path + [j]));
    report == ShortCircuited <==> Reached(tree, truth, path) && !Reached(tree, truth, path + [j])
  }

  /** It holds of an evaluation exactly when that did not get to the operator, or
      got to operand `j`, or at least to the operand before it. */
  lemma {:induction false} SkippedIsSaidOf(tree: Tree, truth: nat -> bool, path: seq<nat>, j: nat)
    requires Numbered(tree, 0)
    requires IsPath(tree, path) && Sub(tree, path).Node? && 0 < j < |Sub(tree, path).items|
    ensures IsPath(tree, path + [j - 1]) && IsPath(tree, path + [j])
    ensures SaysSkipped(tree, truth, path, j)
      <==> !Reached(tree, truth, path) || Reached(tree, truth, path + [j]) || Reached(tree, truth, path + [j - 1])
  {
    ReportsAreExact(tree, truth, Width(tree), path, j);
    OperandReached(tree, truth, path, j);
    OperandReached(tree, truth, path, j - 1);
  }

  /** So of all evaluations it holds exactly for an operator's second operand: past
      that, an evaluation that stops at the first operand reports nothing. */
  lemma {:induction false} OnlySecondOperandIsSaid(tree: Tree, path: seq<nat>, j: nat)
    requires Numbered(tree, 0)
    requires IsPath(tree, path) && Sub(tree, path).Node? && 0 < j < |Sub(tree, path).items|
    ensures IsPath(tree, path + [j - 1]) && IsPath(tree, path + [j])
    ensures (forall truth: nat -> bool :: SaysSkipped(tree, truth, path, j)) <==> j == 1
  {
    PathToOperand(tree, path, j);
    PathToOperand(tree, path, j - 1);
    if j == 1 {
      forall truth: nat -> bool
        ensures SaysSkipped(tree, truth, path, j)
      {
        SkippedIsSaidOf(tree, truth, path, j);
        FirstOperandIsReached(tree, truth, path);
      }
    } else {
      var truth := NotSaidThere(tree, path, j);
      assert !SaysSkipped(tree, truth, path, j);
    }
  }

  lemma {:induction false} NotSaidThere(tree: Tree, path: seq<nat>, j: nat) returns (truth: nat -> bool)
    requires Numbered(tree, 0)
    requires IsPath(tree, path) && Sub(tree, path).Node? && 1 < j < |Sub(tree, path).items|
    ensures IsPath(tree, path + [j - 1]) && IsPath(tree, path + [j]) && !SaysSkipped(tree, truth, path, j)
  {
    truth := (leaf: nat) => StoppingAt(tree, 0, path, leaf);
    StopsThere(tree, 0, path, truth);
    SkippedIsSaidOf(tree, truth, path, j);
    OperandReached(tree, truth, path, j);
    OperandReached(tree, truth, path, j - 1);
  }

  /** Python's `a and b and c`, one operator with three operands: when `a` is false
      nothing is reported for the third. */
  lemma {:induction false} SkippedOperandIsNotReported(tree: Tree, truth: nat -> bool)
    requires tree == Node(And, [Leaf(0), Leaf(1), Leaf(2)], false) && !truth(0)
    ensures Evaluate(tree, truth) == TreeResult(false, [0])
    ensures Derived(VectorOf(tree, truth, 3), Leaves(0, 1), Leaves(1, 1)) == ShortCircuited
    ensures Derived(VectorOf(tree, truth, 3), Leaves(1, 1), Leaves(2, 1)) == Nothing
  {
    var values := VectorOf(tree, truth, 3);
    assert Evaluate(Leaf(0), truth) == TreeResult(false, [0]);
    assert ValueAt(values, 0).Some? && ValueAt(values, 1).None? && ValueAt(values, 2).None?;
  }
}
