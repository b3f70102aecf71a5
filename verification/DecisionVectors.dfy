/** Base-3 vectors: how an evaluation mask spells which conditions of a decision
    were evaluated, and which byte of the decision's region stands for it. */
module DecisionVectors {
  import opened ConditionTrees
  import opened Options

  function Pow3(n: nat): (p: nat)
    ensures p > 0
  {
    if n == 0 then 1 else 3 * Pow3(n - 1)
  }

  /** Per condition 0 not evaluated, 1 false, 2 true. */
  type Digit = d: nat | d < 3

  function Mask(digits: seq<Digit>): nat {
    if digits == [] then 0 else digits[0] + 3 * Mask(digits[1..])
  }

  function DigitsOf(mask: nat, width: nat): seq<Digit> {
    if width == 0 then [] else [mask % 3] + DigitsOf(mask / 3, width - 1)
  }

  /** `_digits`. */
  method Digits(mask: nat, width: nat) returns (out: seq<Digit>)
    ensures out == DigitsOf(mask, width)
  {
    out := [];
    var rest := mask;
    for n := 0 to width
      invariant out + DigitsOf(rest, width - n) == DigitsOf(mask, width)
    {
      out := out + [rest % 3];
      rest := rest / 3;
    }
  }

  lemma {:induction false} DigitsUndoMask(digits: seq<Digit>)
    ensures DigitsOf(Mask(digits), |digits|) == digits
    ensures Mask(digits) < Pow3(|digits|)
  {
    if digits != [] {
      DigitsUndoMask(digits[1..]);
    }
  }

  lemma {:induction false} MaskUndoesDigits(mask: nat, width: nat)
    requires mask < Pow3(width)
    ensures |DigitsOf(mask, width)| == width && Mask(DigitsOf(mask, width)) == mask
  {
    if width > 0 {
      MaskUndoesDigits(mask / 3, width - 1);
    }
  }

  /** Recording a condition is adding its digit's weight. */
  lemma {:induction false} SetDigit(digits: seq<Digit>, i: nat, digit: Digit)
    requires i < |digits| && digits[i] == 0
    ensures Mask(digits[i := digit]) == Mask(digits) + digit * Pow3(i)
  {
    var set' := digits[i := digit];
    if i > 0 {
      assert set'[1..] == digits[1..][i - 1 := digit];
      SetDigit(digits[1..], i - 1, digit);
    }
  }

  function Zeros(width: nat): seq<Digit> {
    seq(width, _ => 0)
  }

  lemma {:induction false} MaskOfZeros(width: nat)
    ensures Mask(Zeros(width)) == 0
  {
    if width > 0 {
      assert Zeros(width)[1..] == Zeros(width - 1);
      MaskOfZeros(width - 1);
    }
  }

  // -- a decision's region ----------------------------------------------------------

  /** The offset a closing evaluation stores at, in the decision's region. */
  function Offset(mask: nat, outcome: bool): nat {
    2 * mask + if outcome then 1 else 0
  }

  function RegionBytes(width: nat): nat {
    if width == 1 then 2 else 2 * Pow3(width)
  }

  /** The reader's `vector`. */
  function Decode(offset: nat, width: nat): (seq<Digit>, bool) {
    if width == 1 then (if offset == 1 then [2] else [1], offset == 1)
    else (DigitsOf(offset / 2, width), offset % 2 == 1)
  }

  /** What the runtime stores is read back as the same vector and outcome, and
      every byte of the region is some vector's. */
  lemma {:induction false} RegionRoundTrip(digits: seq<Digit>, outcome: bool)
    requires |digits| > 1
    ensures Offset(Mask(digits), outcome) < RegionBytes(|digits|)
    ensures Decode(Offset(Mask(digits), outcome), |digits|) == (digits, outcome)
  {
    DigitsUndoMask(digits);
  }

  lemma {:induction false} RegionIsFull(offset: nat, width: nat)
    requires width > 1 && offset < RegionBytes(width)
    ensures var (digits, outcome) := Decode(offset, width);
      |digits| == width && Offset(Mask(digits), outcome) == offset
  {
    MaskUndoesDigits(offset / 2, width);
  }

  /** Digits as the vector the tree is read with. */
  function Values(digits: seq<Digit>): Vector {
    seq(|digits|, i requires 0 <= i < |digits| => if digits[i] == 0 then None else Some(digits[i] == 2))
  }
}
