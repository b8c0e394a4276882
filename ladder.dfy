/**
 * The arithmetic XP ladder both engines use: reaching level L takes the sum
 * of the per-level costs base, base + inc, base + 2*inc, ... for the steps
 * from level 2 up to L.  The engines fix base = 100 and inc = 40; the facts
 * here hold for any costs of that shape.
 */
module Ladder {

  /** Total XP needed to reach `level`: 0 for level <= 1, otherwise the
      threshold of the level below plus that step's cost. */
  function Threshold(base: int, inc: int, level: int): int
    decreases level
  {
    if level <= 1 then 0 else Threshold(base, inc, level - 1) + base + inc * (level - 2)
  }

  /** Closed form: 2 * Threshold(L) = (L - 1) * (2 * base + inc * (L - 2)) for L >= 1. */
  lemma {:induction false} ThresholdClosedForm(base: int, inc: int, level: int)
    requires level >= 1
    ensures 2 * Threshold(base, inc, level) == (level - 1) * (2 * base + inc * (level - 2))
    decreases level
  {
    if level > 1 {
      ThresholdClosedForm(base, inc, level - 1);
      ThresholdStepSum(base, inc, level - 1);
    }
  }

  /** The inductive step of the closed form, at k = level - 1: adding the
      cost of the step to level k + 1 to the closed form at k gives the
      closed form at k + 1. */
  lemma ThresholdStepSum(base: int, inc: int, k: int)
    ensures (k - 1) * (2 * base + inc * (k - 2)) + 2 * base + 2 * inc * (k - 1)
         == k * (2 * base + inc * (k - 1))
  {
    var a := k - 1;
    var x := 2 * base;
    var p := inc * a;
    assert inc * (a - 1) == p - inc;
    assert a * (x + (p - inc)) == a * x + a * p - a * inc;
    assert a * inc == p;
    assert (a + 1) * (x + p) == a * x + a * p + x + p;
  }

  /** With a positive first cost and non-negative increments the ladder is
      strictly increasing from level 1 on. */
  lemma {:induction false} ThresholdStrictlyIncreasing(base: int, inc: int, lo: int, hi: int)
    requires base >= 1 && inc >= 0
    requires 1 <= lo < hi
    ensures Threshold(base, inc, lo) < Threshold(base, inc, hi)
    decreases hi - lo
  {
    assert Threshold(base, inc, lo + 1) == Threshold(base, inc, lo) + base + inc * (lo - 1);
    assert inc * (lo - 1) >= 0;
    if lo + 1 < hi {
      ThresholdStrictlyIncreasing(base, inc, lo + 1, hi);
    }
  }

  lemma ThresholdMonotone(base: int, inc: int, lo: int, hi: int)
    requires base >= 1 && inc >= 0
    requires 1 <= lo <= hi
    ensures Threshold(base, inc, lo) <= Threshold(base, inc, hi)
  {
    if lo < hi {
      ThresholdStrictlyIncreasing(base, inc, lo, hi);
    }
  }

  /** `level` is the level of a player holding `xp`: the threshold of
      `level + 1` is out of reach and, above level 1, the threshold of `level`
      has been reached.  (Level 1 also absorbs negative totals.) */
  ghost predicate IsLevelOf(base: int, inc: int, xp: int, level: int) {
    && level >= 1
    && xp < Threshold(base, inc, level + 1)
    && (level == 1 || Threshold(base, inc, level) <= xp)
  }

  /** A larger XP total never means a lower level. */
  lemma LevelMonotone(base: int, inc: int, x1: int, l1: int, x2: int, l2: int)
    requires base >= 1 && inc >= 0
    requires IsLevelOf(base, inc, x1, l1) && IsLevelOf(base, inc, x2, l2)
    requires x1 <= x2
    ensures l1 <= l2
  {
    if l1 > l2 {
      ThresholdMonotone(base, inc, l2 + 1, l1);
    }
  }

  /** The level of an XP total is unique. */
  lemma LevelUnique(base: int, inc: int, xp: int, l1: int, l2: int)
    requires base >= 1 && inc >= 0
    requires IsLevelOf(base, inc, xp, l1) && IsLevelOf(base, inc, xp, l2)
    ensures l1 == l2
  {
    LevelMonotone(base, inc, xp, l1, xp, l2);
    LevelMonotone(base, inc, xp, l2, xp, l1);
  }

  /** For a non-negative total the progress inside the level is non-negative
      and smaller than the cost of the next step. */
  lemma LevelProgressBounds(base: int, inc: int, xp: int, level: int)
    requires IsLevelOf(base, inc, xp, level) && xp >= 0
    ensures 0 <= xp - Threshold(base, inc, level)
    ensures xp - Threshold(base, inc, level) < Threshold(base, inc, level + 1) - Threshold(base, inc, level)
  {
  }
}
