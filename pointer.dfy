/** The pointer tracker: a raw target written by input events and a smoothed
    position that follows it by a fixed fraction of the gap once per frame. */
module Pointer {

  /** Fraction of the remaining gap covered by one smoothing tick. */
  const SmoothFactor: real := 0.08

  /** Fraction of the gap that is left after one smoothing tick. */
  const Retained: real := 0.92

  function Abs(v: real): real { if v < 0.0 then -v else v }

  function Pow(b: real, n: nat): real { if n == 0 then 1.0 else b * Pow(b, n - 1) }

  /** One smoothing tick on one axis: `current += (target - current) * 0.08`.
      The gap to the target shrinks to exactly 0.92 of what it was. */
  function Smooth(current: real, target: real): (r: real)
    ensures target - r == Retained * (target - current)
  {
    current + (target - current) * SmoothFactor
  }

  /** The smoothed position after `n` ticks during which the target stays fixed. */
  function SmoothN(current: real, target: real, n: nat): real
  {
    if n == 0 then current else Smooth(SmoothN(current, target, n - 1), target)
  }

  /** One tick never overshoots: the new position lies between the old one and
      the target, and the gap's magnitude does not grow (it shrinks unless it is 0). */
  lemma SmoothStaysBetween(current: real, target: real)
    ensures current <= target ==> current <= Smooth(current, target) <= target
    ensures target <= current ==> target <= Smooth(current, target) <= current
    ensures Abs(target - Smooth(current, target)) <= Abs(target - current)
    ensures current != target ==> Abs(target - Smooth(current, target)) < Abs(target - current)
  {
  }

  /** After `n` ticks with a fixed target the gap is exactly 0.92^n times the first gap. */
  lemma {:induction false} SmoothNGap(current: real, target: real, n: nat)
    ensures target - SmoothN(current, target, n) == Pow(Retained, n) * (target - current)
  {
    if n > 0 {
      SmoothNGap(current, target, n - 1);
      var s := SmoothN(current, target, n - 1);
      calc {
        target - SmoothN(current, target, n);
        target - Smooth(s, target);
        Retained * (target - s);
        Retained * (Pow(Retained, n - 1) * (target - current));
        (Retained * Pow(Retained, n - 1)) * (target - current);
      }
    }
  }

  /** With a fixed target the smoothed position moves monotonically toward it and
      never passes it. */
  lemma {:induction false} SmoothNMonotone(current: real, target: real, n: nat)
    ensures current <= target ==>
      current <= SmoothN(current, target, n) <= SmoothN(current, target, n + 1) <= target
    ensures target <= current ==>
      target <= SmoothN(current, target, n + 1) <= SmoothN(current, target, n) <= current
  {
    if n > 0 {
      SmoothNMonotone(current, target, n - 1);
    }
    SmoothStaysBetween(SmoothN(current, target, n), target);
  }

  /** 0.92^n * (1 + 0.08 n) <= 1, a Bernoulli-style bound used for convergence. */
  lemma {:induction false} RetainedPowBound(n: nat)
    ensures 0.0 < Pow(Retained, n) <= 1.0
    ensures Pow(Retained, n) * (1.0 + SmoothFactor * (n as real)) <= 1.0
  {
    if n > 0 {
      RetainedPowBound(n - 1);
      var p := Pow(Retained, n - 1);
      var m := (n - 1) as real;
      assert Pow(Retained, n) == Retained * p;
      calc {
        Pow(Retained, n) * (1.0 + SmoothFactor * (n as real));
        Retained * p * (1.0 + SmoothFactor * (m + 1.0));
        p * (0.9936 + 0.0736 * m);
      <= { assert 0.0 <= p * (0.0064 + 0.0064 * m); }
        p * (1.0 + SmoothFactor * m);
      <=
        1.0;
      }
    }
  }

  /** Convergence: after `n` ticks the gap is at most the first gap divided by
      1 + 0.08 n, so it falls below any positive bound eventually. */
  lemma SmoothNConverges(current: real, target: real, n: nat)
    ensures Abs(target - SmoothN(current, target, n)) * (1.0 + SmoothFactor * (n as real))
            <= Abs(target - current)
  {
    SmoothNGap(current, target, n);
    RetainedPowBound(n);
    var p, g := Pow(Retained, n), target - current;
    assert Abs(target - SmoothN(current, target, n)) == p * Abs(g);
  }

  /** The `pointer` record: smoothed position `(x, y)` and raw target. */
  class PointerState {
    var x: real
    var y: real
    var targetX: real
    var targetY: real

    /** Position and target both start at the viewport centre. */
    constructor (width: real, height: real)
      ensures x == width / 2.0 && y == height / 2.0
      ensures targetX == width / 2.0 && targetY == height / 2.0
    {
      x, y := width / 2.0, height / 2.0;
      targetX, targetY := width / 2.0, height / 2.0;
    }

    /** `pointermove`: the target jumps to the event's client coordinates; the
        smoothed position is untouched until the next frame. */
    method MoveTo(clientX: real, clientY: real)
      modifies this
      ensures targetX == clientX && targetY == clientY
      ensures x == old(x) && y == old(y)
    {
      targetX, targetY := clientX, clientY;
    }

    /** `pointerleave`: the target returns to the viewport centre. */
    method Leave(width: real, height: real)
      modifies this
      ensures targetX == width / 2.0 && targetY == height / 2.0
      ensures x == old(x) && y == old(y)
    {
      targetX, targetY := width / 2.0, height / 2.0;
    }

    /** The smoothing tick done once per frame at the start of the particle
        update: each axis keeps 0.92 of its gap; the target is unchanged. */
    method Follow()
      modifies this
      ensures x == Smooth(old(x), old(targetX)) && y == Smooth(old(y), old(targetY))
      ensures targetX - x == Retained * (old(targetX) - old(x))
      ensures targetY - y == Retained * (old(targetY) - old(y))
      ensures targetX == old(targetX) && targetY == old(targetY)
    {
      x := x + (targetX - x) * SmoothFactor;
      y := y + (targetY - y) * SmoothFactor;
    }
  }
}
