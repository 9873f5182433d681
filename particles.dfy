/** The particle field simulator: a fixed array of particle records advanced in
    place once per frame by linear drift, a small oscillating wobble, a parallax
    render offset and a wrap-around rule at a margin around the viewport.
    `Math.cos` and `Math.sin` are the parameters `cos` and `sin`. */
module Particles {
  import opened Pointer

  /** How far outside the viewport a particle may go before it wraps. */
  const Margin: real := 50.0
  /** Growth of the drift phase per normalised frame. */
  const DriftRate: real := 0.0015
  /** Amplitude of the wobble added to the position each frame. */
  const DriftAmplitude: real := 0.12

  /** One particle record; `renderX`/`renderY` is where it is drawn. */
  datatype Particle = Particle(
    x: real, y: real,
    vx: real, vy: real,
    radius: real,
    parallax: real,
    drift: real,
    renderX: real, renderY: real)

  /** The ranges `createParticle` draws radius and parallax factor from. */
  predicate Shaped(p: Particle)
  {
    1.2 <= p.radius < 3.0 && 0.015 <= p.parallax < 0.05
  }

  /** The stored position lies within the viewport widened by the margin. */
  predicate InView(p: Particle, width: real, height: real)
  {
    -Margin <= p.x <= width + Margin && -Margin <= p.y <= height + Margin
  }

  /** The wrap rule on one axis, as two successive tests: below `-50` jumps to
      `extent + 50`, then above `extent + 50` jumps to `-50`. */
  function WrapAxis(v: real, extent: real): (r: real)
    ensures v < -Margin ==> r == extent + Margin
    ensures -Margin <= v <= extent + Margin ==> r == v
    ensures -Margin <= v && extent + Margin < v ==> r == -Margin
    ensures 0.0 <= extent ==> -Margin <= r <= extent + Margin
  {
    var v' := if v < -Margin then extent + Margin else v;
    if v' > extent + Margin then -Margin else v'
  }

  /** The drift phase after one frame. */
  function NextDrift(p: Particle, delta: real): real
  {
    p.drift + DriftRate * delta
  }

  /** The x position after linear motion and wobble, before the wrap test. */
  function MovedX(p: Particle, delta: real, cos: real -> real): real
  {
    p.x + p.vx * delta + cos(NextDrift(p, delta)) * DriftAmplitude
  }

  /** The y position after linear motion and wobble, before the wrap test. */
  function MovedY(p: Particle, delta: real, sin: real -> real): real
  {
    p.y + p.vy * delta + sin(NextDrift(p, delta)) * DriftAmplitude
  }

  /** The parallax offset on one axis: pointer displacement from the centre,
      scaled by the particle's factor. */
  function Offset(pointer: real, extent: real, parallax: real): real
  {
    (pointer - extent / 2.0) * parallax
  }

  /** The update applied to one particle in one frame. The render position is
      taken from the moved position before the wrap; the stored position gets
      the wrap but never the offset. */
  function Step(p: Particle, delta: real, pointerX: real, pointerY: real,
                width: real, height: real, cos: real -> real, sin: real -> real): Particle
  {
    var x := MovedX(p, delta, cos);
    var y := MovedY(p, delta, sin);
    p.(x := WrapAxis(x, width), y := WrapAxis(y, height),
       drift := NextDrift(p, delta),
       renderX := x + Offset(pointerX, width, p.parallax),
       renderY := y + Offset(pointerY, height, p.parallax))
  }

  /** A step changes only position, drift phase and render position: velocity,
      radius and parallax factor are kept, so the creation ranges are kept too;
      the drift phase grows by exactly 0.0015 per normalised frame. */
  lemma StepKeepsConstants(p: Particle, delta: real, pointerX: real, pointerY: real,
                           width: real, height: real, cos: real -> real, sin: real -> real)
    ensures var q := Step(p, delta, pointerX, pointerY, width, height, cos, sin);
      q.vx == p.vx && q.vy == p.vy && q.radius == p.radius && q.parallax == p.parallax
      && q.drift - p.drift == 0.0015 * delta
      && (Shaped(p) ==> Shaped(q))
  {
  }

  /** After a step the stored position lies within the margin around a
      viewport of non-negative size, whatever it was before. */
  lemma StepInView(p: Particle, delta: real, pointerX: real, pointerY: real,
                   width: real, height: real, cos: real -> real, sin: real -> real)
    requires 0.0 <= width && 0.0 <= height
    ensures InView(Step(p, delta, pointerX, pointerY, width, height, cos, sin), width, height)
  {
  }

  /** The wrap cases on x (y is symmetric): beyond the left margin the particle
      reappears at the right margin, beyond the right margin at the left one,
      and otherwise it stays where it moved to. */
  lemma StepWrapsX(p: Particle, delta: real, pointerX: real, pointerY: real,
                   width: real, height: real, cos: real -> real, sin: real -> real)
    requires 0.0 <= width
    ensures var m := MovedX(p, delta, cos);
      var q := Step(p, delta, pointerX, pointerY, width, height, cos, sin);
      (m < -50.0 ==> q.x == width + 50.0)
      && (m > width + 50.0 ==> q.x == -50.0)
      && (-50.0 <= m <= width + 50.0 ==> q.x == m)
  {
  }

  /** The offset is purely visual: the stored position and the drift phase do
      not depend on the pointer, and moving the pointer shifts the render
      position by exactly the pointer's displacement times the parallax factor. */
  lemma PointerOnlyMovesRender(p: Particle, delta: real, px1: real, py1: real, px2: real, py2: real,
                               width: real, height: real, cos: real -> real, sin: real -> real)
    ensures var q1 := Step(p, delta, px1, py1, width, height, cos, sin);
      var q2 := Step(p, delta, px2, py2, width, height, cos, sin);
      q1.x == q2.x && q1.y == q2.y && q1.drift == q2.drift
      && q1.renderX - q2.renderX == (px1 - px2) * p.parallax
      && q1.renderY - q2.renderY == (py1 - py2) * p.parallax
  {
  }

  /** The render position is the stored position plus the current offset
      exactly when no wrap happened on that axis in this frame. */
  lemma RenderIsPositionPlusOffset(p: Particle, delta: real, pointerX: real, pointerY: real,
                                   width: real, height: real, cos: real -> real, sin: real -> real)
    requires 0.0 <= width && 0.0 <= height
    ensures var q := Step(p, delta, pointerX, pointerY, width, height, cos, sin);
      ((q.renderX == q.x + Offset(pointerX, width, p.parallax))
         <==> (-Margin <= MovedX(p, delta, cos) <= width + Margin))
      && ((q.renderY == q.y + Offset(pointerY, height, p.parallax))
         <==> (-Margin <= MovedY(p, delta, sin) <= height + Margin))
  {
  }

  /** With cosine and sine bounded by 1, a step that does not wrap moves the
      particle by its velocity times the delta plus at most 0.12 per axis. */
  lemma StepDisplacementBounded(p: Particle, delta: real, pointerX: real, pointerY: real,
                                width: real, height: real, cos: real -> real, sin: real -> real)
    requires forall t :: -1.0 <= cos(t) <= 1.0
    requires forall t :: -1.0 <= sin(t) <= 1.0
    requires 0.0 <= width && 0.0 <= height
    ensures var q := Step(p, delta, pointerX, pointerY, width, height, cos, sin);
      var m := MovedX(p, delta, cos);
      var n := MovedY(p, delta, sin);
      (-Margin <= m <= width + Margin ==> Abs(q.x - (p.x + p.vx * delta)) <= DriftAmplitude)
      && (-Margin <= n <= height + Margin ==> Abs(q.y - (p.y + p.vy * delta)) <= DriftAmplitude)
  {
    var d := NextDrift(p, delta);
    assert -1.0 <= cos(d) <= 1.0 && -1.0 <= sin(d) <= 1.0;
  }

  /** `updateParticles`: smooth the pointer once, then step every particle in
      place using the smoothed pointer. The array keeps its length; each slot
      holds the step of what it held before. */
  method UpdateParticles(pointer: PointerState, particles: array<Particle>, delta: real,
                         width: real, height: real, cos: real -> real, sin: real -> real)
    modifies pointer, particles
    ensures pointer.x == Smooth(old(pointer.x), old(pointer.targetX))
    ensures pointer.y == Smooth(old(pointer.y), old(pointer.targetY))
    ensures pointer.targetX == old(pointer.targetX) && pointer.targetY == old(pointer.targetY)
    ensures forall i :: 0 <= i < particles.Length ==>
      particles[i] == Step(old(particles[i]), delta, pointer.x, pointer.y, width, height, cos, sin)
    ensures 0.0 <= width && 0.0 <= height ==>
      forall i :: 0 <= i < particles.Length ==> InView(particles[i], width, height)
  {
    pointer.Follow();
    var i := 0;
    while i < particles.Length
      invariant 0 <= i <= particles.Length
      modifies particles
      invariant forall k :: 0 <= k < i ==>
        particles[k] == Step(old(particles[k]), delta, pointer.x, pointer.y, width, height, cos, sin)
      invariant forall k :: i <= k < particles.Length ==> particles[k] == old(particles[k])
    {
      particles[i] := Step(particles[i], delta, pointer.x, pointer.y, width, height, cos, sin);
      i := i + 1;
    }
    forall k | 0 <= k < particles.Length && 0.0 <= width && 0.0 <= height
      ensures InView(particles[k], width, height)
    {
      StepInView(old(particles[k]), delta, pointer.x, pointer.y, width, height, cos, sin);
    }
  }
}
