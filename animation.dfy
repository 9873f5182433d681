/** The frame scheduler's step: turn the gap between two frame timestamps into
    a delta measured in 60 fps frames, capped at 3, then update the field and
    draw its connections. Timestamps are in milliseconds. */
module Animation {
  import opened Pointer
  import opened Particles
  import opened Connections

  /** Milliseconds per frame at the 60 fps baseline. */
  const FrameMs: real := 1000.0 / 60.0
  /** The largest delta a single frame may advance the simulation by. */
  const MaxDelta: real := 3.0

  /** `Math.min((timestamp - last) / (1000 / 60), 3)`: the elapsed time in
      baseline frames, or 3 when that is larger. */
  function FrameDelta(timestamp: real, last: real): (d: real)
    ensures d <= MaxDelta
    ensures d <= (timestamp - last) / FrameMs
    ensures d == MaxDelta || d == (timestamp - last) / FrameMs
  {
    var frames := (timestamp - last) / FrameMs;
    if frames < MaxDelta then frames else MaxDelta
  }

  /** A stall of 50 ms or more (three baseline frames), such as a ten-second
      suspended tab, advances the simulation by exactly 3 frames. */
  lemma StallIsClamped(timestamp: real, last: real)
    requires timestamp - last >= 50.0
    ensures FrameDelta(timestamp, last) == MaxDelta
  {
  }

  /** Below the cap the delta is the elapsed time scaled to 60 fps. */
  lemma SteadyFrameIsExact(timestamp: real, last: real)
    requires 0.0 <= timestamp - last < 50.0
    ensures FrameDelta(timestamp, last) == (timestamp - last) * 60.0 / 1000.0
    ensures 0.0 <= FrameDelta(timestamp, last) < MaxDelta
  {
  }

  /** There is no lower clamp: a timestamp earlier than the previous one gives
      a negative delta. */
  lemma EarlierTimestampGoesBack(timestamp: real, last: real)
    requires timestamp < last
    ensures FrameDelta(timestamp, last) < 0.0
  {
  }

  /** `lastTimestamp`, the previous frame's timestamp. */
  class FrameClock {
    var lastTimestamp: real

    /** Starts at the time the script loads. */
    constructor (now: real)
      ensures lastTimestamp == now
    {
      lastTimestamp := now;
    }

    /** The two statements at the head of `animate`: compute the clamped delta
        from the previous timestamp, then remember the new one. */
    method Tick(timestamp: real) returns (delta: real)
      modifies this
      ensures delta == FrameDelta(timestamp, old(lastTimestamp))
      ensures delta <= MaxDelta
      ensures lastTimestamp == timestamp
    {
      delta := (timestamp - lastTimestamp) / FrameMs;
      if delta > MaxDelta {
        delta := MaxDelta;
      }
      lastTimestamp := timestamp;
    }
  }

  /** One frame of `animate`: tick the clock, update the field with the
      resulting delta, then run the connection pass over the fresh render
      positions. Clearing the canvas and scheduling the next frame are left out. */
  method Animate(clock: FrameClock, pointer: PointerState, particles: array<Particle>,
                 timestamp: real, width: real, height: real,
                 cos: real -> real, sin: real -> real, hypot: (real, real) -> real)
    returns (lines: seq<Segment>)
    modifies clock, pointer, particles
    ensures clock.lastTimestamp == timestamp
    ensures pointer.x == Smooth(old(pointer.x), old(pointer.targetX))
    ensures pointer.y == Smooth(old(pointer.y), old(pointer.targetY))
    ensures pointer.targetX == old(pointer.targetX) && pointer.targetY == old(pointer.targetY)
    ensures forall i :: 0 <= i < particles.Length ==>
      particles[i] == Step(old(particles[i]), FrameDelta(timestamp, old(clock.lastTimestamp)),
                           pointer.x, pointer.y, width, height, cos, sin)
    ensures 0.0 <= width && 0.0 <= height ==>
      forall i :: 0 <= i < particles.Length ==> InView(particles[i], width, height)
    ensures lines == Lines(particles[..], hypot)
  {
    var delta := clock.Tick(timestamp);
    UpdateParticles(pointer, particles, delta, width, height, cos, sin);
    ghost var visited;
    lines, visited := RenderBackground(particles, hypot);
  }
}
