/** The connection pass of the renderer: every unordered pair of particles is
    examined once, in the order of two nested counting loops, and a line is
    drawn between the render positions of a pair closer than 160 units, with an
    opacity that falls linearly from 0.35 to 0 over that distance.
    `Math.hypot` is the parameter `hypot`. */
module Connections {
  import opened Particles

  /** Pairs at this distance or farther get no line. */
  const ConnectionDistance: real := 160.0
  /** Opacity of a line between two particles at the same point. */
  const MaxAlpha: real := 0.35

  /** A line drawn between particles `i` and `j` with opacity `alpha`. */
  datatype Segment = Segment(i: nat, j: nat, alpha: real)

  /** The opacity of a line between two particles `dist` apart. */
  function Alpha(dist: real): (a: real)
    ensures 0.0 <= dist < ConnectionDistance ==> 0.0 < a <= MaxAlpha
    ensures dist == 0.0 ==> a == MaxAlpha
    ensures dist == ConnectionDistance ==> a == 0.0
  {
    (1.0 - dist / ConnectionDistance) * MaxAlpha
  }

  /** Opacity falls strictly as the distance grows. */
  lemma AlphaDecreasing(d1: real, d2: real)
    requires d1 < d2
    ensures Alpha(d2) < Alpha(d1)
  {
  }

  /** Without a square root the test can be read on squared distances: for a
      non-negative distance whose square is `dx^2 + dy^2`, the pair is close
      exactly when `dx^2 + dy^2 < 160^2`. */
  lemma CloseIffSquaredClose(dist: real, dx: real, dy: real)
    requires 0.0 <= dist && dist * dist == dx * dx + dy * dy
    ensures dist < ConnectionDistance <==> dx * dx + dy * dy < 25600.0
  {
    if dist < ConnectionDistance {
      ScaleMonotone(dist, dist, ConnectionDistance);
    } else {
      ScaleMonotone(dist, ConnectionDistance, dist);
    }
  }

  lemma ScaleMonotone(c: real, a: real, b: real)
    requires 0.0 <= c && a <= b
    ensures c * a <= c * b
  {
  }

  /** The distance between the render positions of two particles. */
  function Distance(a: Particle, b: Particle, hypot: (real, real) -> real): real
  {
    hypot(a.renderX - b.renderX, a.renderY - b.renderY)
  }

  /** The pairs `(i, k)` with `i < k < j`, in increasing `k`: the inner loop
      for row `i` stopped before `j`. */
  function RowPairs(i: nat, j: nat): seq<(nat, nat)>
    decreases j
  {
    if j <= i + 1 then [] else RowPairs(i, j - 1) + [(i, j - 1)]
  }

  /** The pairs examined by the outer loop's first `i` rows over `n` particles. */
  function PairsBefore(i: nat, n: nat): seq<(nat, nat)>
  {
    if i == 0 then [] else PairsBefore(i - 1, n) + RowPairs(i - 1, n)
  }

  /** Every pair the nested loops examine over `n` particles, in loop order. */
  function Pairs(n: nat): seq<(nat, nat)>
  {
    PairsBefore(n, n)
  }

  /** The loop order: row first, then column. */
  predicate LexLess(p: (nat, nat), q: (nat, nat))
  {
    p.0 < q.0 || (p.0 == q.0 && p.1 < q.1)
  }

  predicate Ordered(s: seq<(nat, nat)>)
  {
    forall a, b :: 0 <= a < b < |s| ==> LexLess(s[a], s[b])
  }

  /** Lines in strictly increasing loop order of their pairs. */
  predicate LinesOrdered(lines: seq<Segment>)
  {
    forall a, b :: 0 <= a < b < |lines| ==> LexLess((lines[a].i, lines[a].j), (lines[b].i, lines[b].j))
  }

  /** The distance between particles `i` and `j` of `ps`. */
  function PairDistance(ps: seq<Particle>, i: nat, j: nat, hypot: (real, real) -> real): real
    requires i < |ps| && j < |ps|
  {
    Distance(ps[i], ps[j], hypot)
  }

  /** The line (if any) for the pair `(i, j)`. A pair outside the array has
      none; the enumeration never produces one (PairsExactlyOnce). */
  function Examine(ps: seq<Particle>, i: nat, j: nat, hypot: (real, real) -> real): seq<Segment>
  {
    if i < |ps| && j < |ps| && PairDistance(ps, i, j, hypot) < ConnectionDistance
    then [Segment(i, j, Alpha(PairDistance(ps, i, j, hypot)))]
    else []
  }

  /** Row `i` up to column `j` lists exactly the columns `i + 1 .. j - 1`. */
  lemma {:induction false} RowPairsAt(i: nat, j: nat)
    ensures |RowPairs(i, j)| == if j <= i + 1 then 0 else j - i - 1
    ensures forall k :: 0 <= k < |RowPairs(i, j)| ==> RowPairs(i, j)[k] == (i, i + 1 + k)
    decreases j
  {
    if j > i + 1 {
      RowPairsAt(i, j - 1);
    }
  }

  lemma {:induction false} OrderedConcat(s: seq<(nat, nat)>, t: seq<(nat, nat)>)
    requires Ordered(s) && Ordered(t)
    requires forall a, b :: 0 <= a < |s| && 0 <= b < |t| ==> LexLess(s[a], t[b])
    ensures Ordered(s + t)
  {
  }

  /** Row `i` up to column `j` holds exactly the pairs `(i, k)` with `i < k < j`. */
  lemma {:induction false} RowPairsMembers(i: nat, j: nat)
    ensures forall p :: p in RowPairs(i, j) <==> p.0 == i && i < p.1 < j
    decreases j
  {
    if j > i + 1 {
      RowPairsMembers(i, j - 1);
    }
  }

  /** The first `i` rows over `n` particles hold exactly the pairs whose row
      is below `i`. */
  lemma PairsBeforeMembers(i: nat, n: nat)
    ensures forall p :: p in PairsBefore(i, n) <==> p.0 < i && p.0 < p.1 < n
  {
    forall p: (nat, nat) ensures p in PairsBefore(i, n) <==> p.0 < i && p.0 < p.1 < n {
      if p in PairsBefore(i, n) {
        PairsBeforeOnly(i, n, p);
      } else if p.0 < i && p.0 < p.1 < n {
        PairsBeforeHas(i, n, p);
      }
    }
  }

  lemma {:induction false} PairsBeforeHas(i: nat, n: nat, p: (nat, nat))
    requires p.0 < i && p.0 < p.1 < n
    ensures p in PairsBefore(i, n)
  {
    if p.0 == i - 1 {
      RowPairsMembers(i - 1, n);
      assert p in RowPairs(i - 1, n);
    } else {
      PairsBeforeHas(i - 1, n, p);
    }
  }

  lemma {:induction false} PairsBeforeOnly(i: nat, n: nat, p: (nat, nat))
    requires p in PairsBefore(i, n)
    ensures p.0 < i && p.0 < p.1 < n
  {
    var prev, row := PairsBefore(i - 1, n), RowPairs(i - 1, n);
    if p in prev {
      PairsBeforeOnly(i - 1, n, p);
    } else {
      RowPairsMembers(i - 1, n);
    }
  }

  /** The first `i` rows come out in strictly increasing loop order. */
  lemma {:induction false} PairsBeforeOrdered(i: nat, n: nat)
    ensures Ordered(PairsBefore(i, n))
  {
    if i > 0 {
      var prev, row := PairsBefore(i - 1, n), RowPairs(i - 1, n);
      PairsBeforeOrdered(i - 1, n);
      RowPairsOrdered(i - 1, n);
      forall a, b | 0 <= a < |prev| && 0 <= b < |row| ensures LexLess(prev[a], row[b]) {
        PairsBeforeOnly(i - 1, n, prev[a]);
        RowPairsAt(i - 1, n);
      }
      OrderedConcat(prev, row);
    }
  }

  lemma RowPairsOrdered(i: nat, j: nat)
    ensures Ordered(RowPairs(i, j))
  {
    RowPairsAt(i, j);
  }

  /** The first `i` rows over `n` particles hold i(2n - i - 1)/2 pairs. */
  lemma {:induction false} PairsBeforeCount(i: nat, n: nat)
    requires i <= n
    ensures 2 * |PairsBefore(i, n)| == i * (2 * n - i - 1)
  {
    if i > 0 {
      PairsBeforeCount(i - 1, n);
      RowPairsAt(i - 1, n);
      TriangleStep(i - 1, n);
    }
  }

  lemma TriangleStep(m: int, n: int)
    ensures m * (2 * n - m - 1) + 2 * (n - m - 1) == (m + 1) * (2 * n - (m + 1) - 1)
  {
  }

  /** The pair enumeration visits every unordered pair `i < j < n` exactly once:
      a pair is listed iff `i < j < n`, and the list is strictly increasing in
      loop order, so no pair is listed twice; there are n(n - 1)/2 pairs. */
  lemma PairsExactlyOnce(n: nat)
    ensures forall p :: p in Pairs(n) <==> p.0 < p.1 < n
    ensures forall a, b :: 0 <= a < b < |Pairs(n)| ==> LexLess(Pairs(n)[a], Pairs(n)[b])
    ensures forall a, b :: 0 <= a < b < |Pairs(n)| ==> Pairs(n)[a] != Pairs(n)[b]
    ensures 2 * |Pairs(n)| == n * (n - 1)
  {
    PairsBeforeMembers(n, n);
    PairsBeforeOrdered(n, n);
    PairsBeforeCount(n, n);
  }

  /** At seventy particles a frame examines 2415 pairs. */
  lemma SeventyParticlePairs()
    ensures |Pairs(70)| == 2415
  {
    PairsExactlyOnce(70);
  }

  /** The pair and the opacity of a line the pass draws over particles `ps`:
      both ends exist, they are closer than 160 units, and the opacity is the
      one for their distance. */
  predicate Drawn(ps: seq<Particle>, s: Segment, hypot: (real, real) -> real)
  {
    s.i < |ps| && s.j < |ps| && PairDistance(ps, s.i, s.j, hypot) < ConnectionDistance
    && s.alpha == Alpha(PairDistance(ps, s.i, s.j, hypot))
  }

  /** The lines of row `i` over columns `i + 1 .. j - 1`, in column order. */
  function RowLines(ps: seq<Particle>, i: nat, j: nat, hypot: (real, real) -> real): seq<Segment>
    decreases j
  {
    if j <= i + 1 then [] else RowLines(ps, i, j - 1, hypot) + Examine(ps, i, j - 1, hypot)
  }

  /** The lines of rows `0 .. i - 1`, in loop order. */
  function LinesBefore(ps: seq<Particle>, i: nat, hypot: (real, real) -> real): seq<Segment>
  {
    if i == 0 then [] else LinesBefore(ps, i - 1, hypot) + RowLines(ps, i - 1, |ps|, hypot)
  }

  /** The lines one pass draws over particles `ps`. */
  function Lines(ps: seq<Particle>, hypot: (real, real) -> real): seq<Segment>
  {
    LinesBefore(ps, |ps|, hypot)
  }

  /** Row `i` up to column `j` draws a line for column `k` iff `i < k < j` and
      the pair `(i, k)` is close. */
  lemma {:induction false} RowLinesMembers(ps: seq<Particle>, i: nat, j: nat, hypot: (real, real) -> real)
    ensures forall s :: s in RowLines(ps, i, j, hypot) <==> s.i == i && i < s.j < j && Drawn(ps, s, hypot)
    decreases j
  {
    if j > i + 1 {
      RowLinesMembers(ps, i, j - 1, hypot);
    }
  }

  lemma {:induction false} LinesOrderedConcat(s: seq<Segment>, t: seq<Segment>)
    requires LinesOrdered(s) && LinesOrdered(t)
    requires forall a, b :: 0 <= a < |s| && 0 <= b < |t| ==> LexLess((s[a].i, s[a].j), (t[b].i, t[b].j))
    ensures LinesOrdered(s + t)
  {
  }

  /** Within a row, lines come in increasing column order. */
  lemma {:induction false} RowLinesOrdered(ps: seq<Particle>, i: nat, j: nat, hypot: (real, real) -> real)
    ensures LinesOrdered(RowLines(ps, i, j, hypot))
    decreases j
  {
    if j > i + 1 {
      var prev, last := RowLines(ps, i, j - 1, hypot), Examine(ps, i, j - 1, hypot);
      RowLinesOrdered(ps, i, j - 1, hypot);
      forall a, b | 0 <= a < |prev| && 0 <= b < |last|
        ensures LexLess((prev[a].i, prev[a].j), (last[b].i, last[b].j))
      {
        RowLinesOnly(ps, i, j - 1, prev[a], hypot);
      }
      LinesOrderedConcat(prev, last);
    }
  }

  lemma RowLinesOnly(ps: seq<Particle>, i: nat, j: nat, s: Segment, hypot: (real, real) -> real)
    requires s in RowLines(ps, i, j, hypot)
    ensures s.i == i && i < s.j < j && Drawn(ps, s, hypot)
  {
    RowLinesMembers(ps, i, j, hypot);
  }

  lemma {:induction false} RowLinesHas(ps: seq<Particle>, i: nat, j: nat, s: Segment, hypot: (real, real) -> real)
    requires s.i == i && i < s.j < j && Drawn(ps, s, hypot)
    ensures s in RowLines(ps, i, j, hypot)
    decreases j
  {
    if s.j == j - 1 {
      assert Examine(ps, i, j - 1, hypot) == [s];
    } else {
      RowLinesHas(ps, i, j - 1, s, hypot);
    }
  }

  /** The first `i` rows draw a line for a pair iff its row is below `i`, its
      column is above its row, and it is close. */
  lemma LinesBeforeMembers(ps: seq<Particle>, i: nat, hypot: (real, real) -> real)
    ensures forall s :: s in LinesBefore(ps, i, hypot) <==> s.i < i && s.i < s.j && Drawn(ps, s, hypot)
  {
    forall s: Segment ensures s in LinesBefore(ps, i, hypot) <==> s.i < i && s.i < s.j && Drawn(ps, s, hypot) {
      if s in LinesBefore(ps, i, hypot) {
        LinesBeforeOnly(ps, i, s, hypot);
      } else if s.i < i && s.i < s.j && Drawn(ps, s, hypot) {
        LinesBeforeHas(ps, i, s, hypot);
      }
    }
  }

  lemma {:induction false} LinesBeforeHas(ps: seq<Particle>, i: nat, s: Segment, hypot: (real, real) -> real)
    requires s.i < i && s.i < s.j && Drawn(ps, s, hypot)
    ensures s in LinesBefore(ps, i, hypot)
  {
    if s.i == i - 1 {
      RowLinesHas(ps, i - 1, |ps|, s, hypot);
    } else {
      LinesBeforeHas(ps, i - 1, s, hypot);
    }
  }

  lemma {:induction false} LinesBeforeOnly(ps: seq<Particle>, i: nat, s: Segment, hypot: (real, real) -> real)
    requires s in LinesBefore(ps, i, hypot)
    ensures s.i < i && s.i < s.j && Drawn(ps, s, hypot)
  {
    var prev, row := LinesBefore(ps, i - 1, hypot), RowLines(ps, i - 1, |ps|, hypot);
    if s in prev {
      LinesBeforeOnly(ps, i - 1, s, hypot);
    } else {
      RowLinesOnly(ps, i - 1, |ps|, s, hypot);
    }
  }

  /** The first `i` rows draw their lines in loop order. */
  lemma {:induction false} LinesBeforeOrdered(ps: seq<Particle>, i: nat, hypot: (real, real) -> real)
    ensures LinesOrdered(LinesBefore(ps, i, hypot))
  {
    if i > 0 {
      var prev, row := LinesBefore(ps, i - 1, hypot), RowLines(ps, i - 1, |ps|, hypot);
      LinesBeforeOrdered(ps, i - 1, hypot);
      RowLinesOrdered(ps, i - 1, |ps|, hypot);
      forall a, b | 0 <= a < |prev| && 0 <= b < |row|
        ensures LexLess((prev[a].i, prev[a].j), (row[b].i, row[b].j))
      {
        LinesBeforeOnly(ps, i - 1, prev[a], hypot);
        RowLinesOnly(ps, i - 1, |ps|, row[b], hypot);
      }
      LinesOrderedConcat(prev, row);
    }
  }

  /** What the whole pass draws over particles `ps`: a line for a pair iff
      `i < j < |ps|` and the pair is closer than 160 units, with opacity `Alpha`
      of the distance, which lies in (0, 0.35] when distances are non-negative;
      lines come in loop order, so no pair gets two lines. */
  lemma LinesDrawn(ps: seq<Particle>, hypot: (real, real) -> real)
    requires forall dx, dy :: 0.0 <= hypot(dx, dy)
    ensures var lines := Lines(ps, hypot);
      (forall s :: s in lines <==>
        s.i < s.j < |ps|
        && Distance(ps[s.i], ps[s.j], hypot) < ConnectionDistance
        && s.alpha == Alpha(Distance(ps[s.i], ps[s.j], hypot)))
      && (forall s :: s in lines ==> 0.0 < s.alpha <= MaxAlpha)
      && LinesOrdered(lines)
      && (forall a, b :: 0 <= a < b < |lines| ==> (lines[a].i, lines[a].j) != (lines[b].i, lines[b].j))
  {
    LinesBeforeMembers(ps, |ps|, hypot);
    LinesBeforeOrdered(ps, |ps|, hypot);
    var lines := Lines(ps, hypot);
    forall s | s in lines ensures 0.0 < s.alpha <= MaxAlpha {
      var a, b := ps[s.i], ps[s.j];
      assert 0.0 <= hypot(a.renderX - b.renderX, a.renderY - b.renderY);
    }
  }

  /** The squared distance between the render positions of two particles. */
  function SquaredDistance(a: Particle, b: Particle): real
  {
    (a.renderX - b.renderX) * (a.renderX - b.renderX) + (a.renderY - b.renderY) * (a.renderY - b.renderY)
  }

  /** When `hypot` is the non-negative square root of dx² + dy², the pass
      draws a line for a pair `i < j` exactly when its squared distance is
      below 160², with the opacity for its distance. */
  lemma LinesBySquaredDistance(ps: seq<Particle>, hypot: (real, real) -> real)
    requires forall dx, dy :: 0.0 <= hypot(dx, dy) && hypot(dx, dy) * hypot(dx, dy) == dx * dx + dy * dy
    ensures forall s :: s in Lines(ps, hypot) ==>
      s.i < s.j < |ps| && SquaredDistance(ps[s.i], ps[s.j]) < ConnectionDistance * ConnectionDistance
    ensures forall i: nat, j: nat :: i < j < |ps| ==>
      (SquaredDistance(ps[i], ps[j]) < ConnectionDistance * ConnectionDistance
       ==> Segment(i, j, Alpha(Distance(ps[i], ps[j], hypot))) in Lines(ps, hypot))
  {
    LinesDrawn(ps, hypot);
    forall i: nat, j: nat | i < j < |ps|
      ensures Distance(ps[i], ps[j], hypot) < ConnectionDistance
        <==> SquaredDistance(ps[i], ps[j]) < ConnectionDistance * ConnectionDistance
    {
      var dx, dy := ps[i].renderX - ps[j].renderX, ps[i].renderY - ps[j].renderY;
      assert 0.0 <= hypot(dx, dy) && hypot(dx, dy) * hypot(dx, dy) == dx * dx + dy * dy;
      CloseIffSquaredClose(Distance(ps[i], ps[j], hypot), dx, dy);
    }
  }

  /** The inner loop's step: column `j` of row `i` adds that pair to the
      examined pairs and its line, if any, to the lines. */
  lemma RowStep(ps: seq<Particle>, i: nat, j: nat, hypot: (real, real) -> real)
    requires i < j
    ensures RowLines(ps, i, j + 1, hypot) == RowLines(ps, i, j, hypot) + Examine(ps, i, j, hypot)
    ensures RowPairs(i, j + 1) == RowPairs(i, j) + [(i, j)]
  {
  }

  /** The outer loop's step: row `i` appends its pairs and its lines. */
  lemma RowsStep(ps: seq<Particle>, i: nat, hypot: (real, real) -> real)
    ensures LinesBefore(ps, i + 1, hypot) == LinesBefore(ps, i, hypot) + RowLines(ps, i, |ps|, hypot)
    ensures PairsBefore(i + 1, |ps|) == PairsBefore(i, |ps|) + RowPairs(i, |ps|)
  {
  }

  /** The line the inner loop adds for a pair at distance `dist`. */
  lemma ExamineAt(ps: seq<Particle>, i: nat, j: nat, dist: real, hypot: (real, real) -> real)
    requires i < |ps| && j < |ps| && dist == Distance(ps[i], ps[j], hypot)
    ensures Examine(ps, i, j, hypot) == if dist < ConnectionDistance then [Segment(i, j, Alpha(dist))] else []
  {
  }

  /** The inner loop of `renderBackground` for row `i`: for each `j > i`,
      measure the distance and add a line when it is below 160. `examined`
      records the pairs in the order the loop examines them. */
  method ConnectRow(particles: array<Particle>, i: nat, hypot: (real, real) -> real)
    returns (row: seq<Segment>, ghost examined: seq<(nat, nat)>)
    requires i < particles.Length
    ensures row == RowLines(particles[..], i, particles.Length, hypot)
    ensures examined == RowPairs(i, particles.Length)
  {
    var n := particles.Length;
    ghost var ps := particles[..];
    var a := particles[i];
    row, examined := [], [];
    var j: nat := i + 1;
    while j < n
      invariant i + 1 <= j <= n
      invariant row == RowLines(ps, i, j, hypot)
      invariant examined == RowPairs(i, j)
    {
      var b := particles[j];
      var dist := hypot(a.renderX - b.renderX, a.renderY - b.renderY);
      assert a == ps[i] && b == ps[j];
      ExamineAt(ps, i, j, dist, hypot);
      RowStep(ps, i, j, hypot);
      if dist < ConnectionDistance {
        row := row + [Segment(i, j, Alpha(dist))];
      }
      examined := examined + [(i, j)];
      j := j + 1;
    }
  }

  /** `renderBackground`'s pair loops: each row's lines, one row after the
      other. `visited` records the pairs in the order the loops examine them. */
  method RenderBackground(particles: array<Particle>, hypot: (real, real) -> real)
    returns (lines: seq<Segment>, ghost visited: seq<(nat, nat)>)
    ensures lines == Lines(particles[..], hypot)
    ensures visited == Pairs(particles.Length)
  {
    var n := particles.Length;
    ghost var ps := particles[..];
    lines, visited := [], [];
    var i: nat := 0;
    while i < n
      invariant i <= n
      invariant lines == LinesBefore(ps, i, hypot)
      invariant visited == PairsBefore(i, n)
    {
      var row, examined := ConnectRow(particles, i, hypot);
      RowsStep(ps, i, hypot);
      lines, visited := lines + row, visited + examined;
      i := i + 1;
    }
  }
}
