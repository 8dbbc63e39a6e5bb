/**
 * The particle field on the background canvas: how many particles a canvas
 * gets, the connecting lines between near particles, and the frame loop that
 * updates and draws every particle. The canvas size, the pointer position and
 * the random draws are explicit inputs; `sqrt` is Math.sqrt as in Particles.
 */
module Field {
  import opened Particles

  /** At most this many particles, whatever the canvas size. */
  const MaxParticles: nat := 150
  /** One particle per this many square pixels of canvas. */
  const PixelsPerParticle: nat := 8000
  /** Particles closer than this are joined by a line. */
  const LinkDistance: real := 120.0
  /** Stroke alpha of a line between two particles at distance 0. */
  const LinkAlpha: real := 0.3

  /**
   * The bound the creation loop counts up to: min(150, w * h / 8000), which
   * need not be a whole number.
   */
  function CountBound(w: nat, h: nat): real {
    var perArea := (w * h) as real / PixelsPerParticle as real;
    if perArea < MaxParticles as real then perArea else MaxParticles as real
  }

  /**
   * The number of particles the loop `for (i = 0; i < bound; i++)` creates:
   * the bound rounded up.
   */
  function ParticleCount(w: nat, h: nat): (n: nat)
    ensures n <= MaxParticles
  {
    if w * h >= MaxParticles * PixelsPerParticle then MaxParticles
    else (w * h + PixelsPerParticle - 1) / PixelsPerParticle
  }

  /**
   * ParticleCount is the ceiling of CountBound: the least whole number that
   * is not below it, so the loop stops exactly there.
   */
  lemma {:induction false} CountIsCeiling(w: nat, h: nat)
    ensures CountBound(w, h) <= ParticleCount(w, h) as real
    ensures ParticleCount(w, h) > 0 ==> (ParticleCount(w, h) - 1) as real < CountBound(w, h)
  {
    var a := w * h;
    var n := ParticleCount(w, h);
    if a < MaxParticles * PixelsPerParticle {
      assert n * 8000 <= a + 7999 < n * 8000 + 8000;
      assert (a as real) / 8000.0 <= n as real;
      if n > 0 {
        assert ((n - 1) * 8000) as real < a as real;
      }
    }
  }

  /** An 800 x 600 canvas gets 60 particles. */
  lemma CountOfSmallCanvas()
    ensures ParticleCount(800, 600) == 60
  {
  }

  /** A 1600 x 1200 canvas reaches the cap of 150. */
  lemma CountOfLargeCanvas()
    ensures ParticleCount(1600, 1200) == 150
  {
  }

  /** A canvas of no area, whichever side is zero, gets no particles. */
  lemma CountOfEmptyCanvas(w: nat, h: nat)
    requires w == 0 || h == 0
    ensures ParticleCount(w, h) == 0
  {
  }

  /** A fractional bound is rounded up: 1000 x 1001 pixels give a bound of 125.125 and 126 particles. */
  lemma CountOfFractionalBound()
    ensures CountBound(1000, 1001) == 125.125
    ensures ParticleCount(1000, 1001) == 126
  {
  }

  /** A connecting line: the two particle indices (i < j) and its stroke alpha. */
  datatype Segment = Segment(i: nat, j: nat, opacity: real)

  /** Stroke alpha (1 - d / 120) * 0.3 of a line between particles at distance d. */
  function LineOpacity(d: real): (r: real)
    ensures 0.0 <= d < LinkDistance ==> 0.0 < r <= LinkAlpha
    ensures d == 0.0 ==> r == LinkAlpha
  {
    (1.0 - d / LinkDistance) * LinkAlpha
  }

  /** Nearer particles get a more opaque line. */
  lemma LineOpacityDecreasing(d1: real, d2: real)
    requires d1 < d2
    ensures LineOpacity(d2) < LineOpacity(d1)
  {
  }

  /** Squared distance between particles i and j. */
  function Gap2(ps: seq<(real, real)>, i: nat, j: nat): real
    requires i < |ps| && j < |ps|
  {
    Norm2(ps[i].0 - ps[j].0, ps[i].1 - ps[j].1)
  }

  /** Particles i and j are closer than LinkDistance. */
  predicate Close(ps: seq<(real, real)>, i: nat, j: nat)
    requires i < |ps| && j < |ps|
  {
    Gap2(ps, i, j) < LinkDistance * LinkDistance
  }

  /** The distance between particles i and j as the code takes it, through `sqrt`. */
  function Distance(ps: seq<(real, real)>, i: nat, j: nat, sqrt: real -> real): real
    requires i < |ps| && j < |ps|
  {
    sqrt(Gap2(ps, i, j))
  }

  /** What the inner loop emits for the pair (i, j): one line when close, nothing otherwise. */
  function Link(ps: seq<(real, real)>, i: nat, j: nat, sqrt: real -> real): seq<Segment>
    requires i < |ps| && j < |ps|
  {
    var d := Distance(ps, i, j, sqrt);
    if d < LinkDistance then [Segment(i, j, LineOpacity(d))] else []
  }

  /** The lines for the pairs (i, k) with i < k < j, in increasing k. */
  function Row(ps: seq<(real, real)>, i: nat, j: nat, sqrt: real -> real): seq<Segment>
    requires i < |ps| && j <= |ps|
    decreases j
  {
    if j <= i + 1 then [] else Row(ps, i, j - 1, sqrt) + Link(ps, i, j - 1, sqrt)
  }

  /** The lines for every pair whose first index is below i, row by row. */
  function Rows(ps: seq<(real, real)>, i: nat, sqrt: real -> real): seq<Segment>
    requires i <= |ps|
  {
    if i == 0 then [] else Rows(ps, i - 1, sqrt) + Row(ps, i - 1, |ps|, sqrt)
  }

  /** All lines of a frame, in the order the nested scan emits them. */
  function Connections(ps: seq<(real, real)>, sqrt: real -> real): seq<Segment>
  {
    Rows(ps, |ps|, sqrt)
  }

  /** The code's test: the distance it takes for particles i and j is below LinkDistance. */
  predicate Near(ps: seq<(real, real)>, i: nat, j: nat, sqrt: real -> real)
    requires i < |ps| && j < |ps|
  {
    Distance(ps, i, j, sqrt) < LinkDistance
  }

  /** A line is for a pair i < j that passes the test and carries LineOpacity of their distance. */
  predicate Joins(ps: seq<(real, real)>, s: Segment, sqrt: real -> real) {
    && s.i < s.j < |ps|
    && Near(ps, s.i, s.j, sqrt)
    && s.opacity == LineOpacity(Distance(ps, s.i, s.j, sqrt))
  }

  /** s comes before t in the scan order: smaller first index, then smaller second index. */
  predicate Before(s: Segment, t: Segment) {
    s.i < t.i || (s.i == t.i && s.j < t.j)
  }

  /** The code's `distance < 120` on the root is the comparison of squares. */
  lemma RootBelowLink(sqrt: real -> real, v: real)
    requires IsSqrt(sqrt) && 0.0 <= v
    ensures sqrt(v) < LinkDistance <==> v < LinkDistance * LinkDistance
    ensures 0.0 <= sqrt(v)
  {
    RootOf(sqrt, v);
    SquareMonotone(sqrt(v), LinkDistance);
  }

  lemma LinkSound(ps: seq<(real, real)>, i: nat, j: nat, sqrt: real -> real)
    requires i < j < |ps|
    ensures forall s :: s in Link(ps, i, j, sqrt) ==> Joins(ps, s, sqrt) && s.i == i && s.j == j
    ensures Near(ps, i, j, sqrt) ==> Link(ps, i, j, sqrt) == [Segment(i, j, LineOpacity(Distance(ps, i, j, sqrt)))]
  {
  }

  /** Row (i, j) holds lines only for pairs (i, k), i < k < j, that pass the test. */
  lemma {:induction false} RowSound(ps: seq<(real, real)>, i: nat, j: nat, sqrt: real -> real)
    requires i < |ps| && j <= |ps|
    ensures forall s :: s in Row(ps, i, j, sqrt) ==> Joins(ps, s, sqrt) && s.i == i && s.j < j
    decreases j
  {
    if j > i + 1 {
      var front, last := Row(ps, i, j - 1, sqrt), Link(ps, i, j - 1, sqrt);
      RowSound(ps, i, j - 1, sqrt);
      LinkSound(ps, i, j - 1, sqrt);
      forall s | s in front + last
        ensures Joins(ps, s, sqrt) && s.i == i && s.j < j
      {
        if s in front {
        } else {
          assert s in last;
        }
      }
    }
  }

  /** Row (i, j) lists its lines in increasing second index. */
  lemma {:induction false} RowOrdered(ps: seq<(real, real)>, i: nat, j: nat, sqrt: real -> real)
    requires i < |ps| && j <= |ps|
    ensures forall a, b :: 0 <= a < b < |Row(ps, i, j, sqrt)| ==>
              Row(ps, i, j, sqrt)[a].j < Row(ps, i, j, sqrt)[b].j
    decreases j
  {
    if j > i + 1 {
      var front: seq<Segment>, last: seq<Segment> := Row(ps, i, j - 1, sqrt), Link(ps, i, j - 1, sqrt);
      RowOrdered(ps, i, j - 1, sqrt);
      RowSound(ps, i, j - 1, sqrt);
      LinkSound(ps, i, j - 1, sqrt);
      forall a, b | 0 <= a < b < |front + last|
        ensures (front + last)[a].j < (front + last)[b].j
      {
        assert (front + last)[a] == front[a];
        if b < |front| {
          assert (front + last)[b] == front[b];
        } else {
          assert front[a] in front && (front + last)[b] == last[0];
        }
      }
    }
  }

  /** Every pair (i, k) with i < k < j that passes the test has its line in Row (i, j). */
  lemma {:induction false} RowComplete(ps: seq<(real, real)>, i: nat, j: nat, k: nat, sqrt: real -> real)
    requires i < k < j <= |ps| && Near(ps, i, k, sqrt)
    ensures Segment(i, k, LineOpacity(Distance(ps, i, k, sqrt))) in Row(ps, i, j, sqrt)
    decreases j
  {
    var line := Segment(i, k, LineOpacity(Distance(ps, i, k, sqrt)));
    if k == j - 1 {
      LinkSound(ps, i, k, sqrt);
      InConcatRight(Row(ps, i, j - 1, sqrt), Link(ps, i, j - 1, sqrt), line);
    } else {
      RowComplete(ps, i, j - 1, k, sqrt);
      InConcatLeft(Row(ps, i, j - 1, sqrt), Link(ps, i, j - 1, sqrt), line);
    }
  }

  /** The rows below i hold lines only for pairs that pass the test. */
  lemma {:induction false} RowsSound(ps: seq<(real, real)>, i: nat, sqrt: real -> real)
    requires i <= |ps|
    ensures forall s :: s in Rows(ps, i, sqrt) ==> Joins(ps, s, sqrt) && s.i < i
  {
    if i > 0 {
      var front, back := Rows(ps, i - 1, sqrt), Row(ps, i - 1, |ps|, sqrt);
      RowsSound(ps, i - 1, sqrt);
      RowSound(ps, i - 1, |ps|, sqrt);
      forall s | s in front + back
        ensures Joins(ps, s, sqrt) && s.i < i
      {
        if s in front {
        } else {
          assert s in back;
        }
      }
    }
  }

  /** The rows below i list their lines in scan order, so no pair twice. */
  lemma {:induction false} RowsOrdered(ps: seq<(real, real)>, i: nat, sqrt: real -> real)
    requires i <= |ps|
    ensures forall a, b :: 0 <= a < b < |Rows(ps, i, sqrt)| ==>
              Before(Rows(ps, i, sqrt)[a], Rows(ps, i, sqrt)[b])
  {
    if i > 0 {
      var front, back := Rows(ps, i - 1, sqrt), Row(ps, i - 1, |ps|, sqrt);
      RowsOrdered(ps, i - 1, sqrt);
      RowOrdered(ps, i - 1, |ps|, sqrt);
      RowsSound(ps, i - 1, sqrt);
      RowSound(ps, i - 1, |ps|, sqrt);
      forall a, b | 0 <= a < b < |front + back|
        ensures Before((front + back)[a], (front + back)[b])
      {
        if b < |front| {
          assert (front + back)[a] == front[a] && (front + back)[b] == front[b];
        } else if a < |front| {
          assert (front + back)[a] == front[a] && (front + back)[b] == back[b - |front|];
          assert front[a] in front && back[b - |front|] in back;
        } else {
          assert (front + back)[a] == back[a - |front|] && (front + back)[b] == back[b - |front|];
        }
      }
    }
  }

  /** Every pair (k, l) with k < i and k < l that passes the test has its line in the rows below i. */
  lemma {:induction false} RowsComplete(ps: seq<(real, real)>, i: nat, k: nat, l: nat, sqrt: real -> real)
    requires k < i <= |ps| && k < l < |ps| && Near(ps, k, l, sqrt)
    ensures Segment(k, l, LineOpacity(Distance(ps, k, l, sqrt))) in Rows(ps, i, sqrt)
  {
    var line := Segment(k, l, LineOpacity(Distance(ps, k, l, sqrt)));
    var front, back := Rows(ps, i - 1, sqrt), Row(ps, i - 1, |ps|, sqrt);
    if k == i - 1 {
      RowComplete(ps, k, |ps|, l, sqrt);
      InConcatRight(front, back, line);
    } else {
      RowsComplete(ps, i - 1, k, l, sqrt);
      InConcatLeft(front, back, line);
    }
  }

  lemma InConcatLeft<T>(a: seq<T>, b: seq<T>, x: T)
    requires x in a
    ensures x in a + b
  {
    var n :| 0 <= n < |a| && a[n] == x;
    assert (a + b)[n] == x;
  }

  lemma InConcatRight<T>(a: seq<T>, b: seq<T>, x: T)
    requires x in b
    ensures x in a + b
  {
    var n :| 0 <= n < |b| && b[n] == x;
    assert (a + b)[|a| + n] == x;
  }

  /**
   * The lines of a frame: a line is drawn between particles i < j exactly
   * when they are closer than 120, with alpha (1 - d / 120) * 0.3 in
   * (0, 0.3]; the scan emits each pair at most once, in increasing (i, j).
   */
  lemma ConnectionsExact(ps: seq<(real, real)>, sqrt: real -> real)
    requires IsSqrt(sqrt)
    ensures forall s :: s in Connections(ps, sqrt) ==>
              && s.i < s.j < |ps| && Close(ps, s.i, s.j)
              && s.opacity == LineOpacity(Distance(ps, s.i, s.j, sqrt))
              && 0.0 < s.opacity <= LinkAlpha
    ensures forall i: nat, j: nat :: i < j < |ps| && Close(ps, i, j) ==>
              Segment(i, j, LineOpacity(Distance(ps, i, j, sqrt))) in Connections(ps, sqrt)
    ensures forall a, b :: 0 <= a < b < |Connections(ps, sqrt)| ==>
              Before(Connections(ps, sqrt)[a], Connections(ps, sqrt)[b])
  {
    RowsSound(ps, |ps|, sqrt);
    RowsOrdered(ps, |ps|, sqrt);
    forall s | s in Connections(ps, sqrt)
      ensures Close(ps, s.i, s.j) && 0.0 < s.opacity <= LinkAlpha
    {
      NearIsClose(ps, s.i, s.j, sqrt);
    }
    forall i: nat, j: nat | i < j < |ps| && Close(ps, i, j)
      ensures Segment(i, j, LineOpacity(Distance(ps, i, j, sqrt))) in Connections(ps, sqrt)
    {
      NearIsClose(ps, i, j, sqrt);
      RowsComplete(ps, |ps|, i, j, sqrt);
    }
  }

  /** With the exact root, the code's test on the distance is the comparison of squared distances. */
  lemma NearIsClose(ps: seq<(real, real)>, i: nat, j: nat, sqrt: real -> real)
    requires IsSqrt(sqrt) && i < |ps| && j < |ps|
    ensures Near(ps, i, j, sqrt) <==> Close(ps, i, j)
    ensures 0.0 <= Distance(ps, i, j, sqrt)
  {
    SquareSumNonNegative(ps[i].0 - ps[j].0, ps[i].1 - ps[j].1);
    RootBelowLink(sqrt, Gap2(ps, i, j));
  }

  /** Because the scan order is strict, no pair of particles is joined twice. */
  lemma ConnectionsUnique(ps: seq<(real, real)>, sqrt: real -> real, a: nat, b: nat)
    requires IsSqrt(sqrt) && a < b < |Connections(ps, sqrt)|
    ensures (Connections(ps, sqrt)[a].i, Connections(ps, sqrt)[a].j)
         != (Connections(ps, sqrt)[b].i, Connections(ps, sqrt)[b].j)
  {
    ConnectionsExact(ps, sqrt);
  }

  /**
   * The body of the inner loop for particles i and j at offset (dx, dy)
   * between their positions: the line it strokes, if any, is the pair's Link.
   */
  method PairLine(i: nat, j: nat, dx: real, dy: real, sqrt: real -> real, ghost ps: seq<(real, real)>)
    returns (line: seq<Segment>)
    requires i < |ps| && j < |ps| && dx == ps[i].0 - ps[j].0 && dy == ps[i].1 - ps[j].1
    ensures line == Link(ps, i, j, sqrt)
  {
    var distance := sqrt(dx * dx + dy * dy);
    assert dx * dx + dy * dy == Gap2(ps, i, j);
    line := [];
    if distance < 120.0 {
      var opacity := (1.0 - distance / 120.0) * 0.3;
      line := [Segment(i, j, opacity)];
    }
  }

  /** A row grows by the Link of its next pair. */
  lemma RowGrows(ps: seq<(real, real)>, i: nat, j: nat, sqrt: real -> real)
    requires i < j < |ps|
    ensures Row(ps, i, j + 1, sqrt) == Row(ps, i, j, sqrt) + Link(ps, i, j, sqrt)
  {
  }

  /** The canvas positions of a sequence of particles. */
  function PositionsOf(particles: seq<Particle>): (ps: seq<(real, real)>)
    reads set p | p in particles
    ensures |ps| == |particles|
    ensures forall k :: 0 <= k < |ps| ==> ps[k] == (particles[k].x, particles[k].y)
  {
    if particles == [] then []
    else PositionsOf(particles[..|particles| - 1]) + [(particles[|particles| - 1].x, particles[|particles| - 1].y)]
  }

  /** The per-particle callback of the frame loop: update, then draw. */
  method UpdateAndDraw(particle: Particle, w: nat, h: nat, mouseX: real, mouseY: real, sqrt: real -> real)
    returns (disc: Disc)
    requires particle.Valid(w, h) && IsSqrt(sqrt)
    requires Landing(particle.State(), w, h) != (mouseX, mouseY)
    modifies particle
    ensures particle.Valid(w, h)
    ensures particle.size == old(particle.size) && particle.speedZ == old(particle.speedZ)
    ensures particle.color == old(particle.color)
    ensures particle.State() == Advance(old(particle.State()), old(particle.speedZ), w, h, mouseX, mouseY, sqrt)
    ensures disc == particle.Draw()
  {
    particle.Update(w, h, mouseX, mouseY, sqrt);
    disc := particle.Draw();
  }

  /**
   * The particle system: the particle list, the last pointer position and
   * the canvas size.
   */
  class ParticleField {
    var particles: seq<Particle>
    var mouseX: real
    var mouseY: real
    var width: nat
    var height: nat

    /**
     * The particle list matches the canvas: as many particles as the creation
     * loop makes for this size, all distinct objects, each one Valid.
     */
    ghost predicate Valid()
      reads this, set p | p in particles
    {
      && |particles| == ParticleCount(width, height)
      && (forall a, b :: 0 <= a < b < |particles| ==> particles[a] != particles[b])
      && (forall k :: 0 <= k < |particles| ==> particles[k].Valid(width, height))
    }

    /** Particle k holds what the constructor made of the draws `draws[k]`. */
    ghost predicate SpawnedFrom(draws: seq<Draws>)
      reads this, set p | p in particles
    {
      && |particles| <= |draws|
      && forall k :: 0 <= k < |particles| ==> particles[k].SpawnedFrom(width, height, draws[k])
    }

    /** Set-up: pointer at (0, 0), canvas sized to the window, particles created. */
    constructor (w: nat, h: nat, draws: seq<Draws>)
      requires |draws| >= ParticleCount(w, h)
      requires forall k :: 0 <= k < |draws| ==> draws[k].InUnit()
      ensures width == w && height == h && mouseX == 0.0 && mouseY == 0.0
      ensures Valid() && SpawnedFrom(draws)
      ensures forall k :: 0 <= k < |particles| ==> fresh(particles[k])
    {
      particles := [];
      mouseX, mouseY := 0.0, 0.0;
      width, height := w, h;
      new;
      InitParticles(draws);
    }

    /** The canvas takes the new window size and the particles are made afresh. */
    method ResizeCanvas(w: nat, h: nat, draws: seq<Draws>)
      requires |draws| >= ParticleCount(w, h)
      requires forall k :: 0 <= k < |draws| ==> draws[k].InUnit()
      modifies this
      ensures width == w && height == h && mouseX == old(mouseX) && mouseY == old(mouseY)
      ensures Valid() && SpawnedFrom(draws)
      ensures forall k :: 0 <= k < |particles| ==> fresh(particles[k])
    {
      width, height := w, h;
      InitParticles(draws);
    }

    /**
     * Replaces the particle list by new particles made from the draws, one per
     * turn of a loop that runs while its counter is below CountBound.
     */
    method InitParticles(draws: seq<Draws>)
      requires |draws| >= ParticleCount(width, height)
      requires forall k :: 0 <= k < |draws| ==> draws[k].InUnit()
      modifies this
      ensures width == old(width) && height == old(height)
      ensures mouseX == old(mouseX) && mouseY == old(mouseY)
      ensures Valid() && SpawnedFrom(draws)
      ensures forall k :: 0 <= k < |particles| ==> fresh(particles[k])
    {
      particles := [];
      var particleCount := CountBound(width, height);
      CountIsCeiling(width, height);
      var i := 0;
      while (i as real) < particleCount
        invariant width == old(width) && height == old(height)
        invariant mouseX == old(mouseX) && mouseY == old(mouseY)
        invariant 0 <= i <= ParticleCount(width, height)
        invariant |particles| == i
        invariant forall k :: 0 <= k < i ==> fresh(particles[k])
        invariant forall a, b :: 0 <= a < b < i ==> particles[a] != particles[b]
        invariant forall k :: 0 <= k < i ==>
                    particles[k].SpawnedFrom(width, height, draws[k]) && particles[k].Valid(width, height)
        decreases ParticleCount(width, height) - i
      {
        var p := new Particle(width, height, draws[i]);
        particles := particles + [p];
        i := i + 1;
      }
    }

    /** The pointer listener records the pointer's client coordinates. */
    method MouseMove(clientX: real, clientY: real)
      modifies this
      ensures mouseX == clientX && mouseY == clientY
      ensures particles == old(particles) && width == old(width) && height == old(height)
    {
      mouseX := clientX;
      mouseY := clientY;
    }

    /**
     * The connecting lines of the current frame, by the nested scan over
     * pairs i < j.
     */
    method DrawConnections(sqrt: real -> real) returns (segs: seq<Segment>)
      ensures segs == Connections(PositionsOf(particles), sqrt)
    {
      ghost var ps := PositionsOf(particles);
      segs := [];
      var i := 0;
      while i < |particles|
        invariant 0 <= i <= |particles| == |ps|
        invariant segs == Rows(ps, i, sqrt)
      {
        var row := RowFrom(i, sqrt, ps);
        segs := segs + row;
        i := i + 1;
      }
    }

    /** The inner loop of the scan: the lines from particle i to the particles after it. */
    method RowFrom(i: nat, sqrt: real -> real, ghost ps: seq<(real, real)>) returns (row: seq<Segment>)
      requires i < |particles| && ps == PositionsOf(particles)
      ensures row == Row(ps, i, |ps|, sqrt)
    {
      var list := particles;
      row := [];
      var j := i + 1;
      while j < |list|
        invariant i + 1 <= j <= |list| == |ps|
        invariant row == Row(ps, i, j, sqrt)
      {
        var dx := list[i].x - list[j].x;
        var dy := list[i].y - list[j].y;
        assert ps[i] == (list[i].x, list[i].y) && ps[j] == (list[j].x, list[j].y);
        var line := PairLine(i, j, dx, dy, sqrt, ps);
        RowGrows(ps, i, j, sqrt);
        row := row + line;
        j := j + 1;
      }
    }

    /**
     * One animation frame: every particle in list order is updated and then
     * drawn; the connecting lines come last. Returns what is drawn.
     */
    method Animate(sqrt: real -> real) returns (discs: seq<Disc>, segs: seq<Segment>)
      requires Valid() && IsSqrt(sqrt)
      requires forall k :: 0 <= k < |particles| ==>
                 Landing(particles[k].State(), width, height) != (mouseX, mouseY)
      modifies set p | p in particles
      ensures Valid()
      ensures forall k :: 0 <= k < |particles| ==>
                && particles[k].size == old(particles[k].size)
                && particles[k].speedZ == old(particles[k].speedZ)
                && particles[k].color == old(particles[k].color)
      ensures forall k :: 0 <= k < |particles| ==>
                particles[k].State()
                  == Advance(old(particles[k].State()), old(particles[k].speedZ), width, height, mouseX, mouseY, sqrt)
      ensures |discs| == |particles|
      ensures forall k :: 0 <= k < |particles| ==> discs[k] == particles[k].Draw()
      ensures segs == Connections(PositionsOf(particles), sqrt)
    {
      discs := UpdateParticles(sqrt);
      segs := DrawConnections(sqrt);
    }

    /** The `forEach` of the frame: update and draw each particle in list order. */
    method UpdateParticles(sqrt: real -> real) returns (discs: seq<Disc>)
      requires Valid() && IsSqrt(sqrt)
      requires forall k :: 0 <= k < |particles| ==>
                 Landing(particles[k].State(), width, height) != (mouseX, mouseY)
      modifies set p | p in particles
      ensures Valid()
      ensures forall k :: 0 <= k < |particles| ==>
                && particles[k].size == old(particles[k].size)
                && particles[k].speedZ == old(particles[k].speedZ)
                && particles[k].color == old(particles[k].color)
      ensures forall k :: 0 <= k < |particles| ==>
                particles[k].State()
                  == Advance(old(particles[k].State()), old(particles[k].speedZ), width, height, mouseX, mouseY, sqrt)
      ensures |discs| == |particles|
      ensures forall k :: 0 <= k < |particles| ==> discs[k] == particles[k].Draw()
    {
      var list, w, h, mx, my := particles, width, height, mouseX, mouseY;
      discs := [];
      var i := 0;
      while i < |list|
        invariant 0 <= i <= |list| && |discs| == i
        invariant forall a, b :: 0 <= a < b < |list| ==> list[a] != list[b]
        invariant forall k :: 0 <= k < |list| ==> list[k].Valid(w, h)
        invariant forall k :: 0 <= k < i ==>
                    && list[k].size == old(list[k].size) && list[k].speedZ == old(list[k].speedZ)
                    && list[k].color == old(list[k].color)
                    && list[k].State() == Advance(old(list[k].State()), old(list[k].speedZ), w, h, mx, my, sqrt)
                    && discs[k] == list[k].Draw()
        invariant forall k :: i <= k < |list| ==> unchanged(list[k])
      {
        var disc := UpdateAndDraw(list[i], w, h, mx, my, sqrt);
        discs := discs + [disc];
        i := i + 1;
      }
    }
  }
}
