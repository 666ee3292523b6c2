/**
  The animated particle field behind the hero heading (`ParticleBackground`
  in src/components/HeroSection.tsx): creation of the field from random
  draws, one animation step with boundary reflection and wrap-around, and
  the proximity lines drawn between nearby particles.

  Coordinates are exact reals. `Math.random()` is an input sequence of draws
  in [0, 1) and `window.innerWidth` / `window.innerHeight` are the
  parameters `W` and `H`.
*/
module ParticleField {

  /** One point of the field.  `size` and `opacity` are fixed at creation. */
  datatype Particle = Particle(x: real, y: real, size: real, vx: real, vy: real, opacity: real)

  /** Number of particles the field is created with. */
  const ParticleCount: nat := 50

  /** `Math.random()` is called six times per particle: x, y, size, vx, vy, opacity. */
  const DrawsPerParticle: nat := 6

  /** Two particles are joined by a line when closer than this. */
  const ConnectionDistance: real := 100.0

  // ---------------------------------------------------------------------
  // Creation
  // ---------------------------------------------------------------------

  /** A value `Math.random()` can return. */
  predicate IsDraw(r: real) {
    0.0 <= r < 1.0
  }

  predicate AllDraws(ds: seq<real>) {
    forall i :: 0 <= i < |ds| ==> IsDraw(ds[i])
  }

  /** The ranges a freshly created particle lies in, for a viewport `W` by `H`. */
  predicate CreatedInRange(p: Particle, W: real, H: real) {
    && 0.0 <= p.x <= W && (W > 0.0 ==> p.x < W)
    && 0.0 <= p.y <= H && (H > 0.0 ==> p.y < H)
    && 1.0 <= p.size < 5.0
    && -0.25 <= p.vx < 0.25
    && -0.25 <= p.vy < 0.25
    && 0.1 <= p.opacity < 0.6
  }

  /** A draw scaled by a non-negative bound stays in [0, bound], and below it when it is positive. */
  lemma ScaledDraw(r: real, bound: real)
    requires IsDraw(r) && bound >= 0.0
    ensures 0.0 <= r * bound <= bound
    ensures bound > 0.0 ==> r * bound < bound
  {
  }

  /** The particle made from six consecutive draws. */
  function FromDraws(ds: seq<real>, W: real, H: real): (p: Particle)
    requires |ds| == DrawsPerParticle && AllDraws(ds)
    requires W >= 0.0 && H >= 0.0
    ensures CreatedInRange(p, W, H)
  {
    ScaledDraw(ds[0], W);
    ScaledDraw(ds[1], H);
    Particle(ds[0] * W, ds[1] * H, ds[2] * 4.0 + 1.0,
             (ds[3] - 0.5) * 0.5, (ds[4] - 0.5) * 0.5, ds[5] * 0.5 + 0.1)
  }

  /**
    The creation loop: pushes `ParticleCount` particles, consuming the draws
    in the order the object literal calls `Math.random()`.
  */
  method CreateParticles(draws: seq<real>, W: real, H: real) returns (ps: seq<Particle>)
    requires |draws| == DrawsPerParticle * ParticleCount && AllDraws(draws)
    requires W >= 0.0 && H >= 0.0
    ensures |ps| == ParticleCount
    ensures forall i :: 0 <= i < |ps| ==>
      ps[i] == FromDraws(draws[DrawsPerParticle * i..DrawsPerParticle * i + DrawsPerParticle], W, H)
    ensures forall i :: 0 <= i < |ps| ==> CreatedInRange(ps[i], W, H)
  {
    ps := [];
    var next := 0;
    for i := 0 to ParticleCount
      invariant |ps| == i
      invariant next == DrawsPerParticle * i
      invariant forall j :: 0 <= j < i ==>
        ps[j] == FromDraws(draws[DrawsPerParticle * j..DrawsPerParticle * j + DrawsPerParticle], W, H)
    {
      var x := draws[next] * W;
      var y := draws[next + 1] * H;
      var size := draws[next + 2] * 4.0 + 1.0;
      var vx := (draws[next + 3] - 0.5) * 0.5;
      var vy := (draws[next + 4] - 0.5) * 0.5;
      var opacity := draws[next + 5] * 0.5 + 0.1;
      next := next + DrawsPerParticle;
      ghost var ds := draws[next - DrawsPerParticle..next];
      assert ds[0] == draws[next - 6] && ds[1] == draws[next - 5] && ds[2] == draws[next - 4];
      assert ds[3] == draws[next - 3] && ds[4] == draws[next - 2] && ds[5] == draws[next - 1];
      ps := ps + [Particle(x, y, size, vx, vy, opacity)];
    }
  }

  // ---------------------------------------------------------------------
  // One animation step
  // ---------------------------------------------------------------------

  /** The position and velocity of a particle along one axis after a step. */
  datatype Axis = Axis(pos: real, vel: real)

  /**
    One axis of the step: the tentative coordinate `pos + vel` is kept when it
    lies in [0, bound]; otherwise the velocity is reversed and the coordinate
    jumps to the opposite edge.
  */
  function AxisStep(pos: real, vel: real, bound: real): (a: Axis)
    ensures bound >= 0.0 ==> 0.0 <= a.pos <= bound
    ensures pos + vel < 0.0 || pos + vel > bound ==> a.vel == -vel
    ensures 0.0 <= pos + vel <= bound ==> a.vel == vel && a.pos == pos + vel
    ensures pos + vel < 0.0 ==> a.pos == bound
    ensures 0.0 <= pos + vel && bound < pos + vel ==> a.pos == 0.0
  {
    var t := pos + vel;
    if t < 0.0 then Axis(bound, -vel)
    else if t > bound then Axis(0.0, -vel)
    else Axis(t, vel)
  }

  predicate InBounds(p: Particle, W: real, H: real) {
    0.0 <= p.x <= W && 0.0 <= p.y <= H
  }

  /** The particle after one step; only x, y, vx and vy change. */
  function Stepped(p: Particle, W: real, H: real): (q: Particle)
    ensures W >= 0.0 && H >= 0.0 ==> InBounds(q, W, H)
    ensures q.size == p.size && q.opacity == p.opacity
    ensures Axis(q.x, q.vx) == AxisStep(p.x, p.vx, W)
    ensures Axis(q.y, q.vy) == AxisStep(p.y, p.vy, H)
  {
    var ax := AxisStep(p.x, p.vx, W);
    var ay := AxisStep(p.y, p.vy, H);
    p.(x := ax.pos, vx := ax.vel, y := ay.pos, vy := ay.vel)
  }

  /**
    `animateParticles`: every particle, in order, takes its tentative
    position, reverses a velocity component whose tentative coordinate left
    the viewport, and then wraps that coordinate to the opposite edge.
  */
  method Step(particles: array<Particle>, W: real, H: real)
    requires W >= 0.0 && H >= 0.0
    modifies particles
    ensures forall i :: 0 <= i < particles.Length ==> particles[i] == Stepped(old(particles[i]), W, H)
    ensures forall i :: 0 <= i < particles.Length ==> InBounds(particles[i], W, H)
  {
    for i := 0 to particles.Length
      invariant forall j :: 0 <= j < i ==> particles[j] == Stepped(old(particles[j]), W, H)
      invariant forall j :: i <= j < particles.Length ==> particles[j] == old(particles[j])
    {
      var particle := particles[i];
      var x := particle.x + particle.vx;
      var y := particle.y + particle.vy;
      var vx, vy := particle.vx, particle.vy;

      if x < 0.0 || x > W { vx := -vx; }
      if y < 0.0 || y > H { vy := -vy; }

      if x < 0.0 { x := W; }
      if x > W { x := 0.0; }
      if y < 0.0 { y := H; }
      if y > H { y := 0.0; }

      particles[i] := particle.(x := x, y := y, vx := vx, vy := vy);
    }
  }

  /** The scenario of a particle about to cross the right edge. */
  lemma RightEdgeScenario()
    ensures Stepped(Particle(799.0, 300.0, 2.0, 5.0, 0.0, 0.3), 800.0, 600.0)
         == Particle(0.0, 300.0, 2.0, -5.0, 0.0, 0.3)
  {
  }

  // ---------------------------------------------------------------------
  // Proximity lines
  // ---------------------------------------------------------------------

  /**
    A line between particles `from` and `to` (`from < to`), with the end
    points it is drawn between and the squared distance it was chosen by.
  */
  datatype Edge = Edge(from: nat, to: nat, x1: real, y1: real, x2: real, y2: real, distSq: real)

  function DistSq(p: Particle, q: Particle): (d: real)
    ensures d >= 0.0
  {
    (p.x - q.x) * (p.x - q.x) + (p.y - q.y) * (p.y - q.y)
  }

  /** Closer than `ConnectionDistance`, decided on the squared distance. */
  predicate Near(p: Particle, q: Particle) {
    DistSq(p, q) < ConnectionDistance * ConnectionDistance
  }

  /** The line the source draws for the pair (i, k). */
  function EdgeOf(ps: seq<Particle>, i: nat, k: nat): Edge
    requires i < |ps| && k < |ps|
  {
    Edge(i, k, ps[i].x, ps[i].y, ps[k].x, ps[k].y, DistSq(ps[i], ps[k]))
  }

  /** Lexicographic order on the index pairs of edges. */
  predicate PairBefore(e: Edge, f: Edge) {
    e.from < f.from || (e.from == f.from && e.to < f.to)
  }

  /** Strictly increasing pairs: in particular no pair occurs twice. */
  predicate Ordered(es: seq<Edge>) {
    forall a, b :: 0 <= a < b < |es| ==> PairBefore(es[a], es[b])
  }

  lemma OrderedConcat(xs: seq<Edge>, ys: seq<Edge>)
    requires Ordered(xs) && Ordered(ys)
    requires forall e, f :: e in xs && f in ys ==> PairBefore(e, f)
    ensures Ordered(xs + ys)
  {
  }

  /**
    The lines from particle `i` to the particles `k`, `k + 1`, ... of the
    field: `particles.slice(i + 1).map(...).filter(Boolean)` started at
    `k == i + 1`, where slice index `j` is particle `i + j + 1`.
  */
  function RowEdges(ps: seq<Particle>, i: nat, k: nat): (es: seq<Edge>)
    requires i < |ps| && k <= |ps|
    decreases |ps| - k
    ensures forall e :: e in es ==>
      e.from == i && k <= e.to < |ps| && e == EdgeOf(ps, i, e.to) && Near(ps[i], ps[e.to])
    ensures forall m :: k <= m < |ps| ==> (EdgeOf(ps, i, m) in es <==> Near(ps[i], ps[m]))
    ensures Ordered(es)
  {
    if k == |ps| then []
    else
      var head := if Near(ps[i], ps[k]) then [EdgeOf(ps, i, k)] else [];
      var rest := RowEdges(ps, i, k + 1);
      OrderedConcat(head, rest);
      head + rest
  }

  /** The lines of all rows `i`, `i + 1`, ... of the field. */
  function EdgesFrom(ps: seq<Particle>, i: nat): (es: seq<Edge>)
    requires i <= |ps|
    decreases |ps| - i
    ensures forall e :: e in es ==>
      i <= e.from < e.to < |ps| && e == EdgeOf(ps, e.from, e.to) && Near(ps[e.from], ps[e.to])
    ensures forall a, b :: i <= a < |ps| && 0 <= b < |ps| ==>
      (EdgeOf(ps, a, b) in es <==> a < b && Near(ps[a], ps[b]))
    ensures Ordered(es)
  {
    if i == |ps| then []
    else
      var row := RowEdges(ps, i, i + 1);
      var rest := EdgesFrom(ps, i + 1);
      OrderedConcat(row, rest);
      row + rest
  }

  /**
    All proximity lines of a field: a line for the pair (i, k) exactly when
    i < k and the two particles are closer than `ConnectionDistance`; each
    unordered pair once, in row order.
  */
  function Edges(ps: seq<Particle>): (es: seq<Edge>)
    ensures forall e :: e in es ==>
      e.from < e.to < |ps| && e == EdgeOf(ps, e.from, e.to) && Near(ps[e.from], ps[e.to])
    ensures forall i, k :: 0 <= i < |ps| && 0 <= k < |ps| ==>
      (EdgeOf(ps, i, k) in es <==> i < k && Near(ps[i], ps[k]))
    ensures Ordered(es)
  {
    EdgesFrom(ps, 0)
  }

  /** Deciding on squared distances is the same as deciding on distances. */
  lemma DistanceBelowThreshold(d: real, dsq: real)
    requires 0.0 <= d && d * d == dsq
    ensures d < ConnectionDistance <==> dsq < ConnectionDistance * ConnectionDistance
    ensures d == 0.0 <==> dsq == 0.0
  {
    if d > 0.0 {
      calc { dsq; == d * d; > 0.0 * d; == 0.0; }
    }
    if d < ConnectionDistance {
      calc {
        dsq;
        == d * d;
        <= d * ConnectionDistance;
        < ConnectionDistance * ConnectionDistance;
      }
    } else {
      calc {
        dsq;
        == d * d;
        >= ConnectionDistance * d;
        >= ConnectionDistance * ConnectionDistance;
      }
    }
  }

  /** The linear falloff of a line's opacity with the distance `d`. */
  function LineOpacity(d: real): (o: real)
    requires 0.0 <= d < ConnectionDistance
    ensures 0.0 < o <= 0.2
    ensures o == 0.2 <==> d == 0.0
  {
    0.2 * (1.0 - d / ConnectionDistance)
  }

  /** The opacity of a drawn line, where `d` is the distance (the square root of `e.distSq`). */
  ghost function EdgeOpacity(e: Edge, d: real): (o: real)
    requires e.distSq < ConnectionDistance * ConnectionDistance
    requires 0.0 <= d && d * d == e.distSq
    ensures 0.0 < o <= 0.2
    ensures o == 0.2 <==> e.distSq == 0.0
  {
    DistanceBelowThreshold(d, e.distSq);
    LineOpacity(d)
  }

  /** Every line of a field has an opacity in (0, 0.2]. */
  lemma EdgesOpacityRange(ps: seq<Particle>, e: Edge, d: real)
    requires e in Edges(ps)
    requires 0.0 <= d && d * d == e.distSq
    ensures 0.0 < EdgeOpacity(e, d) <= 0.2
  {
  }

  /** Two particles 50 apart are joined by exactly one line, of opacity 0.1. */
  lemma TwoParticleScenario()
    ensures var ps := [Particle(0.0, 0.0, 1.0, 0.0, 0.0, 0.5), Particle(50.0, 0.0, 1.0, 0.0, 0.0, 0.5)];
            Edges(ps) == [Edge(0, 1, 0.0, 0.0, 50.0, 0.0, 2500.0)]
            && EdgeOpacity(Edges(ps)[0], 50.0) == 0.1
  {
    var ps := [Particle(0.0, 0.0, 1.0, 0.0, 0.0, 0.5), Particle(50.0, 0.0, 1.0, 0.0, 0.0, 0.5)];
    assert RowEdges(ps, 1, 2) == [];
    assert RowEdges(ps, 0, 2) == [];
    assert RowEdges(ps, 0, 1) == [Edge(0, 1, 0.0, 0.0, 50.0, 0.0, 2500.0)];
    assert EdgesFrom(ps, 2) == [];
    assert EdgesFrom(ps, 1) == [];
  }
}
