/**
  The particle record and the rules that concern one particle at a time:
  how many particles a viewport gets, how a particle is built from random
  numbers, and how it moves and bounces off the canvas edges in one frame.
  Numbers are exact reals; the canvas size is a whole number of pixels.
 */
module Physics {

  /** One simulated point: position and velocity (pixels per frame) in canvas
      coordinates, and a radius fixed when the particle is created. */
  datatype Particle = Particle(x: real, y: real, vx: real, vy: real, radius: real)

  /** The population never exceeds this many particles. */
  const MaxParticles: nat := 80

  /** One particle per this many pixels of viewport width. */
  const PixelsPerParticle: nat := 20

  /** Each particle consumes this many random numbers. */
  const DrawsPerParticle: nat := 5

  function Min(a: nat, b: nat): nat
  {
    if a <= b then a else b
  }

  /** min(80, floor(innerWidth / 20)): the largest n that is at most 80 and
      fits n * 20 into the viewport width. */
  function ParticleCount(innerWidth: nat): (n: nat)
    ensures n <= MaxParticles
    ensures n * PixelsPerParticle <= innerWidth
    ensures n == MaxParticles || innerWidth < (n + 1) * PixelsPerParticle
  {
    Min(MaxParticles, innerWidth / PixelsPerParticle)
  }

  lemma ParticleCountExamples()
    ensures ParticleCount(400) == 20
    ensures ParticleCount(1600) == 80
    ensures ParticleCount(1920) == 80
    ensures ParticleCount(19) == 0
  {
  }

  /** A number in [0, 1), as the random source delivers. */
  predicate IsUnit(r: real)
  {
    0.0 <= r < 1.0
  }

  predicate AllUnit(rand: seq<real>)
  {
    forall k :: 0 <= k < |rand| ==> IsUnit(rand[k])
  }

  /** The bounds every freshly created particle lies in.  On a canvas of
      height 0 every particle sits at y = 0, so the strict upper bound is
      only claimed for a positive extent. */
  predicate InitialBounds(p: Particle, width: nat, height: nat)
  {
    && 0.0 <= p.x <= width as real && (width > 0 ==> p.x < width as real)
    && 0.0 <= p.y <= height as real && (height > 0 ==> p.y < height as real)
    && -0.25 <= p.vx < 0.25
    && -0.25 <= p.vy < 0.25
    && 1.0 <= p.radius < 3.0
  }

  /** A draw in [0, 1) scaled by a canvas extent lands in [0, extent). */
  lemma ScaleBelow(r: real, extent: nat)
    ensures IsUnit(r) ==> 0.0 <= r * extent as real <= extent as real
    ensures IsUnit(r) && extent > 0 ==> r * extent as real < extent as real
  {
  }

  /** The particle made from five random numbers, taken in the order in
      which the object literal draws them: x, y, vx, vy, radius. */
  function Spawn(rx: real, ry: real, rvx: real, rvy: real, rr: real, width: nat, height: nat): (p: Particle)
    ensures IsUnit(rx) && IsUnit(ry) && IsUnit(rvx) && IsUnit(rvy) && IsUnit(rr) ==>
              InitialBounds(p, width, height)
  {
    ScaleBelow(rx, width);
    ScaleBelow(ry, height);
    Particle(rx * width as real, ry * height as real, (rvx - 0.5) * 0.5, (rvy - 0.5) * 0.5, rr * 2.0 + 1.0)
  }

  /** The k-th particle of an initialisation: it uses draws 5k .. 5k+4. */
  function SpawnAt(rand: seq<real>, k: nat, width: nat, height: nat): Particle
    requires DrawsPerParticle * (k + 1) <= |rand|
  {
    var b := DrawsPerParticle * k;
    Spawn(rand[b], rand[b + 1], rand[b + 2], rand[b + 3], rand[b + 4], width, height)
  }

  /** The list after `count` pushes onto an empty list. */
  function SpawnAll(rand: seq<real>, count: nat, width: nat, height: nat): (ps: seq<Particle>)
    requires DrawsPerParticle * count <= |rand|
    ensures |ps| == count
    ensures forall k :: 0 <= k < count ==> ps[k] == SpawnAt(rand, k, width, height)
  {
    if count == 0 then [] else SpawnAll(rand, count - 1, width, height) + [SpawnAt(rand, count - 1, width, height)]
  }

  /** With random numbers in [0, 1), every particle of an initialisation
      lies within the initial bounds. */
  lemma SpawnAllBounds(rand: seq<real>, count: nat, width: nat, height: nat)
    requires DrawsPerParticle * count <= |rand|
    requires AllUnit(rand)
    ensures forall p :: p in SpawnAll(rand, count, width, height) ==> InitialBounds(p, width, height)
  {
    var ps := SpawnAll(rand, count, width, height);
    forall p | p in ps
      ensures InitialBounds(p, width, height)
    {
      var k :| 0 <= k < |ps| && ps[k] == p;
      var b := DrawsPerParticle * k;
      assert IsUnit(rand[b]) && IsUnit(rand[b + 1]) && IsUnit(rand[b + 2]) && IsUnit(rand[b + 3]) && IsUnit(rand[b + 4]);
    }
  }

  /** The bounce test: a coordinate outside [0, extent]. */
  predicate Outside(pos: real, extent: nat)
  {
    pos < 0.0 || pos > extent as real
  }

  /** One particle's update in a frame: move by the velocity, then negate a
      velocity component whose new coordinate is outside the canvas. */
  function StepParticle(p: Particle, width: nat, height: nat): Particle
  {
    var x := p.x + p.vx;
    var y := p.y + p.vy;
    Particle(x, y,
             if Outside(x, width) then p.vx * -1.0 else p.vx,
             if Outside(y, height) then p.vy * -1.0 else p.vy,
             p.radius)
  }

  function Abs(r: real): real
  {
    if r < 0.0 then -r else r
  }

  /** The position advances by the old velocity, the radius stays, each
      velocity component keeps its magnitude and is negated exactly when the
      new coordinate is outside the canvas. */
  lemma StepParticleRules(p: Particle, width: nat, height: nat)
    ensures var q := StepParticle(p, width, height);
      && q.x == p.x + p.vx && q.y == p.y + p.vy
      && q.radius == p.radius
      && Abs(q.vx) == Abs(p.vx) && Abs(q.vy) == Abs(p.vy)
      && (q.vx == -p.vx || q.vx == p.vx) && (q.vy == -p.vy || q.vy == p.vy)
      && (Outside(q.x, width) ==> q.vx == -p.vx)
      && (!Outside(q.x, width) ==> q.vx == p.vx)
      && (Outside(q.y, height) ==> q.vy == -p.vy)
      && (!Outside(q.y, height) ==> q.vy == p.vy)
  {
  }

  /** One coordinate is either inside [0, extent], or it has just left the
      range, its velocity is already turned back and the next move brings it
      inside again. */
  predicate AxisContained(pos: real, v: real, extent: nat)
  {
    || (0.0 <= pos <= extent as real)
    || (pos < 0.0 && v > 0.0 && !Outside(pos + v, extent))
    || (pos > extent as real && v < 0.0 && !Outside(pos + v, extent))
  }

  predicate Contained(p: Particle, width: nat, height: nat)
  {
    AxisContained(p.x, p.vx, width) && AxisContained(p.y, p.vy, height)
  }

  predicate AllContained(ps: seq<Particle>, width: nat, height: nat)
  {
    forall k :: 0 <= k < |ps| ==> Contained(ps[k], width, height)
  }

  lemma InitialBoundsContained(p: Particle, width: nat, height: nat)
    requires InitialBounds(p, width, height)
    ensures Contained(p, width, height)
  {
  }

  /** A contained particle stays contained: on a canvas whose size does not
      change, a particle is never more than one frame outside it. */
  lemma StepPreservesContained(p: Particle, width: nat, height: nat)
    requires Contained(p, width, height)
    ensures Contained(StepParticle(p, width, height), width, height)
  {
  }

  /** A particle inside the canvas whose move carries it across an edge
      bounces exactly once: the next frame brings it back to where it was and
      does not negate its velocity again. */
  lemma BounceOnce(p: Particle, width: nat, height: nat)
    requires 0.0 <= p.x <= width as real
    requires Outside(p.x + p.vx, width)
    ensures var q := StepParticle(p, width, height);
      var r := StepParticle(q, width, height);
      && q.vx == -p.vx
      && r.x == p.x && !Outside(r.x, width)
      && r.vx == q.vx
  {
  }

  /** A particle further outside than one frame's move (after the canvas
      shrank under it) never gets back: it flips every frame and alternates
      between two positions outside the canvas. */
  lemma Stranded(p: Particle, width: nat, height: nat)
    requires p.x - Abs(p.vx) > width as real
    ensures var q := StepParticle(p, width, height);
      var r := StepParticle(q, width, height);
      && Outside(q.x, width) && q.vx == -p.vx
      && r.x == p.x && r.vx == p.vx
  {
  }
}
