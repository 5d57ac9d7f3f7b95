/**
  The particle field component: the canvas size, the particle list it owns
  and updates in place, and its lifecycle (mount, resize, frame, unmount).
  The random source and the square root are passed in; the host's event
  delivery is modelled by two flags, one for the registered resize listener
  and one for a requested animation frame.
 */
module Field {
  import opened Physics
  import opened Frame

  class ParticleField {
    /** The particle list, in the order frames visit it. */
    var particles: seq<Particle>
    /** The canvas size in pixels. */
    var width: nat
    var height: nat
    /** The window's resize listener is registered. */
    var listening: bool
    /** An animation frame is requested and not cancelled. */
    var framePending: bool

    /** Every particle is inside the canvas or one move away from it. */
    ghost predicate Settled()
      reads this
    {
      AllContained(particles, width, height)
    }

    /** Before mounting: no particles, and the canvas has the default size
        of an HTML canvas element, 300 by 150. */
    constructor ()
      ensures particles == [] && width == 300 && height == 150
      ensures !listening && !framePending
    {
      particles := [];
      width, height := 300, 150;
      listening, framePending := false, false;
    }

    /** The canvas takes the viewport's size.  The particles are kept as
        they are: none is created, removed or moved. */
    method Resize(innerWidth: nat, innerHeight: nat)
      modifies this
      ensures width == innerWidth && height == innerHeight
      ensures particles == old(particles)
      ensures listening == old(listening) && framePending == old(framePending)
    {
      width := innerWidth;
      height := innerHeight;
    }

    /** Empty the list, then push min(80, floor(innerWidth / 20)) particles
        drawn from `rand` and the current canvas size.  When every draw is
        in [0, 1), the new particles start inside the canvas. */
    method Init(innerWidth: nat, rand: seq<real>)
      requires DrawsPerParticle * ParticleCount(innerWidth) <= |rand|
      modifies this
      ensures particles == SpawnAll(rand, ParticleCount(innerWidth), width, height)
      ensures |particles| == ParticleCount(innerWidth)
      ensures width == old(width) && height == old(height)
      ensures listening == old(listening) && framePending == old(framePending)
      ensures AllUnit(rand) ==> forall p :: p in particles ==> InitialBounds(p, width, height)
      ensures AllUnit(rand) ==> Settled()
    {
      var particleCount := ParticleCount(innerWidth);
      particles := [];
      var i := 0;
      while i < particleCount
        invariant 0 <= i <= particleCount
        invariant particles == SpawnAll(rand, i, width, height)
        invariant width == old(width) && height == old(height)
        invariant listening == old(listening) && framePending == old(framePending)
      {
        var b := DrawsPerParticle * i;
        var particle := Particle(rand[b] * width as real,
                                 rand[b + 1] * height as real,
                                 (rand[b + 2] - 0.5) * 0.5,
                                 (rand[b + 3] - 0.5) * 0.5,
                                 rand[b + 4] * 2.0 + 1.0);
        assert particle == SpawnAt(rand, i, width, height);
        particles := particles + [particle];
        i := i + 1;
      }
      if AllUnit(rand) {
        SpawnAllBounds(rand, particleCount, width, height);
        forall k | 0 <= k < |particles|
          ensures Contained(particles[k], width, height)
        {
          assert particles[k] in particles;
          InitialBoundsContained(particles[k], width, height);
        }
      }
    }

    /** One frame: each particle in turn moves, bounces, is drawn, and is
        checked against the particles after it, which have not moved yet.
        Then the next frame is requested.  `checks` records the pairs
        compared, in order. */
    method Step(root: real -> real) returns (calls: seq<DrawCall>, ghost checks: seq<(nat, nat)>)
      modifies this
      ensures particles == StepAll(old(particles), width, height)
      ensures calls == FrameCalls(old(particles), width, height, root)
      ensures checks == Pairs(|particles|)
      ensures width == old(width) && height == old(height) && listening == old(listening)
      ensures framePending
      ensures old(Settled()) ==> Settled()
    {
      ghost var ps := particles;
      MovedEnds(ps, width, height);
      calls, checks := Sweep(ps, root);
      framePending := true;
      MovedEnds(ps, width, height);
      if old(Settled()) {
        StepAllPreservesContained(ps, width, height);
      }
    }

    /** The frame loop over the list ps, as the frame found it. */
    method Sweep(ghost ps: seq<Particle>, root: real -> real) returns (calls: seq<DrawCall>, ghost checks: seq<(nat, nat)>)
      requires Swept(ps, 0, [], [], root)
      modifies this
      ensures Swept(ps, |ps|, calls, checks, root)
      ensures width == old(width) && height == old(height)
      ensures listening == old(listening) && framePending == old(framePending)
    {
      var n := |particles|;
      calls, checks := [], [];
      var i := 0;
      while i < n
        invariant 0 <= i <= n == |ps|
        invariant Swept(ps, i, calls, checks, root)
        invariant width == old(width) && height == old(height)
        invariant listening == old(listening) && framePending == old(framePending)
      {
        calls, checks := Visit(ps, i, calls, checks, root);
        i := i + 1;
      }
    }

    /** After the first i particles of a frame that found the list ps: those
        have moved and the rest have not, and `calls` and `checks` hold the
        records and the pairs of the first i. */
    ghost predicate Swept(ps: seq<Particle>, i: nat, calls: seq<DrawCall>, checks: seq<(nat, nat)>, root: real -> real)
      reads this
    {
      && i <= |ps| == |particles|
      && particles == Moved(ps, i, width, height)
      && calls == FrameUpTo(ps, i, width, height, root)
      && checks == PairsUpTo(|ps|, i)
    }

    /** The body of the frame loop for particle i: move and bounce it in
        place, draw its circle, then check it against the particles after
        it, which have not moved yet. */
    method Visit(ghost ps: seq<Particle>, i: nat, calls: seq<DrawCall>, ghost checks: seq<(nat, nat)>, root: real -> real)
      returns (calls': seq<DrawCall>, ghost checks': seq<(nat, nat)>)
      requires i < |ps|
      requires Swept(ps, i, calls, checks, root)
      modifies this
      ensures Swept(ps, i + 1, calls', checks', root)
      ensures width == old(width) && height == old(height)
      ensures listening == old(listening) && framePending == old(framePending)
    {
      var particle := MoveAt(ps, i);
      var circle := Circle(i, particle.x, particle.y, particle.radius);
      var lines;
      ghost var checked;
      lines, checked := ConnectAt(ps, i, particle, root);
      PairsUpToAppend(|ps|, i, checks, checked);
      BlockOf(ps, i, width, height, root, circle, lines);
      calls' := calls + ([circle] + lines);
      checks' := checks + checked;
    }

    /** Particle i of the frame moves and bounces in place; the particles
        before it have already moved and those after it have not. */
    method MoveAt(ghost ps: seq<Particle>, i: nat) returns (particle: Particle)
      requires i < |ps| == |particles|
      requires particles == Moved(ps, i, width, height)
      modifies this
      ensures particle == StepParticle(ps[i], width, height)
      ensures particles == Moved(ps, i + 1, width, height)
      ensures particles[i + 1..] == ps[i + 1..]
      ensures width == old(width) && height == old(height)
      ensures listening == old(listening) && framePending == old(framePending)
    {
      MovedNext(ps, i, width, height);
      particle := Move(particles[i], width, height);
      particles := particles[i := particle];
    }

    /** The checks of moved particle i against the particles after it,
        which are still as the frame found them. */
    method ConnectAt(ghost ps: seq<Particle>, i: nat, particle: Particle, root: real -> real)
      returns (lines: seq<DrawCall>, ghost checked: seq<(nat, nat)>)
      requires i < |ps| == |particles|
      requires particles[i + 1..] == ps[i + 1..]
      ensures lines == Links(i, particle, ps, i + 1, |ps| - i - 1, root)
      ensures checked == Row(i, |ps| - i - 1)
    {
      var others := particles[i + 1..];
      lines, checked := Connect(i, particle, others, root);
      LinksSlice(i, particle, ps, i + 1, |ps| - i - 1, root);
    }

    /** The component's effect on mount.  Without a canvas or a 2D context
        nothing happens.  Otherwise the canvas is sized to the viewport, the
        resize listener is registered, the particles are generated and the
        first frame is drawn. */
    method Mount(hasCanvas: bool, hasContext: bool, innerWidth: nat, innerHeight: nat,
                 rand: seq<real>, root: real -> real) returns (calls: seq<DrawCall>)
      requires DrawsPerParticle * ParticleCount(innerWidth) <= |rand|
      modifies this
      ensures !(hasCanvas && hasContext) ==>
                && calls == []
                && particles == old(particles) && width == old(width) && height == old(height)
                && listening == old(listening) && framePending == old(framePending)
      ensures hasCanvas && hasContext ==>
                var spawned := SpawnAll(rand, ParticleCount(innerWidth), innerWidth, innerHeight);
                && width == innerWidth && height == innerHeight
                && listening && framePending
                && particles == StepAll(spawned, innerWidth, innerHeight)
                && calls == FrameCalls(spawned, innerWidth, innerHeight, root)
                && (AllUnit(rand) ==> Settled())
    {
      if !hasCanvas {
        return [];
      }
      if !hasContext {
        return [];
      }
      Resize(innerWidth, innerHeight);
      listening := true;
      Init(innerWidth, rand);
      ghost var checks;
      calls, checks := Step(root);
    }

    /** A resize event reaches the component only while its listener is
        registered. */
    method DeliverResize(innerWidth: nat, innerHeight: nat)
      modifies this
      ensures listening ==> width == innerWidth && height == innerHeight
      ensures !listening ==> width == old(width) && height == old(height)
      ensures particles == old(particles)
      ensures listening == old(listening) && framePending == old(framePending)
    {
      if listening {
        Resize(innerWidth, innerHeight);
      }
    }

    /** The host runs the requested frame, if there is one; with none
        pending nothing is drawn and nothing changes. */
    method DeliverFrame(root: real -> real) returns (calls: seq<DrawCall>)
      modifies this
      ensures !old(framePending) ==>
                calls == [] && particles == old(particles) && !framePending
      ensures old(framePending) ==>
                && particles == StepAll(old(particles), width, height)
                && calls == FrameCalls(old(particles), width, height, root)
                && framePending
      ensures width == old(width) && height == old(height) && listening == old(listening)
    {
      if !framePending {
        return [];
      }
      framePending := false;
      ghost var checks;
      calls, checks := Step(root);
    }

    /** Teardown: the resize listener is removed and the pending frame is
        cancelled, so no further resize or frame reaches the component. */
    method Unmount()
      modifies this
      ensures !listening && !framePending
      ensures particles == old(particles) && width == old(width) && height == old(height)
    {
      listening := false;
      if framePending {
        framePending := false;
      }
    }
  }

  /** One particle's update in a frame, in the order the component writes
      it: advance x and y by the velocity, then negate vx when the new x is
      outside [0, width] and vy when the new y is outside [0, height]. */
  method Move(p: Particle, width: nat, height: nat) returns (q: Particle)
    ensures q == StepParticle(p, width, height)
  {
    q := p;
    q := q.(x := q.x + q.vx);
    q := q.(y := q.y + q.vy);
    if q.x < 0.0 || q.x > width as real {
      q := q.(vx := q.vx * -1.0);
    }
    if q.y < 0.0 || q.y > height as real {
      q := q.(vy := q.vy * -1.0);
    }
  }

  /** The connection checks of particle i, already moved to `particle`,
      against the particles after it, `others`, the first of which is
      particle i + 1: a line record for each one closer than 150 pixels.
      `checked` records the pairs compared, in order. */
  method Connect(i: nat, particle: Particle, others: seq<Particle>, root: real -> real)
    returns (lines: seq<DrawCall>, ghost checked: seq<(nat, nat)>)
    ensures lines == Links(i, particle, others, 0, |others|, root)
    ensures checked == Row(i, |others|)
  {
    lines, checked := [], [];
    var k := 0;
    while k < |others|
      invariant 0 <= k <= |others|
      invariant lines == Links(i, particle, others, 0, k, root)
      invariant checked == Row(i, k)
    {
      var other := others[k];
      lines := lines + Link(i, i + 1 + k, particle, other, root);
      checked := checked + [(i, i + 1 + k)];
      k := k + 1;
    }
  }

  /** After teardown, a delivered frame draws nothing and a delivered resize
      changes nothing. */
  method UnmountStopsEverything(field: ParticleField, root: real -> real, innerWidth: nat, innerHeight: nat)
    returns (calls: seq<DrawCall>)
    modifies field
    ensures calls == []
    ensures !field.listening && !field.framePending
    ensures field.particles == old(field.particles)
    ensures field.width == old(field.width) && field.height == old(field.height)
  {
    field.Unmount();
    calls := field.DeliverFrame(root);
    field.DeliverResize(innerWidth, innerHeight);
  }
}
