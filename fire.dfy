/**
 * The Hero section's fire effect: a buffer of at most 100 embers on a 300x100
 * canvas. Each frame pushes at most one new ember, then a backward loop steps
 * every ember and splices out those whose life has run out.
 */
module Fire {
  import opened Draw
  import opened Buffers

  const CanvasWidth: real := 300.0
  const CanvasHeight: real := 100.0
  const MaxParticles: nat := 100
  /** Life lost per frame. */
  const Decay: real := 0.01

  datatype Particle = Particle(x: real, y: real, vx: real, vy: real, life: real)

  /** The four `Math.random()` draws `createParticle` makes. */
  datatype SpawnDraw = SpawnDraw(rx: Unit, rvx: Unit, rvy: Unit, rlife: Unit)

  /** `createParticle`: a new ember on the bottom edge, drifting sideways and rising. */
  function CreateParticle(d: SpawnDraw): (p: Particle)
    ensures p.y == CanvasHeight
    ensures 0.0 <= p.x < CanvasWidth
    ensures -1.0 <= p.vx < 1.0
    ensures -4.0 < p.vy <= -1.0
    ensures 0.5 <= p.life < 1.0
  {
    Particle(d.rx * CanvasWidth, CanvasHeight, (d.rvx - 0.5) * 2.0, -(d.rvy as real) * 3.0 - 1.0, d.rlife * 0.5 + 0.5)
  }

  /** One frame's update of one ember: `x += vx; y += vy; life -= 0.01`. */
  function Advance(p: Particle): Particle
  {
    p.(x := p.x + p.vx, y := p.y + p.vy, life := p.life - Decay)
  }

  /** An ember the loop keeps: only its life matters, never its position. */
  predicate Alive(p: Particle)
  {
    p.life > 0.0
  }

  /** The buffer after the spawn step: one push while below the cap. */
  function Spawned(ps: seq<Particle>, d: SpawnDraw): seq<Particle>
  {
    if |ps| < MaxParticles then ps + [CreateParticle(d)] else ps
  }

  /** The buffer after one whole frame. */
  function Frame(ps: seq<Particle>, d: SpawnDraw): seq<Particle>
  {
    Kept(Mapped(Spawned(ps, d), Advance), Alive)
  }

  /**
   * A frame never takes the buffer above 100 embers, adds at most one, and
   * leaves no ember whose life has reached 0; every survivor is the one-step
   * update of an ember present at the start of the loop.
   */
  lemma FrameBounds(ps: seq<Particle>, d: SpawnDraw)
    requires |ps| <= MaxParticles
    ensures |Frame(ps, d)| <= MaxParticles && |Frame(ps, d)| <= |ps| + 1
    ensures forall q :: q in Frame(ps, d) ==> q.life > 0.0
    ensures forall q :: q in Frame(ps, d) ==> exists k :: 0 <= k < |Spawned(ps, d)| && q == Advance(Spawned(ps, d)[k])
  {
    var m := Mapped(Spawned(ps, d), Advance);
    KeptMembers(m, Alive);
    forall q | q in Frame(ps, d)
      ensures exists k :: 0 <= k < |Spawned(ps, d)| && q == Advance(Spawned(ps, d)[k])
    {
      assert q in m;
      var k :| 0 <= k < |m| && m[k] == q;
    }
  }

  /** There is no position-based culling: an ember whose life stays positive survives wherever it is. */
  lemma NoPositionCulling(ps: seq<Particle>, d: SpawnDraw, p: Particle)
    requires p in Spawned(ps, d) && Advance(p).life > 0.0
    ensures Advance(p) in Frame(ps, d)
  {
    var s := Spawned(ps, d);
    var k :| 0 <= k < |s| && s[k] == p;
    assert Mapped(s, Advance)[k] == Advance(p);
    KeptMembers(Mapped(s, Advance), Alive);
  }

  /** An ember after `k` frames. */
  function Aged(p: Particle, k: nat): Particle
  {
    if k == 0 then p else Advance(Aged(p, k - 1))
  }

  /** After `k` frames an ember has lost exactly `k` hundredths of its life. */
  lemma {:induction false} AgedLife(p: Particle, k: nat)
    ensures Aged(p, k).life == p.life - k as real * Decay
  {
    if k > 0 {
      AgedLife(p, k - 1);
    }
  }

  /** No ember survives 100 updates: its spawn life is below 1.0. */
  lemma DeadWithinHundredFrames(d: SpawnDraw, k: nat)
    requires k >= 100
    ensures !Alive(Aged(CreateParticle(d), k))
  {
    AgedLife(CreateParticle(d), k);
  }

  /** The buffer invariant: at most 100 embers, each with life in (0, 1). */
  predicate Bounded(ps: seq<Particle>)
  {
    |ps| <= MaxParticles && forall p :: p in ps ==> 0.0 < p.life < 1.0
  }

  /** A frame preserves the buffer invariant. */
  lemma FramePreservesBounds(ps: seq<Particle>, d: SpawnDraw)
    requires Bounded(ps)
    ensures Bounded(Frame(ps, d))
  {
    FrameBounds(ps, d);
    var s := Spawned(ps, d);
    forall q | q in Frame(ps, d) ensures q.life < 1.0 {
      var k :| 0 <= k < |s| && q == Advance(s[k]);
      assert s[k] in s;
    }
  }

  /** The fire effect's particle array. */
  class FireEffect {
    var particles: seq<Particle>

    ghost predicate Valid()
      reads this
    {
      Bounded(particles)
    }

    constructor ()
      ensures Valid() && particles == []
    {
      particles := [];
    }

    /** One call of `animate`, minus the drawing. */
    method Animate(d: SpawnDraw)
      requires Valid()
      modifies this
      ensures Valid()
      ensures particles == Frame(old(particles), d)
    {
      if |particles| < MaxParticles {
        particles := particles + [CreateParticle(d)];
      }
      ghost var start := particles;
      assert start[..|start|] == start && start[|start|..] == [];
      for i := |particles| downto 0
        invariant particles == start[..i] + Kept(Mapped(start[i..], Advance), Alive)
      {
        PassStep(start, i, particles, Advance, Alive);
        var p := particles[i];
        p := p.(x := p.x + p.vx, y := p.y + p.vy, life := p.life - Decay);
        particles := particles[i := p];
        if p.life <= 0.0 {
          particles := particles[..i] + particles[i + 1..];
        }
      }
      assert start[0..] == start;
      FramePreservesBounds(old(particles), d);
    }
  }
}
