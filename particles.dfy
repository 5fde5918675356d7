/** The particle effects: `Particle.update_particle` ages, moves and fades one
    particle; `ParticleSystem` batches updates behind a 1/60 s accumulator
    and spawns bursts. The random angle, speed, size and lifetime of a new
    particle are parameters (`Draw`) whose ranges are those the source draws
    from; the trigonometry that turns an angle and a speed into a velocity is
    replaced by a bound on the velocity's length. */
module Particles {

  const DRAG: real := 0.95
  const PULL: real := 0.5
  const FRAMES_PER_SECOND: real := 60.0
  const UPDATE_INTERVAL: real := 1.0 / 60.0
  const MAX_ALPHA: int := 255

  /** What `update_particle` reads and writes. */
  datatype ParticleState = ParticleState(x: real, y: real, vx: real, vy: real,
                                         age: real, lifetime: real, alpha: int, size: nat)

  /** Python's `int()` on a float: truncation toward zero. */
  function Trunc(r: real): (n: int)
    ensures r >= 0.0 ==> n == r.Floor
    ensures r >= 0.0 ==> n as real <= r < n as real + 1.0
    ensures r < 0.0 ==> n as real - 1.0 < r <= n as real
  {
    if r >= 0.0 then r.Floor else -((-r).Floor)
  }

  /** The alpha of a particle of the given age: a linear fade from opaque at
      birth to transparent at the end of its lifetime. */
  function AlphaAt(age: real, lifetime: real): int
    requires lifetime > 0.0
  {
    Trunc(MAX_ALPHA as real * (1.0 - age / lifetime))
  }

  predicate Expired(p: ParticleState) {
    p.age >= p.lifetime
  }

  /** A particle still in a list: positive lifetime, age in [0, lifetime),
      alpha in [0, 255]. */
  predicate Live(p: ParticleState) {
    && p.lifetime > 0.0
    && 0.0 <= p.age < p.lifetime
    && 0 <= p.alpha <= MAX_ALPHA
  }

  predicate AllLive(ps: seq<ParticleState>) {
    forall i :: 0 <= i < |ps| ==> Live(ps[i])
  }

  /** No particle in the list has more than `bound` seconds left. */
  predicate LifeLeftAtMost(ps: seq<ParticleState>, bound: real) {
    forall i :: 0 <= i < |ps| ==> ps[i].lifetime - ps[i].age <= bound
  }

  /** `update_particle(dt)`: age; a particle that has reached its lifetime
      only ages (it is removed), a live one slows by DRAG, is pulled down by
      PULL, moves by its velocity scaled to 60 frames per second and fades. */
  function Advance(p: ParticleState, dt: real): ParticleState
    requires p.lifetime > 0.0
  {
    var aged := p.(age := p.age + dt);
    if Expired(aged) then aged else Faded(Moved(Dragged(aged), dt))
  }

  /** Air drag on both axes, then the pull of gravity. */
  function Dragged(p: ParticleState): ParticleState {
    p.(vx := p.vx * DRAG, vy := p.vy * DRAG - PULL)
  }

  /** Movement by the velocity, scaled to 60 frames per second. */
  function Moved(p: ParticleState, dt: real): ParticleState {
    p.(x := p.x + p.vx * dt * FRAMES_PER_SECOND, y := p.y + p.vy * dt * FRAMES_PER_SECOND)
  }

  function Faded(p: ParticleState): ParticleState
    requires p.lifetime > 0.0
  {
    p.(alpha := AlphaAt(p.age, p.lifetime))
  }

  /** A fade value is always a valid alpha while the particle lives. */
  lemma AlphaInRange(age: real, lifetime: real)
    requires lifetime > 0.0 && 0.0 <= age < lifetime
    ensures 0 <= AlphaAt(age, lifetime) <= MAX_ALPHA
  {
    var q := age / lifetime;
    assert q * lifetime == age;
    assert q < 1.0 by {
      if q >= 1.0 {
        MulMonotone(1.0, q, lifetime);
      }
    }
  }

  lemma MulMonotone(a: real, b: real, c: real)
    requires a <= b && c >= 0.0
    ensures a * c <= b * c
  {
  }

  lemma MulStrict(a: real, b: real, c: real)
    requires a < b && c > 0.0
    ensures a * c < b * c
  {
  }

  /** Older particles are never more opaque. */
  lemma AlphaFades(a1: real, a2: real, lifetime: real)
    requires lifetime > 0.0 && 0.0 <= a1 <= a2 < lifetime
    ensures AlphaAt(a2, lifetime) <= AlphaAt(a1, lifetime)
  {
    AlphaInRange(a1, lifetime);
    AlphaInRange(a2, lifetime);
    DivMonotone(a1, a2, lifetime);
  }

  lemma DivMonotone(a: real, b: real, c: real)
    requires a <= b && c > 0.0
    ensures a / c <= b / c
  {
    var qa, qb := a / c, b / c;
    assert qa * c == a && qb * c == b;
    if qb < qa {
      MulStrict(qb, qa, c);
    }
  }

  /** One update removes a particle exactly when its new age reaches its
      lifetime; otherwise the particle stays live, one `dt` older. */
  lemma AdvanceLive(p: ParticleState, dt: real)
    requires Live(p) && dt >= 0.0
    ensures Advance(p, dt).age == p.age + dt && Advance(p, dt).lifetime == p.lifetime
    ensures Expired(Advance(p, dt)) <==> p.age + dt >= p.lifetime
    ensures !Expired(Advance(p, dt)) ==> Live(Advance(p, dt))
  {
    if p.age + dt < p.lifetime {
      AlphaInRange(p.age + dt, p.lifetime);
    }
  }

  /** The particles left after one batch, in list order, each advanced once. */
  function AdvanceAll(ps: seq<ParticleState>, dt: real): seq<ParticleState>
    requires AllLive(ps)
  {
    if ps == [] then []
    else
      var last := ps[|ps| - 1];
      assert Live(last);
      var a := Advance(last, dt);
      AdvanceAll(ps[..|ps| - 1], dt) + (if Expired(a) then [] else [a])
  }

  /** One more particle in the list adds its own outcome at the end. */
  lemma AdvanceAllStep(ps: seq<ParticleState>, i: nat, dt: real)
    requires AllLive(ps) && i < |ps|
    ensures var a := Advance(ps[i], dt);
            AdvanceAll(ps[..i + 1], dt) == AdvanceAll(ps[..i], dt) + (if Expired(a) then [] else [a])
  {
    assert ps[..i + 1][..i] == ps[..i];
  }

  /** A batch keeps every remaining particle live and takes `dt` off each
      particle's remaining life. */
  lemma {:induction false} AdvanceAllLive(ps: seq<ParticleState>, dt: real, bound: real)
    requires AllLive(ps) && LifeLeftAtMost(ps, bound)
    requires dt >= 0.0
    ensures |AdvanceAll(ps, dt)| <= |ps|
    ensures AllLive(AdvanceAll(ps, dt))
    ensures LifeLeftAtMost(AdvanceAll(ps, dt), bound - dt)
  {
    if ps != [] {
      var last := ps[|ps| - 1];
      AdvanceAllLive(ps[..|ps| - 1], dt, bound);
      AdvanceLive(last, dt);
    }
  }

  /** Successive batches, one per accumulated time in `accs`. */
  function Batches(ps: seq<ParticleState>, accs: seq<real>): seq<ParticleState>
    requires AllLive(ps)
    requires forall k :: 0 <= k < |accs| ==> accs[k] >= 0.0
    decreases |accs|
  {
    if accs == [] then ps
    else
      AdvanceAllLive(ps, accs[0], MaxRemaining(ps));
      Batches(AdvanceAll(ps, accs[0]), accs[1..])
  }

  function Total(accs: seq<real>): real {
    if accs == [] then 0.0 else accs[0] + Total(accs[1..])
  }

  /** The longest remaining life in a list (0 for the empty list). */
  function MaxRemaining(ps: seq<ParticleState>): (m: real)
    ensures m >= 0.0
    ensures LifeLeftAtMost(ps, m)
  {
    if ps == [] then 0.0
    else
      var rest := MaxRemaining(ps[..|ps| - 1]);
      var r := ps[|ps| - 1].lifetime - ps[|ps| - 1].age;
      if r > rest then r else rest
  }

  lemma FirstHasLifeLeft(ps: seq<ParticleState>)
    requires AllLive(ps)
    ensures |ps| > 0 ==> ps[0].lifetime - ps[0].age > 0.0
  {
  }

  /** No particle lives forever: once the batches add up to the longest
      remaining life, the list is empty. */
  lemma {:induction false} AllExpire(ps: seq<ParticleState>, accs: seq<real>, bound: real)
    requires AllLive(ps) && LifeLeftAtMost(ps, bound)
    requires forall k :: 0 <= k < |accs| ==> accs[k] >= 0.0
    requires Total(accs) >= bound
    ensures Batches(ps, accs) == []
    decreases |accs|
  {
    if accs == [] {
      FirstHasLifeLeft(ps);
    } else {
      AdvanceAllLive(ps, accs[0], bound);
      AllExpire(AdvanceAll(ps, accs[0]), accs[1..], bound - accs[0]);
    }
  }

  /** An explosion is gone once one and a half seconds of batches have run:
      no explosion particle lives longer. */
  lemma ExplosionClears(x: real, y: real, draws: seq<Draw>, accs: seq<real>)
    requires forall k :: 0 <= k < |draws| ==> ExplosionDraw(draws[k])
    requires forall k :: 0 <= k < |accs| ==> accs[k] >= 0.0
    requires Total(accs) >= 1.5
    ensures AllLive(BornAll(x, y, draws))
    ensures Batches(BornAll(x, y, draws), accs) == []
  {
    AllExpire(BornAll(x, y, draws), accs, 1.5);
  }

  /** The random choices behind one new particle. */
  datatype Draw = Draw(size: nat, lifetime: real, vx: real, vy: real)

  /** A velocity of length between 10 and 30, as `cos(angle) * speed`,
      `sin(angle) * speed` with speed drawn from [10, 30]. */
  predicate RandomVelocity(d: Draw) {
    100.0 <= d.vx * d.vx + d.vy * d.vy <= 900.0
  }

  /** `create_explosion`: size from 2..5, lifetime from [0.5, 1.5]. */
  predicate ExplosionDraw(d: Draw) {
    2 <= d.size <= 5 && 0.5 <= d.lifetime <= 1.5 && RandomVelocity(d)
  }

  /** `create_sparkle`: size from 1..3, lifetime from [0.3, 0.8]. */
  predicate SparkleDraw(d: Draw) {
    1 <= d.size <= 3 && 0.3 <= d.lifetime <= 0.8 && RandomVelocity(d)
  }

  /** The state of a particle born at (`x`, `y`) from a draw. */
  function Born(x: real, y: real, d: Draw): ParticleState {
    ParticleState(x, y, d.vx, d.vy, 0.0, d.lifetime, MAX_ALPHA, d.size)
  }

  class Particle {
    var centerX: real
    var centerY: real
    var velocityX: real
    var velocityY: real
    var age: real
    var alpha: int
    const lifetime: real
    const size: nat

    function State(): ParticleState
      reads this
    {
      ParticleState(centerX, centerY, velocityX, velocityY, age, lifetime, alpha, size)
    }

    /** A new particle: opaque, age 0. */
    constructor (x: real, y: real, d: Draw)
      ensures State() == Born(x, y, d)
    {
      centerX, centerY := x, y;
      velocityX, velocityY := d.vx, d.vy;
      age, alpha := 0.0, MAX_ALPHA;
      lifetime, size := d.lifetime, d.size;
    }

    /** One update; `removed` reports that the particle has reached its
        lifetime and leaves its list. */
    method UpdateParticle(dt: real) returns (removed: bool)
      requires lifetime > 0.0
      modifies this
      ensures State() == Advance(old(State()), dt)
      ensures removed <==> Expired(State())
    {
      age := age + dt;
      if age >= lifetime {
        return true;
      }
      ghost var aged := State();
      velocityX := velocityX * DRAG;
      velocityY := velocityY * DRAG;
      velocityY := velocityY - PULL;
      ghost var dragged := State();
      assert dragged == Dragged(aged);
      centerX := centerX + velocityX * dt * FRAMES_PER_SECOND;
      centerY := centerY + velocityY * dt * FRAMES_PER_SECOND;
      assert State() == Moved(dragged, dt);
      alpha := AlphaAt(age, lifetime);
      return false;
    }
  }

  /** The states of a list of particles, in list order. */
  ghost function StatesOf(ps: seq<Particle>): (r: seq<ParticleState>)
    reads ps
    ensures |r| == |ps|
    ensures forall i :: 0 <= i < |ps| ==> r[i] == ps[i].State()
  {
    seq(|ps|, i reads ps requires 0 <= i < |ps| => ps[i].State())
  }

  /** The list of states is the states of the listed particles. */
  lemma StatesOfIs(ps: seq<Particle>, states: seq<ParticleState>)
    requires |states| == |ps|
    requires forall i :: 0 <= i < |ps| ==> ps[i].State() == states[i]
    ensures StatesOf(ps) == states
  {
  }

  /** What `ParticleSystem` holds: the states of its particles, in list
      order, and the time accumulated since the last batch. */
  datatype SystemState = SystemState(states: seq<ParticleState>, timer: real)

  /** One call of `ParticleSystem.update`: below one interval only the
      accumulator grows; otherwise every particle is advanced by the whole
      accumulated time, the expired ones are dropped and the accumulator
      restarts. */
  function UpdateModel(m: SystemState, dt: real): SystemState
    requires AllLive(m.states)
  {
    var acc := m.timer + dt;
    if acc >= UPDATE_INTERVAL then SystemState(AdvanceAll(m.states, acc), 0.0)
    else m.(timer := acc)
  }

  predicate DistinctParticles(ps: seq<Particle>) {
    forall i, j :: 0 <= i < j < |ps| ==> ps[i] != ps[j]
  }

  class ParticleSystem {
    var particles: seq<Particle>
    var timeSinceLastUpdate: real

    /** Distinct live particles and an accumulator below one interval. */
    ghost predicate Valid()
      reads this, particles
    {
      && DistinctParticles(particles)
      && AllLive(StatesOf(particles))
      && 0.0 <= timeSinceLastUpdate < UPDATE_INTERVAL
    }

    constructor ()
      ensures Valid() && particles == [] && timeSinceLastUpdate == 0.0
    {
      particles, timeSinceLastUpdate := [], 0.0;
    }

    /** The particles' states and the accumulator. */
    ghost function Model(): SystemState
      reads this, particles
    {
      SystemState(StatesOf(particles), timeSinceLastUpdate)
    }

    /** Accumulate `dt`; once a full interval has built up, update every
        particle once with the accumulated time, drop the expired ones and
        reset the accumulator. No particle is created. */
    method Update(dt: real)
      requires Valid() && dt >= 0.0
      modifies this, particles
      ensures Valid()
      ensures forall p :: p in particles ==> p in old(particles)
      ensures Model() == UpdateModel(old(Model()), dt)
      ensures old(timeSinceLastUpdate) + dt < UPDATE_INTERVAL ==> particles == old(particles)
    {
      ghost var before := Model();
      timeSinceLastUpdate := timeSinceLastUpdate + dt;
      if timeSinceLastUpdate >= UPDATE_INTERVAL {
        assert UpdateModel(before, dt) == SystemState(AdvanceAll(before.states, timeSinceLastUpdate), 0.0);
        particles := UpdateBatch(particles, StatesOf(particles), timeSinceLastUpdate);
        timeSinceLastUpdate := 0.0;
      } else {
        assert UpdateModel(before, dt) == before.(timer := timeSinceLastUpdate);
      }
    }

    /** `create_explosion`: one particle per draw at (`x`, `y`), appended. */
    method CreateExplosion(x: real, y: real, draws: seq<Draw>)
      requires Valid()
      requires forall k :: 0 <= k < |draws| ==> ExplosionDraw(draws[k])
      modifies this
      ensures Valid()
      ensures |particles| == old(|particles|) + |draws|
      ensures particles[..old(|particles|)] == old(particles)
      ensures StatesOf(particles) == old(StatesOf(particles)) + BornAll(x, y, draws)
      ensures forall k :: old(|particles|) <= k < |particles| ==> fresh(particles[k])
      ensures timeSinceLastUpdate == old(timeSinceLastUpdate)
    {
      Burst(x, y, draws);
    }

    /** `create_sparkle`: one particle per draw at (`x`, `y`), appended. */
    method CreateSparkle(x: real, y: real, draws: seq<Draw>)
      requires Valid()
      requires forall k :: 0 <= k < |draws| ==> SparkleDraw(draws[k])
      modifies this
      ensures Valid()
      ensures |particles| == old(|particles|) + |draws|
      ensures particles[..old(|particles|)] == old(particles)
      ensures StatesOf(particles) == old(StatesOf(particles)) + BornAll(x, y, draws)
      ensures forall k :: old(|particles|) <= k < |particles| ==> fresh(particles[k])
      ensures timeSinceLastUpdate == old(timeSinceLastUpdate)
    {
      Burst(x, y, draws);
    }

    /** The shared body of the two bursts: the new particles are appended
        after the existing ones. */
    method Burst(x: real, y: real, draws: seq<Draw>)
      requires Valid()
      requires forall k :: 0 <= k < |draws| ==> draws[k].lifetime > 0.0
      modifies this
      ensures Valid()
      ensures |particles| == old(|particles|) + |draws|
      ensures particles[..old(|particles|)] == old(particles)
      ensures StatesOf(particles) == old(StatesOf(particles)) + BornAll(x, y, draws)
      ensures forall k :: old(|particles|) <= k < |particles| ==> fresh(particles[k])
      ensures timeSinceLastUpdate == old(timeSinceLastUpdate)
    {
      var born := Spawn(x, y, draws);
      BornAllLive(x, y, draws);
      Append(born, BornAll(x, y, draws));
    }

    /** Append particles that are not yet in the list. */
    method Append(born: seq<Particle>, ghost bornStates: seq<ParticleState>)
      requires Valid()
      requires DistinctParticles(born) && StatesOf(born) == bornStates && AllLive(bornStates)
      requires forall i, j :: 0 <= i < |particles| && 0 <= j < |born| ==> particles[i] != born[j]
      modifies this`particles
      ensures Valid()
      ensures particles == old(particles) + born
      ensures StatesOf(particles) == old(StatesOf(particles)) + bornStates
    {
      ghost var list := particles;
      ghost var states := StatesOf(list);
      particles := particles + born;
      assert StatesOf(list) == states;
      StatesOfAppend(list, born);
      AllLiveAppend(states, bornStates);
      DistinctAppend(list, born);
    }
  }

  /** New particles, one per draw, in draw order. */
  method Spawn(x: real, y: real, draws: seq<Draw>) returns (born: seq<Particle>)
    requires forall k :: 0 <= k < |draws| ==> draws[k].lifetime > 0.0
    ensures |born| == |draws|
    ensures forall k :: 0 <= k < |born| ==> fresh(born[k])
    ensures DistinctParticles(born)
    ensures StatesOf(born) == BornAll(x, y, draws)
  {
    born := [];
    var k := 0;
    while k < |draws|
      invariant 0 <= k <= |draws| && |born| == k
      invariant forall j :: 0 <= j < k ==> fresh(born[j])
      invariant DistinctParticles(born)
      invariant forall j :: 0 <= j < k ==> born[j].State() == Born(x, y, draws[j])
    {
      var p := new Particle(x, y, draws[k]);
      born := born + [p];
      k := k + 1;
    }
    StatesOfIs(born, BornAll(x, y, draws));
  }

  lemma StatesOfAppend(a: seq<Particle>, b: seq<Particle>)
    ensures StatesOf(a + b) == StatesOf(a) + StatesOf(b)
  {
  }

  lemma DistinctAppend(a: seq<Particle>, b: seq<Particle>)
    requires DistinctParticles(a) && DistinctParticles(b)
    requires forall i, j :: 0 <= i < |a| && 0 <= j < |b| ==> a[i] != b[j]
    ensures DistinctParticles(a + b)
  {
  }

  lemma AllLiveAppend(a: seq<ParticleState>, b: seq<ParticleState>)
    requires AllLive(a) && AllLive(b)
    ensures AllLive(a + b)
  {
  }

  lemma BornAllLive(x: real, y: real, draws: seq<Draw>)
    requires forall k :: 0 <= k < |draws| ==> draws[k].lifetime > 0.0
    ensures AllLive(BornAll(x, y, draws))
  {
  }

  /** The batch loop of `ParticleSystem.update`: each particle updated once
      with the accumulated time, in list order; the expired ones are dropped. */
  method UpdateBatch(ps: seq<Particle>, ghost before: seq<ParticleState>, acc: real) returns (kept: seq<Particle>)
    requires DistinctParticles(ps) && acc >= 0.0
    requires StatesOf(ps) == before && AllLive(before)
    modifies ps
    ensures DistinctParticles(kept)
    ensures forall q :: q in kept ==> q in ps
    ensures StatesOf(kept) == AdvanceAll(before, acc)
    ensures AllLive(StatesOf(kept))
  {
    ghost var keptStates: seq<ParticleState> := [];
    kept := [];
    ghost var done: set<Particle> := {};
    var i := 0;
    while i < |ps|
      invariant 0 <= i <= |ps|
      invariant forall j :: i <= j < |ps| ==> ps[j].State() == before[j]
      invariant forall j :: i <= j < |ps| ==> ps[j] !in done
      invariant forall q :: q in done ==> q in ps
      invariant forall k :: 0 <= k < |kept| ==> kept[k] in done
      invariant DistinctParticles(kept)
      invariant |keptStates| == |kept|
      invariant forall k :: 0 <= k < |kept| ==> kept[k].State() == keptStates[k]
      invariant keptStates == AdvanceAll(before[..i], acc)
    {
      AdvanceAllStep(before, i, acc);
      var p := ps[i];
      var removed := p.UpdateParticle(acc);
      if !removed {
        kept := kept + [p];
        keptStates := keptStates + [p.State()];
      }
      done := done + {p};
      i := i + 1;
    }
    assert before[..i] == before;
    AdvanceAllLive(before, acc, MaxRemaining(before));
    StatesOfIs(kept, keptStates);
  }

  /** The states of particles born at (`x`, `y`), one per draw. */
  function BornAll(x: real, y: real, draws: seq<Draw>): (r: seq<ParticleState>)
    ensures |r| == |draws|
    ensures forall k :: 0 <= k < |draws| ==> r[k] == Born(x, y, draws[k])
  {
    if draws == [] then [] else BornAll(x, y, draws[..|draws| - 1]) + [Born(x, y, draws[|draws| - 1])]
  }
}
