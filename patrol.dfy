/** The patrolling enemies of the second level (`Enemy.update_ai`): a timer
    that flips the walking direction when it reaches a randomly drawn
    interval, a walking velocity, one physics step and an occasional hop.
    The random draws are parameters whose ranges are the ranges of the
    source's `random.uniform` and `random.random` calls. */
module Patrol {
  import opened Physics

  const MIN_INTERVAL: real := 1.0
  const MAX_INTERVAL: real := 3.0
  const HOP_CHANCE: real := 0.01
  const MIN_HOP: real := 3.0
  const MAX_HOP: real := 6.0

  /** The patrol state: walking direction, time since the last flip and the
      time the current direction lasts. */
  datatype PatrolState = PatrolState(direction: int, timer: real, interval: real)

  /** A direction of +1 or -1, an interval drawn from [1, 3), and a timer
      that has not yet reached it. */
  predicate PatrolValid(p: PatrolState) {
    && (p.direction == 1 || p.direction == -1)
    && MIN_INTERVAL <= p.interval < MAX_INTERVAL
    && 0.0 <= p.timer < p.interval
  }

  predicate IntervalDraw(r: real) {
    MIN_INTERVAL <= r < MAX_INTERVAL
  }

  /** The timer part of `update_ai`: accumulate, and on reaching the interval
      flip the direction, reset the timer and take a new interval. */
  function AdvancePatrol(p: PatrolState, dt: real, draw: real): PatrolState {
    var t := p.timer + dt;
    if t >= p.interval then PatrolState(-p.direction, 0.0, draw)
    else p.(timer := t)
  }

  /** One tick keeps the patrol valid, flips the direction at most once, and
      flips it exactly when the accumulated time reaches the interval. */
  lemma AdvanceKeepsPatrol(p: PatrolState, dt: real, draw: real)
    requires PatrolValid(p) && dt >= 0.0 && IntervalDraw(draw)
    ensures var r := AdvancePatrol(p, dt, draw);
            && PatrolValid(r)
            && (r.direction == p.direction || r.direction == -p.direction)
            && (r.direction == -p.direction <==> p.timer + dt >= p.interval)
            && (r.direction == p.direction ==> r.timer == p.timer + dt && r.interval == p.interval)
  {
  }

  /** Ticks of length `dt`, one interval draw each. */
  function PatrolRun(p: PatrolState, dt: real, draws: seq<real>): PatrolState {
    if draws == [] then p
    else AdvancePatrol(PatrolRun(p, dt, draws[..|draws| - 1]), dt, draws[|draws| - 1])
  }

  lemma {:induction false} PatrolRunValid(p: PatrolState, dt: real, draws: seq<real>)
    requires PatrolValid(p) && dt >= 0.0
    requires forall k :: 0 <= k < |draws| ==> IntervalDraw(draws[k])
    ensures PatrolValid(PatrolRun(p, dt, draws))
  {
    if draws != [] {
      PatrolRunValid(p, dt, draws[..|draws| - 1]);
    }
  }

  /** The walking direction after the first `k` ticks. */
  function DirectionAfter(p: PatrolState, dt: real, draws: seq<real>, k: nat): int
    requires k <= |draws|
  {
    PatrolRun(p, dt, draws[..k]).direction
  }

  /** The time `n` ticks of length `dt` add up to. */
  function Elapsed(n: nat, dt: real): (r: real)
  {
    if n == 0 then 0.0 else Elapsed(n - 1, dt) + dt
  }

  lemma {:induction false} ElapsedIsProduct(n: nat, dt: real)
    ensures Elapsed(n, dt) == n as real * dt
  {
    if n > 0 {
      ElapsedIsProduct(n - 1, dt);
    }
  }

  /** While the direction has not flipped, the timer is the time walked. */
  lemma {:induction false} PatrolRunWithoutFlip(p: PatrolState, dt: real, draws: seq<real>)
    requires PatrolValid(p) && dt >= 0.0
    requires forall k :: 0 <= k < |draws| ==> IntervalDraw(draws[k])
    requires forall k :: 0 <= k <= |draws| ==> DirectionAfter(p, dt, draws, k) == p.direction
    ensures PatrolRun(p, dt, draws).timer == p.timer + Elapsed(|draws|, dt)
  {
    if draws != [] {
      var n := |draws| - 1;
      var init := draws[..n];
      forall k | 0 <= k <= n
        ensures DirectionAfter(p, dt, init, k) == p.direction
      {
        assert init[..k] == draws[..k];
        assert DirectionAfter(p, dt, draws, k) == p.direction;
      }

      PatrolRunWithoutFlip(p, dt, init);
      PatrolRunValid(p, dt, init);
      assert PatrolRun(p, dt, init).direction == p.direction by {
        assert DirectionAfter(p, dt, draws, n) == p.direction;
      }
      assert PatrolRun(p, dt, draws).direction == p.direction by {
        assert draws[..n + 1] == draws;
        assert DirectionAfter(p, dt, draws, n + 1) == p.direction;
      }
      AdvanceKeepsPatrol(PatrolRun(p, dt, init), dt, draws[n]);
    }
  }

  /** An enemy never walks one way for three seconds or more: ticks adding up
      to at least MAX_INTERVAL contain a flip. */
  lemma FlipsWithinMaxInterval(p: PatrolState, dt: real, draws: seq<real>)
    requires PatrolValid(p) && dt >= 0.0
    requires forall k :: 0 <= k < |draws| ==> IntervalDraw(draws[k])
    requires |draws| as real * dt >= MAX_INTERVAL
    ensures exists k :: 0 <= k <= |draws| && DirectionAfter(p, dt, draws, k) != p.direction
  {
    WalkedBeforeFlip(p, dt, draws);
  }

  /** Without a flip, the ticks walked stay below MAX_INTERVAL. */
  lemma WalkedBeforeFlip(p: PatrolState, dt: real, draws: seq<real>)
    requires PatrolValid(p) && dt >= 0.0
    requires forall k :: 0 <= k < |draws| ==> IntervalDraw(draws[k])
    ensures (forall k :: 0 <= k <= |draws| ==> DirectionAfter(p, dt, draws, k) == p.direction) ==>
            p.timer + |draws| as real * dt < MAX_INTERVAL
  {
    if forall k :: 0 <= k <= |draws| ==> DirectionAfter(p, dt, draws, k) == p.direction {
      PatrolRunWithoutFlip(p, dt, draws);
      PatrolRunValid(p, dt, draws);
      ElapsedIsProduct(|draws|, dt);
    }
  }

  /** The body part of `update_ai`: walk at `speed` in the new direction, take
      a physics step, and hop with speed `hopDraw` when on the ground and the
      roll is below HOP_CHANCE. */
  function AiBody(b: Body, w: real, h: real, walk: real, hits: seq<Box>, hopRoll: real, hopDraw: real): Body {
    var s := Step(b.(vx := walk), w, h, hits);
    if s.onGround && hopRoll < HOP_CHANCE then s.(vy := hopDraw) else s
  }

  /** A hop only changes `vy`, only from the ground, and only on a low roll;
      with a hop drawn from [3, 6] both speeds stay within MAX_SPEED. */
  lemma AiBodyHop(b: Body, w: real, h: real, walk: real, hits: seq<Box>, hopRoll: real, hopDraw: real)
    requires MIN_HOP <= hopDraw <= MAX_HOP
    ensures var s := Step(b.(vx := walk), w, h, hits);
            var r := AiBody(b, w, h, walk, hits, hopRoll, hopDraw);
            && r.(vy := s.vy) == s
            && (r.vy != s.vy ==> s.onGround && hopRoll < HOP_CHANCE)
            && Abs(r.vx) <= MAX_SPEED && Abs(r.vy) <= MAX_SPEED
  {
    StepBounds(b.(vx := walk), w, h, hits);
  }

  /** With no wall in the way the enemy moves in its walking direction at the
      walking speed after friction. */
  lemma WalksFreely(b: Body, w: real, h: real, speed: real, direction: int, hopRoll: real, hopDraw: real)
    requires 0.0 <= speed <= MAX_SPEED && (direction == 1 || direction == -1)
    ensures var r := AiBody(b, w, h, speed * direction as real, [], hopRoll, hopDraw);
            && r.vx == speed * direction as real * FRICTION
            && r.x == b.x + r.vx
            && !r.onGround
  {
  }

  /** An enemy: a physics body that patrols. */
  class Enemy {
    const body: PhysicsObject
    const moveSpeed: real
    var moveDirection: int
    var moveTimer: real
    var moveInterval: real

    function Patrol(): PatrolState
      reads this
    {
      PatrolState(moveDirection, moveTimer, moveInterval)
    }

    ghost predicate Valid()
      reads this
    {
      PatrolValid(Patrol())
    }

    /** A new enemy walks right, with a fresh timer and an interval drawn
        from [1, 3). */
    constructor (x: real, y: real, width: real, height: real, moveSpeed: real, intervalDraw: real)
      requires IntervalDraw(intervalDraw)
      ensures Valid()
      ensures fresh(body) && body.State() == Body(x, y, 0.0, 0.0, false)
      ensures body.width == width && body.height == height
      ensures this.moveSpeed == moveSpeed
      ensures Patrol() == PatrolState(1, 0.0, intervalDraw)
    {
      body := new PhysicsObject(x, y, width, height);
      this.moveSpeed := moveSpeed;
      moveDirection, moveTimer, moveInterval := 1, 0.0, intervalDraw;
    }

    /** One tick of the enemy's behaviour. */
    method UpdateAi(dt: real, hits: seq<Box>, intervalDraw: real, hopRoll: real, hopDraw: real)
      requires Valid() && dt >= 0.0
      requires IntervalDraw(intervalDraw) && 0.0 <= hopRoll < 1.0 && MIN_HOP <= hopDraw <= MAX_HOP
      modifies this, body
      ensures Valid()
      ensures Patrol() == AdvancePatrol(old(Patrol()), dt, intervalDraw)
      ensures body.State() == AiBody(old(body.State()), body.width, body.height,
                                     moveSpeed * moveDirection as real, hits, hopRoll, hopDraw)
      ensures Abs(body.velocityX) <= MAX_SPEED && Abs(body.velocityY) <= MAX_SPEED
    {
      AdvanceKeepsPatrol(Patrol(), dt, intervalDraw);
      ghost var before := body.State();

      moveTimer := moveTimer + dt;
      if moveTimer >= moveInterval {
        moveDirection := -moveDirection;
        moveTimer := 0.0;
        moveInterval := intervalDraw;
      }

      var walk := moveSpeed * moveDirection as real;
      body.velocityX := walk;
      assert body.State() == before.(vx := walk);
      body.UpdatePhysics(hits);
      ghost var stepped := body.State();
      assert stepped == Step(before.(vx := walk), body.width, body.height, hits);

      if body.onGround && hopRoll < HOP_CHANCE {
        body.velocityY := hopDraw;
      }
      AiBodyHop(before, body.width, body.height, walk, hits, hopRoll, hopDraw);
      assert body.State() == AiBody(before, body.width, body.height, walk, hits, hopRoll, hopDraw);
      assert walk == moveSpeed * moveDirection as real;
      assert old(body.State()) == before;
    }
  }
}
