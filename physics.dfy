/** The box physics of `PhysicsObject.update_physics`: gravity, friction,
    integration, resolution against every wall the object overlaps after
    moving, and a speed clamp. Positions and velocities are reals; the walls
    overlapped after moving are an input, in the order the collision query
    returns them. */
module Physics {

  const GRAVITY: real := 0.5
  const FRICTION: real := 0.8
  const BOUNCE: real := 0.5
  const MAX_SPEED: real := 10.0

  /** An axis-aligned sprite box: centre and size. */
  datatype Box = Box(cx: real, cy: real, w: real, h: real) {
    function Left(): real { cx - w / 2.0 }
    function Right(): real { cx + w / 2.0 }
    function Bottom(): real { cy - h / 2.0 }
    function Top(): real { cy + h / 2.0 }
  }

  /** The state `update_physics` changes. */
  datatype Body = Body(x: real, y: real, vx: real, vy: real, onGround: bool)

  function Abs(r: real): real {
    if r < 0.0 then -r else r
  }

  /** `max(-max_speed, min(max_speed, v))`: the value in [-MAX_SPEED, MAX_SPEED]
      nearest to `v`. */
  function Clamp(v: real): (r: real)
    ensures -MAX_SPEED <= r <= MAX_SPEED
    ensures -MAX_SPEED <= v <= MAX_SPEED ==> r == v
    ensures v > MAX_SPEED ==> r == MAX_SPEED
    ensures v < -MAX_SPEED ==> r == -MAX_SPEED
    ensures Abs(r) <= Abs(v)
  {
    var upper := if v < MAX_SPEED then v else MAX_SPEED;
    if upper > -MAX_SPEED then upper else -MAX_SPEED
  }

  /** Gravity, friction and one step of movement; the object is assumed
      airborne until a wall says otherwise. */
  function Integrate(b: Body): Body {
    var vy := b.vy - GRAVITY;
    var vx := b.vx * FRICTION;
    Body(b.x + vx, b.y + vy, vx, vy, false)
  }

  /** The side a hit is resolved on: horizontal only when the horizontal
      centre offset is strictly larger. */
  predicate IsSideHit(b: Body, wall: Box) {
    Abs(b.x - wall.cx) > Abs(b.y - wall.cy)
  }

  /** A vertical hit with the object's centre not above the wall's centre:
      the only branch that sets `onGround`. */
  predicate IsGroundingHit(b: Body, wall: Box) {
    !IsSideHit(b, wall) && b.y - wall.cy <= 0.0
  }

  /** Resolution against one wall, as the source writes it: a side hit snaps
      the object beside the wall and reflects `vx` damped; a vertical hit from
      above snaps it onto the wall's top and stops `vy`; a vertical hit
      otherwise snaps it under the wall's bottom, reflects `vy` damped and
      sets `onGround`. */
  function ResolveHit(b: Body, w: real, h: real, wall: Box): Body {
    var dx := b.x - wall.cx;
    var dy := b.y - wall.cy;
    if Abs(dx) > Abs(dy) then
      var x := if dx > 0.0 then wall.Right() + w / 2.0 else wall.Left() - w / 2.0;
      b.(x := x, vx := -b.vx * BOUNCE)
    else if dy > 0.0 then
      b.(y := wall.Top() + h / 2.0, vy := 0.0)
    else
      b.(y := wall.Bottom() - h / 2.0, vy := -b.vy * BOUNCE, onGround := true)
  }

  /** The walls resolved one after another, in list order. */
  function ResolveAll(b: Body, w: real, h: real, walls: seq<Box>): Body {
    if walls == [] then b
    else ResolveHit(ResolveAll(b, w, h, walls[..|walls| - 1]), w, h, walls[|walls| - 1])
  }

  /** One call of `update_physics`. */
  function Step(b: Body, w: real, h: real, hits: seq<Box>): Body {
    var r := ResolveAll(Integrate(b), w, h, hits);
    r.(vx := Clamp(r.vx), vy := Clamp(r.vy))
  }

  /** A side hit leaves the vertical state alone, puts the object's near edge
      on the wall's far edge, and reflects `vx` at half speed. */
  lemma SideHit(b: Body, w: real, h: real, wall: Box)
    requires IsSideHit(b, wall)
    ensures var r := ResolveHit(b, w, h, wall);
            && r.y == b.y && r.vy == b.vy && r.onGround == b.onGround
            && r.vx == -b.vx / 2.0
            && (b.x > wall.cx ==> r.x - w / 2.0 == wall.Right())
            && (b.x <= wall.cx ==> r.x + w / 2.0 == wall.Left())
  {
  }

  /** A vertical hit leaves the horizontal state alone; from above the object
      ends on the wall's top with `vy` zero, otherwise under its bottom with
      `vy` reflected at half speed and `onGround` set. */
  lemma VerticalHit(b: Body, w: real, h: real, wall: Box)
    requires !IsSideHit(b, wall)
    ensures var r := ResolveHit(b, w, h, wall);
            && r.x == b.x && r.vx == b.vx
            && (b.y > wall.cy ==> r.y - h / 2.0 == wall.Top() && r.vy == 0.0 && r.onGround == b.onGround)
            && (b.y <= wall.cy ==> r.y + h / 2.0 == wall.Bottom() && r.vy == -b.vy / 2.0 && r.onGround)
  {
  }

  /** Equal offsets on both axes are resolved on the vertical branch: the
      horizontal state is untouched and the vertical outcome is that of a
      hit from above or from below. */
  lemma TieGoesVertical(b: Body, w: real, h: real, wall: Box)
    requires Abs(b.x - wall.cx) == Abs(b.y - wall.cy)
    ensures !IsSideHit(b, wall)
    ensures var r := ResolveHit(b, w, h, wall);
            && r.x == b.x && r.vx == b.vx
            && (b.y > wall.cy ==> r.y == wall.Top() + h / 2.0 && r.vy == 0.0 && r.onGround == b.onGround)
            && (b.y <= wall.cy ==> r.y == wall.Bottom() - h / 2.0 && r.vy == -b.vy * BOUNCE && r.onGround)
  {
  }

  /** Resolving walls never speeds the object up on either axis. */
  lemma {:induction false} ResolveAllDamps(b: Body, w: real, h: real, walls: seq<Box>)
    ensures Abs(ResolveAll(b, w, h, walls).vx) <= Abs(b.vx)
    ensures Abs(ResolveAll(b, w, h, walls).vy) <= Abs(b.vy)
  {
    if walls != [] {
      ResolveAllDamps(b, w, h, walls[..|walls| - 1]);
    }
  }

  /** After resolving, the object is on the ground exactly when it was
      before or one of the walls, at the moment it was resolved, was a
      grounding hit. */
  lemma {:induction false} GroundedIffGroundingHit(b: Body, w: real, h: real, walls: seq<Box>)
    ensures ResolveAll(b, w, h, walls).onGround <==>
            b.onGround || exists i :: 0 <= i < |walls| && GroundingAt(b, w, h, walls, i)
  {
    if walls != [] {
      var n := |walls| - 1;
      var init := walls[..n];
      var before := ResolveAll(b, w, h, init);
      GroundedIffGroundingHit(b, w, h, init);
      assert ResolveAll(b, w, h, walls).onGround == (before.onGround || IsGroundingHit(before, walls[n]));
      forall i | 0 <= i < n
        ensures GroundingAt(b, w, h, walls, i) == GroundingAt(b, w, h, init, i)
      {
        assert walls[..i] == init[..i];
      }
      assert GroundingAt(b, w, h, walls, n) == IsGroundingHit(before, walls[n]);
    }
  }

  /** The `i`-th wall was a grounding hit when it was resolved. */
  predicate GroundingAt(b: Body, w: real, h: real, walls: seq<Box>, i: nat)
    requires i < |walls|
  {
    IsGroundingHit(ResolveAll(b, w, h, walls[..i]), walls[i])
  }

  /** `update_physics` keeps both speeds within MAX_SPEED, never makes either
      axis faster than gravity and friction alone would, and reports the
      ground only after a grounding hit. */
  lemma StepBounds(b: Body, w: real, h: real, hits: seq<Box>)
    ensures var r := Step(b, w, h, hits);
            && Abs(r.vx) <= MAX_SPEED && Abs(r.vy) <= MAX_SPEED
            && Abs(r.vx) <= Abs(Integrate(b).vx) && Abs(r.vy) <= Abs(Integrate(b).vy)
            && (r.onGround <==> exists i :: 0 <= i < |hits| && GroundingAt(Integrate(b), w, h, hits, i))
  {
    ResolveAllDamps(Integrate(b), w, h, hits);
    GroundedIffGroundingHit(Integrate(b), w, h, hits);
  }

  /** Resting on top of a floor tile does not set `onGround`: with the object
      centred above the wall, the vertical branch taken is the one that only
      stops `vy`. */
  lemma RestingOnFloorIsNotGrounded()
    ensures var floor := Box(32.0, 64.0, 64.0, 64.0);
            var r := Step(Body(32.0, 112.0, 0.0, 0.0, false), 32.0, 32.0, [floor]);
            && r.y == 112.0 && r.y == floor.Top() + 16.0 && r.vy == 0.0 && !r.onGround
  {
  }

  /** A sprite whose fields `update_physics` changes in place. */
  class PhysicsObject {
    var centerX: real
    var centerY: real
    var velocityX: real
    var velocityY: real
    var onGround: bool
    const width: real
    const height: real

    function State(): Body
      reads this
    {
      Body(centerX, centerY, velocityX, velocityY, onGround)
    }

    /** A new object is at rest and airborne. */
    constructor (x: real, y: real, width: real, height: real)
      ensures State() == Body(x, y, 0.0, 0.0, false)
      ensures this.width == width && this.height == height
    {
      centerX, centerY := x, y;
      velocityX, velocityY := 0.0, 0.0;
      onGround := false;
      this.width, this.height := width, height;
    }

    /** One physics step against the walls overlapped after moving. */
    method UpdatePhysics(hits: seq<Box>)
      modifies this
      ensures State() == Step(old(State()), width, height, hits)
      ensures Abs(velocityX) <= MAX_SPEED && Abs(velocityY) <= MAX_SPEED
    {
      ghost var moved := Integrate(State());
      velocityY := velocityY - GRAVITY;
      velocityX := velocityX * FRICTION;
      centerX := centerX + velocityX;
      centerY := centerY + velocityY;
      onGround := false;

      var i := 0;
      while i < |hits|
        invariant 0 <= i <= |hits|
        invariant State() == ResolveAll(moved, width, height, hits[..i])
      {
        assert hits[..i + 1][..i] == hits[..i];
        ResolveWall(hits[i]);
        i := i + 1;
      }
      assert hits[..i] == hits;

      velocityX := Clamp(velocityX);
      velocityY := Clamp(velocityY);
    }

    /** The loop body of `update_physics`: push the object out of one wall. */
    method ResolveWall(wall: Box)
      modifies this
      ensures State() == ResolveHit(old(State()), width, height, wall)
    {
      var dx := centerX - wall.cx;
      var dy := centerY - wall.cy;
      if Abs(dx) > Abs(dy) {
        if dx > 0.0 {
          centerX := wall.Right() + width / 2.0;
        } else {
          centerX := wall.Left() - width / 2.0;
        }
        velocityX := -velocityX * BOUNCE;
      } else {
        if dy > 0.0 {
          centerY := wall.Top() + height / 2.0;
          velocityY := 0.0;
        } else {
          centerY := wall.Bottom() - height / 2.0;
          velocityY := -velocityY * BOUNCE;
          onGround := true;
        }
      }
    }
  }
}
