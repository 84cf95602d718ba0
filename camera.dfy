/**
 * The first-person camera's collision and movement rules (srcs/camera.py).
 *
 * The player is an axis-aligned box around the camera position. A position is valid when no
 * voxel cell the box touches is solid. `move` takes the whole step when it is valid and
 * otherwise slides: it keeps each axis component whose single-axis step from the old position
 * is valid. Positions and angles are exact reals; the world's voxel lookup is a function from
 * a cell to its voxel id.
 */
module Cameras {
  import opened Settings
  import Frustums

  /** The player's collision box at camera position p: PLAYER_WIDTH by PLAYER_DEPTH around the
      position, from COLLISION_OFFSET above the feet up to PLAYER_HEIGHT. */
  datatype Box = Box(minX: real, maxX: real, minY: real, maxY: real, minZ: real, maxZ: real)

  function PlayerBox(p: Vec3): (b: Box)
    ensures b.minX < b.maxX && b.minY < b.maxY && b.minZ < b.maxZ
  {
    Box(p.x - PLAYER_WIDTH / 2.0, p.x + PLAYER_WIDTH / 2.0,
        p.y + COLLISION_OFFSET, p.y + PLAYER_HEIGHT,
        p.z - PLAYER_DEPTH / 2.0, p.z + PLAYER_DEPTH / 2.0)
  }

  /** The cells the collision scan visits: integer coordinates between the floors of the
      bounds, inclusive, on every axis. */
  predicate Touches(b: Box, c: IVec3)
  {
    b.minX.Floor <= c.x <= b.maxX.Floor
    && b.minY.Floor <= c.y <= b.maxY.Floor
    && b.minZ.Floor <= c.z <= b.maxZ.Floor
  }

  /** A position is clear when every cell the player's box touches holds voxel id 0. */
  ghost predicate Clear(world: IVec3 -> int, p: Vec3)
  {
    forall c :: Touches(PlayerBox(p), c) ==> world(c) == 0
  }

  /** The unit cube of cell i, [i, i + 1), meets the closed interval [lo, hi]. */
  predicate CellMeets(i: int, lo: real, hi: real)
  {
    i as real <= hi && lo < (i + 1) as real
  }

  /** The floors bound exactly the cells whose unit interval meets the bound interval. */
  lemma FloorRangeIsOverlap(lo: real, hi: real, i: int)
    ensures (lo.Floor <= i <= hi.Floor) <==> CellMeets(i, lo, hi)
  {
  }

  /** The scan is an overlap test: a position is clear exactly when no solid voxel's unit cube
      meets the player's box. */
  lemma ClearIffNoSolidOverlap(world: IVec3 -> int, p: Vec3)
    ensures Clear(world, p) <==>
              forall c :: world(c) != 0 ==>
                var b := PlayerBox(p);
                !(CellMeets(c.x, b.minX, b.maxX) && CellMeets(c.y, b.minY, b.maxY)
                  && CellMeets(c.z, b.minZ, b.maxZ))
  {
    var b := PlayerBox(p);
    forall c
      ensures Touches(b, c) <==>
                CellMeets(c.x, b.minX, b.maxX) && CellMeets(c.y, b.minY, b.maxY)
                && CellMeets(c.z, b.minZ, b.maxZ)
    {
      FloorRangeIsOverlap(b.minX, b.maxX, c.x);
      FloorRangeIsOverlap(b.minY, b.maxY, c.y);
      FloorRangeIsOverlap(b.minZ, b.maxZ, c.z);
    }
  }

  /** glm's clamp: min(max(v, lo), hi). */
  function Clamp(v: real, lo: real, hi: real): (r: real)
    requires lo <= hi
    ensures lo <= r <= hi
    ensures lo <= v <= hi ==> r == v
    ensures v < lo ==> r == lo
    ensures v > hi ==> r == hi
  {
    var m := if v >= lo then v else lo;
    if m <= hi then m else hi
  }

  /** The negated velocity the backward, left and down moves pass on. */
  function Opposite(v: real): real
  {
    -v
  }

  /** The movement `move` wants: forward, right and up scaled by the three velocities. */
  function Desired(forward: Vec3, right: Vec3, up: Vec3, fv: real, rv: real, uv: real): Vec3
  {
    forward.Scale(fv).Add(right.Scale(rv)).Add(up.Scale(uv))
  }

  /** The component of a blocked move kept on one axis: the desired step when it is nonzero and
      the single-axis step from p is clear, else nothing. */
  ghost function Slide(world: IVec3 -> int, p: Vec3, step: Vec3, component: real): real
  {
    if component != 0.0 && Clear(world, p.Add(step)) then component else 0.0
  }

  /** Where `move` puts the camera, as written: the whole step if it is clear (or GO_THROUGH
      is set), otherwise the per-axis slides, each tested from the old position. */
  ghost function MoveTarget(world: IVec3 -> int, p: Vec3, d: Vec3): Vec3
  {
    if Clear(world, p.Add(d)) || GO_THROUGH then p.Add(d)
    else
      p.Add(Vec3(Slide(world, p, Vec3(d.x, 0.0, 0.0), d.x),
                 Slide(world, p, Vec3(0.0, d.y, 0.0), d.y),
                 Slide(world, p, Vec3(0.0, 0.0, d.z), d.z)))
  }

  /** A clear target is reached in one step. */
  lemma MoveTakesClearStep(world: IVec3 -> int, p: Vec3, d: Vec3)
    requires Clear(world, p.Add(d))
    ensures MoveTarget(world, p, d) == p.Add(d)
  {
  }

  /** When the whole step is blocked, every axis either moves by exactly its desired component
      or not at all, and it moves only when the step along that axis alone from the old
      position is clear. */
  lemma BlockedMoveSlides(world: IVec3 -> int, p: Vec3, d: Vec3)
    requires !Clear(world, p.Add(d))
    ensures var r := MoveTarget(world, p, d);
            (r.x == p.x + d.x || r.x == p.x) && (r.y == p.y + d.y || r.y == p.y)
            && (r.z == p.z + d.z || r.z == p.z)
    ensures var r := MoveTarget(world, p, d);
            (r.x != p.x ==> Clear(world, p.Add(Vec3(d.x, 0.0, 0.0))))
            && (r.y != p.y ==> Clear(world, p.Add(Vec3(0.0, d.y, 0.0))))
            && (r.z != p.z ==> Clear(world, p.Add(Vec3(0.0, 0.0, d.z))))
  {
  }

  /** A move whose single-axis steps are all blocked leaves the camera where it is. */
  lemma FullyBlockedMoveStays(world: IVec3 -> int, p: Vec3, d: Vec3)
    requires !Clear(world, p.Add(d))
    requires !Clear(world, p.Add(Vec3(d.x, 0.0, 0.0)))
    requires !Clear(world, p.Add(Vec3(0.0, d.y, 0.0)))
    requires !Clear(world, p.Add(Vec3(0.0, 0.0, d.z)))
    ensures MoveTarget(world, p, d) == p
  {
  }

  /** A world whose only solid voxel is cell (1, 0, 1). */
  function CornerWorld(): IVec3 -> int
  {
    c => if c == IVec3(1, 0, 1) then 1 else 0
  }

  /** A box that stays left of x = 1 or in front of z = 1 misses the solid cell. */
  lemma MissesCornerCell(p: Vec3)
    requires PlayerBox(p).maxX.Floor < 1 || PlayerBox(p).maxZ.Floor < 1
    ensures Clear(CornerWorld(), p)
  {
  }

  /** A box touching cell (1, 0, 1) collides. */
  lemma TouchesCornerCell(p: Vec3)
    requires Touches(PlayerBox(p), IVec3(1, 0, 1))
    ensures !Clear(CornerWorld(), p)
  {
  }

  /** The blocked-move rule lets the player cut a corner into a solid voxel: from a clear
      position next to the edge of cell (1, 0, 1), a small diagonal step is blocked as a whole,
      but the x-only and z-only steps are each clear from the old position, so both are kept
      and the camera ends where its box overlaps the solid cell. */
  lemma MoveCutsCorners()
    ensures var p, d := Vec3(0.65, 0.0, 0.65), Vec3(0.1, 0.0, 0.1);
            Clear(CornerWorld(), p) && !Clear(CornerWorld(), MoveTarget(CornerWorld(), p, d))
  {
    var p, d := Vec3(0.65, 0.0, 0.65), Vec3(0.1, 0.0, 0.1);
    CornerStepsClear(p, d);
    CornerTargetBlocked(p, d);
  }

  lemma CornerStepsClear(p: Vec3, d: Vec3)
    requires p == Vec3(0.65, 0.0, 0.65) && d == Vec3(0.1, 0.0, 0.1)
    ensures Clear(CornerWorld(), p)
    ensures Clear(CornerWorld(), p.Add(Vec3(d.x, 0.0, 0.0)))
    ensures Clear(CornerWorld(), p.Add(Vec3(0.0, 0.0, d.z)))
  {
    assert PlayerBox(p).maxX == 0.95;
    MissesCornerCell(p);
    assert PlayerBox(p.Add(Vec3(d.x, 0.0, 0.0))).maxZ == 0.95;
    MissesCornerCell(p.Add(Vec3(d.x, 0.0, 0.0)));
    assert PlayerBox(p.Add(Vec3(0.0, 0.0, d.z))).maxX == 0.95;
    MissesCornerCell(p.Add(Vec3(0.0, 0.0, d.z)));
  }

  lemma CornerTargetBlocked(p: Vec3, d: Vec3)
    requires p == Vec3(0.65, 0.0, 0.65) && d == Vec3(0.1, 0.0, 0.1)
    ensures !Clear(CornerWorld(), p.Add(d))
  {
    var tb := PlayerBox(p.Add(d));
    assert tb.minX == 0.45 && tb.maxX == 1.05 && tb.minY == 0.1 && tb.maxY == 1.8
        && tb.minZ == 0.45 && tb.maxZ == 1.05;
    assert Touches(tb, IVec3(1, 0, 1));
    TouchesCornerCell(p.Add(d));
  }

  /** One axis of the corrected move: step when the component is nonzero and the step from p
      is clear, else stay. */
  ghost function SlideTo(world: IVec3 -> int, p: Vec3, step: Vec3, component: real): Vec3
  {
    if component != 0.0 && Clear(world, p.Add(step)) then p.Add(step) else p
  }

  /** The move keeps the box out of solid voxels when the axes are resolved one after another,
      each tested from the position the previous axes reached. */
  ghost function MoveSequential(world: IVec3 -> int, p: Vec3, d: Vec3): Vec3
  {
    if Clear(world, p.Add(d)) || GO_THROUGH then p.Add(d)
    else
      var px := SlideTo(world, p, Vec3(d.x, 0.0, 0.0), d.x);
      var py := SlideTo(world, px, Vec3(0.0, d.y, 0.0), d.y);
      SlideTo(world, py, Vec3(0.0, 0.0, d.z), d.z)
  }

  /** From a clear position the sequential move never ends inside a solid voxel; it agrees
      with the as-written rule whenever the whole step is clear, and like it moves each axis by
      its desired component or not at all. */
  lemma MoveSequentialStaysClear(world: IVec3 -> int, p: Vec3, d: Vec3)
    requires Clear(world, p)
    ensures Clear(world, MoveSequential(world, p, d))
    ensures Clear(world, p.Add(d)) ==> MoveSequential(world, p, d) == MoveTarget(world, p, d)
    ensures var r := MoveSequential(world, p, d);
            (r.x == p.x + d.x || r.x == p.x) && (r.y == p.y + d.y || r.y == p.y)
            && (r.z == p.z + d.z || r.z == p.z)
  {
  }

  class Camera {
    var position: Vec3
    /** Angles in radians. */
    var yaw: real
    var pitch: real
    var up: Vec3
    var right: Vec3
    var forward: Vec3
    /** The voxel id at a world cell: the world's voxel handler, attached by the player. */
    const world: IVec3 -> int
    /** PITCH_LIMIT, 89 degrees in radians. */
    const pitchLimit: real

    predicate Valid()
      reads this
    {
      pitchLimit > 0.0
    }

    /** The camera state the frustum test reads. */
    function View(): Frustums.View
      reads this
    {
      Frustums.View(position, forward, up, right)
    }

    constructor(position: Vec3, yaw: real, pitch: real, world: IVec3 -> int, pitchLimit: real)
      requires pitchLimit > 0.0
      ensures Valid()
      ensures this.position == position && this.yaw == yaw && this.pitch == pitch
      ensures up == Vec3(0.0, 1.0, 0.0) && right == Vec3(1.0, 0.0, 0.0) && forward == Vec3(0.0, 0.0, -1.0)
      ensures this.world == world && this.pitchLimit == pitchLimit
    {
      this.position := position;
      this.yaw := yaw;
      this.pitch := pitch;
      up := Vec3(0.0, 1.0, 0.0);
      right := Vec3(1.0, 0.0, 0.0);
      forward := Vec3(0.0, 0.0, -1.0);
      this.world := world;
      this.pitchLimit := pitchLimit;
    }

    /** Tilt by -deltaY, clamped to the pitch limit; nothing else changes. */
    method RotatePitch(deltaY: real)
      requires Valid()
      modifies this
      ensures pitch == Clamp(old(pitch) - deltaY, -pitchLimit, pitchLimit)
      ensures -pitchLimit <= pitch <= pitchLimit
      ensures position == old(position) && yaw == old(yaw)
      ensures up == old(up) && right == old(right) && forward == old(forward)
    {
      pitch := pitch - deltaY;
      pitch := Clamp(pitch, -pitchLimit, pitchLimit);
    }

    /** Turn by deltaX, unbounded; nothing else changes. */
    method RotateYaw(deltaX: real)
      modifies this
      ensures yaw == old(yaw) + deltaX
      ensures position == old(position) && pitch == old(pitch)
      ensures up == old(up) && right == old(right) && forward == old(forward)
    {
      yaw := yaw + deltaX;
    }

    /** Scan the cells the player's box touches at p, x then y then z, and stop at the first
        solid one. */
    method IsPositionValid(p: Vec3) returns (ok: bool)
      ensures ok <==> Clear(world, p)
    {
      var b := PlayerBox(p);
      var iMin, iMax := b.minX.Floor, b.maxX.Floor;
      var jMin, jMax := b.minY.Floor, b.maxY.Floor;
      var kMin, kMax := b.minZ.Floor, b.maxZ.Floor;
      var i := iMin;
      while i <= iMax
        invariant iMin <= i <= iMax + 1
        invariant forall c :: Touches(b, c) && c.x < i ==> world(c) == 0
        decreases iMax - i
      {
        var j := jMin;
        while j <= jMax
          invariant jMin <= j <= jMax + 1
          invariant forall c :: Touches(b, c) && (c.x < i || (c.x == i && c.y < j)) ==> world(c) == 0
          decreases jMax - j
        {
          var k := kMin;
          while k <= kMax
            invariant kMin <= k <= kMax + 1
            invariant forall c :: Touches(b, c) && (c.x < i || (c.x == i && (c.y < j || (c.y == j && c.z < k))))
                        ==> world(c) == 0
            decreases kMax - k
          {
            if world(IVec3(i, j, k)) != 0 {
              assert Touches(b, IVec3(i, j, k));
              return false;
            }
            k := k + 1;
          }
          j := j + 1;
        }
        i := i + 1;
      }
      return true;
    }

    /** move as written: take the full step when it is clear; otherwise test each axis alone from
        the old position and apply the clear ones together (which can cut a corner, see
        MoveCutsCorners). */
    method Move(forwardVelocity: real, rightVelocity: real, upVelocity: real)
      modifies this
      ensures position == MoveTarget(world, old(position),
                                     Desired(forward, right, up, forwardVelocity, rightVelocity, upVelocity))
      ensures yaw == old(yaw) && pitch == old(pitch)
      ensures up == old(up) && right == old(right) && forward == old(forward)
    {
      var desiredMovement := Desired(forward, right, up, forwardVelocity, rightVelocity, upVelocity);
      var newPosition := position.Add(desiredMovement);
      var valid := IsPositionValid(newPosition);
      if valid || GO_THROUGH {
        position := newPosition;
        return;
      }
      var movement := Vec3(0.0, 0.0, 0.0);
      if desiredMovement.x != 0.0 {
        var xValid := IsPositionValid(position.Add(Vec3(desiredMovement.x, 0.0, 0.0)));
        if xValid {
          movement := movement.(x := desiredMovement.x);
        }
      }
      if desiredMovement.y != 0.0 {
        var yValid := IsPositionValid(position.Add(Vec3(0.0, desiredMovement.y, 0.0)));
        if yValid {
          movement := movement.(y := desiredMovement.y);
        }
      }
      if desiredMovement.z != 0.0 {
        var zValid := IsPositionValid(position.Add(Vec3(0.0, 0.0, desiredMovement.z)));
        if zValid {
          movement := movement.(z := desiredMovement.z);
        }
      }
      position := position.Add(movement);
    }

    /** The corrected move: the axes are resolved in turn, each from the position the previous
        ones reached, so a clear camera stays clear. */
    method MoveSliding(forwardVelocity: real, rightVelocity: real, upVelocity: real)
      modifies this
      ensures position == MoveSequential(world, old(position),
                                         Desired(forward, right, up, forwardVelocity, rightVelocity, upVelocity))
      ensures old(Clear(world, position)) ==> Clear(world, position)
      ensures yaw == old(yaw) && pitch == old(pitch)
      ensures up == old(up) && right == old(right) && forward == old(forward)
    {
      var desiredMovement := Desired(forward, right, up, forwardVelocity, rightVelocity, upVelocity);
      ghost var start := position;
      var newPosition := position.Add(desiredMovement);
      var valid := IsPositionValid(newPosition);
      if valid || GO_THROUGH {
        position := newPosition;
      } else {
        SlideAxis(Vec3(desiredMovement.x, 0.0, 0.0), desiredMovement.x);
        SlideAxis(Vec3(0.0, desiredMovement.y, 0.0), desiredMovement.y);
        SlideAxis(Vec3(0.0, 0.0, desiredMovement.z), desiredMovement.z);
      }
      if Clear(world, start) {
        MoveSequentialStaysClear(world, start, desiredMovement);
      }
    }

    /** Take one axis step of the corrected move if it is nonzero and clear. */
    method SlideAxis(step: Vec3, component: real)
      modifies this
      ensures position == SlideTo(world, old(position), step, component)
      ensures yaw == old(yaw) && pitch == old(pitch)
      ensures up == old(up) && right == old(right) && forward == old(forward)
    {
      if component != 0.0 {
        var ok := IsPositionValid(position.Add(step));
        if ok {
          position := position.Add(step);
        }
      }
    }

    // The convenience movers: one velocity along one view axis, the negative ones through
    // Opposite. They go through the corrected move, so a clear camera stays clear.

    method MoveForward(velocity: real)
      modifies this
      ensures position == MoveSequential(world, old(position), Desired(forward, right, up, velocity, 0.0, 0.0))
      ensures old(Clear(world, position)) ==> Clear(world, position)
      ensures yaw == old(yaw) && pitch == old(pitch)
      ensures up == old(up) && right == old(right) && forward == old(forward)
    {
      MoveSliding(velocity, 0.0, 0.0);
    }

    method MoveBackward(velocity: real)
      modifies this
      ensures position == MoveSequential(world, old(position), Desired(forward, right, up, Opposite(velocity), 0.0, 0.0))
      ensures old(Clear(world, position)) ==> Clear(world, position)
      ensures yaw == old(yaw) && pitch == old(pitch)
      ensures up == old(up) && right == old(right) && forward == old(forward)
    {
      MoveSliding(Opposite(velocity), 0.0, 0.0);
    }

    method MoveRight(velocity: real)
      modifies this
      ensures position == MoveSequential(world, old(position), Desired(forward, right, up, 0.0, velocity, 0.0))
      ensures old(Clear(world, position)) ==> Clear(world, position)
      ensures yaw == old(yaw) && pitch == old(pitch)
      ensures up == old(up) && right == old(right) && forward == old(forward)
    {
      MoveSliding(0.0, velocity, 0.0);
    }

    method MoveLeft(velocity: real)
      modifies this
      ensures position == MoveSequential(world, old(position), Desired(forward, right, up, 0.0, Opposite(velocity), 0.0))
      ensures old(Clear(world, position)) ==> Clear(world, position)
      ensures yaw == old(yaw) && pitch == old(pitch)
      ensures up == old(up) && right == old(right) && forward == old(forward)
    {
      MoveSliding(0.0, Opposite(velocity), 0.0);
    }

    method MoveUp(velocity: real)
      modifies this
      ensures position == MoveSequential(world, old(position), Desired(forward, right, up, 0.0, 0.0, velocity))
      ensures old(Clear(world, position)) ==> Clear(world, position)
      ensures yaw == old(yaw) && pitch == old(pitch)
      ensures up == old(up) && right == old(right) && forward == old(forward)
    {
      MoveSliding(0.0, 0.0, velocity);
    }

    method MoveDown(velocity: real)
      modifies this
      ensures position == MoveSequential(world, old(position), Desired(forward, right, up, 0.0, 0.0, Opposite(velocity)))
      ensures old(Clear(world, position)) ==> Clear(world, position)
      ensures yaw == old(yaw) && pitch == old(pitch)
      ensures up == old(up) && right == old(right) && forward == old(forward)
    {
      MoveSliding(0.0, 0.0, Opposite(velocity));
    }
  }
}
