/** The avatar's vertical motion for one tick: the held-input jump, mode-specific
    acceleration and integration, the drawing rotation, and the floor/ceiling clamp. */
module Physics {
  import opened Entities

  const CubeSpin: real := 6.0
  const CubeSettle: real := 0.2
  const ShipTilt: real := 4.0
  const ShipMaxTilt: real := 45.0
  const ShipSettle: real := 0.1

  /** Rounding half upwards, as `Math.round` does. */
  function Round(x: real): (n: int)
    ensures n as real - 0.5 <= x < n as real + 0.5
  {
    (x + 0.5).Floor
  }

  /** The multiple of 90 degrees nearest to a rotation. */
  function Upright(rotation: real): real {
    Round(rotation / 90.0) as real * 90.0
  }

  /** Holding the input while a cube stands on something launches it. */
  function AutoJump(p: Player, holding: bool): (q: Player)
    ensures p.mode == Cube && holding && p.grounded ==> q == p.(dy := JumpForce, grounded := false)
    ensures !(p.mode == Cube && holding && p.grounded) ==> q == p
  {
    if p.mode == Cube && holding && p.grounded then p.(dy := JumpForce, grounded := false) else p
  }

  /** The tilt a ship leans towards: its velocity scaled, within the tilt limits. */
  function ShipTarget(dy: real): (t: real)
    ensures -ShipMaxTilt <= t <= ShipMaxTilt
    ensures -ShipMaxTilt <= dy * ShipTilt <= ShipMaxTilt ==> t == dy * ShipTilt
  {
    Min(Max(dy * ShipTilt, -ShipMaxTilt), ShipMaxTilt)
  }

  /** The new rotation: an airborne cube spins, a grounded cube eases towards upright, a ship
      eases towards a tilt that follows its (new) velocity. */
  function Turn(p: Player, dy: real): (rot: real)
    ensures p.mode == Cube && !p.grounded ==> rot == p.rotation + CubeSpin
    ensures p.mode == Cube && p.grounded ==>
      Min(p.rotation, Upright(p.rotation)) <= rot <= Max(p.rotation, Upright(p.rotation))
    ensures p.mode == Ship ==> Min(p.rotation, ShipTarget(dy)) <= rot <= Max(p.rotation, ShipTarget(dy))
  {
    match p.mode
    case Cube =>
      if !p.grounded then p.rotation + CubeSpin
      else p.rotation + (Upright(p.rotation) - p.rotation) * CubeSettle
    case Ship =>
      p.rotation + (ShipTarget(dy) - p.rotation) * ShipSettle
  }

  /** A ship's rotation stays within its tilt limits. */
  lemma ShipTurnBounded(p: Player, dy: real)
    requires p.mode == Ship && -ShipMaxTilt <= p.rotation <= ShipMaxTilt
    ensures -ShipMaxTilt <= Turn(p, dy) <= ShipMaxTilt
  {
  }

  /** A grounded cube closes a fifth of its distance to upright each tick. */
  lemma CubeSettles(p: Player, dy: real)
    requires p.mode == Cube && p.grounded
    ensures Turn(p, dy) - Upright(p.rotation) == (p.rotation - Upright(p.rotation)) * (1.0 - CubeSettle)
  {
  }

  /** Accelerate and integrate: the velocity changes first and the position moves by the
      new velocity. */
  function Integrate(p: Player, holding: bool): (q: Player)
    ensures q == p.(y := q.y, dy := q.dy, rotation := q.rotation)
    ensures q.y == p.y + q.dy
    ensures q.rotation == Turn(p, q.dy)
    ensures p.mode == Cube ==> q.dy == p.dy + Gravity
    ensures p.mode == Ship && holding ==>
      q.dy >= ShipMaxRise && (q.dy == p.dy + ShipLift || (q.dy == ShipMaxRise && p.dy + ShipLift < ShipMaxRise))
    ensures p.mode == Ship && !holding ==> q.dy == p.dy + ShipGravity
    ensures p.mode == Ship && p.dy >= ShipMaxRise ==> q.dy >= ShipMaxRise
  {
    var dy :=
      match p.mode
      case Cube => p.dy + Gravity
      case Ship =>
        if holding then (if p.dy + ShipLift < ShipMaxRise then ShipMaxRise else p.dy + ShipLift)
        else p.dy + ShipGravity;
    p.(dy := dy, y := p.y + dy, rotation := Turn(p, dy))
  }

  /** The resting height of the avatar on the ground. */
  function FloorY(p: Player, canvasHeight: nat): real {
    canvasHeight as real - GroundHeight - p.height
  }

  /** Clamp to the floor and the ceiling. The floor always stops the avatar and grounds it;
      the ceiling stops only a ship and never grounds. */
  function Clamp(p: Player, canvasHeight: nat): (q: Player)
    ensures q == p.(y := q.y, dy := q.dy, grounded := q.grounded)
    ensures FloorY(p, canvasHeight) >= 0.0 ==> 0.0 <= q.y <= FloorY(p, canvasHeight)
    ensures p.y >= FloorY(p, canvasHeight) ==> q.y == FloorY(p, canvasHeight) && q.dy == 0.0 && q.grounded
    ensures 0.0 < p.y < FloorY(p, canvasHeight) ==> q == p
    ensures p.y < FloorY(p, canvasHeight) && p.y <= 0.0 ==>
      q.y == 0.0 && q.grounded == p.grounded && q.dy == (if p.mode == Ship then 0.0 else p.dy)
  {
    var floorY := FloorY(p, canvasHeight);
    if p.y >= floorY then p.(y := floorY, dy := 0.0, grounded := true)
    else if p.y <= 0.0 then
      (if p.mode == Ship then p.(y := 0.0, dy := 0.0) else p.(y := 0.0))
    else p
  }

  /** Steps 1 to 3 of a tick. */
  function Move(p: Player, holding: bool, canvasHeight: nat): (q: Player)
    ensures q.x == p.x && q.width == p.width && q.height == p.height
    ensures q.color == p.color && q.mode == p.mode
    ensures p.mode == Ship && p.dy >= ShipMaxRise ==> q.dy >= ShipMaxRise
    ensures FloorY(p, canvasHeight) >= 0.0 ==> 0.0 <= q.y <= FloorY(p, canvasHeight)
  {
    Clamp(Integrate(AutoJump(p, holding), holding), canvasHeight)
  }

  /** Holding on the ground makes a cube jump before gravity applies: it leaves the tick
      airborne with the jump force plus one step of gravity, unless it went through the floor. */
  lemma CubeJumpsBeforeGravity(p: Player, canvasHeight: nat)
    requires p.mode == Cube && p.grounded
    requires p.y + JumpForce + Gravity < FloorY(p, canvasHeight)
    ensures Move(p, true, canvasHeight).dy == JumpForce + Gravity
    ensures !Move(p, true, canvasHeight).grounded
  {
  }
}
