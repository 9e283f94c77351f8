/** Entities of the runner: the physics constants, the avatar and obstacle records,
    the level catalogue and the persisted progression record. */
module Entities {

  // Physics constants, exact decimals
  const Gravity: real := 0.6
  const ShipGravity: real := 0.4
  const JumpForce: real := -11.5
  const ShipLift: real := -0.5
  const ShipMaxRise: real := -8.0
  const GroundHeight: real := 100.0
  const PlayerSize: real := 40.0

  /** The run lifecycle. */
  datatype GameState = Menu | Playing | GameOver | LevelComplete

  datatype PlayerMode = Cube | Ship

  /** FloorSpike exists in the record type but no generator produces it. */
  datatype ObstacleKind = Spike | Block | FloorSpike

  /** The avatar; `dy` is the vertical velocity (positive is downwards),
      `rotation` is in degrees. */
  datatype Player = Player(
    x: real,
    y: real,
    width: real,
    height: real,
    dy: real,
    rotation: real,
    grounded: bool,
    color: string,
    mode: PlayerMode)

  datatype Obstacle = Obstacle(
    id: nat,
    x: real,
    y: real,
    width: real,
    height: real,
    kind: ObstacleKind,
    passed: bool)

  type PosReal = r: real | r > 0.0 witness 1.0

  /** A level definition: scroll speed in distance units per tick, avatar mode, and the
      distance needed to win. The palette is drawing data and is not modelled. */
  datatype Level = Level(id: nat, name: string, speed: PosReal, mode: PlayerMode, length: PosReal)

  /** The level catalogue, in selection order. */
  const Levels: seq<Level> := [
    Level(1, "NEON BREEZE", 6.5, Cube, 5000.0),
    Level(2, "GLACIAL DRIFT", 7.0, Cube, 6000.0),
    Level(3, "TOXIC SEWERS", 7.5, Cube, 6500.0),
    Level(4, "CRIMSON VELOCITY", 8.5, Cube, 8000.0),
    Level(5, "SOLAR FLARE", 9.0, Ship, 7000.0),
    Level(6, "VOID FLIGHT", 7.5, Ship, 6000.0),
    Level(7, "MIDNIGHT CITY", 9.5, Cube, 9000.0),
    Level(8, "CYBER PUNK", 10.0, Ship, 8500.0),
    Level(9, "GOLDEN AGE", 10.5, Cube, 10000.0),
    Level(10, "ABYSSAL ZONE", 11.0, Ship, 12000.0),
    Level(11, "COTTON CANDY", 6.0, Cube, 4500.0),
    Level(12, "INFERNO", 12.0, Ship, 15000.0),
    Level(13, "ZENITH", 13.0, Cube, 20000.0)
  ]

  /** Persisted progression: the orb balance, the unlocked skin ids and the equipped one. */
  datatype UserData = UserData(orbs: int, unlockedSkins: seq<string>, equippedSkin: string)

  const DefaultSkin: string := "default"
  const DefaultUser: UserData := UserData(0, [DefaultSkin], DefaultSkin)

  /** The drawing surface size in pixels. */
  datatype Canvas = Canvas(width: nat, height: nat)

  /** The values of `Math.random()` one tick may draw: the spacing threshold, the
      variant choice and the vertical placement. */
  datatype Draws = Draws(gap: real, kind: real, place: real)

  predicate ValidDraws(d: Draws) {
    0.0 <= d.gap < 1.0 && 0.0 <= d.kind < 1.0 && 0.0 <= d.place < 1.0
  }

  function Min(a: real, b: real): real { if a <= b then a else b }
  function Max(a: real, b: real): real { if a >= b then a else b }

  lemma MulNonNegative(a: real, b: real)
    requires a >= 0.0 && b >= 0.0
    ensures a * b >= 0.0
  {
  }
}
