/** Procedural obstacle generation at the right edge of the canvas: the spacing gate, the
    ship variants (gate, mid-air block, spike) and the cube variants (stairs, block, spike). */
module Generation {
  import opened Entities

  /** The multi-tick pattern in progress; the step counter is kept beside it. */
  datatype PatternType = NoPattern | Stairs

  const ShipMinGap: real := 400.0
  const ShipMaxGap: real := 700.0
  /** The opening of a ship gate. */
  const GateGap: real := 180.0
  const StepHeight: real := 50.0

  function CubeMinGap(speed: real): real { 200.0 + speed * 10.0 }
  function CubeMaxGap(speed: real): real { 500.0 + speed * 20.0 }
  function StairGap(speed: real): real { 50.0 + speed * 4.0 }

  /** The top of a ship gate's opening: 50 below the ceiling at the least, and 50 above the
      floor at the most once the gate gap is added. */
  function GateY(c: Canvas, d: Draws): real {
    d.place * (c.height as real - GroundHeight - GateGap - 100.0) + 50.0
  }

  /** The top of a mid-air block: from 50 below the ceiling down to 150 above the ground line. */
  function MidAirY(c: Canvas, d: Draws): real {
    d.place * (c.height as real - GroundHeight - 150.0) + 50.0
  }

  function Last(s: seq<Obstacle>): Obstacle
    requires s != []
  {
    s[|s| - 1]
  }

  /** The spacing gate: there is no obstacle yet, or the last one is further from the right
      edge than a threshold drawn uniformly from [minGap, maxGap). */
  predicate GapOpen(obstacles: seq<Obstacle>, canvasWidth: real, minGap: real, maxGap: real, r: real) {
    obstacles == [] || canvasWidth - Last(obstacles).x > r * (maxGap - minGap) + minGap
  }

  /** The spacing gate's bounds in a level's mode. */
  function MinGap(level: Level): real {
    if level.mode == Ship then ShipMinGap else CubeMinGap(level.speed)
  }

  function MaxGap(level: Level): real {
    if level.mode == Ship then ShipMaxGap else CubeMaxGap(level.speed)
  }

  /** What one tick's generation step appends, and the pattern state it leaves; or the
      failure of reading the last obstacle of an empty list while stairs are in progress. */
  datatype Generated =
    | Generated(added: seq<Obstacle>, patternType: PatternType, patternStep: nat)
    | MissingLastObstacle

  /** A fresh obstacle at the right edge, not yet passed. */
  function NewObstacle(id: nat, c: Canvas, y: real, width: real, height: real, kind: ObstacleKind): Obstacle {
    Obstacle(id, c.width as real, y, width, height, kind, false)
  }

  function Spawn(level: Level, obstacles: seq<Obstacle>, patternType: PatternType, patternStep: nat,
                 c: Canvas, d: Draws, nextId: nat): (g: Generated)
    requires ValidDraws(d)
    // the only failure
    ensures g.MissingLastObstacle? <==> level.mode == Cube && patternType == Stairs && obstacles == []
    // every new obstacle: consecutive ids, at the right edge, not passed, never a floor spike
    ensures g.Generated? ==> |g.added| <= 2 && forall i :: 0 <= i < |g.added| ==>
      && g.added[i].id == nextId + i
      && g.added[i].x == c.width as real
      && !g.added[i].passed
      && g.added[i].kind != FloorSpike
      && 0.0 < g.added[i].width <= 80.0
    // in cube mode everything stands on the ground
    ensures level.mode == Cube && g.Generated? ==> forall o :: o in g.added ==>
      o.height > 0.0 && o.y + o.height == c.height as real - GroundHeight
    // the pattern step stays 0 or 1 while stairs are in progress
    ensures g.Generated? && (patternType == Stairs ==> 0 <= patternStep <= 1) ==>
      (g.patternType == Stairs ==> 0 <= g.patternStep <= 1)
    // ship levels ignore the pattern state
    ensures level.mode == Ship ==> g.Generated? && g.patternType == patternType && g.patternStep == patternStep
    // a stairs pattern in progress: the next, taller step once the stair gap is open, and
    // nothing at all otherwise (the generic gate is skipped)
    ensures level.mode == Cube && patternType == Stairs && obstacles != [] ==>
      if c.width as real - Last(obstacles).x > StairGap(level.speed) then
        && |g.added| == 1 && g.added[0].kind == Block && g.added[0].width == 60.0
        && g.added[0].height == StepHeight * (patternStep + 2) as real
        && g.patternStep == patternStep + 1
        && (g.patternType == NoPattern <==> patternStep + 1 >= 2)
      else
        g == Generated([], patternType, patternStep)
    // no pattern and the spacing gate open: the first stair, a block or a spike
    ensures level.mode == Cube && patternType == NoPattern
            && GapOpen(obstacles, c.width as real, CubeMinGap(level.speed), CubeMaxGap(level.speed), d.gap) ==>
      && |g.added| == 1
      && if d.kind > 0.8 then
           && g.added[0].kind == Block && g.added[0].width == 60.0 && g.added[0].height == StepHeight
           && g.patternType == Stairs && g.patternStep == 0
         else if d.kind > 0.5 then
           && g.added[0].kind == Block && g.added[0].width == 50.0 && g.added[0].height == 50.0
           && g.patternType == NoPattern && g.patternStep == patternStep
         else
           && g.added[0].kind == Spike && g.added[0].width == 40.0 && g.added[0].height == 40.0
           && g.patternType == NoPattern && g.patternStep == patternStep
    // outside stairs in progress, a closed spacing gate adds nothing, in either mode
    ensures !(level.mode == Cube && patternType == Stairs)
            && !GapOpen(obstacles, c.width as real, MinGap(level), MaxGap(level), d.gap) ==>
      g == Generated([], patternType, patternStep)
    // a ship gate: a top block hanging from the ceiling and a bottom block standing on the
    // ground, with the gate gap between them; both at least 50 high on a canvas of 380 or more
    ensures g.Generated? && |g.added| == 2 ==>
      && level.mode == Ship
      && g.added[0].kind == Block && g.added[1].kind == Block
      && g.added[0].y == 0.0
      && g.added[1].y == g.added[0].height + GateGap
      && g.added[1].y + g.added[1].height == c.height as real - GroundHeight
      && (c.height >= 380 ==> g.added[0].height >= 50.0 && g.added[1].height >= 50.0)
    // ship, the spacing gate open: a gate, a mid-air block, or a spike on the ground line or
    // hanging from the ceiling
    ensures level.mode == Ship && GapOpen(obstacles, c.width as real, ShipMinGap, ShipMaxGap, d.gap) ==>
      if d.kind > 0.6 then
        && |g.added| == 2 && g.added[0].height == GateY(c, d)
        && g.added[0].width == 60.0 && g.added[1].width == 60.0
      else if d.kind > 0.3 then
        && |g.added| == 1 && g.added[0].kind == Block
        && g.added[0].width == 80.0 && g.added[0].height == 80.0 && g.added[0].y == MidAirY(c, d)
      else
        && |g.added| == 1 && g.added[0].kind == Spike
        && g.added[0].width == 50.0 && g.added[0].height == 50.0
        && if d.place > 0.5 then g.added[0].y + g.added[0].height == c.height as real - GroundHeight
           else g.added[0].y == 0.0
  {
    if level.mode == Ship then SpawnShip(obstacles, patternType, patternStep, c, d, nextId)
    else
      assert level.mode == Cube;
      SpawnCube(level.speed, obstacles, patternType, patternStep, c, d, nextId)
  }

  /** Ship levels: a gate, a mid-air block or a floor/ceiling spike. */
  function SpawnShip(obstacles: seq<Obstacle>, patternType: PatternType, patternStep: nat,
                     c: Canvas, d: Draws, nextId: nat): (g: Generated)
    requires ValidDraws(d)
    ensures g.Generated?
    ensures |g.added| == 2 && c.height >= 380 ==> g.added[0].height >= 50.0 && g.added[1].height >= 50.0
  {
    var width, height := c.width as real, c.height as real;
    if GapOpen(obstacles, width, ShipMinGap, ShipMaxGap, d.gap) then
      if d.kind > 0.6 then
        var span := height - GroundHeight - GateGap - 100.0;
        var gapY := GateY(c, d);
        assert height >= 380.0 ==> 50.0 <= gapY <= span + 50.0 by {
          if height >= 380.0 {
            MulNonNegative(d.place, span);
            MulNonNegative(1.0 - d.place, span);
          }
        }
        Generated([NewObstacle(nextId, c, 0.0, 60.0, gapY, Block),
                   NewObstacle(nextId + 1, c, gapY + GateGap, 60.0,
                               height - GroundHeight - (gapY + GateGap), Block)],
                  patternType, patternStep)
      else if d.kind > 0.3 then
        Generated([NewObstacle(nextId, c, MidAirY(c, d), 80.0, 80.0, Block)],
                  patternType, patternStep)
      else
        Generated([NewObstacle(nextId, c, if d.place > 0.5 then height - GroundHeight - 50.0 else 0.0,
                               50.0, 50.0, Spike)],
                  patternType, patternStep)
    else
      Generated([], patternType, patternStep)
  }

  /** Cube levels: the next stair while stairs are in progress; otherwise, once the spacing
      gate opens, the start of stairs, a block or a spike. */
  function SpawnCube(speed: real, obstacles: seq<Obstacle>, patternType: PatternType, patternStep: nat,
                     c: Canvas, d: Draws, nextId: nat): (g: Generated)
    requires ValidDraws(d)
    ensures g.MissingLastObstacle? <==> patternType == Stairs && obstacles == []
  {
    var width, height := c.width as real, c.height as real;
    if patternType == Stairs then
      if obstacles == [] then MissingLastObstacle
      else if width - Last(obstacles).x > StairGap(speed) then
        var step := patternStep + 1;
        var stepHeight := StepHeight * (step + 1) as real;
        Generated([NewObstacle(nextId, c, height - GroundHeight - stepHeight, 60.0, stepHeight, Block)],
                  if step >= 2 then NoPattern else Stairs, step)
      else
        Generated([], patternType, patternStep)
    else if GapOpen(obstacles, width, CubeMinGap(speed), CubeMaxGap(speed), d.gap) then
      if d.kind > 0.8 then
        Generated([NewObstacle(nextId, c, height - GroundHeight - 50.0, 60.0, 50.0, Block)], Stairs, 0)
      else if d.kind > 0.5 then
        Generated([NewObstacle(nextId, c, height - GroundHeight - 50.0, 50.0, 50.0, Block)],
                  patternType, patternStep)
      else
        Generated([NewObstacle(nextId, c, height - GroundHeight - 40.0, 40.0, 40.0, Spike)],
                  patternType, patternStep)
    else
      Generated([], patternType, patternStep)
  }

  /** A stairs pattern is three blocks of heights 50, 100 and 150, after which the generator
      returns to no pattern. */
  lemma StairsHaveThreeSteps(level: Level, c: Canvas, d0: Draws, d1: Draws, d2: Draws,
                             obs0: seq<Obstacle>, obs1: seq<Obstacle>, obs2: seq<Obstacle>,
                             id0: nat, id1: nat, id2: nat)
    requires ValidDraws(d0) && ValidDraws(d1) && ValidDraws(d2)
    requires level.mode == Cube && d0.kind > 0.8
    requires GapOpen(obs0, c.width as real, CubeMinGap(level.speed), CubeMaxGap(level.speed), d0.gap)
    requires obs1 != [] && c.width as real - Last(obs1).x > StairGap(level.speed)
    requires obs2 != [] && c.width as real - Last(obs2).x > StairGap(level.speed)
    ensures var g0 := Spawn(level, obs0, NoPattern, 0, c, d0, id0);
            var g1 := Spawn(level, obs1, g0.patternType, g0.patternStep, c, d1, id1);
            var g2 := Spawn(level, obs2, g1.patternType, g1.patternStep, c, d2, id2);
            && g0.added[0].height == 50.0 && g1.added[0].height == 100.0 && g2.added[0].height == 150.0
            && g2.patternType == NoPattern
  {
  }

  /** On the catalogue's speeds, a new obstacle starts to the right of the previous last one,
      so consecutive spawns never overlap horizontally. */
  lemma SpawnClearsLast(level: Level, obstacles: seq<Obstacle>, patternType: PatternType, patternStep: nat,
                        c: Canvas, d: Draws, nextId: nat)
    requires ValidDraws(d) && obstacles != [] && level.speed >= 3.0
    requires Last(obstacles).width <= (if level.mode == Cube then 60.0 else 80.0)
    requires Spawn(level, obstacles, patternType, patternStep, c, d, nextId).Generated?
    ensures forall o :: o in Spawn(level, obstacles, patternType, patternStep, c, d, nextId).added ==>
      o.x > Last(obstacles).x + Last(obstacles).width
  {
    var last := Last(obstacles);
    var w := c.width as real;
    var g := Spawn(level, obstacles, patternType, patternStep, c, d, nextId);
    assert forall j :: 0 <= j < |g.added| ==> g.added[j].x == w;
    if g.added != [] {
      if level.mode == Ship {
        MulNonNegative(d.gap, ShipMaxGap - ShipMinGap);
        assert w - last.x > ShipMinGap;
      } else if patternType == NoPattern {
        var lo, hi := CubeMinGap(level.speed), CubeMaxGap(level.speed);
        MulNonNegative(d.gap, hi - lo);
        assert w - last.x > lo;
      } else {
        assert w - last.x > StairGap(level.speed);
      }
    }
  }
}
