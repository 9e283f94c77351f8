/** The run: its state as a value (World), the pure per-tick transition (Step) and the
    lifecycle transitions, and the Simulation object that performs them in place. */
module Simulation {
  import opened Entities
  import opened Rewards
  import Store
  import opened Physics
  import opened Collision
  import opened Generation
  import opened ObstaclePass

  /** Everything one tick reads or writes. `progress` is the HUD percentage, `holding` the
      latched input signal, `nextId` the source of fresh obstacle ids. */
  datatype World = World(
    state: GameState,
    level: Level,
    player: Player,
    obstacles: seq<Obstacle>,
    score: nat,
    distance: real,
    progress: int,
    patternType: PatternType,
    patternStep: nat,
    user: UserData,
    earnedOrbs: nat,
    holding: bool,
    nextId: nat)

  /** A tick's result; `halted` is set when the tick stopped short on the empty obstacle
      list during stairs, after which the frame loop is no longer scheduled. */
  datatype TickOutcome = TickOutcome(world: World, halted: bool)

  const DefaultColor: string := "#00f2ff"

  /** The state before any run: the menu, the first level, an avatar at x = 100. */
  function Initial(): (r: World)
    ensures r.state == Menu && r.level == Levels[0] && r.user == DefaultUser
    ensures r.obstacles == [] && r.score == 0 && r.distance == 0.0 && r.progress == 0
    ensures !r.holding && r.nextId == 0 && r.player.mode == Cube
  {
    World(Menu, Levels[0], Player(100.0, 0.0, PlayerSize, PlayerSize, 0.0, 0.0, false, DefaultColor, Cube),
          [], 0, 0.0, 0, NoPattern, 0, DefaultUser, 0, false, 0)
  }

  /** Start a run on a level: a cube stands on the ground, a ship starts mid-air at half the
      canvas height; obstacles, counters, progress and the pattern are reset. The held
      input, the progression record and the id counter carry over. */
  function Started(w: World, level: Level, c: Canvas, color: string): (r: World)
    ensures r.state == Playing && r.obstacles == [] && r.score == 0 && r.distance == 0.0
    ensures r.progress == 0 && r.patternType == NoPattern && r.earnedOrbs == 0
    ensures r.user == w.user && r.holding == w.holding && r.nextId == w.nextId
    ensures r.level == level && r.player.mode == level.mode && r.player.dy == 0.0
    ensures !r.player.grounded <==> level.mode == Ship
    ensures r.patternStep == 0
    // the avatar: a fifth of the way across, a 40-unit square, upright, in the skin's colour;
    // a cube's bottom on the ground line, a ship at half the canvas height
    ensures r.player.x == c.width as real * 0.2 && r.player.rotation == 0.0 && r.player.color == color
    ensures r.player.width == PlayerSize && r.player.height == PlayerSize
    ensures level.mode == Cube ==> r.player.y + r.player.height == c.height as real - GroundHeight
    ensures level.mode == Ship ==> r.player.y == c.height as real / 2.0
  {
    var onGround := Player(c.width as real * 0.2, c.height as real - GroundHeight - PlayerSize,
                           PlayerSize, PlayerSize, 0.0, 0.0, true, color, level.mode);
    var player := if level.mode == Ship then onGround.(y := c.height as real / 2.0, grounded := false) else onGround;
    w.(state := Playing, level := level, player := player, obstacles := [], score := 0, distance := 0.0,
       progress := 0, patternType := NoPattern, patternStep := 0, earnedOrbs := 0)
  }

  /** Begin holding. Ignored while the store is open, on a button, or outside a run; a
      grounded cube jumps at once. */
  function Pressed(w: World, storeOpen: bool, onButton: bool): (r: World)
    ensures storeOpen || onButton || w.state != Playing ==> r == w
    ensures !storeOpen && !onButton && w.state == Playing ==>
      && r.holding
      && r == w.(holding := true, player := AutoJump(w.player, true))
  {
    if storeOpen || onButton then w
    else if w.state != Playing then w
    else
      var p := w.player;
      w.(holding := true,
         player := if p.mode == Cube && p.grounded then p.(dy := JumpForce, grounded := false) else p)
  }

  function Released(w: World): (r: World)
    ensures !r.holding && r.(holding := w.holding) == w
  {
    w.(holding := false)
  }

  /** End the run: credit the reward for the distance covered to `base` (the progression
      record as the run saw it) and enter the terminal state. */
  function Ended(w: World, completed: bool, base: UserData): (r: World)
    ensures r.state == (if completed then LevelComplete else GameOver)
    ensures var reward := Reward(w.distance, w.level.length, completed);
      && r.user == ApplyReward(base, reward)
      && r.earnedOrbs == (if reward > 0 then reward else 0)
    ensures r == w.(state := r.state, user := r.user, earnedOrbs := r.earnedOrbs)
  {
    var reward := Reward(w.distance, w.level.length, completed);
    w.(user := if reward > 0 then base.(orbs := base.orbs + reward) else base,
       earnedOrbs := if reward > 0 then reward else 0,
       state := if completed then LevelComplete else GameOver)
  }

  /** Steps 1 to 4 of a tick: move the avatar, cover the level speed's distance, update the
      progress, and complete the level once the distance reaches its length. */
  function Prelude(w: World, canvasHeight: nat): (r: World)
    ensures r.distance == w.distance + w.level.speed
    ensures r.progress == Progress(r.distance, w.level.length)
    ensures r.player == Move(w.player, w.holding, canvasHeight)
    ensures r.obstacles == w.obstacles && r.nextId == w.nextId && r.score == w.score && r.level == w.level
    ensures r.patternType == w.patternType && r.patternStep == w.patternStep && r.holding == w.holding
    // reaching the length completes the level, with its reward credited to the record
    ensures r.distance >= w.level.length ==> r == Ended(r, true, w.user)
    ensures r.distance < w.level.length ==> r.state == w.state && r.user == w.user && r.earnedOrbs == w.earnedOrbs
  {
    var distance := w.distance + w.level.speed;
    var moved := w.(player := Move(w.player, w.holding, canvasHeight), distance := distance,
                    progress := Progress(distance, w.level.length));
    if distance >= w.level.length then Ended(moved, true, w.user) else moved
  }

  /** Step 5: append what the generator produces. */
  function WithSpawned(w: World, g: Generated): World
    requires g.Generated?
  {
    w.(obstacles := w.obstacles + g.added, patternType := g.patternType, patternStep := g.patternStep,
       nextId := w.nextId + |g.added|)
  }

  /** Step 6: the result of the backwards pass. */
  function AfterSweep(w: World, r: SweepResult, base: UserData): (a: World)
    ensures a.player == r.player && a.obstacles == r.kept && a.score == w.score + r.scored
    ensures a.distance == w.distance && a.level == w.level && a.nextId == w.nextId
    // a lethal contact ends the run on the base record; otherwise the run goes on
    ensures r.died ==>
      && a.state == GameOver
      && a.user == ApplyReward(base, Reward(w.distance, w.level.length, false))
    ensures !r.died ==> a.state == w.state && a.user == w.user && a.earnedOrbs == w.earnedOrbs
  {
    var swept := w.(player := r.player, obstacles := r.kept, score := w.score + r.scored);
    if r.died then Ended(swept, false, base) else swept
  }

  /** One tick of the simulation; nothing happens outside a run. */
  function Step(w: World, c: Canvas, d: Draws): (r: TickOutcome)
    requires ValidDraws(d)
    ensures w.state != Playing ==> r == TickOutcome(w, false)
    // the only halt: stairs in progress on a cube level with no obstacle left
    ensures r.halted <==>
      w.state == Playing && w.level.mode == Cube && w.patternType == Stairs && w.obstacles == []
    ensures r.world.level == w.level && r.world.holding == w.holding
  {
    if w.state != Playing then TickOutcome(w, false)
    else
      var w1 := Prelude(w, c.height);
      var g := Spawn(w1.level, w1.obstacles, w1.patternType, w1.patternStep, c, d, w1.nextId);
      if g.MissingLastObstacle? then TickOutcome(w1, true)
      else
        var w2 := WithSpawned(w1, g);
        TickOutcome(AfterSweep(w2, Sweep(w2.player, w2.obstacles, w2.level.speed), w.user), false)
  }

  /** The engine object: one field per piece of run state, updated in place. */
  class Simulation {
    var state: GameState
    var level: Level
    var player: Player
    var obstacles: seq<Obstacle>
    var score: nat
    var distance: real
    var progress: int
    var patternType: PatternType
    var patternStep: nat
    var user: UserData
    var earnedOrbs: nat
    var holding: bool
    var nextId: nat

    function Model(): World
      reads this
    {
      World(state, level, player, obstacles, score, distance, progress, patternType, patternStep,
            user, earnedOrbs, holding, nextId)
    }

    constructor ()
      ensures Model() == Initial()
    {
      state := Menu;
      level := Levels[0];
      player := Player(100.0, 0.0, PlayerSize, PlayerSize, 0.0, 0.0, false, DefaultColor, Cube);
      obstacles := [];
      score, distance, progress := 0, 0.0, 0;
      patternType, patternStep := NoPattern, 0;
      user, earnedOrbs := DefaultUser, 0;
      holding, nextId := false, 0;
    }

    method Start(levelIndex: nat, c: Canvas, color: string)
      requires levelIndex < |Levels|
      modifies this
      ensures Model() == Started(old(Model()), Levels[levelIndex], c, color)
    {
      var chosen := Levels[levelIndex];
      var avatar := Player(c.width as real * 0.2, c.height as real - GroundHeight - PlayerSize,
                           PlayerSize, PlayerSize, 0.0, 0.0, true, color, chosen.mode);
      if chosen.mode == Ship {
        avatar := avatar.(y := c.height as real / 2.0, grounded := false);
      }
      level, player := chosen, avatar;
      ResetRun();
      state := Playing;
    }

    /** Clear the obstacles, the counters, the progress and the pattern of a new run. */
    method ResetRun()
      modifies this
      ensures Model() == old(Model()).(obstacles := [], score := 0, distance := 0.0, progress := 0,
                                       patternType := NoPattern, patternStep := 0, earnedOrbs := 0)
    {
      obstacles := [];
      score, distance := 0, 0.0;
      patternStep, patternType := 0, NoPattern;
      progress, earnedOrbs := 0, 0;
    }

    method InputStart(storeOpen: bool, onButton: bool)
      modifies this
      ensures Model() == Pressed(old(Model()), storeOpen, onButton)
    {
      if storeOpen || onButton {
        return;
      }
      if state != Playing {
        return;
      }
      holding := true;
      if player.mode == Cube && player.grounded {
        player := player.(dy := JumpForce, grounded := false);
      }
    }

    method InputEnd()
      modifies this
      ensures Model() == Released(old(Model()))
    {
      holding := false;
    }

    method EndGame(completed: bool, base: UserData)
      modifies this
      ensures Model() == Ended(old(Model()), completed, base)
    {
      var currentProgress := Progress(distance, level.length);
      var reward := currentProgress / 10;
      if completed {
        reward := reward + CompletionBonus;
      }
      if reward > 0 {
        earnedOrbs := reward;
        user := base.(orbs := base.orbs + reward);
      } else {
        earnedOrbs := 0;
        user := base;
      }
      state := if completed then LevelComplete else GameOver;
    }

    method BuyOrEquip(itemId: string, price: nat)
      modifies this
      ensures Model() == old(Model()).(user := Store.BuyOrEquip(old(user), itemId, price))
    {
      if itemId in user.unlockedSkins {
        user := user.(equippedSkin := itemId);
      } else if user.orbs >= price {
        user := UserData(user.orbs - price, user.unlockedSkins + [itemId], itemId);
      }
    }

    /** Append a fresh obstacle at the right edge. */
    method Push(c: Canvas, y: real, width: real, height: real, kind: ObstacleKind)
      modifies this
      ensures Model() == old(Model()).(obstacles := old(obstacles) + [NewObstacle(old(nextId), c, y, width, height, kind)],
                                       nextId := old(nextId) + 1)
    {
      obstacles := obstacles + [NewObstacle(nextId, c, y, width, height, kind)];
      nextId := nextId + 1;
    }

    /** Step 5 in place; `halted` when stairs are in progress and there is no last obstacle. */
    method GenerateObstacles(c: Canvas, d: Draws) returns (halted: bool)
      requires ValidDraws(d)
      modifies this
      ensures var g := Spawn(old(level), old(obstacles), old(patternType), old(patternStep), c, d, old(nextId));
        && halted == g.MissingLastObstacle?
        && Model() == if halted then old(Model()) else WithSpawned(old(Model()), g)
    {
      if level.mode == Ship {
        GenerateShip(c, d);
        halted := false;
      } else {
        halted := GenerateCube(c, d);
      }
    }

    method GenerateShip(c: Canvas, d: Draws)
      requires ValidDraws(d)
      modifies this
      ensures Model() == WithSpawned(old(Model()), SpawnShip(old(obstacles), old(patternType), old(patternStep), c, d, old(nextId)))
    {
      var width, height := c.width as real, c.height as real;
      if obstacles == [] || width - Last(obstacles).x > d.gap * (ShipMaxGap - ShipMinGap) + ShipMinGap {
        if d.kind > 0.6 {
          var gapY := GateY(c, d);
          Push(c, 0.0, 60.0, gapY, Block);
          Push(c, gapY + GateGap, 60.0, height - GroundHeight - (gapY + GateGap), Block);
        } else if d.kind > 0.3 {
          Push(c, MidAirY(c, d), 80.0, 80.0, Block);
        } else {
          Push(c, if d.place > 0.5 then height - GroundHeight - 50.0 else 0.0, 50.0, 50.0, Spike);
        }
      }
    }

    method GenerateCube(c: Canvas, d: Draws) returns (halted: bool)
      requires ValidDraws(d)
      modifies this
      ensures var g := SpawnCube(old(level).speed, old(obstacles), old(patternType), old(patternStep), c, d, old(nextId));
        && halted == g.MissingLastObstacle?
        && Model() == if halted then old(Model()) else WithSpawned(old(Model()), g)
    {
      halted := false;
      var width, height := c.width as real, c.height as real;
      var minGap, maxGap := CubeMinGap(level.speed), CubeMaxGap(level.speed);
      if patternType == Stairs {
        if obstacles == [] {
          // reading the position of a missing last obstacle
          return true;
        }
        if width - Last(obstacles).x > StairGap(level.speed) {
          patternStep := patternStep + 1;
          var stepHeight := StepHeight * (patternStep + 1) as real;
          Push(c, height - GroundHeight - stepHeight, 60.0, stepHeight, Block);
          if patternStep >= 2 {
            patternType := NoPattern;
          }
        }
      } else if obstacles == [] || width - Last(obstacles).x > d.gap * (maxGap - minGap) + minGap {
        var rand := d.kind;
        if rand > 0.8 {
          patternType := Stairs;
          patternStep := 0;
          Push(c, height - GroundHeight - 50.0, 60.0, 50.0, Block);
        } else if rand > 0.5 {
          Push(c, height - GroundHeight - 50.0, 50.0, 50.0, Block);
        } else {
          Push(c, height - GroundHeight - 40.0, 40.0, 40.0, Spike);
        }
      }
    }

    /** Step 6 in place: walk the list from the last index down, advancing, removing,
        resolving contact and scoring; every lethal contact ends the run again. */
    method UpdateObstacles(base: UserData)
      modifies this
      ensures Model() == AfterSweep(old(Model()), Sweep(old(player), old(obstacles), old(level).speed), base)
    {
      ghost var before := Model();
      ghost var s := obstacles;
      ghost var acc := SweepResult(player, [], 0, false);
      var i := |obstacles|;
      assert s[..i] + acc.kept == s;
      while i > 0
        invariant 0 <= i <= |s|
        invariant acc == Sweep(before.player, s[i..], before.level.speed)
        invariant Model() == AfterSweep(before, acc.(kept := s[..i] + acc.kept), base)
        decreases i
      {
        assert s[i - 1..][1..] == s[i..];
        VisitAt(i - 1, base, before, s[..i], acc);
        assert s[..i][..i - 1] == s[..i - 1];
        acc := Visit(acc, s[i - 1], before.level.speed);
        i := i - 1;
      }
      assert s[i..] == s;
      assert s[..i] + acc.kept == acc.kept;
    }

    /** The loop body of step 6 at index `i`: the backwards pass has reached `acc` on the
        suffix after `i`, and the list still holds the untouched `prefix` before it. */
    method VisitAt(i: nat, base: UserData, ghost before: World, ghost prefix: seq<Obstacle>, ghost acc: SweepResult)
      requires |prefix| == i + 1
      requires Model() == AfterSweep(before, acc.(kept := prefix + acc.kept), base)
      modifies this
      ensures var next := Visit(acc, prefix[i], before.level.speed);
        Model() == AfterSweep(before, next.(kept := prefix[..i] + next.kept), base)
    {
      assert obstacles == prefix + acc.kept && level == before.level;
      assert obstacles[i] == prefix[i];
      var obs := obstacles[i];
      obs := obs.(x := obs.x - level.speed);
      if obs.x + obs.width < 0.0 {
        obstacles := obstacles[..i] + obstacles[i + 1..];
        assert obstacles == prefix[..i] + acc.kept;
      } else {
        Resolve(i, obs, base, before, prefix, acc);
      }
    }

    /** An advanced obstacle at index `i` that is still on screen: land on it or die on it,
        then mark and score it once it is behind the avatar. */
    method Resolve(i: nat, obs: Obstacle, base: UserData, ghost before: World, ghost prefix: seq<Obstacle>,
                   ghost acc: SweepResult)
      requires |prefix| == i + 1
      requires Model() == AfterSweep(before, acc.(kept := prefix + acc.kept), base)
      requires obs == Advance(prefix[i], before.level.speed) && !OffScreen(obs)
      modifies this
      ensures var next := Visit(acc, prefix[i], before.level.speed);
        Model() == AfterSweep(before, next.(kept := prefix[..i] + next.kept), base)
    {
      assert obstacles == prefix + acc.kept && player == acc.player;
      var obs := obs;
      Collide(obs, base);
      if !obs.passed && obs.x + obs.width < player.x {
        obs := obs.(passed := true);
        score := score + 1;
      }
      obstacles := obstacles[i := obs];
      assert obstacles == prefix[..i] + ([obs] + acc.kept);
    }

    /** Contact with one obstacle: land on top of a block, or end the run as lost. */
    method Collide(obs: Obstacle, base: UserData)
      modifies this
      ensures var contact := Classify(old(player), obs);
        Model() == if contact == Land then old(Model()).(player := LandOn(old(player), obs))
                   else if contact == Die then Ended(old(Model()), false, base)
                   else old(Model())
    {
      var contact := Classify(player, obs);
      if contact == Land {
        player := LandOn(player, obs);
      } else if contact == Die {
        EndGame(false, base);
      }
    }

    /** Steps 1 to 4 in place: auto-jump, physics, floor and ceiling; then distance,
        progress and completion. */
    method MoveAndProgress(canvasHeight: nat)
      modifies this
      ensures Model() == Prelude(old(Model()), canvasHeight)
    {
      var base := user;
      player := AutoJump(player, holding);
      player := Integrate(player, holding);
      player := Clamp(player, canvasHeight);
      distance := distance + level.speed;
      progress := Progress(distance, level.length);
      if distance >= level.length {
        EndGame(true, base);
      }
    }

    /** One frame of the game loop, in the source's order. */
    method Tick(c: Canvas, d: Draws) returns (halted: bool)
      requires ValidDraws(d)
      modifies this
      ensures TickOutcome(Model(), halted) == Step(old(Model()), c, d)
    {
      halted := false;
      if state != Playing {
        return;
      }
      var base := user;
      MoveAndProgress(c.height);
      // generation, then the obstacle pass
      halted := GenerateObstacles(c, d);
      if halted {
        return;
      }
      UpdateObstacles(base);
    }
  }
}
