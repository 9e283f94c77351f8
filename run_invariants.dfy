/** What holds of every world the engine can reach, and what one tick does to the run's
    counters, its state and the progression record. */
module RunInvariants {
  import opened Entities
  import opened Rewards
  import Store
  import opened Physics
  import opened Generation
  import opened ObstaclePass
  import opened Simulation

  /** The run invariant. Progress is the HUD value of the distance; a run in progress has not
      reached the level's length and a completed one has; the stairs pattern is at step 0 or
      1; the progression record is well formed; obstacle ids are fresh and increasing; the
      avatar flies in the level's mode, a ship never rises faster than its limit; and every
      obstacle marked as passed has been scored. */
  predicate Inv(w: World)
    ensures Inv(w) ==> 0 <= w.progress <= 100
  {
    && w.distance >= 0.0
    && w.progress == Progress(w.distance, w.level.length)
    && (w.state == Playing ==> w.distance < w.level.length)
    && (w.state == LevelComplete ==> w.distance >= w.level.length)
    && (w.patternType == Stairs ==> w.patternStep <= 1)
    && Store.WellFormed(w.user)
    && IdsIncreasing(w.obstacles) && IdsBelow(w.obstacles, w.nextId)
    && w.player.mode == w.level.mode
    && (w.player.mode == Ship ==> w.player.dy >= ShipMaxRise)
    && PassedCount(w.obstacles) <= w.score
  }

  lemma InitialInv()
    ensures Inv(Initial())
  {
    Store.DefaultUserWellFormed();
  }

  /** Starting any level from any world whose progression record is well formed. */
  lemma StartedInv(w: World, levelIndex: nat, c: Canvas, color: string)
    requires levelIndex < |Levels| && Store.WellFormed(w.user)
    ensures Inv(Started(w, Levels[levelIndex], c, color))
  {
    var r := Started(w, Levels[levelIndex], c, color);
    assert r.progress == Progress(0.0, r.level.length);
  }

  lemma PressedInv(w: World, storeOpen: bool, onButton: bool)
    requires Inv(w)
    ensures Inv(Pressed(w, storeOpen, onButton))
  {
  }

  lemma ReleasedInv(w: World)
    requires Inv(w)
    ensures Inv(Released(w))
  {
  }

  /** Buying or equipping in the store keeps the invariant. */
  lemma BuyOrEquipInv(w: World, itemId: string, price: nat)
    requires Inv(w)
    ensures Inv(w.(user := Store.BuyOrEquip(w.user, itemId, price)))
  {
  }

  /** A credited reward keeps the progression record well formed. */
  lemma ApplyRewardWellFormed(u: UserData, reward: int)
    requires Store.WellFormed(u)
    ensures Store.WellFormed(ApplyReward(u, reward))
  {
  }

  // The passed counter under the pass and under appending

  lemma {:induction false} PassedCountAppend(s: seq<Obstacle>, t: seq<Obstacle>)
    ensures PassedCount(s + t) == PassedCount(s) + PassedCount(t)
    decreases |s|
  {
    if s != [] {
      PassedCountAppend(s[1..], t);
      assert (s + t)[0] == s[0] && (s + t)[1..] == s[1..] + t;
    } else {
      assert s + t == t;
    }
  }

  /** Advancing keeps every passed flag and the filter only drops obstacles. */
  lemma {:induction false} PassedCountOnScreen(s: seq<Obstacle>, speed: real)
    ensures PassedCount(OnScreen(Advanced(s, speed))) <= PassedCount(s)
    decreases |s|
  {
    if s != [] {
      PassedCountOnScreen(s[1..], speed);
      var a := Advanced(s, speed);
      assert a[0] == Advance(s[0], speed) && a[1..] == Advanced(s[1..], speed);
      var head := if OffScreen(a[0]) then [] else [a[0]];
      PassedCountAppend(head, OnScreen(a[1..]));
    }
  }

  /** New obstacles are not passed. */
  lemma {:induction false} PassedCountFresh(s: seq<Obstacle>)
    requires forall i :: 0 <= i < |s| ==> !s[i].passed
    ensures PassedCount(s) == 0
    decreases |s|
  {
    if s != [] {
      PassedCountFresh(s[1..]);
    }
  }

  /** Steps 1 to 4 keep the invariant and leave the obstacles, the pattern and the ids. */
  lemma PreludeInv(w: World, canvasHeight: nat)
    requires Inv(w) && w.state == Playing
    ensures var w1 := Prelude(w, canvasHeight);
      && Inv(w1)
      && w1.obstacles == w.obstacles && w1.nextId == w.nextId && w1.score == w.score
      && w1.patternType == w.patternType && w1.patternStep == w.patternStep && w1.level == w.level
      && w1.player == Move(w.player, w.holding, canvasHeight)
  {
    var distance := w.distance + w.level.speed;
    ApplyRewardWellFormed(w.user, Reward(distance, w.level.length, true));
  }

  /** Appending what the generator produced keeps the invariant. */
  lemma SpawnedInv(w1: World, c: Canvas, d: Draws)
    requires ValidDraws(d) && Inv(w1)
    requires Spawn(w1.level, w1.obstacles, w1.patternType, w1.patternStep, c, d, w1.nextId).Generated?
    ensures Inv(WithSpawned(w1, Spawn(w1.level, w1.obstacles, w1.patternType, w1.patternStep, c, d, w1.nextId)))
  {
    var g := Spawn(w1.level, w1.obstacles, w1.patternType, w1.patternStep, c, d, w1.nextId);
    var s := w1.obstacles + g.added;
    forall i, j | 0 <= i < j < |s|
      ensures s[i].id < s[j].id
    {
      if j >= |w1.obstacles| {
        assert s[j] == g.added[j - |w1.obstacles|];
      }
    }
    forall i | 0 <= i < |s|
      ensures s[i].id < w1.nextId + |g.added|
    {
      if i >= |w1.obstacles| {
        assert s[i] == g.added[i - |w1.obstacles|];
      }
    }
    PassedCountFresh(g.added);
    PassedCountAppend(w1.obstacles, g.added);
  }

  /** The obstacle pass keeps the invariant. */
  lemma SweepInv(w2: World, base: UserData)
    requires Inv(w2) && Store.WellFormed(base)
    ensures Inv(AfterSweep(w2, Sweep(w2.player, w2.obstacles, w2.level.speed), base))
  {
    var s, speed := w2.obstacles, w2.level.speed;
    var r := Sweep(w2.player, s, speed);
    SweepKeepsIds(w2.player, s, speed, w2.nextId);
    SweepMatchesReference(w2.player, s, speed);
    var on := OnScreen(Advanced(s, speed));
    MarkingCountsFlips(on, w2.player.x);
    PassedCountOnScreen(s, speed);
    assert PassedCount(r.kept) <= w2.score + r.scored;
    ApplyRewardWellFormed(base, Reward(w2.distance, w2.level.length, false));
  }

  /** Every tick keeps the invariant. */
  lemma StepPreservesInv(w: World, c: Canvas, d: Draws)
    requires ValidDraws(d) && Inv(w)
    ensures Inv(Step(w, c, d).world)
  {
    if w.state == Playing {
      var w1 := Prelude(w, c.height);
      PreludeInv(w, c.height);
      var g := Spawn(w1.level, w1.obstacles, w1.patternType, w1.patternStep, c, d, w1.nextId);
      if g.Generated? {
        SpawnedInv(w1, c, d);
        SweepInv(WithSpawned(w1, g), w.user);
      }
    }
  }

  /** What one tick does to the run's state and the progression record. Outside a run
      nothing changes. In a run the distance grows by the level's speed; the tick halts
      exactly when stairs are in progress on an empty list; otherwise the run is lost
      exactly when some contact was lethal (even in the tick that reached the length),
      complete when it reached the length without one, and still in progress otherwise.
      Whenever the run has ended, the record is the one at the start of the tick credited
      with the reward for the final distance, paid once. */
  lemma StepOutcome(w: World, c: Canvas, d: Draws)
    requires ValidDraws(d)
    ensures w.state != Playing ==> Step(w, c, d) == TickOutcome(w, false)
    ensures w.state == Playing ==>
      var r := Step(w, c, d);
      var distance := w.distance + w.level.speed;
      var g := Spawn(w.level, w.obstacles, w.patternType, w.patternStep, c, d, w.nextId);
      && r.world.distance == distance
      && r.world.progress == Progress(distance, w.level.length)
      && (r.halted <==> g.MissingLastObstacle?)
      && (r.halted ==> r.world.obstacles == w.obstacles)
      && (!r.halted ==>
            var died := Sweep(Move(w.player, w.holding, c.height), w.obstacles + g.added, w.level.speed).died;
            && (r.world.state == GameOver <==> died)
            && (r.world.state == LevelComplete <==> !died && distance >= w.level.length)
            && (r.world.state == Playing <==> !died && distance < w.level.length))
      && (r.world.state != Playing ==>
            var reward := Reward(distance, w.level.length, r.world.state == LevelComplete);
            && r.world.user == ApplyReward(w.user, reward)
            && r.world.earnedOrbs == (if reward > 0 then reward else 0))
      && (r.world.state == Playing ==> r.world.user == w.user && r.world.earnedOrbs == w.earnedOrbs)
  {
    if w.state == Playing {
      var w1 := Prelude(w, c.height);
      var g := Spawn(w.level, w.obstacles, w.patternType, w.patternStep, c, d, w.nextId);
      if g.Generated? {
        var w2 := WithSpawned(w1, g);
        var sw := Sweep(w2.player, w2.obstacles, w2.level.speed);
        assert w2.player == Move(w.player, w.holding, c.height) && w2.obstacles == w.obstacles + g.added;
        assert w2.distance == w.distance + w.level.speed;
      }
    }
  }

  /** In a tick that does not halt, the list left behind is exactly the advanced obstacles
      still on screen, marked when behind the avatar, and the score grows by the number of
      them that were not marked before. */
  lemma StepObstacles(w: World, c: Canvas, d: Draws)
    requires ValidDraws(d) && w.state == Playing
    requires Spawn(w.level, w.obstacles, w.patternType, w.patternStep, c, d, w.nextId).Generated?
    ensures var r := Step(w, c, d).world;
      var g := Spawn(w.level, w.obstacles, w.patternType, w.patternStep, c, d, w.nextId);
      var on := OnScreen(Advanced(w.obstacles + g.added, w.level.speed));
      var x := Move(w.player, w.holding, c.height).x;
      && r.obstacles == Marked(on, x)
      && r.score == w.score + NewlyPassed(on, x)
  {
    var w1 := Prelude(w, c.height);
    var g := Spawn(w.level, w.obstacles, w.patternType, w.patternStep, c, d, w.nextId);
    var w2 := WithSpawned(w1, g);
    SweepMatchesReference(w2.player, w2.obstacles, w2.level.speed);
  }

  /** In a tick that does not halt, the run is lost exactly when, at some index of the list
      after generation, an obstacle still on screen makes lethal contact with the avatar as
      the pass over the later indices left it. */
  lemma StepLostIffLethal(w: World, c: Canvas, d: Draws)
    requires ValidDraws(d) && w.state == Playing
    requires Spawn(w.level, w.obstacles, w.patternType, w.patternStep, c, d, w.nextId).Generated?
    ensures var g := Spawn(w.level, w.obstacles, w.patternType, w.patternStep, c, d, w.nextId);
      var s := w.obstacles + g.added;
      Step(w, c, d).world.state == GameOver <==>
        exists k: nat :: k < |s| && LethalAt(Move(w.player, w.holding, c.height), s, w.level.speed, k)
  {
    var g := Spawn(w.level, w.obstacles, w.patternType, w.patternStep, c, d, w.nextId);
    StepOutcome(w, c, d);
    SweepDiesIffLethal(Move(w.player, w.holding, c.height), w.obstacles + g.added, w.level.speed);
  }

  /** In a run the distance strictly grows and the progress never goes down. */
  lemma StepProgressMonotone(w: World, c: Canvas, d: Draws)
    requires ValidDraws(d) && Inv(w) && w.state == Playing
    ensures Step(w, c, d).world.distance > w.distance
    ensures Step(w, c, d).world.progress >= w.progress
  {
    StepOutcome(w, c, d);
    ProgressMonotone(w.distance, w.distance + w.level.speed, w.level.length);
  }
}
