/** The per-tick pass over the obstacle list, from the last index down to the first: advance
    each obstacle, drop it once it is off the left edge, resolve contact with the avatar, and
    score it the first time it falls behind the avatar. */
module ObstaclePass {
  import opened Entities
  import opened Collision

  function Advance(o: Obstacle, speed: real): Obstacle {
    o.(x := o.x - speed)
  }

  /** Entirely past the left edge of the canvas. */
  predicate OffScreen(o: Obstacle) {
    o.x + o.width < 0.0
  }

  /** The obstacle's right edge is left of the avatar's left edge. */
  predicate Behind(o: Obstacle, playerX: real) {
    o.x + o.width < playerX
  }

  function Mark(o: Obstacle, playerX: real): Obstacle {
    o.(passed := o.passed || Behind(o, playerX))
  }

  datatype SweepResult = SweepResult(player: Player, kept: seq<Obstacle>, scored: nat, died: bool)

  /** Visit one obstacle after the later ones have been visited (`acc`): advance it; drop it
      if it is off screen; otherwise resolve contact with the avatar and mark and score it
      if it is now behind the avatar for the first time. */
  function Visit(acc: SweepResult, obstacle: Obstacle, speed: real): (r: SweepResult)
    ensures r.player == acc.player.(y := r.player.y, dy := r.player.dy, grounded := r.player.grounded)
    ensures acc.player.mode == Ship && acc.player.dy >= ShipMaxRise ==> r.player.dy >= ShipMaxRise
    ensures |r.kept| <= |acc.kept| + 1
    ensures acc.scored <= |acc.kept| ==> r.scored <= |r.kept|
    ensures acc.died ==> r.died
    // an obstacle off screen after advancing is dropped and nothing else happens
    ensures OffScreen(Advance(obstacle, speed)) ==> r == acc
    // one still on screen is kept, in front of the later ones, marked against the avatar;
    // the avatar moves only by landing on it, and a lethal contact ends the run
    ensures !OffScreen(Advance(obstacle, speed)) ==>
      var o := Advance(obstacle, speed);
      var contact := Classify(acc.player, o);
      && r.kept == [Mark(o, acc.player.x)] + acc.kept
      && r.player == (if contact == Land then LandOn(acc.player, o) else acc.player)
      && (r.died <==> acc.died || contact == Die)
  {
    var o := Advance(obstacle, speed);
    if OffScreen(o) then acc
    else
      var contact := Classify(acc.player, o);
      var q := if contact == Land then LandOn(acc.player, o) else acc.player;
      var flip := !o.passed && Behind(o, q.x);
      SweepResult(q, [Mark(o, q.x)] + acc.kept, acc.scored + (if flip then 1 else 0),
                  acc.died || contact == Die)
  }

  /** The pass over `s`, which visits the later indices first: `s[1..]` is swept, then
      `s[0]` is visited with the avatar as the later obstacles left it. `died` records that
      some contact was lethal; `scored` counts the passed flags that went from false to true. */
  function Sweep(p: Player, s: seq<Obstacle>, speed: real): (r: SweepResult)
    ensures r.player == p.(y := r.player.y, dy := r.player.dy, grounded := r.player.grounded)
    ensures p.mode == Ship && p.dy >= ShipMaxRise ==> r.player.dy >= ShipMaxRise
    ensures |r.kept| <= |s|
    ensures r.scored <= |r.kept|
    decreases |s|
  {
    if s == [] then SweepResult(p, [], 0, false)
    else Visit(Sweep(p, s[1..], speed), s[0], speed)
  }

  // Reference definitions: a map, a filter and a count.

  function Advanced(s: seq<Obstacle>, speed: real): (a: seq<Obstacle>)
    ensures |a| == |s|
  {
    if s == [] then [] else [Advance(s[0], speed)] + Advanced(s[1..], speed)
  }

  function OnScreen(s: seq<Obstacle>): seq<Obstacle> {
    if s == [] then []
    else (if OffScreen(s[0]) then [] else [s[0]]) + OnScreen(s[1..])
  }

  function Marked(s: seq<Obstacle>, playerX: real): seq<Obstacle> {
    if s == [] then [] else [Mark(s[0], playerX)] + Marked(s[1..], playerX)
  }

  /** The obstacles not yet passed that are now behind the avatar. */
  function NewlyPassed(s: seq<Obstacle>, playerX: real): nat {
    if s == [] then 0
    else (if !s[0].passed && Behind(s[0], playerX) then 1 else 0) + NewlyPassed(s[1..], playerX)
  }

  function PassedCount(s: seq<Obstacle>): nat {
    if s == [] then 0 else (if s[0].passed then 1 else 0) + PassedCount(s[1..])
  }

  /** The pass keeps, in their order, exactly the advanced obstacles still on screen, marks
      those now behind the avatar, and scores one for each of them not marked before. */
  lemma {:induction false} SweepMatchesReference(p: Player, s: seq<Obstacle>, speed: real)
    ensures Sweep(p, s, speed).kept == Marked(OnScreen(Advanced(s, speed)), p.x)
    ensures Sweep(p, s, speed).scored == NewlyPassed(OnScreen(Advanced(s, speed)), p.x)
    decreases |s|
  {
    if s != [] {
      SweepMatchesReference(p, s[1..], speed);
      var a := Advanced(s, speed);
      var o := Advance(s[0], speed);
      assert a[0] == o && a[1..] == Advanced(s[1..], speed);
      var t := OnScreen(a[1..]);
      if !OffScreen(o) {
        var ref := [o] + t;
        assert OnScreen(a) == ref;
        assert ref[0] == o && ref[1..] == t;
        assert Marked(ref, p.x) == [Mark(o, p.x)] + Marked(t, p.x);
        assert NewlyPassed(ref, p.x) == (if !o.passed && Behind(o, p.x) then 1 else 0) + NewlyPassed(t, p.x);
      } else {
        assert OnScreen(a) == [] + t;
        assert [] + t == t;
      }
    }
  }

  /** Every obstacle the pass keeps is on screen, and every obstacle still on screen after
      advancing is kept, marked against the avatar. */
  lemma {:induction false} SweepKeepsOnScreen(p: Player, s: seq<Obstacle>, speed: real)
    ensures forall o :: o in Sweep(p, s, speed).kept ==> !OffScreen(o)
    ensures forall k :: 0 <= k < |s| && !OffScreen(Advance(s[k], speed)) ==>
      Mark(Advance(s[k], speed), p.x) in Sweep(p, s, speed).kept
    decreases |s|
  {
    if s != [] {
      var t := s[1..];
      SweepKeepsOnScreen(p, t, speed);
      forall k | 1 <= k < |s|
        ensures s[k] == t[k - 1]
      {
      }
    }
  }

  /** The contact at index k is lethal: the obstacle is still on screen after advancing and
      the avatar, as the pass over the later indices left it, hits it. */
  predicate LethalAt(p: Player, s: seq<Obstacle>, speed: real, k: nat)
    requires k < |s|
  {
    && !OffScreen(Advance(s[k], speed))
    && Classify(Sweep(p, s[k + 1..], speed).player, Advance(s[k], speed)) == Die
  }

  /** The pass ends the run exactly when some contact along the way is lethal. */
  lemma {:induction false} SweepDiesIffLethal(p: Player, s: seq<Obstacle>, speed: real)
    ensures Sweep(p, s, speed).died <==> exists k: nat :: k < |s| && LethalAt(p, s, speed, k)
    decreases |s|
  {
    if s != [] {
      var t := s[1..];
      SweepDiesIffLethal(p, t, speed);
      forall k: nat | k < |t|
        ensures LethalAt(p, t, speed, k) <==> LethalAt(p, s, speed, k + 1)
      {
        assert t[k] == s[k + 1] && t[k + 1..] == s[k + 2..];
      }
      if Sweep(p, s, speed).died {
        if !Sweep(p, t, speed).died {
          assert LethalAt(p, s, speed, 0);
        } else {
          var k: nat :| k < |t| && LethalAt(p, t, speed, k);
          assert LethalAt(p, s, speed, k + 1);
        }
      } else {
        forall k: nat | k < |s|
          ensures !LethalAt(p, s, speed, k)
        {
          if k > 0 {
            assert !LethalAt(p, t, speed, k - 1);
          }
        }
      }
    }
  }

  /** When no obstacle still on screen touches the avatar, the pass leaves it where it was
      and the run goes on. */
  lemma {:induction false} SweepWithoutContact(p: Player, s: seq<Obstacle>, speed: real)
    requires forall k :: 0 <= k < |s| && !OffScreen(Advance(s[k], speed)) ==> !Overlaps(p, Advance(s[k], speed))
    ensures Sweep(p, s, speed).player == p && !Sweep(p, s, speed).died
    decreases |s|
  {
    if s != [] {
      var t := s[1..];
      forall k | 0 <= k < |t| && !OffScreen(Advance(t[k], speed))
        ensures !Overlaps(p, Advance(t[k], speed))
      {
        assert t[k] == s[k + 1];
      }
      SweepWithoutContact(p, t, speed);
    }
  }

  /** The avatar on a block's top after a landing. */
  predicate RestsOn(q: Player, o: Obstacle) {
    o.kind == Block && q.y + q.height == o.y && q.dy == 0.0 && q.grounded
  }

  /** The pass leaves the avatar as it was, or standing on one of the obstacles it advanced. */
  lemma {:induction false} SweepAvatarLands(p: Player, s: seq<Obstacle>, speed: real)
    ensures var q := Sweep(p, s, speed).player;
      q == p || exists k :: 0 <= k < |s| && RestsOn(q, Advance(s[k], speed))
    decreases |s|
  {
    if s != [] {
      var t := s[1..];
      SweepAvatarLands(p, t, speed);
      var q := Sweep(p, s, speed).player;
      var rest := Sweep(p, t, speed).player;
      var o := Advance(s[0], speed);
      if !OffScreen(o) && Classify(rest, o) == Land {
        assert RestsOn(q, Advance(s[0], speed));
      } else if q != p {
        assert q == rest;
        var k :| 0 <= k < |t| && RestsOn(q, Advance(t[k], speed));
        assert t[k] == s[k + 1];
      }
    }
  }

  /** Marking turns passed flags on and never off, and the number turned on is what
      scoring counts: each flip scores once and a passed obstacle never scores again. */
  lemma {:induction false} MarkingCountsFlips(s: seq<Obstacle>, playerX: real)
    ensures PassedCount(Marked(s, playerX)) == PassedCount(s) + NewlyPassed(s, playerX)
    decreases |s|
  {
    if s != [] {
      MarkingCountsFlips(s[1..], playerX);
      var m := Marked(s, playerX);
      assert m[0] == Mark(s[0], playerX) && m[1..] == Marked(s[1..], playerX);
    }
  }

  // Obstacle ids

  predicate IdsIncreasing(s: seq<Obstacle>) {
    forall i, j :: 0 <= i < j < |s| ==> s[i].id < s[j].id
  }

  predicate IdsBelow(s: seq<Obstacle>, bound: nat) {
    forall i :: 0 <= i < |s| ==> s[i].id < bound
  }

  /** The pass only drops obstacles: every id it keeps was there before, and the ids stay in
      increasing order. */
  lemma {:induction false} SweepKeepsIds(p: Player, s: seq<Obstacle>, speed: real, bound: nat)
    requires IdsIncreasing(s) && IdsBelow(s, bound)
    ensures IdsIncreasing(Sweep(p, s, speed).kept)
    ensures IdsBelow(Sweep(p, s, speed).kept, bound)
    ensures s != [] ==> forall k :: 0 <= k < |Sweep(p, s, speed).kept| ==> Sweep(p, s, speed).kept[k].id >= s[0].id
    decreases |s|
  {
    if s != [] {
      var tail := s[1..];
      assert IdsIncreasing(tail) && IdsBelow(tail, bound);
      SweepKeepsIds(p, tail, speed, bound);
      var r := Sweep(p, s, speed);
      var rest := Sweep(p, tail, speed);
      if tail != [] {
        assert s[0].id < tail[0].id;
      }
      if !OffScreen(Advance(s[0], speed)) {
        assert r.kept[1..] == rest.kept;
        forall k | 1 <= k < |r.kept|
          ensures r.kept[k].id > s[0].id
        {
          assert r.kept[k] == rest.kept[k - 1];
        }
      }
    }
  }
}
