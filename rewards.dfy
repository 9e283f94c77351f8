/** Run progress and the orb reward paid when a run ends. */
module Rewards {
  import opened Entities

  const CompletionBonus: int := 20

  /** Progress in whole percent: the floor of distance/length, capped at 100. */
  function Progress(distance: real, length: PosReal): (p: int)
    ensures p <= 100
    ensures distance >= 0.0 ==> p >= 0
    ensures p == 100 <==> distance >= length
    ensures p < 100 ==> p as real <= distance / length * 100.0 < p as real + 1.0
  {
    var pct := distance / length * 100.0;
    assert distance >= length <==> pct >= 100.0 by {
      RatioAtLeastOne(distance, length);
    }
    if pct.Floor <= 100 then pct.Floor else 100
  }

  lemma RatioAtLeastOne(d: real, l: PosReal)
    ensures d >= l <==> d / l >= 1.0
  {
    var q := d / l;
    assert q * l == d;
    if q >= 1.0 {
      assert (q - 1.0) * l >= 0.0;
    } else {
      assert (1.0 - q) * l > 0.0;
    }
  }

  /** Progress never goes down while the distance grows. */
  lemma ProgressMonotone(d1: real, d2: real, length: PosReal)
    requires d1 <= d2
    ensures Progress(d1, length) <= Progress(d2, length)
  {
    var a, b := d1 / length * 100.0, d2 / length * 100.0;
    assert b - a == (d2 - d1) / length * 100.0;
    assert a <= b;
  }

  /** One orb per full ten percent of progress, plus a bonus when the level is completed. */
  function Reward(distance: real, length: PosReal, completed: bool): (r: int)
    ensures distance >= 0.0 ==> 0 <= r <= 30
    ensures distance >= 0.0 && completed ==> r >= CompletionBonus
    ensures distance >= 0.0 && !completed ==> r <= 10
    ensures var earned := if completed then r - CompletionBonus else r;
      10 * earned <= Progress(distance, length) < 10 * earned + 10
  {
    var tenths := Progress(distance, length) / 10;
    if completed then tenths + CompletionBonus else tenths
  }

  /** Credit a reward to the progression record; a reward that is not positive changes nothing. */
  function ApplyReward(user: UserData, reward: int): (u: UserData)
    ensures u.unlockedSkins == user.unlockedSkins && u.equippedSkin == user.equippedSkin
    ensures u.orbs == user.orbs + (if reward > 0 then reward else 0)
    ensures reward <= 0 ==> u == user
  {
    if reward > 0 then user.(orbs := user.orbs + reward) else user
  }

  /** The worked values: 45% without completion pays 4, a completed level pays 30,
      5% pays nothing. */
  lemma RewardExamples()
    ensures Reward(2250.0, 5000.0, false) == 4
    ensures Reward(5000.0, 5000.0, true) == 30
    ensures Reward(250.0, 5000.0, false) == 0
  {
    assert (2250.0 / 5000.0 * 100.0).Floor == 45;
    assert (250.0 / 5000.0 * 100.0).Floor == 5;
  }
}
