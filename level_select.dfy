/** Cycling the selected level index through the catalogue. */
module LevelSelect {
  import opened Entities

  /** The previous level, wrapping from the first to the last. */
  function PrevLevel(i: nat): (j: nat)
    ensures j < |Levels|
    ensures 0 < i < |Levels| ==> j == i - 1
    ensures i == 0 ==> j == |Levels| - 1
  {
    (i - 1 + |Levels|) % |Levels|
  }

  /** The next level, wrapping from the last to the first. */
  function NextLevel(i: nat): (j: nat)
    ensures j < |Levels|
    ensures i + 1 < |Levels| ==> j == i + 1
    ensures i + 1 == |Levels| ==> j == 0
  {
    (i + 1) % |Levels|
  }

  lemma PrevUndoesNext(i: nat)
    requires i < |Levels|
    ensures PrevLevel(NextLevel(i)) == i && NextLevel(PrevLevel(i)) == i
  {
  }

  /** Pressing "next" k times. */
  function NextTimes(i: nat, k: nat): (j: nat)
    decreases k
  {
    if k == 0 then i else NextLevel(NextTimes(i, k - 1))
  }

  /** k presses of "next" move the index k places round the catalogue, so a full
      round of presses comes back to the starting level. */
  lemma {:induction false} NextTimesWraps(i: nat, k: nat)
    requires i < |Levels|
    ensures NextTimes(i, k) == (i + k) % |Levels|
  {
    if k > 0 {
      NextTimesWraps(i, k - 1);
      CountIsThirteen();
      WrapSuccessor(i + k - 1);
    }
  }

  lemma CountIsThirteen()
    ensures |Levels| == 13
  {
  }

  lemma WrapSuccessor(a: nat)
    ensures (a % 13 + 1) % 13 == (a + 1) % 13
  {
  }
}
