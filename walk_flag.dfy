/**
 * The robotIsWalking flag that SimpleThinking and SoccerThinking keep
 * beside their selector calls: it records whether the last walking
 * selector called was setWalkForward rather than setStopWalking, so that
 * a turn or side step is never started while the robot still walks.
 */
module WalkFlag {
  import opened Motion

  /** One decision: the selector called and the flag after it. */
  datatype Choice = Choice(selector: Selector, walking: bool)

  /**
   * The flag rule: a walk sets the flag, a stop clears it, any other
   * selector leaves it as it was; and a `careful` selector is chosen only
   * with the flag clear.
   */
  predicate Keeps(walking: bool, c: Choice, careful: Selector -> bool)
  {
    && (c.selector.Walk? ==> c.walking)
    && (c.selector.Stop? ==> !c.walking)
    && (!c.selector.Walk? && !c.selector.Stop? ==> c.walking == walking)
    && (careful(c.selector) ==> !walking)
  }

  /** The flag before decision i of a run that starts with flag `walking`. */
  function FlagBefore(cs: seq<Choice>, walking: bool, i: nat): bool
    requires i <= |cs|
  {
    if i == 0 then walking else cs[i - 1].walking
  }

  /** Every decision of the run keeps the flag rule. */
  predicate Run(cs: seq<Choice>, walking: bool, careful: Selector -> bool)
  {
    forall i {:trigger Keeps(FlagBefore(cs, walking, i), cs[i], careful)} ::
      0 <= i < |cs| ==> Keeps(FlagBefore(cs, walking, i), cs[i], careful)
  }

  /** A decision that keeps the rule, followed by a run from the flag it leaves, is a run. */
  lemma RunCons(c: Choice, rest: seq<Choice>, walking: bool, careful: Selector -> bool)
    requires Keeps(walking, c, careful) && Run(rest, c.walking, careful)
    ensures Run([c] + rest, walking, careful)
  {
    var cs := [c] + rest;
    forall i | 0 <= i < |cs|
      ensures Keeps(FlagBefore(cs, walking, i), cs[i], careful)
    {
      if i > 0 {
        assert cs[i] == rest[i - 1] && FlagBefore(cs, walking, i) == FlagBefore(rest, c.walking, i - 1);
        assert Keeps(FlagBefore(rest, c.walking, i - 1), rest[i - 1], careful);
      }
    }
  }

  /** After a walk the flag stays set up to the next stop. */
  lemma {:induction false} WalkingUntilStop(cs: seq<Choice>, walking: bool, careful: Selector -> bool, i: nat, j: nat)
    requires Run(cs, walking, careful)
    requires i < j <= |cs| && cs[i].selector.Walk?
    requires forall k :: i < k < j ==> !cs[k].selector.Stop?
    ensures cs[j - 1].walking
    decreases j
  {
    if j - 1 > i {
      WalkingUntilStop(cs, walking, careful, i, j - 1);
      var k := j - 1;
      assert !cs[k].selector.Stop? && FlagBefore(cs, walking, k) == cs[k - 1].walking;
      assert Keeps(FlagBefore(cs, walking, k), cs[k], careful);
    } else {
      assert Keeps(FlagBefore(cs, walking, i), cs[i], careful);
    }
  }

  /** Between a walk and any later careful selector of a run there is a stop. */
  lemma StopBetween(cs: seq<Choice>, walking: bool, careful: Selector -> bool)
    requires Run(cs, walking, careful)
    ensures forall i, j :: 0 <= i < j < |cs| && cs[i].selector.Walk? && careful(cs[j].selector) ==>
              exists k :: i < k < j && cs[k].selector.Stop?
  {
    forall i, j | 0 <= i < j < |cs| && cs[i].selector.Walk? && careful(cs[j].selector)
      ensures exists k :: i < k < j && cs[k].selector.Stop?
    {
      assert Keeps(FlagBefore(cs, walking, j), cs[j], careful);
      if forall k :: i < k < j ==> !cs[k].selector.Stop? {
        WalkingUntilStop(cs, walking, careful, i, j);
      }
    }
  }
}
