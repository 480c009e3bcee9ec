/**
 * SoccerThinking, the decision layer of the simple soccer agent: stand up
 * when fallen; turn until the ball lies ahead; walk up to it; then side
 * step until the ball lies between the opponent goal posts and push it
 * forward. The robotIsWalking flag makes it stop walking before a small
 * turn or a side step.
 */
module SimpleSoccer {
  import opened Common
  import opened Perception
  import opened Motion
  import opened FieldConsts
  import opened DatedItems
  import opened FieldView
  import opened LookAround
  import opened WalkFlag

  /** How far, in radians, the ball may lie to either side to count as ahead. */
  const ToleratedDeviation: real := ToRadians(6.0)

  /** How close, in metres, the ball must be to dribble it. */
  const ToleratedDistance: real := 0.7

  /** The selectors that must not interrupt a walk: small turns and side steps. */
  predicate IsCareful(s: Selector)
  {
    s == Play(TurnLeftSmall) || s == Play(TurnRightSmall) ||
    s == Play(SideStepLeftKika) || s == Play(SideStepRightKika)
  }

  /**
   * What decide reads: the server time, the accelerometer, and the models
   * of the ball and of the opponent goal's left (G1R) and right (G2R) posts.
   */
  datatype View = View(now: real, acc: Vec3, ball: Dated, leftPost: Dated, rightPost: Dated)

  /** The ball (or a post) was seen less than LookTime ago. */
  predicate Fresh(now: real, d: Dated)
  {
    now - d.timeStamp < LookTime
  }

  /**
   * decide, once the motion is ready. A NaN coordinate (a model never
   * seen) fails every comparison it takes part in.
   */
  function Decision(v: View, walking: bool): (c: Choice)
    ensures Keeps(walking, c, IsCareful)
    ensures c.selector.Play? ==> Plain(c.selector.move)
    ensures c.selector in {Walk, Stop, RiseFromBack} || c.selector.Play?
    ensures v.acc.z < 7.0 ==>
              c == Choice(if v.acc.y > 0.0 then RiseFromBack else Play(RollOverToBack), walking)
    ensures v.acc.z >= 7.0 && !Fresh(v.now, v.ball) ==> c == Choice(Play(TurnLeft), walking)
    ensures c.selector == Play(TurnLeftSmall) ==> Coords(v.ball.data).Some? && Coords(v.ball.data).value.alpha > ToleratedDeviation
    ensures c.selector == Play(TurnRightSmall) ==> Coords(v.ball.data).Some? && Coords(v.ball.data).value.alpha < -ToleratedDeviation
    ensures c.selector == Play(SideStepLeftKika) ==> AlphaAtMost(Coords(v.leftPost.data), Coords(v.ball.data))
    ensures c.selector == Play(SideStepRightKika) ==>
              !AlphaAtMost(Coords(v.leftPost.data), Coords(v.ball.data)) &&
              AlphaAtMost(Coords(v.ball.data), Coords(v.rightPost.data))
    ensures c.selector.Walk? ==> Fresh(v.now, v.ball) &&
                                 (Coords(v.ball.data).Some? ==> Abs(Coords(v.ball.data).value.alpha) <= ToleratedDeviation)
  {
    var ball := Coords(v.ball.data);
    if v.acc.z < 7.0 then
      Choice(if v.acc.y > 0.0 then RiseFromBack else Play(RollOverToBack), walking)
    else if Fresh(v.now, v.ball) then
      if ball.Some? && Abs(ball.value.alpha) > ToleratedDeviation then
        if walking then Choice(Stop, false)
        else Choice(Play(if ball.value.alpha > 0.0 then TurnLeftSmall else TurnRightSmall), walking)
      else if ball.Some? && ball.value.distance > ToleratedDistance then
        Choice(Walk, true)
      else if Fresh(v.now, v.leftPost) && Fresh(v.now, v.rightPost) then
        var l := Coords(v.leftPost.data);
        var r := Coords(v.rightPost.data);
        if AlphaAtMost(l, ball) || AlphaAtMost(ball, r) then
          if walking then Choice(Stop, false)
          else Choice(Play(if AlphaAtMost(l, ball) then SideStepLeftKika else SideStepRightKika), walking)
        else Choice(Walk, true)
      else Choice(Play(TurnLeft), walking)
    else Choice(Play(TurnLeft), walking)
  }

  /** The decisions of a run of ready cycles, starting with flag `walking`. */
  function Decisions(views: seq<View>, walking: bool): (cs: seq<Choice>)
    ensures |cs| == |views|
    ensures Run(cs, walking, IsCareful)
    decreases |views|
  {
    if views == [] then []
    else
      var c := Decision(views[0], walking);
      var rest := Decisions(views[1..], c.walking);
      RunCons(c, rest, walking, IsCareful);
      [c] + rest
  }

  /** A small turn or a side step never follows a walk without a stop in between. */
  lemma NoCarefulStraightAfterWalk(views: seq<View>, walking: bool)
    ensures var cs := Decisions(views, walking);
            forall i, j :: 0 <= i < j < |cs| && cs[i].selector.Walk? && IsCareful(cs[j].selector) ==>
              exists k :: i < k < j && cs[k].selector.Stop?
  {
    StopBetween(Decisions(views, walking), walking, IsCareful);
  }

  /**
   * A stale goal post sends the robot turning left even while it walks:
   * the flag is not consulted, so a walk can be followed by a turn at once.
   */
  lemma StaleGoalTurnsWhileWalking(v: View)
    requires v.acc.z >= 7.0 && Fresh(v.now, v.ball) && !Fresh(v.now, v.leftPost)
    requires Coords(v.ball.data) == Some(Polar(0.5, 0.0, 0.0))
    ensures Decision(v, true) == Choice(Play(TurnLeft), true)
  {
  }

  class SoccerThinking {
    const percIn: PerceptorInput
    const motion: KeyframeMotion
    const ball: DatedItemModel
    const oppGoalLPost: DatedItemModel
    const oppGoalRPost: DatedItemModel
    var robotIsWalking: bool

    /** Takes the field view's ball model and the G1R and G2R post models; not walking yet. */
    constructor (percIn: PerceptorInput, localView: LocalFieldView, kfMotion: KeyframeMotion)
      requires localView.GoalsOK()
      ensures this.percIn == percIn && motion == kfMotion && ball == localView.ball
      ensures oppGoalLPost == localView.goals[G1R] && oppGoalRPost == localView.goals[G2R]
      ensures !robotIsWalking
    {
      this.percIn := percIn;
      motion := kfMotion;
      ball := localView.ball;
      oppGoalLPost := localView.goals[G1R];
      oppGoalRPost := localView.goals[G2R];
      robotIsWalking := false;
    }

    /** The models and readings decide uses, as they are now. */
    function Seen(): View
      requires percIn.acc.Some?
      reads percIn, ball, oppGoalLPost, oppGoalRPost
    {
      View(percIn.serverTime, percIn.acc.value, ball.State(), oppGoalLPost.State(), oppGoalRPost.State())
    }

    /**
     * decide: nothing while a move runs; otherwise the selector and flag
     * of Decision.
     */
    method Decide()
      requires motion.Valid() && percIn.acc.Some? && motion.percIn.acc.Some?
      modifies motion`actualSequence, motion`state, motion`currentPosture, this`robotIsWalking
      ensures motion.Valid()
      ensures !old(motion.Ready()) ==> unchanged(motion) && robotIsWalking == old(robotIsWalking)
      ensures old(motion.Ready()) ==>
                var c := Decision(old(Seen()), old(robotIsWalking));
                motion.Selected(c.selector, old(motion.currentPosture)) && robotIsWalking == c.walking
    {
      if motion.Ready() {
        var c := Decision(Seen(), robotIsWalking);
        motion.Select(c.selector);
        robotIsWalking := c.walking;
      }
    }
  }
}
