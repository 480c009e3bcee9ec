/**
 * SimpleThinking, the decision layer of the agent that walks to the ball:
 * walk forward while the ball is in view and roughly ahead, otherwise stop
 * walking first and then turn left until the ball comes into view.
 */
module SimpleWalkToBall {
  import opened Common
  import opened Motion
  import opened DatedItems
  import opened FieldView
  import opened WalkFlag

  /** How far, in radians, the ball may lie to either side for walking towards it. */
  const ToleranceAngle: real := ToRadians(30.0)

  /** The only careful selector here: turning left. */
  predicate IsTurn(s: Selector)
  {
    s == Play(TurnLeft)
  }

  /**
   * decide, once the motion is ready, from the ball model's in-view flag
   * and coordinates (None while never seen, whose comparisons all fail)
   * and the walking flag. Exactly one selector is called.
   */
  function Decision(inView: bool, ball: Option<Polar>, walking: bool): (c: Choice)
    ensures c.selector.Walk? <==> inView && ball.Some? && Abs(ball.value.alpha) < ToleranceAngle
    ensures c.selector.Stop? <==> !c.selector.Walk? && walking
    ensures c.selector.Walk? || c.selector.Stop? || IsTurn(c.selector)
    ensures Keeps(walking, c, IsTurn)
  {
    if inView && ball.Some? && Abs(ball.value.alpha) < ToleranceAngle then Choice(Walk, true)
    else if walking then Choice(Stop, false)
    else Choice(Play(TurnLeft), walking)
  }

  /** What the ball model shows in one ready cycle. */
  datatype Sight = Sight(inView: bool, ball: Option<Polar>)

  /** The decisions of a run of ready cycles, starting with flag `walking`. */
  function Decisions(sights: seq<Sight>, walking: bool): (cs: seq<Choice>)
    ensures |cs| == |sights|
    ensures Run(cs, walking, IsTurn)
    decreases |sights|
  {
    if sights == [] then []
    else
      var c := Decision(sights[0].inView, sights[0].ball, walking);
      var rest := Decisions(sights[1..], c.walking);
      RunCons(c, rest, walking, IsTurn);
      [c] + rest
  }

  /** A turn never follows a walk without a stop in between. */
  lemma NoTurnStraightAfterWalk(sights: seq<Sight>, walking: bool)
    ensures var cs := Decisions(sights, walking);
            forall i, j :: 0 <= i < j < |cs| && cs[i].selector.Walk? && IsTurn(cs[j].selector) ==>
              exists k :: i < k < j && cs[k].selector.Stop?
  {
    StopBetween(Decisions(sights, walking), walking, IsTurn);
  }

  class SimpleThinking {
    const motion: KeyframeMotion
    const ball: DatedItemModel
    var robotIsWalking: bool

    /** Takes the field view's ball model; the robot is not walking yet. */
    constructor (localView: LocalFieldView, motion: KeyframeMotion)
      ensures this.ball == localView.ball && this.motion == motion && !robotIsWalking
    {
      this.ball := localView.ball;
      this.motion := motion;
      robotIsWalking := false;
    }

    /**
     * decide: nothing while a move runs; otherwise the selector and flag
     * of Decision, from the ball model as it is now. A walk or a stop
     * reads the posture, which needs an accelerometer reading.
     */
    method Decide()
      requires motion.Valid()
      requires motion.Ready() && !Decision(ball.inFOVnow, Coords(ball.data), robotIsWalking).selector.Play? ==>
                 motion.percIn.acc.Some?
      modifies motion`actualSequence, motion`state, motion`currentPosture, this`robotIsWalking
      ensures motion.Valid()
      ensures !old(motion.Ready()) ==> unchanged(motion) && robotIsWalking == old(robotIsWalking)
      ensures old(motion.Ready()) ==>
                var c := Decision(ball.inFOVnow, Coords(ball.data), old(robotIsWalking));
                motion.Selected(c.selector, old(motion.currentPosture)) && robotIsWalking == c.walking
    {
      if motion.Ready() {
        var coords := Coords(ball.data);
        if ball.IsInFOVnow() && coords.Some? && Abs(coords.value.alpha) < ToleranceAngle {
          motion.SetWalkForward();
          robotIsWalking := true;
        } else if robotIsWalking {
          motion.SetStopWalking();
          robotIsWalking := false;
        } else {
          motion.SetMove(TurnLeft);
        }
      }
    }
  }
}
