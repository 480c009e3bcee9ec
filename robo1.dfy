/**
 * robo1.decide, the soccer agent's rule chain: stand up when lying; turn
 * left while the ball is out of sight; turn in small steps towards the
 * ball once it lies more than 30 degrees to a side, and keep turning
 * until it lies within 6 degrees; walk up to it; side step until it lies
 * between the opponent goal posts, then push it forward.
 */
module Soccer {
  import opened Common
  import opened Perception
  import opened Motion
  import opened FieldConsts
  import opened DatedItems
  import opened FieldView
  import opened LookAround
  import opened SimpleSoccer

  /** How far, in radians, the ball may lie to a side before the robot starts turning to it. */
  const DeviationTrigger: real := ToRadians(30.0)

  /** How close, in radians, to straight ahead a turn brings the ball before it stops. */
  const Deviation: real := ToRadians(6.0)

  /** How close, in metres, the ball must be to dribble it. */
  const Distance: real := 0.7

  /** What decide does once the motion is ready: the selector called and the new turning flag. */
  datatype Act = Act(selector: Selector, turning: bool)

  /** What decide reads: the server time and the ball and goal post models. */
  datatype Sight = Sight(now: real, ball: Dated, leftPost: Dated, rightPost: Dated)

  /** A small turn towards `ball`: left when it lies to the left, right otherwise (NaN included). */
  function SmallTurn(ball: Option<Polar>): Selector
  {
    Play(if ball.Some? && ball.value.alpha > 0.0 then TurnLeftSmall else TurnRightSmall)
  }

  /**
   * decide, once the motion is ready, with `posture` the posture just
   * seen by currentPosture and `turning` the turningTowardsTheBall flag.
   * A NaN coordinate fails every comparison.
   */
  function Robo1Decision(v: Sight, posture: Posture, turning: bool): (d: Act)
    ensures posture == LayingDown ==> d == Act(Rise, turning)
    ensures posture != LayingDown && v.now - v.ball.timeStamp > LookTime ==> d == Act(Play(TurnLeft), turning)
    ensures d.selector == Play(TurnLeftSmall) ==> Coords(v.ball.data).Some? && Coords(v.ball.data).value.alpha > 0.0
    ensures d.turning != turning ==> d.selector == SmallTurn(Coords(v.ball.data))
    ensures d.turning ==> d.selector == SmallTurn(Coords(v.ball.data)) ||
                          (turning && (posture == LayingDown || v.now - v.ball.timeStamp > LookTime))
    ensures d.turning && !turning ==>
              Coords(v.ball.data).Some? && Abs(Coords(v.ball.data).value.alpha) > DeviationTrigger
    ensures d.selector.Stop? ==> Walking(posture)
    ensures d.selector == Play(SideStepLeftKika) || d.selector == Play(SideStepRightKika) ==> !Walking(posture)
    ensures d.selector.Walk? ==> !turning && !d.turning
    ensures d.selector.Play? ==> Plain(d.selector.move)
    ensures d.selector in {Rise, Walk, Stop} || d.selector.Play?
  {
    var ball := Coords(v.ball.data);
    if posture == LayingDown then Act(Rise, turning)
    else if v.now - v.ball.timeStamp > LookTime then Act(Play(TurnLeft), turning)
    else if (ball.Some? && Abs(ball.value.alpha) > DeviationTrigger) || turning then
      Act(SmallTurn(ball), ball.Some? && Abs(ball.value.alpha) > Deviation)
    else if ball.Some? && ball.value.distance > Distance then Act(Walk, turning)
    else if Fresh(v.now, v.leftPost) && Fresh(v.now, v.rightPost) then
      var l := Coords(v.leftPost.data);
      var r := Coords(v.rightPost.data);
      if AlphaAtMost(l, ball) || AlphaAtMost(ball, r) then
        if Walking(posture) then Act(Stop, turning)
        else Act(Play(if AlphaAtMost(l, ball) then SideStepLeftKika else SideStepRightKika), turning)
      else Act(Walk, turning)
    else Act(Play(TurnLeft), turning)
  }

  /** An upright robot that has seen the ball lately, at a known position. */
  predicate Tracking(v: Sight, posture: Posture)
  {
    posture != LayingDown && v.now - v.ball.timeStamp <= LookTime && Coords(v.ball.data).Some?
  }

  /** The horizontal angle of the ball seen in `v`. */
  function BallAlpha(v: Sight): real
    requires Coords(v.ball.data).Some?
  {
    Coords(v.ball.data).value.alpha
  }

  /**
   * The turning flag is a hysteresis: an upright robot with the ball in
   * sight keeps turning towards it while it lies more than 6 degrees to a
   * side and stops turning as soon as it lies within 6 degrees; it starts
   * turning only once the ball lies more than 30 degrees to a side.
   */
  lemma TurningHysteresis(v: Sight, posture: Posture)
    requires Tracking(v, posture)
    ensures Abs(BallAlpha(v)) > Deviation ==>
              Robo1Decision(v, posture, true) == Act(SmallTurn(Coords(v.ball.data)), true)
    ensures Abs(BallAlpha(v)) <= Deviation ==> !Robo1Decision(v, posture, true).turning
    ensures Abs(BallAlpha(v)) <= DeviationTrigger <==> !Robo1Decision(v, posture, false).turning
  {
  }

  /** The turning flags and selectors of a run of ready cycles. */
  function Robo1Run(sights: seq<Sight>, postures: seq<Posture>, turning: bool): (ds: seq<Act>)
    requires |postures| == |sights|
    ensures |ds| == |sights|
    decreases |sights|
  {
    if sights == [] then []
    else
      var d := Robo1Decision(sights[0], postures[0], turning);
      [d] + Robo1Run(sights[1..], postures[1..], d.turning)
  }

  /**
   * Once turning, an upright robot that keeps seeing the ball more than 6
   * degrees to a side turns a small step towards it every ready cycle,
   * however little the ball lay aside when it started.
   */
  lemma {:induction false} KeepsTurning(sights: seq<Sight>, postures: seq<Posture>)
    requires |postures| == |sights|
    requires forall i :: 0 <= i < |sights| ==> Tracking(sights[i], postures[i]) && Abs(BallAlpha(sights[i])) > Deviation
    ensures var ds := Robo1Run(sights, postures, true);
            forall i :: 0 <= i < |ds| ==> ds[i] == Act(SmallTurn(Coords(sights[i].ball.data)), true)
    decreases |sights|
  {
    if sights != [] {
      TurningHysteresis(sights[0], postures[0]);
      var ds := Robo1Run(sights, postures, true);
      var rest := Robo1Run(sights[1..], postures[1..], true);
      assert ds == [ds[0]] + rest;
      KeepsTurning(sights[1..], postures[1..]);
      forall i | 0 < i < |ds| ensures ds[i] == Act(SmallTurn(Coords(sights[i].ball.data)), true) {
        assert ds[i] == rest[i - 1] && sights[1..][i - 1] == sights[i];
      }
    }
  }

  class Robo1 {
    const percIn: PerceptorInput
    const motion: KeyframeMotion
    const ball: DatedItemModel
    const oppGoalLPost: DatedItemModel
    const oppGoalRPost: DatedItemModel
    var turningTowardsTheBall: bool

    /** The part of init that wires the thinking: the ball and the G1R and G2R post models; not turning. */
    constructor (percIn: PerceptorInput, localView: LocalFieldView, motion: KeyframeMotion)
      requires localView.GoalsOK()
      ensures this.percIn == percIn && this.motion == motion && ball == localView.ball
      ensures oppGoalLPost == localView.goals[G1R] && oppGoalRPost == localView.goals[G2R]
      ensures !turningTowardsTheBall
    {
      this.percIn := percIn;
      this.motion := motion;
      ball := localView.ball;
      oppGoalLPost := localView.goals[G1R];
      oppGoalRPost := localView.goals[G2R];
      turningTowardsTheBall := false;
    }

    /** The models and readings decide uses, as they are now. */
    function Seen(): Sight
      reads percIn, ball, oppGoalLPost, oppGoalRPost
    {
      Sight(percIn.serverTime, ball.State(), oppGoalLPost.State(), oppGoalRPost.State())
    }

    /**
     * decide: nothing while a move runs; otherwise the posture is looked
     * up (a fall is remembered) and the selector and flag of
     * Robo1Decision follow.
     */
    method Decide()
      requires motion.Valid() && motion.percIn.acc.Some?
      modifies motion`actualSequence, motion`state, motion`currentPosture, this`turningTowardsTheBall
      ensures motion.Valid()
      ensures !old(motion.Ready()) ==> unchanged(motion) && turningTowardsTheBall == old(turningTowardsTheBall)
      ensures old(motion.Ready()) ==>
                var posture := PostureSeen(old(motion.currentPosture), motion.percIn.acc.value);
                var d := Robo1Decision(old(Seen()), posture, old(turningTowardsTheBall));
                motion.Selected(d.selector, posture) && turningTowardsTheBall == d.turning
    {
      if motion.Ready() {
        var posture := motion.CurrentPosture();
        var d := Robo1Decision(Seen(), posture, turningTowardsTheBall);
        motion.Select(d.selector);
        turningTowardsTheBall := d.turning;
      }
    }
  }
}
