/**
 * LookAroundMotion: turns the head, one server cycle at a time, down,
 * back up to the centre, to the left, to the right and back to the
 * centre, over and over, by setting speed commands for the two neck
 * joints.
 */
module LookAround {
  import opened Common
  import opened RobotConsts
  import opened Effectors
  import opened Perception

  /** The longest a full look-around takes, in seconds. */
  const LookTime: real := 1.8

  /** The speed of the neck joints while turning, in radians per second. */
  const Velocity: real := PI

  /** Where the head is heading next. */
  datatype HeadPose = Down | Left | Right | DownCenterLeft | RightCenterDown

  /** A speed command for one joint. */
  datatype Command = Command(joint: nat, speed: real)

  /** What one look() does: the pose it leaves for the next call and the command it sets, if any. */
  datatype LookResult = LookResult(pose: HeadPose, command: Option<Command>)

  /** The pose after `p` in the scan: down, centre, left, right, centre, down again. */
  function Succ(p: HeadPose): HeadPose
  {
    match p
    case Down => DownCenterLeft
    case DownCenterLeft => Left
    case Left => Right
    case Right => RightCenterDown
    case RightCenterDown => Down
  }

  /** `p` after k steps of the scan. */
  function Steps(p: HeadPose, k: nat): HeadPose
    decreases k
  {
    if k == 0 then p else Steps(Succ(p), k - 1)
  }

  /** The scan visits all five poses and comes back after exactly five steps. */
  lemma ScanPeriod(p: HeadPose)
    ensures Steps(p, 5) == p
    ensures forall k :: 0 < k < 5 ==> Steps(p, k) != p
    ensures {Steps(p, 0), Steps(p, 1), Steps(p, 2), Steps(p, 3), Steps(p, 4)} ==
            {Down, Left, Right, DownCenterLeft, RightCenterDown}
  {
    assert Steps(p, 1) == Succ(p);
    assert Steps(p, 2) == Succ(Succ(p));
    assert Steps(p, 3) == Succ(Succ(Succ(p)));
    assert Steps(p, 4) == Succ(Succ(Succ(Succ(p))));
    assert Steps(p, 5) == Succ(Succ(Succ(Succ(Succ(p)))));
  }

  /** The joint a pose watches and drives: the pitch going down and up, the yaw afterwards. */
  function Watched(p: HeadPose): nat
  {
    if p == Down || p == DownCenterLeft then NeckPitch else NeckYaw
  }

  /** The angle, in degrees, a pose turns the watched joint towards. */
  function Goal(p: HeadPose): real
  {
    match p
    case Down => -40.0
    case DownCenterLeft => 0.0
    case Left => 54.0
    case Right => -54.0
    case RightCenterDown => 0.0
  }

  /** The watched angle of pose `p` out of the sensed yaw and pitch. */
  function WatchedAngle(p: HeadPose, yaw: real, pitch: real): real
  {
    if Watched(p) == NeckPitch then pitch else yaw
  }

  /**
   * look() in pose `p` with the sensed yaw and pitch in degrees. It moves
   * at most one step along the scan and sets at most one command, always
   * for the pose's own neck joint: a move out of a turn towards an extreme
   * sets none, a move out of a centring pose stops the joint, and staying
   * keeps the joint turning at full speed.
   */
  function LookStep(p: HeadPose, yaw: real, pitch: real): (r: LookResult)
    ensures r.pose == p || r.pose == Succ(p)
    ensures r.command.Some? ==> r.command.value.joint == Watched(p)
    ensures r.pose == Succ(p) && (p == DownCenterLeft || p == RightCenterDown) ==>
              r.command == Some(Command(Watched(p), 0.0))
    ensures r.pose == Succ(p) && !(p == DownCenterLeft || p == RightCenterDown) ==> r.command.None?
    ensures r.pose == p ==> r.command.Some? && Abs(r.command.value.speed) == Velocity
  {
    match p
    case Down =>
      if pitch <= -40.0 then LookResult(DownCenterLeft, None)
      else LookResult(Down, Some(Command(NeckPitch, -Velocity)))
    case DownCenterLeft =>
      if Abs(pitch) <= 5.0 then LookResult(Left, Some(Command(NeckPitch, 0.0)))
      else LookResult(DownCenterLeft, Some(Command(NeckPitch, Velocity)))
    case Left =>
      if yaw >= 54.0 then LookResult(Right, None)
      else LookResult(Left, Some(Command(NeckYaw, Velocity)))
    case Right =>
      if yaw <= -54.0 then LookResult(RightCenterDown, None)
      else LookResult(Right, Some(Command(NeckYaw, -Velocity)))
    case RightCenterDown =>
      if Abs(yaw) <= 5.0 then LookResult(Down, Some(Command(NeckYaw, 0.0)))
      else LookResult(RightCenterDown, Some(Command(NeckYaw, Velocity)))
  }

  /** The command table after setting command `c`, if any. */
  function Apply(cmds: map<int, real>, c: Option<Command>): (r: map<int, real>)
    ensures c.None? ==> r == cmds
    ensures c.Some? ==> r.Keys == cmds.Keys + {c.value.joint} && r[c.value.joint] == c.value.speed
    ensures forall j :: j in cmds && (c.None? || j != c.value.joint) ==> j in r && r[j] == cmds[j]
  {
    if c.None? then cmds else cmds[c.value.joint := c.value.speed]
  }

  /**
   * A pose advances exactly when its watched angle has got to the goal:
   * past it for the turns down, left and right, within 5 degrees of it for
   * the centring poses.
   */
  lemma AdvancesAtGoal(p: HeadPose, yaw: real, pitch: real)
    ensures var a := WatchedAngle(p, yaw, pitch);
            var reached := match p
              case Down => a <= Goal(p)
              case Left => a >= Goal(p)
              case Right => a <= Goal(p)
              case _ => Abs(a - Goal(p)) <= 5.0;
            LookStep(p, yaw, pitch).pose == Succ(p) <==> reached
  {
  }

  /**
   * While a pose has not reached its goal, the speed drives the watched
   * joint towards the goal, provided the angle is on the side the previous
   * pose leaves it: the centring poses only ever turn in the positive
   * sense, which is right coming from the low end (pitch below -40 after
   * Down, yaw below -54 after Right) and wrong coming from above.
   */
  lemma DrivesTowardsGoal(p: HeadPose, yaw: real, pitch: real)
    ensures var r := LookStep(p, yaw, pitch);
            var a := WatchedAngle(p, yaw, pitch);
            r.pose == p && (a < Goal(p) || !(p == DownCenterLeft || p == RightCenterDown)) ==>
              r.command.value.speed * (Goal(p) - a) > 0.0
    ensures var r := LookStep(p, yaw, pitch);
            var a := WatchedAngle(p, yaw, pitch);
            (p == DownCenterLeft || p == RightCenterDown) && a > 5.0 ==>
              r.pose == p && r.command.value.speed * (Goal(p) - a) < 0.0
  {
  }

  class LookAroundMotion {
    const percIn: PerceptorInput
    const effOut: EffectorOutput
    var nextPose: HeadPose

    /** The scan starts by turning the head down. */
    constructor (percIn: PerceptorInput, effOut: EffectorOutput)
      ensures this.percIn == percIn && this.effOut == effOut && nextPose == Down
    {
      this.percIn := percIn;
      this.effOut := effOut;
      nextPose := Down;
    }

    /**
     * look: one step of the scan from the sensed neck angles, converted
     * to degrees; the command, if any, goes into the effector table.
     */
    method Look()
      requires percIn.Valid()
      modifies this`nextPose, effOut`jointCommands
      ensures var r := LookStep(old(nextPose), ToDegrees(percIn.hingeJoints[NeckYaw]),
                                ToDegrees(percIn.hingeJoints[NeckPitch]));
              nextPose == r.pose && effOut.jointCommands == Apply(old(effOut.jointCommands), r.command)
    {
      var yaw := ToDegrees(percIn.GetJoint(NeckYaw));
      var pitch := ToDegrees(percIn.GetJoint(NeckPitch));
      match nextPose {
        case Down =>
          if pitch <= -40.0 {
            nextPose := DownCenterLeft;
          } else {
            effOut.SetJointCommand(NeckPitch, -Velocity);
          }
        case DownCenterLeft =>
          if Abs(pitch) <= 5.0 {
            effOut.SetJointCommand(NeckPitch, 0.0);
            nextPose := Left;
          } else {
            effOut.SetJointCommand(NeckPitch, Velocity);
          }
        case Left =>
          if yaw >= 54.0 {
            nextPose := Right;
          } else {
            effOut.SetJointCommand(NeckYaw, Velocity);
          }
        case Right =>
          if yaw <= -54.0 {
            nextPose := RightCenterDown;
          } else {
            effOut.SetJointCommand(NeckYaw, -Velocity);
          }
        case RightCenterDown =>
          if Abs(yaw) <= 5.0 {
            effOut.SetJointCommand(NeckYaw, 0.0);
            nextPose := Down;
          } else {
            effOut.SetJointCommand(NeckYaw, Velocity);
          }
      }
    }
  }
}
