/**
 * KeyframeMotion: plays keyframe sequences on the robot. A selector picks
 * the sequence to play; once per server cycle executeKeyframeSequence
 * either pulls the next keyframe or runs one more cycle of the current one,
 * commanding every joint with the speed that brings it to the keyframe's
 * angle in the cycles left for that keyframe.
 */
module Motion {
  import opened Common
  import opened RobotConsts
  import opened Keyframes
  import opened KeyframeFiles
  import opened Effectors
  import opened Perception

  /** Time between two server messages, in milliseconds. */
  const TimeStepInterval: nat := 20

  datatype MotionState = InFrame | BetweenFrames | ReadyToMove

  /**
   * The posture the motion remembers ("standing", "laying-down",
   * "walking-left-leg", "walking-right-leg").
   */
  datatype Posture = Standing | LayingDown | WalkingLeftLeg | WalkingRightLeg

  /** The sequences the selectors play, one per sequence file in use. */
  datatype Move =
    | TurnHeadDown | TurnHeadLeft | TurnHeadRight
    | TurnRight | TurnLeft | TurnRightSmall | TurnLeftSmall
    | SideStepRightKika | SideStepLeftKika
    | FallBack | FallForward | RollOverToBack | StandUpFromBack
    | Wave | KickTheBall
    | WalkForwardBegin | WalkForwardLeft | WalkForwardRight
    | WalkForwardLeftEnd | WalkForwardRightEnd

  /**
   * The moves a selector sets with nothing else to do; the walking phases
   * and standing up from the back also change the posture.
   */
  predicate Plain(m: Move)
  {
    !(m.StandUpFromBack? || m.WalkForwardBegin? || m.WalkForwardLeft? || m.WalkForwardRight? ||
      m.WalkForwardLeftEnd? || m.WalkForwardRightEnd?)
  }

  // ---------------------------------------------------------------------
  // Posture and gait
  // ---------------------------------------------------------------------

  /**
   * currentPosture: a robot whose z acceleration is below 7 is lying down,
   * whatever was remembered; otherwise the remembered posture stands.
   */
  function PostureSeen(remembered: Posture, acc: Vec3): (p: Posture)
    ensures p == LayingDown <==> remembered == LayingDown || acc.z < 7.0
    ensures p != LayingDown ==> p == remembered
  {
    if acc.z < 7.0 then LayingDown else remembered
  }

  /** Asking again in the same cycle sees the same posture. */
  lemma PostureSeenIdempotent(remembered: Posture, acc: Vec3)
    ensures PostureSeen(PostureSeen(remembered, acc), acc) == PostureSeen(remembered, acc)
  {
  }

  predicate Walking(p: Posture)
  {
    p == WalkingLeftLeg || p == WalkingRightLeg
  }

  /** A gait phase: the sequence to play and the posture it leaves. */
  datatype GaitStep = GaitStep(move: Move, next: Posture)

  /** setWalkForward's choice for a posture; None where only assert(false) is left. */
  function WalkForwardStep(p: Posture): Option<GaitStep>
  {
    match p
    case Standing => Some(GaitStep(WalkForwardBegin, WalkingLeftLeg))
    case WalkingLeftLeg => Some(GaitStep(WalkForwardLeft, WalkingRightLeg))
    case WalkingRightLeg => Some(GaitStep(WalkForwardRight, WalkingLeftLeg))
    case LayingDown => None
  }

  /** setStopWalking's choice for a posture; None where only assert(false) is left. */
  function StopWalkingStep(p: Posture): Option<GaitStep>
  {
    match p
    case WalkingLeftLeg => Some(GaitStep(WalkForwardLeftEnd, Standing))
    case WalkingRightLeg => Some(GaitStep(WalkForwardRightEnd, Standing))
    case _ => None
  }

  /**
   * Walking forward is possible from every upright posture and always
   * leaves the robot walking; from a walking posture it switches to the
   * other leg, so two walk-forward moves come back to the same leg.
   */
  lemma WalkForwardAlternates(p: Posture)
    ensures WalkForwardStep(p).Some? <==> p != LayingDown
    ensures WalkForwardStep(p).Some? ==> Walking(WalkForwardStep(p).value.next)
    ensures Walking(p) ==> WalkForwardStep(p).value.next != p &&
                           WalkForwardStep(WalkForwardStep(p).value.next).value.next == p
  {
  }

  /** Stopping is possible exactly while walking, and always ends standing. */
  lemma StopOnlyWhileWalking(p: Posture)
    ensures StopWalkingStep(p).Some? <==> Walking(p)
    ensures StopWalkingStep(p).Some? ==> StopWalkingStep(p).value.next == Standing
  {
  }

  /**
   * A call of one selector: a plain one (setTurnLeft, setSideStepLeft,
   * setRollOverToBack, ...), setWalkForward, setStopWalking,
   * setStandUpFromBack, setStandUp, or setTest with the test file's lines.
   */
  datatype Selector =
    | Play(move: Move)
    | Walk
    | Stop
    | RiseFromBack
    | Rise
    | Test(file: Option<seq<string>>)

  // ---------------------------------------------------------------------
  // Joint speeds
  // ---------------------------------------------------------------------

  /**
   * The angle (degrees) joint should turn this cycle: what is left to the
   * target from where it is predicted to be (the sensed angle, which lags
   * one cycle, plus the step commanded last cycle), spread over the cycles
   * left but the last.
   */
  function CycleAngle(target: real, sensed: real, last: real, left: int): real
    requires left > 1
  {
    (target - (ToDegrees(sensed) + last)) / ((left - 1) as real)
  }

  /** A step of `angle` degrees per cycle as a speed in radians per second. */
  function SpeedOf(angle: real): real
  {
    ToRadians(angle) / (TimeStepInterval as real) * 1000.0
  }

  /** getSpeedFromAngleAndTime's result: 0 in the last cycle of a frame. */
  function JointCommand(target: real, sensed: real, last: real, left: int): real
  {
    if left > 1 then SpeedOf(CycleAngle(target, sensed, last, left)) else 0.0
  }

  /** The lastCycleAngles entry afterwards: this cycle's step, overwriting the old one. */
  function JointMemory(target: real, sensed: real, last: real, left: int): real
  {
    if left > 1 then CycleAngle(target, sensed, last, left) else last
  }

  predicate JointVectors(targets: seq<real>, sensed: seq<real>, last: seq<real>)
  {
    |targets| == JointsCount && |sensed| == JointsCount && |last| == JointsCount
  }

  /** The commands of one cycle for all joints. */
  function Commands(targets: seq<real>, sensed: seq<real>, last: seq<real>, left: int): (cs: seq<real>)
    requires JointVectors(targets, sensed, last)
    ensures |cs| == JointsCount
  {
    seq(JointsCount, i requires 0 <= i < JointsCount => JointCommand(targets[i], sensed[i], last[i], left))
  }

  /** lastCycleAngles after one cycle. */
  function Memory(targets: seq<real>, sensed: seq<real>, last: seq<real>, left: int): (ms: seq<real>)
    requires JointVectors(targets, sensed, last)
    ensures |ms| == JointsCount
  {
    seq(JointsCount, i requires 0 <= i < JointsCount => JointMemory(targets[i], sensed[i], last[i], left))
  }

  /** Some joint gets a non-zero command. */
  predicate Moving(cs: seq<real>)
  {
    exists i :: 0 <= i < |cs| && cs[i] != 0.0
  }

  /** The last cycle of a frame commands no joint and leaves lastCycleAngles as it was. */
  lemma FinalCycleStill(targets: seq<real>, sensed: seq<real>, last: seq<real>, left: int)
    requires JointVectors(targets, sensed, last) && left <= 1
    ensures !Moving(Commands(targets, sensed, last, left))
    ensures Memory(targets, sensed, last, left) == last
  {
  }

  /**
   * Before the last cycle a joint is commanded to move exactly when it is
   * not predicted to be at its target already.
   */
  lemma CommandZeroIff(target: real, sensed: real, last: real, left: int)
    requires left > 1
    ensures JointCommand(target, sensed, last, left) == 0.0 <==> target == ToDegrees(sensed) + last
  {
    var d := target - (ToDegrees(sensed) + last);
    var a := CycleAngle(target, sensed, last, left);
    assert a * ((left - 1) as real) == d;
    assert SpeedOf(a) == a * (PI / 180.0 / 20.0 * 1000.0);
  }

  /**
   * Before the last cycle the frame goes on (some command is non-zero)
   * exactly when some joint is not predicted at its target.
   */
  lemma MovingIff(targets: seq<real>, sensed: seq<real>, last: seq<real>, left: int)
    requires JointVectors(targets, sensed, last) && left > 1
    ensures Moving(Commands(targets, sensed, last, left)) <==>
            exists i :: 0 <= i < JointsCount && targets[i] != ToDegrees(sensed[i]) + last[i]
  {
    var cs := Commands(targets, sensed, last, left);
    forall i | 0 <= i < JointsCount
      ensures cs[i] != 0.0 <==> targets[i] != ToDegrees(sensed[i]) + last[i]
    {
      CommandZeroIff(targets[i], sensed[i], last[i], left);
    }
  }

  /**
   * The control law under ideal tracking: if the joint is predicted one
   * cycle later exactly one step further, the next cycle commands the same
   * step again, and left - 1 such steps land exactly on the target.
   */
  lemma IdealTrackingKeepsStep(target: real, sensed: real, last: real, left: int, sensed': real, last': real)
    requires left > 2
    requires ToDegrees(sensed') + last' == ToDegrees(sensed) + last + CycleAngle(target, sensed, last, left)
    ensures CycleAngle(target, sensed', last', left - 1) == CycleAngle(target, sensed, last, left)
    ensures ToDegrees(sensed) + last + ((left - 1) as real) * CycleAngle(target, sensed, last, left) == target
  {
    var d := target - (ToDegrees(sensed) + last);
    var a := CycleAngle(target, sensed, last, left);
    var n := (left - 2) as real;
    assert a * (n + 1.0) == d;
    assert target - (ToDegrees(sensed') + last') == d - a == a * n;
    var b := CycleAngle(target, sensed', last', left - 1);
    assert b * n == a * n;
    assert (b - a) * n == 0.0;
  }

  // ---------------------------------------------------------------------
  // The motion
  // ---------------------------------------------------------------------

  class KeyframeMotion {
    const percIn: PerceptorInput
    const effOut: EffectorOutput
    /** Double.parseDouble, for the keyframe file setTest reads. */
    const parse: NumberReader
    /** The sequences loaded by the constructor, shared by all selectors. */
    const library: map<Move, KeyframeSequence>
    /** The step commanded to each joint in the previous cycle, in degrees. */
    const lastCycleAngles: array<real>

    var state: MotionState
    var actualSequence: KeyframeSequence?
    var actualKeyframe: Keyframe?
    var leftCyclesForActualFrame: int
    var currentPosture: Posture
    /** The cycles the current keyframe was given, and the cycles it has run. */
    ghost var frameCycles: int
    ghost var frameTicks: nat

    /** A sequence that can be played: every frame has 22 angles of its own. */
    ghost predicate Playable(s: KeyframeSequence)
      reads s
    {
      s.Valid() && s.FullFrames() && forall k :: k in s.sequence ==> k.angles != lastCycleAngles
    }

    /**
     * The motion's invariant. Besides well-formedness: a ready motion has
     * no sequence, a running keyframe has at least one cycle left and has
     * run the cycles it was given minus those, and no keyframe runs more
     * than max(n, 1) cycles for n = transitionTime / 20.
     */
    ghost predicate Valid()
      reads this, library.Values, actualSequence
    {
      && (forall m :: m in library && Playable(library[m]))
      && lastCycleAngles.Length == JointsCount
      && percIn.hingeJoints.Length == JointsCount
      && lastCycleAngles != percIn.hingeJoints
      && (actualSequence != null ==> Playable(actualSequence))
      && (state == ReadyToMove ==> actualSequence == null)
      && (state == InFrame ==>
            && actualSequence != null && actualKeyframe != null
            && actualKeyframe.angles.Length == JointsCount && actualKeyframe.angles != lastCycleAngles
            && 1 <= leftCyclesForActualFrame && 1 <= frameTicks
            && frameTicks + leftCyclesForActualFrame == frameCycles)
      && (frameTicks <= frameCycles || frameTicks <= 1)
    }

    /** What executeActualKeyframe needs. */
    ghost predicate TickReady()
      reads this
    {
      && actualKeyframe != null
      && actualKeyframe.angles.Length == JointsCount && actualKeyframe.angles != lastCycleAngles
      && lastCycleAngles.Length == JointsCount
      && percIn.hingeJoints.Length == JointsCount
      && lastCycleAngles != percIn.hingeJoints
    }

    /**
     * One cycle of a keyframe with these targets, sensed angles, previous
     * steps and cycles left: the steps remembered, every joint commanded,
     * one cycle less, and IN_FRAME exactly when some command is non-zero.
     */
    ghost predicate Ticked(targets: seq<real>, sensed: seq<real>, last: seq<real>, left: int, before: map<int, real>)
      requires JointVectors(targets, sensed, last)
      reads this, lastCycleAngles, effOut
    {
      var cs := Commands(targets, sensed, last, left);
      && lastCycleAngles[..] == Memory(targets, sensed, last, left)
      && effOut.jointCommands == before + AllJoints(cs)
      && leftCyclesForActualFrame == left - 1
      && state == (if Moving(cs) then InFrame else BetweenFrames)
    }

    /**
     * The motion starts ready, standing, with no sequence and every
     * remembered step 0; the sequences are the ones the constructor loads
     * from their files.
     */
    constructor (effOut: EffectorOutput, percIn: PerceptorInput, parse: NumberReader,
                 library: map<Move, KeyframeSequence>)
      requires forall m :: m in library && library[m].Valid() && library[m].FullFrames()
      requires percIn.hingeJoints.Length == JointsCount
      ensures Valid() && fresh(lastCycleAngles)
      ensures this.effOut == effOut && this.percIn == percIn && this.parse == parse && this.library == library
      ensures state == ReadyToMove && actualSequence == null && actualKeyframe == null
      ensures leftCyclesForActualFrame == 0 && currentPosture == Standing
      ensures lastCycleAngles[..] == Zeros(JointsCount)
    {
      var angles := new real[JointsCount];
      for i := 0 to JointsCount
        invariant forall j :: 0 <= j < i ==> angles[j] == 0.0
      {
        angles[i] := 0.0;
      }
      this.effOut := effOut;
      this.percIn := percIn;
      this.parse := parse;
      this.library := library;
      lastCycleAngles := angles;
      state := ReadyToMove;
      actualSequence := null;
      actualKeyframe := null;
      leftCyclesForActualFrame := 0;
      currentPosture := Standing;
      frameCycles := 0;
      frameTicks := 0;
      new;
      assert lastCycleAngles[..] == Zeros(JointsCount);
    }

    /** ready: true exactly when no move is running, and then no sequence is set. */
    function Ready(): (r: bool)
      requires Valid()
      reads this, library.Values, actualSequence
      ensures r <==> state == ReadyToMove
      ensures r ==> actualSequence == null
    {
      state == ReadyToMove
    }

    /**
     * What one selector call leaves: the motion waits for its next frame,
     * with the sequence and posture that selector `s` gives when called in
     * posture `posture`.
     */
    twostate predicate Selected(s: Selector, posture: Posture)
      reads this, percIn, actualSequence
    {
      && state == BetweenFrames
      && match s
         case Play(m) => Plain(m) && m in library && actualSequence == library[m] && currentPosture == posture
         case Walk =>
           && percIn.acc.Some?
           && var seen := PostureSeen(posture, percIn.acc.value);
              var step := WalkForwardStep(seen);
              && (step.Some? ==> step.value.move in library)
              && actualSequence == (if step.Some? then library[step.value.move] else old(actualSequence))
              && currentPosture == (if step.Some? then step.value.next else seen)
         case Stop =>
           && percIn.acc.Some?
           && var seen := PostureSeen(posture, percIn.acc.value);
              var step := StopWalkingStep(seen);
              && (step.Some? ==> step.value.move in library)
              && actualSequence == (if step.Some? then library[step.value.move] else old(actualSequence))
              && currentPosture == (if step.Some? then step.value.next else seen)
         case RiseFromBack =>
           StandUpFromBack in library && actualSequence == library[StandUpFromBack] && currentPosture == Standing
         case Rise =>
           && percIn.acc.Some?
           && var back := percIn.acc.value.y > 0.0;
              var m := if back then StandUpFromBack else RollOverToBack;
              && m in library && actualSequence == library[m]
              && currentPosture == (if back then Standing else posture)
         case Test(_) =>
           actualSequence != null && fresh(actualSequence) && actualSequence.nextFrameNumber == 0 && currentPosture == posture
    }

    /** currentPosture: "laying-down" is remembered as soon as the robot is seen lying. */
    method CurrentPosture() returns (p: Posture)
      requires percIn.acc.Some?
      modifies this`currentPosture
      ensures currentPosture == PostureSeen(old(currentPosture), percIn.acc.value)
      ensures p == currentPosture
    {
      if percIn.acc.value.z < 7.0 {
        currentPosture := LayingDown;
      }
      p := currentPosture;
    }

    /** isWalking: the posture, as currentPosture sees it, is one of the walking ones. */
    method IsWalking() returns (w: bool)
      requires percIn.acc.Some?
      modifies this`currentPosture
      ensures currentPosture == PostureSeen(old(currentPosture), percIn.acc.value)
      ensures w <==> Walking(currentPosture)
    {
      var p := CurrentPosture();
      if p == WalkingLeftLeg {
        return true;
      }
      p := CurrentPosture();
      w := p == WalkingRightLeg;
    }

    /**
     * The plain selectors (setTurnHeadDown, setTurnLeft, setSideStepRight,
     * setFallBack, setRollOverToBack, setWave, setKickTheBall, ...): the
     * move's sequence replaces whatever is running, without a check of
     * ready(), and the next cycle starts its next frame. The sequence's
     * cursor is not reset.
     */
    method SetMove(m: Move)
      requires Valid() && Plain(m)
      modifies this`actualSequence, this`state
      ensures Valid()
      ensures actualSequence == library[m] && state == BetweenFrames
      ensures Selected(Play(m), old(currentPosture))
    {
      actualSequence := library[m];
      state := BetweenFrames;
    }

    /**
     * setWalkForward: the gait phase that fits the posture, which moves on
     * to the next phase; a lying robot gets no new sequence, yet the motion
     * still waits for its next frame.
     */
    method SetWalkForward()
      requires Valid() && percIn.acc.Some?
      modifies this`actualSequence, this`state, this`currentPosture
      ensures Valid() && state == BetweenFrames
      ensures var seen := PostureSeen(old(currentPosture), percIn.acc.value);
              var step := WalkForwardStep(seen);
              && actualSequence == (if step.Some? then library[step.value.move] else old(actualSequence))
              && currentPosture == (if step.Some? then step.value.next else seen)
      ensures Selected(Walk, old(currentPosture))
    {
      var p := CurrentPosture();
      if p == Standing {
        actualSequence := library[WalkForwardBegin];
        currentPosture := WalkingLeftLeg;
      } else {
        p := CurrentPosture();
        if p == WalkingLeftLeg {
          actualSequence := library[WalkForwardLeft];
          currentPosture := WalkingRightLeg;
        } else {
          p := CurrentPosture();
          if p == WalkingRightLeg {
            actualSequence := library[WalkForwardRight];
            currentPosture := WalkingLeftLeg;
          }
        }
      }
      state := BetweenFrames;
    }

    /**
     * setStopWalking: the end phase for the leg the robot walks on, after
     * which it stands; in any other posture no new sequence is set, yet the
     * motion still waits for its next frame.
     */
    method SetStopWalking()
      requires Valid() && percIn.acc.Some?
      modifies this`actualSequence, this`state, this`currentPosture
      ensures Valid() && state == BetweenFrames
      ensures var seen := PostureSeen(old(currentPosture), percIn.acc.value);
              var step := StopWalkingStep(seen);
              && actualSequence == (if step.Some? then library[step.value.move] else old(actualSequence))
              && currentPosture == (if step.Some? then step.value.next else seen)
      ensures Selected(Stop, old(currentPosture))
    {
      var p := CurrentPosture();
      if p == WalkingLeftLeg {
        actualSequence := library[WalkForwardLeftEnd];
        currentPosture := Standing;
      } else {
        p := CurrentPosture();
        if p == WalkingRightLeg {
          actualSequence := library[WalkForwardRightEnd];
          currentPosture := Standing;
        }
      }
      state := BetweenFrames;
    }

    /** setStandUpFromBack: the stand-up sequence, and the robot counts as standing. */
    method SetStandUpFromBack()
      requires Valid()
      modifies this`actualSequence, this`state, this`currentPosture
      ensures Valid()
      ensures actualSequence == library[StandUpFromBack] && state == BetweenFrames && currentPosture == Standing
      ensures Selected(RiseFromBack, old(currentPosture))
    {
      actualSequence := library[StandUpFromBack];
      currentPosture := Standing;
      state := BetweenFrames;
    }

    /** setStandUp: stand up from the back when y acceleration is positive, else roll over to the back. */
    method SetStandUp()
      requires Valid() && percIn.acc.Some?
      modifies this`actualSequence, this`state, this`currentPosture
      ensures Valid() && state == BetweenFrames
      ensures actualSequence == library[if percIn.acc.value.y > 0.0 then StandUpFromBack else RollOverToBack]
      ensures currentPosture == if percIn.acc.value.y > 0.0 then Standing else old(currentPosture)
      ensures Selected(Rise, old(currentPosture))
    {
      if percIn.acc.value.y > 0.0 {
        SetStandUpFromBack();
      } else {
        SetMove(RollOverToBack);
      }
    }

    /**
     * setTest: the sequence read afresh from the test file (None when it
     * cannot be opened), played from its first frame.
     */
    method SetTest(file: Option<seq<string>>)
      requires Valid()
      modifies this`actualSequence, this`state
      ensures Valid() && state == BetweenFrames
      ensures fresh(actualSequence) && actualSequence.nextFrameNumber == 0
      ensures actualSequence.Frames() ==
              if file.None? then [] else Reading(FrameReader(parse), file.value, |file.value|).frames
      ensures Selected(Test(file), old(currentPosture))
    {
      var ks := GetSequenceFromFile(parse, file);
      actualSequence := ks;
      state := BetweenFrames;
    }

    /** The selector call a thinking module makes, by its Selector. */
    method Select(s: Selector)
      requires Valid() && (s.Play? ==> Plain(s.move))
      requires (s.Walk? || s.Stop? || s.Rise?) ==> percIn.acc.Some?
      modifies this`actualSequence, this`state, this`currentPosture
      ensures Valid()
      ensures Selected(s, old(currentPosture))
    {
      match s
      case Play(m) => SetMove(m);
      case Walk => SetWalkForward();
      case Stop => SetStopWalking();
      case RiseFromBack => SetStandUpFromBack();
      case Rise => SetStandUp();
      case Test(file) => SetTest(file);
    }

    /**
     * executeKeyframeSequence: nothing when ready; between frames the next
     * frame is started (or, after the last one, the motion becomes ready);
     * in a frame one more cycle of it runs. Between frames with no sequence
     * set, getNextFrame is called on null: the NullPointerException is
     * `thrown` and nothing changes.
     */
    method ExecuteKeyframeSequence() returns (thrown: bool)
      requires Valid()
      modifies this`state, this`actualSequence, this`actualKeyframe, this`leftCyclesForActualFrame,
               this`frameCycles, this`frameTicks, actualSequence, lastCycleAngles, effOut`jointCommands
      ensures Valid()
      ensures thrown <==> old(state) == BetweenFrames && old(actualSequence) == null
      ensures old(actualSequence) != null ==> old(actualSequence).sequence == old(actualSequence.sequence)
      ensures old(state) == ReadyToMove || thrown ==>
                unchanged(this) && unchanged(lastCycleAngles) && effOut.jointCommands == old(effOut.jointCommands)
      ensures old(state) == InFrame ==>
                && actualSequence == old(actualSequence) && actualKeyframe == old(actualKeyframe)
                && frameTicks == old(frameTicks) + 1
                && Ticked(old(actualKeyframe.angles[..]), old(percIn.hingeJoints[..]), old(lastCycleAngles[..]),
                          old(leftCyclesForActualFrame), old(effOut.jointCommands))
      ensures old(state) == BetweenFrames && !thrown ==>
                var s := old(actualSequence);
                var c := old(actualSequence.nextFrameNumber);
                && s.nextFrameNumber == CursorStep(|s.sequence|, c).1
                && (c == |s.sequence| ==>
                      actualKeyframe == null && actualSequence == null && state == ReadyToMove &&
                      unchanged(lastCycleAngles) && effOut.jointCommands == old(effOut.jointCommands))
                && (c < |s.sequence| ==>
                      && actualKeyframe == s.sequence[c] && actualSequence == s
                      && frameCycles == JavaDiv(actualKeyframe.transitionTime, TimeStepInterval) && frameTicks == 1
                      && Ticked(s.sequence[c].angles[..], old(percIn.hingeJoints[..]), Zeros(JointsCount),
                                frameCycles, old(effOut.jointCommands)))
    {
      thrown := false;
      match state
      case ReadyToMove =>
      case BetweenFrames =>
        if actualSequence == null {
          return true;
        }
        SetActualKeyframe();
      case InFrame =>
        ExecuteActualKeyframe();
    }

    /**
     * setActualKeyframe: the next frame of the sequence; at its end the
     * sequence is dropped and the motion is ready. A new frame starts with
     * every remembered step 0 and transitionTime / 20 cycles (Java's
     * truncating division), and its first cycle runs at once.
     */
    method SetActualKeyframe()
      requires Valid() && state == BetweenFrames && actualSequence != null
      modifies this`state, this`actualSequence, this`actualKeyframe, this`leftCyclesForActualFrame,
               this`frameCycles, this`frameTicks, actualSequence`nextFrameNumber, lastCycleAngles,
               effOut`jointCommands
      ensures Valid()
      ensures var s := old(actualSequence);
              var c := old(actualSequence.nextFrameNumber);
              && s.nextFrameNumber == CursorStep(|s.sequence|, c).1
              && (c == |s.sequence| ==>
                    actualKeyframe == null && actualSequence == null && state == ReadyToMove &&
                    unchanged(lastCycleAngles) && effOut.jointCommands == old(effOut.jointCommands))
              && (c < |s.sequence| ==>
                    && actualKeyframe == s.sequence[c] && actualSequence == s
                    && frameCycles == JavaDiv(actualKeyframe.transitionTime, TimeStepInterval) && frameTicks == 1
                    && Ticked(s.sequence[c].angles[..], old(percIn.hingeJoints[..]), Zeros(JointsCount),
                              frameCycles, old(effOut.jointCommands)))
    {
      actualKeyframe := actualSequence.GetNextFrame();
      if actualKeyframe == null {
        actualSequence := null;
        state := ReadyToMove;
        return;
      }
      for i := 0 to JointsCount
        modifies lastCycleAngles
        invariant forall j :: 0 <= j < i ==> lastCycleAngles[j] == 0.0
      {
        lastCycleAngles[i] := 0.0;
      }
      assert lastCycleAngles[..] == Zeros(JointsCount);
      leftCyclesForActualFrame := JavaDiv(actualKeyframe.transitionTime, TimeStepInterval);
      frameCycles := leftCyclesForActualFrame;
      frameTicks := 0;
      state := InFrame;
      ExecuteActualKeyframe();
    }

    /**
     * executeActualKeyframe: one cycle of the current keyframe. All 22
     * joints are commanded, the cycles left drop by one, and the frame goes
     * on exactly when some command is non-zero.
     */
    method ExecuteActualKeyframe()
      requires TickReady()
      modifies this`state, this`leftCyclesForActualFrame, this`frameTicks, lastCycleAngles, effOut`jointCommands
      ensures frameTicks == old(frameTicks) + 1
      ensures state == InFrame ==> old(leftCyclesForActualFrame) > 1
      ensures Ticked(actualKeyframe.angles[..], old(percIn.hingeJoints[..]), old(lastCycleAngles[..]),
                     old(leftCyclesForActualFrame), old(effOut.jointCommands))
    {
      ghost var targets := actualKeyframe.angles[..];
      ghost var sensed := percIn.hingeJoints[..];
      ghost var last := lastCycleAngles[..];
      var newCommands := new real[JointsCount];
      state := BetweenFrames;
      for i := 0 to JointsCount
        modifies this`state, lastCycleAngles, newCommands
        invariant lastCycleAngles.Length == JointsCount
        invariant forall j :: 0 <= j < i ==>
                    newCommands[j] == JointCommand(targets[j], sensed[j], last[j], leftCyclesForActualFrame) &&
                    lastCycleAngles[j] == JointMemory(targets[j], sensed[j], last[j], leftCyclesForActualFrame)
        invariant forall j :: i <= j < JointsCount ==> lastCycleAngles[j] == last[j]
        invariant state == if exists j :: 0 <= j < i && newCommands[j] != 0.0 then InFrame else BetweenFrames
      {
        newCommands[i] := GetSpeedFromAngleAndTime(i);
        if newCommands[i] != 0.0 {
          state := InFrame;
        }
      }
      assert newCommands[..] == Commands(targets, sensed, last, leftCyclesForActualFrame);
      assert lastCycleAngles[..] == Memory(targets, sensed, last, leftCyclesForActualFrame);
      if leftCyclesForActualFrame <= 1 {
        FinalCycleStill(targets, sensed, last, leftCyclesForActualFrame);
      }
      effOut.SetAllJointCommands(newCommands);
      leftCyclesForActualFrame := leftCyclesForActualFrame - 1;
      frameTicks := frameTicks + 1;
    }

    /**
     * getSpeedFromAngleAndTime: joint i's command this cycle; before the
     * last cycle its step is remembered in place of the previous one.
     */
    method GetSpeedFromAngleAndTime(i: nat) returns (speed: real)
      requires TickReady() && i < JointsCount
      modifies lastCycleAngles
      ensures speed == JointCommand(actualKeyframe.angles[i], percIn.hingeJoints[i], old(lastCycleAngles[i]),
                                    leftCyclesForActualFrame)
      ensures lastCycleAngles[..] == old(lastCycleAngles[..])[i := JointMemory(actualKeyframe.angles[i],
                                       percIn.hingeJoints[i], old(lastCycleAngles[i]), leftCyclesForActualFrame)]
    {
      speed := 0.0;
      var targetAngle := actualKeyframe.GetAngle(i);
      var sensedAngle := ToDegrees(percIn.hingeJoints[i]);
      if leftCyclesForActualFrame > 1 {
        var angleDifference := targetAngle - (sensedAngle + lastCycleAngles[i]);
        var thisCycleAngle := angleDifference / ((leftCyclesForActualFrame - 1) as real);
        speed := ToRadians(thisCycleAngle) / (TimeStepInterval as real) * 1000.0;
        lastCycleAngles[i] := thisCycleAngle;
      }
    }
  }
}
