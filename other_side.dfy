/**
 * OtherSideGenerator: turns a keyframe sequence into the same move done
 * with the other side of the body, by swapping left and right joints and
 * negating the angles whose sense flips in the mirror.
 */
module OtherSide {
  import opened RobotConsts
  import opened Keyframes

  /**
   * The joint on the other side of the body, from the index layout alone:
   * the head joints stay, left arm 2..5 pairs with right arm 18..21, left
   * leg 6..11 with right leg 12..17.
   */
  function Opposite(j: nat): (o: nat)
    requires j < JointsCount
    ensures o < JointsCount
  {
    if j < 2 then j
    else if j < 6 then j + 16
    else if j < 12 then j + 6
    else if j < 18 then j - 6
    else j - 16
  }

  /** Opposite pairs every joint with one partner: applied twice it gives the joint back. */
  lemma OppositeInvolution(j: nat)
    requires j < JointsCount
    ensures Opposite(Opposite(j)) == j
    ensures Opposite(j) == j <==> j == NeckYaw || j == NeckPitch
  {
  }

  /**
   * The joint of the original frame a generated joint copies: its
   * opposite, except that LeftShoulderPitch copies itself, so that both
   * shoulder pitches copy LeftShoulderPitch.
   */
  function SourceJoint(j: nat): nat
    requires j < JointsCount
  {
    if j == LeftShoulderPitch then LeftShoulderPitch else Opposite(j)
  }

  /** The joints whose sense flips in the mirror: NeckYaw and every roll and yaw joint of the limbs. */
  predicate FlipsSign(j: nat)
  {
    j == NeckYaw || j == LeftShoulderYaw || j == LeftArmRoll || j == LeftArmYaw || j == LeftHipRoll ||
    j == LeftFootRoll || j == RightHipRoll || j == RightFootRoll || j == RightShoulderYaw ||
    j == RightArmRoll || j == RightArmYaw
  }

  /** A joint flips sign exactly when its opposite does. */
  lemma FlipsSignSymmetric(j: nat)
    requires j < JointsCount
    ensures FlipsSign(j) <==> FlipsSign(Opposite(j))
  {
  }

  /** Generated angle j for original angles `a`. */
  function MirrorAngle(a: seq<real>, j: nat): real
    requires |a| >= JointsCount && j < JointsCount
  {
    if FlipsSign(j) then -a[SourceJoint(j)] else a[SourceJoint(j)]
  }

  /** The generated angles for original angles `a`. */
  function Mirror(a: seq<real>): (b: seq<real>)
    requires |a| >= JointsCount
    ensures |b| == JointsCount
  {
    seq(JointsCount, j requires 0 <= j < JointsCount => MirrorAngle(a, j))
  }

  /**
   * Mirroring twice gives every angle back, except RightShoulderPitch,
   * which ends up with the original LeftShoulderPitch.
   */
  lemma MirrorTwice(a: seq<real>)
    requires |a| == JointsCount
    ensures forall j :: 0 <= j < JointsCount && j != RightShoulderPitch ==> Mirror(Mirror(a))[j] == a[j]
    ensures Mirror(Mirror(a))[RightShoulderPitch] == a[LeftShoulderPitch]
  {
    var b := Mirror(a);
    forall j | 0 <= j < JointsCount && j != RightShoulderPitch
      ensures Mirror(b)[j] == a[j]
    {
      OppositeInvolution(j);
      FlipsSignSymmetric(j);
    }
  }

  /** A frame done with the other side: the same time, the mirrored angles. */
  function MirrorFrame(d: FrameData): FrameData
    requires |d.angles| >= JointsCount
  {
    FrameData(d.time, Mirror(d.angles))
  }

  /** The first n frames of ds have an angle for every joint. */
  predicate FullUpTo(ds: seq<FrameData>, n: nat)
    requires n <= |ds|
  {
    forall i :: 0 <= i < n ==> |ds[i].angles| >= JointsCount
  }

  /** The first n frames of ds, each mirrored: as many frames, the same times, in the same order. */
  function MirroredFrames(ds: seq<FrameData>, n: nat): (r: seq<FrameData>)
    requires n <= |ds| && FullUpTo(ds, n)
    ensures |r| == n
    ensures forall i :: 0 <= i < n ==> r[i].time == ds[i].time && r[i].angles == Mirror(ds[i].angles)
  {
    if n == 0 then [] else MirroredFrames(ds, n - 1) + [MirrorFrame(ds[n - 1])]
  }

  /**
   * generateOtherSide: a new sequence, cursor at 0, holding the mirror of
   * each frame the input hands out from its cursor to its end, in order;
   * the input's cursor is left at 0.
   */
  method GenerateOtherSide(ks: KeyframeSequence) returns (other: KeyframeSequence)
    requires ks.Valid() && ks.FullFrames()
    modifies ks`nextFrameNumber
    ensures ks.Valid() && ks.nextFrameNumber == 0
    ensures fresh(other) && other.Valid() && other.FullFrames() && other.nextFrameNumber == 0
    ensures var ds := old(ks.Frames()[ks.nextFrameNumber..]);
            FullUpTo(ds, |ds|) && other.Frames() == MirroredFrames(ds, |ds|)
  {
    ghost var ds := FramesOf(ks.sequence)[ks.nextFrameNumber..];
    other := MirrorFrames(ks, ds);
  }

  /**
   * The input side of the loop of generateOtherSide after j frames: kf is
   * frame j (or null once all are done) and the frames still to come hold
   * the values ds.
   */
  ghost predicate Reading(ks: KeyframeSequence, kf: Keyframe?, ds: seq<FrameData>, c0: nat, j: nat)
    reads ks, set k | k in ks.sequence :: k.angles
  {
    && ks.Valid() && ks.FullFrames()
    && c0 + j <= |ks.sequence| && |ds| == |ks.sequence| - c0
    && (kf != null ==> ks.nextFrameNumber == c0 + j + 1 && c0 + j < |ks.sequence| && kf == ks.sequence[c0 + j])
    && (kf == null ==> ks.nextFrameNumber == 0 && c0 + j == |ks.sequence|)
    && (forall k {:trigger Content(ks.sequence[k])} :: c0 + j <= k < |ks.sequence| ==> ds[k - c0] == Content(ks.sequence[k]))
  }

  /** The output side of the loop after j frames: `other` holds the mirrors of the first j values of ds. */
  ghost predicate Built(other: KeyframeSequence, ds: seq<FrameData>, j: nat)
    reads other, set k | k in other.sequence :: k.angles
  {
    && other.Valid() && other.FullFrames() && other.nextFrameNumber == 0
    && j <= |ds| && FullUpTo(ds, j)
    && FramesOf(other.sequence) == MirroredFrames(ds, j)
  }

  /** The loop of generateOtherSide, where ds are the values of the frames from the cursor on. */
  method MirrorFrames(ks: KeyframeSequence, ghost ds: seq<FrameData>) returns (other: KeyframeSequence)
    requires ks.Valid() && ks.FullFrames() && ds == FramesOf(ks.sequence)[ks.nextFrameNumber..]
    modifies ks`nextFrameNumber
    ensures ks.Valid() && ks.nextFrameNumber == 0
    ensures fresh(other) && other.Valid() && other.FullFrames() && other.nextFrameNumber == 0
    ensures FullUpTo(ds, |ds|) && FramesOf(other.sequence) == MirroredFrames(ds, |ds|)
  {
    other := new KeyframeSequence();
    ghost var c0 := ks.nextFrameNumber;
    FramesOfAll(ks.sequence);
    ghost var j := 0;
    var kf := ks.GetNextFrame();
    while kf != null
      invariant fresh(other) && Reading(ks, kf, ds, c0, j) && Built(other, ds, j)
      decreases |ks.sequence| - c0 - j
    {
      kf := MirrorNext(ks, other, kf, ds, c0, j);
      j := j + 1;
    }
  }

  /**
   * One pass of the loop of generateOtherSide on frame j, which is kf: its
   * mirror appended to `other`, and the next frame fetched.
   */
  method MirrorNext(ks: KeyframeSequence, other: KeyframeSequence, kf: Keyframe, ghost ds: seq<FrameData>,
                    ghost c0: nat, ghost j: nat)
    returns (next: Keyframe?)
    requires other != ks && Reading(ks, kf, ds, c0, j) && Built(other, ds, j)
    modifies ks`nextFrameNumber, other`sequence
    ensures Reading(ks, next, ds, c0, j + 1) && Built(other, ds, j + 1)
  {
    assert ds[j] == Content(ks.sequence[c0 + j]);
    var newAngles := MirrorAngles(kf);
    var mirrored := new Keyframe(kf.GetTransitionTime(), newAngles);
    assert Content(mirrored) == MirrorFrame(ds[j]);
    FramesOfSnoc(other.sequence, mirrored);
    other.AddFrame(mirrored);
    next := ks.GetNextFrame();
  }

  /** The body of the generator's loop for one frame: a fresh array with the mirrored angles. */
  method MirrorAngles(kf: Keyframe) returns (newAngles: array<real>)
    requires kf.angles.Length == JointsCount
    ensures fresh(newAngles) && newAngles[..] == Mirror(kf.angles[..])
  {
    newAngles := new real[JointsCount];
    MirrorHeadAndLeftArm(kf, newAngles);
    MirrorLeftLeg(kf, newAngles);
    MirrorRightLeg(kf, newAngles);
    MirrorRightArm(kf, newAngles);
    assert newAngles[..] == Mirror(kf.angles[..]);
  }

  /** The assignments of the generator for the head and the left arm: joints 0..5 of the new array. */
  method MirrorHeadAndLeftArm(kf: Keyframe, newAngles: array<real>)
    requires kf.angles.Length == JointsCount && newAngles.Length == JointsCount && newAngles != kf.angles
    modifies newAngles
    ensures forall j :: 0 <= j < JointsCount ==>
              newAngles[j] == if 0 <= j < 6 then MirrorAngle(kf.angles[..], j) else old(newAngles[j])
  {
    newAngles[NeckYaw] := -kf.angles[NeckYaw];
    newAngles[NeckPitch] := kf.angles[NeckPitch];
    newAngles[LeftShoulderPitch] := kf.angles[LeftShoulderPitch];
    newAngles[LeftShoulderYaw] := -kf.angles[RightShoulderYaw];
    newAngles[LeftArmRoll] := -kf.angles[RightArmRoll];
    newAngles[LeftArmYaw] := -kf.angles[RightArmYaw];
    forall j | 0 <= j < 6
      ensures newAngles[j] == MirrorAngle(kf.angles[..], j)
    {
      assert j == 0 || j == 1 || j == 2 || j == 3 || j == 4 || j == 5;
    }
  }

  /** The assignments of the generator for the left leg: joints 6..11 of the new array. */
  method MirrorLeftLeg(kf: Keyframe, newAngles: array<real>)
    requires kf.angles.Length == JointsCount && newAngles.Length == JointsCount && newAngles != kf.angles
    modifies newAngles
    ensures forall j :: 0 <= j < JointsCount ==>
              newAngles[j] == if 6 <= j < 12 then MirrorAngle(kf.angles[..], j) else old(newAngles[j])
  {
    newAngles[LeftHipYawPitch] := kf.angles[RightHipYawPitch];
    newAngles[LeftHipRoll] := -kf.angles[RightHipRoll];
    newAngles[LeftHipPitch] := kf.angles[RightHipPitch];
    newAngles[LeftKneePitch] := kf.angles[RightKneePitch];
    newAngles[LeftFootPitch] := kf.angles[RightFootPitch];
    newAngles[LeftFootRoll] := -kf.angles[RightFootRoll];
    forall j | 6 <= j < 12
      ensures newAngles[j] == MirrorAngle(kf.angles[..], j)
    {
      assert j == 6 || j == 7 || j == 8 || j == 9 || j == 10 || j == 11;
    }
  }

  /** The assignments of the generator for the right leg: joints 12..17 of the new array. */
  method MirrorRightLeg(kf: Keyframe, newAngles: array<real>)
    requires kf.angles.Length == JointsCount && newAngles.Length == JointsCount && newAngles != kf.angles
    modifies newAngles
    ensures forall j :: 0 <= j < JointsCount ==>
              newAngles[j] == if 12 <= j < 18 then MirrorAngle(kf.angles[..], j) else old(newAngles[j])
  {
    newAngles[RightHipYawPitch] := kf.angles[LeftHipYawPitch];
    newAngles[RightHipRoll] := -kf.angles[LeftHipRoll];
    newAngles[RightHipPitch] := kf.angles[LeftHipPitch];
    newAngles[RightKneePitch] := kf.angles[LeftKneePitch];
    newAngles[RightFootPitch] := kf.angles[LeftFootPitch];
    newAngles[RightFootRoll] := -kf.angles[LeftFootRoll];
    forall j | 12 <= j < 18
      ensures newAngles[j] == MirrorAngle(kf.angles[..], j)
    {
      assert j == 12 || j == 13 || j == 14 || j == 15 || j == 16 || j == 17;
    }
  }

  /** The assignments of the generator for the right arm: joints 18..21 of the new array. */
  method MirrorRightArm(kf: Keyframe, newAngles: array<real>)
    requires kf.angles.Length == JointsCount && newAngles.Length == JointsCount && newAngles != kf.angles
    modifies newAngles
    ensures forall j :: 0 <= j < JointsCount ==>
              newAngles[j] == if 18 <= j < 22 then MirrorAngle(kf.angles[..], j) else old(newAngles[j])
  {
    newAngles[RightShoulderPitch] := kf.angles[LeftShoulderPitch];
    newAngles[RightShoulderYaw] := -kf.angles[LeftShoulderYaw];
    newAngles[RightArmRoll] := -kf.angles[LeftArmRoll];
    newAngles[RightArmYaw] := -kf.angles[LeftArmYaw];
    forall j | 18 <= j < 22
      ensures newAngles[j] == MirrorAngle(kf.angles[..], j)
    {
      assert j == 18 || j == 19 || j == 20 || j == 21;
    }
  }
}
