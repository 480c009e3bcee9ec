/**
 * Constants of the simulated Nao robot: the 22 hinge joints, the names the
 * server uses for their perceptors and effectors, the joint angle limits and
 * the body parts the vision perceptor reports.
 */
module RobotConsts {
  import opened Common

  /** Number of hinge joints; every per-joint loop runs over 0..21. */
  const JointsCount: nat := 22

  // Joint indices.
  const NeckYaw: nat := 0
  const NeckPitch: nat := 1
  const LeftShoulderPitch: nat := 2
  const LeftShoulderYaw: nat := 3
  const LeftArmRoll: nat := 4
  const LeftArmYaw: nat := 5
  const LeftHipYawPitch: nat := 6
  const LeftHipRoll: nat := 7
  const LeftHipPitch: nat := 8
  const LeftKneePitch: nat := 9
  const LeftFootPitch: nat := 10
  const LeftFootRoll: nat := 11
  const RightHipYawPitch: nat := 12
  const RightHipRoll: nat := 13
  const RightHipPitch: nat := 14
  const RightKneePitch: nat := 15
  const RightFootPitch: nat := 16
  const RightFootRoll: nat := 17
  const RightShoulderPitch: nat := 18
  const RightShoulderYaw: nat := 19
  const RightArmRoll: nat := 20
  const RightArmYaw: nat := 21

  /** The joint constants in declaration order. */
  const JointIndices: seq<nat> := [
    NeckYaw, NeckPitch,
    LeftShoulderPitch, LeftShoulderYaw, LeftArmRoll, LeftArmYaw,
    LeftHipYawPitch, LeftHipRoll, LeftHipPitch, LeftKneePitch, LeftFootPitch, LeftFootRoll,
    RightHipYawPitch, RightHipRoll, RightHipPitch, RightKneePitch, RightFootPitch, RightFootRoll,
    RightShoulderPitch, RightShoulderYaw, RightArmRoll, RightArmYaw]

  /** Body parts named in the vision perceptor's player detections. */
  datatype BodyPartName = Head | RLowerArm | LLowerArm | RFoot | LFoot

  /** The hinge joint perceptor names, indexed by joint. */
  const PerceptorIDs: seq<string> := [
    "hj1", "hj2", "laj1", "laj2", "laj3", "laj4",
    "llj1", "llj2", "llj3", "llj4", "llj5", "llj6",
    "rlj1", "rlj2", "rlj3", "rlj4", "rlj5", "rlj6",
    "raj1", "raj2", "raj3", "raj4"]

  /** The hinge joint effector names, indexed by joint. */
  const EffectorIDs: seq<string> := [
    "he1", "he2", "lae1", "lae2", "lae3", "lae4",
    "lle1", "lle2", "lle3", "lle4", "lle5", "lle6",
    "rle1", "rle2", "rle3", "rle4", "rle5", "rle6",
    "rae1", "rae2", "rae3", "rae4"]

  /** Largest reachable angle of each joint, in degrees. */
  const JointAngleMaxs: seq<real> := [
    120.0, 45.0, 120.0, 95.0, 120.0, 1.0, 1.0, 45.0, 100.0, 1.0, 75.0,
    25.0, 1.0, 25.0, 100.0, 1.0, 75.0, 45.0, 120.0, 1.0, 120.0, 90.0]

  /** Smallest reachable angle of each joint, in degrees. */
  const JointAngleMins: seq<real> := [
    -120.0, -45.0, -120.0, -1.0, -120.0, -90.0, -90.0, -25.0, -25.0, -130.0, -45.0,
    -45.0, -90.0, -45.0, -25.0, -130.0, -45.0, -25.0, -120.0, -95.0, -120.0, -1.0]

  /** The body part name table; keys are case-sensitive. */
  const BodyPartMapping: map<string, BodyPartName> := map[
    "head" := Head, "rlowerarm" := RLowerArm, "llowerarm" := LLowerArm,
    "rfoot" := RFoot, "lfoot" := LFoot]

  /** The lowercase name under which each body part is reported. */
  function BodyPartString(b: BodyPartName): string
  {
    match b
    case Head => "head"
    case RLowerArm => "rlowerarm"
    case LLowerArm => "llowerarm"
    case RFoot => "rfoot"
    case LFoot => "lfoot"
  }

  /**
   * getBodyPartName: table lookup; a null or unknown name gives null.
   * The result is a body part exactly when the name is that part's
   * lowercase string, matching case.
   */
  function GetBodyPartName(s: Option<string>): (r: Option<BodyPartName>)
    ensures forall b :: r == Some(b) <==> s == Some(BodyPartString(b))
  {
    if s.Some? && s.value in BodyPartMapping then Some(BodyPartMapping[s.value]) else None
  }

  /** getAngleMin: the smallest reachable angle of joint `i`, in degrees. */
  function GetAngleMin(i: nat): real
    requires i < JointsCount
  {
    JointAngleMins[i]
  }

  /** getAngleMax: the largest reachable angle of joint `i`, in degrees. */
  function GetAngleMax(i: nat): real
    requires i < JointsCount
  {
    JointAngleMaxs[i]
  }

  /** getEffectorID: the effector name of a joint, e.g. "he2" for NeckPitch. */
  function GetEffectorID(i: nat): string
    requires i < JointsCount
  {
    EffectorIDs[i]
  }

  /**
   * The index of the first perceptor name equal to `s` at or after `from`,
   * or -1.
   */
  function IndexFrom(s: string, from: nat): (r: int)
    requires from <= JointsCount
    ensures r == -1 || from <= r < JointsCount
    ensures r >= 0 ==> PerceptorIDs[r] == s && forall j :: from <= j < r ==> PerceptorIDs[j] != s
    ensures r == -1 <==> forall j :: from <= j < JointsCount ==> PerceptorIDs[j] != s
    decreases JointsCount - from
  {
    if from == JointsCount then -1
    else if PerceptorIDs[from] == s then from
    else IndexFrom(s, from + 1)
  }

  /** What getPerceptorIndex(s) returns. */
  function PerceptorIndex(s: string): int
  {
    IndexFrom(s, 0)
  }

  /**
   * getPerceptorIndex: linear search of the perceptor names; the first
   * index whose name equals `s`, or -1 when there is none.
   */
  method GetPerceptorIndex(s: string) returns (r: int)
    ensures r == PerceptorIndex(s)
    ensures 0 <= r < JointsCount ==> PerceptorIDs[r] == s &&
                                     forall j :: 0 <= j < r ==> PerceptorIDs[j] != s
    ensures r == -1 <==> s !in PerceptorIDs
  {
    for i := 0 to JointsCount
      invariant IndexFrom(s, i) == PerceptorIndex(s)
    {
      if PerceptorIDs[i] == s {
        assert s in PerceptorIDs;
        return i;
      }
    }
    assert |PerceptorIDs| == JointsCount;
    return -1;
  }

  // ---------------------------------------------------------------------
  // Facts about the tables
  // ---------------------------------------------------------------------

  /** The joint constants are exactly the indices 0..21, once each. */
  lemma JointConstantsAreIndices()
    ensures |JointIndices| == JointsCount
    ensures forall i :: 0 <= i < JointsCount ==> JointIndices[i] == i
  {
  }

  /** No two joints share a perceptor name. */
  lemma PerceptorIDsDistinct()
    ensures |PerceptorIDs| == JointsCount
    ensures forall i, j :: 0 <= i < j < JointsCount ==> PerceptorIDs[i] != PerceptorIDs[j]
  {
  }

  /** The search from `from` finds the first occurrence of `s` there. */
  lemma {:induction false} IndexFromFinds(s: string, from: nat, i: nat)
    requires from <= i < JointsCount && PerceptorIDs[i] == s
    requires forall j :: from <= j < i ==> PerceptorIDs[j] != s
    ensures IndexFrom(s, from) == i
    decreases i - from
  {
    if from < i {
      IndexFromFinds(s, from + 1, i);
    }
  }

  /** Every perceptor name leads back to its own joint. */
  lemma PerceptorIndexInverse(i: nat)
    requires i < JointsCount
    ensures PerceptorIndex(PerceptorIDs[i]) == i
  {
    PerceptorIDsDistinct();
    IndexFromFinds(PerceptorIDs[i], 0, i);
  }

  /** A name that is no joint's perceptor name gives -1. */
  lemma {:induction false} PerceptorIndexUnknown(s: string, from: nat)
    requires from <= JointsCount
    requires forall j :: from <= j < JointsCount ==> PerceptorIDs[j] != s
    ensures IndexFrom(s, from) == -1
    decreases JointsCount - from
  {
    if from < JointsCount {
      PerceptorIndexUnknown(s, from + 1);
    }
  }

  /** A perceptor name with its 'j' (joint) turned into 'e' (effector): "hj2" becomes "he2". */
  function EffectorName(perceptor: string): (r: string)
    ensures |r| == |perceptor|
  {
    seq(|perceptor|, k requires 0 <= k < |perceptor| => if perceptor[k] == 'j' then 'e' else perceptor[k])
  }

  /** No two joints share an effector name. */
  lemma EffectorIDsDistinct()
    ensures |EffectorIDs| == JointsCount
    ensures forall i, j :: 0 <= i < j < JointsCount ==> EffectorIDs[i] != EffectorIDs[j]
  {
  }

  /**
   * Each joint has an effector of its own, named like its perceptor with
   * 'e' for 'j', so the index that reads a joint also drives it; NeckPitch
   * is driven by "he2", as getEffectorID's documentation says.
   */
  lemma EffectorIDsOfJoints()
    ensures forall i :: 0 <= i < JointsCount ==> GetEffectorID(i) == EffectorName(PerceptorIDs[i])
    ensures forall i, j :: 0 <= i < j < JointsCount ==> GetEffectorID(i) != GetEffectorID(j)
    ensures GetEffectorID(NeckPitch) == "he2"
  {
    forall i | 0 <= i < JointsCount
      ensures GetEffectorID(i) == EffectorName(PerceptorIDs[i])
    {
      assert EffectorName(PerceptorIDs[i])[..] == EffectorIDs[i];
    }
    EffectorIDsDistinct();
  }

  /** Every joint's minimum angle lies strictly below its maximum. */
  lemma AngleRangesNonEmpty(i: nat)
    requires i < JointsCount
    ensures GetAngleMin(i) < GetAngleMax(i)
  {
  }
}
