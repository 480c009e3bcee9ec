/**
 * Keyframes and keyframe sequences: a keyframe is a transition time in
 * milliseconds and one target angle per joint (in degrees); a sequence
 * hands its frames out one by one through a cursor that wraps around
 * after a single null.
 */
module Keyframes {
  import opened Common
  import opened RobotConsts

  /** Java's int range. */
  const MinInt: int := -0x8000_0000
  const MaxInt: int := 0x7fff_ffff
  type Int32 = x: int | MinInt <= x <= MaxInt

  /** The value of a keyframe: its transition time and its angles. */
  datatype FrameData = FrameData(time: Int32, angles: seq<real>)

  /**
   * A keyframe. Both fields are final; the angle array is the caller's own
   * array, not a copy.
   */
  class Keyframe {
    const transitionTime: Int32
    const angles: array<real>

    constructor (tTime: Int32, angleArray: array<real>)
      ensures transitionTime == tTime && angles == angleArray
    {
      transitionTime := tTime;
      angles := angleArray;
    }

    /** getTransitionTime: the time given to the constructor. */
    function GetTransitionTime(): Int32
    {
      transitionTime
    }

    /** getAngle: entry `i` of the angle array as it is now. */
    function GetAngle(i: nat): real
      requires i < angles.Length
      reads angles
    {
      angles[i]
    }
  }

  /** The value a keyframe holds at this moment. */
  ghost function Content(kf: Keyframe): FrameData
    reads kf.angles
  {
    FrameData(kf.transitionTime, kf.angles[..])
  }

  /**
   * The angle array is shared with whoever built the keyframe: a write
   * into that array afterwards is what getAngle returns.
   */
  method WriteThrough(tTime: Int32, angleArray: array<real>, i: nat, v: real) returns (kf: Keyframe)
    requires i < angleArray.Length
    modifies angleArray
    ensures kf.angles == angleArray && kf.GetTransitionTime() == tTime
    ensures kf.GetAngle(i) == v
    ensures forall j :: 0 <= j < angleArray.Length && j != i ==> kf.GetAngle(j) == old(angleArray[j])
  {
    kf := new Keyframe(tTime, angleArray);
    angleArray[i] := v;
  }

  /** The values of a list of keyframes, in order. */
  ghost function FramesOf(frames: seq<Keyframe>): (ds: seq<FrameData>)
    reads set k | k in frames :: k.angles
    ensures |ds| == |frames|
  {
    if frames == [] then []
    else FramesOf(frames[..|frames| - 1]) + [Content(frames[|frames| - 1])]
  }

  /** Appending a keyframe appends its value. */
  lemma FramesOfSnoc(frames: seq<Keyframe>, f: Keyframe)
    ensures FramesOf(frames + [f]) == FramesOf(frames) + [Content(f)]
  {
    assert (frames + [f])[..|frames|] == frames;
  }

  /** Entry i of the values is the value of keyframe i. */
  lemma {:induction false} FramesOfAt(frames: seq<Keyframe>, i: nat)
    requires i < |frames|
    ensures FramesOf(frames)[i] == Content(frames[i])
  {
    if i < |frames| - 1 {
      FramesOfAt(frames[..|frames| - 1], i);
    }
  }

  /** Every entry of the values is the value of its keyframe. */
  lemma FramesOfAll(frames: seq<Keyframe>)
    ensures forall i {:trigger Content(frames[i])} :: 0 <= i < |frames| ==> FramesOf(frames)[i] == Content(frames[i])
  {
    forall i | 0 <= i < |frames| {
      FramesOfAt(frames, i);
    }
  }

  // ---------------------------------------------------------------------
  // The cursor
  // ---------------------------------------------------------------------

  /**
   * One getNextFrame on a sequence of `size` frames with the cursor at
   * `cursor`: the index handed out (None for null) and the new cursor.
   */
  function CursorStep(size: nat, cursor: nat): (Option<nat>, nat)
    requires cursor <= size
  {
    if cursor == size then (None, 0) else (Some(cursor), cursor + 1)
  }

  /** `k` calls of getNextFrame from `cursor`: what they hand out and the cursor afterwards. */
  function CursorRun(size: nat, cursor: nat, k: nat): (r: (seq<Option<nat>>, nat))
    requires cursor <= size
    ensures |r.0| == k && r.1 <= size
    decreases k
  {
    if k == 0 then ([], cursor)
    else
      var step := CursorStep(size, cursor);
      var run := CursorRun(size, step.1, k - 1);
      ([step.0] + run.0, run.1)
  }

  /** The frames from `cursor` on come out in order, and then a single null that puts the cursor back to 0. */
  lemma {:induction false} CursorRunToEnd(size: nat, cursor: nat)
    requires cursor <= size
    ensures CursorRun(size, cursor, size - cursor + 1).0 == seq(size - cursor, i => Some(cursor + i)) + [None]
    ensures CursorRun(size, cursor, size - cursor + 1).1 == 0
    decreases size - cursor
  {
    if cursor < size {
      CursorRunToEnd(size, cursor + 1);
      assert seq(size - cursor, i => Some(cursor + i)) + [None] ==
             [Some(cursor)] + (seq(size - (cursor + 1), i => Some(cursor + 1 + i)) + [None]);
    } else {
      assert CursorRun(size, 0, 0) == ([], 0);
      assert seq(size - cursor, i => Some(cursor + i)) + [None] == [None];
    }
  }

  /**
   * From a fresh cursor, size+1 calls hand out frames 0..size-1 in
   * insertion order, then null, and leave the cursor where it started, so
   * the next call hands out the first frame again.
   */
  lemma CursorPeriod(size: nat)
    ensures CursorRun(size, 0, size + 1).0 == seq(size, i => Some(i)) + [None]
    ensures CursorRun(size, 0, size + 1).1 == 0
  {
    CursorRunToEnd(size, 0);
    assert seq(size - 0, i => Some(0 + i)) == seq(size, i => Some(i));
  }

  /** An empty sequence hands out null on every call. */
  lemma {:induction false} EmptyAlwaysNull(k: nat)
    ensures CursorRun(0, 0, k).0 == seq(k, i => None) && CursorRun(0, 0, k).1 == 0
  {
    if k > 0 {
      EmptyAlwaysNull(k - 1);
      assert CursorStep(0, 0) == (None, 0);
      assert seq<Option<nat>>(k, i => None) == [None] + seq<Option<nat>>(k - 1, i => None);
    }
  }

  /** A list of keyframes with a read cursor. */
  class KeyframeSequence {
    var sequence: seq<Keyframe>
    var nextFrameNumber: nat

    /** The cursor stays within 0..size. */
    ghost predicate Valid()
      reads this
    {
      nextFrameNumber <= |sequence|
    }

    /** Every frame has one angle per joint, so getAngle is defined on all joints. */
    ghost predicate FullFrames()
      reads this
    {
      forall k :: k in sequence ==> k.angles.Length == JointsCount
    }

    /** The values of the frames, in order. */
    ghost function Frames(): seq<FrameData>
      reads this, set k | k in sequence :: k.angles
    {
      FramesOf(sequence)
    }

    constructor ()
      ensures Valid() && sequence == [] && nextFrameNumber == 0
    {
      sequence := [];
      nextFrameNumber := 0;
    }

    /**
     * getNextFrame: the frame under the cursor, advancing it; at the end,
     * null, with the cursor put back to 0.
     */
    method GetNextFrame() returns (frame: Keyframe?)
      requires Valid()
      modifies this`nextFrameNumber
      ensures Valid()
      ensures nextFrameNumber == CursorStep(|sequence|, old(nextFrameNumber)).1
      ensures frame == if old(nextFrameNumber) == |sequence| then null else sequence[old(nextFrameNumber)]
      ensures CursorStep(|sequence|, old(nextFrameNumber)).0 ==
              if frame == null then None else Some(old(nextFrameNumber))
    {
      if nextFrameNumber == |sequence| {
        nextFrameNumber := 0;
        frame := null;
      } else {
        frame := sequence[nextFrameNumber];
        nextFrameNumber := nextFrameNumber + 1;
      }
    }

    /** addFrame: a frame is appended at the end; null is ignored. The cursor does not move. */
    method AddFrame(frame: Keyframe?)
      requires Valid()
      modifies this`sequence
      ensures Valid()
      ensures sequence == old(sequence) + if frame == null then [] else [frame]
    {
      if frame != null {
        sequence := sequence + [frame];
      }
    }
  }
}
