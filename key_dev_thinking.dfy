/**
 * KeyDevThinking, the decision layer of the keyframe developer agent: it
 * plays the motion under test, waits a while to see whether the pose it
 * ends in is stable, and plays it again; a robot that has fallen is stood
 * up first.
 */
module KeyframeDeveloper {
  import opened Common
  import opened Perception
  import opened Motion

  /** How many ready cycles the pose reached is watched before the test runs again. */
  const WaitTime: int := 100

  /**
   * The state counter: 0 plays the test motion, 1 waits, 2 stands up from
   * the back, 3 rolls over from the front to the back.
   */
  predicate Good(state: int, wait: int)
  {
    0 <= state <= 3 && 0 <= wait <= WaitTime
  }

  /** What one ready cycle of decide does: the selector called, if any, and the new counters. */
  datatype Step = Step(selector: Option<Selector>, state: int, wait: int)

  /**
   * decide, once the motion is ready, with the accelerometer reading and
   * the test file's lines (None when it cannot be read). A fall overrides
   * the state; a state outside 0..3 does nothing.
   */
  function KeyDevStep(state: int, wait: int, acc: Vec3, file: Option<seq<string>>): (r: Step)
    ensures Good(state, wait) ==> Good(r.state, r.wait)
    ensures acc.z < 7.0 ==>
              r == Step(Some(if acc.y > 0.0 then RiseFromBack else Play(RollOverToBack)), 0, wait)
    ensures acc.z >= 7.0 && state == 0 ==> r == Step(Some(Test(file)), 1, wait)
    ensures acc.z >= 7.0 && state == 1 ==>
              r == if wait == 0 then Step(None, 0, WaitTime) else Step(None, 1, wait - 1)
    ensures r.selector.Some? ==> r.selector.value.Test? || r.selector.value.RiseFromBack? ||
                                 (r.selector.value.Play? && Plain(r.selector.value.move))
    ensures r.wait != wait ==> acc.z >= 7.0 && state == 1
  {
    var s := if acc.z < 7.0 then (if acc.y > 0.0 then 2 else 3) else state;
    if s == 0 then Step(Some(Test(file)), 1, wait)
    else if s == 1 then
      if wait == 0 then Step(None, 0, WaitTime) else Step(None, 1, wait - 1)
    else if s == 2 then Step(Some(RiseFromBack), 0, wait)
    else if s == 3 then Step(Some(Play(RollOverToBack)), 0, wait)
    else Step(None, s, wait)
  }

  /** The selectors called over a run of ready cycles, and the counters it ends with. */
  datatype Run = Run(selectors: seq<Option<Selector>>, state: int, wait: int)

  function KeyDevRun(state: int, wait: int, accs: seq<Vec3>, file: Option<seq<string>>): (r: Run)
    ensures |r.selectors| == |accs|
    ensures Good(state, wait) ==> Good(r.state, r.wait)
    decreases |accs|
  {
    if accs == [] then Run([], state, wait)
    else
      var st := KeyDevStep(state, wait, accs[0], file);
      var rest := KeyDevRun(st.state, st.wait, accs[1..], file);
      Run([st.selector] + rest.selectors, rest.state, rest.wait)
  }

  /** An upright robot is never sent to stand up. */
  predicate Upright(accs: seq<Vec3>)
  {
    forall i :: 0 <= i < |accs| ==> accs[i].z >= 7.0
  }

  /**
   * Waiting with `w` cycles left, an upright robot selects nothing for
   * w + 1 ready cycles, after which the counter is back at 100 and the next
   * cycle plays the test motion again.
   */
  lemma {:induction false} WaitsThenRetests(w: int, accs: seq<Vec3>, file: Option<seq<string>>)
    requires 0 <= w && |accs| == w + 2 && Upright(accs)
    ensures var r := KeyDevRun(1, w, accs, file);
            (forall i :: 0 <= i <= w ==> r.selectors[i].None?) &&
            r.selectors[w + 1] == Some(Test(file)) && r.state == 1 && r.wait == WaitTime
    decreases w
  {
    var r := KeyDevRun(1, w, accs, file);
    var st := KeyDevStep(1, w, accs[0], file);
    var rest := KeyDevRun(st.state, st.wait, accs[1..], file);
    assert r.selectors == [st.selector] + rest.selectors;
    if w == 0 {
      var st2 := KeyDevStep(0, WaitTime, accs[1], file);
      assert rest.selectors == [st2.selector] + KeyDevRun(1, WaitTime, accs[2..], file).selectors;
    } else {
      assert Upright(accs[1..]) by {
        forall i | 0 <= i < |accs[1..]| ensures accs[1..][i].z >= 7.0 {
          assert accs[1..][i] == accs[i + 1];
        }
      }
      WaitsThenRetests(w - 1, accs[1..], file);
      forall i | 0 <= i <= w ensures r.selectors[i].None? {
        if i > 0 {
          assert r.selectors[i] == rest.selectors[i - 1];
        }
      }
    }
  }

  /** A fallen robot is stood up, and the cycle after, if upright, plays the test motion. */
  lemma FallThenRetest(state: int, wait: int, fallen: Vec3, upright: Vec3, file: Option<seq<string>>)
    requires fallen.z < 7.0 && upright.z >= 7.0
    ensures var r := KeyDevRun(state, wait, [fallen, upright], file);
            r.selectors == [Some(if fallen.y > 0.0 then RiseFromBack else Play(RollOverToBack)), Some(Test(file))] &&
            r.state == 1 && r.wait == wait
  {
    var st := KeyDevStep(state, wait, fallen, file);
    assert st.state == 0 && st.wait == wait;
    assert [fallen, upright][1..] == [upright];
    var st2 := KeyDevStep(0, wait, upright, file);
    assert st2 == Step(Some(Test(file)), 1, wait);
    assert KeyDevRun(0, wait, [upright], file) == Run([st2.selector], 1, wait) by {
      assert [upright][1..] == [];
    }
  }

  class KeyDevThinking {
    const motion: KeyframeMotion
    const percIn: PerceptorInput
    var waitTime: int
    var state: int

    /** Starts in state 0 with the full waiting time. */
    constructor (km: KeyframeMotion, percIn: PerceptorInput)
      ensures motion == km && this.percIn == percIn
      ensures state == 0 && waitTime == WaitTime && Good(state, waitTime)
    {
      motion := km;
      this.percIn := percIn;
      waitTime := WaitTime;
      state := 0;
    }

    /**
     * decide: nothing while a move runs; otherwise one KeyDevStep, whose
     * selector, if any, is called, with `file` the lines of the test file
     * setTest reads.
     */
    method Decide(file: Option<seq<string>>)
      requires motion.Valid() && percIn.acc.Some?
      modifies motion`actualSequence, motion`state, motion`currentPosture, this`waitTime, this`state
      ensures motion.Valid()
      ensures !old(motion.Ready()) ==> unchanged(motion) && state == old(state) && waitTime == old(waitTime)
      ensures old(motion.Ready()) ==>
                var r := KeyDevStep(old(state), old(waitTime), percIn.acc.value, file);
                && state == r.state && waitTime == r.wait
                && (r.selector.Some? ==> motion.Selected(r.selector.value, old(motion.currentPosture)))
                && (r.selector.None? ==> unchanged(motion))
    {
      if motion.Ready() {
        var r := KeyDevStep(state, waitTime, percIn.acc.value, file);
        if r.selector.Some? {
          motion.Select(r.selector.value);
        }
        state := r.state;
        waitTime := r.wait;
      }
    }
  }
}
