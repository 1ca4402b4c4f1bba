/**
 * The scene on values: the ordered list of body states that `Window` keeps,
 * each with the index of the body it orbits, and the update pass of one frame,
 * which updates the bodies one after the other in list order. A body reads the
 * position its parent has at the moment of its own update.
 */
module Scene {
  import opened Wrappers
  import opened Vectors
  import opened Motion

  /** The position of the body at index `parent`, if there is one. */
  function ParentPosition(bodies: seq<BodyState>, parent: Option<nat>): Option<Vec3>
  {
    if parent.Some? && parent.value < |bodies| then Some(bodies[parent.value].position) else None
  }

  /** Every body comes after the body it orbits. */
  predicate ParentsFirst(parents: seq<Option<nat>>)
  {
    forall k :: 0 <= k < |parents| && parents[k].Some? ==> parents[k].value < k
  }

  /** The scene after the first n bodies of the list have been updated, in order. */
  function UpdateUpTo(bodies: seq<BodyState>, parents: seq<Option<nat>>, n: nat, dt: real, trig: Trig): (r: seq<BodyState>)
    requires |parents| == |bodies| && n <= |bodies|
    ensures |r| == |bodies|
    ensures forall l :: n <= l < |bodies| ==> r[l] == bodies[l]
  {
    if n == 0 then
      bodies
    else
      var s := UpdateUpTo(bodies, parents, n - 1, dt, trig);
      s[n - 1 := StepBody(s[n - 1], ParentPosition(s, parents[n - 1]), dt, trig)]
  }

  /** The update pass of one frame: every body, in list order. */
  function StepScene(bodies: seq<BodyState>, parents: seq<Option<nat>>, dt: real, trig: Trig): (r: seq<BodyState>)
    requires |parents| == |bodies|
    ensures |r| == |bodies|
  {
    UpdateUpTo(bodies, parents, |bodies|, dt, trig)
  }

  /** A body, once updated, is not touched again by the rest of the pass. */
  lemma {:induction false} UpdatedOnce(bodies: seq<BodyState>, parents: seq<Option<nat>>, n: nat, m: nat, dt: real, trig: Trig)
    requires |parents| == |bodies| && n <= m <= |bodies|
    ensures forall l :: 0 <= l < n ==> UpdateUpTo(bodies, parents, m, dt, trig)[l] == UpdateUpTo(bodies, parents, n, dt, trig)[l]
    decreases m
  {
    if n < m {
      UpdatedOnce(bodies, parents, n, m - 1, dt, trig);
    }
  }

  /**
   * Body k is updated exactly once per frame, from its state at the start of
   * the frame, and reads the position its parent has after every body before
   * it in the list has been updated.
   */
  lemma UpdateOfBody(bodies: seq<BodyState>, parents: seq<Option<nat>>, k: nat, dt: real, trig: Trig)
    requires |parents| == |bodies| && k < |bodies|
    ensures StepScene(bodies, parents, dt, trig)[k] ==
      StepBody(bodies[k], ParentPosition(UpdateUpTo(bodies, parents, k, dt, trig), parents[k]), dt, trig)
  {
    UpdatedOnce(bodies, parents, k + 1, |bodies|, dt, trig);
  }

  /**
   * No lag: when parents come first, every body reads its parent's position of
   * the same frame, the one the parent ends the frame with.
   */
  lemma SameFrameParent(bodies: seq<BodyState>, parents: seq<Option<nat>>, k: nat, dt: real, trig: Trig)
    requires |parents| == |bodies| && k < |bodies| && ParentsFirst(parents)
    ensures var after := StepScene(bodies, parents, dt, trig);
      after[k] == StepBody(bodies[k], ParentPosition(after, parents[k]), dt, trig)
  {
    UpdateOfBody(bodies, parents, k, dt, trig);
    UpdatedOnce(bodies, parents, k, |bodies|, dt, trig);
  }

  /**
   * A child listed before its parent lags one frame: it reads the position the
   * parent had at the start of the frame.
   */
  lemma ChildBeforeParentLags(bodies: seq<BodyState>, parents: seq<Option<nat>>, k: nat, dt: real, trig: Trig)
    requires |parents| == |bodies| && k < |bodies|
    requires parents[k].Some? && k <= parents[k].value < |bodies|
    ensures StepScene(bodies, parents, dt, trig)[k] ==
      StepBody(bodies[k], Some(bodies[parents[k].value].position), dt, trig)
  {
    UpdateOfBody(bodies, parents, k, dt, trig);
  }

  /**
   * Hierarchy propagation: an orbiting planet or moon ends the frame at its
   * parent's end-of-frame position plus its own orbit offset, level with it.
   */
  lemma ChildFollowsParent(bodies: seq<BodyState>, parents: seq<Option<nat>>, k: nat, dt: real, trig: Trig)
    requires |parents| == |bodies| && k < |bodies| && ParentsFirst(parents)
    requires parents[k].Some?
    requires !bodies[k].orbit.Fixed? && bodies[k].orbit.orbitalPeriod != 0.0
    ensures var after := StepScene(bodies, parents, dt, trig);
      var p := parents[k].value;
      !after[k].orbit.Fixed? &&
      after[k].orbit.angle == AdvanceAngle(bodies[k].orbit.angle, bodies[k].orbit.orbitalPeriod, dt) &&
      after[k].position == Add(after[p].position, OrbitOffset(bodies[k].orbit.orbitalRadius, after[k].orbit.angle, trig)) &&
      after[k].position.y == after[p].position.y
  {
    var after := StepScene(bodies, parents, dt, trig);
    var p := parents[k].value;
    UpdateOfBody(bodies, parents, k, dt, trig);
    UpdatedOnce(bodies, parents, k, |bodies|, dt, trig);
    assert ParentPosition(UpdateUpTo(bodies, parents, k, dt, trig), parents[k]) == Some(after[p].position);
    OrbitAroundParent(bodies[k], after[p].position, dt, trig);
  }

  /** Every body keeps its kind through a pass. */
  lemma {:induction false} UpdateUpToKeepsKinds(bodies: seq<BodyState>, parents: seq<Option<nat>>, n: nat, dt: real, trig: Trig)
    requires |parents| == |bodies| && n <= |bodies|
    ensures forall l :: 0 <= l < |bodies| ==>
      UpdateUpTo(bodies, parents, n, dt, trig)[l].orbit.Fixed? == bodies[l].orbit.Fixed?
  {
    if n > 0 {
      UpdateUpToKeepsKinds(bodies, parents, n - 1, dt, trig);
    }
  }

  /** The frames of a run, one update pass per frame length in dts. */
  function RunFrames(bodies: seq<BodyState>, parents: seq<Option<nat>>, dts: seq<real>, trig: Trig): (r: seq<BodyState>)
    requires |parents| == |bodies|
    ensures |r| == |bodies|
    decreases |dts|
  {
    if |dts| == 0 then bodies else StepScene(RunFrames(bodies, parents, dts[..|dts| - 1], trig), parents, dts[|dts| - 1], trig)
  }

  /** The total time of a run. */
  function Total(dts: seq<real>): real
    decreases |dts|
  {
    if |dts| == 0 then 0.0 else Total(dts[..|dts| - 1]) + dts[|dts| - 1]
  }

  /**
   * A plain sphere, such as the sun, never moves: after any number of frames it
   * is where it started, and it has turned as far as one frame of the total
   * time would turn it.
   */
  lemma {:induction false} FixedBodyStaysPut(bodies: seq<BodyState>, parents: seq<Option<nat>>, dts: seq<real>, k: nat, trig: Trig)
    requires |parents| == |bodies| && k < |bodies| && bodies[k].orbit.Fixed?
    ensures var b := RunFrames(bodies, parents, dts, trig)[k];
      b.position == bodies[k].position && b.orbit.Fixed? &&
      b.rotation == Spin(bodies[k].selfRotation, bodies[k].rotationPeriod, bodies[k].rotation, Total(dts)) &&
      b.selfRotation == bodies[k].selfRotation && b.rotationPeriod == bodies[k].rotationPeriod
    decreases |dts|
  {
    if |dts| == 0 {
      SpinZeroDt(bodies[k].selfRotation, bodies[k].rotationPeriod, bodies[k].rotation);
    } else {
      var init := dts[..|dts| - 1];
      var before := RunFrames(bodies, parents, init, trig);
      FixedBodyStaysPut(bodies, parents, init, k, trig);
      UpdateOfBody(before, parents, k, dts[|dts| - 1], trig);
      FixedStaysPut(before[k], ParentPosition(UpdateUpTo(before, parents, k, dts[|dts| - 1], trig), parents[k]), dts[|dts| - 1], trig);
      SpinAdditive(bodies[k].selfRotation, bodies[k].rotationPeriod, bodies[k].rotation, Total(init), dts[|dts| - 1]);
    }
  }
}
