/** The GPU model of the 3D section: each rendered frame it scrubs the model's
    animation clip to a time obtained by easing the (stretched) scroll progress,
    and slides the model in depth towards a two-phase target. */
module GPUModel {
  import opened ThreeMath

  /** Progress is stretched by this factor before use. */
  const Stretch := 1.1
  const AnimStart := 0.0
  const AnimEnd := 1.0
  /** Depth of the model as mounted (`position={[0, -1, -1]}`). */
  const InitialZ := -1.0
  /** Fraction of the remaining way the depth moves per frame. */
  const DepthFollow := 0.1
  /** Viewport widths up to this many pixels count as mobile. */
  const MobileMaxWidth := 768

  function Cube(x: real): real { x * x * x }

  /** Cubic ease-in-out of the normalised animation progress. */
  function Eased(t: real): real
  {
    if t < 0.5 then 4.0 * Cube(t) else 1.0 - Cube(-2.0 * t + 2.0) / 2.0
  }

  lemma CubeMonotone(a: real, b: real)
    requires a <= b
    ensures Cube(a) <= Cube(b)
  {
    // b^3 - a^3 == (b - a) * (a^2 + a*b + b^2), and the second factor is a
    // sum of squares: (a + b/2)^2 + 3/4 b^2.
    var q := a * a + a * b + b * b;
    assert q == (a + b / 2.0) * (a + b / 2.0) + 0.75 * (b * b);
    SquareNonneg(a + b / 2.0);
    SquareNonneg(b);
    MulNonneg(b - a, q);
    assert Cube(b) - Cube(a) == (b - a) * q;
  }

  /** The ease starts at 0, ends at 1, and both of its branches give 0.5 in
      the middle. */
  lemma EasedFixedPoints()
    ensures Eased(0.0) == 0.0 && Eased(1.0) == 1.0
    ensures Eased(0.5) == 0.5 && 4.0 * Cube(0.5) == 0.5
  {
    assert Cube(0.0) == 0.0;
    assert Cube(1.0) == 1.0;
    assert Cube(0.5) == 0.125;
  }

  /** The ease never decreases, on all of the reals. */
  lemma EasedMonotone(a: real, b: real)
    requires a <= b
    ensures Eased(a) <= Eased(b)
  {
    if b < 0.5 {
      CubeMonotone(a, b);
    } else if a >= 0.5 {
      CubeMonotone(-2.0 * b + 2.0, -2.0 * a + 2.0);
    } else {
      CubeMonotone(a, 0.5);
      assert Cube(0.5) == 0.125;
      CubeMonotone(-2.0 * b + 2.0, 1.0);
    }
  }

  /** On the unit interval the ease stays in the unit interval. */
  lemma EasedUnit(t: real)
    requires 0.0 <= t <= 1.0
    ensures 0.0 <= Eased(t) <= 1.0
  {
    EasedMonotone(0.0, t);
    EasedMonotone(t, 1.0);
    EasedFixedPoints();
  }

  /** The normalised animation progress for stretched progress `scroll`. */
  function AnimT(scroll: real): (t: real)
    ensures 0.0 <= t <= 1.0
  {
    Clamp((scroll - AnimStart) / (AnimEnd - AnimStart), 0.0, 1.0)
  }

  /** The eased animation progress for stretched progress `scroll`. */
  function EasedAt(scroll: real): (e: real)
    ensures 0.0 <= e <= 1.0
  {
    EasedUnit(AnimT(scroll));
    Eased(AnimT(scroll))
  }

  lemma EasedAtMonotone(a: real, b: real)
    requires a <= b
    ensures EasedAt(a) <= EasedAt(b)
  {
    ClampMonotone(a, b, 0.0, 1.0);
    EasedMonotone(AnimT(a), AnimT(b));
  }

  /** The clip time a frame scrubs to, for raw progress `progress` and a clip
      of length `duration`. */
  function ClipTime(progress: real, duration: real): real
  {
    EasedAt(progress * Stretch) * duration
  }

  /** The clip time lies within the clip, and is the clip's end (the held last
      frame) as soon as the stretched progress reaches 1, that is from raw
      progress 10/11 on. */
  lemma ClipTimeBounds(progress: real, duration: real)
    requires 0.0 <= duration
    ensures 0.0 <= ClipTime(progress, duration) <= duration
    ensures progress >= 10.0 / 11.0 ==> ClipTime(progress, duration) == duration
  {
    var e := EasedAt(progress * Stretch);
    MulNonneg(e, duration);
    MulNonneg(1.0 - e, duration);
    if progress >= 10.0 / 11.0 {
      assert progress * Stretch >= 1.0;
      EasedFixedPoints();
    }
  }

  /** Scrolling further never rewinds the clip. */
  lemma ClipTimeMonotone(p1: real, p2: real, duration: real)
    requires p1 <= p2 && 0.0 <= duration
    ensures ClipTime(p1, duration) <= ClipTime(p2, duration)
  {
    EasedAtMonotone(p1 * Stretch, p2 * Stretch);
    MulNonneg(EasedAt(p2 * Stretch) - EasedAt(p1 * Stretch), duration);
  }

  /** A clip of 2 seconds at raw progress 1.05 / 1.1 (stretched progress 1.05)
      is held at its last frame. */
  lemma ClipTimeHeldExample()
    ensures ClipTime(1.05 / 1.1, 2.0) == 2.0
  {
    ClipTimeBounds(1.05 / 1.1, 2.0);
  }

  /** First phase of the depth: -1 to 1 along the eased progress. */
  function BaseZ(scroll: real): real
  {
    Lerp(-1.0, 1.0, EasedAt(scroll))
  }

  /** Second phase of the depth: 1 to 4 over the stretched range 1 to 1.1. */
  function ExtendedZ(scroll: real): real
  {
    Lerp(1.0, 4.0, Clamp((scroll - 1.0) / 0.1, 0.0, 1.0))
  }

  /** The depth the model heads for at stretched progress `scroll`. */
  function TargetZ(scroll: real): real
  {
    if scroll <= 1.0 then BaseZ(scroll) else ExtendedZ(scroll)
  }

  /** The first phase keeps the depth in [-1, 1], the second in [1, 4], and
      from stretched progress 1.1 on the depth is held at 4. */
  lemma TargetZRange(scroll: real)
    ensures scroll <= 1.0 ==> -1.0 <= TargetZ(scroll) <= 1.0
    ensures scroll > 1.0 ==> 1.0 <= TargetZ(scroll) <= 4.0
    ensures scroll >= 1.1 ==> TargetZ(scroll) == 4.0
    ensures -1.0 <= TargetZ(scroll) <= 4.0
  {
  }

  /** The phases meet at stretched progress 1, where both give depth 1. */
  lemma TargetZJoin()
    ensures BaseZ(1.0) == 1.0 == ExtendedZ(1.0) && TargetZ(1.0) == 1.0
  {
    BaseZAtJoin(1.0);
    ExtendedZAtJoin(1.0);
  }

  lemma BaseZAtJoin(s: real)
    requires s == 1.0
    ensures BaseZ(s) == 1.0 && TargetZ(s) == 1.0
  {
    BaseZNearJoin(s);
    assert -2.0 * s + 2.0 == 0.0;
    assert Cube(0.0) == 0.0;
  }

  lemma ExtendedZAtJoin(s: real)
    requires s == 1.0
    ensures ExtendedZ(s) == 1.0
  {
    assert (s - 1.0) / 0.1 == 0.0;
  }

  /** At progress 0 the depth target is the depth the model is mounted at. */
  lemma TargetZAtTop()
    ensures TargetZ(0.0) == InitialZ
  {
    assert AnimT(0.0) == 0.0;
    assert Eased(0.0) == 0.0 by { assert Cube(0.0) == 0.0; }
  }

  /** Scrolling further never pulls the model back. */
  lemma TargetZMonotone(a: real, b: real)
    requires a <= b
    ensures TargetZ(a) <= TargetZ(b)
  {
    if b <= 1.0 {
      EasedAtMonotone(a, b);
    } else if a > 1.0 {
      ClampMonotone((a - 1.0) / 0.1, (b - 1.0) / 0.1, 0.0, 1.0);
    }
  }

  lemma CubeBelow(u: real)
    requires 0.0 <= u <= 1.0
    ensures 0.0 <= Cube(u) <= u
  {
    MulNonneg(u, u);
    MulNonneg(u, 1.0 - u);
    MulNonneg(u * u, 1.0 - u);
    MulNonneg(u * u, u);
  }

  /** Below the join, the first phase is `1 - (2 - 2 scroll)^3`. */
  lemma BaseZNearJoin(scroll: real)
    requires 0.5 <= scroll <= 1.0
    ensures TargetZ(scroll) == 1.0 - Cube(-2.0 * scroll + 2.0)
  {
    assert AnimT(scroll) == scroll;
    var e := Eased(scroll);
    assert e == 1.0 - Cube(-2.0 * scroll + 2.0) / 2.0;
    LerpOffset(-1.0, 1.0, e);
  }

  /** Above the join, the second phase rises at most 30 times as fast as the
      progress. */
  lemma ExtendedZNearJoin(scroll: real)
    requires 1.0 < scroll
    ensures 1.0 <= TargetZ(scroll) <= 1.0 + 30.0 * (scroll - 1.0)
  {
    var c := Clamp((scroll - 1.0) / 0.1, 0.0, 1.0);
    assert c <= (scroll - 1.0) / 0.1;
    LerpOffset(1.0, 4.0, c);
  }

  /** The depth target is continuous at the phase join: at every stretched
      progress it stays within 30 times the distance to 1 of the value 1 both
      phases give there (`TargetZJoin`). */
  lemma TargetZContinuousAtJoin(scroll: real)
    ensures Abs(TargetZ(scroll) - 1.0) <= 30.0 * Abs(scroll - 1.0)
  {
    if scroll >= 0.5 {
      var z := TargetZ(scroll);
      JoinSides(scroll, z);
      JoinBound(z, scroll);
    } else {
      TargetZRange(scroll);
    }
  }

  lemma JoinSides(scroll: real, z: real)
    requires 0.5 <= scroll && z == TargetZ(scroll)
    ensures scroll <= 1.0 ==> scroll - 1.0 <= (z - 1.0) / 2.0 <= 0.0
    ensures scroll > 1.0 ==> 1.0 <= z <= 1.0 + 30.0 * (scroll - 1.0)
  {
    if scroll <= 1.0 {
      BaseZBelowJoin(scroll);
    } else {
      ExtendedZNearJoin(scroll);
    }
  }

  /** Below the join, the first phase is within `2 - 2 scroll` of 1. */
  lemma BaseZBelowJoin(scroll: real)
    requires 0.5 <= scroll <= 1.0
    ensures scroll - 1.0 <= (TargetZ(scroll) - 1.0) / 2.0 <= 0.0
  {
    BaseZNearJoin(scroll);
    CubeBelow(-2.0 * scroll + 2.0);
  }

  lemma JoinBound(z: real, s: real)
    requires s <= 1.0 ==> s - 1.0 <= (z - 1.0) / 2.0 <= 0.0
    requires s > 1.0 ==> 1.0 <= z <= 1.0 + 30.0 * (s - 1.0)
    ensures Abs(z - 1.0) <= 30.0 * Abs(s - 1.0)
  {
  }

  /** One frame's depth move: a tenth of the way to the target. */
  function FollowZ(z: real, target: real): real
  {
    Lerp(z, target, DepthFollow)
  }

  /** Each frame shrinks the distance to the depth target by the factor 0.9. */
  lemma FollowZGap(z: real, target: real)
    ensures Abs(FollowZ(z, target) - target) == 0.9 * Abs(z - target)
  {
    LerpShrinksGap(z, target, DepthFollow);
  }

  /** The mesh scale for a viewport `width` pixels wide. */
  function MeshScale(width: int): real
  {
    if width <= MobileMaxWidth then 1.0 else 1.5
  }

  /** A wider viewport never gets a smaller model. */
  lemma MeshScaleMonotone(w1: int, w2: int)
    requires w1 <= w2
    ensures MeshScale(w1) <= MeshScale(w2)
  {
  }

  datatype Option<T> = None | Some(value: T)

  /** What the loader reports of an animation clip. */
  datatype Clip = Clip(duration: real)

  /** The per-frame state of the GPU model component. */
  class Model {
    /** Latest progress published by the scroll source. */
    var progressRef: real
    /** The clip time last scrubbed to. */
    var animatedTime: real
    /** The clip of the animation action, once the mixer is set up. */
    var action: Option<Clip>
    /** Whether the animation mixer exists. */
    var mixer: bool
    /** Playback head of the animation action. */
    var actionTime: real
    /** Whether the outer group is mounted. */
    var outerGroup: bool
    /** Depth of the outer group. */
    var outerZ: real
    /** Whether the last resize found a mobile-sized viewport. */
    var isMobile: bool

    /** The action and the mixer are created together. */
    ghost predicate Valid()
      reads this
    {
      action.Some? <==> mixer
    }

    /** Whether a frame has all three of the action, the mixer and the outer
        group to work on. */
    predicate Ready()
      reads this
      ensures Valid() ==> (Ready() <==> action.Some? && outerGroup)
    {
      action.Some? && mixer && outerGroup
    }

    constructor ()
      ensures Valid() && !Ready()
      ensures progressRef == 0.0 && animatedTime == 0.0 && actionTime == 0.0
      ensures action == None && !mixer && !outerGroup && outerZ == InitialZ && !isMobile
    {
      progressRef := 0.0;
      animatedTime := 0.0;
      action := None;
      mixer := false;
      actionTime := 0.0;
      outerGroup := false;
      outerZ := -1.0;
      isMobile := false;
    }

    /** The outer group is mounted at depth -1. */
    method MountOuterGroup()
      modifies this
      ensures outerGroup && outerZ == InitialZ
      ensures progressRef == old(progressRef) && animatedTime == old(animatedTime)
      ensures action == old(action) && mixer == old(mixer) && actionTime == old(actionTime)
      ensures isMobile == old(isMobile)
    {
      outerGroup := true;
      outerZ := -1.0;
    }

    /** Setting up the mixer for the loaded clips: the first clip gets an
        action, held paused at time 0; with no clips nothing is set up. */
    method SetUpAnimation(clips: seq<Clip>)
      requires Valid()
      modifies this
      ensures Valid()
      ensures |clips| > 0 ==> action == Some(clips[0]) && mixer && actionTime == 0.0
      ensures |clips| == 0 ==> action == old(action) && mixer == old(mixer) && actionTime == old(actionTime)
      ensures progressRef == old(progressRef) && animatedTime == old(animatedTime)
      ensures outerGroup == old(outerGroup) && outerZ == old(outerZ) && isMobile == old(isMobile)
    {
      if |clips| > 0 {
        mixer := true;
        action := Some(clips[0]);
        actionTime := 0.0;
      }
    }

    /** The scroll source published a new progress value. */
    method OnProgressChange(value: real)
      modifies this
      ensures progressRef == value
      ensures animatedTime == old(animatedTime) && action == old(action) && mixer == old(mixer)
      ensures actionTime == old(actionTime) && outerGroup == old(outerGroup)
      ensures outerZ == old(outerZ) && isMobile == old(isMobile)
    {
      progressRef := value;
    }

    /** The viewport was resized to `width` pixels. */
    method OnResize(width: int)
      modifies this
      ensures isMobile == (width <= MobileMaxWidth)
      ensures MeshScale(width) == (if isMobile then 1.0 else 1.5)
      ensures progressRef == old(progressRef) && animatedTime == old(animatedTime)
      ensures action == old(action) && mixer == old(mixer) && actionTime == old(actionTime)
      ensures outerGroup == old(outerGroup) && outerZ == old(outerZ)
    {
      isMobile := width <= 768;
    }

    /** One rendered frame. Without the action, the mixer or the outer group
        it changes nothing. */
    method Frame()
      requires Valid()
      modifies this
      ensures Valid()
      ensures progressRef == old(progressRef) && action == old(action) && mixer == old(mixer)
      ensures outerGroup == old(outerGroup) && isMobile == old(isMobile)
      ensures old(Ready()) ==>
        && animatedTime == ClipTime(progressRef, action.value.duration)
        && actionTime == animatedTime
        && outerZ == FollowZ(old(outerZ), TargetZ(progressRef * Stretch))
      ensures !old(Ready()) ==>
        animatedTime == old(animatedTime) && actionTime == old(actionTime) && outerZ == old(outerZ)
    {
      var scroll := progressRef * 1.1;

      if action.Some? && mixer && outerGroup {
        var animStart := 0.0;
        var animEnd := 1.0;

        var rawT := (scroll - animStart) / (animEnd - animStart);
        var t := Clamp(rawT, 0.0, 1.0);
        var eased := if t < 0.5 then 4.0 * t * t * t else 1.0 - Cube(-2.0 * t + 2.0) / 2.0;

        var duration := action.value.duration;
        var targetTime := eased * duration;

        animatedTime := targetTime;
        actionTime := animatedTime;

        var baseZ := Lerp(-1.0, 1.0, eased);
        var extraScrollT := Clamp((scroll - 1.0) / 0.1, 0.0, 1.0);
        var extendedZ := Lerp(1.0, 4.0, extraScrollT);
        var targetZ := if scroll <= 1.0 then baseZ else extendedZ;

        outerZ := Lerp(outerZ, targetZ, 0.1);
      }
    }
  }

  /** With no clips loaded, frames do nothing at all, whatever the progress. */
  method NoClipsNoMotion(progress: real) returns (time: real, z: real)
    ensures time == 0.0 && z == InitialZ
  {
    var m := new Model();
    m.MountOuterGroup();
    m.SetUpAnimation([]);
    m.OnProgressChange(progress);
    m.Frame();
    m.Frame();
    time, z := m.actionTime, m.outerZ;
  }
}
