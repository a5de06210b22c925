/** The trailing camera of the 3D GPU section: each rendered frame it keeps a
    high-water mark of scroll progress, maps the mark through a piecewise-linear
    table of four named waypoints, and moves the camera a tenth of the way
    towards the point it obtains. */
module ScrollRotateCamera {
  import opened ThreeMath

  const Start := Vec3(6.0, 6.0, 6.0)
  const Mid := Vec3(0.0, 10.0, 8.0)
  const End := Vec3(0.0, 10.0, 4.0)
  /** Close-up at the end of the section. */
  const CloseZoom := Vec3(0.0, 8.0, 1.0)
  /** The point the camera is re-aimed at on every frame. */
  const LookAtPoint := Vec3(1.0, 1.9, 1.5)
  /** Below this progress the high-water mark follows the scroll down. */
  const ResetBelow := 0.01
  /** Fraction of the remaining way the camera moves per frame. */
  const FollowFactor := 0.1

  /** The new high-water mark after a frame that read progress `scroll`. */
  function NextMark(mark: real, scroll: real): (m: real)
    ensures scroll < ResetBelow ==> m == scroll
    ensures scroll >= ResetBelow ==> mark <= m && scroll <= m && (m == mark || m == scroll)
  {
    if scroll < ResetBelow then scroll else Max(mark, scroll)
  }

  /** Rising leg, scroll 0 to 0.25: start to mid. */
  function Rise(s: real): Vec3 { LerpVec(Start, Mid, s / 0.25) }

  /** Pull-in leg, scroll 0.5 to 0.9: mid to end. */
  function Approach(s: real): Vec3 { LerpVec(Mid, End, (s - 0.5) / 0.4) }

  /** Zoom leg, scroll 0.9 to 1.1: end to the close-up. */
  function Zoom(s: real): Vec3 { LerpVec(End, CloseZoom, (s - 0.9) / 0.2) }

  /** The point the camera heads for when the high-water mark is `s`. */
  function Target(s: real): Vec3
  {
    if s < 0.25 then Rise(s)
    else if s < 0.5 then Mid
    else if s < 0.9 then Approach(s)
    else if s < 1.1 then Zoom(s)
    else CloseZoom
  }

  /** At each break point the leg below arrives exactly where the leg above
      starts, so the waypoint table has no jump. */
  lemma TargetJoins()
    ensures Rise(0.25) == Mid == Target(0.25)
    ensures Approach(0.5) == Mid == Target(0.5)
    ensures Approach(0.9) == End == Target(0.9)
    ensures Zoom(1.1) == CloseZoom == Target(1.1)
    ensures Rise(0.0) == Start == Target(0.0)
  {
  }

  /** For non-negative progress the target stays inside the box spanned by the
      two waypoints of its leg: no leg overshoots. */
  lemma TargetWithinLeg(s: real)
    requires 0.0 <= s
    ensures s < 0.25 ==> InBox(Target(s), Start, Mid)
    ensures 0.25 <= s < 0.5 ==> Target(s) == Mid
    ensures 0.5 <= s < 0.9 ==> InBox(Target(s), Mid, End)
    ensures 0.9 <= s < 1.1 ==> InBox(Target(s), End, CloseZoom)
    ensures 1.1 <= s ==> Target(s) == CloseZoom
  {
  }

  /** The target is Lipschitz in the mark with constant 24 on every axis, so it
      is continuous everywhere, the break points included. */
  lemma TargetLipschitz(s1: real, s2: real)
    ensures Abs(Target(s1).x - Target(s2).x) <= 24.0 * Abs(s1 - s2)
    ensures Abs(Target(s1).y - Target(s2).y) <= 24.0 * Abs(s1 - s2)
    ensures Abs(Target(s1).z - Target(s2).z) <= 24.0 * Abs(s1 - s2)
  {
  }

  /** The marks left behind by a run of frames reading `scrolls`, starting from
      mark `mark`. */
  function Marks(mark: real, scrolls: seq<real>): (ms: seq<real>)
    ensures |ms| == |scrolls|
    decreases |scrolls|
  {
    if scrolls == [] then []
    else
      var m := NextMark(mark, scrolls[0]);
      [m] + Marks(m, scrolls[1..])
  }

  /** The mark after a run of frames reading `scrolls`, starting from `mark`. */
  function LastMark(mark: real, scrolls: seq<real>): real
  {
    if scrolls == [] then mark else Marks(mark, scrolls)[|scrolls| - 1]
  }

  /** One more frame extends the run of marks by the `NextMark` of the last one. */
  lemma {:induction false} MarksSnoc(mark: real, scrolls: seq<real>, scroll: real)
    ensures Marks(mark, scrolls + [scroll]) == Marks(mark, scrolls) + [NextMark(LastMark(mark, scrolls), scroll)]
    decreases |scrolls|
  {
    if scrolls != [] {
      var m := NextMark(mark, scrolls[0]);
      assert (scrolls + [scroll])[1..] == scrolls[1..] + [scroll];
      MarksSnoc(m, scrolls[1..], scroll);
      assert LastMark(m, scrolls[1..]) == LastMark(mark, scrolls);
    }
  }

  /** Scrolling down to 0.5 and back up to 0.05 does not rewind the camera:
      the marks are 0, 0.5, 0.5. */
  lemma MarksScrollBackExample()
    ensures Marks(0.0, [0.0, 0.5, 0.05]) == [0.0, 0.5, 0.5]
  {
    assert Marks(0.5, [0.05]) == [0.5];
    assert Marks(0.0, [0.5, 0.05]) == [0.5, 0.5];
  }

  /** After every frame the mark is at least the progress that frame read. */
  lemma {:induction false} MarksCoverScroll(mark: real, scrolls: seq<real>, i: nat)
    requires i < |scrolls|
    ensures Marks(mark, scrolls)[i] >= scrolls[i]
    decreases i
  {
    if i > 0 {
      MarksCoverScroll(NextMark(mark, scrolls[0]), scrolls[1..], i - 1);
    }
  }

  /** While no frame reads progress under the reset threshold the mark never
      decreases. */
  lemma {:induction false} MarksRatchet(mark: real, scrolls: seq<real>, i: nat, j: nat)
    requires forall k :: 0 <= k < |scrolls| ==> scrolls[k] >= ResetBelow
    requires i <= j < |scrolls|
    ensures mark <= Marks(mark, scrolls)[i] <= Marks(mark, scrolls)[j]
    decreases j
  {
    var m := NextMark(mark, scrolls[0]);
    if i > 0 {
      MarksRatchet(m, scrolls[1..], i - 1, j - 1);
    } else if j > 0 {
      MarksRatchet(m, scrolls[1..], 0, j - 1);
    }
  }

  /** The mark can only go down on a frame that reads progress under the reset
      threshold, and then it becomes exactly that progress. */
  lemma {:induction false} MarksDropOnlyAtTop(mark: real, scrolls: seq<real>, i: nat)
    requires i < |scrolls|
    requires Marks(mark, scrolls)[i] < (if i == 0 then mark else Marks(mark, scrolls)[i - 1])
    ensures scrolls[i] < ResetBelow && Marks(mark, scrolls)[i] == scrolls[i]
    decreases i
  {
    if i > 0 {
      MarksDropOnlyAtTop(NextMark(mark, scrolls[0]), scrolls[1..], i - 1);
    }
  }

  /** Reading the same progress again leaves the mark, hence the target, as it is. */
  lemma NextMarkIdempotent(mark: real, scroll: real)
    ensures NextMark(NextMark(mark, scroll), scroll) == NextMark(mark, scroll)
  {
  }

  /** One frame's camera move: a tenth of the way from `current` to `target`. */
  function Follow(current: Vec3, target: Vec3): Vec3
  {
    LerpVec(current, target, FollowFactor)
  }

  /** Held on a fixed target, the camera's distance to it along one axis is
      `0.9^n` times the starting distance after `n` frames. */
  lemma FollowAxisGap(x: real, target: real, n: nat)
    ensures Abs(LerpSteps(x, target, FollowFactor, n) - target) == Pow(0.9, n) * Abs(x - target)
  {
    LerpStepsGap(x, target, FollowFactor, n);
    assert 1.0 - FollowFactor == 0.9;
  }

  /** The same for all three axes of the camera position. */
  lemma FollowStepsGap(current: Vec3, target: Vec3, n: nat)
    ensures var v := LerpVecSteps(current, target, FollowFactor, n);
            && Abs(v.x - target.x) == Pow(0.9, n) * Abs(current.x - target.x)
            && Abs(v.y - target.y) == Pow(0.9, n) * Abs(current.y - target.y)
            && Abs(v.z - target.z) == Pow(0.9, n) * Abs(current.z - target.z)
  {
    LerpVecStepsComponents(current, target, FollowFactor, n);
    FollowAxisGap(current.x, target.x, n);
    FollowAxisGap(current.y, target.y, n);
    FollowAxisGap(current.z, target.z, n);
  }

  /** Held on a fixed target, the camera comes within `eps` of it along an axis
      once `n >= 9 * d / eps` frames have passed, `d` the starting distance. */
  lemma FollowConverges(x: real, target: real, eps: real, n: nat)
    requires 0.0 < eps
    requires 9.0 * Abs(x - target) <= eps * n as real
    ensures Abs(LerpSteps(x, target, FollowFactor, n) - target) <= eps
  {
    FollowAxisGap(x, target, n);
    PowNineTenthsBound(n);
    PowNonneg(0.9, n);
    DecayBelow(Pow(0.9, n), Abs(x - target), eps, n as real);
  }

  /** Jumping from the top to progress 0.3 does not snap the camera: the first
      frame puts it a tenth of the way from start to mid, which it then
      approaches. */
  lemma JumpToHoldFirstFrame()
    ensures NextMark(0.0, 0.3) == 0.3 && Target(0.3) == Mid
    ensures Follow(Start, Target(NextMark(0.0, 0.3))) == LerpVec(Start, Mid, 0.1)
  {
  }

  /** The per-frame state of the camera controller. */
  class Camera {
    /** High-water mark of the progress read so far. */
    var maxScrollReached: real
    /** The filtered camera position. */
    var currentCameraPosition: Vec3
    /** Scratch vector holding this frame's waypoint target. */
    var calculatedTargetPos: Vec3
    /** `camera.position` of the rendering engine. */
    var position: Vec3
    /** Point passed to the last `camera.lookAt`. */
    var lookAt: Vec3

    /** Mounting: mark 0, filtered position at start, engine camera at
        (6, 6, 6) as the canvas sets it, aimed at the origin. */
    constructor ()
      ensures maxScrollReached == 0.0
      ensures currentCameraPosition == Start && position == Start
      ensures calculatedTargetPos == Vec3(0.0, 0.0, 0.0)
      ensures lookAt == Vec3(0.0, 0.0, 0.0)
    {
      maxScrollReached := 0.0;
      currentCameraPosition := Start;
      calculatedTargetPos := Vec3(0.0, 0.0, 0.0);
      position := Vec3(6.0, 6.0, 6.0);
      lookAt := Vec3(0.0, 0.0, 0.0);
    }

    /** One rendered frame reading progress `scroll`. */
    method Frame(scroll: real)
      modifies this
      ensures maxScrollReached == NextMark(old(maxScrollReached), scroll)
      ensures calculatedTargetPos == Target(maxScrollReached)
      ensures currentCameraPosition == Follow(old(currentCameraPosition), calculatedTargetPos)
      ensures position == currentCameraPosition
      ensures lookAt == LookAtPoint
    {
      if scroll < 0.01 {
        maxScrollReached := scroll;
      } else {
        maxScrollReached := Max(maxScrollReached, scroll);
      }

      var s := maxScrollReached;

      if s < 0.25 {
        var t := s / 0.25;
        calculatedTargetPos := LerpVec(Start, Mid, t);
      } else if s < 0.5 {
        calculatedTargetPos := Mid;
      } else if s < 0.9 {
        var t := (s - 0.5) / 0.4;
        calculatedTargetPos := LerpVec(Mid, End, t);
      } else if s < 1.1 {
        var t := (s - 0.9) / 0.2;
        calculatedTargetPos := LerpVec(End, CloseZoom, t);
      } else {
        calculatedTargetPos := CloseZoom;
      }

      currentCameraPosition := LerpVec(currentCameraPosition, calculatedTargetPos, 0.1);
      position := currentCameraPosition;
      lookAt := Vec3(1.0, 1.9, 1.5);
    }
  }

  /** A run of frames on a freshly mounted camera: the marks it goes through
      are `Marks(0, scrolls)`, so each covers the progress its frame read, and
      the last frame leaves its target (`calculatedTargetPos`) at the
      waypoint of the last mark. */
  method RunFrames(scrolls: seq<real>) returns (marks: seq<real>, target: Vec3)
    ensures marks == Marks(0.0, scrolls)
    ensures forall i :: 0 <= i < |marks| ==> marks[i] >= scrolls[i]
    ensures scrolls == [] ==> target == Vec3(0.0, 0.0, 0.0)
    ensures scrolls != [] ==> target == Target(marks[|marks| - 1])
  {
    var c := new Camera();
    marks := [];
    var i := 0;
    while i < |scrolls|
      invariant 0 <= i <= |scrolls|
      invariant marks == Marks(0.0, scrolls[..i])
      invariant c.maxScrollReached == LastMark(0.0, scrolls[..i])
      invariant i == 0 ==> c.calculatedTargetPos == Vec3(0.0, 0.0, 0.0)
      invariant i > 0 ==> c.calculatedTargetPos == Target(c.maxScrollReached)
    {
      MarksSnoc(0.0, scrolls[..i], scrolls[i]);
      c.Frame(scrolls[i]);
      marks := marks + [c.maxScrollReached];
      assert scrolls[..i + 1] == scrolls[..i] + [scrolls[i]];
      i := i + 1;
    }
    assert scrolls[..i] == scrolls;
    target := c.calculatedTargetPos;
    forall k | 0 <= k < |marks|
      ensures marks[k] >= scrolls[k]
    {
      MarksCoverScroll(0.0, scrolls, k);
    }
  }

  /** A frame at progress 0 on a freshly mounted camera leaves the camera where
      it is: the target is already start. */
  method FirstFrameAtTop() returns (moved: bool)
    ensures !moved
  {
    var c := new Camera();
    c.Frame(0.0);
    moved := c.currentCameraPosition != Start || c.maxScrollReached != 0.0;
  }
}
