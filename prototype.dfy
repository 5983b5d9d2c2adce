/**
 * The first prototype of the book (`ContentView.swift`): one leaf per side
 * turned by a full 180 degrees, whose progress snaps to 0 or 1 by magnitude
 * when the drag ends.
 */
module Prototype {
  import opened Wrappers
  import PageDirection
  import opened RealOps

  datatype PageType = Left | Right {
    predicate IsLeft() {
      this == Left
    }

    function DefaultAngle(): real {
      match this
      case Left => 0.0
      case Right => 0.0
    }

    function MaxAngle(): real {
      match this
      case Left => 180.0
      case Right => -180.0
    }

    function Anchor(): PageDirection.UnitPoint {
      match this
      case Left => PageDirection.Trailing
      case Right => PageDirection.Leading
    }
  }

  /** Both sides rest flat and turn by half a circle about the spine, in opposite senses. */
  lemma PageTypeConstants(t: PageType)
    ensures t.DefaultAngle() == 0.0
    ensures t.MaxAngle() == (if t.IsLeft() then 180.0 else -180.0)
    ensures t.Anchor() == (if t.IsLeft() then PageDirection.Trailing else PageDirection.Leading)
    ensures Left.MaxAngle() == -Right.MaxAngle()
  {
  }

  /**
   * The prototype's progress: the drag distance over the width, capped at 1
   * but not clamped below, so a drag away from the spine gives a negative ratio.
   */
  function DragRatio(dragXAmount: real, width: real): (ratio: real)
    requires width > 0.0
    ensures ratio <= 1.0
    ensures dragXAmount <= width ==> ratio * width == dragXAmount
    ensures ratio < 0.0 <==> dragXAmount < 0.0
  {
    Min(dragXAmount / width, 1.0)
  }

  /** Snap on release: more than half way completes the turn, anything else (half included) cancels it. */
  function Snap(ratio: real): (snapped: real)
    ensures snapped == 0.0 || snapped == 1.0
    ensures snapped == 1.0 <==> ratio > 0.5
  {
    if ratio > 0.5 then 1.0 else 0.0
  }

  /** The snap is monotone, and an exact half cancels. */
  lemma SnapMonotone(r1: real, r2: real)
    requires r1 <= r2
    ensures Snap(r1) <= Snap(r2)
    ensures Snap(0.5) == 0.0
  {
  }

  /** The face the prototype's `PageView` shows: on the left the front once past half, on the right before half. */
  predicate ShowsFront(pageType: PageType, animationRatio: real) {
    (pageType.IsLeft() && animationRatio > 0.5) || (!pageType.IsLeft() && animationRatio < 0.5)
  }

  /** Rotation of the prototype's page, as written: the product capped from above by the side's full turn. */
  function Angle(pageType: PageType, animationRatio: real): (angle: real) {
    Min(animationRatio * pageType.MaxAngle(), pageType.MaxAngle())
  }

  /**
   * On the left the angle follows the progress up to 180 degrees and the
   * front shows exactly past 90; on the right the cap `min` picks -180 for
   * every progress up to 1, so the right page never moves.
   */
  lemma AngleAsWritten(r: real)
    requires r <= 1.0
    ensures Angle(Left, r) == 180.0 * r <= 180.0
    ensures ShowsFront(Left, r) <==> Angle(Left, r) > 90.0
    ensures Angle(Right, r) == -180.0
    ensures Angle(Right, 0.0) != Right.MaxAngle() * 0.0
  {
  }

  /** The rotation capped toward the side's full turn, whichever its sign. */
  function AngleCapped(pageType: PageType, animationRatio: real): (capped: real) {
    var angle := animationRatio * pageType.MaxAngle();
    if pageType.MaxAngle() >= 0.0 then Min(angle, pageType.MaxAngle())
    else -Min(-angle, -pageType.MaxAngle())
  }

  /**
   * Capped by magnitude, both pages follow the progress up to their full
   * turn, the right one as the mirror of the left, and the left one is as
   * written.
   */
  lemma AngleCappedFollowsDrag(t: PageType, r: real)
    requires r <= 1.0
    ensures AngleCapped(t, r) == r * t.MaxAngle()
    ensures AngleCapped(Right, r) == -AngleCapped(Left, r)
    ensures AngleCapped(Left, r) == Angle(Left, r)
    ensures ShowsFront(Right, r) <==> AngleCapped(Right, r) > -90.0
  {
  }

  datatype Point = Point(x: real, y: real)

  const Zero: Point := Point(0.0, 0.0)

  /** The prototype view's drag state. */
  class ContentView {
    const images: seq<string>
    const currentLeftPageIndex: int
    var leftAnimationRatio: real
    var rightAnimationRatio: real
    var dragStartPoint: Point
    var dragXAmount: Option<real>

    /** Neither ratio ever exceeds 1. */
    ghost predicate Valid()
      reads this
    {
      leftAnimationRatio <= 1.0 && rightAnimationRatio <= 1.0
    }

    constructor ()
      ensures Valid()
      ensures |images| == 6 && currentLeftPageIndex == 4
      ensures leftAnimationRatio == 0.0 && rightAnimationRatio == 0.0
      ensures dragStartPoint == Zero && dragXAmount == None
    {
      images := ["image0", "image1", "image2", "image3", "image4", "image5"];
      currentLeftPageIndex := 4;
      leftAnimationRatio := 0.0;
      rightAnimationRatio := 0.0;
      dragStartPoint := Zero;
      dragXAmount := None;
    }

    /**
     * `onChanged`: remember the start point; a drag that started in the left
     * half sets the left ratio from the rightward distance, any other the
     * right ratio from the leftward distance.
     */
    method DragChanged(startLocation: Point, location: Point, width: real)
      requires width > 0.0 && Valid()
      modifies this`leftAnimationRatio, this`rightAnimationRatio, this`dragStartPoint
      ensures Valid()
      ensures dragStartPoint == startLocation
      ensures startLocation.x < width / 2.0 ==>
        leftAnimationRatio == DragRatio(location.x - startLocation.x, width)
        && rightAnimationRatio == old(rightAnimationRatio)
      ensures !(startLocation.x < width / 2.0) ==>
        rightAnimationRatio == DragRatio(startLocation.x - location.x, width)
        && leftAnimationRatio == old(leftAnimationRatio)
    {
      dragStartPoint := startLocation;
      if dragStartPoint.x < width / 2.0 {
        var amount := location.x - startLocation.x;
        leftAnimationRatio := DragRatio(amount, width);
      } else {
        var amount := startLocation.x - location.x;
        rightAnimationRatio := DragRatio(amount, width);
      }
    }

    /**
     * `onEnded` as written: the start point is reset before the side test,
     * so the test always sees x = 0, which is in the left half. The left
     * ratio is snapped and the right ratio is never touched.
     */
    method DragEnded(width: real)
      requires width > 0.0 && Valid()
      modifies this`leftAnimationRatio, this`rightAnimationRatio, this`dragStartPoint, this`dragXAmount
      ensures Valid()
      ensures dragStartPoint == Zero && dragXAmount == None
      ensures leftAnimationRatio == Snap(old(leftAnimationRatio))
      ensures rightAnimationRatio == old(rightAnimationRatio)
    {
      dragStartPoint := Zero;
      dragXAmount := None;
      if dragStartPoint.x < width / 2.0 {
        leftAnimationRatio := Snap(leftAnimationRatio);
      } else {
        // The source snaps the right ratio here; the branch cannot be taken.
        assert false;
      }
    }

    /**
     * `onEnded` with the side taken from the drag's start point before it is
     * reset: the ratio of the side the drag started on is snapped to 0 or 1,
     * the other is left alone.
     */
    method DragEndedIntended(width: real)
      requires width > 0.0 && Valid()
      modifies this`leftAnimationRatio, this`rightAnimationRatio, this`dragStartPoint, this`dragXAmount
      ensures Valid()
      ensures dragStartPoint == Zero && dragXAmount == None
      ensures old(dragStartPoint.x) < width / 2.0 ==>
        leftAnimationRatio == Snap(old(leftAnimationRatio)) && rightAnimationRatio == old(rightAnimationRatio)
      ensures !(old(dragStartPoint.x) < width / 2.0) ==>
        rightAnimationRatio == Snap(old(rightAnimationRatio)) && leftAnimationRatio == old(leftAnimationRatio)
      ensures rightAnimationRatio in {0.0, 1.0} || leftAnimationRatio in {0.0, 1.0}
    {
      var isLeftPageSwipe := dragStartPoint.x < width / 2.0;
      dragStartPoint := Zero;
      dragXAmount := None;
      if isLeftPageSwipe {
        leftAnimationRatio := Snap(leftAnimationRatio);
      } else {
        rightAnimationRatio := Snap(rightAnimationRatio);
      }
    }
  }

  /**
   * A right-half drag followed by its release, as written: the right ratio
   * keeps the dragged value (0.8 for a 400-point view dragged 320 points)
   * instead of snapping to 1; with the start point taken before the reset
   * it snaps.
   */
  method RightDragNotSnapped()
  {
    var view := new ContentView();
    view.DragChanged(Point(350.0, 0.0), Point(30.0, 0.0), 400.0);
    assert view.rightAnimationRatio == 0.8;
    view.DragEnded(400.0);
    assert view.rightAnimationRatio == 0.8;
    var fixed := new ContentView();
    fixed.DragChanged(Point(350.0, 0.0), Point(30.0, 0.0), 400.0);
    fixed.DragEndedIntended(400.0);
    assert fixed.rightAnimationRatio == 1.0;
  }
}
