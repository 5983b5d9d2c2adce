/**
 * The earlier revision of the page views (`Components/PageView.swift`): a
 * top leaf without width compression whose resting page keeps its tilt, and
 * a second layer whose tilt ignores the swipe.
 */
module EarlyPageView {
  import opened PageDirection
  import PageSwipe
  import BookGeometry

  type PageSwipeStatus = PageSwipe.PageSwipeStatus

  predicate IsPageTurning(status: PageSwipeStatus, pageType: PageDirectionType) {
    match status
    case Left => pageType == PageDirectionType.Right
    case Right => pageType == PageDirectionType.Left
    case NotSwipe => false
  }

  function Opacity(status: PageSwipeStatus, pageType: PageDirectionType, animationRatio: real): (opacity: real) {
    if IsPageTurning(status, pageType) then 0.0
    else if animationRatio < 0.5 then 0.0
    else (animationRatio - 0.5) * 2.0 * 0.5
  }

  function AngleDegrees(status: PageSwipeStatus, pageType: PageDirectionType, animationRatio: real): (angle: real) {
    if IsPageTurning(status, pageType) then pageType.DefaultAngle() + animationRatio * pageType.MoveMaxAngle()
    else pageType.DefaultAngle()
  }

  function BackPageIndex(pageType: PageDirectionType, pageIndex: int): (backIndex: int) {
    match pageType
    case Left => pageIndex - 1
    case Right => pageIndex + 1
  }

  predicate ShowsFront(status: PageSwipeStatus, pageType: PageDirectionType, animationRatio: real) {
    !IsPageTurning(status, pageType) || animationRatio < 0.5
  }

  /** Shadow over the second layer. */
  function SecondOverlayOpacity(animationRatio: real): (opacity: real) {
    (1.0 - animationRatio) * 0.5
  }

  /** Tilt of the second layer: the same whichever page is swiped. */
  function SecondAngle(pageType: PageDirectionType, animationRatio: real): (angle: real) {
    pageType.DefaultAngle() * animationRatio
  }

  /**
   * The leaf turning is the one of the swiped side, never one when nothing
   * is swiped; the shadow is 0 while turning or before half progress, then
   * rises linearly, within [0, 0.5] for progress up to 1.
   */
  lemma TurningAndOpacity(status: PageSwipeStatus, pageType: PageDirectionType, r: real)
    requires r <= 1.0
    ensures IsPageTurning(status, pageType) <==>
      (status == PageSwipe.Left && pageType == Right) || (status == PageSwipe.Right && pageType == Left)
    ensures !IsPageTurning(PageSwipe.NotSwipe, pageType)
    ensures 0.0 <= Opacity(status, pageType, r) <= 0.5
    ensures IsPageTurning(status, pageType) || r < 0.5 ==> Opacity(status, pageType, r) == 0.0
    ensures !IsPageTurning(status, pageType) && r >= 0.5 ==> Opacity(status, pageType, r) == (r - 0.5) * 2.0 * 0.5
  {
  }

  /**
   * A page that is not turning stays at its resting tilt whatever the
   * progress; a turning leaf goes from 10 to 170 degrees toward the spine,
   * and the front gives way to the back where it passes 90 degrees. The
   * back face is the neighbouring page (one lower on the left, one higher on
   * the right), and seen from the other side its back is this page again:
   * a turned leaf swaps faces.
   */
  lemma EarlyAngles(status: PageSwipeStatus, pageType: PageDirectionType, r: real, pageIndex: int)
    requires 0.0 <= r <= 1.0
    ensures !IsPageTurning(status, pageType) ==> AngleDegrees(status, pageType, r) == pageType.DefaultAngle()
    ensures IsPageTurning(status, pageType) ==>
      && InitialPageAngle <= pageType.Sign() * AngleDegrees(status, pageType, r) <= MaxAngle - InitialPageAngle
      && (ShowsFront(status, pageType, r) <==> pageType.Sign() * AngleDegrees(status, pageType, r) < 90.0)
    ensures BackPageIndex(pageType, pageIndex) == (if pageType == Left then pageIndex - 1 else pageIndex + 1)
    ensures BackPageIndex(pageType.Mirror(), BackPageIndex(pageType, pageIndex)) == pageIndex
  {
  }

  /**
   * The second layer: its shadow falls from 0.5 to 0 and its tilt grows to
   * the resting angle, and neither depends on the swipe status.
   */
  lemma EarlySecondLayer(pageType: PageDirectionType, r: real)
    requires 0.0 <= r <= 1.0
    ensures 0.0 <= SecondOverlayOpacity(r) <= 0.5
    ensures pageType.Sign() * SecondAngle(pageType, r) == InitialPageAngle * r
  {
  }

  /**
   * Against the later revision in `BookView`: turning, shadow, face choice,
   * back index and a turning leaf's angle are unchanged; a resting page now
   * flattens as the other page turns (the two agree only at progress 0), and
   * the second layer's tilt is unchanged on the turning side and reversed on
   * the other.
   */
  lemma RevisionsCompared(status: PageSwipeStatus, pageType: PageDirectionType, r: real, pageIndex: int)
    ensures IsPageTurning(status, pageType) == BookGeometry.IsPageTurning(status, pageType)
    ensures Opacity(status, pageType, r) == BookGeometry.TopOpacity(status, pageType, r)
    ensures ShowsFront(status, pageType, r) == BookGeometry.ShowsFront(status, pageType, r)
    ensures BackPageIndex(pageType, pageIndex) == BookGeometry.BackPageIndex(pageType, pageIndex)
    ensures IsPageTurning(status, pageType) ==>
      AngleDegrees(status, pageType, r) == BookGeometry.TopAngle(status, pageType, r)
    ensures !IsPageTurning(status, pageType) ==>
      (AngleDegrees(status, pageType, r) == BookGeometry.TopAngle(status, pageType, r) <==> r == 0.0)
    ensures SecondOverlayOpacity(r) == BookGeometry.SecondOverlayOpacity(r)
    ensures IsPageTurning(status, pageType) ==>
      SecondAngle(pageType, r) == BookGeometry.SecondAngle(status, pageType, r)
    ensures !IsPageTurning(status, pageType) ==>
      SecondAngle(pageType, r) == -BookGeometry.SecondAngle(status, pageType, r)
  {
  }
}
