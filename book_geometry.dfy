/**
 * The numbers `BookView`'s page views are drawn with: for the top leaf
 * (`TopPageView`) its shadow, rotation, shown face and compressed width; for
 * the page beneath it (`SecondContentView`) its shadow, tilt and the computed
 * `viewWidth` that sizes its margin spacers (the layer itself is framed at
 * half the page by the stack view); the
 * fixed look of the third page (`ThirdContentView`); and which side's stack
 * is raised above the other.
 */
module BookGeometry {
  import opened PageDirection
  import PageSwipe
  import opened BookPages
  import opened RealOps

  type PageSwipeStatus = PageSwipe.PageSwipeStatus

  /** A page is turning when the swipe is the one that turns its side. */
  predicate IsPageTurning(status: PageSwipeStatus, pageType: PageDirectionType) {
    match status
    case Left => pageType == PageDirectionType.Right
    case Right => pageType == PageDirectionType.Left
    case NotSwipe => false
  }

  /** The same swipe on the other side of the book. */
  function MirrorStatus(status: PageSwipeStatus): (mirrored: PageSwipeStatus) {
    match status
    case Left => PageSwipe.Right
    case Right => PageSwipe.Left
    case NotSwipe => PageSwipe.NotSwipe
  }

  /**
   * Swipe `.left` turns the right page, swipe `.right` the left page, no
   * swipe turns nothing, and never both pages at once.
   */
  lemma TurningSide(status: PageSwipeStatus, pageType: PageDirectionType)
    ensures IsPageTurning(status, pageType) <==>
      (status == PageSwipe.Left && pageType == Right) || (status == PageSwipe.Right && pageType == Left)
    ensures !IsPageTurning(PageSwipe.NotSwipe, pageType)
    ensures !(IsPageTurning(status, Left) && IsPageTurning(status, Right))
    ensures IsPageTurning(MirrorStatus(status), pageType.Mirror()) == IsPageTurning(status, pageType)
  {
  }

  // ---------------------------------------------------------------- top leaf

  /** Shadow over the top leaf: only the page that is not turning darkens, past half progress. */
  function TopOpacity(status: PageSwipeStatus, pageType: PageDirectionType, animationRatio: real): (opacity: real) {
    if IsPageTurning(status, pageType) then 0.0
    else if animationRatio < 0.5 then 0.0
    else (animationRatio - 0.5) * 2.0 * 0.5
  }

  /** Rotation of the top leaf about the spine, in degrees. */
  function TopAngle(status: PageSwipeStatus, pageType: PageDirectionType, animationRatio: real): (angle: real) {
    if IsPageTurning(status, pageType) then pageType.DefaultAngle() + animationRatio * pageType.MoveMaxAngle()
    else pageType.DefaultAngle() * (1.0 - animationRatio)
  }

  /** The page printed on the back of the leaf whose front is `pageIndex`. */
  function BackPageIndex(pageType: PageDirectionType, pageIndex: int): (backIndex: int) {
    match pageType
    case Left => pageIndex - 1
    case Right => pageIndex + 1
  }

  /** The front is shown unless this leaf is turning and past half progress. */
  predicate ShowsFront(status: PageSwipeStatus, pageType: PageDirectionType, animationRatio: real) {
    !IsPageTurning(status, pageType) || animationRatio < 0.5
  }

  /** How far a page at `angle` is from standing perpendicular, 0 (edge-on) to 1 (flat). */
  function PagingRatioToHalfRatio(pageType: PageDirectionType, angle: real): (flatness: real) {
    match pageType
    case Left => Abs(angle - 90.0) / 90.0
    case Right => Abs(angle + 90.0) / 90.0
  }

  /** `viewWidth`: half the page width scaled by 0.5 plus half the flatness. */
  function CompressedWidth(pageType: PageDirectionType, angle: real, pageWidth: real): (viewWidth: real) {
    var minRatio := 0.5;
    var adjustedRatio := minRatio + (1.0 - minRatio) * PagingRatioToHalfRatio(pageType, angle);
    pageWidth / 2.0 * adjustedRatio
  }

  /** `leftTopPageLeftMargin`: the width a left page gives up, on its outer side. */
  function LeftMargin(pageType: PageDirectionType, viewWidth: real, pageWidth: real): (margin: real) {
    if pageType == Left then pageWidth / 2.0 - viewWidth else 0.0
  }

  /** `rightTopPageRightMargin`: the width a right page gives up, on its outer side. */
  function RightMargin(pageType: PageDirectionType, viewWidth: real, pageWidth: real): (margin: real) {
    if pageType == Left then 0.0 else pageWidth / 2.0 - viewWidth
  }

  function TopViewWidth(status: PageSwipeStatus, pageType: PageDirectionType, animationRatio: real, pageWidth: real): (viewWidth: real) {
    CompressedWidth(pageType, TopAngle(status, pageType, animationRatio), pageWidth)
  }

  /**
   * The top leaf's shadow stays within [0, 0.5]: none on the turning page,
   * none before half progress, then rising linearly to 0.5.
   */
  lemma TopOpacityRange(status: PageSwipeStatus, pageType: PageDirectionType, r: real)
    requires 0.0 <= r <= 1.0
    ensures 0.0 <= TopOpacity(status, pageType, r) <= 0.5
    ensures IsPageTurning(status, pageType) || r < 0.5 ==> TopOpacity(status, pageType, r) == 0.0
    ensures !IsPageTurning(status, pageType) && r >= 0.5 ==> TopOpacity(status, pageType, r) == r - 0.5
  {
  }

  /** The shadow never lightens as the drag progresses. */
  lemma TopOpacityMonotone(status: PageSwipeStatus, pageType: PageDirectionType, r1: real, r2: real)
    requires r1 <= r2
    ensures TopOpacity(status, pageType, r1) <= TopOpacity(status, pageType, r2)
  {
  }

  /**
   * Angles, measured toward the spine (`Sign() * angle`): a turning leaf
   * goes from the resting 10 degrees to 170, a page that is not turning
   * settles from 10 to flat. Both rules agree at progress 0, so a drag never
   * makes a page jump.
   */
  lemma TopAngleRange(status: PageSwipeStatus, pageType: PageDirectionType, r: real)
    requires 0.0 <= r <= 1.0
    ensures TopAngle(status, pageType, 0.0) == pageType.DefaultAngle()
    ensures IsPageTurning(status, pageType) ==>
      && InitialPageAngle <= pageType.Sign() * TopAngle(status, pageType, r) <= MaxAngle - InitialPageAngle
      && (r == 1.0 ==> pageType.Sign() * TopAngle(status, pageType, r) == MaxAngle - InitialPageAngle)
    ensures !IsPageTurning(status, pageType) ==>
      && 0.0 <= pageType.Sign() * TopAngle(status, pageType, r) <= InitialPageAngle
      && (r == 1.0 ==> TopAngle(status, pageType, r) == 0.0)
  {
  }

  /** A turning leaf rotates toward the spine as progress grows; the other page flattens. */
  lemma TopAngleMonotone(status: PageSwipeStatus, pageType: PageDirectionType, r1: real, r2: real)
    requires r1 <= r2
    ensures IsPageTurning(status, pageType) ==>
      pageType.Sign() * TopAngle(status, pageType, r1) <= pageType.Sign() * TopAngle(status, pageType, r2)
    ensures !IsPageTurning(status, pageType) ==>
      pageType.Sign() * TopAngle(status, pageType, r1) >= pageType.Sign() * TopAngle(status, pageType, r2)
  {
  }

  /**
   * The face swap happens where the turning leaf stands perpendicular: the
   * front is shown exactly while the leaf is short of 90 degrees.
   */
  lemma FaceSwitchAtPerpendicular(status: PageSwipeStatus, pageType: PageDirectionType, r: real)
    requires IsPageTurning(status, pageType)
    ensures ShowsFront(status, pageType, r) <==> pageType.Sign() * TopAngle(status, pageType, r) < 90.0
  {
  }

  /** Half the page width scaled by a ratio in [0.5, 1] lies in [a quarter, a half] of the page width. */
  lemma HalfWidthScaled(pageWidth: real, flatness: real)
    requires pageWidth >= 0.0 && 0.0 <= flatness <= 1.0
    ensures pageWidth / 4.0 <= pageWidth / 2.0 * (0.5 + (1.0 - 0.5) * flatness) <= pageWidth / 2.0
    ensures flatness == 0.0 ==> pageWidth / 2.0 * (0.5 + (1.0 - 0.5) * flatness) == pageWidth / 4.0
  {
    var half := pageWidth / 2.0;
    assert half * (0.5 + (1.0 - 0.5) * flatness) == half * 0.5 + half * 0.5 * flatness;
    assert 0.0 <= half * flatness <= half;
  }

  /** The compressed width of a page between 0 and 180 degrees toward the spine. */
  lemma CompressedWidthRange(pageType: PageDirectionType, angle: real, pageWidth: real)
    requires pageWidth >= 0.0 && 0.0 <= pageType.Sign() * angle <= MaxAngle
    ensures pageWidth / 4.0 <= CompressedWidth(pageType, angle, pageWidth) <= pageWidth / 2.0
    ensures pageType.Sign() * angle == 90.0 ==> CompressedWidth(pageType, angle, pageWidth) == pageWidth / 4.0
  {
    HalfWidthScaled(pageWidth, PagingRatioToHalfRatio(pageType, angle));
  }

  /**
   * The top leaf is between a quarter and a half of the page width wide,
   * narrowest (a quarter) exactly when a turning leaf stands perpendicular,
   * and the margin on its outer side makes up the rest of the half width.
   */
  lemma TopWidthRange(status: PageSwipeStatus, pageType: PageDirectionType, r: real, pageWidth: real)
    requires 0.0 <= r <= 1.0 && pageWidth >= 0.0
    ensures var w := TopViewWidth(status, pageType, r, pageWidth);
      && pageWidth / 4.0 <= w <= pageWidth / 2.0
      && LeftMargin(pageType, w, pageWidth) >= 0.0 && RightMargin(pageType, w, pageWidth) >= 0.0
      && LeftMargin(pageType, w, pageWidth) + w + RightMargin(pageType, w, pageWidth) == pageWidth / 2.0
      && (IsPageTurning(status, pageType) && r == 0.5 ==> w == pageWidth / 4.0)
  {
    TopAngleRange(status, pageType, r);
    CompressedWidthRange(pageType, TopAngle(status, pageType, r), pageWidth);
  }

  /**
   * The right page is the mirror image of the left one: under the mirrored
   * swipe its angle is negated, its shadow, width and shown face are the
   * same, and its margin sits on the other side.
   */
  lemma TopGeometryMirrored(status: PageSwipeStatus, pageType: PageDirectionType, r: real, pageWidth: real)
    ensures TopAngle(MirrorStatus(status), pageType.Mirror(), r) == -TopAngle(status, pageType, r)
    ensures TopOpacity(MirrorStatus(status), pageType.Mirror(), r) == TopOpacity(status, pageType, r)
    ensures ShowsFront(MirrorStatus(status), pageType.Mirror(), r) == ShowsFront(status, pageType, r)
    ensures TopViewWidth(MirrorStatus(status), pageType.Mirror(), r, pageWidth) == TopViewWidth(status, pageType, r, pageWidth)
    ensures var w := TopViewWidth(status, pageType, r, pageWidth);
      LeftMargin(pageType.Mirror(), w, pageWidth) == RightMargin(pageType, w, pageWidth)
  {
    var a := TopAngle(status, pageType, r);
    assert TopAngle(MirrorStatus(status), pageType.Mirror(), r) == -a;
    assert PagingRatioToHalfRatio(pageType.Mirror(), -a) == PagingRatioToHalfRatio(pageType, a);
  }

  /**
   * The back face of a built left top layer is the catalog page whose file
   * the layer carries as its back: page `front - 1`.
   */
  lemma LeftTopBackFace(images: seq<string>, left: int, k: int)
    requires 0 <= k < |LeftStack(images, left)| && LeftStack(images, left)[k].LeftTopPage?
    ensures var t := LeftStack(images, left)[k];
      InRange(images, BackPageIndex(Left, t.frontPageIndex)) && images[BackPageIndex(Left, t.frontPageIndex)] == t.backFileName
  {
    LeftStackLayers(images, left);
  }

  /**
   * The back face of a built right top layer is page `front + 1`, whose file
   * the layer carries as its back when that page exists.
   */
  lemma RightTopBackFace(images: seq<string>, right: int, k: int)
    requires 0 <= k < |RightStack(images, right)| && RightStack(images, right)[k].RightTopPage?
    ensures var t := RightStack(images, right)[k];
      t.backFileName == FileAt(images, BackPageIndex(Right, t.frontPageIndex))
  {
    RightStackLayers(images, right);
  }

  // ------------------------------------------------------------ second layer

  /** Tilt of the page beneath the top leaf: toward the turn on the turning side, away on the other. */
  function SecondAngle(status: PageSwipeStatus, pageType: PageDirectionType, animationRatio: real): (angle: real) {
    if IsPageTurning(status, pageType) then pageType.DefaultAngle() * animationRatio
    else pageType.DefaultAngle() * -animationRatio
  }

  /** `SecondContentView.viewWidth`: it only sizes the two margin spacers, not the content. */
  function SecondViewWidth(status: PageSwipeStatus, pageType: PageDirectionType, animationRatio: real, pageWidth: real): (viewWidth: real) {
    CompressedWidth(pageType, SecondAngle(status, pageType, animationRatio), pageWidth)
  }

  /** Shadow over the second layer: lifts as the top leaf moves off it. */
  function SecondOverlayOpacity(animationRatio: real): (opacity: real) {
    (1.0 - animationRatio) * 0.5
  }

  /** The second layer's shadow falls from 0.5 to 0 as progress goes from 0 to 1. */
  lemma SecondOverlayRange(r: real, r2: real)
    requires 0.0 <= r <= 1.0 && r <= r2
    ensures 0.0 <= SecondOverlayOpacity(r) <= 0.5
    ensures SecondOverlayOpacity(0.0) == 0.5 && SecondOverlayOpacity(1.0) == 0.0
    ensures SecondOverlayOpacity(r2) <= SecondOverlayOpacity(r)
  {
  }

  /**
   * The second layer tilts by at most the resting angle: by `defaultAngle *
   * ratio` toward the spine when its side turns, by as much away from it
   * otherwise. It lies flat at progress 0.
   */
  lemma SecondAngleRange(status: PageSwipeStatus, pageType: PageDirectionType, r: real)
    requires 0.0 <= r <= 1.0
    ensures Abs(SecondAngle(status, pageType, r)) <= InitialPageAngle
    ensures SecondAngle(status, pageType, 0.0) == 0.0
    ensures IsPageTurning(status, pageType) ==> pageType.Sign() * SecondAngle(status, pageType, r) == InitialPageAngle * r
    ensures !IsPageTurning(status, pageType) ==> pageType.Sign() * SecondAngle(status, pageType, r) == -InitialPageAngle * r
    ensures SecondAngle(MirrorStatus(status), pageType.Mirror(), r) == -SecondAngle(status, pageType, r)
  {
  }

  /**
   * As written, the second layer on the side that is not turning tilts away
   * from the spine, so its "flatness" exceeds 1 and the computed `viewWidth`
   * exceeds half the page by width * ratio / 36: the outer margin spacer is
   * given a negative width (-10 for a 360-point view at full progress).
   */
  lemma SecondMarginNegative(status: PageSwipeStatus, pageType: PageDirectionType, r: real, pageWidth: real)
    requires !IsPageTurning(status, pageType) && 0.0 <= r <= 1.0
    ensures SecondViewWidth(status, pageType, r, pageWidth) == pageWidth / 2.0 + pageWidth * r / 36.0
    ensures LeftMargin(Left, SecondViewWidth(PageSwipe.Left, Left, 1.0, 360.0), 360.0) == -10.0
  {
    var a := SecondAngle(status, pageType, r);
    assert PagingRatioToHalfRatio(pageType, a) == 1.0 + r / 9.0;
    var w := SecondViewWidth(PageSwipe.Left, Left, 1.0, 360.0);
    assert SecondAngle(PageSwipe.Left, Left, 1.0) == -10.0;
    assert PagingRatioToHalfRatio(Left, -10.0) == 100.0 / 90.0;
  }

  /** The second layer's `viewWidth` with the flatness capped at 1, as the top leaf's is by construction. */
  function SecondViewWidthCapped(status: PageSwipeStatus, pageType: PageDirectionType, animationRatio: real, pageWidth: real): (viewWidth: real) {
    var minRatio := 0.5;
    var flatness := Min(PagingRatioToHalfRatio(pageType, SecondAngle(status, pageType, animationRatio)), 1.0);
    pageWidth / 2.0 * (minRatio + (1.0 - minRatio) * flatness)
  }

  /**
   * With the cap, the computed `viewWidth` stays within [a quarter, a half]
   * of the page width, so both margin spacers get non-negative widths, and
   * the turning side is unchanged from the code as written.
   */
  lemma SecondWidthCappedRange(status: PageSwipeStatus, pageType: PageDirectionType, r: real, pageWidth: real)
    requires 0.0 <= r <= 1.0 && pageWidth >= 0.0
    ensures var w := SecondViewWidthCapped(status, pageType, r, pageWidth);
      && pageWidth / 4.0 <= w <= pageWidth / 2.0
      && LeftMargin(pageType, w, pageWidth) >= 0.0 && RightMargin(pageType, w, pageWidth) >= 0.0
    ensures IsPageTurning(status, pageType) ==>
      SecondViewWidthCapped(status, pageType, r, pageWidth) == SecondViewWidth(status, pageType, r, pageWidth)
  {
    var flatness := Min(PagingRatioToHalfRatio(pageType, SecondAngle(status, pageType, r)), 1.0);
    HalfWidthScaled(pageWidth, flatness);
    if IsPageTurning(status, pageType) {
      assert PagingRatioToHalfRatio(pageType, SecondAngle(status, pageType, r)) <= 1.0;
    }
  }

  // ------------------------------------------------------------- third layer

  /** The third layer is never rotated, always half shaded and half the page wide. */
  const ThirdOverlayOpacity: real := 0.5

  function ThirdViewWidth(pageWidth: real): (viewWidth: real) {
    pageWidth / 2.0
  }

  /**
   * No layer is shaded more than the third one, and none is wider: the
   * deepest page is the darkest and lies at full half width.
   */
  lemma ThirdLayerBounds(status: PageSwipeStatus, pageType: PageDirectionType, r: real, pageWidth: real)
    requires 0.0 <= r <= 1.0 && pageWidth >= 0.0
    ensures TopOpacity(status, pageType, r) <= ThirdOverlayOpacity
    ensures SecondOverlayOpacity(r) <= ThirdOverlayOpacity
    ensures TopViewWidth(status, pageType, r, pageWidth) <= ThirdViewWidth(pageWidth)
  {
    TopWidthRange(status, pageType, r, pageWidth);
  }

  // ----------------------------------------------------------------- z-order

  /** `leftPageIndex`: the left stack's z-index. */
  function LeftZIndex(status: PageSwipeStatus): (zIndex: real) {
    if status == PageSwipe.Right then 1.0 else 0.0
  }

  /** `rightPageIndex`: the right stack's z-index. */
  function RightZIndex(status: PageSwipeStatus): (zIndex: real) {
    if status == PageSwipe.Left then 1.0 else 0.0
  }

  /**
   * A side's stack is raised exactly while its top leaf is turning, so the
   * turning leaf passes over the other page; the two are never raised together.
   */
  lemma ZIndexRaisesTurningSide(status: PageSwipeStatus)
    ensures LeftZIndex(status) == 1.0 <==> IsPageTurning(status, Left)
    ensures RightZIndex(status) == 1.0 <==> IsPageTurning(status, Right)
    ensures LeftZIndex(status) in {0.0, 1.0} && RightZIndex(status) in {0.0, 1.0}
    ensures LeftZIndex(status) + RightZIndex(status) <= 1.0
    ensures RightZIndex(MirrorStatus(status)) == LeftZIndex(status)
  {
  }
}
