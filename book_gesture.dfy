/**
 * The state of `BookView` and its two drag-gesture handlers: the left-half
 * recognizer turns the left page back, the right-half recognizer turns the
 * right page forward, and the spring animation's completion moves the page
 * index and rebuilds both stacks.
 */
module BookGesture {
  import opened Wrappers
  import opened PageSwipe
  import opened PageLayer
  import opened BookPages
  import opened RealOps


  /**
   * Progress of a drag that moved `dragX` points toward the spine in a view
   * `width` wide: the distance clamped to [0, width], over the width, capped at 1.
   */
  function DragRatio(dragX: real, width: real): (ratio: real)
    requires width > 0.0
    ensures 0.0 <= ratio <= 1.0
    ensures dragX <= 0.0 ==> ratio == 0.0
    ensures dragX >= width ==> ratio == 1.0
    ensures 0.0 <= dragX <= width ==> ratio * width == dragX
  {
    var dragXAmount := Min(Max(dragX, 0.0), width);
    Min(dragXAmount / width, 1.0)
  }

  /** A released drag whose animation completion has not run yet. */
  datatype Release =
    | LeftRelease(isInLeftPage: bool)     // left-half drag, released at a point left of the midline or not
    | RightRelease(isInRightPage: bool)   // right-half drag, released right of the midline or not

  /**
   * The left page index after a release's completion: two back when a left
   * drag ends outside the left half, two forward when a right drag ends
   * outside the right half, unchanged otherwise. The catalog is not consulted.
   */
  function NextLeftIndex(left: int, release: Release): (next: int)
    ensures next % 2 == left % 2
    ensures next == left - 2 <==> release == LeftRelease(false)
    ensures next == left + 2 <==> release == RightRelease(false)
    ensures next == left <==> release in {LeftRelease(true), RightRelease(true)}
  {
    match release
    case LeftRelease(isInLeftPage) => if isInLeftPage then left else left - 2
    case RightRelease(isInRightPage) => if isInRightPage then left else left + 2
  }

  /**
   * Commit by position: a left-half drag turns the page back iff it is
   * released at or right of the midline, a right-half drag turns it forward
   * iff released at or left of the midline.
   */
  lemma CommitIffPastMidline(left: int, x: real, width: real)
    ensures NextLeftIndex(left, LeftRelease(x < width / 2.0)) == (if x >= width / 2.0 then left - 2 else left)
    ensures NextLeftIndex(left, RightRelease(x > width / 2.0)) == (if x <= width / 2.0 then left + 2 else left)
  {
  }

  /**
   * The commit is not checked against the catalog: from the opening spread
   * two committed left turns reach left page -3, where neither stack has a
   * top page (the right stack lies flat with pages 2 and 0 only).
   */
  lemma UncheckedTurnsPassTheCover()
    ensures NextLeftIndex(NextLeftIndex(1, LeftRelease(false)), LeftRelease(false)) == -3
    ensures LeftStack(Catalog(), -3) == []
    ensures RightStack(Catalog(), -2) == [RightThirdPage(Some(Catalog()[2]), 2), RightSecondPage(Some(Catalog()[0]), 0)]
    ensures SpreadHasTopPage(Catalog(), 1) && !SpreadHasTopPage(Catalog(), -3)
  {
  }

  /** Some top page is on show: the left leaf (back page `left - 1`) or the right leaf (page `left + 1`). */
  predicate SpreadHasTopPage(images: seq<string>, left: int) {
    InRange(images, left - 1) || InRange(images, left + 1)
  }

  /**
   * The boundary rule the code leaves out: a turn commits only when the leaf
   * being turned exists (the left top layer for a left drag, the right top
   * layer for a right drag).
   */
  function GuardedNextLeftIndex(images: seq<string>, left: int, release: Release): (next: int)
    ensures next == NextLeftIndex(left, release) || next == left
    ensures release.LeftRelease? && InRange(images, left - 1) ==> next == NextLeftIndex(left, release)
    ensures release.RightRelease? && InRange(images, left + 1) ==> next == NextLeftIndex(left, release)
    ensures release.LeftRelease? && !InRange(images, left - 1) ==> next == left
    ensures release.RightRelease? && !InRange(images, left + 1) ==> next == left
  {
    match release
    case LeftRelease(_) => if InRange(images, left - 1) then NextLeftIndex(left, release) else left
    case RightRelease(_) => if InRange(images, left + 1) then NextLeftIndex(left, release) else left
  }

  /**
   * With the guard, every completion leaves a top page on one side of the
   * spread; from the opening spread, a second left turn is refused.
   */
  lemma GuardedTurnKeepsTopPage(images: seq<string>, left: int, release: Release)
    requires SpreadHasTopPage(images, left)
    ensures SpreadHasTopPage(images, GuardedNextLeftIndex(images, left, release))
    ensures var next := GuardedNextLeftIndex(images, left, release);
      LeftHas(LeftStack(images, next), Top) || RightHas(RightStack(images, next + 1), Top)
    ensures GuardedNextLeftIndex(Catalog(), GuardedNextLeftIndex(Catalog(), 1, LeftRelease(false)), LeftRelease(false)) == -1
  {
    var next := GuardedNextLeftIndex(images, left, release);
    LeftStackLayers(images, next);
    RightStackLayers(images, next + 1);
  }

  class BookView {
    const images: seq<string>
    var currentLeftPageIndex: int
    var leftPageKindStack: seq<LeftBookPageKind>
    var rightPageKindStack: seq<RightBookPageKind>
    var animationRatio: real
    var pageSwipeStatus: PageSwipeStatus
    /** Completions of released drags, oldest first. */
    var pendingCompletions: seq<Release>

    /** The ratio stays a progress value and the left page index stays odd. */
    ghost predicate Valid()
      reads this
    {
      0.0 <= animationRatio <= 1.0 && currentLeftPageIndex % 2 == 1
    }

    function CurrentRightPageIndex(): int
      reads this
    {
      currentLeftPageIndex + 1
    }

    /** Both stacks are the ones the builders give for the current spread. */
    ghost predicate StacksCurrent()
      reads this
    {
      leftPageKindStack == LeftStack(images, currentLeftPageIndex)
      && rightPageKindStack == RightStack(images, CurrentRightPageIndex())
    }

    constructor ()
      ensures Valid()
      ensures images == Catalog() && currentLeftPageIndex == 1
      ensures leftPageKindStack == [] && rightPageKindStack == []
      ensures animationRatio == 0.0 && pageSwipeStatus == NotSwipe && pendingCompletions == []
    {
      images := Catalog();
      currentLeftPageIndex := 1;
      leftPageKindStack := [];
      rightPageKindStack := [];
      animationRatio := 0.0;
      pageSwipeStatus := NotSwipe;
      pendingCompletions := [];
    }

    /** `onAppear`: build both stacks for the starting spread. */
    method OnAppear()
      modifies this`leftPageKindStack, this`rightPageKindStack
      ensures StacksCurrent()
    {
      AdjustBothPages(currentLeftPageIndex, 0.0, CurrentRightPageIndex(), 0.0);
    }

    /** `adjustLeftPages`: the new left stack depends on the index only; the ratio is unused. */
    method AdjustLeftPages(leftIndex: int, leftAnimationRatio: real)
      modifies this`leftPageKindStack
      ensures leftPageKindStack == LeftStack(images, leftIndex)
    {
      var stack: seq<LeftBookPageKind> := [];
      var thirdPageIndex := leftIndex - 4;
      if InRange(images, thirdPageIndex) {
        stack := stack + [LeftThirdPage(images[thirdPageIndex], thirdPageIndex)];
      }
      var secondPageIndex := leftIndex - 2;
      if InRange(images, secondPageIndex) {
        stack := stack + [LeftSecondPage(images[secondPageIndex], secondPageIndex)];
      }
      var topBackPageIndex := leftIndex - 1;
      if InRange(images, topBackPageIndex) {
        var frontFileName := if InRange(images, leftIndex) then Some(images[leftIndex]) else None;
        stack := stack + [LeftTopPage(images[topBackPageIndex], frontFileName, leftIndex)];
      }
      leftPageKindStack := stack;
    }

    /** `adjustRightPages`: the new right stack depends on the index only; the ratio is unused. */
    method AdjustRightPages(rightIndex: int, rightAnimationRatio: real)
      modifies this`rightPageKindStack
      ensures rightPageKindStack == RightStack(images, rightIndex)
    {
      var stack: seq<RightBookPageKind> := [];
      var thirdPageIndex := rightIndex + 4;
      if InRange(images, thirdPageIndex) {
        stack := stack + [RightThirdPage(Some(images[thirdPageIndex]), thirdPageIndex)];
      }
      var secondPageIndex := rightIndex + 2;
      if InRange(images, secondPageIndex) {
        stack := stack + [RightSecondPage(Some(images[secondPageIndex]), secondPageIndex)];
      }
      var topBackPageIndex := rightIndex + 1;
      if InRange(images, rightIndex) {
        var backFileName := if InRange(images, topBackPageIndex) then Some(images[topBackPageIndex]) else None;
        stack := stack + [RightTopPage(images[rightIndex], backFileName, rightIndex)];
      }
      rightPageKindStack := stack;
    }

    method AdjustBothPages(leftIndex: int, leftAnimationRatio: real, rightIndex: int, rightAnimationRatio: real)
      modifies this`leftPageKindStack, this`rightPageKindStack
      ensures leftPageKindStack == LeftStack(images, leftIndex)
      ensures rightPageKindStack == RightStack(images, rightIndex)
    {
      AdjustLeftPages(leftIndex, leftAnimationRatio);
      AdjustRightPages(rightIndex, rightAnimationRatio);
    }

    /**
     * `onChanged` of the left-half recognizer. A drag that started in the
     * left half swipes the left page (status `.right`) with the rightward
     * progress; any other drag only sets status `.left`.
     */
    method LeftDragChanged(startX: real, x: real, width: real)
      requires width > 0.0 && Valid()
      modifies this`pageSwipeStatus, this`animationRatio, this`leftPageKindStack, this`rightPageKindStack
      ensures Valid()
      ensures startX < width / 2.0 ==>
        && pageSwipeStatus == PageSwipeStatus.Right
        && animationRatio == DragRatio(x - startX, width)
        && StacksCurrent()
      ensures !(startX < width / 2.0) ==>
        && pageSwipeStatus == PageSwipeStatus.Left
        && animationRatio == old(animationRatio)
        && leftPageKindStack == old(leftPageKindStack)
        && rightPageKindStack == old(rightPageKindStack)
    {
      var isLeftPageSwipe := startX < width / 2.0;
      if isLeftPageSwipe {
        pageSwipeStatus := PageSwipeStatus.Right;
        var leftAnimationRatio := DragRatio(x - startX, width);
        animationRatio := leftAnimationRatio;
        AdjustBothPages(currentLeftPageIndex, leftAnimationRatio, CurrentRightPageIndex(), leftAnimationRatio);
      } else {
        pageSwipeStatus := PageSwipeStatus.Left;
      }
    }

    /**
     * `onEnded` of the left-half recognizer. For a drag that started in the
     * left half, the animation targets progress 0 when released in the left
     * half and 1 otherwise, and its completion is queued.
     */
    method LeftDragEnded(startX: real, x: real, width: real)
      requires Valid()
      modifies this`animationRatio, this`leftPageKindStack, this`pendingCompletions
      ensures Valid()
      ensures startX < width / 2.0 ==>
        && animationRatio == (if x < width / 2.0 then 0.0 else 1.0)
        && leftPageKindStack == LeftStack(images, currentLeftPageIndex)
        && pendingCompletions == old(pendingCompletions) + [LeftRelease(x < width / 2.0)]
      ensures !(startX < width / 2.0) ==>
        && animationRatio == old(animationRatio)
        && leftPageKindStack == old(leftPageKindStack)
        && pendingCompletions == old(pendingCompletions)
    {
      var isLeftPageSwipe := startX < width / 2.0;
      if isLeftPageSwipe {
        var isInLeftPage := x < width / 2.0;
        AdjustLeftPages(currentLeftPageIndex, if isInLeftPage then 0.0 else 1.0);
        animationRatio := if isInLeftPage then 0.0 else 1.0;
        pendingCompletions := pendingCompletions + [LeftRelease(isInLeftPage)];
      }
    }

    /**
     * `onChanged` of the right-half recognizer. A drag that started in the
     * right half swipes the right page (status `.left`) with the leftward
     * progress; any other drag only sets status `.right`.
     */
    method RightDragChanged(startX: real, x: real, width: real)
      requires width > 0.0 && Valid()
      modifies this`pageSwipeStatus, this`animationRatio, this`leftPageKindStack, this`rightPageKindStack
      ensures Valid()
      ensures startX > width / 2.0 ==>
        && pageSwipeStatus == PageSwipeStatus.Left
        && animationRatio == DragRatio(startX - x, width)
        && StacksCurrent()
      ensures !(startX > width / 2.0) ==>
        && pageSwipeStatus == PageSwipeStatus.Right
        && animationRatio == old(animationRatio)
        && leftPageKindStack == old(leftPageKindStack)
        && rightPageKindStack == old(rightPageKindStack)
    {
      var isRightPageSwipe := startX > width / 2.0;
      if isRightPageSwipe {
        pageSwipeStatus := PageSwipeStatus.Left;
        var rightAnimationRatio := DragRatio(startX - x, width);
        animationRatio := rightAnimationRatio;
        AdjustBothPages(currentLeftPageIndex, rightAnimationRatio, CurrentRightPageIndex(), rightAnimationRatio);
      } else {
        pageSwipeStatus := PageSwipeStatus.Right;
      }
    }

    /**
     * `onEnded` of the right-half recognizer. For a drag that started in the
     * right half, the animation targets progress 0 when released in the
     * right half and 1 otherwise, and its completion is queued.
     */
    method RightDragEnded(startX: real, x: real, width: real)
      requires Valid()
      modifies this`animationRatio, this`rightPageKindStack, this`pendingCompletions
      ensures Valid()
      ensures startX > width / 2.0 ==>
        && animationRatio == (if x > width / 2.0 then 0.0 else 1.0)
        && rightPageKindStack == RightStack(images, CurrentRightPageIndex())
        && pendingCompletions == old(pendingCompletions) + [RightRelease(x > width / 2.0)]
      ensures !(startX > width / 2.0) ==>
        && animationRatio == old(animationRatio)
        && rightPageKindStack == old(rightPageKindStack)
        && pendingCompletions == old(pendingCompletions)
    {
      var isRightPageSwipe := startX > width / 2.0;
      if isRightPageSwipe {
        var isInRightPage := x > width / 2.0;
        AdjustRightPages(CurrentRightPageIndex(), if isInRightPage then 0.0 else 1.0);
        animationRatio := if isInRightPage then 0.0 else 1.0;
        pendingCompletions := pendingCompletions + [RightRelease(isInRightPage)];
      }
    }

    /**
     * The oldest pending animation completion: move the left page index by
     * the release's outcome, end the swipe, rebuild both stacks for the new
     * spread and reset the ratio. Without a pending completion nothing happens.
     */
    method Complete()
      requires Valid()
      modifies this`currentLeftPageIndex, this`pageSwipeStatus, this`animationRatio,
        this`leftPageKindStack, this`rightPageKindStack, this`pendingCompletions
      ensures Valid()
      ensures old(pendingCompletions) == [] ==>
        && currentLeftPageIndex == old(currentLeftPageIndex)
        && pageSwipeStatus == old(pageSwipeStatus)
        && animationRatio == old(animationRatio)
        && leftPageKindStack == old(leftPageKindStack)
        && rightPageKindStack == old(rightPageKindStack)
        && pendingCompletions == []
      ensures old(pendingCompletions) != [] ==>
        && currentLeftPageIndex == NextLeftIndex(old(currentLeftPageIndex), old(pendingCompletions)[0])
        && CurrentRightPageIndex() == currentLeftPageIndex + 1
        && pageSwipeStatus == NotSwipe
        && animationRatio == 0.0
        && StacksCurrent()
        && pendingCompletions == old(pendingCompletions)[1..]
    {
      if pendingCompletions != [] {
        var release := pendingCompletions[0];
        pendingCompletions := pendingCompletions[1..];
        match release {
          case LeftRelease(isInLeftPage) =>
            if !isInLeftPage {
              currentLeftPageIndex := currentLeftPageIndex - 2;
            }
          case RightRelease(isInRightPage) =>
            if !isInRightPage {
              currentLeftPageIndex := currentLeftPageIndex + 2;
            }
        }
        pageSwipeStatus := NotSwipe;
        AdjustBothPages(currentLeftPageIndex, 0.0, CurrentRightPageIndex(), 0.0);
        animationRatio := 0.0;
      }
    }
  }

  /**
   * One uninterrupted left-half swipe delivered to the left recognizer: a
   * move, the release, then the animation's completion. It turns back one
   * spread iff released at or past the midline; a cancelled swipe leaves the
   * index and both stacks as they were.
   */
  method LeftSwipe(book: BookView, startX: real, x: real, endX: real, width: real)
    requires width > 0.0 && book.Valid() && book.StacksCurrent() && book.pendingCompletions == []
    requires startX < width / 2.0
    modifies book
    ensures book.Valid() && book.StacksCurrent() && book.pendingCompletions == []
    ensures book.currentLeftPageIndex == if endX >= width / 2.0 then old(book.currentLeftPageIndex) - 2
                                         else old(book.currentLeftPageIndex)
    ensures endX < width / 2.0 ==>
      book.leftPageKindStack == old(book.leftPageKindStack) && book.rightPageKindStack == old(book.rightPageKindStack)
    ensures book.pageSwipeStatus == NotSwipe && book.animationRatio == 0.0
  {
    book.LeftDragChanged(startX, x, width);
    book.LeftDragEnded(startX, endX, width);
    book.Complete();
    CommitIffPastMidline(old(book.currentLeftPageIndex), endX, width);
  }

  /**
   * The mirror for the right recognizer: a right-half swipe turns forward
   * one spread iff released at or past the midline; a cancelled swipe leaves
   * the index and both stacks as they were.
   */
  method RightSwipe(book: BookView, startX: real, x: real, endX: real, width: real)
    requires width > 0.0 && book.Valid() && book.StacksCurrent() && book.pendingCompletions == []
    requires startX > width / 2.0
    modifies book
    ensures book.Valid() && book.StacksCurrent() && book.pendingCompletions == []
    ensures book.currentLeftPageIndex == if endX <= width / 2.0 then old(book.currentLeftPageIndex) + 2
                                         else old(book.currentLeftPageIndex)
    ensures endX > width / 2.0 ==>
      book.leftPageKindStack == old(book.leftPageKindStack) && book.rightPageKindStack == old(book.rightPageKindStack)
    ensures book.pageSwipeStatus == NotSwipe && book.animationRatio == 0.0
  {
    book.RightDragChanged(startX, x, width);
    book.RightDragEnded(startX, endX, width);
    book.Complete();
    CommitIffPastMidline(old(book.currentLeftPageIndex), endX, width);
  }

  /**
   * While the stacks are current, the top layer a stack holds is the page the
   * spread shows: its `frontPageIndex` is the current left (right) index, the
   * `pageIndex` the stack view hands to `TopPageView`.
   */
  lemma TopLayersShowCurrentPage(book: BookView)
    requires book.StacksCurrent()
    ensures forall k :: 0 <= k < |book.leftPageKindStack| && book.leftPageKindStack[k].LeftTopPage? ==>
      book.leftPageKindStack[k].frontPageIndex == book.currentLeftPageIndex
    ensures forall k :: 0 <= k < |book.rightPageKindStack| && book.rightPageKindStack[k].RightTopPage? ==>
      book.rightPageKindStack[k].frontPageIndex == book.CurrentRightPageIndex()
  {
    LeftStackLayers(book.images, book.currentLeftPageIndex);
    RightStackLayers(book.images, book.CurrentRightPageIndex());
  }
}
