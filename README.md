# BookUIApp page-turn engine in Dafny

A model of the page-turn engine of the BookUIApp SwiftUI book widget. It
covers three things. First, the layer stacks: which of up to three stacked
pages (third, second, top leaf) each side of the open book shows for the
current page index. Second, the drag-gesture state machine: it turns a drag
into a progress ratio and a swipe status, and on release it either commits
the turn (the page index moves by two) or cancels it. Third, the per-layer
geometry: rotation, shown face, compressed width, margins and shadow, as
functions of the progress. Two earlier revisions of the geometry and
gesture rules are modelled beside the current one.

Modules, one per source concern:

- `PageDirection` (`Enum/PageDirectionType.swift`): the two sides, their
  resting tilt (±10°), turning range (±160°) and hinge edge.
- `PageLayer`, `PageSwipe`: the plain enums `PageLayerType` and `PageSwipeStatus`.
- `Decimal`: Swift's `Int.description`. Page ids and catalog file names are
  built from it, and it is proved injective.
- `BookPages` (`BookView.swift`): the eleven-entry image catalog, the tagged
  layer kinds `LeftBookPageKind`/`RightBookPageKind` and the stack builder
  functions `LeftStack`/`RightStack`.
- `BookGesture` (`BookView.swift`): the class `BookView`. It holds the
  `@State` fields, the imperative `adjust…Pages` methods, the two
  drag-gesture handlers and the animation completion.
- `BookGeometry` (`BookView.swift`): the computed properties of
  `TopPageView`, `SecondContentView` and `ThirdContentView`, and the z-index
  of each stack.
- `EarlyPageView` (`Components/PageView.swift`) and `Prototype`
  (`ContentView.swift`): the earlier revisions.

Modelling choices:

- CGFloat is modelled as `real` and Swift `Int` as `int`.
- The spring animation is a single discrete step. Releasing a drag queues a
  completion, and `BookView.Complete` runs the oldest one. Completions are
  assumed to run in release order.
- The two recognizers, one for each half of the view, are separate
  methods. One input event reaches both of them, in an order decided by the
  framework.
- The view width and the page size are parameters.

Behaviour of the code worth noting:

- The left page index starts at 1 and every turn moves it by 2, so it stays
  odd (`BookView.Valid`).
- A second or third page that does not exist is not put on the stack at all.
  So the branches of the right stack view that handle a layer without a file
  cannot be reached from the builder.
- The turning top leaf never has a shadow. It is the page that is not
  turning that darkens past half progress.
- A commit does not check the catalog, so the index can leave the book (see
  Findings).

## Model

| member | source | states |
|---|---|---|
| `PageDirection.DirectionConstants` | BookUIApp/Enum/PageDirectionType.swift:10-46 | left: default 10°, move 160°, anchor trailing; right: -10°, -160°, leading; `isLeft` holds only for `.left` |
| `PageDirection.DirectionMirrored` | BookUIApp/Enum/PageDirectionType.swift:17-46 | the right side's angles are the left side's negated, its anchor is the other edge, default angle = side sign × 10° |
| `PageDirection.FullTurnAngle` | BookUIApp/Enum/PageDirectionType.swift:14-37 | default + move = sign × (180 − 10), and move = sign × (180 − 2·10) |
| `Decimal.DescribeInjective` | BookUIApp/BookView.swift:404-406 | two integers with the same `description` are equal |
| `Decimal.NatDigitsInjective` | BookUIApp/BookView.swift:404-406 | the decimal digits of different naturals differ (induction on the number) |
| `BookPages.Catalog` | BookUIApp/BookView.swift:12 | eleven entries; entry i is "image" followed by the decimal of i mod 6 |
| `BookPages.CatalogNamesRepeat` | BookUIApp/BookView.swift:12 | two entries have the same name iff their indices agree mod 6, so names cannot serve as ids |
| `BookPages.LeftStack` | BookUIApp/BookView.swift:325-354 | at most three layers, deepest first (third, second, top), page indices strictly increasing |
| `BookPages.RightStack` | BookUIApp/BookView.swift:364-393 | at most three layers, deepest first, page indices strictly decreasing |
| `BookPages.LeftStackLayers` | BookUIApp/BookView.swift:325-354 | third present iff left−4 exists, second iff left−2, top iff left−1; each layer carries the catalog file of its index; top front file is nil iff page left is missing |
| `BookPages.RightStackLayers` | BookUIApp/BookView.swift:364-393 | third iff right+4 exists, second iff right+2, top iff right; second/third always carry a file; top back file nil iff page right+1 is missing |
| `BookPages.LeftStackIdsUnique` | BookUIApp/BookView.swift:399-418 | the ids of a left stack's layers are pairwise distinct |
| `BookPages.RightStackIdsUnique` | BookUIApp/BookView.swift:420-440 | the ids of a right stack's layers are pairwise distinct |
| `BookPages.LeftTopExistenceFlags` | BookUIApp/BookView.swift:202-221 | for a built left top layer the back page exists and the front exists iff a front file is carried, so the blank `front` fallback is never shown |
| `BookPages.RightTopExistenceFlags` | BookUIApp/BookView.swift:261-280 | for a built right top layer the front exists and the back exists iff a back file is carried |
| `BookPages.OpeningSpread` | BookUIApp/BookView.swift:171-178 | at the starting index 1 the left stack is the top leaf image0/image1, the right stack pages 6, 4 and the leaf 2/3 |
| `BookGesture.DragRatio` | BookUIApp/BookView.swift:75-79 | progress lies in [0,1]; equals distance/width inside [0, width]; 0 below, 1 beyond |
| `BookGesture.NextLeftIndex` | BookUIApp/BookView.swift:102-157 | a completion moves the index by −2 exactly for a committed left release, +2 exactly for a committed right release, else keeps it; parity kept |
| `BookGesture.CommitIffPastMidline` | BookUIApp/BookView.swift:94-156 | a left-half drag turns back iff released at x ≥ width/2; a right-half drag turns forward iff released at x ≤ width/2 |
| `BookGesture.UncheckedTurnsPassTheCover` | BookUIApp/BookView.swift:102-105 | from index 1 two committed left turns reach −3, where neither side has a top page |
| `BookGesture.GuardedNextLeftIndex` | BookUIApp/BookView.swift:102-105 | with a catalog guard a completion commits as before when the turned leaf exists, and otherwise keeps the index |
| `BookGesture.GuardedTurnKeepsTopPage` | BookUIApp/BookView.swift:102-105 | under the guard, a spread with a top page keeps one after every completion; a second left turn from index 1 is refused |
| `BookGesture.BookView.constructor` | BookUIApp/BookView.swift:12-23 | catalog as above, left index 1, empty stacks, ratio 0, no swipe |
| `BookGesture.BookView.OnAppear` | BookUIApp/BookView.swift:171-179 | both stacks become the builders' stacks for the current spread |
| `BookGesture.BookView.AdjustLeftPages` | BookUIApp/BookView.swift:325-362 | conditional appends build exactly `LeftStack(images, index)`; the ratio argument has no effect; nothing else changes |
| `BookGesture.BookView.AdjustRightPages` | BookUIApp/BookView.swift:364-395 | conditional appends build exactly `RightStack(images, index)`; the ratio argument has no effect |
| `BookGesture.BookView.AdjustBothPages` | BookUIApp/BookView.swift:320-323 | both stacks rebuilt for the given indices |
| `BookGesture.BookView.LeftDragChanged` | BookUIApp/BookView.swift:70-90 | left-half start: status `.right`, ratio = DragRatio(x − startX), stacks current; otherwise status `.left` and nothing else changes; ratio stays in [0,1], index untouched |
| `BookGesture.BookView.LeftDragEnded` | BookUIApp/BookView.swift:91-101 | left-half start: ratio targets 0 if released in the left half else 1, left stack rebuilt, completion queued; otherwise no change |
| `BookGesture.BookView.RightDragChanged` | BookUIApp/BookView.swift:121-141 | right-half start: status `.left`, ratio = DragRatio(startX − x), stacks current; otherwise status `.right` only |
| `BookGesture.BookView.RightDragEnded` | BookUIApp/BookView.swift:142-153 | right-half start: ratio targets 0 if released in the right half else 1, right stack rebuilt, completion queued |
| `BookGesture.BookView.Complete` | BookUIApp/BookView.swift:102-166 | the oldest completion sets index to NextLeftIndex, status `.notSwipe`, ratio 0, both stacks rebuilt, right index = left + 1; index stays odd |
| `BookGesture.LeftSwipe` | BookUIApp/BookView.swift:68-117 | a whole left-half swipe turns back one spread iff released at or past the midline; a cancelled one leaves index and both stacks as before |
| `BookGesture.RightSwipe` | BookUIApp/BookView.swift:119-170 | a whole right-half swipe turns forward one spread iff released at or past the midline; a cancelled one leaves index and both stacks as before |
| `BookGesture.TopLayersShowCurrentPage` | BookUIApp/BookView.swift:202-209 | while the stacks are current, a top layer's `frontPageIndex` is the current left (right) index that the stack view passes as `pageIndex` (also at 261-268) |
| `BookGeometry.TurningSide` | BookUIApp/BookView.swift:466-475 | `.left` turns the right page, `.right` the left page, `.notSwipe` none, never both; mirroring status and side preserves it |
| `BookGeometry.TopOpacityRange` | BookUIApp/BookView.swift:477-485 | top shadow in [0, 0.5] for ratio in [0,1]; 0 when turning or ratio < 0.5; ratio − 0.5 otherwise |
| `BookGeometry.TopOpacityMonotone` | BookUIApp/BookView.swift:477-485 | the top shadow never decreases as the ratio grows |
| `BookGeometry.TopAngleRange` | BookUIApp/BookView.swift:487-493 | toward the spine: a turning leaf runs 10°..170° (170 at ratio 1), a resting page 10°..0 (0 at ratio 1); both start at the default angle |
| `BookGeometry.TopAngleMonotone` | BookUIApp/BookView.swift:487-493 | a turning leaf's angle toward the spine grows with the ratio, a resting page's shrinks |
| `BookGeometry.FaceSwitchAtPerpendicular` | BookUIApp/BookView.swift:539-550 | on a turning leaf the front is shown iff its angle toward the spine is below 90°, i.e. iff ratio < 0.5 |
| `BookGeometry.CompressedWidthRange` | BookUIApp/BookView.swift:504-516 | for angles between 0 and 180° toward the spine the width lies in [W/4, W/2], W/4 exactly at 90° |
| `BookGeometry.TopWidthRange` | BookUIApp/BookView.swift:504-532 | top leaf width in [W/4, W/2], margins non-negative and margin + width = W/2; W/4 when a turning leaf is at ratio 0.5 |
| `BookGeometry.TopGeometryMirrored` | BookUIApp/BookView.swift:466-532 | under the mirrored status the other side's leaf has the negated angle and the same shadow, face and width, with its margin on the other side |
| `BookGeometry.LeftTopBackFace` | BookUIApp/BookView.swift:495-502 | the back index (front − 1) of a built left top layer is a catalog page whose file the layer carries as back |
| `BookGeometry.RightTopBackFace` | BookUIApp/BookView.swift:495-502 | the back index (front + 1) of a built right top layer names the file the layer carries as back, nil iff that page is missing |
| `BookGeometry.SecondOverlayRange` | BookUIApp/BookView.swift:652 | second-layer shadow (1 − ratio)·0.5 lies in [0, 0.5], 0.5 at 0, 0 at 1, non-increasing |
| `BookGeometry.SecondAngleRange` | BookUIApp/BookView.swift:607-613 | second-layer tilt is defaultAngle·ratio when turning and −defaultAngle·ratio otherwise, at most 10° in size, 0 at rest; mirrored sides negate it |
| `BookGeometry.SecondMarginNegative` | BookUIApp/BookView.swift:615-634 | as written, the resting side's computed `viewWidth` is W/2 + W·ratio/36, so its outer margin `Spacer` gets a negative width (−10 for W = 360 at ratio 1) |
| `BookGeometry.SecondWidthCappedRange` | BookUIApp/BookView.swift:615-642 | with the flatness capped at 1 the computed `viewWidth` lies in [W/4, W/2], so both margin `Spacer`s are non-negative; unchanged on the turning side |
| `BookGeometry.ThirdLayerBounds` | BookUIApp/BookView.swift:678-679 | the third layer's fixed shadow 0.5 bounds the other layers' shadows and its width W/2 bounds the top leaf's |
| `BookGeometry.ZIndexRaisesTurningSide` | BookUIApp/BookView.swift:25-30 | a stack's z-index is 1 iff its top leaf is turning, else 0; the two are never raised together |
| `EarlyPageView.TurningAndOpacity` | BookUIApp/Components/PageView.swift:31-50 | turning iff the swipe is the side's; never for `.notSwipe`; shadow in [0, 0.5] for ratio ≤ 1, 0 when turning or below half, (ratio − 0.5)·2·0.5 otherwise |
| `EarlyPageView.EarlyAngles` | BookUIApp/Components/PageView.swift:52-92 | a resting page keeps the default angle; a turning leaf runs 10°..170° toward the spine and shows its front iff below 90°; back index is page ∓ 1, and the other side's back of it is the page again |
| `EarlyPageView.EarlySecondLayer` | BookUIApp/Components/PageView.swift:117-123 | second-layer shadow in [0, 0.5]; tilt toward the spine is 10°·ratio whatever the swipe |
| `EarlyPageView.RevisionsCompared` | BookUIApp/Components/PageView.swift:31-123 | against the current revision: same turning test, shadow, face choice, back index and turning angle; resting angle agrees only at ratio 0; second tilt equal on the turning side, negated on the other |
| `Prototype.PageTypeConstants` | BookUIApp/ContentView.swift:10-44 | default angle 0 for both sides; max angle 180 / −180; anchors trailing / leading |
| `Prototype.DragRatio` | BookUIApp/ContentView.swift:115-120 | at most 1; equals distance/width up to the width; negative exactly for a negative distance (no lower clamp) |
| `Prototype.Snap` | BookUIApp/ContentView.swift:127-129 | the snapped ratio is 0 or 1, and 1 iff the ratio exceeds 0.5 |
| `Prototype.SnapMonotone` | BookUIApp/ContentView.swift:127-129 | snapping is monotone and exactly 0.5 snaps to 0 |
| `Prototype.AngleAsWritten` | BookUIApp/ContentView.swift:184-196 | left angle is 180·ratio ≤ 180 and the front shows iff it exceeds 90°; right angle is −180 for every ratio ≤ 1 |
| `Prototype.AngleCappedFollowsDrag` | BookUIApp/ContentView.swift:196 | capped by magnitude, the angle is ratio·maxAngle on both sides, the right the mirror of the left, the left as written |
| `Prototype.ContentView.constructor` | BookUIApp/ContentView.swift:61-77 | six images, index 4, both ratios 0, start point zero, no drag amount |
| `Prototype.ContentView.DragChanged` | BookUIApp/ContentView.swift:110-122 | stores the start point; a left-half start sets the left ratio from x − startX, any other the right ratio from startX − x; the other ratio kept |
| `Prototype.ContentView.DragEnded` | BookUIApp/ContentView.swift:123-131 | resets start point and drag amount; snaps the left ratio; the right ratio is never changed |
| `Prototype.ContentView.DragEndedIntended` | BookUIApp/ContentView.swift:123-131 | with the start point read before the reset, the ratio of the side the drag started on is snapped |

## Findings

| source | as written | input that shows it | evidently intended | confidence | as-written member | corrected member |
|---|---|---|---|---|---|---|
| BookUIApp/ContentView.swift:124-130 | `dragStartPoint` is reset to `.zero` before the side test, so the test always sees x = 0 and takes the left branch | right-half drag from x = 350 to 30 in a 400-wide view: `rightAnimationRatio` stays 0.8 after release (`Prototype.RightDragNotSnapped`) | snap the ratio of the side the drag started on | not executed; high | `Prototype.ContentView.DragEnded` | `Prototype.ContentView.DragEndedIntended` |
| BookUIApp/ContentView.swift:196 | `min(ratio * maxAngle, maxAngle)` caps from above, and for the right side (maxAngle −180) that always picks −180 | right page at ratio 0: angle −180, not 0 | cap by magnitude, so the right page turns by −180·ratio | not executed; medium (the right stack is commented out at 156-168) | `Prototype.AngleAsWritten` | `Prototype.AngleCappedFollowsDrag` |
| BookUIApp/BookView.swift:615-634 | `SecondContentView` copies the top leaf's `viewWidth` formula, but on the side that is not turning it tilts away from the spine, so the flatness exceeds 1 and the computed `viewWidth` exceeds W/2; it only sizes the margin `Spacer`s (646-647, 659-660), so the outer spacer gets a negative width | status `.left`, left page, ratio 1, view width 360: margin −10 | flatness capped at 1, `viewWidth` in [W/4, W/2] as for the top leaf (the 0.5–1.0 range noted at 513) | not executed; medium | `BookGeometry.SecondMarginNegative` | `BookGeometry.SecondWidthCappedRange` |
| BookUIApp/BookView.swift:102-105 | a committed turn moves the index by 2 without consulting the catalog | from index 1, two left-half swipes released past the midline: index −3, and neither side has a top page | commit only when the turned leaf exists | not executed; medium | `BookGesture.UncheckedTurnsPassTheCover` | `BookGesture.GuardedNextLeftIndex` |

The class `BookGesture.BookView` and the prototype's `DragEnded` keep the
code as written. The corrected definitions stand beside them, with their
intended properties proved.

## Left out

- SwiftUI rendering is not modelled: view bodies, `rotation3DEffect`, stacks, overlays, frames, `Spacer`, image loading, `GeometryReader` and padding. The model keeps only the numbers these views are given.
- `PageTextView` (the page-number label and its styling) is left out: it is text rendering only.
- The interpolation and timing of `withAnimation(.spring…)` are left out. Only the target state and the completion step are modelled.
- The order of the two simultaneous recognizers is left out, because the framework decides it. Each handler is a separate method. A drag starting exactly at width/2 passes neither handler's side test.
- CGFloat rounding is not modelled. The model uses exact `real` arithmetic.
- BookGesture.DragRatio: requires width > 0. With a zero-width view the CGFloat division yields NaN, which exact reals cannot represent.
- Prototype.DragRatio: requires width > 0, for the same reason.
- BookGesture.BookView.Complete: the index is an unbounded `int`. Swift's trap on `Int` overflow (after about 2^62 turns) is not modelled.
- `TopPageView.id` (built from `hashValue`), the `print` calls and the self-assignment of `dragXAmount` in `ContentView.swift` are left out. They have no stable meaning.
- The render-side lookup `images[currentLeftPageIndex - 2]` used as the id of left second/third views (`BookView.swift:224,235`) is view glue and is left out.
- `pageSize` is captured in `onAppear` and is a parameter of the geometry functions.
- The prototype's `onAppear` stacks (`PageLayer` values wrapping views) and its unused `currentLeftPageIndex` are not modelled beyond the constructor.
- `BookUIApp.swift` and `BookUIAppApp.swift` are left out: they are app entry points only.
- `BookPageViewProtocol` is not modelled: it is a protocol with no logic.
- `PageLayerType.empty` is declared but unused, as in the source.
