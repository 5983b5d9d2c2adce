/**
 * The page catalog of `BookView`, the two tagged layer kinds and the
 * layer stacks that `adjustLeftPages` / `adjustRightPages` build from the
 * current page index.
 */
module BookPages {
  import opened Wrappers
  import opened PageLayer
  import Decimal

  /** `images.indices.contains(i)`. */
  predicate InRange(images: seq<string>, i: int) {
    0 <= i < |images|
  }

  /** `Array(0...10).map { "image\($0 % 6)" }`: eleven pages over six pictures. */
  function Catalog(): (images: seq<string>)
    ensures |images| == 11
    ensures forall i :: 0 <= i < 11 ==> images[i] == "image" + Decimal.Describe(i % 6)
  {
    seq(11, i requires 0 <= i < 11 => "image" + Decimal.Describe(i % 6))
  }

  /**
   * Two catalog entries have the same file name exactly when their indices
   * agree modulo 6, so file names repeat and cannot identify a page: the
   * page kinds are identified by index instead.
   */
  lemma CatalogNamesRepeat(i: int, j: int)
    requires 0 <= i < 11 && 0 <= j < 11
    ensures Catalog()[i] == Catalog()[j] <==> i % 6 == j % 6
  {
    var c := Catalog();
    if c[i] == c[j] {
      assert Decimal.Describe(i % 6) == c[i][5..] == c[j][5..] == Decimal.Describe(j % 6);
      Decimal.DescribeInjective(i % 6, j % 6);
    }
  }

  /** Depth rank of a layer type: the deepest layer is painted first. */
  function Depth(t: PageLayerType): nat {
    match t
    case Third => 3
    case Second => 2
    case Top => 1
    case Empty => 0
  }

  datatype LeftBookPageKind =
    | LeftTopPage(backFileName: string, frontFileName: Option<string>, frontPageIndex: int)
    | LeftSecondPage(fileName: string, pageIndex: int)
    | LeftThirdPage(fileName: string, pageIndex: int)
  {
    function PageIndex(): int {
      match this
      case LeftTopPage(_, _, i) => i
      case LeftSecondPage(_, i) => i
      case LeftThirdPage(_, i) => i
    }

    /** `id`: the page index's decimal description. */
    function Id(): string {
      Decimal.Describe(PageIndex())
    }

    /** The view type a layer of this kind is shown with. */
    function LayerType(): PageLayerType {
      match this
      case LeftTopPage(_, _, _) => Top
      case LeftSecondPage(_, _) => Second
      case LeftThirdPage(_, _) => Third
    }
  }

  datatype RightBookPageKind =
    | RightTopPage(frontFileName: string, backFileName: Option<string>, frontPageIndex: int)
    | RightSecondPage(fileName: Option<string>, pageIndex: int)
    | RightThirdPage(fileName: Option<string>, pageIndex: int)
  {
    function PageIndex(): int {
      match this
      case RightTopPage(_, _, i) => i
      case RightSecondPage(_, i) => i
      case RightThirdPage(_, i) => i
    }

    /** `id`: the page index's decimal description. */
    function Id(): string {
      Decimal.Describe(PageIndex())
    }

    function LayerType(): PageLayerType {
      match this
      case RightTopPage(_, _, _) => Top
      case RightSecondPage(_, _) => Second
      case RightThirdPage(_, _) => Third
    }
  }

  /** The stack holds a layer of type `t`. */
  predicate LeftHas(stack: seq<LeftBookPageKind>, t: PageLayerType) {
    exists k :: 0 <= k < |stack| && stack[k].LayerType() == t
  }

  /** The stack holds a layer of type `t`. */
  predicate RightHas(stack: seq<RightBookPageKind>, t: PageLayerType) {
    exists k :: 0 <= k < |stack| && stack[k].LayerType() == t
  }

  /** The file name at `i`, or none when the catalog has no page `i`. */
  function FileAt(images: seq<string>, i: int): (name: Option<string>)
    ensures name.Some? <==> InRange(images, i)
    ensures name.Some? ==> name.value == images[i]
  {
    if InRange(images, i) then Some(images[i]) else None
  }

  /**
   * The left stack for left page `left`, deepest first: the page four back,
   * the page two back, and the top leaf (front `left`, back `left - 1`),
   * each only when the catalog has the page it needs.
   */
  function LeftStack(images: seq<string>, left: int): (stack: seq<LeftBookPageKind>)
    ensures |stack| <= 3
    ensures forall i, j :: 0 <= i < j < |stack| ==> stack[i].PageIndex() < stack[j].PageIndex()
    ensures forall i, j :: 0 <= i < j < |stack| ==> Depth(stack[i].LayerType()) > Depth(stack[j].LayerType())
  {
    var third := left - 4;
    var second := left - 2;
    var topBack := left - 1;
    (if InRange(images, third) then [LeftThirdPage(images[third], third)] else [])
    + (if InRange(images, second) then [LeftSecondPage(images[second], second)] else [])
    + (if InRange(images, topBack) then [LeftTopPage(images[topBack], FileAt(images, left), left)] else [])
  }

  /**
   * The right stack for right page `right`, deepest first: the page four
   * ahead, the page two ahead, and the top leaf (front `right`, back
   * `right + 1`), each only when the catalog has the page it needs.
   */
  function RightStack(images: seq<string>, right: int): (stack: seq<RightBookPageKind>)
    ensures |stack| <= 3
    ensures forall i, j :: 0 <= i < j < |stack| ==> stack[i].PageIndex() > stack[j].PageIndex()
    ensures forall i, j :: 0 <= i < j < |stack| ==> Depth(stack[i].LayerType()) > Depth(stack[j].LayerType())
  {
    var third := right + 4;
    var second := right + 2;
    var topBack := right + 1;
    (if InRange(images, third) then [RightThirdPage(Some(images[third]), third)] else [])
    + (if InRange(images, second) then [RightSecondPage(Some(images[second]), second)] else [])
    + (if InRange(images, right) then [RightTopPage(images[right], FileAt(images, topBack), right)] else [])
  }

  /**
   * Which layers the left stack holds and what they carry: the third layer
   * iff page `left - 4` exists, the second iff `left - 2` exists, the top
   * iff its back page `left - 1` exists; the top has no front file iff page
   * `left` is missing. Every layer names the catalog's file for its index.
   */
  lemma LeftStackLayers(images: seq<string>, left: int)
    ensures var s := LeftStack(images, left);
      && (LeftHas(s, Third) <==> InRange(images, left - 4))
      && (LeftHas(s, Second) <==> InRange(images, left - 2))
      && (LeftHas(s, Top) <==> InRange(images, left - 1))
      && (forall k :: 0 <= k < |s| && s[k].LeftThirdPage? ==>
            s[k].pageIndex == left - 4 && InRange(images, s[k].pageIndex) && s[k].fileName == images[s[k].pageIndex])
      && (forall k :: 0 <= k < |s| && s[k].LeftSecondPage? ==>
            s[k].pageIndex == left - 2 && InRange(images, s[k].pageIndex) && s[k].fileName == images[s[k].pageIndex])
      && (forall k :: 0 <= k < |s| && s[k].LeftTopPage? ==>
            && s[k].frontPageIndex == left
            && InRange(images, left - 1) && s[k].backFileName == images[left - 1]
            && (s[k].frontFileName.None? <==> !InRange(images, left))
            && (s[k].frontFileName.Some? ==> s[k].frontFileName.value == images[left]))
  {
    var s := LeftStack(images, left);
    if InRange(images, left - 4) {
      assert s[0].LayerType() == Third;
    }
    if InRange(images, left - 2) {
      assert s[if InRange(images, left - 4) then 1 else 0].LayerType() == Second;
    }
    if InRange(images, left - 1) {
      assert s[|s| - 1].LayerType() == Top;
    }
  }

  /**
   * Which layers the right stack holds: the third iff page `right + 4`
   * exists, the second iff `right + 2` exists, the top iff page `right`
   * exists; the top has no back file iff page `right + 1` is missing. No
   * second or third layer without a file is ever built.
   */
  lemma RightStackLayers(images: seq<string>, right: int)
    ensures var s := RightStack(images, right);
      && (RightHas(s, Third) <==> InRange(images, right + 4))
      && (RightHas(s, Second) <==> InRange(images, right + 2))
      && (RightHas(s, Top) <==> InRange(images, right))
      && (forall k :: 0 <= k < |s| && s[k].RightThirdPage? ==>
            s[k].pageIndex == right + 4 && InRange(images, s[k].pageIndex)
            && s[k].fileName == Some(images[s[k].pageIndex]))
      && (forall k :: 0 <= k < |s| && s[k].RightSecondPage? ==>
            s[k].pageIndex == right + 2 && InRange(images, s[k].pageIndex)
            && s[k].fileName == Some(images[s[k].pageIndex]))
      && (forall k :: 0 <= k < |s| && s[k].RightTopPage? ==>
            && s[k].frontPageIndex == right
            && InRange(images, right) && s[k].frontFileName == images[right]
            && (s[k].backFileName.None? <==> !InRange(images, right + 1))
            && (s[k].backFileName.Some? ==> s[k].backFileName.value == images[right + 1]))
  {
    var s := RightStack(images, right);
    if InRange(images, right + 4) {
      assert s[0].LayerType() == Third;
    }
    if InRange(images, right + 2) {
      assert s[if InRange(images, right + 4) then 1 else 0].LayerType() == Second;
    }
    if InRange(images, right) {
      assert s[|s| - 1].LayerType() == Top;
    }
  }

  /** The layers of a left stack have pairwise distinct ids. */
  lemma LeftStackIdsUnique(images: seq<string>, left: int)
    ensures var s := LeftStack(images, left);
      forall i, j :: 0 <= i < |s| && 0 <= j < |s| && i != j ==> s[i].Id() != s[j].Id()
  {
    var s := LeftStack(images, left);
    forall i, j | 0 <= i < |s| && 0 <= j < |s| && i != j
      ensures s[i].Id() != s[j].Id()
    {
      if s[i].Id() == s[j].Id() {
        Decimal.DescribeInjective(s[i].PageIndex(), s[j].PageIndex());
      }
    }
  }

  /** The layers of a right stack have pairwise distinct ids. */
  lemma RightStackIdsUnique(images: seq<string>, right: int)
    ensures var s := RightStack(images, right);
      forall i, j :: 0 <= i < |s| && 0 <= j < |s| && i != j ==> s[i].Id() != s[j].Id()
  {
    var s := RightStack(images, right);
    forall i, j | 0 <= i < |s| && 0 <= j < |s| && i != j
      ensures s[i].Id() != s[j].Id()
    {
      if s[i].Id() == s[j].Id() {
        Decimal.DescribeInjective(s[i].PageIndex(), s[j].PageIndex());
      }
    }
  }

  /**
   * The flags `leftPageStackView` hands to a left top layer's view agree
   * with the layer itself: its back page always exists, and its front page
   * exists iff the layer carries a front file name. So the blank placeholder
   * given as `front` for a missing file is never shown.
   */
  lemma LeftTopExistenceFlags(images: seq<string>, left: int, k: int)
    requires 0 <= k < |LeftStack(images, left)| && LeftStack(images, left)[k].LeftTopPage?
    ensures var t := LeftStack(images, left)[k];
      InRange(images, t.frontPageIndex - 1) && (InRange(images, t.frontPageIndex) <==> t.frontFileName.Some?)
  {
    LeftStackLayers(images, left);
  }

  /** Mirror of the above for a right top layer: its front always exists. */
  lemma RightTopExistenceFlags(images: seq<string>, right: int, k: int)
    requires 0 <= k < |RightStack(images, right)| && RightStack(images, right)[k].RightTopPage?
    ensures var t := RightStack(images, right)[k];
      InRange(images, t.frontPageIndex) && (InRange(images, t.frontPageIndex + 1) <==> t.backFileName.Some?)
  {
    RightStackLayers(images, right);
  }

  /** The opening spread of the eleven-page book: left page 1, right page 2. */
  lemma OpeningSpread()
    ensures LeftStack(Catalog(), 1) == [LeftTopPage("image0", Some("image1"), 1)]
    ensures RightStack(Catalog(), 2) ==
      [RightThirdPage(Some("image0"), 6), RightSecondPage(Some("image4"), 4), RightTopPage("image2", Some("image3"), 2)]
  {
    var c := Catalog();
    forall d: nat | d < 6
      ensures Decimal.Describe(d) == [Decimal.DigitChar(d)]
    {
    }
    assert Decimal.DigitChar(0) == '0' && Decimal.DigitChar(1) == '1' && Decimal.DigitChar(2) == '2';
    assert Decimal.DigitChar(3) == '3' && Decimal.DigitChar(4) == '4';
    assert c[0] == "image0" && c[1] == "image1" && c[2] == "image2";
    assert c[3] == "image3" && c[4] == "image4" && c[6] == "image0";
  }
}
