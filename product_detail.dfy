/**
  The product detail modal of the storefront: the pure view-model functions it
  derives from a product record (image list, formatted price, generated
  description) and the overlay state it keeps (zoom overlay, video overlay,
  selected image, and the pending auto-play activation of the video).
 */
module ProductDetail {
  import opened Wrappers

  /** A product row as the modal receives it; `uso` is the optional usage text. */
  datatype Product = Product(
    id: int,
    produto: string,
    valor: string,
    video: string,
    imagem1: string,
    imagem2: string,
    imagem3: string,
    imagem4: string,
    imagem5: string,
    link: string,
    categoria: string,
    uso: Option<string>)

  // ---------------------------------------------------------------------------
  // Image list
  // ---------------------------------------------------------------------------

  /** The five fixed image fields, in declared order. */
  function ImageFields(p: Product): (fields: seq<string>)
    ensures |fields| == 5
  {
    [p.imagem1, p.imagem2, p.imagem3, p.imagem4, p.imagem5]
  }

  /** `r` can be obtained from `s` by deleting elements, keeping the order of the rest. */
  ghost predicate IsSubsequence(r: seq<string>, s: seq<string>)
    decreases |s|
  {
    r == [] || (s != [] && ((r[0] == s[0] && IsSubsequence(r[1..], s[1..])) || IsSubsequence(r, s[1..])))
  }

  /** Filtering by truthiness: a string is truthy exactly when it is not empty. */
  function KeepNonEmpty(s: seq<string>): (r: seq<string>)
    ensures |r| <= |s|
    ensures forall i :: 0 <= i < |r| ==> r[i] != ""
    ensures forall x :: x in r <==> x in s && x != ""
  {
    if s == [] then []
    else if s[0] == "" then KeepNonEmpty(s[1..])
    else [s[0]] + KeepNonEmpty(s[1..])
  }

  /** The filter keeps order and keeps every non-empty element as often as it occurs. */
  lemma {:induction false} KeepNonEmptyIsOrderedFilter(s: seq<string>)
    ensures IsSubsequence(KeepNonEmpty(s), s)
    ensures multiset(KeepNonEmpty(s)) == multiset(s)["" := 0]
  {
    if s != [] {
      KeepNonEmptyIsOrderedFilter(s[1..]);
      assert s == [s[0]] + s[1..];
      assert multiset(s) == multiset{s[0]} + multiset(s[1..]);
    }
  }

  /** A subsequence never holds an element more often than the sequence it comes from. */
  lemma {:induction false} SubsequenceMultiset(r: seq<string>, s: seq<string>)
    requires IsSubsequence(r, s)
    ensures multiset(r) <= multiset(s)
    decreases |s|
  {
    if r != [] {
      assert s == [s[0]] + s[1..];
      if r[0] == s[0] && IsSubsequence(r[1..], s[1..]) {
        SubsequenceMultiset(r[1..], s[1..]);
        assert r == [r[0]] + r[1..];
      } else {
        SubsequenceMultiset(r, s[1..]);
      }
    }
  }

  /**
    The filter is the ONLY order-preserving selection that holds exactly the
    non-empty elements: ordering and multiplicities determine it completely.
   */
  lemma {:induction false} KeepNonEmptyUnique(s: seq<string>, r: seq<string>)
    requires IsSubsequence(r, s)
    requires multiset(r) == multiset(s)["" := 0]
    ensures r == KeepNonEmpty(s)
    decreases |s|
  {
    if s == [] {
      assert r == [];
    } else {
      var x, t := s[0], s[1..];
      assert s == [x] + t;
      assert multiset(s) == multiset{x} + multiset(t);
      if x == "" {
        assert multiset(s)["" := 0] == multiset(t)["" := 0];
        if r != [] {
          assert r[0] in multiset(r);
          assert r[0] != x;
          assert IsSubsequence(r, t);
        }
        KeepNonEmptyUnique(t, r);
      } else {
        assert multiset(r)[x] == multiset(t)[x] + 1;
        assert r != [];
        if r[0] == x && IsSubsequence(r[1..], t) {
          assert r == [x] + r[1..];
          assert multiset(r) == multiset{x} + multiset(r[1..]);
          forall y {:trigger multiset(t)[y]}
            ensures multiset(s)["" := 0][y] == (multiset{x} + multiset(t)["" := 0])[y]
          {
          }
          assert multiset(s)["" := 0] == multiset{x} + multiset(t)["" := 0];
          assert multiset(r[1..]) == multiset(t)["" := 0];
          KeepNonEmptyUnique(t, r[1..]);
        } else {
          assert IsSubsequence(r, t);
          SubsequenceMultiset(r, t);
          assert false;
        }
      }
    }
  }

  /**
    The image list handed to the carousel, the thumbnails and both overlays:
    the non-empty image fields, in declared order, each as often as it occurs.
   */
  function ProductImages(p: Product): (images: seq<string>)
    ensures |images| <= 5
    ensures forall i :: 0 <= i < |images| ==> images[i] != ""
    ensures IsSubsequence(images, ImageFields(p))
    ensures multiset(images) == multiset(ImageFields(p))["" := 0]
  {
    KeepNonEmptyIsOrderedFilter(ImageFields(p));
    KeepNonEmpty(ImageFields(p))
  }

  // ---------------------------------------------------------------------------
  // Price
  // ---------------------------------------------------------------------------

  const CurrencyMarker: string := "R$"
  const CurrencyPrefix: string := "R$ "

  /** Substring search, as JavaScript's `String.prototype.includes`. */
  function Contains(s: string, t: string): (b: bool)
    ensures b ==> |t| <= |s|
    ensures |t| <= |s| && s[..|t|] == t ==> b
    ensures t == [] ==> b
    decreases |s|
  {
    if |s| < |t| then false else s[..|t|] == t || Contains(s[1..], t)
  }

  /** `t` occurs in `s` starting at position `i`. */
  ghost predicate OccursAt(s: string, t: string, i: int)
  {
    0 <= i && i + |t| <= |s| && s[i..i + |t|] == t
  }

  /** Occurrences in `s` from position 1 on are the occurrences in `s[1..]`, shifted by one. */
  lemma OccursShift(s: string, t: string, i: int)
    requires 1 <= i && |s| > 0
    ensures OccursAt(s, t, i) <==> OccursAt(s[1..], t, i - 1)
  {
  }

  /** The scan finds `t` exactly when `t` occurs somewhere in `s`. */
  lemma {:induction false} ContainsIffOccurs(s: string, t: string)
    ensures Contains(s, t) <==> exists i :: OccursAt(s, t, i)
    decreases |s|
  {
    if |s| >= |t| && s[..|t|] != t {
      ContainsIffOccurs(s[1..], t);
      forall i | 1 <= i
        ensures OccursAt(s, t, i) <==> OccursAt(s[1..], t, i - 1)
      {
        OccursShift(s, t, i);
      }
      if Contains(s, t) {
        var j :| OccursAt(s[1..], t, j);
        assert OccursAt(s, t, j + 1);
      }
      assert !OccursAt(s, t, 0);
    } else if |s| >= |t| {
      assert OccursAt(s, t, 0);
    }
  }

  /** A price written with the prefix contains the currency marker. */
  lemma PrefixedPriceHasMarker(price: string)
    ensures Contains(CurrencyPrefix + price, CurrencyMarker)
  {
  }

  /**
    Formatting a price: left as it is when it already mentions "R$", prefixed
    with "R$ " otherwise. Total: every string is accepted.
   */
  function FormatPrice(price: string): (r: string)
    ensures Contains(r, CurrencyMarker)
    ensures r == price <==> Contains(price, CurrencyMarker)
    ensures !Contains(price, CurrencyMarker) ==> r == CurrencyPrefix + price
    ensures r[|r| - |price|..] == price
  {
    if Contains(price, CurrencyMarker) then price
    else PrefixedPriceHasMarker(price); CurrencyPrefix + price
  }

  /** Formatting twice is formatting once. */
  lemma FormatPriceIdempotent(price: string)
    ensures FormatPrice(FormatPrice(price)) == FormatPrice(price)
  {
  }

  // ---------------------------------------------------------------------------
  // Description
  // ---------------------------------------------------------------------------

  const FallbackCategory: string := "Produto"
  const DescriptionConnector: string := " é um "
  const DescriptionTail: string :=
    " de alta qualidade que oferece excelente custo-benefício. Perfeito para quem busca praticidade, durabilidade e funcionalidade no dia a dia. Com design moderno e acabamento cuidadoso, este produto foi desenvolvido para atender suas necessidades com máxima satisfação."

  /** The category shown in the description: the product's own, or "Produto" when it is empty. */
  function CategoryOrFallback(categoria: string): (shown: string)
    ensures shown != ""
    ensures categoria != "" ==> shown == categoria
    ensures categoria == "" ==> shown == FallbackCategory
  {
    if categoria == "" then FallbackCategory else categoria
  }

  /**
    The generated description: the product name, " é um ", the lower-cased
    category (or fallback), and a fixed sentence. `lower` stands for the
    runtime's `toLowerCase`.
   */
  function Description(p: Product, lower: string -> string): (d: string)
    ensures |d| >= |p.produto| + |DescriptionConnector| + |DescriptionTail|
    ensures d[..|p.produto| + |DescriptionConnector|] == p.produto + DescriptionConnector
    ensures d[|d| - |DescriptionTail|..] == DescriptionTail
  {
    p.produto + DescriptionConnector + lower(CategoryOrFallback(p.categoria)) + DescriptionTail
  }

  /**
    Reads back the category text of a description of a product called `name`:
    the part between the name with its connector and the fixed tail.
   */
  function DescribedCategory(d: string, name: string): (c: Option<string>)
    ensures c.Some? ==> |name| + |DescriptionConnector| + |c.value| + |DescriptionTail| == |d|
  {
    var head := name + DescriptionConnector;
    if |d| >= |head| + |DescriptionTail| && d[..|head|] == head && d[|d| - |DescriptionTail|..] == DescriptionTail
    then Some(d[|head|..|d| - |DescriptionTail|])
    else None
  }

  /** The description carries exactly the lower-cased category (or "produto" fallback) between its fixed parts. */
  lemma DescriptionRoundTrip(p: Product, lower: string -> string)
    ensures DescribedCategory(Description(p, lower), p.produto) == Some(lower(CategoryOrFallback(p.categoria)))
    ensures p.categoria == "" ==> DescribedCategory(Description(p, lower), p.produto) == Some(lower(FallbackCategory))
  {
  }

  // ---------------------------------------------------------------------------
  // Overlay state
  // ---------------------------------------------------------------------------

  /**
    The modal is open and the product has a video: the condition under which
    the auto-play activation is scheduled and the play button is shown.
   */
  predicate VideoOffered(isOpen: bool, p: Product): (offered: bool)
    ensures offered <==> isOpen && |p.video| > 0
  {
    isOpen && p.video != ""
  }

  /** A user or timer event the modal reacts to while its props stay the same. */
  datatype Interaction =
    | AutoPlayTimerFires
    | ImageClicked(index: nat)
    | ZoomClosed
    | VideoClosed
    | PlayClicked

  /**
    One mounted modal. `isOpen` and `product` are its props; the other fields
    are its local state. `autoPlayPending` stands for the scheduled, not yet
    cancelled, auto-play timer.
   */
  class ProductDetailModal {
    var isOpen: bool
    var product: Product
    var isZoomOpen: bool
    var isVideoOpen: bool
    var selectedImageIndex: nat
    var autoPlayPending: bool

    /** An activation is pending only while the modal is open on a product with a video. */
    ghost predicate Valid()
      reads this
    {
      autoPlayPending ==> VideoOffered(isOpen, product)
    }

    /** Mounting: both overlays closed, index 0, and the effect's first run. */
    constructor (isOpen: bool, product: Product)
      ensures Valid()
      ensures this.isOpen == isOpen && this.product == product
      ensures !isZoomOpen && !isVideoOpen && selectedImageIndex == 0
      ensures autoPlayPending == VideoOffered(isOpen, product)
    {
      this.isOpen := isOpen;
      this.product := product;
      isZoomOpen := false;
      isVideoOpen := false;
      selectedImageIndex := 0;
      autoPlayPending := isOpen && product.video != "";
    }

    /**
      New props. The effect depends on the open flag and the video URL only:
      when either changes, the pending activation is cancelled and one is
      scheduled again if the new props offer a video; otherwise it is kept.
     */
    method Rerender(isOpen': bool, product': Product)
      requires Valid()
      modifies this
      ensures Valid()
      ensures isOpen == isOpen' && product == product'
      ensures isZoomOpen == old(isZoomOpen) && isVideoOpen == old(isVideoOpen)
      ensures selectedImageIndex == old(selectedImageIndex)
      ensures autoPlayPending ==
        if isOpen' == old(isOpen) && product'.video == old(product.video)
        then old(autoPlayPending)
        else VideoOffered(isOpen', product')
    {
      var depsChanged := isOpen' != isOpen || product'.video != product.video;
      if depsChanged {
        autoPlayPending := false;
      }
      isOpen := isOpen';
      product := product';
      if depsChanged && isOpen' && product'.video != "" {
        autoPlayPending := true;
      }
    }

    /** Unmounting runs the effect's cleanup: the pending activation is cancelled. */
    method Unmount()
      requires Valid()
      modifies this
      ensures Valid()
      ensures !autoPlayPending
      ensures isOpen == old(isOpen) && product == old(product)
      ensures isZoomOpen == old(isZoomOpen) && isVideoOpen == old(isVideoOpen)
      ensures selectedImageIndex == old(selectedImageIndex)
    {
      autoPlayPending := false;
    }

    /**
      The delay elapses. A pending activation opens the video overlay and is
      spent; with nothing pending nothing happens. So the overlay is only ever
      opened here while the modal is open on a product with a video.
     */
    method AutoPlayTimerFires()
      requires Valid()
      modifies this
      ensures Valid()
      ensures !autoPlayPending
      ensures isVideoOpen == (old(isVideoOpen) || old(autoPlayPending))
      ensures isVideoOpen && !old(isVideoOpen) ==> VideoOffered(isOpen, product)
      ensures isOpen == old(isOpen) && product == old(product)
      ensures isZoomOpen == old(isZoomOpen) && selectedImageIndex == old(selectedImageIndex)
    {
      if autoPlayPending {
        isVideoOpen := true;
        autoPlayPending := false;
      }
    }

    /** A click on a carousel slide or thumbnail: remember the index and open the zoom overlay. */
    method ImageClick(index: nat)
      requires Valid()
      modifies this
      ensures Valid()
      ensures selectedImageIndex == index && isZoomOpen
      ensures isVideoOpen == old(isVideoOpen) && autoPlayPending == old(autoPlayPending)
      ensures isOpen == old(isOpen) && product == old(product)
    {
      selectedImageIndex := index;
      isZoomOpen := true;
    }

    /** The zoom overlay's close callback. */
    method CloseZoom()
      requires Valid()
      modifies this
      ensures Valid()
      ensures !isZoomOpen
      ensures isVideoOpen == old(isVideoOpen) && autoPlayPending == old(autoPlayPending)
      ensures selectedImageIndex == old(selectedImageIndex)
      ensures isOpen == old(isOpen) && product == old(product)
    {
      isZoomOpen := false;
    }

    /** The video overlay's close callback; a pending activation is not cancelled by it. */
    method CloseVideo()
      requires Valid()
      modifies this
      ensures Valid()
      ensures !isVideoOpen
      ensures isZoomOpen == old(isZoomOpen) && autoPlayPending == old(autoPlayPending)
      ensures selectedImageIndex == old(selectedImageIndex)
      ensures isOpen == old(isOpen) && product == old(product)
    {
      isVideoOpen := false;
    }

    /**
      A click on the play button. The button exists only inside the open
      modal and only for a product with a video; otherwise there is nothing
      to click and the state stays as it is.
     */
    method PlayClick()
      requires Valid()
      modifies this
      ensures Valid()
      ensures isVideoOpen == (old(isVideoOpen) || VideoOffered(isOpen, product))
      ensures isZoomOpen == old(isZoomOpen) && autoPlayPending == old(autoPlayPending)
      ensures selectedImageIndex == old(selectedImageIndex)
      ensures isOpen == old(isOpen) && product == old(product)
    {
      if isOpen && product.video != "" {
        isVideoOpen := true;
      }
    }

    /** Reacts to one interaction; no interaction schedules a new activation or changes the props. */
    method Dispatch(e: Interaction)
      requires Valid()
      modifies this
      ensures Valid()
      ensures isOpen == old(isOpen) && product == old(product)
      ensures autoPlayPending ==> old(autoPlayPending)
      ensures isVideoOpen && !old(isVideoOpen) ==> VideoOffered(isOpen, product)
    {
      match e
      case AutoPlayTimerFires => AutoPlayTimerFires();
      case ImageClicked(i) => ImageClick(i);
      case ZoomClosed => CloseZoom();
      case VideoClosed => CloseVideo();
      case PlayClicked => PlayClick();
    }
  }

  // ---------------------------------------------------------------------------
  // What a mounted modal can and cannot do
  // ---------------------------------------------------------------------------

  /** Without a video URL the video overlay never opens, whatever happens and however long one waits. */
  method NoVideoNeverOpensVideo(isOpen: bool, product: Product, interactions: seq<Interaction>)
    returns (videoOpen: bool)
    requires product.video == ""
    ensures !videoOpen
  {
    var modal := new ProductDetailModal(isOpen, product);
    for i := 0 to |interactions|
      invariant modal.Valid()
      invariant modal.product == product
      invariant !modal.isVideoOpen
    {
      modal.Dispatch(interactions[i]);
    }
    videoOpen := modal.isVideoOpen;
  }

  /** Closing the modal before the delay elapses cancels the auto-play: the video overlay stays closed. */
  method ClosedBeforeDelayNeverOpensVideo(product: Product, interactions: seq<Interaction>)
    returns (videoOpen: bool)
    ensures !videoOpen
  {
    var modal := new ProductDetailModal(true, product);
    modal.Rerender(false, product);
    for i := 0 to |interactions|
      invariant modal.Valid()
      invariant !modal.isOpen
      invariant !modal.isVideoOpen
    {
      modal.Dispatch(interactions[i]);
    }
    videoOpen := modal.isVideoOpen;
  }

  /** Opening the modal on a product with a video and letting the delay elapse opens the video overlay. */
  method OpenWithVideoAutoPlays(product: Product) returns (videoOpen: bool, zoomOpen: bool)
    requires product.video != ""
    ensures videoOpen && !zoomOpen
  {
    var modal := new ProductDetailModal(true, product);
    modal.AutoPlayTimerFires();
    videoOpen, zoomOpen := modal.isVideoOpen, modal.isZoomOpen;
  }
}
