/** The carousel view: star ratings, the colour picker and image of each
    card, the load phase, the render branch and the scroll progress bar. */
module Frontend {
  import opened Wrappers
  import opened JsonValues

  // ---------------------------------------------------------------------------
  // Rating stars
  // ---------------------------------------------------------------------------

  datatype Star = Full | Half | Empty

  /** n copies of x. */
  function Repeat(x: Star, n: nat): (r: seq<Star>)
    ensures |r| == n
    ensures forall i :: 0 <= i < n ==> r[i] == x
  {
    if n == 0 then [] else Repeat(x, n - 1) + [x]
  }

  function Max0(n: int): nat {
    if n < 0 then 0 else n
  }

  /** `score % 1 !== 0`: the score has a fractional part. */
  predicate HasHalfStar(score: real) {
    score != score.Floor as real
  }

  /** The slots `RatingStars` emits: `Math.floor(score)` full ones, one half one
      when the score is not whole, then `5 - full - half` empty ones; a loop
      whose bound is negative emits nothing. */
  function StarSlots(score: real): seq<Star> {
    var full := score.Floor;
    var half := if HasHalfStar(score) then 1 else 0;
    Repeat(Full, Max0(full)) + Repeat(Half, half) + Repeat(Empty, Max0(5 - full - half))
  }

  /** `RatingStars`: the `stars` array built by two loops and one push. */
  method RatingStars(score: real) returns (stars: seq<Star>)
    ensures stars == StarSlots(score)
  {
    var fullStars := score.Floor;
    var hasHalfStar := HasHalfStar(score);
    var emptyStars := 5 - fullStars - (if hasHalfStar then 1 else 0);
    stars := [];
    var i := 0;
    while i < fullStars
      invariant 0 <= i && (i <= fullStars || i == 0)
      invariant stars == Repeat(Full, i)
      decreases fullStars - i
    {
      stars := stars + [Full];
      i := i + 1;
    }
    assert i == Max0(fullStars);
    if hasHalfStar {
      stars := stars + [Half];
    }
    ghost var prefix := stars;
    assert prefix == Repeat(Full, Max0(fullStars)) + Repeat(Half, if hasHalfStar then 1 else 0);
    i := 0;
    while i < emptyStars
      invariant 0 <= i && (i <= emptyStars || i == 0)
      invariant stars == prefix + Repeat(Empty, i)
      decreases emptyStars - i
    {
      stars := stars + [Empty];
      i := i + 1;
    }
    assert i == Max0(emptyStars);
  }

  /** Slot by slot: all full slots, then the half slot if any, then all empty
      ones, with floor(score) full slots for a non-negative score. */
  lemma {:induction false} StarSlotsShape(score: real)
    requires score >= 0.0
    ensures var full := score.Floor;
            var half := if HasHalfStar(score) then 1 else 0;
            |StarSlots(score)| == full + half + Max0(5 - full - half) &&
            forall i :: 0 <= i < |StarSlots(score)| ==>
              StarSlots(score)[i] == (if i < full then Full else if i < full + half then Half else Empty)
  {
    var full := score.Floor;
    var half := if HasHalfStar(score) then 1 else 0;
    var s := StarSlots(score);
    var a, b, c := Repeat(Full, Max0(full)), Repeat(Half, half), Repeat(Empty, Max0(5 - full - half));
    assert s == a + b + c;
    forall i | 0 <= i < |s|
      ensures s[i] == (if i < full then Full else if i < full + half then Half else Empty)
    {
      if i < full {
        assert s[i] == a[i];
      } else if i < full + half {
        assert s[i] == b[i - full];
      } else {
        assert s[i] == c[i - full - half];
      }
    }
  }

  /** For a score between 0 and 5 exactly five slots are emitted. */
  lemma FiveSlots(score: real)
    requires 0.0 <= score <= 5.0
    ensures |StarSlots(score)| == 5
  {
    StarSlotsShape(score);
    if HasHalfStar(score) {
      assert score.Floor < 5;
    }
  }

  /** A half slot appears exactly when the score is not whole. */
  lemma HalfSlotIffFraction(score: real)
    ensures Half in StarSlots(score) <==> HasHalfStar(score)
  {
    var full := score.Floor;
    var half := if HasHalfStar(score) then 1 else 0;
    var a, b, c := Repeat(Full, Max0(full)), Repeat(Half, half), Repeat(Empty, Max0(5 - full - half));
    assert StarSlots(score) == a + b + c;
    if HasHalfStar(score) {
      assert StarSlots(score)[|a|] == Half;
    } else {
      assert Half !in a && Half !in c && b == [];
    }
  }

  /** 3.5 gives full, full, full, half, empty. */
  lemma StarsThreeAndHalf()
    ensures StarSlots(3.5) == [Full, Full, Full, Half, Empty]
  {
    assert (3.5).Floor == 3;
    assert HasHalfStar(3.5);
  }

  // ---------------------------------------------------------------------------
  // Colours and card image
  // ---------------------------------------------------------------------------

  datatype ColorOption = ColorOption(name: string, code: string, hex: string)

  const ColorOptions: seq<ColorOption> := [
    ColorOption("Yellow Gold", "yellow", "#E6CA97"),
    ColorOption("White Gold", "white", "#D9D9D9"),
    ColorOption("Rose Gold", "rose", "#E1A4A9")
  ]

  /** One dot of the colour picker and whether it is marked active. */
  datatype Dot = Dot(option: ColorOption, active: bool)

  /** `ColorPicker`: one dot per colour option, in order, active when its code
      equals the selected colour's code. */
  function ColorDots(selected: ColorOption): (dots: seq<Dot>)
    ensures |dots| == |ColorOptions|
    ensures forall i :: 0 <= i < |dots| ==> dots[i].option == ColorOptions[i]
  {
    seq(|ColorOptions|, i requires 0 <= i < |ColorOptions| =>
      Dot(ColorOptions[i], selected.code == ColorOptions[i].code))
  }

  /** When the selected colour is one of the options, exactly its dot is
      active; any other colour marks no dot. */
  lemma ExactlyOneActiveDot(selected: ColorOption)
    ensures selected in ColorOptions ==>
              exists k :: 0 <= k < |ColorOptions| && ColorOptions[k] == selected &&
                forall i :: 0 <= i < |ColorOptions| ==> (ColorDots(selected)[i].active <==> i == k)
    ensures (forall i :: 0 <= i < |ColorOptions| ==> ColorOptions[i].code != selected.code) ==>
              forall i :: 0 <= i < |ColorOptions| ==> !ColorDots(selected)[i].active
  {
    var dots := ColorDots(selected);
    if selected in ColorOptions {
      var k :| 0 <= k < |ColorOptions| && ColorOptions[k] == selected;
      assert "yellow" != "white" && "yellow" != "rose" && "white" != "rose";
      forall i | 0 <= i < |ColorOptions|
        ensures dots[i].active <==> i == k
      {
        assert dots[i].active == (selected.code == ColorOptions[i].code);
      }
    }
  }

  /** The `src` of a card's image: `undefined` or a JSON value. */
  datatype ImageSrc = Undefined | Src(url: Json)

  const PlaceholderImage: string := "placeholder-image-url.jpg"

  /** `product.images ? product.images[selected.code] : placeholder`, where
      `images` is the product's `images` property (`None` when absent). */
  function CardImage(images: Option<Json>, selected: ColorOption): (r: ImageSrc)
    ensures images.None? || !Truthy(images.value) ==> r == Src(JStr(PlaceholderImage))
    ensures images.Some? && Truthy(images.value) ==>
              (r.Src? <==> images.value.JObj? && selected.code in images.value.fields)
    ensures r.Src? && images.Some? && Truthy(images.value) ==> r.url == images.value.fields[selected.code]
  {
    if images.Some? && Truthy(images.value) then
      match Get(images.value, selected.code)
      case Some(url) => Src(url)
      case None => Undefined
    else Src(JStr(PlaceholderImage))
  }

  /** The placeholder appears only for a product without images; a product
      whose images lack the selected colour shows no image at all. */
  lemma PlaceholderOnlyWithoutImages(images: Json, selected: ColorOption)
    requires images.JObj? && selected.code !in images.fields
    ensures CardImage(Some(images), selected) == Undefined
  {
  }

  /** A value React accepts as a child: not an object, and for an array every
      element acceptable. Rendering any other value throws. */
  predicate ValidChild(v: Json)
    decreases v
  {
    match v
    case JObj(_) => false
    case JArr(items) => forall i :: 0 <= i < |items| ==> ValidChild(items[i])
    case _ => true
  }

  /** A product `ProductCard` renders without throwing. `key={product.name}`
      throws for `null`, `product.price.toFixed(2)` throws unless `price` is a
      number, and `{product.name}` and `{product.scoreOutOf5}` throw for a
      value React cannot render. */
  predicate Renderable(product: Json) {
    && product.JObj?
    && "price" in product.fields && product.fields["price"].JNum?
    && ("name" in product.fields ==> ValidChild(product.fields["name"]))
    && ("scoreOutOf5" in product.fields ==> ValidChild(product.fields["scoreOutOf5"]))
  }

  /** `ProductCard`: one card and its own selected colour. A card exists only
      inside a rendered carousel, so its product is renderable. */
  class ProductCard {
    const product: Json
    var selectedColor: ColorOption

    /** `useState(COLOR_OPTIONS[0])` */
    constructor (product: Json)
      requires Renderable(product)
      ensures this.product == product
      ensures selectedColor == ColorOptions[0]
    {
      this.product := product;
      selectedColor := ColorOptions[0];
    }

    /** A click on a dot: `onColorChange(option)` for that dot's option. */
    method ChooseColor(option: ColorOption)
      requires option in ColorOptions
      modifies this`selectedColor
      ensures selectedColor == option
    {
      selectedColor := option;
    }

    /** `currentImageSrc` */
    function CurrentImage(): (r: ImageSrc)
      requires Renderable(product)
      reads this
      ensures "images" !in product.fields || !Truthy(product.fields["images"]) ==> r == Src(JStr(PlaceholderImage))
      ensures ("images" in product.fields && Truthy(product.fields["images"]) &&
               !product.fields["images"].JObj?) ==> r == Undefined
      ensures ("images" in product.fields && product.fields["images"].JObj? &&
               selectedColor.code !in product.fields["images"].fields) ==> r == Undefined
      ensures ("images" in product.fields && product.fields["images"].JObj? &&
               selectedColor.code in product.fields["images"].fields) ==>
                r == Src(product.fields["images"].fields[selectedColor.code])
    {
      CardImage(Get(product, "images"), selectedColor)
    }
  }

  // ---------------------------------------------------------------------------
  // Scroll progress
  // ---------------------------------------------------------------------------

  /** `handleScroll`'s progress, in exact arithmetic: the scroll offset as a
      percentage of the scrollable distance, 0 when nothing can scroll. */
  function ScrollProgress(scrollLeft: real, scrollWidth: real, clientWidth: real): (p: real)
    ensures scrollWidth - clientWidth <= 0.0 ==> p == 0.0
    ensures scrollWidth - clientWidth > 0.0 ==> p * (scrollWidth - clientWidth) == scrollLeft * 100.0
  {
    var maxScroll := scrollWidth - clientWidth;
    if maxScroll > 0.0 then (scrollLeft / maxScroll) * 100.0 else 0.0
  }

  /** Within the scrollable range the progress is a percentage, 0 at the start
      and 100 at the end. */
  lemma ProgressBounds(scrollLeft: real, scrollWidth: real, clientWidth: real)
    requires scrollWidth - clientWidth > 0.0
    requires 0.0 <= scrollLeft <= scrollWidth - clientWidth
    ensures 0.0 <= ScrollProgress(scrollLeft, scrollWidth, clientWidth) <= 100.0
    ensures scrollLeft == 0.0 ==> ScrollProgress(scrollLeft, scrollWidth, clientWidth) == 0.0
    ensures scrollLeft == scrollWidth - clientWidth ==> ScrollProgress(scrollLeft, scrollWidth, clientWidth) == 100.0
  {
    var m := scrollWidth - clientWidth;
    var p := ScrollProgress(scrollLeft, scrollWidth, clientWidth);
    assert p * m == scrollLeft * 100.0;
  }

  /** Scrolling further never moves the indicator back. */
  lemma ProgressMonotone(left1: real, left2: real, scrollWidth: real, clientWidth: real)
    requires left1 <= left2
    ensures ScrollProgress(left1, scrollWidth, clientWidth) <= ScrollProgress(left2, scrollWidth, clientWidth)
  {
    var m := scrollWidth - clientWidth;
    if m > 0.0 {
      var p1, p2 := ScrollProgress(left1, scrollWidth, clientWidth), ScrollProgress(left2, scrollWidth, clientWidth);
      assert (p2 - p1) * m == (left2 - left1) * 100.0;
    }
  }

  /** 1000 wide, 400 visible, scrolled 300: half way. */
  lemma ProgressExample()
    ensures ScrollProgress(300.0, 1000.0, 400.0) == 50.0
  {
  }

  // ---------------------------------------------------------------------------
  // Load phase and render branch
  // ---------------------------------------------------------------------------

  const NotArrayMessage: string := "API'den gelen veri dizi formatında değil."
  const ConnectionErrorMessage: string := "API bağlantı hatası."
  const NoProductsMessage: string := "Gösterilecek Ürün Bulunamadı."

  /** How the products request settles: it throws, or it yields a body. */
  datatype ProductsResponse = RequestFailed | Body(data: Json)

  /** The App's state as React holds it. */
  datatype UiState = UiState(products: seq<Json>, loading: bool, error: Option<string>, scrollProgress: real)

  const InitialState: UiState := UiState([], true, None, 0.0)

  /** `error` is truthy: set and not the empty string. */
  predicate ErrorShown(error: Option<string>) {
    error.Some? && error.value != ""
  }

  /** The state once `fetchProducts` has settled: an array body becomes the
      products, anything else sets the error and empties the products, and
      loading ends in every case. */
  function Settled(s: UiState, outcome: ProductsResponse): (t: UiState)
    ensures !t.loading && t.scrollProgress == s.scrollProgress
    ensures outcome.Body? && outcome.data.JArr? ==> t.products == outcome.data.items && t.error == s.error
    ensures outcome.Body? && !outcome.data.JArr? ==> t.products == [] && t.error == Some(NotArrayMessage)
    ensures outcome.RequestFailed? ==> t.products == [] && t.error == Some(ConnectionErrorMessage)
  {
    match outcome
    case Body(JArr(items)) => s.(products := items, loading := false)
    case Body(_) => s.(products := [], error := Some(NotArrayMessage), loading := false)
    case RequestFailed => s.(products := [], error := Some(ConnectionErrorMessage), loading := false)
  }

  /** What the App renders. The carousel carries the cards and the progress
      indicator's width and left offset, both in percent. `Unmounted` is an
      error thrown while rendering a card: React unmounts the whole App. */
  datatype View =
    | LoadingView
    | MessageView(text: string, isError: bool)
    | CarouselView(cards: seq<Json>, indicatorWidth: real, indicatorLeft: real)
    | Unmounted

  /** The render branch: loading first, then the message for an error or an
      empty list, and only otherwise the carousel, which throws if any of its
      products cannot be rendered. */
  function Render(s: UiState): (v: View)
    ensures v.LoadingView? <==> s.loading
    ensures v.MessageView? <==> !s.loading && (ErrorShown(s.error) || s.products == [])
    ensures v.MessageView? ==> v.isError == ErrorShown(s.error)
    ensures v.MessageView? ==> v.text == if ErrorShown(s.error) then s.error.value else NoProductsMessage
    ensures v.Unmounted? <==> !s.loading && !ErrorShown(s.error) &&
                              exists i :: 0 <= i < |s.products| && !Renderable(s.products[i])
    ensures v.CarouselView? ==> v.cards == s.products && |s.products| > 0
    ensures v.CarouselView? ==> forall i :: 0 <= i < |s.products| ==> Renderable(s.products[i])
    ensures v.CarouselView? ==> v.indicatorWidth * |s.products| as real == 100.0 && v.indicatorLeft == s.scrollProgress
  {
    if s.loading then LoadingView
    else if ErrorShown(s.error) || |s.products| == 0 then
      MessageView(if ErrorShown(s.error) then s.error.value else NoProductsMessage, ErrorShown(s.error))
    else if exists i :: 0 <= i < |s.products| && !Renderable(s.products[i]) then Unmounted
    else CarouselView(s.products, 100.0 / |s.products| as real, s.scrollProgress)
  }

  /** From the initial state, the settled fetch shows the carousel exactly for
      a non-empty array of renderable products, unmounts the App for a
      non-empty array holding any other product, shows the "no products" text
      for an empty one, and the matching error text otherwise. */
  lemma {:induction false} LoadThenRender(outcome: ProductsResponse)
    ensures Render(InitialState) == LoadingView
    ensures Render(Settled(InitialState, outcome)).CarouselView? <==>
              outcome.Body? && outcome.data.JArr? && outcome.data.items != [] &&
              forall i :: 0 <= i < |outcome.data.items| ==> Renderable(outcome.data.items[i])
    ensures Render(Settled(InitialState, outcome)) == Unmounted <==>
              outcome.Body? && outcome.data.JArr? &&
              exists i :: 0 <= i < |outcome.data.items| && !Renderable(outcome.data.items[i])
    ensures outcome == Body(JArr([])) ==>
              Render(Settled(InitialState, outcome)) == MessageView(NoProductsMessage, false)
    ensures outcome.RequestFailed? ==>
              Render(Settled(InitialState, outcome)) == MessageView(ConnectionErrorMessage, true)
    ensures outcome.Body? && !outcome.data.JArr? ==>
              Render(Settled(InitialState, outcome)) == MessageView(NotArrayMessage, true)
  {
    var t := Settled(InitialState, outcome);
    assert !ErrorShown(InitialState.error);
    if outcome.Body? && !outcome.data.JArr? {
      assert ErrorShown(t.error);
    }
  }

  /** A `null` entry, or an entry whose `price` is `null` (what `res.json`
      sends for a NaN price), makes the App unmount instead of showing the
      carousel. */
  lemma UnrenderableProductsUnmount()
    ensures Render(Settled(InitialState, Body(JArr([JNull])))) == Unmounted
    ensures Render(Settled(InitialState, Body(JArr([JObj(map["name" := JStr("x"), "price" := JNull])])))) == Unmounted
  {
    var nullEntry := Settled(InitialState, Body(JArr([JNull])));
    assert nullEntry.products[0] == JNull && !Renderable(nullEntry.products[0]);
    var entry := JObj(map["name" := JStr("x"), "price" := JNull]);
    var nullPrice := Settled(InitialState, Body(JArr([entry])));
    assert nullPrice.products[0] == entry && !Renderable(nullPrice.products[0]);
  }

  // ---------------------------------------------------------------------------
  // The App component
  // ---------------------------------------------------------------------------

  /** The scrollable carousel element: the browser's `scrollLeft`,
      `scrollWidth` and `clientWidth` of the `.product-carousel` div. */
  class CarouselElement {
    var scrollLeft: real
    var scrollWidth: real
    var clientWidth: real

    constructor (scrollLeft: real, scrollWidth: real, clientWidth: real)
      ensures this.scrollLeft == scrollLeft && this.scrollWidth == scrollWidth && this.clientWidth == clientWidth
    {
      this.scrollLeft, this.scrollWidth, this.clientWidth := scrollLeft, scrollWidth, clientWidth;
    }
  }

  /** `App`: its state hooks and `carouselRef.current`. */
  class App {
    var products: seq<Json>
    var loading: bool
    var error: Option<string>
    var scrollProgress: real
    var carousel: CarouselElement?

    function State(): UiState
      reads this
    {
      UiState(products, loading, error, scrollProgress)
    }

    /** Mounting: no products, loading, no error, progress 0, no element yet. */
    constructor ()
      ensures State() == InitialState && carousel == null
    {
      products, loading, error, scrollProgress := [], true, None, 0.0;
      carousel := null;
    }

    /** React assigning `carouselRef.current` (the element, or null once the
        carousel is no longer rendered). */
    method SetCarouselRef(element: CarouselElement?)
      modifies this`carousel
      ensures carousel == element
    {
      carousel := element;
    }

    /** `fetchProducts`, with `outcome` standing for the awaited request. */
    method FetchProducts(outcome: ProductsResponse)
      modifies this`products, this`error, this`loading
      ensures State() == Settled(old(State()), outcome)
    {
      if outcome.Body? {
        if outcome.data.JArr? {
          products := outcome.data.items;
        } else {
          error := Some(NotArrayMessage);
          products := [];
        }
      } else {
        error := Some(ConnectionErrorMessage);
        products := [];
      }
      loading := false;
    }

    /** `handleScroll`: recompute the progress from the element, if any. */
    method HandleScroll()
      modifies this`scrollProgress
      ensures carousel == null ==> scrollProgress == old(scrollProgress)
      ensures carousel != null ==>
                scrollProgress == ScrollProgress(carousel.scrollLeft, carousel.scrollWidth, carousel.clientWidth)
    {
      if carousel != null {
        var maxScroll := carousel.scrollWidth - carousel.clientWidth;
        scrollProgress := if maxScroll > 0.0 then (carousel.scrollLeft / maxScroll) * 100.0 else 0.0;
      }
    }

    /** `scroll(scrollOffset)`: move the element by that many card widths of 320. */
    method Scroll(scrollOffset: int)
      modifies (if carousel == null then {} else {carousel})`scrollLeft
      ensures carousel != null ==> carousel.scrollLeft == old(carousel.scrollLeft) + scrollOffset as real * 320.0
    {
      if carousel != null {
        carousel.scrollLeft := carousel.scrollLeft + scrollOffset as real * 320.0;
      }
    }

    /** What the App renders now. */
    function CurrentView(): View
      reads this
    {
      Render(State())
    }
  }
}
