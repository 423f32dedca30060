/**
 * The Amazon.ae scraper (simple_amazon_scraper.py): how a results page is
 * turned into candidate containers, how each container becomes a
 * `ProductInfo`, and which records the budget gate lets through.
 */
module Amazon {
  import opened Wrappers
  import opened Text
  import opened Decimal
  import opened Dom
  import opened Cascade
  import opened Records
  import opened Patterns
  import opened Urls

  /** One product as the scraper reports it. */
  datatype ProductInfo = ProductInfo(
    title: string,
    price: string,
    url: string,
    imageUrl: Option<string>,
    rating: Option<string>,
    priceValue: Option<real>,
    reviewCount: Option<string>,
    deliveryInfo: Option<string>,
    availability: Option<string>,
    discountInfo: Option<string>)

  const Host := "https://www.amazon.ae"

  /** The search page's address, up to the query. */
  const SearchBase := Host + "/s?k="

  /** The record URL used when no product link is found: the search page for the quoted term. */
  function SearchUrl(term: string): (u: string)
    ensures StartsWith(u, SearchBase) && u[|SearchBase|..] == QuotePlus(term)
  {
    Joined(SearchBase, QuotePlus(term));
    SearchBase + QuotePlus(term)
  }

  const ProductSelectors: seq<string> := [
    "[data-component-type='s-search-result']", ".s-result-item", "[data-asin]",
    ".s-card-container", ".s-widget-container"]
  const TitleSelectors: seq<string> := [
    "h2 a span", ".a-size-base-plus", "h2.a-size-base-plus span", "[data-cy='title-recipe'] h2 span",
    "h2 span", ".s-line-clamp-4 span", "a[class*='s-link-style'] span"]
  const PriceSelectors: seq<string> := [
    ".a-price-whole", ".a-price .a-price-whole", "[data-cy='price-recipe'] .a-price-whole",
    ".a-price-symbol + .a-price-whole", ".a-offscreen", "[class*='a-price'] .a-price-whole"]
  const RatingSelectors: seq<string> := [
    ".a-icon-alt", "[data-cy='reviews-block'] .a-size-small", ".a-icon-star-mini .a-icon-alt",
    "[aria-label*='out of 5 stars']"]
  const ReviewSelectors: seq<string> := ["[aria-label*='ratings']", ".s-underline-text", "a[aria-label*='ratings']"]
  const DeliverySelectors: seq<string> := [
    "[data-cy='delivery-recipe']", ".udm-delivery-block", "[class*='delivery']", ".a-text-bold"]
  const AvailabilitySelectors: seq<string> := [".a-color-price", "[class*='stock']", ".a-size-base.a-color-secondary"]
  const DiscountSelectors: seq<string> := [".a-color-secondary", "[class*='discount']", "[class*='off']"]
  const LinkSelectors: seq<string> := ["a[href*='/dp/']", ".s-link-style", "h2 a", "a[class*='s-link']"]
  const ImageSelectors: seq<string> := [
    "img[src*='images-amazon']", ".s-image", "img[data-src*='amazon']",
    "img:not([src*='transparent']):not([src*='spinner'])"]

  // ----- Title -----

  /** The stripped text of the element a selector finds inside `c`. */
  function ElemText(c: Candidate, selector: string): Option<string> {
    match Find(c, selector)
    case Some(e) => Some(Strip(e.text))
    case None => None
  }

  function TitleRead(c: Candidate): string -> Option<string> {
    selector => ElemText(c, selector)
  }

  function LongTitle(): string -> bool {
    t => |t| > 10
  }

  /** A text line that can stand for the title. */
  predicate TitleLine(line: string) {
    10 < |line| < 200 && !NumericLine(line) && '%' !in line
    && !AnyIn(Lower(line), ["aed", "delivery", "add to cart", "only", "left"])
  }

  function TitleLinePick(): string -> Option<string> {
    line => if TitleLine(line) then Some(line) else None
  }

  /** The title before clean-up: selectors (assign, then test), then the text lines, then "Unknown Product". */
  function RawTitle(c: Candidate, fullText: string): string {
    var t := LastAssigned(TitleSelectors, "", TitleRead(c), LongTitle());
    if t != "" then t else FirstSome(NonBlankLines(fullText), TitleLinePick()).GetOr(UnknownProduct)
  }

  /** The record's title: the raw title with whitespace collapsed, cut at 150 characters. */
  function TitleOf(c: Candidate, fullText: string): string {
    CleanTitle(RawTitle(c, fullText), 150)
  }

  method ExtractTitle(c: Candidate, fullText: string) returns (title: string)
    ensures title == TitleOf(c, fullText)
  {
    title := AssignUntil(TitleSelectors, "", TitleRead(c), LongTitle());
    if title == "" {
      var line := FindFirst(NonBlankLines(fullText), TitleLinePick());
      title := line.GetOr(UnknownProduct);
    }
    title := CleanTitle(title, 150);
  }

  // ----- Price -----

  /** `whole.fraction` when the container has a fraction element, `whole` otherwise. */
  function PriceText(c: Candidate, whole: string): string {
    match Find(c, ".a-price-fraction")
    case Some(f) => whole + "." + Strip(f.text)
    case None => whole
  }

  function PriceRead(c: Candidate): string -> Option<string> {
    selector =>
      match Find(c, selector)
      case None => None
      case Some(e) =>
        var pt := PriceText(c, Strip(e.text));
        if pt != "" && MatchesDecimal(RemoveChar(pt, ',')) then Some(pt) else None
  }

  /** The amount after "aed" in a screen-reader price text. */
  function OffscreenRead(): Elem -> Option<string> {
    (e: Elem) =>
      var t := Lower(Strip(e.text));
      if Contains(t, "aed") then Search(t, Offscreen(t)) else None
  }

  function OffscreenPrice(c: Candidate): Option<string> {
    if ".a-offscreen" in c.all then FirstSome(c.all[".a-offscreen"], OffscreenRead()) else None
  }

  /** The structured price if one matches, else the screen-reader price, else "Price not available". */
  function PriceOf(c: Candidate): LabelledPrice {
    match FirstSome(PriceSelectors, PriceRead(c))
    case Some(pt) => LabelledPrice("AED " + pt, ParseFloat(RemoveChar(pt, ',')))
    case None =>
      match OffscreenPrice(c)
      case Some(g) => LabelledPrice("AED " + g, ParseFloat(g))
      case None => LabelledPrice(PriceNotAvailable, None)
  }

  method ExtractPrice(c: Candidate) returns (price: string, priceValue: Option<real>)
    ensures LabelledPrice(price, priceValue) == PriceOf(c)
  {
    price := PriceNotAvailable;
    priceValue := None;
    var whole := FindFirst(PriceSelectors, PriceRead(c));
    if whole.Some? {
      price := "AED " + whole.value;
      priceValue := ParseFloat(RemoveChar(whole.value, ','));
    }
    assert ("AED " + [])[0] != PriceNotAvailable[0];
    if price == PriceNotAvailable && ".a-offscreen" in c.all {
      var g := FindFirst(c.all[".a-offscreen"], OffscreenRead());
      if g.Some? {
        price := "AED " + g.value;
        priceValue := ParseFloat(g.value);
      }
    }
  }

  // ----- Rating, reviews, delivery, stock, discount -----

  /** The element's stripped text, or its aria-label when the text is empty. */
  function RatingText(e: Elem): string {
    var t := Strip(e.text);
    if t != "" then t else Attr(e.attrs, "aria-label").GetOr("")
  }

  /** The first number in the rating text, if it lies in [0, 5], printed as `str(float)` prints it. */
  function RatingRead(c: Candidate): string -> Option<string> {
    selector =>
      match Find(c, selector)
      case None => None
      case Some(e) =>
        var rt := RatingText(e);
        match Search(rt, RatingNumber(rt))
        case None => None
        case Some(g) =>
          var v := ParseFloat(g);
          if v.Some? && 0.0 <= v.value <= 5.0 then Some(FloatRepr(g)) else None
  }

  function RatingOf(c: Candidate): Option<string> {
    FirstSome(RatingSelectors, RatingRead(c))
  }

  /** The aria-label when it is non-empty, the stripped text otherwise. */
  function ReviewText(e: Elem): string {
    var a := Attr(e.attrs, "aria-label");
    if TruthyText(a) then a.value else Strip(e.text)
  }

  function ReviewRead(c: Candidate): string -> Option<string> {
    selector =>
      match Find(c, selector)
      case None => None
      case Some(e) =>
        var rt := ReviewText(e);
        if Contains(Lower(rt), "rating") then Search(rt, ReviewCount(rt)) else None
  }

  function ReviewsOf(c: Candidate): Option<string> {
    FirstSome(ReviewSelectors, ReviewRead(c))
  }

  /** The stripped text of the element `selector` finds, when it is non-empty and `ok` accepts it. */
  function TextRead(c: Candidate, ok: string -> bool): string -> Option<string> {
    selector =>
      match ElemText(c, selector)
      case Some(t) => if t != "" && ok(t) then Some(t) else None
      case None => None
  }

  /** Delivery text: under 100 characters, mentioning delivery, tomorrow or prime. */
  predicate DeliveryText(t: string) {
    |t| < 100 && AnyIn(Lower(t), ["delivery", "tomorrow", "prime"])
  }

  /** Stock text: mentions "left" or "stock". */
  predicate StockText(t: string) {
    AnyIn(Lower(t), ["left", "stock"])
  }

  /** Discount text: mentions "off" or "%". */
  predicate DiscountText(t: string) {
    Contains(Lower(t), "off") || '%' in t
  }

  function DeliveryOk(): string -> bool {
    t => DeliveryText(t)
  }

  function AvailabilityOk(): string -> bool {
    t => StockText(t)
  }

  function DiscountOk(): string -> bool {
    t => DiscountText(t)
  }

  function DeliveryOf(c: Candidate): Option<string> {
    FirstSome(DeliverySelectors, TextRead(c, DeliveryOk()))
  }

  function AvailabilityOf(c: Candidate): Option<string> {
    FirstSome(AvailabilitySelectors, TextRead(c, AvailabilityOk()))
  }

  function DiscountOf(c: Candidate): Option<string> {
    FirstSome(DiscountSelectors, TextRead(c, DiscountOk()))
  }

  // ----- Links and images -----

  /** A product link: a non-empty href holding "/dp/", resolved against the site. */
  function LinkRead(c: Candidate, default: string): string -> Option<string> {
    selector =>
      match Find(c, selector)
      case None => None
      case Some(e) =>
        var href := Attr(e.attrs, "href");
        if TruthyText(href) && Contains(href.value, "/dp/") then Some(ResolveHref(Host, href.value, default)) else None
  }

  /** `src` or else `data-src`, when it is an http link that is not a "transparent" placeholder. */
  function ImageRead(c: Candidate): string -> Option<string> {
    selector =>
      match Find(c, selector)
      case None => None
      case Some(e) =>
        var src := OrText(Attr(e.attrs, "src"), Attr(e.attrs, "data-src"));
        if TruthyText(src) && StartsWith(src.value, "http") && !Contains(src.value, "transparent") then src else None
  }

  /** The first product link, or the search page when there is none. */
  function UrlOf(c: Candidate, term: string): string {
    FirstSome(LinkSelectors, LinkRead(c, SearchUrl(term))).GetOr(SearchUrl(term))
  }

  method ExtractUrl(c: Candidate, term: string) returns (url: string)
    ensures url == UrlOf(c, term)
  {
    url := SearchUrl(term);
    var link := FindFirst(LinkSelectors, LinkRead(c, url));
    if link.Some? {
      url := link.value;
    }
  }

  function ImageOf(c: Candidate): Option<string> {
    FirstSome(ImageSelectors, ImageRead(c))
  }

  // ----- The record -----

  /**
   * `extract_amazon_product_info`: None when the container's text cannot be
   * read or is shorter than 20 characters once stripped.
   */
  function ProductInfoOf(c: Candidate, term: string): Option<ProductInfo> {
    match c.text
    case None => None
    case Some(raw) =>
      var full := Strip(raw);
      if |full| < 20 then None
      else
        var price := PriceOf(c);
        Some(ProductInfo(TitleOf(c, full), price.shown, UrlOf(c, term), ImageOf(c), RatingOf(c), price.value,
          ReviewsOf(c), DeliveryOf(c), AvailabilityOf(c), DiscountOf(c)))
  }

  /** The selector loops of `extract_amazon_product_info`, run one after another. */
  method ExtractProductInfo(c: Candidate, term: string) returns (info: Option<ProductInfo>)
    ensures info == ProductInfoOf(c, term)
  {
    if c.text.None? {
      return None;
    }
    var full := Strip(c.text.value);
    if |full| < 20 {
      return None;
    }
    var title := ExtractTitle(c, full);
    var price, priceValue := ExtractPrice(c);
    var rating := FindFirst(RatingSelectors, RatingRead(c));
    var reviews := FindFirst(ReviewSelectors, ReviewRead(c));
    var delivery := FindFirst(DeliverySelectors, TextRead(c, DeliveryOk()));
    var availability := FindFirst(AvailabilitySelectors, TextRead(c, AvailabilityOk()));
    var discount := FindFirst(DiscountSelectors, TextRead(c, DiscountOk()));
    var url := ExtractUrl(c, term);
    var image := FindFirst(ImageSelectors, ImageRead(c));
    info := Some(ProductInfo(title, price, url, image, rating, priceValue, reviews, delivery, availability, discount));
  }
  // ----- Locating candidates -----

  /** Tier text: over 30 characters, mentioning "aed", "price" or the search term. */
  predicate TierText(t: string, term: string) {
    |t| > 30 && AnyIn(Lower(t), ["aed", "price", Lower(term)])
  }

  /** A tier element: its text can be read and, stripped, is tier text. */
  function TierOk(term: string): Candidate -> bool {
    (c: Candidate) => c.text.Some? && TierText(Strip(c.text.value), term)
  }


  /** The passing elements of a container selector, when there are any. */
  function TierPick(p: Page, term: string): string -> Option<seq<Candidate>> {
    FilteredPick(PageFind(p), TierOk(term))
  }

  /** Fallback text: 100 to 1500 characters, a product keyword or the term, and a digit. */
  predicate DivText(t: string, term: string) {
    100 < |t| < 1500 && AnyIn(Lower(t), ["aed", "delivery", "prime", "add to cart", Lower(term)]) && HasDigit(t)
  }

  /** A fallback `div`: its text can be read and, stripped, is fallback text. */
  function DivOk(term: string): Candidate -> bool {
    (c: Candidate) => c.text.Some? && DivText(Strip(c.text.value), term)
  }

  /** The candidate containers: the first selector tier that yields a passing element, else the `div` scan. */
  function Locate(p: Page, term: string): seq<Candidate> {
    match FirstSome(ProductSelectors, TierPick(p, term))
    case Some(valid) => valid
    case None => Take(Filter(p.divs, DivOk(term)), 10)
  }

  /** A robot check or captcha page. */
  predicate Blocked(p: Page) {
    Contains(Lower(p.title), "robot") || Contains(Lower(p.title), "captcha")
  }

  function Build(term: string): Candidate -> Option<ProductInfo> {
    c => ProductInfoOf(c, term)
  }

  function PriceValue(): ProductInfo -> Option<real> {
    (info: ProductInfo) => info.priceValue
  }

  /**
   * `search_item` once the page has loaded (`load` is None when loading
   * raised): the records of the first ten candidates that the budget admits.
   */
  function SearchResults(load: Option<Page>, item: SearchItem): (r: seq<ProductInfo>)
    ensures |r| <= 10
  {
    match load
    case None => []
    case Some(p) =>
      if Blocked(p) then []
      else Gate(Take(Locate(p, item.name), 10), Build(item.name), PriceValue(), item.maxPrice)
  }

  /** The container tiers, then the `div` fallback. */
  method LocateCandidates(p: Page, term: string) returns (potential: seq<Candidate>)
    ensures potential == Locate(p, term)
  {
    potential := FirstFilteredTier(ProductSelectors, PageFind(p), TierOk(term));
    if potential == [] {
      potential := ScanUpTo(p.divs, DivOk(term), 10);
    }
  }

  /** `search_item` past its early exits: locate the candidates, then build and gate the first ten. */
  method SearchPage(p: Page, item: SearchItem) returns (products: seq<ProductInfo>)
    ensures products == Gate(Take(Locate(p, item.name), 10), Build(item.name), PriceValue(), item.maxPrice)
  {
    var potential := LocateCandidates(p, item.name);
    products := GateLoop(Take(potential, 10), Build(item.name), PriceValue(), item.maxPrice);
  }

  method SearchItem(load: Option<Page>, item: SearchItem) returns (products: seq<ProductInfo>)
    ensures products == SearchResults(load, item)
  {
    products := [];
    if load.None? {
      return;
    }
    var p := load.value;
    if Contains(Lower(p.title), "robot") || Contains(Lower(p.title), "captcha") {
      return;
    }
    products := SearchPage(p, item);
  }

  // ----- Properties of the search -----

  /** A robot-check or captcha page yields no records. */
  lemma BlockedYieldsNothing(p: Page, item: SearchItem)
    requires Blocked(p)
    ensures SearchResults(Some(p), item) == []
  {
  }

  /** A page that failed to load yields no records. */
  lemma FailedLoadYieldsNothing(item: SearchItem)
    ensures SearchResults(None, item) == []
  {
  }

  /**
   * The first container selector that yields a passing element wins: the
   * candidates are exactly its passing elements, and each earlier selector
   * either raised or yielded none.
   */
  lemma TierWins(p: Page, term: string)
    requires FirstSome(ProductSelectors, TierPick(p, term)).Some?
    ensures exists i :: (0 <= i < |ProductSelectors| && FindOnPage(p, ProductSelectors[i]).Some?
      && Locate(p, term) == Filter(FindOnPage(p, ProductSelectors[i]).value, TierOk(term))
      && (forall j :: 0 <= j < i ==> TierPick(p, term)(ProductSelectors[j]).None?))
    ensures Locate(p, term) != []
    ensures forall c :: c in Locate(p, term) ==> TierOk(term)(c)
  {
    FilteredPickWins(ProductSelectors, PageFind(p), TierOk(term));
    var i :| 0 <= i < |ProductSelectors| && FindOnPage(p, ProductSelectors[i]).Some?
      && Locate(p, term) == Filter(FindOnPage(p, ProductSelectors[i]).value, TierOk(term));
    FilterSound(FindOnPage(p, ProductSelectors[i]).value, TierOk(term));
  }

  /**
   * The `div` scan runs only when no tier matched; each div it keeps has 100
   * to 1500 characters of readable text, a keyword and a digit, and it keeps
   * at most ten.
   */
  lemma FallbackScan(p: Page, term: string)
    requires FirstSome(ProductSelectors, TierPick(p, term)).None?
    ensures Locate(p, term) == Take(Filter(p.divs, DivOk(term)), 10)
    ensures |Locate(p, term)| <= 10
    ensures forall c :: c in Locate(p, term) ==> (c in p.divs && c.text.Some?
      && 100 < |Strip(c.text.value)| < 1500 && HasDigit(Strip(c.text.value)))
  {
    FilterSound(p.divs, DivOk(term));
    forall c | c in Locate(p, term)
      ensures c in p.divs && c.text.Some? && 100 < |Strip(c.text.value)| < 1500 && HasDigit(Strip(c.text.value))
    {
      assert c in Filter(p.divs, DivOk(term));
    }
  }

  /**
   * A record is reported exactly when it was built from one of the first ten
   * candidates and the budget test admits it; without a truthy ceiling every
   * built record is reported, and the budget check on a reported record is
   * never false.
   */
  lemma ReportedRecords(p: Page, item: SearchItem, x: ProductInfo)
    requires !Blocked(p)
    ensures x in SearchResults(Some(p), item) <==>
      Admit(item.maxPrice, x.priceValue)
      && x in Built(Take(Locate(p, item.name), 10), Build(item.name))
    ensures !Truthy(item.maxPrice) ==>
      SearchResults(Some(p), item) == Built(Take(Locate(p, item.name), 10), Build(item.name))
    ensures x in SearchResults(Some(p), item) ==> WithinBudget(x.priceValue, item.maxPrice) != Some(false)
  {
    var cs := Take(Locate(p, item.name), 10);
    assert SearchResults(Some(p), item) == Gate(cs, Build(item.name), PriceValue(), item.maxPrice);
    GateReport(cs, Build(item.name), PriceValue(), item.maxPrice, x);
  }

  // ----- Properties of the record fields -----

  /** Every title a selector reads is stripped text, so the loop's result is too. */
  lemma {:induction false} LastAssignedStripped(sels: seq<string>, v: string, c: Candidate)
    requires Stripped(v)
    ensures Stripped(LastAssigned(sels, v, TitleRead(c), LongTitle()))
    decreases |sels|
  {
    if sels != [] {
      match TitleRead(c)(sels[0])
      case None => LastAssignedStripped(sels[1..], v, c);
      case Some(w) => if !LongTitle()(w) { LastAssignedStripped(sels[1..], w, c); }
    }
  }

  /** A line the fallback picks is one of the non-blank lines. */
  lemma PickedLine(lines: seq<string>)
    requires FirstSome(lines, TitleLinePick()).Some?
    ensures FirstSome(lines, TitleLinePick()).value in lines
  {
    FirstSomeWins(lines, TitleLinePick());
    var k :| 0 <= k < |lines| && TitleLinePick()(lines[k]) == FirstSome(lines, TitleLinePick());
  }

  /** The raw title is never empty and never starts with whitespace. */
  lemma RawTitleLeads(c: Candidate, fullText: string)
    ensures var raw := RawTitle(c, fullText); raw != [] && !IsSpace(raw[0])
  {
    var t := LastAssigned(TitleSelectors, "", TitleRead(c), LongTitle());
    if t != "" {
      LastAssignedStripped(TitleSelectors, "", c);
    } else {
      FallbackLeads(fullText);
    }
  }

  /** The line fallback gives a non-empty title that does not start with whitespace. */
  lemma FallbackLeads(fullText: string)
    ensures var r := FirstSome(NonBlankLines(fullText), TitleLinePick()).GetOr(UnknownProduct);
      r != [] && !IsSpace(r[0])
  {
    var lines := NonBlankLines(fullText);
    var pick := FirstSome(lines, TitleLinePick());
    if pick.Some? {
      PickedLine(lines);
      var k :| 0 <= k < |lines| && lines[k] == pick.value;
      assert lines[k] != "" && Stripped(lines[k]);
    }
  }

  /** The title is never empty, is whitespace-collapsed and stripped, and has at most 153 characters. */
  lemma TitleShape(c: Candidate, fullText: string)
    ensures var t := TitleOf(c, fullText); t != "" && |t| <= 153 && Collapsed(t) && Stripped(t)
  {
    RawTitleLeads(c, fullText);
    CleanTitleNonEmpty(RawTitle(c, fullText), 150);
  }

  /**
   * The title is the first selector text over 10 characters when there is
   * one; otherwise the last text any title selector found; only when that is
   * empty does the line fallback decide.
   */
  lemma TitleChoice(c: Candidate, fullText: string)
    ensures var hit := FirstSome(TitleSelectors, StopHit(TitleRead(c), LongTitle()));
      var last := LastRead(TitleSelectors, "", TitleRead(c));
      RawTitle(c, fullText) ==
        if hit.Some? then hit.value
        else if last != "" then last
        else FirstSome(NonBlankLines(fullText), TitleLinePick()).GetOr(UnknownProduct)
  {
    LastAssignedIs(TitleSelectors, "", TitleRead(c), LongTitle());
    var hit := FirstSome(TitleSelectors, StopHit(TitleRead(c), LongTitle()));
    if hit.Some? {
      FirstSomeWins(TitleSelectors, StopHit(TitleRead(c), LongTitle()));
      var i :| 0 <= i < |TitleSelectors| && StopHit(TitleRead(c), LongTitle())(TitleSelectors[i]) == hit;
      assert |hit.value| > 10;
    }
  }

  /** A structured price reads back through `extract_numeric_price` as its comma-free decimal. */
  lemma StructuredPriceAgrees(c: Candidate)
    requires FirstSome(PriceSelectors, PriceRead(c)).Some?
    ensures var pt := FirstSome(PriceSelectors, PriceRead(c)).value;
      var v := ParseFloat(RemoveChar(pt, ','));
      v.Some? && ExtractNumericPrice("AED " + pt) == v
  {
    var pt := FirstSome(PriceSelectors, PriceRead(c)).value;
    FirstSomeWins(PriceSelectors, PriceRead(c));
    var i :| 0 <= i < |PriceSelectors| && PriceRead(c)(PriceSelectors[i]) == Some(pt);
    DecimalPriceText(pt);
  }

  lemma DecimalPriceText(pt: string)
    requires MatchesDecimal(RemoveChar(pt, ','))
    ensures ParseFloat(RemoveChar(pt, ',')).Some?
    ensures ExtractNumericPrice("AED " + pt) == ParseFloat(RemoveChar(pt, ','))
  {
    var u := RemoveChar(pt, ',');
    MatchesDecimalParses(u);
    assert ExtractNumericPrice("AED " + pt) == ParseFloat(u) by {
      AedLabelValue(pt);
    }
  }

  /** A screen-reader amount has no comma, so it reads back through `extract_numeric_price` unchanged. */
  lemma OffscreenPriceAgrees(c: Candidate)
    requires OffscreenPrice(c).Some?
    ensures var g := OffscreenPrice(c).value;
      IsDecimalNumber(g) && ParseFloat(g).Some? && ExtractNumericPrice("AED " + g) == ParseFloat(g)
  {
    var g := OffscreenPrice(c).value;
    var es := c.all[".a-offscreen"];
    FirstSomeWins(es, OffscreenRead());
    var i :| 0 <= i < |es| && OffscreenRead()(es[i]) == Some(g);
    var t := Lower(Strip(es[i].text));
    SearchLeftmost(t, Offscreen(t));
    DecimalNumberParses(g);
    RemoveAbsent(g, ',');
    ParseFloatPlain(g);
    AedLabelValue(g);
  }

  /**
   * The price label and the price value agree: `extract_numeric_price(price)`
   * gives back `price_value`, which is present exactly when a price was found
   * and is never negative.
   */
  lemma PriceAgrees(c: Candidate)
    ensures ExtractNumericPrice(PriceOf(c).shown) == PriceOf(c).value
    ensures PriceOf(c).value.Some? <==> PriceOf(c).shown != PriceNotAvailable
    ensures PriceOf(c).value.Some? ==> PriceOf(c).value.value >= 0.0
  {
    assert ("AED " + [])[0] != PriceNotAvailable[0];
    if FirstSome(PriceSelectors, PriceRead(c)).Some? {
      StructuredPriceAgrees(c);
    } else if OffscreenPrice(c).Some? {
      OffscreenPriceAgrees(c);
    } else {
      NoDigitInPlaceholder();
    }
  }

  /** A rating a selector accepts reads back through `float()` as a number in [0, 5]. */
  lemma RatingReadInRange(c: Candidate, selector: string)
    requires RatingRead(c)(selector).Some?
    ensures var v := ParseFloat(RatingRead(c)(selector).value); v.Some? && 0.0 <= v.value <= 5.0
  {
    var e := Find(c, selector).value;
    var rt := RatingText(e);
    var g := Search(rt, RatingNumber(rt)).value;
    SearchLeftmost(rt, RatingNumber(rt));
    RatingNumberParses(g);
    FloatReprRoundTrip(g);
  }

  /** The reported rating, read back through `float()`, lies in [0, 5]. */
  lemma RatingInRange(c: Candidate)
    requires RatingOf(c).Some?
    ensures var v := ParseFloat(RatingOf(c).value); v.Some? && 0.0 <= v.value <= 5.0
  {
    var i :| 0 <= i < |RatingSelectors| && RatingRead(c)(RatingSelectors[i]) == RatingOf(c);
    RatingReadInRange(c, RatingSelectors[i]);
  }

  /** The record URL is an http link: the search page, or a link to a "/dp/" product page. */
  lemma UrlShape(c: Candidate, term: string)
    ensures var u := UrlOf(c, term); StartsWith(u, "http") && (u == SearchUrl(term) || Contains(u, "/dp/"))
  {
    var d := SearchUrl(term);
    StartsWithAppend(SearchBase, QuotePlus(term), "http");
    var link := FirstSome(LinkSelectors, LinkRead(c, d));
    if link.Some? {
      var i :| 0 <= i < |LinkSelectors| && LinkRead(c, d)(LinkSelectors[i]) == link;
      LinkReadShape(c, d, LinkSelectors[i]);
    }
  }

  /** A link read by one selector is an http link to a "/dp/" page, or the default when that is one. */
  lemma LinkReadShape(c: Candidate, d: string, selector: string)
    requires StartsWith(d, "http") && LinkRead(c, d)(selector).Some?
    ensures var u := LinkRead(c, d)(selector).value; StartsWith(u, "http") && (u == d || Contains(u, "/dp/"))
  {
    var href := Attr(Find(c, selector).value.attrs, "href").value;
    if StartsWith(href, "/") {
      ContainsAppend(Host, href, "/dp/");
      StartsWithAppend(Host, href, "http");
    }
  }

  /** An image URL is an http link that is not a "transparent" placeholder. */
  lemma ImageShape(c: Candidate)
    requires ImageOf(c).Some?
    ensures StartsWith(ImageOf(c).value, "http") && !Contains(ImageOf(c).value, "transparent")
  {
    var i :| 0 <= i < |ImageSelectors| && ImageRead(c)(ImageSelectors[i]) == ImageOf(c);
  }

  /** Delivery text is non-empty, under 100 characters, and mentions delivery, tomorrow or prime. */
  lemma DeliveryShape(c: Candidate)
    requires DeliveryOf(c).Some?
    ensures DeliveryOf(c).value != "" && DeliveryText(DeliveryOf(c).value)
  {
    var i :| 0 <= i < |DeliverySelectors| && TextRead(c, DeliveryOk())(DeliverySelectors[i]) == DeliveryOf(c);
  }

  /** Stock text is non-empty and mentions "left" or "stock". */
  lemma AvailabilityShape(c: Candidate)
    requires AvailabilityOf(c).Some?
    ensures AvailabilityOf(c).value != "" && StockText(AvailabilityOf(c).value)
  {
    var i :| 0 <= i < |AvailabilitySelectors| && TextRead(c, AvailabilityOk())(AvailabilitySelectors[i]) == AvailabilityOf(c);
  }

  /** Discount text is non-empty and mentions "off" or "%". */
  lemma DiscountShape(c: Candidate)
    requires DiscountOf(c).Some?
    ensures DiscountOf(c).value != "" && DiscountText(DiscountOf(c).value)
  {
    var i :| 0 <= i < |DiscountSelectors| && TextRead(c, DiscountOk())(DiscountSelectors[i]) == DiscountOf(c);
  }
}
