/**
 * The Namshi scraper (simple_namshi_scraper.py): how a results page is
 * turned into candidate containers, how each container becomes a
 * `ProductInfo` with a brand-qualified title and a decorated price, and
 * which records the budget gate lets through.
 */
module Namshi {
  import opened Wrappers
  import opened Text
  import opened Decimal
  import opened Dom
  import opened Cascade
  import opened Records
  import opened Patterns
  import opened Urls

  /** One product as the scraper reports it; `rating` is always None. */
  datatype ProductInfo = ProductInfo(
    title: string,
    price: string,
    url: string,
    imageUrl: Option<string>,
    rating: Option<string>,
    priceValue: Option<real>,
    brand: Option<string>,
    discount: Option<string>,
    deliveryInfo: Option<string>)

  const Host := "https://www.namshi.com"

  /** The search page's address, up to the query. */
  const SearchBase := Host + "/uae-en/search?q="

  /** The record URL used when no product link is found: the search page for the quoted term. */
  function SearchUrl(term: string): (u: string)
    ensures StartsWith(u, SearchBase) && u[|SearchBase|..] == QuotePlus(term)
  {
    Joined(SearchBase, QuotePlus(term));
    SearchBase + QuotePlus(term)
  }

  const ProductSelectors: seq<string> := [
    ".ProductBox_detailsContainer__LX4rf", "[class*='ProductBox_detailsContainer']", "[class*='ProductBox']",
    "[data-testid*='product']", ".product-card", ".product-item"]
  const BrandSelectors: seq<string> := [".ProductBox_brand__oDc9f", "[class*='ProductBox_brand']", "[class*='brand']"]
  const TitleSelectors: seq<string> := [
    ".ProductBox_productTitle__6tQ3b", "[class*='ProductBox_productTitle']", "[class*='productTitle']",
    "[title]", "h2", "h3", "h4"]
  const PriceSelectors: seq<string> := [
    ".ProductPrice_value__hnFSS", ".ProductPrice_sellingPrice__y8kib .ProductPrice_value__hnFSS",
    "[class*='ProductPrice_value']", "[class*='sellingPrice'] [class*='value']", "[class*='price'] [class*='value']"]
  const OldPriceSelectors: seq<string> := [
    ".ProductPrice_preReductionPrice__S72wT", "[class*='ProductPrice_oldPrice']", "[class*='preReductionPrice']",
    "[class*='oldPrice']"]
  const DiscountSelectors: seq<string> := [".DiscountTag_value__D52x5", "[class*='DiscountTag_value']", "[class*='discount']"]
  const DeliverySelectors: seq<string> := [
    ".RotatingElements_container__cS80Q", ".DeliveryEstimateTag_content__2EErl", "[class*='delivery']",
    "[class*='DeliveryEstimate']"]
  const LinkSelectors: seq<string> := ["a[href*='/buy/']", "a[href*='/uae-en/']", "a"]
  const ImageSelectors: seq<string> := [
    "img[src*='namshi']", "img[src*='cloudfront']", "img:not([src*='placeholder']):not([src*='icon'])"]

  /** The stripped text of the element a selector finds inside `c`. */
  function ElemText(c: Candidate, selector: string): Option<string> {
    match Find(c, selector)
    case Some(e) => Some(Strip(e.text))
    case None => None
  }

  // ----- Brand and title -----

  /** A brand read: the element's stripped text (the value assigned to `brand`). */
  function BrandRead(c: Candidate): string -> Option<Option<string>> {
    selector =>
      match ElemText(c, selector)
      case Some(t) => Some(Some(t))
      case None => None
  }

  /** The brand loop stops at a brand longer than one character. */
  function LongBrand(): Option<string> -> bool {
    (b: Option<string>) => b.Some? && |b.value| > 1
  }

  /** The brand: assign, then test; None when no brand selector finds anything. */
  function BrandOf(c: Candidate): Option<string> {
    LastAssigned(BrandSelectors, None, BrandRead(c), LongBrand())
  }

  /** `text.strip() or get_attribute("title")`, with an absent attribute read as "". */
  function TitleText(e: Elem): string {
    var t := Strip(e.text);
    if t != "" then t else Attr(e.attrs, "title").GetOr("")
  }

  function TitleRead(c: Candidate): string -> Option<string> {
    selector =>
      match Find(c, selector)
      case Some(e) => Some(TitleText(e))
      case None => None
  }

  function LongTitle(): string -> bool {
    t => |t| > 5
  }

  /** A text line that can stand for the title. */
  predicate TitleLine(line: string) {
    5 < |line| < 100 && !NumericLine(line) && '%' !in line
    && !AnyIn(Lower(line), ["aed", "delivery", "free"])
  }

  function TitleLinePick(): string -> Option<string> {
    line => if TitleLine(line) then Some(line) else None
  }

  /** The title before merging: selectors (assign, then test), then the text lines, else "". */
  function RawTitle(c: Candidate, fullText: string): string {
    var t := LastAssigned(TitleSelectors, "", TitleRead(c), LongTitle());
    if t != "" then t else FirstSome(NonBlankLines(fullText), TitleLinePick()).GetOr("")
  }

  /**
   * Brand and title combined: "brand title" when both are present and the
   * title does not already mention the brand, the brand alone when there is
   * no title, and "Unknown Product" when there is neither.
   */
  function Merge(brand: Option<string>, title: string): (r: string)
    ensures r != ""
    ensures title != "" ==> Contains(r, title)
    ensures TruthyText(brand) ==> Contains(Lower(r), Lower(brand.value))
  {
    if TruthyText(brand) && title != "" && !Contains(Lower(title), Lower(brand.value)) then
      LowerAppend(brand.value, " " + title);
      ContainsPrefix(Lower(brand.value), Lower(" " + title));
      ContainsPrefix(title, []);
      assert title + [] == title;
      ContainsAppend(brand.value + " ", title, title);
      assert brand.value + " " + title == (brand.value + " ") + title;
      brand.value + " " + title
    else if title == "" && TruthyText(brand) then
      ContainsPrefix(Lower(brand.value), []);
      assert Lower(brand.value) + [] == Lower(brand.value);
      brand.value
    else if title == "" then UnknownProduct
    else
      ContainsPrefix(title, []);
      assert title + [] == title;
      title
  }

  /** The record's title: brand and title merged, whitespace collapsed, cut at 100 characters. */
  function TitleOf(c: Candidate, fullText: string): string {
    CleanTitle(Merge(BrandOf(c), RawTitle(c, fullText)), 100)
  }

  method ExtractBrand(c: Candidate) returns (brand: Option<string>)
    ensures brand == BrandOf(c)
  {
    brand := AssignUntil(BrandSelectors, None, BrandRead(c), LongBrand());
  }

  method ExtractTitle(c: Candidate, fullText: string, brand: Option<string>) returns (title: string)
    requires brand == BrandOf(c)
    ensures title == TitleOf(c, fullText)
  {
    title := AssignUntil(TitleSelectors, "", TitleRead(c), LongTitle());
    if title == "" {
      var line := FindFirst(NonBlankLines(fullText), TitleLinePick());
      title := line.GetOr("");
    }
    if TruthyText(brand) && title != "" && !Contains(Lower(title), Lower(brand.value)) {
      title := brand.value + " " + title;
    } else if title == "" && TruthyText(brand) {
      title := brand.value;
    } else if title == "" {
      title := UnknownProduct;
    }
    title := CleanTitle(title, 100);
  }

  // ----- Price -----

  /** Stripped element text that `^\d+(\.\d+)?$` accepts. */
  function DecimalRead(c: Candidate): string -> Option<string> {
    selector =>
      match ElemText(c, selector)
      case Some(t) => if t != "" && MatchesDecimal(t) then Some(t) else None
      case None => None
  }

  /** The three price patterns, in the order they are tried. */
  function PricePatterns(t: string): seq<int -> Option<string>> {
    [NamshiLead(t), NamshiTrail(t), NamshiBefore(t)]
  }

  /** A pattern's first match in `t`, accepted when its digits form a number over 10. */
  function PatternRead(t: string): (int -> Option<string>) -> Option<string> {
    (at: int -> Option<string>) =>
      match Search(t, at)
      case None => None
      case Some(g) =>
        var v := ParseFloat(g);
        if IsDigits(RemoveChar(g, '.')) && v.Some? && v.value > 10.0 then Some(g) else None
  }

  /** A standalone number from 50 to 5000. */
  function InRange(): string -> Option<string> {
    (num: string) => if AllDigits(num) && 50 <= DigitsValue(num) <= 5000 then Some(num) else None
  }

  /** A line's `\b(\d{2,4})\b` matches. */
  function LineNumbers(): string -> seq<string> {
    (line: string) => NamshiNumbers(line, 0)
  }

  /** The first number in range among a line's matches. */
  function LinePick(): string -> Option<string> {
    NestedPick(LineNumbers(), InRange())
  }

  /**
   * The selling price: a structured decimal, else the first of the three
   * patterns giving a number over 10, else the first standalone number from
   * 50 to 5000 scanning line by line, else "Price not available".
   */
  function PriceOf(c: Candidate, fullText: string): LabelledPrice {
    match FirstSome(PriceSelectors, DecimalRead(c))
    case Some(pt) => LabelledPrice("AED " + pt, ParseFloat(pt))
    case None => TextPrice(fullText)
  }

  /** The price read from the container's text when no structured price matched. */
  function TextPrice(fullText: string): LabelledPrice {
    match FirstSome(PricePatterns(fullText), PatternRead(fullText))
    case Some(g) => LabelledPrice("AED " + g, ParseFloat(g))
    case None =>
      match FirstSome(Split(fullText, '\n'), LinePick())
      case Some(num) => LabelledPrice("AED " + num, ParseFloat(num))
      case None => LabelledPrice(PriceNotAvailable, None)
  }

  method ExtractPrice(c: Candidate, fullText: string) returns (price: string, priceValue: Option<real>)
    ensures LabelledPrice(price, priceValue) == PriceOf(c, fullText)
  {
    price := PriceNotAvailable;
    priceValue := None;
    var pt := FindFirst(PriceSelectors, DecimalRead(c));
    if pt.Some? {
      price := "AED " + pt.value;
      priceValue := ParseFloat(pt.value);
    }
    assert ("AED " + [])[0] != PriceNotAvailable[0];
    if price == PriceNotAvailable {
      price, priceValue := ExtractTextPrice(fullText);
    }
  }

  /** The pattern loop, then the nested scan of lines and numbers when no pattern price was accepted. */
  method ExtractTextPrice(fullText: string) returns (price: string, priceValue: Option<real>)
    ensures LabelledPrice(price, priceValue) == TextPrice(fullText)
  {
    price := PriceNotAvailable;
    priceValue := None;
    var g := FindFirst(PricePatterns(fullText), PatternRead(fullText));
    if g.Some? {
      price := "AED " + g.value;
      priceValue := ParseFloat(g.value);
    }
    assert ("AED " + [])[0] != PriceNotAvailable[0];
    if price == PriceNotAvailable {
      var num := FindNested(Split(fullText, '\n'), LineNumbers(), InRange());
      if num.Some? {
        price := "AED " + num.value;
        priceValue := ParseFloat(num.value);
      }
    }
  }

  /** The price before the discount, labelled "AED ...". */
  function OldPriceOf(c: Candidate): Option<string> {
    match FirstSome(OldPriceSelectors, DecimalRead(c))
    case Some(t) => Some("AED " + t)
    case None => None
  }

  /** The stripped text of the element `selector` finds, when it is non-empty and `ok` accepts it. */
  function TextRead(c: Candidate, ok: string -> bool): string -> Option<string> {
    selector =>
      match ElemText(c, selector)
      case Some(t) => if t != "" && ok(t) then Some(t) else None
      case None => None
  }

  function DiscountOk(): string -> bool {
    t => '%' in t
  }

  function DeliveryOk(): string -> bool {
    t => |t| < 50
  }

  function DiscountOf(c: Candidate): Option<string> {
    FirstSome(DiscountSelectors, TextRead(c, DiscountOk()))
  }

  function DeliveryOf(c: Candidate): Option<string> {
    FirstSome(DeliverySelectors, TextRead(c, DeliveryOk()))
  }

  /**
   * The displayed price with the old price and the discount appended:
   * "(was O, D off)", "(was O)" or "(D off)" after the selling price.
   */
  function Decorate(price: string, oldPrice: Option<string>, discount: Option<string>): (r: string)
    ensures StartsWith(r, price)
    ensures r == price <==> !TruthyText(oldPrice) && !TruthyText(discount)
  {
    var tail :=
      if TruthyText(oldPrice) && TruthyText(discount) then " (was " + oldPrice.value + ", " + discount.value + " off)"
      else if TruthyText(oldPrice) then " (was " + oldPrice.value + ")"
      else if TruthyText(discount) then " (" + discount.value + " off)"
      else "";
    assert (price + tail)[..|price|] == price;
    assert |price + tail| == |price| + |tail|;
    price + tail
  }

  // ----- Links and images -----

  /** The first link holding "/buy/" or "/uae-en/": resolved against the site, or the default when it is neither relative nor http. */
  function LinkRead(c: Candidate, default: string): string -> Option<string> {
    selector =>
      match Find(c, selector)
      case None => None
      case Some(e) =>
        var href := Attr(e.attrs, "href");
        if TruthyText(href) && (Contains(href.value, "/buy/") || Contains(href.value, "/uae-en/")) then
          Some(ResolveHref(Host, href.value, default))
        else None
  }

  function UrlOf(c: Candidate, term: string): string {
    FirstSome(LinkSelectors, LinkRead(c, SearchUrl(term))).GetOr(SearchUrl(term))
  }

  method ExtractUrl(c: Candidate, term: string) returns (url: string)
    ensures url == UrlOf(c, term)
  {
    url := SearchUrl(term);
    var link := FindFirst(LinkSelectors, LinkRead(c, url));
    if link.Some? {
      url := link.value;
    }
  }

  /** `src`, when it is an http link that is not a placeholder. */
  function ImageRead(c: Candidate): string -> Option<string> {
    selector =>
      match Find(c, selector)
      case None => None
      case Some(e) =>
        var src := Attr(e.attrs, "src");
        if TruthyText(src) && StartsWith(src.value, "http") && !Contains(src.value, "placeholder") then src else None
  }

  function ImageOf(c: Candidate): Option<string> {
    FirstSome(ImageSelectors, ImageRead(c))
  }

  // ----- The record -----

  /**
   * `extract_namshi_product_info`: None when the container's text cannot be
   * read or is shorter than 10 characters once stripped.
   */
  function ProductInfoOf(c: Candidate, term: string): Option<ProductInfo> {
    match c.text
    case None => None
    case Some(raw) =>
      var full := Strip(raw);
      if |full| < 10 then None
      else
        var price := PriceOf(c, full);
        var discount := DiscountOf(c);
        Some(ProductInfo(TitleOf(c, full), Decorate(price.shown, OldPriceOf(c), discount), UrlOf(c, term),
          ImageOf(c), None, price.value, BrandOf(c), discount, DeliveryOf(c)))
  }

  /** The price loops, the old-price and discount loops, then the decoration of the price label. */
  method ExtractLabel(c: Candidate, fullText: string) returns (price: string, priceValue: Option<real>, discount: Option<string>)
    ensures price == Decorate(PriceOf(c, fullText).shown, OldPriceOf(c), DiscountOf(c))
    ensures priceValue == PriceOf(c, fullText).value && discount == DiscountOf(c)
  {
    price, priceValue := ExtractPrice(c, fullText);
    var oldPrice := FindFirst(OldPriceSelectors, DecimalRead(c));
    var oldLabel := if oldPrice.Some? then Some("AED " + oldPrice.value) else None;
    discount := FindFirst(DiscountSelectors, TextRead(c, DiscountOk()));
    var tail := "";
    if TruthyText(oldLabel) && TruthyText(discount) {
      tail := " (was " + oldLabel.value + ", " + discount.value + " off)";
    } else if TruthyText(oldLabel) {
      tail := " (was " + oldLabel.value + ")";
    } else if TruthyText(discount) {
      tail := " (" + discount.value + " off)";
    }
    price := price + tail;
  }

  /** The selector loops of `extract_namshi_product_info`, run one after another. */
  method ExtractProductInfo(c: Candidate, term: string) returns (info: Option<ProductInfo>)
    ensures info == ProductInfoOf(c, term)
  {
    if c.text.None? {
      return None;
    }
    var full := Strip(c.text.value);
    if |full| < 10 {
      return None;
    }
    var brand := ExtractBrand(c);
    var title := ExtractTitle(c, full, brand);
    var price, priceValue, discount := ExtractLabel(c, full);
    var delivery := FindFirst(DeliverySelectors, TextRead(c, DeliveryOk()));
    var url := ExtractUrl(c, term);
    var image := FindFirst(ImageSelectors, ImageRead(c));
    info := Some(ProductInfo(title, price, url, image, None, priceValue, brand, discount, delivery));
  }

  // ----- Locating candidates -----

  /** The elements of a container selector, when it finds any. */
  function TierPick(p: Page): string -> Option<seq<Candidate>> {
    NonEmptyPick(PageFind(p))
  }

  /** Fallback text: 50 to 800 characters, a product keyword or the term, and a digit. */
  predicate DivText(t: string, term: string) {
    50 < |t| < 800 && AnyIn(Lower(t), ["aed", "delivery", "free", "discount", Lower(term)]) && HasDigit(t)
  }

  function DivOk(term: string): Candidate -> bool {
    (c: Candidate) => c.text.Some? && DivText(Strip(c.text.value), term)
  }

  /** The candidate containers: every element of the first selector that finds any, else the `div` scan. */
  function Locate(p: Page, term: string): seq<Candidate> {
    match FirstSome(ProductSelectors, TierPick(p))
    case Some(es) => es
    case None => Take(Filter(p.divs, DivOk(term)), 10)
  }

  /** A browser error page. */
  predicate ErrorPage(p: Page) {
    Contains(Lower(p.title), "can't be reached") || Contains(Lower(p.title), "error")
  }

  function Build(term: string): Candidate -> Option<ProductInfo> {
    c => ProductInfoOf(c, term)
  }

  function PriceValue(): ProductInfo -> Option<real> {
    (info: ProductInfo) => info.priceValue
  }

  /**
   * `search_item` once the page has loaded (`load` is None when loading
   * raised): the records of the first ten candidates that the budget admits.
   */
  function SearchResults(load: Option<Page>, item: SearchItem): (r: seq<ProductInfo>)
    ensures |r| <= 10
  {
    match load
    case None => []
    case Some(p) =>
      if ErrorPage(p) then []
      else Gate(Take(Locate(p, item.name), 10), Build(item.name), PriceValue(), item.maxPrice)
  }

  method LocateCandidates(p: Page, term: string) returns (potential: seq<Candidate>)
    ensures potential == Locate(p, term)
  {
    var tier := FindFirst(ProductSelectors, TierPick(p));
    potential := tier.GetOr([]);
    if potential == [] {
      potential := ScanUpTo(p.divs, DivOk(term), 10);
    }
  }

  /** `search_item` past its early exits: locate the candidates, then build and gate the first ten. */
  method SearchPage(p: Page, item: SearchItem) returns (products: seq<ProductInfo>)
    ensures products == Gate(Take(Locate(p, item.name), 10), Build(item.name), PriceValue(), item.maxPrice)
  {
    var potential := LocateCandidates(p, item.name);
    products := GateLoop(Take(potential, 10), Build(item.name), PriceValue(), item.maxPrice);
  }

  method SearchItem(load: Option<Page>, item: SearchItem) returns (products: seq<ProductInfo>)
    ensures products == SearchResults(load, item)
  {
    products := [];
    if load.None? {
      return;
    }
    var p := load.value;
    if Contains(Lower(p.title), "can't be reached") || Contains(Lower(p.title), "error") {
      return;
    }
    products := SearchPage(p, item);
  }

  // ----- Properties of the search -----

  /** A browser error page yields no records. */
  lemma ErrorPageYieldsNothing(p: Page, item: SearchItem)
    requires ErrorPage(p)
    ensures SearchResults(Some(p), item) == []
  {
  }

  /** A page that failed to load yields no records. */
  lemma FailedLoadYieldsNothing(item: SearchItem)
    ensures SearchResults(None, item) == []
  {
  }

  /**
   * The first container selector that finds any element wins, with no text
   * filter: the candidates are all of its elements, and each earlier
   * selector raised or found nothing.
   */
  lemma TierWins(p: Page, term: string)
    requires FirstSome(ProductSelectors, TierPick(p)).Some?
    ensures exists i :: (0 <= i < |ProductSelectors| && FindOnPage(p, ProductSelectors[i]) == Some(Locate(p, term))
      && (forall j :: 0 <= j < i ==> FindOnPage(p, ProductSelectors[j]).None? || FindOnPage(p, ProductSelectors[j]).value == []))
    ensures Locate(p, term) != []
  {
    NonEmptyPickWins(ProductSelectors, PageFind(p));
  }

  /**
   * The `div` scan runs only when no selector found anything; each div it
   * keeps has 50 to 800 characters of readable text, a keyword and a digit,
   * and it keeps at most ten.
   */
  lemma FallbackScan(p: Page, term: string)
    requires FirstSome(ProductSelectors, TierPick(p)).None?
    ensures Locate(p, term) == Take(Filter(p.divs, DivOk(term)), 10)
    ensures |Locate(p, term)| <= 10
    ensures forall c :: c in Locate(p, term) ==> (c in p.divs && c.text.Some?
      && 50 < |Strip(c.text.value)| < 800 && HasDigit(Strip(c.text.value)))
  {
    FilterSound(p.divs, DivOk(term));
    forall c | c in Locate(p, term)
      ensures c in p.divs && c.text.Some? && 50 < |Strip(c.text.value)| < 800 && HasDigit(Strip(c.text.value))
    {
      assert c in Filter(p.divs, DivOk(term));
    }
  }

  /**
   * A record is reported exactly when it was built from one of the first ten
   * candidates and the budget test admits it; without a truthy ceiling every
   * built record is reported, and the budget check on a reported record is
   * never false.
   */
  lemma ReportedRecords(p: Page, item: SearchItem, x: ProductInfo)
    requires !ErrorPage(p)
    ensures x in SearchResults(Some(p), item) <==>
      Admit(item.maxPrice, x.priceValue)
      && x in Built(Take(Locate(p, item.name), 10), Build(item.name))
    ensures !Truthy(item.maxPrice) ==>
      SearchResults(Some(p), item) == Built(Take(Locate(p, item.name), 10), Build(item.name))
    ensures x in SearchResults(Some(p), item) ==> WithinBudget(x.priceValue, item.maxPrice) != Some(false)
  {
    var cs := Take(Locate(p, item.name), 10);
    assert SearchResults(Some(p), item) == Gate(cs, Build(item.name), PriceValue(), item.maxPrice);
    GateReport(cs, Build(item.name), PriceValue(), item.maxPrice, x);
  }

  // ----- Properties of the brand and the title -----

  /**
   * The brand is the first brand text longer than one character when there
   * is one; otherwise the last text any brand selector found, or None.
   */
  lemma BrandChoice(c: Candidate)
    ensures var hit := FirstSome(BrandSelectors, StopHit(BrandRead(c), LongBrand()));
      BrandOf(c) == if hit.Some? then hit.value else LastRead(BrandSelectors, None, BrandRead(c))
  {
    LastAssignedIs(BrandSelectors, None, BrandRead(c), LongBrand());
  }

  /**
   * The raw title is the first selector text over 5 characters when there is
   * one; otherwise the last text any title selector found; only when that is
   * empty does the line fallback decide.
   */
  lemma TitleChoice(c: Candidate, fullText: string)
    ensures var hit := FirstSome(TitleSelectors, StopHit(TitleRead(c), LongTitle()));
      var last := LastRead(TitleSelectors, "", TitleRead(c));
      RawTitle(c, fullText) ==
        if hit.Some? then hit.value
        else if last != "" then last
        else FirstSome(NonBlankLines(fullText), TitleLinePick()).GetOr("")
  {
    LastAssignedIs(TitleSelectors, "", TitleRead(c), LongTitle());
    var hit := FirstSome(TitleSelectors, StopHit(TitleRead(c), LongTitle()));
    if hit.Some? {
      FirstSomeWins(TitleSelectors, StopHit(TitleRead(c), LongTitle()));
      var i :| 0 <= i < |TitleSelectors| && StopHit(TitleRead(c), LongTitle())(TitleSelectors[i]) == hit;
      assert |hit.value| > 5;
    }
  }

  /**
   * The brand is put in front of the title exactly when both are present and
   * the title does not mention it; with no title the brand stands alone, and
   * with neither the title is "Unknown Product".
   */
  lemma MergeCases(brand: Option<string>, title: string)
    ensures TruthyText(brand) && title != "" && !Contains(Lower(title), Lower(brand.value)) ==>
      Merge(brand, title) == brand.value + " " + title
    ensures TruthyText(brand) && title != "" && Contains(Lower(title), Lower(brand.value)) ==> Merge(brand, title) == title
    ensures !TruthyText(brand) && title != "" ==> Merge(brand, title) == title
    ensures title == "" ==> Merge(brand, title) == if TruthyText(brand) then brand.value else UnknownProduct
  {
  }

  /** The title is whitespace-collapsed and stripped, and has at most 103 characters. */
  lemma TitleShape(c: Candidate, fullText: string)
    ensures var t := TitleOf(c, fullText); |t| <= 103 && Collapsed(t) && Stripped(t)
  {
  }

  // ----- Properties of the price -----

  /** A label "AED " + t whose t `^\d+(\.\d+)?$` accepts reads back through `extract_numeric_price` as `float(t)`. */
  lemma DecimalLabel(t: string)
    requires MatchesDecimal(t)
    ensures ParseFloat(t).Some? && ExtractNumericPrice("AED " + t) == ParseFloat(t)
  {
    MatchesDecimalParses(t);
    RemoveAbsent(t, ',');
    assert ExtractNumericPrice("AED " + t) == ParseFloat(t) by {
      AedLabelValue(t);
    }
  }

  /** A pattern price is a decimal number over 10. */
  lemma PatternPriceShape(fullText: string)
    requires FirstSome(PricePatterns(fullText), PatternRead(fullText)).Some?
    ensures var g := FirstSome(PricePatterns(fullText), PatternRead(fullText)).value;
      IsDecimalNumber(g) && ParseFloat(g).Some? && ParseFloat(g).value > 10.0
  {
    var pats := PricePatterns(fullText);
    var g := FirstSome(pats, PatternRead(fullText)).value;
    FirstSomeWins(pats, PatternRead(fullText));
    var k :| 0 <= k < |pats| && PatternRead(fullText)(pats[k]) == Some(g);
    PatternReadShape(fullText, pats[k], g);
    PatternMatchShape(fullText, k, g);
  }

  /** An accepted pattern match is the pattern's leftmost match and reads as a number over 10. */
  lemma PatternReadShape(t: string, at: int -> Option<string>, g: string)
    requires PatternRead(t)(at) == Some(g)
    ensures Search(t, at) == Some(g) && ParseFloat(g).Some? && ParseFloat(g).value > 10.0
  {
  }

  /** Whatever one of the three patterns captures is a decimal number. */
  lemma PatternMatchShape(t: string, k: nat, g: string)
    requires k < 3 && Search(t, PricePatterns(t)[k]) == Some(g)
    ensures IsDecimalNumber(g)
  {
    var at := PricePatterns(t)[k];
    SearchLeftmost(t, at);
    var i :| 0 <= i <= |t| && at(i) == Some(g);
    if k == 0 {
      assert NamshiLeadAt(t, i) == Some(g);
    } else if k == 1 {
      assert NamshiTrailAt(t, i) == Some(g);
    } else {
      assert NamshiBeforeAt(t, i) == Some(g);
    }
  }

  /** A standalone price is a run of 2 to 4 digits whose value lies in [50, 5000]. */
  lemma StandalonePriceShape(fullText: string)
    requires FirstSome(Split(fullText, '\n'), LinePick()).Some?
    ensures var num := FirstSome(Split(fullText, '\n'), LinePick()).value;
      IsDigits(num) && 2 <= |num| <= 4 && 50 <= DigitsValue(num) <= 5000
      && ParseFloat(num) == Some(DigitsValue(num) as real)
  {
    var lines := Split(fullText, '\n');
    var num := FirstSome(lines, LinePick()).value;
    FirstSomeWins(lines, LinePick());
    var k :| 0 <= k < |lines| && LinePick()(lines[k]) == Some(num);
    LinePickShape(lines[k], num);
    ParseFloatDigits(num);
  }

  /** What a line gives up as a standalone price. */
  lemma LinePickShape(line: string, num: string)
    requires LinePick()(line) == Some(num)
    ensures IsDigits(num) && 2 <= |num| <= 4 && 50 <= DigitsValue(num) <= 5000
  {
    var nums := NamshiNumbers(line, 0);
    assert FirstSome(nums, InRange()) == Some(num);
    FirstSomeWins(nums, InRange());
    var j :| 0 <= j < |nums| && InRange()(nums[j]) == Some(num);
    assert num == nums[j];
  }

  /** A run of digits labelled "AED " reads back through `extract_numeric_price` as its value. */
  lemma DigitsLabel(num: string)
    requires IsDigits(num)
    ensures ExtractNumericPrice("AED " + num) == ParseFloat(num)
  {
    assert AllDigitOrDot(num);
    RemoveAbsent(num, ',');
    AedLabelValue(num);
  }

  /**
   * The undecorated price label and the price value agree:
   * `extract_numeric_price(price)` gives back `price_value`, which is present
   * exactly when a price was found and is never negative.
   */
  lemma PriceAgrees(c: Candidate, fullText: string)
    ensures ExtractNumericPrice(PriceOf(c, fullText).shown) == PriceOf(c, fullText).value
    ensures PriceOf(c, fullText).value.Some? <==> PriceOf(c, fullText).shown != PriceNotAvailable
    ensures PriceOf(c, fullText).value.Some? ==> PriceOf(c, fullText).value.value >= 0.0
  {
    var structured := FirstSome(PriceSelectors, DecimalRead(c));
    if structured.Some? {
      assert ("AED " + [])[0] != PriceNotAvailable[0];
      var i :| 0 <= i < |PriceSelectors| && DecimalRead(c)(PriceSelectors[i]) == structured;
      DecimalLabel(structured.value);
    } else {
      TextPriceAgrees(fullText);
    }
  }

  /** `PriceAgrees` for the price read from the container's text. */
  lemma TextPriceAgrees(fullText: string)
    ensures ExtractNumericPrice(TextPrice(fullText).shown) == TextPrice(fullText).value
    ensures TextPrice(fullText).value.Some? <==> TextPrice(fullText).shown != PriceNotAvailable
  {
    assert ("AED " + [])[0] != PriceNotAvailable[0];
    if FirstSome(PricePatterns(fullText), PatternRead(fullText)).Some? {
      PatternPriceShape(fullText);
      DecimalLabel(FirstSome(PricePatterns(fullText), PatternRead(fullText)).value);
    } else if FirstSome(Split(fullText, '\n'), LinePick()).Some? {
      StandalonePriceShape(fullText);
      DigitsLabel(FirstSome(Split(fullText, '\n'), LinePick()).value);
    } else {
      NoDigitInPlaceholder();
    }
  }

  /**
   * When no structured price matched, a pattern price is over 10, and a
   * standalone price, used only when no pattern price was accepted, lies in
   * [50, 5000].
   */
  lemma FallbackPriceBounds(c: Candidate, fullText: string)
    requires FirstSome(PriceSelectors, DecimalRead(c)).None?
    ensures FirstSome(PricePatterns(fullText), PatternRead(fullText)).Some? ==>
      PriceOf(c, fullText).value.Some? && PriceOf(c, fullText).value.value > 10.0
    ensures FirstSome(PricePatterns(fullText), PatternRead(fullText)).None? && PriceOf(c, fullText).value.Some? ==>
      50.0 <= PriceOf(c, fullText).value.value <= 5000.0
  {
    if FirstSome(PricePatterns(fullText), PatternRead(fullText)).Some? {
      PatternPriceShape(fullText);
    } else if FirstSome(Split(fullText, '\n'), LinePick()).Some? {
      StandalonePriceShape(fullText);
    }
  }

  /**
   * The reported record: no rating, the price value of the undecorated label,
   * and a price string that starts with that label and differs from it
   * exactly when an old price or a discount was found.
   */
  lemma RecordPrice(c: Candidate, term: string)
    requires ProductInfoOf(c, term).Some?
    ensures var r := ProductInfoOf(c, term).value; var base := PriceOf(c, Strip(c.text.value));
      && r.rating.None?
      && r.priceValue == base.value
      && StartsWith(r.price, base.shown)
      && (r.price == base.shown <==> OldPriceOf(c).None? && DiscountOf(c).None?)
  {
    var base := PriceOf(c, Strip(c.text.value));
    LabelsTruthy(c);
    assert ProductInfoOf(c, term).value.price == Decorate(base.shown, OldPriceOf(c), DiscountOf(c));
  }

  /** A found old price or discount is never empty. */
  lemma LabelsTruthy(c: Candidate)
    ensures TruthyText(OldPriceOf(c)) <==> OldPriceOf(c).Some?
    ensures TruthyText(DiscountOf(c)) <==> DiscountOf(c).Some?
  {
    var d := DiscountOf(c);
    if d.Some? {
      var i :| 0 <= i < |DiscountSelectors| && TextRead(c, DiscountOk())(DiscountSelectors[i]) == d;
    }
  }

  /** An old price is labelled "AED " followed by a decimal number. */
  lemma OldPriceShape(c: Candidate)
    requires OldPriceOf(c).Some?
    ensures StartsWith(OldPriceOf(c).value, "AED ")
    ensures MatchesDecimal(OldPriceOf(c).value[4..])
  {
    var t := FirstSome(OldPriceSelectors, DecimalRead(c)).value;
    FirstSomeWins(OldPriceSelectors, DecimalRead(c));
    var i :| 0 <= i < |OldPriceSelectors| && DecimalRead(c)(OldPriceSelectors[i]) == Some(t);
    assert OldPriceOf(c).value[4..] == t;
  }

  // ----- Properties of the other fields -----

  /** The record URL is an http link: the search page, or a "/buy/" or "/uae-en/" link. */
  lemma UrlShape(c: Candidate, term: string)
    ensures var u := UrlOf(c, term);
      StartsWith(u, "http") && (u == SearchUrl(term) || Contains(u, "/buy/") || Contains(u, "/uae-en/"))
  {
    var d := SearchUrl(term);
    StartsWithAppend(SearchBase, QuotePlus(term), "http");
    var link := FirstSome(LinkSelectors, LinkRead(c, d));
    if link.Some? {
      var i :| 0 <= i < |LinkSelectors| && LinkRead(c, d)(LinkSelectors[i]) == link;
      var href := Attr(Find(c, LinkSelectors[i]).value.attrs, "href").value;
      ResolvedLink(href, d);
    }
  }

  /** A product href, resolved, is an http link that still holds "/buy/" or "/uae-en/", unless it falls back to `default`. */
  lemma ResolvedLink(href: string, default: string)
    requires Contains(href, "/buy/") || Contains(href, "/uae-en/")
    ensures var u := ResolveHref(Host, href, default);
      u == default || (StartsWith(u, "http") && (Contains(u, "/buy/") || Contains(u, "/uae-en/")))
  {
    if StartsWith(href, "/") {
      StartsWithAppend(Host, href, "http");
      if Contains(href, "/buy/") {
        ContainsAppend(Host, href, "/buy/");
      } else {
        ContainsAppend(Host, href, "/uae-en/");
      }
    }
  }

  /** An image URL is an http link that is not a placeholder. */
  lemma ImageShape(c: Candidate)
    requires ImageOf(c).Some?
    ensures StartsWith(ImageOf(c).value, "http") && !Contains(ImageOf(c).value, "placeholder")
  {
    var i :| 0 <= i < |ImageSelectors| && ImageRead(c)(ImageSelectors[i]) == ImageOf(c);
  }

  /** Delivery text is non-empty and under 50 characters. */
  lemma DeliveryShape(c: Candidate)
    requires DeliveryOf(c).Some?
    ensures DeliveryOf(c).value != "" && |DeliveryOf(c).value| < 50
  {
    var i :| 0 <= i < |DeliverySelectors| && TextRead(c, DeliveryOk())(DeliverySelectors[i]) == DeliveryOf(c);
  }

  /** Discount text is non-empty and holds a '%'. */
  lemma DiscountShape(c: Candidate)
    requires DiscountOf(c).Some?
    ensures DiscountOf(c).value != "" && '%' in DiscountOf(c).value
  {
    var i :| 0 <= i < |DiscountSelectors| && TextRead(c, DiscountOk())(DiscountSelectors[i]) == DiscountOf(c);
  }
}
