/**
 * The Noon scraper (simple_noon_scraper.py): the early exits of a search,
 * the container scan that keeps what it appended before a read raised, how
 * each container becomes a `ProductInfo`, and which records the budget gate
 * lets through.
 */
module Noon {
  import opened Wrappers
  import opened Text
  import opened Decimal
  import opened Dom
  import opened Cascade
  import opened Records
  import opened Patterns
  import opened Urls

  /** One product as the scraper reports it. */
  datatype ProductInfo = ProductInfo(
    title: string,
    price: string,
    url: string,
    imageUrl: Option<string>,
    rating: Option<string>,
    priceValue: Option<real>)

  const Host := "https://www.noon.com"

  /** The search page's address, up to the query. */
  const SearchBase := Host + "/uae-en/search?q="

  /** The record URL used when no product link is found: the search page for the quoted term. */
  function SearchUrl(term: string): (u: string)
    ensures StartsWith(u, SearchBase) && u[|SearchBase|..] == QuotePlus(term)
  {
    Joined(SearchBase, QuotePlus(term));
    SearchBase + QuotePlus(term)
  }

  const ProductSelectors: seq<string> := [
    "[data-qa='plp-product-box']", ".ProductBoxLinkHandler_linkWrapper__b0qZ9", "[class*='product']",
    "[class*='ProductBox']", "[class*='item']", "[class*='card']"]
  const TitleSelectors: seq<string> := [
    "[data-qa='plp-product-box-name']", ".ProductDetailsSection_title__JorAV", "h2[title]", "h2", "[class*='title']"]
  const PriceSelectors: seq<string> := [
    ".Price_amount__2sXa7", "[data-qa='plp-product-box-price'] strong", ".Price_sellingPrice__HFKZf strong",
    "[class*='Price_amount']", "[class*='sellingPrice'] strong", "[class*='price'] strong"]
  const LinkSelectors: seq<string> := [
    ".ProductBoxLinkHandler_productBoxLink__FPhjp", "a[href*='/p/']", "a[href*='N53433298A']", "a[href*='/uae-en/']"]
  const ImageSelectors: seq<string> := [
    ".ProductImageCarousel_productImage__jtsOn", "[class*='ProductImage'] img[src*='nooncdn']",
    "img[src*='nooncdn'][alt*='Image 1']", "img[src*='nooncdn']:not([src*='placeholder'])"]
  const RatingSelectors: seq<string> := [
    ".RatingPreviewStar_textCtr__sfsJG", "[class*='RatingPreview'] [class*='textCtr']", "[class*='rating'] [class*='text']"]

  /** The stripped text of the element a selector finds inside `c`. */
  function ElemText(c: Candidate, selector: string): Option<string> {
    match Find(c, selector)
    case Some(e) => Some(Strip(e.text))
    case None => None
  }

  // ----- Title -----

  /** `text.strip() or get_attribute("title")`, with an absent attribute read as "". */
  function TitleText(e: Elem): string {
    var t := Strip(e.text);
    if t != "" then t else Attr(e.attrs, "title").GetOr("")
  }

  function TitleRead(c: Candidate): string -> Option<string> {
    selector =>
      match Find(c, selector)
      case Some(e) => Some(TitleText(e))
      case None => None
  }

  function LongTitle(): string -> bool {
    t => |t| > 10
  }

  /** A text line that can stand for the title; there is no upper length bound. */
  predicate TitleLine(line: string) {
    |line| > 10 && !NumericLine(line) && '%' !in line && !AnyIn(Lower(line), ["aed", "off"])
  }

  function TitleLinePick(): string -> Option<string> {
    line => if TitleLine(line) then Some(line) else None
  }

  /** The title before clean-up: selectors (assign, then test), then the text lines, then "Unknown Product". */
  function RawTitle(c: Candidate, fullText: string): string {
    var t := LastAssigned(TitleSelectors, "", TitleRead(c), LongTitle());
    if t != "" then t else FirstSome(NonBlankLines(fullText), TitleLinePick()).GetOr(UnknownProduct)
  }

  /** The record's title: the raw title with whitespace collapsed, cut at 100 characters. */
  function TitleOf(c: Candidate, fullText: string): string {
    CleanTitle(RawTitle(c, fullText), 100)
  }

  method ExtractTitle(c: Candidate, fullText: string) returns (title: string)
    ensures title == TitleOf(c, fullText)
  {
    title := AssignUntil(TitleSelectors, "", TitleRead(c), LongTitle());
    if title == "" {
      var line := FindFirst(NonBlankLines(fullText), TitleLinePick());
      title := line.GetOr(UnknownProduct);
    }
    title := CleanTitle(title, 100);
  }

  // ----- Price -----

  /** `t.replace(',', '').replace('.', '')`. */
  function Bare(t: string): string {
    RemoveChar(RemoveChar(t, ','), '.')
  }

  /** A structured price: digits once commas and dots are dropped; "AED " is put in front when the text lacks it. */
  function PriceRead(c: Candidate): string -> Option<string> {
    selector =>
      match ElemText(c, selector)
      case None => None
      case Some(pt) =>
        if pt != "" && IsDigits(Bare(pt)) then
          Some(if Contains(Lower(pt), "aed") then pt else "AED " + pt)
        else None
  }

  /** The three price patterns, in the order they are tried. */
  function PricePatterns(t: string): seq<int -> Option<string>> {
    [NoonLead(t), NoonTrail(t), NoonBefore(t)]
  }

  /** A pattern's first match in `t`, accepted when its digits, commas and dots dropped, exceed 50. */
  function PatternRead(t: string): (int -> Option<string>) -> Option<string> {
    (at: int -> Option<string>) =>
      match Search(t, at)
      case None => None
      case Some(g) => if IsDigits(Bare(g)) && DigitsValue(Bare(g)) > 50 then Some("AED " + g) else None
  }

  /** A standalone number whose digits, commas dropped, lie in [100, 50000]. */
  function InRange(): string -> Option<string> {
    InRangeNumber
  }

  /** `InRange` for one number. */
  function InRangeNumber(num: string): Option<string> {
    var clean := RemoveChar(num, ',');
    if IsDigits(clean) && 100 <= DigitsValue(clean) <= 50000 then Some("AED " + num) else None
  }

  /** A line's `\b(\d{1,3}(?:,\d{3})*)\b` matches. */
  function LineNumbers(): string -> seq<string> {
    (line: string) => NoonNumbers(line, 0)
  }

  /** The first number in range among a line's matches. */
  function LinePick(): string -> Option<string> {
    NestedPick(LineNumbers(), InRange())
  }

  /** The price read from the container's text when no structured price matched. */
  function TextPrice(fullText: string): string {
    match FirstSome(PricePatterns(fullText), PatternRead(fullText))
    case Some(shown) => shown
    case None => FirstSome(Split(fullText, '\n'), LinePick()).GetOr(PriceNotAvailable)
  }

  /** The displayed price: a structured price, else a pattern price, else a standalone number, else "Price not available". */
  function PriceOf(c: Candidate, fullText: string): string {
    match FirstSome(PriceSelectors, PriceRead(c))
    case Some(shown) => shown
    case None => TextPrice(fullText)
  }

  method ExtractPrice(c: Candidate, fullText: string) returns (price: string)
    ensures price == PriceOf(c, fullText)
  {
    var structured := FindFirst(PriceSelectors, PriceRead(c));
    match structured
    case Some(shown) =>
      price := shown;
    case None =>
      price := ExtractTextPrice(fullText);
  }

  /** The pattern loop, then the nested scan of lines and numbers when no pattern price was accepted. */
  method ExtractTextPrice(fullText: string) returns (price: string)
    ensures price == TextPrice(fullText)
  {
    var g := FindFirst(PricePatterns(fullText), PatternRead(fullText));
    if g.Some? {
      price := g.value;
    } else {
      var num := FindNested(Split(fullText, '\n'), LineNumbers(), InRange());
      assert num == FirstSome(Split(fullText, '\n'), LinePick());
      price := num.GetOr(PriceNotAvailable);
    }
  }

  // ----- Links, images and rating -----

  /** The first link with a non-empty href, resolved against the site. */
  function LinkRead(c: Candidate, default: string): string -> Option<string> {
    selector =>
      match Find(c, selector)
      case None => None
      case Some(e) =>
        var href := Attr(e.attrs, "href");
        if TruthyText(href) then Some(ResolveHref(Host, href.value, default)) else None
  }

  /** When the URL is still the search page and the container is itself an `a`, its own "/p/" href is used. */
  function OwnLink(c: Candidate, term: string, url: string): string {
    if EndsWith(url, QuotePlus(term)) && c.tag == "a" then
      var href := Attr(c.attrs, "href");
      if TruthyText(href) && Contains(href.value, "/p/") then
        (if StartsWith(href.value, "/") then Host + href.value else href.value)
      else url
    else url
  }

  function UrlOf(c: Candidate, term: string): string {
    OwnLink(c, term, FirstSome(LinkSelectors, LinkRead(c, SearchUrl(term))).GetOr(SearchUrl(term)))
  }

  method ExtractUrl(c: Candidate, term: string) returns (url: string)
    ensures url == UrlOf(c, term)
  {
    url := SearchUrl(term);
    var link := FindFirst(LinkSelectors, LinkRead(c, url));
    if link.Some? {
      url := link.value;
    }
    if EndsWith(url, QuotePlus(term)) && c.tag == "a" {
      var href := Attr(c.attrs, "href");
      if TruthyText(href) && Contains(href.value, "/p/") {
        if StartsWith(href.value, "/") {
          url := Host + href.value;
        } else {
          url := href.value;
        }
      }
    }
  }

  /** `src`, when it is an http link that is not a placeholder. */
  function ImageRead(c: Candidate): string -> Option<string> {
    selector =>
      match Find(c, selector)
      case None => None
      case Some(e) =>
        var src := Attr(e.attrs, "src");
        if TruthyText(src) && !Contains(src.value, "placeholder") && StartsWith(src.value, "http") then src else None
  }

  function ImageOf(c: Candidate): Option<string> {
    FirstSome(ImageSelectors, ImageRead(c))
  }

  /** Rating text `^\d+\.?\d*$` whose value lies in [0, 5], kept as it was written. */
  function RatingRead(c: Candidate): string -> Option<string> {
    selector =>
      match ElemText(c, selector)
      case None => None
      case Some(rt) =>
        var v := ParseFloat(rt);
        if rt != "" && MatchesRating(rt) && v.Some? && 0.0 <= v.value <= 5.0 then Some(rt) else None
  }

  function RatingOf(c: Candidate): Option<string> {
    FirstSome(RatingSelectors, RatingRead(c))
  }

  // ----- The record -----

  /**
   * `extract_simple_product_info`: None when the container's text cannot be
   * read or is shorter than 10 characters once stripped; the price value is
   * `extract_numeric_price` of the displayed price.
   */
  function ProductInfoOf(c: Candidate, term: string): Option<ProductInfo> {
    match c.text
    case None => None
    case Some(raw) =>
      var full := Strip(raw);
      if |full| < 10 then None
      else
        var price := PriceOf(c, full);
        Some(ProductInfo(TitleOf(c, full), price, UrlOf(c, term), ImageOf(c), RatingOf(c), ExtractNumericPrice(price)))
  }

  /** The selector loops of `extract_simple_product_info`, run one after another. */
  method ExtractProductInfo(c: Candidate, term: string) returns (info: Option<ProductInfo>)
    ensures info == ProductInfoOf(c, term)
  {
    if c.text.None? {
      return None;
    }
    var full := Strip(c.text.value);
    if |full| < 10 {
      return None;
    }
    var title := ExtractTitle(c, full);
    var price := ExtractPrice(c, full);
    var url := ExtractUrl(c, term);
    var image := FindFirst(ImageSelectors, ImageRead(c));
    var rating := FindFirst(RatingSelectors, RatingRead(c));
    info := Some(ProductInfo(title, price, url, image, rating, ExtractNumericPrice(price)));
    assert info == Some(ProductInfo(TitleOf(c, full), PriceOf(c, full), UrlOf(c, term), ImageOf(c), RatingOf(c),
      ExtractNumericPrice(PriceOf(c, full))));
  }

  // ----- Locating candidates -----

  /** Tier text: 30 to 1000 characters and one of the fixed product keywords. */
  predicate TierText(t: string) {
    30 < |t| < 1000
    && AnyIn(Lower(t), ["iphone", "samsung", "apple", "gb", "pro", "max", "plus", "aed", "price", "rating", "review"])
  }

  function TierOk(): Candidate -> bool {
    (c: Candidate) => c.text.Some? && TierText(Strip(c.text.value))
  }

  /** An element whose `.text` can be read. */
  function Readable(): Candidate -> bool {
    (c: Candidate) => c.text.Some?
  }

  /**
   * The container scan with `acc` collected so far: a selector that raises is
   * skipped; otherwise its passing elements are appended up to the first
   * element whose text raises, and the scan stops after a selector whose
   * elements all read when something has been collected.
   */
  function TierScan(sels: seq<string>, p: Page, acc: seq<Candidate>): seq<Candidate>
    decreases |sels|
  {
    if sels == [] then acc
    else match FindOnPage(p, sels[0])
      case None => TierScan(sels[1..], p, acc)
      case Some(es) =>
        var k := FirstFailing(es, Readable());
        var more := acc + Filter(es[..k], TierOk());
        if k == |es| && more != [] then more else TierScan(sels[1..], p, more)
  }

  /** Fallback text: 30 to 500 characters, mentioning the term, "iphone", "samsung" or "aed". */
  predicate DivText(t: string, term: string) {
    30 < |t| < 500 && AnyIn(Lower(t), [Lower(term), "iphone", "samsung", "aed"])
  }

  function DivOk(term: string): Candidate -> bool {
    (c: Candidate) => c.text.Some? && DivText(Strip(c.text.value), term)
  }

  /** The candidate containers: what the container scan collected, else the first five passing `div`s. */
  function Locate(p: Page, term: string): seq<Candidate> {
    var tier := TierScan(ProductSelectors, p, []);
    if tier != [] then tier else Take(Filter(p.divs, DivOk(term)), 5)
  }

  /** A browser error page. */
  predicate ErrorPage(p: Page) {
    Contains(Lower(p.title), "can't be reached") || Contains(Lower(p.title), "error")
  }

  function Build(term: string): Candidate -> Option<ProductInfo> {
    c => ProductInfoOf(c, term)
  }

  function PriceValue(): ProductInfo -> Option<real> {
    (info: ProductInfo) => info.priceValue
  }

  /**
   * `search_item` once the page has loaded (`load` is None when loading
   * raised): nothing for an error page or a page source under 1000
   * characters, else the records of the first five candidates that the
   * budget admits.
   */
  function SearchResults(load: Option<Page>, item: SearchItem): (r: seq<ProductInfo>)
    ensures |r| <= 5
  {
    match load
    case None => []
    case Some(p) =>
      if ErrorPage(p) || p.sourceLength < 1000 then []
      else Gate(Take(Locate(p, item.name), 5), Build(item.name), PriceValue(), item.maxPrice)
  }

  /** The container loop of `search_item`. */
  method TierLoop(p: Page) returns (potential: seq<Candidate>)
    ensures potential == TierScan(ProductSelectors, p, [])
  {
    potential := [];
    var i := 0;
    while i < |ProductSelectors|
      invariant 0 <= i <= |ProductSelectors|
      invariant TierScan(ProductSelectors, p, []) == TierScan(ProductSelectors[i..], p, potential)
    {
      assert ProductSelectors[i..][1..] == ProductSelectors[i + 1..];
      var elements := FindOnPage(p, ProductSelectors[i]);
      if elements.Some? {
        var raised;
        potential, raised := AppendUntilRaise(elements.value, Readable(), TierOk(), potential);
        if !raised && potential != [] {
          return;
        }
      }
      i := i + 1;
    }
  }

  method LocateCandidates(p: Page, term: string) returns (potential: seq<Candidate>)
    ensures potential == Locate(p, term)
  {
    potential := TierLoop(p);
    if potential == [] {
      potential := ScanUpTo(p.divs, DivOk(term), 5);
    }
  }

  /** `search_item` past its early exits: locate the candidates, then build and gate the first five. */
  method SearchPage(p: Page, item: SearchItem) returns (products: seq<ProductInfo>)
    ensures products == Gate(Take(Locate(p, item.name), 5), Build(item.name), PriceValue(), item.maxPrice)
  {
    var potential := LocateCandidates(p, item.name);
    products := GateLoop(Take(potential, 5), Build(item.name), PriceValue(), item.maxPrice);
  }

  method SearchItem(load: Option<Page>, item: SearchItem) returns (products: seq<ProductInfo>)
    ensures products == SearchResults(load, item)
  {
    products := [];
    if load.None? {
      return;
    }
    var p := load.value;
    if Contains(Lower(p.title), "can't be reached") || Contains(Lower(p.title), "error") {
      return;
    }
    if p.sourceLength < 1000 {
      return;
    }
    products := SearchPage(p, item);
  }

  // ----- Properties of the search -----

  /** An error page yields no records. */
  lemma ErrorPageYieldsNothing(p: Page, item: SearchItem)
    requires ErrorPage(p)
    ensures SearchResults(Some(p), item) == []
  {
  }

  /** A page source under 1000 characters yields no records. */
  lemma ShortSourceYieldsNothing(p: Page, item: SearchItem)
    requires p.sourceLength < 1000
    ensures SearchResults(Some(p), item) == []
  {
  }

  /** A page that failed to load yields no records. */
  lemma FailedLoadYieldsNothing(item: SearchItem)
    ensures SearchResults(None, item) == []
  {
  }

  /**
   * The container scan only appends: what was collected before stays in
   * front, and everything added passes the tier test.
   */
  lemma {:induction false} TierScanAppends(sels: seq<string>, p: Page, acc: seq<Candidate>)
    ensures acc <= TierScan(sels, p, acc)
    ensures forall c :: c in TierScan(sels, p, acc) ==> c in acc || TierOk()(c)
    decreases |sels|
  {
    if sels != [] {
      match FindOnPage(p, sels[0])
      case None =>
        TierScanAppends(sels[1..], p, acc);
      case Some(es) =>
        var k := FirstFailing(es, Readable());
        var more := acc + Filter(es[..k], TierOk());
        FilterSound(es[..k], TierOk());
        TierScanAppends(sels[1..], p, more);
    }
  }

  /** Every element a selector finds on the page can be read. */
  predicate AllReadable(sels: seq<string>, p: Page) {
    forall i, k :: 0 <= i < |sels| && FindOnPage(p, sels[i]).Some? && 0 <= k < |FindOnPage(p, sels[i]).value| ==>
      FindOnPage(p, sels[i]).value[k].text.Some?
  }

  /**
   * When no element's text raises, the container scan is the first selector
   * whose passing elements are not empty, taken alone, as in the other two
   * scrapers.
   */
  lemma {:induction false} ReadableTier(sels: seq<string>, p: Page)
    requires AllReadable(sels, p)
    ensures TierScan(sels, p, []) == FirstSome(sels, FilteredPick(PageFind(p), TierOk())).GetOr([])
    decreases |sels|
  {
    if sels != [] {
      assert AllReadable(sels[1..], p) by {
        forall i, k | 0 <= i < |sels[1..]| && FindOnPage(p, sels[1..][i]).Some? && 0 <= k < |FindOnPage(p, sels[1..][i]).value|
          ensures FindOnPage(p, sels[1..][i]).value[k].text.Some?
        {
          assert sels[1..][i] == sels[i + 1];
        }
      }
      ReadableTier(sels[1..], p);
      match FindOnPage(p, sels[0])
      case None =>
      case Some(es) =>
        assert forall m :: 0 <= m < |es| ==> Readable()(es[m]) by {
          assert FindOnPage(p, sels[0]) == Some(es);
        }
        NoneFailing(es, Readable());
        var k := FirstFailing(es, Readable());
        assert es[..k] == es;
        assert [] + Filter(es, TierOk()) == Filter(es, TierOk());
    }
  }

  /** Each collected container has 30 to 1000 characters of readable text mentioning a product keyword. */
  lemma TierCandidates(p: Page, term: string)
    requires TierScan(ProductSelectors, p, []) != []
    ensures forall c :: c in Locate(p, term) ==> c.text.Some? && TierText(Strip(c.text.value))
  {
    TierScanAppends(ProductSelectors, p, []);
  }

  /**
   * The `div` scan runs only when the container scan collected nothing; each
   * div it keeps has 30 to 500 characters of readable text, and it keeps at
   * most five.
   */
  lemma FallbackScan(p: Page, term: string)
    requires TierScan(ProductSelectors, p, []) == []
    ensures Locate(p, term) == Take(Filter(p.divs, DivOk(term)), 5)
    ensures |Locate(p, term)| <= 5
    ensures forall c :: c in Locate(p, term) ==> c in p.divs && c.text.Some? && 30 < |Strip(c.text.value)| < 500
  {
    FilterSound(p.divs, DivOk(term));
    forall c | c in Locate(p, term)
      ensures c in p.divs && c.text.Some? && 30 < |Strip(c.text.value)| < 500
    {
      assert c in Filter(p.divs, DivOk(term));
    }
  }

  /**
   * A record is reported exactly when it was built from one of the first
   * five candidates and the budget test admits it; without a truthy ceiling
   * every built record is reported, and the budget check on a reported
   * record is never false.
   */
  lemma ReportedRecords(p: Page, item: SearchItem, x: ProductInfo)
    requires !ErrorPage(p) && p.sourceLength >= 1000
    ensures x in SearchResults(Some(p), item) <==>
      Admit(item.maxPrice, x.priceValue)
      && x in Built(Take(Locate(p, item.name), 5), Build(item.name))
    ensures !Truthy(item.maxPrice) ==>
      SearchResults(Some(p), item) == Built(Take(Locate(p, item.name), 5), Build(item.name))
    ensures x in SearchResults(Some(p), item) ==> WithinBudget(x.priceValue, item.maxPrice) != Some(false)
  {
    GateReport(Take(Locate(p, item.name), 5), Build(item.name), PriceValue(), item.maxPrice, x);
  }

  // ----- Properties of the title -----

  /**
   * The raw title is the first selector text over 10 characters when there
   * is one; otherwise the last text any title selector found; only when
   * that is empty do the text lines, then "Unknown Product", decide.
   */
  lemma TitleChoice(c: Candidate, fullText: string)
    ensures var hit := FirstSome(TitleSelectors, StopHit(TitleRead(c), LongTitle()));
      var last := LastRead(TitleSelectors, "", TitleRead(c));
      RawTitle(c, fullText) ==
        if hit.Some? then hit.value
        else if last != "" then last
        else FirstSome(NonBlankLines(fullText), TitleLinePick()).GetOr(UnknownProduct)
  {
    LastAssignedIs(TitleSelectors, "", TitleRead(c), LongTitle());
    var hit := FirstSome(TitleSelectors, StopHit(TitleRead(c), LongTitle()));
    if hit.Some? {
      FirstSomeWins(TitleSelectors, StopHit(TitleRead(c), LongTitle()));
      var i :| 0 <= i < |TitleSelectors| && StopHit(TitleRead(c), LongTitle())(TitleSelectors[i]) == hit;
      assert |hit.value| > 10;
    }
  }

  /** The title is whitespace-collapsed and stripped, and has at most 103 characters. */
  lemma TitleShape(c: Candidate, fullText: string)
    ensures var t := TitleOf(c, fullText); |t| <= 103 && Collapsed(t) && Stripped(t)
  {
  }

  // ----- Properties of the price -----

  /** Text that is digits once commas and dots are dropped holds no letter 'a', so it never mentions "aed". */
  lemma NoCurrencyInAmount(pt: string)
    requires IsDigits(Bare(pt))
    ensures !Contains(Lower(pt), "aed")
  {
    forall k | 0 <= k < |pt| ensures LowerChar(pt[k]) != 'a' {
      if pt[k] != ',' && pt[k] != '.' {
        RemoveKeeps(pt, ',', pt[k]);
        RemoveKeeps(RemoveChar(pt, ','), '.', pt[k]);
      }
    }
    assert 'a' !in Lower(pt);
    ContainsHead(Lower(pt), "aed");
  }

  /** An amount that is digits once commas and dots are dropped holds a digit. */
  lemma AmountHasDigit(g: string)
    requires IsDigits(Bare(g))
    ensures HasDigit(g)
  {
    var b := Bare(g);
    var r := RemoveChar(g, ',');
    RemoveCharChars(r, '.');
    RemoveCharChars(g, ',');
    assert b[0] in r;
    var k1 :| 0 <= k1 < |r| && r[k1] == b[0];
    assert r[k1] in g;
    var k2 :| 0 <= k2 < |g| && g[k2] == r[k1];
    assert IsDigit(g[k2]);
  }

  /** The prefix "AED " adds no dot and no digit. */
  lemma AedPrefixCounts(g: string)
    ensures Count("AED " + g, '.') == Count(g, '.')
    ensures HasDigit("AED " + g) <==> HasDigit(g)
  {
    CountAppend("AED ", g, '.');
    CountZero("AED ", '.');
    HasDigitAppend("AED ", g);
    assert !HasDigit("AED ");
  }

  /**
   * A structured price never mentions "aed", so it is always labelled
   * "AED " + the text, and that text is digits once commas and dots are
   * dropped.
   */
  lemma StructuredPrice(c: Candidate, sels: seq<string>)
    requires FirstSome(sels, PriceRead(c)).Some?
    ensures AedAmount(FirstSome(sels, PriceRead(c)).value)
  {
    var v := FirstSome(sels, PriceRead(c)).value;
    FirstSomeWins(sels, PriceRead(c));
    var i :| 0 <= i < |sels| && PriceRead(c)(sels[i]) == Some(v);
    var pt := ElemText(c, sels[i]).value;
    NoCurrencyInAmount(pt);
    assert v == "AED " + pt;
    assert v[4..] == pt;
  }

  /** A label "AED " + an amount that is digits once commas and dots are dropped. */
  predicate AedAmount(v: string) {
    StartsWith(v, "AED ") && IsDigits(Bare(v[4..]))
  }

  /** "AED " + an amount that is digits once commas and dots are dropped has a value exactly when it holds at most one dot. */
  lemma AmountLabelValue(pt: string)
    requires IsDigits(Bare(pt))
    ensures ExtractNumericPrice("AED " + pt).Some? <==> Count(pt, '.') <= 1
  {
    AmountHasDigit(pt);
    AedPrefixCounts(pt);
  }

  /** `AmountLabelValue`, for the whole label. */
  lemma AedAmountValue(v: string)
    requires AedAmount(v)
    ensures ExtractNumericPrice(v).Some? <==> Count(v, '.') <= 1
  {
    var pt := v[4..];
    assert v == "AED " + pt;
    AmountLabelValue(pt);
    AedPrefixCounts(pt);
  }

  /**
   * A structured price has a numeric value exactly when it holds at most one
   * dot: text such as "1.2.3" passes the digits test, is shown, and has no
   * value.
   */
  lemma StructuredValue(c: Candidate, sels: seq<string>)
    requires FirstSome(sels, PriceRead(c)).Some?
    ensures var v := FirstSome(sels, PriceRead(c)).value;
      ExtractNumericPrice(v).Some? <==> Count(v, '.') <= 1
  {
    StructuredPrice(c, sels);
    AedAmountValue(FirstSome(sels, PriceRead(c)).value);
  }

  /** "1.2.3" is accepted as a structured price, and its label has no numeric value. */
  lemma DottedStructuredPrice()
    ensures IsDigits(Bare("1.2.3")) && ExtractNumericPrice("AED " + "1.2.3").None?
  {
    TwoDots();
    AmountLabelValue("1.2.3");
  }

  /** A label that starts with "AED " is not the placeholder. */
  lemma LabelNotPlaceholder(v: string)
    requires StartsWith(v, "AED ")
    ensures v != PriceNotAvailable
  {
    assert v[0] != PriceNotAvailable[0];
  }

  /**
   * A pattern price is labelled "AED " + the captured amount; the amount is
   * over 50 once commas and dots are dropped, holds a digit and at most one
   * dot.
   */
  lemma PatternPrice(fullText: string)
    requires FirstSome(PricePatterns(fullText), PatternRead(fullText)).Some?
    ensures var v := FirstSome(PricePatterns(fullText), PatternRead(fullText)).value;
      StartsWith(v, "AED ") && IsDigits(Bare(v[4..])) && DigitsValue(Bare(v[4..])) > 50
      && Count(v[4..], '.') <= 1 && ExtractNumericPrice(v).Some?
  {
    var pats := PricePatterns(fullText);
    var v := FirstSome(pats, PatternRead(fullText)).value;
    FirstSomeWins(pats, PatternRead(fullText));
    var k :| 0 <= k < |pats| && PatternRead(fullText)(pats[k]) == Some(v);
    var g := Search(fullText, pats[k]).value;
    assert v == "AED " + g && v[4..] == g;
    SearchLeftmost(fullText, pats[k]);
    var i :| 0 <= i <= |fullText| && pats[k](i) == Some(g);
    NoonAmountDots(fullText, i);
    if k == 0 {
      assert NoonLeadAt(fullText, i) == Some(g);
    } else if k == 1 {
      assert NoonTrailAt(fullText, i) == Some(g);
    } else {
      assert NoonBeforeAt(fullText, i) == Some(g);
    }
    AmountHasDigit(g);
    AedPrefixCounts(g);
  }

  /** A number `InRange` accepts is labelled "AED " + it, and its value lies in [100, 50000]. */
  lemma InRangeLabel(num: string)
    requires InRange()(num).Some?
    ensures var v := InRange()(num).value;
      StartsWith(v, "AED ") && ExtractNumericPrice(v).Some? && 100.0 <= ExtractNumericPrice(v).value <= 50000.0
  {
    var clean := RemoveChar(num, ',');
    assert AllDigitOrDot(clean);
    AedLabelValue(num);
    ParseFloatDigits(clean);
  }

  /** A standalone price is labelled "AED " + a number whose value lies in [100, 50000]. */
  lemma StandalonePrice(fullText: string)
    requires FirstSome(Split(fullText, '\n'), LinePick()).Some?
    ensures var v := FirstSome(Split(fullText, '\n'), LinePick()).value;
      StartsWith(v, "AED ") && ExtractNumericPrice(v).Some?
      && 100.0 <= ExtractNumericPrice(v).value <= 50000.0
  {
    var lines := Split(fullText, '\n');
    NestedPickFrom(lines, LineNumbers(), InRange());
    var i, j :| 0 <= i < |lines| && 0 <= j < |LineNumbers()(lines[i])|
      && InRange()(LineNumbers()(lines[i])[j]) == FirstSome(lines, LinePick());
    InRangeLabel(LineNumbers()(lines[i])[j]);
  }

  /** The displayed price is "Price not available" or starts with "AED ". */
  lemma PriceShape(c: Candidate, fullText: string)
    ensures PriceOf(c, fullText) == PriceNotAvailable || StartsWith(PriceOf(c, fullText), "AED ")
  {
    if FirstSome(PriceSelectors, PriceRead(c)).Some? {
      StructuredPrice(c, PriceSelectors);
    } else {
      TextPriceShape(fullText);
    }
  }

  /** `PriceShape` for the price read from the container's text. */
  lemma TextPriceShape(fullText: string)
    ensures TextPrice(fullText) == PriceNotAvailable || StartsWith(TextPrice(fullText), "AED ")
  {
    if FirstSome(PricePatterns(fullText), PatternRead(fullText)).Some? {
      PatternLabel(fullText);
    } else if FirstSome(Split(fullText, '\n'), LinePick()).Some? {
      StandaloneLabel(fullText);
    } else {
      NoTextPrice(fullText);
    }
  }

  /** With a pattern price, the text price is it and is labelled "AED ". */
  lemma PatternLabel(fullText: string)
    requires FirstSome(PricePatterns(fullText), PatternRead(fullText)).Some?
    ensures TextPrice(fullText) == FirstSome(PricePatterns(fullText), PatternRead(fullText)).value
    ensures StartsWith(TextPrice(fullText), "AED ")
  {
    PatternPrice(fullText);
  }

  /** With only a standalone price, the text price is it and is labelled "AED ". */
  lemma StandaloneLabel(fullText: string)
    requires FirstSome(PricePatterns(fullText), PatternRead(fullText)).None?
    requires FirstSome(Split(fullText, '\n'), LinePick()).Some?
    ensures TextPrice(fullText) == FirstSome(Split(fullText, '\n'), LinePick()).value
    ensures StartsWith(TextPrice(fullText), "AED ")
  {
    StandalonePrice(fullText);
  }

  /** With neither, the text price is the placeholder. */
  lemma NoTextPrice(fullText: string)
    requires FirstSome(PricePatterns(fullText), PatternRead(fullText)).None?
    requires FirstSome(Split(fullText, '\n'), LinePick()).None?
    ensures TextPrice(fullText) == PriceNotAvailable
  {
  }


  /**
   * A price read from the container's text has a numeric value exactly when
   * it is not the placeholder.
   */
  lemma TextPriceValue(fullText: string)
    ensures ExtractNumericPrice(TextPrice(fullText)).Some? <==> TextPrice(fullText) != PriceNotAvailable
  {
    if FirstSome(PricePatterns(fullText), PatternRead(fullText)).Some? {
      PatternPrice(fullText);
      LabelNotPlaceholder(TextPrice(fullText));
    } else if FirstSome(Split(fullText, '\n'), LinePick()).Some? {
      StandalonePrice(fullText);
      LabelNotPlaceholder(TextPrice(fullText));
    } else {
      NoDigitInPlaceholder();
    }
  }

  /**
   * The reported price value is `extract_numeric_price` of the displayed
   * price: absent for the placeholder, and, unless a structured price with
   * several dots was shown, present whenever a price was found.
   */
  lemma RecordPrice(c: Candidate, term: string)
    requires ProductInfoOf(c, term).Some?
    ensures var r := ProductInfoOf(c, term).value;
      && (r.price == PriceNotAvailable ==> r.priceValue.None?)
      && (r.priceValue.Some? ==> r.priceValue.value >= 0.0)
      && (FirstSome(PriceSelectors, PriceRead(c)).None? ==> (r.priceValue.Some? <==> r.price != PriceNotAvailable))
      && (FirstSome(PriceSelectors, PriceRead(c)).Some? ==> (r.priceValue.Some? <==> Count(r.price, '.') <= 1))
  {
    DisplayedPriceValue(c, Strip(c.text.value));
  }

  /** `RecordPrice` for the displayed price alone. */
  lemma DisplayedPriceValue(c: Candidate, full: string)
    ensures var v := ExtractNumericPrice(PriceOf(c, full));
      && (PriceOf(c, full) == PriceNotAvailable ==> v.None?)
      && (v.Some? ==> v.value >= 0.0)
      && (FirstSome(PriceSelectors, PriceRead(c)).None? ==> (v.Some? <==> PriceOf(c, full) != PriceNotAvailable))
      && (FirstSome(PriceSelectors, PriceRead(c)).Some? ==> (v.Some? <==> Count(PriceOf(c, full), '.') <= 1))
  {
    NoDigitInPlaceholder();
    if FirstSome(PriceSelectors, PriceRead(c)).Some? {
      StructuredValue(c, PriceSelectors);
    } else {
      TextPriceValue(full);
    }
  }

  // ----- Properties of the other fields -----

  /** A rating is non-empty text `^\d+\.?\d*$` that reads as a number from 0 to 5. */
  lemma RatingShape(c: Candidate)
    requires RatingOf(c).Some?
    ensures var rt := RatingOf(c).value;
      rt != "" && MatchesRating(rt) && ParseFloat(rt).Some? && 0.0 <= ParseFloat(rt).value <= 5.0
  {
    var i :| 0 <= i < |RatingSelectors| && RatingRead(c)(RatingSelectors[i]) == RatingOf(c);
  }

  /**
   * The record URL is an http link (the search page, a resolved link, or an
   * absolute href), unless the container is itself an `a` whose own "/p/"
   * href replaced the search page.
   */
  lemma UrlShape(c: Candidate, term: string)
    ensures var u := UrlOf(c, term);
      StartsWith(u, "http") || (c.tag == "a" && Contains(u, "/p/"))
  {
    LinkShape(c, term, LinkSelectors);
    var u := FirstSome(LinkSelectors, LinkRead(c, SearchUrl(term))).GetOr(SearchUrl(term));
    var own := Attr(c.attrs, "href");
    if EndsWith(u, QuotePlus(term)) && c.tag == "a" && TruthyText(own) && Contains(own.value, "/p/") {
      if StartsWith(own.value, "/") {
        StartsWithAppend(Host, own.value, "http");
      }
    }
  }

  /** The link loop leaves an http link: the search page or a resolved link. */
  lemma LinkShape(c: Candidate, term: string, sels: seq<string>)
    ensures StartsWith(FirstSome(sels, LinkRead(c, SearchUrl(term))).GetOr(SearchUrl(term)), "http")
  {
    var d := SearchUrl(term);
    StartsWithAppend(SearchBase, QuotePlus(term), "http");
    var link := FirstSome(sels, LinkRead(c, d));
    if link.Some? {
      FirstSomeWins(sels, LinkRead(c, d));
      var i :| 0 <= i < |sels| && LinkRead(c, d)(sels[i]) == link;
      var href := Attr(Find(c, sels[i]).value.attrs, "href").value;
      if StartsWith(href, "/") {
        StartsWithAppend(Host, href, "http");
      }
    }
  }


  /** An image URL is an http link that is not a placeholder. */
  lemma ImageShape(c: Candidate)
    requires ImageOf(c).Some?
    ensures StartsWith(ImageOf(c).value, "http") && !Contains(ImageOf(c).value, "placeholder")
  {
    var i :| 0 <= i < |ImageSelectors| && ImageRead(c)(ImageSelectors[i]) == ImageOf(c);
  }
}
