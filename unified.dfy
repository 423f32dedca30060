/**
 * The unified driver: it runs the Noon, Namshi and Amazon searches one after
 * another with each site's failure kept to that site, and it turns the
 * collected results into the JSON document or the CSV rows it saves, under
 * a file name derived from the search term unless one is given.
 */
module Unified {
  import opened Wrappers
  import opened Text
  import opened Dom
  import opened Records
  import Noon
  import Namshi
  import Amazon

  // ----- One product as the driver sees it -----

  /**
   * `getattr(product, name, default)` on a scraper's record: `Absent` when
   * that scraper's `ProductInfo` has no such attribute, otherwise its value.
   */
  datatype Attr = Absent | Present(value: Option<string>)

  /**
   * A product of any of the three scrapers: the attributes every
   * `ProductInfo` has, and the optional ones that only some of them carry.
   */
  datatype Listing = Listing(
    title: string,
    price: string,
    url: string,
    priceValue: Option<real>,
    imageUrl: Attr,
    rating: Attr,
    brand: Attr,
    discount: Attr,
    reviewCount: Attr,
    deliveryInfo: Attr,
    availability: Attr,
    discountInfo: Attr)

  /** Noon's record: image and rating besides the common attributes. */
  function NoonListing(p: Noon.ProductInfo): Listing {
    Listing(p.title, p.price, p.url, p.priceValue, Present(p.imageUrl), Present(p.rating),
      Absent, Absent, Absent, Absent, Absent, Absent)
  }

  /** Namshi's record: image, rating, brand, discount and delivery. */
  function NamshiListing(p: Namshi.ProductInfo): Listing {
    Listing(p.title, p.price, p.url, p.priceValue, Present(p.imageUrl), Present(p.rating),
      Present(p.brand), Present(p.discount), Absent, Present(p.deliveryInfo), Absent, Absent)
  }

  /** Amazon's record: image, rating, review count, delivery, availability and discount text. */
  function AmazonListing(p: Amazon.ProductInfo): Listing {
    Listing(p.title, p.price, p.url, p.priceValue, Present(p.imageUrl), Present(p.rating),
      Absent, Absent, Present(p.reviewCount), Present(p.deliveryInfo), Present(p.availability),
      Present(p.discountInfo))
  }

  function NoonListings(ps: seq<Noon.ProductInfo>): (r: seq<Listing>)
    ensures |r| == |ps| && forall i :: 0 <= i < |ps| ==> r[i] == NoonListing(ps[i])
  {
    seq(|ps|, i requires 0 <= i < |ps| => NoonListing(ps[i]))
  }

  function NamshiListings(ps: seq<Namshi.ProductInfo>): (r: seq<Listing>)
    ensures |r| == |ps| && forall i :: 0 <= i < |ps| ==> r[i] == NamshiListing(ps[i])
  {
    seq(|ps|, i requires 0 <= i < |ps| => NamshiListing(ps[i]))
  }

  function AmazonListings(ps: seq<Amazon.ProductInfo>): (r: seq<Listing>)
    ensures |r| == |ps| && forall i :: 0 <= i < |ps| ==> r[i] == AmazonListing(ps[i])
  {
    seq(|ps|, i requires 0 <= i < |ps| => AmazonListing(ps[i]))
  }

  // ----- search_all_sites -----

  /**
   * How one site's turn goes: `setup_driver()` returns False, an exception
   * reaches the site's `except` clause, or the search runs on the page the
   * driver loaded (`None` when the load itself failed).
   */
  datatype SiteRun = SetupFailed | Raised | Loaded(load: Option<Page>)

  /** The three sites' turns, in the order the driver takes them. */
  datatype Runs = Runs(noon: SiteRun, namshi: SiteRun, amazon: SiteRun)

  /** One value of `all_results`: `{'site': ..., 'products': ..., 'max_price': ...}` under `key`. */
  datatype Entry = Entry(key: string, site: string, products: seq<Listing>, maxPrice: Option<real>)

  const SiteKeys: seq<string> := ["noon", "namshi", "amazon"]

  /** The three scrapers, named in the order the driver takes them. */
  datatype Site = NoonSite | NamshiSite | AmazonSite

  const SiteOrder: seq<Site> := [NoonSite, NamshiSite, AmazonSite]

  /** A site's search as the driver calls it: the products for the loaded page and the request. */
  type Search = (Option<Page>, SearchItem) -> seq<Listing>

  /** The three scrapers' searches. */
  datatype Scrapers = Scrapers(noon: Search, namshi: Search, amazon: Search)

  /** Noon's `search_item`, as its model defines it. */
  function NoonSearch(): Search {
    (load: Option<Page>, item: SearchItem) => NoonListings(Noon.SearchResults(load, item))
  }

  /** Namshi's `search_item`. */
  function NamshiSearch(): Search {
    (load: Option<Page>, item: SearchItem) => NamshiListings(Namshi.SearchResults(load, item))
  }

  /** Amazon's `search_item`. */
  function AmazonSearch(): Search {
    (load: Option<Page>, item: SearchItem) => AmazonListings(Amazon.SearchResults(load, item))
  }

  /** This repository's scrapers. */
  function SiteScrapers(): Scrapers {
    Scrapers(NoonSearch(), NamshiSearch(), AmazonSearch())
  }

  /** A site's products: what its search returns once the driver is set up, none otherwise. */
  function Products(run: SiteRun, search: Search, item: SearchItem): seq<Listing> {
    match run
    case Loaded(load) => search(load, item)
    case _ => []
  }

  /**
   * What `search_all_sites` returns: `{}` when importing the scrapers fails,
   * otherwise one entry per site, in the order noon, namshi, amazon.
   */
  function AllSites(imported: bool, term: string, maxPrice: Option<real>, runs: Runs, scrapers: Scrapers): (r: seq<Entry>)
    ensures |r| == (if imported then 3 else 0)
  {
    if !imported then []
    else
      var item := SearchItem(term, maxPrice);
      [ Entry("noon", "Noon.com", Products(runs.noon, scrapers.noon, item), maxPrice),
        Entry("namshi", "Namshi.com", Products(runs.namshi, scrapers.namshi, item), maxPrice),
        Entry("amazon", "Amazon.ae", Products(runs.amazon, scrapers.amazon, item), maxPrice) ]
  }

  function Keys(entries: seq<Entry>): (r: seq<string>)
    ensures |r| == |entries| && forall i :: 0 <= i < |entries| ==> r[i] == entries[i].key
  {
    seq(|entries|, i requires 0 <= i < |entries| => entries[i].key)
  }

  lemma NoonSearchIs(load: Option<Page>, item: SearchItem)
    ensures NoonSearch()(load, item) == NoonListings(Noon.SearchResults(load, item))
  {
  }

  /** Noon's `try` block: the search's products when the setup succeeded, none otherwise. */
  method NoonTurn(run: SiteRun, item: SearchItem) returns (products: seq<Listing>)
    ensures products == Products(run, NoonSearch(), item)
  {
    products := [];
    if run.Loaded? {
      var found := Noon.SearchItem(run.load, item);
      products := NoonListings(found);
      NoonSearchIs(run.load, item);
    }
  }

  lemma NamshiSearchIs(load: Option<Page>, item: SearchItem)
    ensures NamshiSearch()(load, item) == NamshiListings(Namshi.SearchResults(load, item))
  {
  }

  /** Namshi's `try` block. */
  method NamshiTurn(run: SiteRun, item: SearchItem) returns (products: seq<Listing>)
    ensures products == Products(run, NamshiSearch(), item)
  {
    products := [];
    if run.Loaded? {
      var found := Namshi.SearchItem(run.load, item);
      products := NamshiListings(found);
      NamshiSearchIs(run.load, item);
    }
  }

  lemma AmazonSearchIs(load: Option<Page>, item: SearchItem)
    ensures AmazonSearch()(load, item) == AmazonListings(Amazon.SearchResults(load, item))
  {
  }

  /** Amazon's `try` block. */
  method AmazonTurn(run: SiteRun, item: SearchItem) returns (products: seq<Listing>)
    ensures products == Products(run, AmazonSearch(), item)
  {
    products := [];
    if run.Loaded? {
      var found := Amazon.SearchItem(run.load, item);
      products := AmazonListings(found);
      AmazonSearchIs(run.load, item);
    }
  }

  /**
   * `search_all_sites`: each site's block fills its entry and then closes
   * that site's scraper in its `finally` clause. `closed` lists the
   * scrapers whose `close()` ran, in the order it ran.
   */
  method SearchAllSites(imported: bool, term: string, maxPrice: Option<real>, runs: Runs)
    returns (results: seq<Entry>, closed: seq<Site>)
    ensures results == AllSites(imported, term, maxPrice, runs, SiteScrapers())
    ensures closed == (if imported then SiteOrder else [])
  {
    results, closed := [], [];
    if !imported {
      return;
    }
    var item := SearchItem(term, maxPrice);
    var noon := NoonTurn(runs.noon, item);
    closed := closed + [NoonSite];
    var namshi := NamshiTurn(runs.namshi, item);
    closed := closed + [NamshiSite];
    var amazon := AmazonTurn(runs.amazon, item);
    closed := closed + [AmazonSite];
    results := [
      Entry("noon", "Noon.com", noon, maxPrice),
      Entry("namshi", "Namshi.com", namshi, maxPrice),
      Entry("amazon", "Amazon.ae", amazon, maxPrice)];
  }

  /** With the scrapers imported, every site key is present, once each, in the fixed order. */
  lemma SiteKeysPresent(imported: bool, term: string, maxPrice: Option<real>, runs: Runs, scrapers: Scrapers)
    ensures imported ==> Keys(AllSites(imported, term, maxPrice, runs, scrapers)) == SiteKeys
    ensures !imported ==> AllSites(imported, term, maxPrice, runs, scrapers) == []
  {
  }

  /** Every entry carries the requested ceiling unchanged. */
  lemma MaxPriceCarried(imported: bool, term: string, maxPrice: Option<real>, runs: Runs, scrapers: Scrapers, e: Entry)
    requires e in AllSites(imported, term, maxPrice, runs, scrapers)
    ensures e.maxPrice == maxPrice
  {
  }

  /** The site's turn, by position in the key order. */
  function RunAt(runs: Runs, i: nat): SiteRun
    requires i < 3
  {
    if i == 0 then runs.noon else if i == 1 then runs.namshi else runs.amazon
  }

  /**
   * Failure isolation: a site's entry depends on that site's turn alone, so
   * what happens on one site never changes another site's products.
   */
  lemma SitesIsolated(term: string, maxPrice: Option<real>, runs: Runs, other: Runs, scrapers: Scrapers, i: nat)
    requires i < 3 && RunAt(runs, i) == RunAt(other, i)
    ensures AllSites(true, term, maxPrice, runs, scrapers)[i] == AllSites(true, term, maxPrice, other, scrapers)[i]
  {
  }

  /** A site whose setup failed or whose search raised reports no products. */
  lemma FailedSiteEmpty(term: string, maxPrice: Option<real>, runs: Runs, scrapers: Scrapers, i: nat)
    requires i < 3 && !RunAt(runs, i).Loaded?
    ensures AllSites(true, term, maxPrice, runs, scrapers)[i].products == []
  {
  }

  /** A search that never returns more than `n` products. */
  ghost predicate Capped(search: Search, n: nat) {
    forall load, item :: |search(load, item)| <= n
  }

  lemma NoonCapped()
    ensures Capped(NoonSearch(), 5)
  {
  }

  lemma NamshiCapped()
    ensures Capped(NamshiSearch(), 10)
  {
  }

  lemma AmazonCapped()
    ensures Capped(AmazonSearch(), 10)
  {
  }

  /** Noon reports at most 5 products, Namshi and Amazon at most 10 each. */
  lemma SiteCaps(term: string, maxPrice: Option<real>, runs: Runs)
    ensures var r := AllSites(true, term, maxPrice, runs, SiteScrapers());
      |r| == 3 && |r[0].products| <= 5 && |r[1].products| <= 10 && |r[2].products| <= 10
  {
    NoonCapped();
    NamshiCapped();
    AmazonCapped();
    CapsOf(term, maxPrice, runs, SiteScrapers());
  }

  lemma CapsOf(term: string, maxPrice: Option<real>, runs: Runs, scrapers: Scrapers)
    requires Capped(scrapers.noon, 5) && Capped(scrapers.namshi, 10) && Capped(scrapers.amazon, 10)
    ensures var r := AllSites(true, term, maxPrice, runs, scrapers);
      |r| == 3 && |r[0].products| <= 5 && |r[1].products| <= 10 && |r[2].products| <= 10
  {
  }

  lemma NoonInBudget(load: Option<Page>, item: SearchItem, x: Noon.ProductInfo)
    requires x in Noon.SearchResults(load, item)
    ensures WithinBudget(x.priceValue, item.maxPrice) != Some(false)
  {
    if load.Some? && !Noon.ErrorPage(load.value) && load.value.sourceLength >= 1000 {
      Noon.ReportedRecords(load.value, item, x);
    }
  }

  lemma NamshiInBudget(load: Option<Page>, item: SearchItem, x: Namshi.ProductInfo)
    requires x in Namshi.SearchResults(load, item)
    ensures WithinBudget(x.priceValue, item.maxPrice) != Some(false)
  {
    if load.Some? && !Namshi.ErrorPage(load.value) {
      Namshi.ReportedRecords(load.value, item, x);
    }
  }

  lemma AmazonInBudget(load: Option<Page>, item: SearchItem, x: Amazon.ProductInfo)
    requires x in Amazon.SearchResults(load, item)
    ensures WithinBudget(x.priceValue, item.maxPrice) != Some(false)
  {
    if load.Some? && !Amazon.Blocked(load.value) {
      Amazon.ReportedRecords(load.value, item, x);
    }
  }

  /** Every collected product has passed its scraper's budget gate. */
  predicate InBudget(entries: seq<Entry>) {
    forall e, l :: e in entries && l in e.products ==> WithinBudget(l.priceValue, e.maxPrice) != Some(false)
  }

  /**
   * No collected product is over budget: each scraper already dropped the
   * records above the ceiling that every entry carries.
   */
  lemma AllSitesInBudget(imported: bool, term: string, maxPrice: Option<real>, runs: Runs)
    ensures InBudget(AllSites(imported, term, maxPrice, runs, SiteScrapers()))
  {
    NoonSearchGated();
    NamshiSearchGated();
    AmazonSearchGated();
    InBudgetOf(imported, term, maxPrice, runs, SiteScrapers());
  }

  /** A search whose every product passes the ceiling of the request it answers. */
  ghost predicate Gated(search: Search) {
    forall load, item, l :: l in search(load, item) ==> WithinBudget(l.priceValue, item.maxPrice) != Some(false)
  }

  lemma InBudgetOf(imported: bool, term: string, maxPrice: Option<real>, runs: Runs, scrapers: Scrapers)
    requires Gated(scrapers.noon) && Gated(scrapers.namshi) && Gated(scrapers.amazon)
    ensures InBudget(AllSites(imported, term, maxPrice, runs, scrapers))
  {
  }

  lemma NoonSearchGated()
    ensures Gated(NoonSearch())
  {
    forall load, item, l | l in NoonSearch()(load, item)
      ensures WithinBudget(l.priceValue, item.maxPrice) != Some(false)
    {
      NoonListingGated(load, item, l);
    }
  }

  lemma NoonListingGated(load: Option<Page>, item: SearchItem, l: Listing)
    requires l in NoonListings(Noon.SearchResults(load, item))
    ensures WithinBudget(l.priceValue, item.maxPrice) != Some(false)
  {
    var ps := Noon.SearchResults(load, item);
    var k :| 0 <= k < |ps| && NoonListings(ps)[k] == l;
    NoonInBudget(load, item, ps[k]);
  }

  lemma NamshiSearchGated()
    ensures Gated(NamshiSearch())
  {
    forall load, item, l | l in NamshiSearch()(load, item)
      ensures WithinBudget(l.priceValue, item.maxPrice) != Some(false)
    {
      NamshiListingGated(load, item, l);
    }
  }

  lemma NamshiListingGated(load: Option<Page>, item: SearchItem, l: Listing)
    requires l in NamshiListings(Namshi.SearchResults(load, item))
    ensures WithinBudget(l.priceValue, item.maxPrice) != Some(false)
  {
    var ps := Namshi.SearchResults(load, item);
    var k :| 0 <= k < |ps| && NamshiListings(ps)[k] == l;
    NamshiInBudget(load, item, ps[k]);
  }

  lemma AmazonSearchGated()
    ensures Gated(AmazonSearch())
  {
    forall load, item, l | l in AmazonSearch()(load, item)
      ensures WithinBudget(l.priceValue, item.maxPrice) != Some(false)
    {
      AmazonListingGated(load, item, l);
    }
  }

  lemma AmazonListingGated(load: Option<Page>, item: SearchItem, l: Listing)
    requires l in AmazonListings(Amazon.SearchResults(load, item))
    ensures WithinBudget(l.priceValue, item.maxPrice) != Some(false)
  {
    var ps := Amazon.SearchResults(load, item);
    var k :| 0 <= k < |ps| && AmazonListings(ps)[k] == l;
    AmazonInBudget(load, item, ps[k]);
  }

  // ----- The default output file name -----

  /** The characters the name keeps: `c.isalnum() or c in (' ', '-', '_')`. */
  predicate NameChar(c: char) {
    IsAlnum(c) || c == ' ' || c == '-' || c == '_'
  }

  function NameKeep(): char -> bool {
    c => NameChar(c)
  }

  /**
   * `"".join(c for c in term if <NameChar>).strip().replace(' ', '_')`.
   */
  function SafeTerm(term: string): string {
    ReplaceChar(Strip(KeepChars(term, NameKeep())), ' ', '_')
  }

  /** The characters a derived name is made of. */
  predicate SafeChar(c: char) {
    IsAlnum(c) || c == '-' || c == '_'
  }

  /** The name part contains no space and only letters, digits, '-' and '_'. */
  lemma SafeTermChars(term: string)
    ensures forall i :: 0 <= i < |SafeTerm(term)| ==> SafeChar(SafeTerm(term)[i])
    ensures ' ' !in SafeTerm(term)
  {
    var kept := KeepChars(term, NameKeep());
    KeepCharsChars(term, NameKeep());
    assert forall i :: 0 <= i < |kept| ==> NameKeep()(kept[i]);
    StripNameChars(kept);
    SpacesReplaced(Strip(kept));
  }

  lemma StripNameChars(kept: string)
    requires forall i :: 0 <= i < |kept| ==> NameKeep()(kept[i])
    ensures forall i :: 0 <= i < |Strip(kept)| ==> NameChar(Strip(kept)[i])
  {
    var a := StripIsSlice(kept);
    var s := Strip(kept);
    assert forall i :: 0 <= i < |s| ==> s[i] == kept[a + i];
  }

  lemma SpacesReplaced(s: string)
    requires forall i :: 0 <= i < |s| ==> NameChar(s[i])
    ensures forall i :: 0 <= i < |ReplaceChar(s, ' ', '_')| ==> SafeChar(ReplaceChar(s, ' ', '_')[i])
    ensures ' ' !in ReplaceChar(s, ' ', '_')
  {
    var r := ReplaceChar(s, ' ', '_');
    assert forall i :: 0 <= i < |r| ==> SafeChar(r[i]);
  }

  lemma {:induction false} KeepAllChars(s: string, keep: char -> bool)
    requires forall i :: 0 <= i < |s| ==> keep(s[i])
    ensures KeepChars(s, keep) == s
    decreases |s|
  {
    if s != [] {
      KeepAllChars(s[1..], keep);
    }
  }

  /** A safe character is not whitespace. */
  lemma SafeCharNotSpace(c: char)
    requires SafeChar(c)
    ensures NameChar(c) && !IsSpace(c)
  {
  }

  lemma KeepSafe(s: string)
    requires forall i :: 0 <= i < |s| ==> SafeChar(s[i])
    ensures KeepChars(s, NameKeep()) == s
  {
    forall i | 0 <= i < |s| ensures NameKeep()(s[i]) {
      SafeCharNotSpace(s[i]);
    }
    KeepAllChars(s, NameKeep());
  }

  lemma StrippedSafe(s: string)
    requires forall i :: 0 <= i < |s| ==> SafeChar(s[i])
    ensures Strip(s) == s
  {
    if s != [] {
      SafeCharNotSpace(s[0]);
      SafeCharNotSpace(s[|s| - 1]);
    }
    StripUnchanged(s);
  }

  lemma ReplaceAbsent(s: string, a: char, b: char)
    requires forall i :: 0 <= i < |s| ==> s[i] != a
    ensures ReplaceChar(s, a, b) == s
  {
  }

  /** A name made of safe characters is its own safe name. */
  lemma SafeTermOfSafe(s: string)
    requires forall i :: 0 <= i < |s| ==> SafeChar(s[i])
    ensures SafeTerm(s) == s
  {
    ReplaceAbsent(s, ' ', '_');
    StrippedSafe(s);
    KeepSafe(s);
    SafeTermSteps(s);
  }

  lemma SafeTermSteps(s: string)
    requires KeepChars(s, NameKeep()) == s && Strip(s) == s && ReplaceChar(s, ' ', '_') == s
    ensures SafeTerm(s) == s
  {
  }

  /** An already safe name is its own safe name. */
  lemma SafeTermIdempotent(term: string)
    ensures SafeTerm(SafeTerm(term)) == SafeTerm(term)
  {
    SafeTermChars(term);
    SafeTermOfSafe(SafeTerm(term));
  }

  const NamePrefix := "unified_search_"

  /** `f"unified_search_{SafeTerm(term)}{ext}"`. */
  function DefaultName(term: string, ext: string): (r: string)
    ensures |r| == |NamePrefix| + |SafeTerm(term)| + |ext|
    ensures StartsWith(r, NamePrefix) && EndsWith(r, ext)
    ensures r[|NamePrefix|..|r| - |ext|] == SafeTerm(term)
  {
    Wrapped(NamePrefix, SafeTerm(term), ext);
    NamePrefix + SafeTerm(term) + ext
  }

  // ----- The saved records -----

  /** `getattr(product, name, None)`. */
  function JsonAttr(a: Attr): (r: Option<string>)
    ensures a.Absent? ==> r.None?
  {
    match a
    case Absent => None
    case Present(v) => v
  }

  /**
   * A CSV cell: `getattr(product, name, '')`, which the CSV writer puts
   * down as the empty string when the attribute holds `None`.
   */
  function CsvCell(a: Attr): (r: string)
    ensures a.Absent? ==> r == ""
  {
    match a
    case Absent => ""
    case Present(v) => v.GetOr("")
  }

  /** One product of the JSON document, its fields in the order they are written. */
  datatype JsonProduct = JsonProduct(
    title: string,
    price: string,
    priceValue: Option<real>,
    url: string,
    imageUrl: Option<string>,
    rating: Option<string>,
    brand: Option<string>,
    discount: Option<string>,
    deliveryInfo: Option<string>,
    withinBudget: Option<bool>)

  /** One site of the JSON document: `site_name`, `max_price_filter`, `product_count`, `products`. */
  datatype JsonSite = JsonSite(
    key: string,
    siteName: string,
    maxPriceFilter: Option<real>,
    productCount: nat,
    products: seq<JsonProduct>)

  /** The saved JSON document; the timestamp comes from the clock and is a parameter here. */
  datatype JsonDoc = JsonDoc(searchTerm: string, timestamp: string, sites: seq<JsonSite>)

  function JsonProductOf(l: Listing, maxPrice: Option<real>): JsonProduct {
    JsonProduct(l.title, l.price, l.priceValue, l.url, JsonAttr(l.imageUrl), JsonAttr(l.rating),
      JsonAttr(l.brand), JsonAttr(l.discount), JsonAttr(l.deliveryInfo),
      WithinBudget(l.priceValue, maxPrice))
  }

  /** A site's JSON entry: its count is the number of its products, listed in order. */
  function JsonSiteOf(e: Entry): (s: JsonSite)
    ensures s.key == e.key && s.siteName == e.site && s.maxPriceFilter == e.maxPrice
    ensures s.productCount == |s.products| == |e.products|
    ensures forall i :: 0 <= i < |e.products| ==> s.products[i] == JsonProductOf(e.products[i], e.maxPrice)
  {
    JsonSite(e.key, e.site, e.maxPrice, |e.products|,
      seq(|e.products|, i requires 0 <= i < |e.products| => JsonProductOf(e.products[i], e.maxPrice)))
  }

  /** The document `save_unified_results` writes, one site after another in result order. */
  function JsonDocOf(results: seq<Entry>, term: string, timestamp: string): (d: JsonDoc)
    ensures d.searchTerm == term && |d.sites| == |results|
    ensures forall i :: 0 <= i < |results| ==> d.sites[i] == JsonSiteOf(results[i])
  {
    JsonDoc(term, timestamp, seq(|results|, i requires 0 <= i < |results| => JsonSiteOf(results[i])))
  }

  /** The header of the CSV file, in column order. */
  const CsvFields: seq<string> := [
    "site", "title", "price", "price_value", "brand", "rating",
    "review_count", "delivery_info", "availability", "discount_info",
    "within_budget", "url", "image_url"]

  /** One CSV row, its cells in the order of `CsvFields`. */
  datatype CsvRow = CsvRow(
    site: string,
    title: string,
    price: string,
    priceValue: Option<real>,
    brand: string,
    rating: string,
    reviewCount: string,
    deliveryInfo: string,
    availability: string,
    discountInfo: string,
    withinBudget: Option<bool>,
    url: string,
    imageUrl: string)

  function CsvRowOf(site: string, l: Listing, maxPrice: Option<real>): CsvRow {
    CsvRow(site, l.title, l.price, l.priceValue, CsvCell(l.brand), CsvCell(l.rating),
      CsvCell(l.reviewCount), CsvCell(l.deliveryInfo), CsvCell(l.availability),
      CsvCell(l.discountInfo), WithinBudget(l.priceValue, maxPrice), l.url, CsvCell(l.imageUrl))
  }

  /** One site's rows, in product order. */
  function SiteRows(e: Entry): (r: seq<CsvRow>)
    ensures |r| == |e.products|
    ensures forall i :: 0 <= i < |e.products| ==> r[i] == CsvRowOf(e.site, e.products[i], e.maxPrice)
  {
    seq(|e.products|, i requires 0 <= i < |e.products| => CsvRowOf(e.site, e.products[i], e.maxPrice))
  }

  /** The rows `save_unified_results_csv` writes after the header: site after site. */
  function CsvRows(results: seq<Entry>): seq<CsvRow>
    decreases |results|
  {
    if results == [] then [] else CsvRows(results[..|results| - 1]) + SiteRows(results[|results| - 1])
  }

  /** The number of products over all sites, the sum of the JSON `product_count`s. */
  function TotalProducts(results: seq<Entry>): nat
    decreases |results|
  {
    if results == [] then 0 else TotalProducts(results[..|results| - 1]) + |results[|results| - 1].products|
  }

  /** The CSV file has exactly one row per collected product. */
  lemma {:induction false} CsvRowCount(results: seq<Entry>)
    ensures |CsvRows(results)| == TotalProducts(results)
    decreases |results|
  {
    if results != [] {
      CsvRowCount(results[..|results| - 1]);
    }
  }

  /** Rows follow the result order: the rows of a longer result extend those of its prefix. */
  lemma {:induction false} CsvRowsAppend(a: seq<Entry>, b: seq<Entry>)
    ensures CsvRows(a + b) == CsvRows(a) + CsvRows(b)
    decreases |b|
  {
    if b == [] {
      assert a + b == a;
    } else {
      var front, last := b[..|b| - 1], b[|b| - 1];
      assert b == front + [last];
      assert a + b == (a + front) + [last];
      calc {
        CsvRows(a + b);
        { CsvRowsSnoc(a + front, last); }
        CsvRows(a + front) + SiteRows(last);
        { CsvRowsAppend(a, front); }
        CsvRows(a) + CsvRows(front) + SiteRows(last);
        { CsvRowsSnoc(front, last); }
        CsvRows(a) + CsvRows(b);
      }
    }
  }

  lemma CsvRowsSnoc(results: seq<Entry>, e: Entry)
    ensures CsvRows(results + [e]) == CsvRows(results) + SiteRows(e)
  {
    assert (results + [e])[..|results|] == results;
  }

  /**
   * The two formats agree on every field they share: the CSV cell is the
   * JSON value with `None` written as the empty string.
   */
  lemma CsvAgreesWithJson(site: string, l: Listing, maxPrice: Option<real>)
    ensures CsvRowOf(site, l, maxPrice).withinBudget == JsonProductOf(l, maxPrice).withinBudget
    ensures CsvRowOf(site, l, maxPrice).priceValue == JsonProductOf(l, maxPrice).priceValue
    ensures CsvRowOf(site, l, maxPrice).brand == JsonProductOf(l, maxPrice).brand.GetOr("")
    ensures CsvRowOf(site, l, maxPrice).rating == JsonProductOf(l, maxPrice).rating.GetOr("")
    ensures CsvRowOf(site, l, maxPrice).deliveryInfo == JsonProductOf(l, maxPrice).deliveryInfo.GetOr("")
    ensures CsvRowOf(site, l, maxPrice).imageUrl == JsonProductOf(l, maxPrice).imageUrl.GetOr("")
  {
  }

  /**
   * Namshi's discount is read under the name `discount` and Amazon's under
   * `discount_info`: the JSON document keeps only the first and the CSV
   * file only the second.
   */
  lemma DiscountColumns(p: Namshi.ProductInfo, q: Amazon.ProductInfo, site: string, maxPrice: Option<real>)
    ensures JsonProductOf(NamshiListing(p), maxPrice).discount == p.discount
    ensures CsvRowOf(site, NamshiListing(p), maxPrice).discountInfo == ""
    ensures JsonProductOf(AmazonListing(q), maxPrice).discount == None
    ensures CsvRowOf(site, AmazonListing(q), maxPrice).discountInfo == q.discountInfo.GetOr("")
  {
  }

  /**
   * No saved record says "over budget", in either format, when every
   * collected product passed its scraper's gate (`AllSitesInBudget`).
   */
  lemma SavedNeverOverBudget(results: seq<Entry>, term: string, timestamp: string)
    requires InBudget(results)
    ensures forall s, j :: (s in JsonDocOf(results, term, timestamp).sites && 0 <= j < |s.products|) ==>
      s.products[j].withinBudget != Some(false)
    ensures forall row :: row in CsvRows(results) ==> row.withinBudget != Some(false)
  {
    forall s, j | s in JsonDocOf(results, term, timestamp).sites && 0 <= j < |s.products|
      ensures s.products[j].withinBudget != Some(false)
    {
      var i :| 0 <= i < |results| && JsonDocOf(results, term, timestamp).sites[i] == s;
      assert results[i].products[j] in results[i].products;
    }
    forall row | row in CsvRows(results)
      ensures row.withinBudget != Some(false)
    {
      RowsInBudget(results, row);
    }
  }

  lemma {:induction false} RowsInBudget(results: seq<Entry>, row: CsvRow)
    requires InBudget(results) && row in CsvRows(results)
    ensures row.withinBudget != Some(false)
    decreases |results|
  {
    var front, last := results[..|results| - 1], results[|results| - 1];
    if row in CsvRows(front) {
      assert forall e :: e in front ==> e in results;
      RowsInBudget(front, row);
    } else {
      var k :| 0 <= k < |SiteRows(last)| && SiteRows(last)[k] == row;
      assert last.products[k] in last.products;
    }
  }

  // ----- save_results_based_on_format -----

  /** What is saved: a JSON document or a CSV file (header and rows), under its file name. */
  datatype Saved =
    | JsonFile(name: string, doc: JsonDoc)
    | CsvFile(name: string, header: seq<string>, rows: seq<CsvRow>)

  /**
   * The file name: `output + ext` when `--output` was given non-empty,
   * otherwise the name derived from the search term.
   */
  function OutputName(term: string, output: Option<string>, ext: string): (r: string)
    ensures EndsWith(r, ext)
  {
    if TruthyText(output) then
      Wrapped(output.value, [], ext);
      assert output.value + [] + ext == output.value + ext;
      output.value + ext
    else DefaultName(term, ext)
  }

  /** `save_results_based_on_format`: CSV when `--csv` was given, JSON otherwise. */
  function SaveResults(results: seq<Entry>, term: string, csv: bool, output: Option<string>, timestamp: string): (s: Saved)
    ensures s.CsvFile? <==> csv
  {
    if csv then CsvFile(OutputName(term, output, ".csv"), CsvFields, CsvRows(results))
    else JsonFile(OutputName(term, output, ".json"), JsonDocOf(results, term, timestamp))
  }

  /**
   * An explicit non-empty `--output x` gives "x.csv" or "x.json"; without one
   * (or with an empty one) the name is derived from the term and the
   * format's extension.
   */
  lemma SaveTarget(results: seq<Entry>, term: string, csv: bool, output: Option<string>, timestamp: string)
    ensures var s := SaveResults(results, term, csv, output, timestamp);
      var ext := if csv then ".csv" else ".json";
      && (TruthyText(output) ==> s.name == output.value + ext)
      && (!TruthyText(output) ==> s.name == DefaultName(term, ext) && ' ' !in s.name[|NamePrefix|..|s.name| - |ext|])
  {
    SafeTermChars(term);
  }
}
