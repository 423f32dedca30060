# Multi-site product scraper: extraction, budget gate and aggregation

This project models the part of the Noon.com, Namshi.com and Amazon.ae
scrapers that turns a loaded results page into product records, and the
unified driver that runs the three of them. It covers:

- **Price normaliser**: `extract_numeric_price` keeps digits, `.` and `,`,
  drops the commas and reads the rest with `float()` (`Decimal`).
- **Candidate location**: the container-selector tiers, with or without a
  text filter, then the generic `div` scan with its cap (`Amazon`, `Namshi`,
  `Noon`).
- **Record builders**: the per-field selector cascades in their two shapes.
  - *Assign then test*: title and brand.
  - *Test then assign*: price, rating, delivery, discount, image and link.
- **Record builders, continued**:
  - line-by-line title fallbacks;
  - the regular-expression price fallbacks with their plausibility floors and
    ranges (`Patterns`);
  - title clean-up and truncation;
  - Namshi's brand merge and price decoration;
  - the search-page URL used when no product link is found.
- **Budget gate**: `if max_price and price_value: keep iff price_value <= max_price`,
  with Python truthiness (a 0 ceiling or price counts as absent) (`Records`).
- **Batch file parser**: `parse_items_from_file` over the file's lines
  (`ItemsFile`).
- **Unified driver**: `search_all_sites` with per-site failure isolation and
  a guaranteed `close()`, the JSON document and CSV rows it saves, and the
  output file name (`Unified`).

The browser is data (`Dom`). A candidate container carries:

- its text (absent when reading `.text` raises);
- its tag and attributes;
- a table answering `find_element(selector)`, where a missing key means the
  call raised;
- a table answering `find_elements(selector)`.

A page carries its title, the length of its source, the answers of
`find_elements` for the container selectors, and its `div`s in document order.

Each imperative loop in the source is a `method` with a `while` loop. Each
method is proved equal to a specification function (`Cascade.FindFirst` to
`FirstSome`, `Cascade.AssignUntil` to `LastAssigned`, `Records.GateLoop` to
`Gate`, …). The properties are lemmas about those functions.

## Model

| member | source | states |
|---|---|---|
| `Decimal.ExtractNumericPrice` | simple_amazon_scraper.py:53-66 | The price is present exactly when the text holds a digit and at most one '.', and it is never negative |
| `Decimal.AedExample` | simple_noon_scraper.py:49-62 | The label "AED 1,299.00" gives the price 1299.0: the comma is dropped and "1299.00" is read as a decimal |
| `Decimal.ParseUnsignedDefined` | simple_noon_scraper.py:49-62 | On digit-and-dot text, `float()` succeeds exactly when there is a digit and at most one dot |
| `Decimal.FloatReprRoundTrip` | simple_amazon_scraper.py:351-353 | `str(float(g))` of a matched rating number reads back through `float()` as the same value |
| `Decimal.ParseFloatDigits` | simple_namshi_scraper.py:365-367 | `float()` of a digit run equals its `int()` value |
| `Records.WithinBudget` | simple_amazon_scraper.py:519 | `within_budget` is set exactly when both ceiling and price are truthy, and it is False exactly when the budget gate would reject the record |
| `Records.AdmittedWithinBudget` | simple_amazon_scraper.py:209-216 | A record the gate admits is never reported as over budget |
| `Records.GateLoop` | simple_amazon_scraper.py:204-220 | The extraction loop returns the gate's records: built records the budget test admits, in candidate order |
| `Records.GateIsFilter` | simple_namshi_scraper.py:186-202 | The gate is the order-preserving filter of the built records by the budget test |
| `Records.NoCeilingKeepsAll` | simple_noon_scraper.py:195-211 | Without a truthy ceiling, every built record is kept |
| `Records.GateMembers` | simple_amazon_scraper.py:209-216 | A record is output exactly when it was built and the budget test admits it |
| `Records.GateReport` | simple_amazon_scraper.py:204-216 | Output records are exactly the admitted records some candidate built. Without a ceiling everything built is kept, and no output record is over budget |
| `Records.BuiltAppend` | simple_amazon_scraper.py:204-207 | Records are built one candidate at a time, so building distributes over concatenation |
| `Records.CleanTitle` | simple_amazon_scraper.py:276-279 | A cleaned title is whitespace-collapsed, at most limit+3 long, unchanged apart from collapsing and stripping when it fits the limit, and otherwise its first `limit` characters followed by "..." |
| `Records.CleanTitleIdempotent` | simple_noon_scraper.py:262-265 | Cleaning a cleaned title changes nothing |
| `Records.CleanTitleNonEmpty` | simple_namshi_scraper.py:276-279 | A title starting with a non-space character is never cleaned away |
| `Records.ResolveHref` | simple_amazon_scraper.py:450-455 | A "/" path is put after the host, an "http" link is kept, and anything else keeps the default URL |
| `Records.OrText` | simple_amazon_scraper.py:471 | `x or y` gives x when x is a non-empty string, and y otherwise |
| `Cascade.FirstSomeWins` | simple_amazon_scraper.py:389-397 | Test then assign: the value comes from the first strategy that gives one, every earlier strategy gave none, and the result is none exactly when all strategies give none |
| `Cascade.FindFirst` | simple_amazon_scraper.py:295-313 | The test-then-assign loop with `break` returns the first strategy's value |
| `Cascade.AssignUntil` | simple_amazon_scraper.py:249-256 | The assign-then-test loop returns what `LastAssigned` says |
| `Cascade.LastAssignedIs` | simple_namshi_scraper.py:227-234 | Assign then test ends with the first read that passes the test. Failing that, it ends with the last successful read, or the initial value when nothing was read |
| `Cascade.FilterLoop` | simple_amazon_scraper.py:162-170 | Collecting the valid elements is the order-preserving filter |
| `Cascade.FilterKeeps` | simple_amazon_scraper.py:163-168 | Every element that passes the test is kept |
| `Cascade.FilterPrefix` | simple_amazon_scraper.py:186-197 | Filtering a prefix gives a prefix of the filtered sequence |
| `Cascade.ScanUpTo` | simple_amazon_scraper.py:186-199 | The capped `div` scan returns the first `cap` passing elements, in order |
| `Cascade.FirstFilteredTier` | simple_amazon_scraper.py:155-179 | The tier loop returns the passing elements of the first selector that has any, or [] |
| `Cascade.FilteredPickWins` | simple_amazon_scraper.py:155-179 | The winning selector's passing elements are the pick. They are not empty, and every earlier selector had none |
| `Cascade.NonEmptyPickWins` | simple_namshi_scraper.py:150-161 | The first selector that finds any element wins with all its elements. Every earlier one raised or found nothing |
| `Cascade.FindNested` | simple_namshi_scraper.py:361-370 | The nested line/number loop with both `break`s returns the first accepted number of the first line that has one |
| `Cascade.NestedPickFrom` | simple_noon_scraper.py:313-323 | The nested pick's value comes from one number of one line |
| `Cascade.FirstFailing` | simple_noon_scraper.py:157-158 | The position of the first element whose `.text` raises. Every element before it reads |
| `Cascade.AppendUntilRaise` | simple_noon_scraper.py:157-172 | The inner loop appends the passing elements before the first one whose text raises, and reports whether it was cut short |
| `Text.CollapseSpacesCollapsed` | simple_amazon_scraper.py:277 | `re.sub(r'\s+', ' ', t)` leaves no whitespace run and no whitespace other than ' ' |
| `Text.CollapseSpacesFixed` | simple_amazon_scraper.py:277 | Collapsing text that is already collapsed changes nothing |
| `Text.StripIdempotent` | simple_amazon_scraper.py:636 | `strip()` of stripped text changes nothing |
| `Text.SplitJoin` | simple_amazon_scraper.py:642 | `split(',')` loses nothing: rejoining gives the line back, and no part holds a separator |
| `Text.SplitAtSeparator` | simple_amazon_scraper.py:641-643 | A line holding a comma splits into at least two parts |
| `Patterns.SearchLeftmost` | simple_amazon_scraper.py:323 | `re.search` returns the group at the leftmost matching position, and it is None exactly when no position matches |
| `Patterns.AmountAt` | simple_amazon_scraper.py:323 | `\d+(?:\.\d+)?` captures a decimal number |
| `Patterns.OffscreenTry` | simple_amazon_scraper.py:323 | The offscreen pattern's group, taken after "aed" and any non-digits, is a decimal number |
| `Patterns.RatingNumberAt` | simple_amazon_scraper.py:349 | `(\d+\.?\d*)` captures digits with at most one dot |
| `Patterns.MatchesDecimalParses` | simple_amazon_scraper.py:308-310 | Text that `^\d+(\.\d+)?$` accepts reads through `float()` and holds no comma |
| `Patterns.DecimalNumberParses` | simple_namshi_scraper.py:298-300 | A `\d+(\.\d+)?` number reads through `float()` |
| `Patterns.RatingNumberParses` | simple_noon_scraper.py:389-390 | A `\d+\.?\d*` number reads through `float()` |
| `Urls.QuotePlusSafe` | simple_amazon_scraper.py:436 | `quote_plus` output holds only unreserved characters, '+' and '%' |
| `Urls.QuotePlusUnreserved` | simple_noon_scraper.py:326 | A term of letters, digits and `_.-~` is sent unchanged |
| `Amazon.SearchUrl` | simple_amazon_scraper.py:436 | The default record URL is the search page followed by the quoted term |
| `Amazon.ExtractTitle` | simple_amazon_scraper.py:237-279 | The title loops compute `TitleOf`: selectors (assign then test), then line fallback, then "Unknown Product", then clean-up |
| `Amazon.TitleChoice` | simple_amazon_scraper.py:249-274 | The title is the first selector text over 10 chars. Failing that, it is the last text found. Only when that is empty does the first qualifying line or "Unknown Product" decide |
| `Amazon.TitleShape` | simple_amazon_scraper.py:273-279 | The title is non-empty, collapsed, stripped and at most 153 chars |
| `Amazon.ExtractPrice` | simple_amazon_scraper.py:281-330 | The price loops give the structured price, else the offscreen price, else "Price not available" with no value |
| `Amazon.StructuredPriceAgrees` | simple_amazon_scraper.py:295-311 | A structured price "AED " + text has the comma-free decimal as its value, which `extract_numeric_price` reads back |
| `Amazon.OffscreenPriceAgrees` | simple_amazon_scraper.py:315-330 | The offscreen amount is a comma-free decimal number, and `extract_numeric_price` of its label gives its value |
| `Amazon.PriceAgrees` | simple_amazon_scraper.py:281-330 | `extract_numeric_price(price) == price_value`. The value is present exactly when a price was found, and it is never negative |
| `Amazon.RatingReadInRange` | simple_amazon_scraper.py:341-356 | A rating one selector accepts reads back as a number in [0, 5] |
| `Amazon.RatingInRange` | simple_amazon_scraper.py:332-356 | The reported rating reads back through `float()` as a number in [0, 5] |
| `Amazon.ExtractUrl` | simple_amazon_scraper.py:435-457 | The link loop gives the first "/dp/" link, resolved against the host, or the search URL |
| `Amazon.UrlShape` | simple_amazon_scraper.py:435-457 | The record URL starts with "http" and is either the search URL or a "/dp/" link |
| `Amazon.ImageShape` | simple_amazon_scraper.py:459-476 | An image URL starts with "http" and has no "transparent" |
| `Amazon.DeliveryShape` | simple_amazon_scraper.py:380-397 | Delivery text is non-empty, under 100 chars, and mentions delivery, tomorrow or prime |
| `Amazon.AvailabilityShape` | simple_amazon_scraper.py:399-415 | Availability text is non-empty and mentions left or stock |
| `Amazon.DiscountShape` | simple_amazon_scraper.py:417-433 | Discount text is non-empty and mentions off or '%' |
| `Amazon.ExtractProductInfo` | simple_amazon_scraper.py:228-495 | The extractor returns None for unreadable text or stripped text under 20 chars, and otherwise the record of the field functions |
| `Amazon.SearchResults` | simple_amazon_scraper.py:106-226 | A search never reports more than 10 records |
| `Amazon.LocateCandidates` | simple_amazon_scraper.py:153-199 | Candidate location is the first filtered tier, else the capped `div` scan |
| `Amazon.SearchPage` | simple_amazon_scraper.py:201-222 | The first 10 candidates are built and gated |
| `Amazon.SearchItem` | simple_amazon_scraper.py:106-226 | `search_item` returns what `SearchResults` specifies for every load outcome |
| `Amazon.BlockedYieldsNothing` | simple_amazon_scraper.py:133-136 | A page whose title mentions robot or captcha yields [] |
| `Amazon.FailedLoadYieldsNothing` | simple_amazon_scraper.py:224-226 | A failed page load yields [] |
| `Amazon.TierWins` | simple_amazon_scraper.py:155-179 | The first selector with a passing element wins, and only its passing elements are kept. Those elements are over 30 chars and mention aed, price or the term |
| `Amazon.FallbackScan` | simple_amazon_scraper.py:181-199 | With no tier, the candidates are the first 10 divs with 100 < len < 1500, a keyword and a digit |
| `Amazon.ReportedRecords` | simple_amazon_scraper.py:203-222 | A record is reported exactly when it was built from one of the first 10 candidates and is admitted. Without a ceiling all built records are reported, and none is over budget |
| `Namshi.SearchUrl` | simple_namshi_scraper.py:392 | The default record URL is the search page followed by the quoted term |
| `Namshi.ExtractBrand` | simple_namshi_scraper.py:219-234 | The brand loop computes `BrandOf` (assign then test, length > 1) |
| `Namshi.BrandChoice` | simple_namshi_scraper.py:227-234 | The brand is the first one longer than 1 char, else the last one read |
| `Namshi.ExtractTitle` | simple_namshi_scraper.py:236-279 | The title loops, brand merge and clean-up compute `TitleOf` |
| `Namshi.TitleChoice` | simple_namshi_scraper.py:246-266 | The title is the first text over 5 chars, else the last one read. Only when that is empty does the first qualifying line decide |
| `Namshi.Merge` | simple_namshi_scraper.py:268-274 | The merged title is non-empty, contains the title, and contains the brand (case-insensitively) when there is one |
| `Namshi.MergeCases` | simple_namshi_scraper.py:268-274 | Gives "brand title" when both exist and the title lacks the brand. Otherwise the title, the brand alone when there is no title, or "Unknown Product" when there is neither |
| `Namshi.TitleShape` | simple_namshi_scraper.py:276-279 | The title is collapsed, stripped and at most 103 chars |
| `Namshi.ExtractPrice` | simple_namshi_scraper.py:281-370 | The price loops give the structured price, else the text price |
| `Namshi.ExtractTextPrice` | simple_namshi_scraper.py:342-370 | The pattern loop and then the line/number loop give `TextPrice` |
| `Namshi.DecimalLabel` | simple_namshi_scraper.py:294-301 | A structured price matching `^\d+(\.\d+)?$` has that decimal as its value, read back by `extract_numeric_price` |
| `Namshi.PatternPriceShape` | simple_namshi_scraper.py:343-357 | A pattern price is a decimal number whose value exceeds 10 |
| `Namshi.PatternMatchShape` | simple_namshi_scraper.py:344-348 | Each of the three patterns captures a decimal number |
| `Namshi.StandalonePriceShape` | simple_namshi_scraper.py:359-370 | A standalone price is 2-4 digits with value in [50, 5000], and `float()` gives that value |
| `Namshi.LinePickShape` | simple_namshi_scraper.py:363-368 | A number picked from a line is 2-4 digits in [50, 5000] |
| `Namshi.DigitsLabel` | simple_namshi_scraper.py:366-367 | "AED " + digits reads back through `extract_numeric_price` as `float(digits)` |
| `Namshi.PriceAgrees` | simple_namshi_scraper.py:281-370 | `extract_numeric_price(price) == price_value` before decoration. The value is present exactly when a price was found, and it is never negative |
| `Namshi.TextPriceAgrees` | simple_namshi_scraper.py:342-370 | The text price label reads back as its value, which is present exactly when a price was found |
| `Namshi.FallbackPriceBounds` | simple_namshi_scraper.py:342-370 | With no structured price, a pattern price exceeds 10, and otherwise a found price lies in [50, 5000] |
| `Namshi.Decorate` | simple_namshi_scraper.py:432-438 | The decorated label starts with the price, and it is unchanged exactly when there is neither old price nor discount |
| `Namshi.ExtractLabel` | simple_namshi_scraper.py:281-438 | The price, old-price and discount loops plus decoration give the decorated label, the undecorated value and the discount |
| `Namshi.RecordPrice` | simple_namshi_scraper.py:432-451 | Rating is None. `price_value` is the undecorated value, the label starts with the undecorated price, and it is undecorated exactly when there is no old price and no discount |
| `Namshi.LabelsTruthy` | simple_namshi_scraper.py:433-438 | A found old price or discount is always truthy |
| `Namshi.OldPriceShape` | simple_namshi_scraper.py:305-322 | The old price is "AED " followed by a `^\d+(\.\d+)?$` number |
| `Namshi.ExtractUrl` | simple_namshi_scraper.py:391-412 | The link loop gives the first "/buy/" or "/uae-en/" link, or the search URL |
| `Namshi.UrlShape` | simple_namshi_scraper.py:391-412 | The URL starts with "http" and is the search URL or holds "/buy/" or "/uae-en/" |
| `Namshi.ResolvedLink` | simple_namshi_scraper.py:405-410 | A resolved product link keeps its "/buy/" or "/uae-en/" marker, or falls back to the default |
| `Namshi.ImageShape` | simple_namshi_scraper.py:414-430 | An image URL starts with "http" and has no "placeholder" |
| `Namshi.DeliveryShape` | simple_namshi_scraper.py:372-389 | Delivery text is non-empty and under 50 chars |
| `Namshi.DiscountShape` | simple_namshi_scraper.py:324-340 | Discount text is non-empty and contains '%' |
| `Namshi.ExtractProductInfo` | simple_namshi_scraper.py:210-456 | The extractor returns None for unreadable text or stripped text under 10 chars, and otherwise the record of the field functions |
| `Namshi.SearchResults` | simple_namshi_scraper.py:100-208 | A search never reports more than 10 records |
| `Namshi.LocateCandidates` | simple_namshi_scraper.py:148-181 | Candidate location is all elements of the first non-empty selector, else the capped `div` scan |
| `Namshi.SearchPage` | simple_namshi_scraper.py:183-204 | The first 10 candidates are built and gated |
| `Namshi.SearchItem` | simple_namshi_scraper.py:100-208 | `search_item` returns what `SearchResults` specifies |
| `Namshi.ErrorPageYieldsNothing` | simple_namshi_scraper.py:127-130 | An error page ("can't be reached" or "error" in its title) yields [] |
| `Namshi.FailedLoadYieldsNothing` | simple_namshi_scraper.py:206-208 | A failed page load yields [] |
| `Namshi.TierWins` | simple_namshi_scraper.py:150-161 | The first selector that finds any element gives all its elements, with no text filter |
| `Namshi.FallbackScan` | simple_namshi_scraper.py:163-181 | With no tier, the candidates are the first 10 divs with 50 < len < 800 and a digit |
| `Namshi.ReportedRecords` | simple_namshi_scraper.py:185-204 | A record is reported exactly when it was built from one of the first 10 candidates and is admitted, and none is over budget |
| `Noon.SearchUrl` | simple_noon_scraper.py:326 | The default record URL is the search page followed by the quoted term |
| `Noon.ExtractTitle` | simple_noon_scraper.py:228-265 | The title loops compute `TitleOf` |
| `Noon.TitleChoice` | simple_noon_scraper.py:238-260 | The title is the first text over 10 chars, else the last one read, else the first line over 10 chars with no number/aed/%/off, else "Unknown Product" |
| `Noon.TitleShape` | simple_noon_scraper.py:262-265 | The title is collapsed, stripped and at most 103 chars |
| `Noon.ExtractPrice` | simple_noon_scraper.py:267-323 | The price loops give the structured price, else the text price |
| `Noon.ExtractTextPrice` | simple_noon_scraper.py:294-323 | The pattern loop, then the line/number loop, give `TextPrice` |
| `Noon.StructuredPrice` | simple_noon_scraper.py:280-290 | A structured price is digits once ',' and '.' are dropped, labelled with "AED " when it lacks it |
| `Noon.StructuredValue` | simple_noon_scraper.py:280-290 | A structured price has a value (through `extract_numeric_price` at line 400) exactly when it holds at most one '.' |
| `Noon.DottedStructuredPrice` | simple_noon_scraper.py:284-289 | "1.2.3" passes the structured test but `extract_numeric_price` gives None |
| `Noon.PatternPrice` | simple_noon_scraper.py:295-309 | A pattern price passes the > 50 floor on its digits with ',' and '.' dropped, and has a value |
| `Noon.InRangeLabel` | simple_noon_scraper.py:316-321 | A last-resort number lies in [100, 50000] and reads back as such |
| `Noon.StandalonePrice` | simple_noon_scraper.py:311-323 | The last-resort price reads back with a value in [100, 50000] |
| `Noon.PriceShape` | simple_noon_scraper.py:267-323 | The price is "Price not available" or starts with "AED " |
| `Noon.TextPriceValue` | simple_noon_scraper.py:294-323 | A text price has a value exactly when one was found |
| `Noon.RecordPrice` | simple_noon_scraper.py:399-409 | `price_value = extract_numeric_price(price)`: none for the placeholder and never negative. Presence is tied to finding a price for text prices and to at most one '.' for structured ones |
| `Noon.RatingShape` | simple_noon_scraper.py:377-395 | The rating is raw text matching `^\d+\.?\d*$` whose value is in [0, 5] |
| `Noon.ExtractUrl` | simple_noon_scraper.py:325-356 | The link loop and the container's own link give `UrlOf` |
| `Noon.UrlShape` | simple_noon_scraper.py:325-356 | The URL starts with "http", or it is the container's own "/p/" href |
| `Noon.LinkShape` | simple_noon_scraper.py:336-347 | The link loop's URL starts with "http" |
| `Noon.ImageShape` | simple_noon_scraper.py:358-375 | An image URL starts with "http" and has no "placeholder" |
| `Noon.ExtractProductInfo` | simple_noon_scraper.py:219-413 | The extractor returns None for unreadable text or stripped text under 10 chars, and otherwise the record of the field functions |
| `Noon.SearchResults` | simple_noon_scraper.py:96-217 | A search never reports more than 5 records |
| `Noon.TierLoop` | simple_noon_scraper.py:152-172 | The container loop with partial appends computes `TierScan` |
| `Noon.LocateCandidates` | simple_noon_scraper.py:140-190 | Candidate location is the container scan, else the capped `div` scan |
| `Noon.SearchPage` | simple_noon_scraper.py:192-213 | The first 5 candidates are built and gated |
| `Noon.SearchItem` | simple_noon_scraper.py:96-217 | `search_item` returns what `SearchResults` specifies |
| `Noon.ErrorPageYieldsNothing` | simple_noon_scraper.py:124-126 | An error page yields [] |
| `Noon.ShortSourceYieldsNothing` | simple_noon_scraper.py:131-134 | A page source under 1000 chars yields [] |
| `Noon.FailedLoadYieldsNothing` | simple_noon_scraper.py:215-217 | A failed page load yields [] |
| `Noon.TierScanAppends` | simple_noon_scraper.py:152-172 | The container scan only appends, and only tier-text elements |
| `Noon.ReadableTier` | simple_noon_scraper.py:152-172 | When every text reads, the container scan is the first selector with a passing element |
| `Noon.TierCandidates` | simple_noon_scraper.py:157-165 | Tier candidates have 30 < len < 1000 and a fixed product keyword, not the search term |
| `Noon.FallbackScan` | simple_noon_scraper.py:174-190 | With no tier, the candidates are the first 5 divs with 30 < len < 500 and the term, iphone, samsung or aed in their text |
| `Noon.ReportedRecords` | simple_noon_scraper.py:194-211 | A record is reported exactly when it was built from one of the first 5 candidates and is admitted, and none is over budget |
| `ItemsFile.ParseItemsFromFile` | simple_amazon_scraper.py:627-666 | The line loop returns `ItemsOf`: one item per non-skipped line, in file order, and [] for an unreadable file |
| `ItemsFile.UnreadableFileGivesNothing` | simple_noon_scraper.py:560-565 | A file that cannot be read gives [] |
| `ItemsFile.CommaSplits` | simple_namshi_scraper.py:589-591 | A line with a comma has at least two parts |
| `ItemsFile.LineOutcome` | simple_amazon_scraper.py:635-657 | A line gives an item exactly when it is not blank or `#`. The name is stripped and comma-free, and a line without a comma is the name with no ceiling |
| `ItemsFile.FileOrder` | simple_amazon_scraper.py:635-657 | Items follow line order |
| `ItemsFile.OneItemPerLine` | simple_amazon_scraper.py:635-657 | Each line gives at most one item |
| `ItemsFile.SkippedLineIgnored` | simple_amazon_scraper.py:636-638 | Removing a blank or comment line changes nothing |
| `ItemsFile.CommaLine` | simple_namshi_scraper.py:589-599 | With a comma, the name is part 0 and the ceiling is `float(part 1)` |
| `ItemsFile.NamePriceLine` | simple_noon_scraper.py:540-550 | "name,price" asks for name with `float(price)` |
| `ItemsFile.ExtraPartsIgnored` | simple_amazon_scraper.py:642-646 | Parts after the second are never read |
| `ItemsFile.LineWithCeiling` | simple_amazon_scraper.py:641-648 | "Desk Lamp,150" gives ("Desk Lamp", 150) |
| `ItemsFile.LineWithBadCeiling` | simple_amazon_scraper.py:649-651 | "Desk Lamp,abc" gives ("Desk Lamp", None) |
| `Unified.AllSites` | unified_scraper.py:15-115 | `search_all_sites` returns three entries when the imports succeed and none otherwise |
| `Unified.NoonTurn` | unified_scraper.py:34-51 | Noon's block gives the search's products when the setup succeeded, else [] |
| `Unified.NamshiTurn` | unified_scraper.py:61-78 | Namshi's block gives the search's products when the setup succeeded, else [] |
| `Unified.AmazonTurn` | unified_scraper.py:88-105 | Amazon's block gives the search's products when the setup succeeded, else [] |
| `Unified.SearchAllSites` | unified_scraper.py:15-115 | The driver's result is `AllSites`. Each scraper's `close()` runs exactly once, in site order, whatever the outcome |
| `Unified.SiteKeysPresent` | unified_scraper.py:15-115 | With the imports, the keys are noon, namshi, amazon in that order. An import error gives {} |
| `Unified.MaxPriceCarried` | unified_scraper.py:38-103 | Every entry carries the requested `max_price` unchanged |
| `Unified.SitesIsolated` | unified_scraper.py:34-105 | A site's entry depends only on that site's own turn |
| `Unified.FailedSiteEmpty` | unified_scraper.py:44-49 | A failed setup or raised exception gives that site `products: []` |
| `Unified.SiteCaps` | unified_scraper.py:32-105 | Noon reports at most 5 products, Namshi and Amazon at most 10 |
| `Unified.AllSitesInBudget` | unified_scraper.py:201-278 | No collected product is over the ceiling, because each scraper's gate already dropped those |
| `Unified.SafeTermChars` | unified_scraper.py:189-191 | The safe term has only alnum, '-' and '_', and no space |
| `Unified.SafeTermIdempotent` | unified_scraper.py:189-191 | Making a safe term safe again changes nothing |
| `Unified.DefaultName` | unified_scraper.py:189-192 | The default name is "unified_search_" + safe term + extension |
| `Unified.JsonAttr` | unified_scraper.py:216-220 | `getattr(p, name, None)` is None for an attribute the scraper's record lacks |
| `Unified.CsvCell` | unified_scraper.py:268-276 | `getattr(p, name, '')` is '' for an attribute the scraper's record lacks |
| `Unified.JsonSiteOf` | unified_scraper.py:201-225 | `product_count` equals the number of products, which keep their order |
| `Unified.JsonDocOf` | unified_scraper.py:194-225 | The document holds the search term and one site entry per result, in order |
| `Unified.SiteRows` | unified_scraper.py:257-278 | A site gives one CSV row per product, in order |
| `Unified.CsvRowCount` | unified_scraper.py:257-278 | The CSV has exactly one row per collected product |
| `Unified.CsvRowsAppend` | unified_scraper.py:257-278 | Rows follow site order |
| `Unified.CsvAgreesWithJson` | unified_scraper.py:201-278 | CSV and JSON agree on `within_budget`, `price_value` and the shared optional fields, with None written as '' |
| `Unified.DiscountColumns` | unified_scraper.py:216-276 | Namshi's discount appears only in JSON and Amazon's `discount_info` only in CSV |
| `Unified.SavedNeverOverBudget` | unified_scraper.py:201-278 | No saved record, JSON or CSV, has `within_budget` False |
| `Unified.OutputName` | unified_scraper.py:285-292 | The output name always ends with the format's extension |
| `Unified.SaveResults` | unified_scraper.py:285-292 | CSV is written exactly when `--csv` was given |
| `Unified.SaveTarget` | unified_scraper.py:285-292 | `--output x` gives "x.csv" or "x.json". Otherwise the default name comes from the term and has no space |

## Left out

- Driver plumbing is not modelled: `setup_driver`, `driver.get`, `close()`
  itself, browser options and headless mode. A site's turn is a parameter
  (`SetupFailed`, `Raised`, or the loaded page, which may be absent when
  loading raised). The model records only that `close()` ran.
- CSS selector evaluation is not modelled. Each lookup is a table keyed by the
  selector text.
- `time.sleep` pacing, logging, printing (`print_results`,
  `print_unified_results`), `argparse` `main()` functions and KeyboardInterrupt
  handling are left out. `Unified.TotalProducts` is the count that
  `print_unified_results` accumulates.
- The writing of JSON/CSV files is left out; the model gives the document and
  the rows that would be written. The timestamp comes from the clock and is a
  parameter.
- quick_start.py and install_and_run.py are interactive and install scripts.
  They are not part of this model.
- `float()` is restricted to plain decimal text: whitespace, an optional sign,
  and digits with at most one dot. Exponents, underscores, inf and nan are not
  modelled.
- Values are exact reals, so binary rounding is not modelled. `str(float)` for
  the Amazon rating is modelled only for digit-and-dot text (leading and
  trailing zeros, ".0"). Digit runs long enough for Python to print exponents
  are not distinguished.
- `\d`, `isdigit` and `lower()` are ASCII-only. `isalnum` accepts ASCII letters
  and digits plus the Arabic letters U+0621–U+064A, and `\s` / `strip()` use
  Python's whitespace set. Other Unicode behaviour is not modelled.
- `quote_plus` is modelled as percent-encoding of UTF-8 bytes with space
  written as '+'. Its `safe` parameter is not modelled.
- The reading of the batch file is left out; the file is given as its lines.
- `Amazon.SearchResults`, `Namshi.SearchResults` and `Noon.SearchResults`:
  a `search_item` exception after the page load (outside the per-selector
  `try` blocks) is not modelled. The page title, Noon's page source length
  and the fallback `div` list are read as data that cannot fail, although
  in the code reading `driver.title`, `page_source` or the `div` elements
  can raise and then gives `[]`. The only raising point modelled outside the
  loops is the page load.
- `Amazon.ExtractProductInfo`, `Namshi.ExtractProductInfo` and
  `Noon.ExtractProductInfo` return None only when the container's `.text`
  cannot be read. A driver error inside a field cascade is modelled as "no
  match" for that strategy, as the per-selector `try` blocks do.
- Python type errors from `getattr` on attribute values that are not strings
  are not modelled.

## Where the code differs from its description

- The default record URL uses `quote_plus(search_term)` on the unstripped
  term. For Amazon it also omits the `&ref=nb_sb_noss` suffix of the page
  that was loaded. The model follows the code.
- Noon's pattern floor compares the digits with both ',' and '.' removed, so
  "12.99 AED" passes the "> 50" floor although its value is 12.99. Noon's
  structured test also accepts "1.2.3", whose `price_value` is then None
  (`Noon.DottedStructuredPrice`).
- The description promises `within_budget` on records. Only the saved
  output computes it; the scrapers' gate drops over-budget records, so it
  is never False (`Unified.SavedNeverOverBudget`).
- The unified JSON `discount` is None for Amazon records, whose attribute is
  `discount_info`. The CSV `discount_info` column is '' for Namshi records
  (`Unified.DiscountColumns`).
- A Namshi or Noon title can be cleaned to "" (a whitespace-only `title`
  attribute), so those titles are not promised to be non-empty.
- The description says a price normaliser rejects invalid numbers.
  `extract_numeric_price` on "AED 1.2.3" gives None, but on any text holding
  a digit and at most one dot it gives a value, whatever else the text says.
