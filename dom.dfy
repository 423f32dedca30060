/**
 * The browser state the scrapers read, as data. CSS selector evaluation is
 * not modelled: each lookup the code performs is a table keyed by the
 * selector text, and a missing key stands for the lookup raising.
 */
module Dom {
  import opened Wrappers

  /** An element located inside a candidate: its `.text` and its attributes. */
  datatype Elem = Elem(text: string, attrs: map<string, string>)

  /**
   * A candidate product container.
   * `text` is None when reading `.text` raises; `one` answers
   * `find_element(selector)` and `all` answers `find_elements(selector)`.
   */
  datatype Candidate = Candidate(
    text: Option<string>,
    tag: string,
    attrs: map<string, string>,
    one: map<string, Elem>,
    all: map<string, seq<Elem>>)

  /**
   * A loaded results page: its title, the length of its source, the answer
   * of `find_elements(selector)` for the container selectors (a missing key:
   * the call raises) and the page's `div` elements in document order.
   */
  datatype Page = Page(title: string, sourceLength: nat, found: map<string, seq<Candidate>>, divs: seq<Candidate>)

  /** `get_attribute(name)`: None when the attribute is absent. */
  function Attr(attrs: map<string, string>, name: string): Option<string> {
    if name in attrs then Some(attrs[name]) else None
  }

  /** `find_element(selector)` inside a candidate; None when it raises. */
  function Find(c: Candidate, selector: string): Option<Elem> {
    if selector in c.one then Some(c.one[selector]) else None
  }

  /** `driver.find_elements(selector)` on the page; None when it raises. */
  function FindOnPage(p: Page, selector: string): Option<seq<Candidate>> {
    if selector in p.found then Some(p.found[selector]) else None
  }

  /** `FindOnPage` as a locator for the selector loops. */
  function PageFind(p: Page): string -> Option<seq<Candidate>> {
    selector => FindOnPage(p, selector)
  }
}
