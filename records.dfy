/**
 * What the three scrapers share: the search request, Python truthiness of
 * prices, the budget gate applied to extracted records, title clean-up and
 * the resolution of a product link against its site.
 */
module Records {
  import opened Wrappers
  import opened Text
  import opened Cascade

  /** One requested search: the item name and an optional price ceiling in AED. */
  datatype SearchItem = SearchItem(name: string, maxPrice: Option<real>)

  /** A displayed price and the number behind it. */
  datatype LabelledPrice = LabelledPrice(shown: string, value: Option<real>)

  const PriceNotAvailable := "Price not available"
  const UnknownProduct := "Unknown Product"

  /** The placeholder label holds no digit, so `extract_numeric_price` reads no number from it. */
  lemma NoDigitInPlaceholder()
    ensures !HasDigit(PriceNotAvailable)
  {
    forall k | 0 <= k < |PriceNotAvailable| ensures !IsDigit(PriceNotAvailable[k]) { }
  }

  /** Python truthiness of an optional number: present and not zero. */
  predicate Truthy(x: Option<real>) {
    x.Some? && x.value != 0.0
  }

  /** Python truthiness of an optional string: present and not empty. */
  predicate TruthyText(x: Option<string>) {
    x.Some? && x.value != ""
  }

  /** `x or y` on optional strings. */
  function OrText(x: Option<string>, y: Option<string>): (r: Option<string>)
    ensures TruthyText(x) ==> r == x
    ensures !TruthyText(x) ==> r == y
  {
    if TruthyText(x) then x else y
  }

  /**
   * The budget gate's test, `if max_price and price_value: keep iff price_value <= max_price`,
   * with a record kept whenever either number is absent or zero.
   */
  predicate Admit(maxPrice: Option<real>, value: Option<real>) {
    !(Truthy(maxPrice) && Truthy(value)) || value.value <= maxPrice.value
  }

  /** `within_budget`: `(price_value <= max_price) if (max_price and price_value) else None`. */
  function WithinBudget(value: Option<real>, maxPrice: Option<real>): (r: Option<bool>)
    ensures r.Some? <==> Truthy(maxPrice) && Truthy(value)
    ensures r == Some(false) <==> !Admit(maxPrice, value)
  {
    if Truthy(maxPrice) && Truthy(value) then Some(value.value <= maxPrice.value) else None
  }

  /** A record that passed the gate is never reported as over budget. */
  lemma AdmittedWithinBudget(value: Option<real>, maxPrice: Option<real>)
    requires Admit(maxPrice, value)
    ensures WithinBudget(value, maxPrice) != Some(false)
  {
  }

  /**
   * The loop `for c in cs: info = build(c); if info: <budget test>; products.append(info)`:
   * the built records that the budget test admits, in candidate order.
   */
  function Gate<C, P>(cs: seq<C>, build: C -> Option<P>, value: P -> Option<real>, maxPrice: Option<real>): (r: seq<P>)
    ensures |r| <= |cs|
    decreases |cs|
  {
    if cs == [] then []
    else
      var info := build(cs[|cs| - 1]);
      Gate(cs[..|cs| - 1], build, value, maxPrice)
        + (if info.Some? && Admit(maxPrice, value(info.value)) then [info.value] else [])
  }

  /** The loop behind `Gate`: build each candidate's record, then apply the budget test. */
  method GateLoop<C, P>(cs: seq<C>, build: C -> Option<P>, value: P -> Option<real>, maxPrice: Option<real>) returns (products: seq<P>)
    ensures products == Gate(cs, build, value, maxPrice)
  {
    products := [];
    var k := 0;
    while k < |cs|
      invariant 0 <= k <= |cs|
      invariant products == Gate(cs[..k], build, value, maxPrice)
    {
      assert cs[..k + 1][..k] == cs[..k];
      var info := build(cs[k]);
      if info.Some? {
        if Truthy(maxPrice) && Truthy(value(info.value)) {
          if value(info.value).value <= maxPrice.value {
            products := products + [info.value];
          }
        } else {
          products := products + [info.value];
        }
      }
      k := k + 1;
    }
    assert cs[..k] == cs;
  }

  /** The records `build` produces, in candidate order. */
  function Built<C, P>(cs: seq<C>, build: C -> Option<P>): (r: seq<P>)
    ensures |r| <= |cs|
    decreases |cs|
  {
    if cs == [] then []
    else Built(cs[..|cs| - 1], build) + (match build(cs[|cs| - 1]) case Some(p) => [p] case None => [])
  }

  /** Records are built one input at a time, so building distributes over concatenation. */
  lemma {:induction false} BuiltAppend<C, P>(a: seq<C>, b: seq<C>, build: C -> Option<P>)
    ensures Built(a + b, build) == Built(a, build) + Built(b, build)
    decreases |b|
  {
    if b == [] {
      assert a + b == a;
    } else {
      BuiltAppend(a, b[..|b| - 1], build);
      assert (a + b)[..|a + b| - 1] == a + b[..|b| - 1];
      assert (a + b)[|a + b| - 1] == b[|b| - 1];
    }
  }

  function AdmitRecord<P>(value: P -> Option<real>, maxPrice: Option<real>): P -> bool {
    p => Admit(maxPrice, value(p))
  }

  /**
   * The gate keeps exactly the built records that the budget test admits and
   * keeps them in order: it is the filter of the built records.
   */
  lemma {:induction false} GateIsFilter<C, P>(cs: seq<C>, build: C -> Option<P>, value: P -> Option<real>, maxPrice: Option<real>)
    ensures Gate(cs, build, value, maxPrice) == Filter(Built(cs, build), AdmitRecord(value, maxPrice))
    decreases |cs|
  {
    if cs != [] {
      GateIsFilter(cs[..|cs| - 1], build, value, maxPrice);
      var b := Built(cs, build);
      var front := Built(cs[..|cs| - 1], build);
      match build(cs[|cs| - 1])
      case None =>
        assert b == front;
      case Some(p) =>
        assert b == front + [p];
        assert b[..|b| - 1] == front;
    }
  }

  /** Without a truthy ceiling the gate keeps every record that was built. */
  lemma {:induction false} NoCeilingKeepsAll<C, P>(cs: seq<C>, build: C -> Option<P>, value: P -> Option<real>, maxPrice: Option<real>)
    requires !Truthy(maxPrice)
    ensures Gate(cs, build, value, maxPrice) == Built(cs, build)
    decreases |cs|
  {
    if cs != [] {
      NoCeilingKeepsAll(cs[..|cs| - 1], build, value, maxPrice);
    }
  }

  /**
   * A record is in the gate's output exactly when some candidate built it
   * and the budget test admits it.
   */
  lemma GateMembers<C, P>(cs: seq<C>, build: C -> Option<P>, value: P -> Option<real>, maxPrice: Option<real>, p: P)
    ensures p in Gate(cs, build, value, maxPrice) <==> p in Built(cs, build) && Admit(maxPrice, value(p))
  {
    GateIsFilter(cs, build, value, maxPrice);
    if p in Built(cs, build) && Admit(maxPrice, value(p)) {
      FilterKeeps(Built(cs, build), AdmitRecord(value, maxPrice), p);
    }
  }

  /**
   * What the gate reports, in one statement: exactly the admitted records
   * among those built (`BuiltMembers` says which those are), everything
   * built when there is no ceiling, and never a record the budget check
   * calls over budget.
   */
  lemma GateReport<C, P>(cs: seq<C>, build: C -> Option<P>, value: P -> Option<real>, maxPrice: Option<real>, x: P)
    ensures x in Gate(cs, build, value, maxPrice) <==> Admit(maxPrice, value(x)) && x in Built(cs, build)
    ensures !Truthy(maxPrice) ==> Gate(cs, build, value, maxPrice) == Built(cs, build)
    ensures x in Gate(cs, build, value, maxPrice) ==> WithinBudget(value(x), maxPrice) != Some(false)
  {
    GateMembers(cs, build, value, maxPrice, x);
    if !Truthy(maxPrice) {
      NoCeilingKeepsAll(cs, build, value, maxPrice);
    }
    if x in Gate(cs, build, value, maxPrice) {
      AdmittedWithinBudget(value(x), maxPrice);
    }
  }

  lemma {:induction false} BuiltMembers<C, P>(cs: seq<C>, build: C -> Option<P>, p: P)
    ensures p in Built(cs, build) <==> exists c :: c in cs && build(c) == Some(p)
    decreases |cs|
  {
    if cs != [] {
      BuiltMembers(cs[..|cs| - 1], build, p);
      var last := cs[|cs| - 1];
      assert forall c :: c in cs <==> c in cs[..|cs| - 1] || c == last by {
        assert cs == cs[..|cs| - 1] + [last];
      }
    }
  }

  /**
   * Title clean-up, `re.sub(r'\s+', ' ', t).strip()`, then a cut to the first
   * `limit` characters followed by "..." when the result is longer than `limit`.
   */
  function CleanTitle(t: string, limit: nat): (r: string)
    ensures |r| <= limit + 3
    ensures Collapsed(r)
    ensures |Strip(CollapseSpaces(t))| <= limit ==> r == Strip(CollapseSpaces(t))
    ensures |Strip(CollapseSpaces(t))| > limit ==> r == Strip(CollapseSpaces(t))[..limit] + "..."
  {
    var u := Strip(CollapseSpaces(t));
    CollapseSpacesCollapsed(t);
    StripCollapsed(CollapseSpaces(t));
    if |u| > limit then
      CollapsedSlice(u, 0, limit);
      CollapsedAppendPlain(u[..limit], "...");
      u[..limit] + "..."
    else u
  }

  /** Cleaning a cleaned title changes nothing. */
  lemma CleanTitleIdempotent(t: string, limit: nat)
    ensures CleanTitle(CleanTitle(t, limit), limit) == CleanTitle(t, limit)
  {
    var r := CleanTitle(t, limit);
    assert Stripped(r);
    CollapseSpacesFixed(r);
    StripUnchanged(r);
  }

  /** A title that starts with a non-space character is never cleaned away. */
  lemma CleanTitleNonEmpty(t: string, limit: nat)
    requires t != [] && !IsSpace(t[0])
    ensures CleanTitle(t, limit) != []
  {
    var w := CollapseSpaces(t);
    assert w != [] && w[0] == t[0];
    StripKeepsNonBlank(w);
    var u := Strip(w);
    if |u| > limit {
      assert CleanTitle(t, limit) == u[..limit] + "...";
    }
  }

  /** `line.replace('.', '').replace(',', '').replace(' ', '').isdigit()`: a line that is only a number. */
  predicate NumericLine(line: string) {
    IsDigits(RemoveChar(RemoveChar(RemoveChar(line, '.'), ','), ' '))
  }

  /**
   * A product link against its site: a path starting with "/" is put after
   * `host`, an absolute "http" link is taken as it is, anything else keeps
   * the default page.
   */
  function ResolveHref(host: string, href: string, default: string): (r: string)
    ensures StartsWith(href, "/") ==> r == host + href
    ensures !StartsWith(href, "/") && StartsWith(href, "http") ==> r == href
    ensures !StartsWith(href, "/") && !StartsWith(href, "http") ==> r == default
  {
    if StartsWith(href, "/") then host + href
    else if StartsWith(href, "http") then href
    else default
  }
}
