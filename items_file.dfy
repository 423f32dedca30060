/**
 * `parse_items_from_file`, the same in all three scrapers: each line of a
 * batch file, stripped, is skipped when blank or a `#` comment, and
 * otherwise becomes one search item, "Name" or "Name,MaxPrice".
 */
module ItemsFile {
  import opened Wrappers
  import opened Text
  import opened Decimal
  import opened Records

  /** A stripped line that holds no item: blank, or a `#` comment. */
  predicate Skipped(l: string) {
    l == "" || StartsWith(l, "#")
  }

  /** `[part.strip() for part in parts]`. */
  function StripAll(parts: seq<string>): (r: seq<string>)
    ensures |r| == |parts|
    ensures forall k :: 0 <= k < |r| ==> r[k] == Strip(parts[k])
  {
    seq(|parts|, k requires 0 <= k < |parts| => Strip(parts[k]))
  }

  /**
   * One line: with a comma, the first part is the name and `float()` of the
   * second part the ceiling, none when it does not parse; without one, the
   * whole stripped line is the name.
   */
  function ParseLine(line: string): Option<SearchItem> {
    var l := Strip(line);
    if Skipped(l) then None
    else if ',' in l then
      var parts := StripAll(Split(l, ','));
      if |parts| >= 2 then Some(SearchItem(parts[0], ParseFloat(parts[1])))
      else Some(SearchItem(l, None))
    else Some(SearchItem(l, None))
  }

  function LineItem(): string -> Option<SearchItem> {
    line => ParseLine(line)
  }

  /** The items of a file read as lines; `None` stands for a file that could not be opened or read. */
  function ItemsOf(file: Option<seq<string>>): seq<SearchItem> {
    match file
    case None => []
    case Some(lines) => Built(lines, LineItem())
  }

  /** The loop of `parse_items_from_file`, appending one item per line that is not skipped. */
  method ParseItemsFromFile(file: Option<seq<string>>) returns (items: seq<SearchItem>)
    ensures items == ItemsOf(file)
  {
    items := [];
    if file.None? {
      return;
    }
    var lines := file.value;
    var k := 0;
    while k < |lines|
      invariant 0 <= k <= |lines|
      invariant items == Built(lines[..k], LineItem())
    {
      assert lines[..k + 1][..k] == lines[..k];
      var line := Strip(lines[k]);
      if line != "" && !StartsWith(line, "#") {
        if ',' in line {
          var parts := StripAll(Split(line, ','));
          if |parts| >= 2 {
            items := items + [SearchItem(parts[0], ParseFloat(parts[1]))];
          } else {
            items := items + [SearchItem(line, None)];
          }
        } else {
          items := items + [SearchItem(line, None)];
        }
      }
      k := k + 1;
    }
    assert lines[..k] == lines;
  }

  // ----- Properties -----

  /** A file that cannot be read gives no items. */
  lemma UnreadableFileGivesNothing()
    ensures ItemsOf(None) == []
  {
  }

  /** A line with a comma always splits into at least two parts, so the one-part branch is never taken. */
  lemma CommaSplits(l: string)
    requires ',' in l
    ensures |StripAll(Split(l, ','))| >= 2
  {
    SplitAtSeparator(l, ',');
  }

  /** Stripping keeps only characters of its argument. */
  lemma StripKeepsOut(s: string, c: char)
    requires c !in s
    ensures c !in Strip(s)
  {
    var a := StripIsSlice(s);
    assert forall k :: 0 <= k < |Strip(s)| ==> Strip(s)[k] == s[a + k];
  }

  /**
   * A line gives an item exactly when, stripped, it is neither blank nor a
   * comment. The name is stripped and holds no comma; a ceiling is read only
   * from a line with a comma, and a line without one is the name itself.
   */
  lemma LineOutcome(line: string)
    ensures ParseLine(line).Some? <==> !Skipped(Strip(line))
    ensures ParseLine(line).Some? ==> var item := ParseLine(line).value;
      && Stripped(item.name) && ',' !in item.name
      && (item.maxPrice.Some? ==> ',' in Strip(line))
      && (',' !in Strip(line) ==> item == SearchItem(Strip(line), None))
  {
    var l := Strip(line);
    if !Skipped(l) && ',' in l {
      CommaSplits(l);
      SplitJoin(l, ',');
      StripKeepsOut(Split(l, ',')[0], ',');
    }
  }

  /** Items follow the order of the lines: the items of two stretches of lines are those of each, in turn. */
  lemma FileOrder(a: seq<string>, b: seq<string>)
    ensures ItemsOf(Some(a + b)) == ItemsOf(Some(a)) + ItemsOf(Some(b))
  {
    BuiltAppend(a, b, LineItem());
  }

  /** Each line gives at most one item, so a file gives at most as many items as it has lines. */
  lemma OneItemPerLine(line: string, lines: seq<string>)
    ensures ItemsOf(Some([line])) == if ParseLine(line).Some? then [ParseLine(line).value] else []
    ensures |ItemsOf(Some(lines))| <= |lines|
  {
    assert [line][..0] == [];
  }

  /** A blank or comment line can be removed without changing the items. */
  lemma SkippedLineIgnored(a: seq<string>, line: string, b: seq<string>)
    requires Skipped(Strip(line))
    ensures ItemsOf(Some(a + [line] + b)) == ItemsOf(Some(a + b))
  {
    FileOrder(a + [line], b);
    FileOrder(a, [line]);
    FileOrder(a, b);
    OneItemPerLine(line, []);
    LineOutcome(line);
  }

  /** A stripped line with a comma that is not a comment: the name from the first part, the ceiling from the second. */
  lemma CommaLine(l: string)
    requires Stripped(l) && !Skipped(l) && ',' in l
    ensures |Split(l, ',')| >= 2
    ensures ParseLine(l) == Some(SearchItem(Strip(Split(l, ',')[0]), ParseFloat(Strip(Split(l, ',')[1]))))
  {
    StripUnchanged(l);
    CommaSplits(l);
  }

  /** "name,price" joined, with neither end whitespace when name and price have none. */
  lemma JoinedStripped(name: string, price: string)
    requires name != [] && Stripped(name) && Stripped(price)
    ensures Stripped(name + [','] + price) && (name + [','] + price)[0] == name[0]
    ensures ',' in name + [','] + price
  {
    var l := name + [','] + price;
    assert l[0] == name[0];
    assert l[|name|] == ',';
    if price != [] {
      assert l[|l| - 1] == price[|price| - 1];
    }
  }

  /**
   * A line "name,price" or "name,price,rest", with a name and a price that
   * hold no comma and have no whitespace at their ends, asks for `name` with
   * `float(price)` as the ceiling: parts after the second are never read.
   */
  lemma NamePriceLine(name: string, price: string)
    requires name != [] && name[0] != '#' && ',' !in name && ',' !in price
    requires Stripped(name) && Stripped(price)
    ensures ParseLine(name + [','] + price) == Some(SearchItem(name, ParseFloat(price)))
  {
    var l := name + [','] + price;
    JoinedStripped(name, price);
    SplitFirst(name, price, ',');
    SplitNoSep(price, ',');
    CommaLine(l);
    StripUnchanged(name);
    StripUnchanged(price);
  }

  /** Parts after the second are never read: "name,price,rest" asks for the same as "name,price". */
  lemma ExtraPartsIgnored(name: string, price: string, rest: string)
    requires name != [] && name[0] != '#' && ',' !in name && ',' !in price
    requires Stripped(name) && Stripped(price) && Stripped(rest)
    ensures ParseLine(name + [','] + (price + [','] + rest)) == Some(SearchItem(name, ParseFloat(price)))
  {
    var tail := price + [','] + rest;
    JoinedStrippedAny(price, rest);
    JoinedStripped(name, tail);
    SplitFirst(name, tail, ',');
    SplitFirst(price, rest, ',');
    var parts := Split(name + [','] + tail, ',');
    assert parts[0] == name && parts[1] == price;
    CommaLine(name + [','] + tail);
    StripUnchanged(name);
    StripUnchanged(price);
  }

  lemma JoinedStrippedAny(a: string, b: string)
    requires Stripped(a) && Stripped(b)
    ensures Stripped(a + [','] + b)
  {
    var l := a + [','] + b;
    if a != [] {
      assert l[0] == a[0];
    }
    if b != [] {
      assert l[|l| - 1] == b[|b| - 1];
    }
  }

  /** "Desk Lamp,150" asks for a desk lamp of at most 150 AED. */
  lemma LineWithCeiling()
    ensures ParseLine("Desk Lamp" + [','] + "150") == Some(SearchItem("Desk Lamp", Some(150.0)))
  {
    DeskLampName();
    Hundred50();
    NamePriceLine("Desk Lamp", "150");
  }

  /** "Desk Lamp,abc" still asks for a desk lamp, with no ceiling. */
  lemma LineWithBadCeiling()
    ensures ParseLine("Desk Lamp" + [','] + "abc") == Some(SearchItem("Desk Lamp", None))
  {
    DeskLampName();
    NotANumber();
    NamePriceLine("Desk Lamp", "abc");
  }

  lemma DeskLampName()
    ensures "Desk Lamp" != [] && "Desk Lamp"[0] != '#' && ',' !in "Desk Lamp" && Stripped("Desk Lamp")
  {
  }

  lemma Hundred50()
    ensures ',' !in "150" && Stripped("150") && ParseFloat("150") == Some(150.0)
  {
    Digits150();
    ParseFloatDigits("150");
  }

  lemma Digits150()
    ensures ',' !in "150" && Stripped("150") && IsDigits("150") && DigitsValue("150") == 150
  {
    ThreeDigits("150");
  }

  lemma NotANumber()
    ensures ',' !in "abc" && Stripped("abc") && ParseFloat("abc") == None
  {
    StripUnchanged("abc");
    assert '.' !in "abc" && !IsDigit("abc"[0]);
  }
}
