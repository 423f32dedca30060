/**
 * The regular expressions the scrapers apply to element text, each written
 * out as the scanner Python's `re` engine runs: leftmost start position,
 * greedy repetition, and backtracking from the longest choice down. `\d` is
 * an ASCII digit, `\s` is `str.isspace()`, and `\b` is a change between a
 * word character (`str.isalnum()` or '_') and a non-word character.
 */
module Patterns {
  import opened Wrappers
  import opened Text
  import opened Cascade
  import opened Decimal

  function Min(a: nat, b: nat): nat {
    if a <= b then a else b
  }

  /** The length of the run of digits starting at `i`. */
  function DigitRun(s: string, i: nat): (n: nat)
    requires i <= |s|
    ensures i + n <= |s|
    ensures forall k :: i <= k < i + n ==> IsDigit(s[k])
    ensures i + n == |s| || !IsDigit(s[i + n])
    decreases |s| - i
  {
    if i < |s| && IsDigit(s[i]) then 1 + DigitRun(s, i + 1) else 0
  }

  /** The length of the run of whitespace starting at `i`. */
  function SpaceRun(s: string, i: nat): (n: nat)
    requires i <= |s|
    ensures i + n <= |s|
    decreases |s| - i
  {
    if i < |s| && IsSpace(s[i]) then 1 + SpaceRun(s, i + 1) else 0
  }

  /** The length of the run of non-digits starting at `i`. */
  function NonDigitRun(s: string, i: nat): (n: nat)
    requires i <= |s|
    ensures i + n <= |s|
    decreases |s| - i
  {
    if i < |s| && !IsDigit(s[i]) then 1 + NonDigitRun(s, i + 1) else 0
  }

  /** The length of the run of digits and commas (`[\d,]`) starting at `i`. */
  function DigitCommaRun(s: string, i: nat): (n: nat)
    requires i <= |s|
    ensures i + n <= |s|
    decreases |s| - i
  {
    if i < |s| && (IsDigit(s[i]) || s[i] == ',') then 1 + DigitCommaRun(s, i + 1) else 0
  }

  /** `(?:aed|د\.إ)` at `i`, with "aed" in any letter case (`re.IGNORECASE`). */
  predicate CurrencyAt(s: string, i: nat) {
    && i + 3 <= |s|
    && (|| (LowerChar(s[i]) == 'a' && LowerChar(s[i + 1]) == 'e' && LowerChar(s[i + 2]) == 'd')
        || (s[i] == '\U{62F}' && s[i + 1] == '.' && s[i + 2] == '\U{625}'))
  }

  /** The currency after `j` plus up to `n` whitespace characters. */
  predicate CurrencyWithin(s: string, j: nat, n: nat)
    decreases n
  {
    CurrencyAt(s, j + n) || (n > 0 && CurrencyWithin(s, j, n - 1))
  }

  /** `\s*(?:aed|د\.إ)` at `j`: some number of the whitespace characters there, then the currency. */
  predicate SpacesThenCurrency(s: string, j: nat)
    requires j <= |s|
  {
    CurrencyWithin(s, j, SpaceRun(s, j))
  }

  /** `\.\d{2}` at `j`. */
  predicate FracAt(s: string, j: nat) {
    j + 3 <= |s| && s[j] == '.' && IsDigit(s[j + 1]) && IsDigit(s[j + 2])
  }

  /** `,\d{3}` at `j`. */
  predicate GroupAt(s: string, j: nat) {
    j + 4 <= |s| && s[j] == ',' && IsDigit(s[j + 1]) && IsDigit(s[j + 2]) && IsDigit(s[j + 3])
  }

  predicate WordAt(s: string, k: int) {
    0 <= k < |s| && IsWordChar(s[k])
  }

  /** `\b` at `k`: exactly one of the characters on either side is a word character. */
  predicate Boundary(s: string, k: int) {
    WordAt(s, k - 1) != WordAt(s, k)
  }

  /** The start positions `re.search` tries, in order: 0 to `|s|`. */
  function Positions(s: string): (ps: seq<int>)
    ensures |ps| == |s| + 1 && forall i :: 0 <= i < |ps| ==> ps[i] == i
  {
    seq(|s| + 1, i => i)
  }

  /** `re.search`: the group captured at the leftmost position where `at` matches. */
  function Search(s: string, at: int -> Option<string>): Option<string> {
    FirstSome(Positions(s), at)
  }

  /** `re.search` finds the group at a position where the pattern matches and matches nowhere earlier. */
  lemma SearchLeftmost(s: string, at: int -> Option<string>)
    ensures Search(s, at).Some? ==>
      exists i :: 0 <= i <= |s| && at(i) == Search(s, at) && forall j :: 0 <= j < i ==> at(j).None?
    ensures Search(s, at).None? <==> forall i :: 0 <= i <= |s| ==> at(i).None?
  {
    var ps := Positions(s);
    FirstSomeWins(ps, at);
    if Search(s, at).Some? {
      var i :| 0 <= i < |ps| && at(ps[i]) == Search(s, at) && forall j :: 0 <= j < i ==> at(ps[j]).None?;
      assert forall j :: 0 <= j < i ==> at(j).None? by {
        forall j | 0 <= j < i ensures at(j).None? { assert ps[j] == j; }
      }
    } else {
      forall i | 0 <= i <= |s| ensures at(i).None? { assert ps[i] == i; }
    }
  }

  // ----- `^\d+(\.\d+)?$` and `^\d+\.?\d*$` with `re.match` -----

  /** `\d+(\.\d+)?` and nothing else. */
  predicate IsDecimalNumber(t: string) {
    var n := DigitRun(t, 0);
    n > 0 && (n == |t| || (t[n] == '.' && n + 1 < |t| && DigitRun(t, n + 1) == |t| - n - 1))
  }

  /**
   * `re.match(r'^\d+(\.\d+)?$', t)`. Giving back digits never helps the match,
   * so it succeeds exactly on a decimal number, which `$` also accepts when
   * it is followed by one final newline.
   */
  predicate MatchesDecimal(t: string) {
    IsDecimalNumber(t) || (|t| > 0 && t[|t| - 1] == '\n' && IsDecimalNumber(t[..|t| - 1]))
  }

  /** `\d+\.?\d*` and nothing else. */
  predicate IsRatingNumber(t: string) {
    var n := DigitRun(t, 0);
    n > 0 && (n == |t| || (t[n] == '.' && DigitRun(t, n + 1) == |t| - n - 1))
  }

  /** `re.match(r'^\d+\.?\d*$', t)`, with `$` accepting one final newline. */
  predicate MatchesRating(t: string) {
    IsRatingNumber(t) || (|t| > 0 && t[|t| - 1] == '\n' && IsRatingNumber(t[..|t| - 1]))
  }

  /** A run of digits from `j` that ends at `e`: `DigitRun` measures it exactly. */
  lemma {:induction false} DigitRunIs(s: string, j: nat, e: nat)
    requires j <= e <= |s|
    requires forall k :: j <= k < e ==> IsDigit(s[k])
    requires e == |s| || !IsDigit(s[e])
    ensures DigitRun(s, j) == e - j
    decreases e - j
  {
    if j < e {
      DigitRunIs(s, j + 1, e);
    }
  }

  /**
   * `n` digits at `i`, cut there or followed by `\.\d{2}`, form a decimal
   * number: the captures of the `\d{1,4}(?:\.\d{2})?` patterns.
   */
  lemma ShortDecimalSlice(s: string, i: nat, n: nat)
    requires 0 < n && i + n <= |s|
    requires forall k :: i <= k < i + n ==> IsDigit(s[k])
    ensures IsDecimalNumber(s[i..i + n])
    ensures FracAt(s, i + n) ==> IsDecimalNumber(s[i..i + n + 3])
  {
    var g := s[i..i + n];
    assert forall k :: 0 <= k < n ==> g[k] == s[i + k];
    DigitRunIs(g, 0, n);
    if FracAt(s, i + n) {
      var h := s[i..i + n + 3];
      assert forall k :: 0 <= k < n + 3 ==> h[k] == s[i + k];
      DigitRunIs(h, 0, n);
      DigitRunIs(h, n + 1, n + 3);
    }
  }

  // ----- Namshi: `\d{1,4}` amounts -----

  /** `(\d{1,4}(?:\.\d{2})?)\s*(?:aed|د\.إ)` at `i` with the digit count tried from `n` down. */
  function NamshiLeadTry(s: string, i: nat, n: nat): (g: Option<string>)
    requires i + n <= |s|
    requires forall k :: i <= k < i + n ==> IsDigit(s[k])
    ensures g.Some? ==> IsDecimalNumber(g.value)
    decreases n
  {
    if n == 0 then None
    else if FracAt(s, i + n) && SpacesThenCurrency(s, i + n + 3) then
      ShortDecimalSlice(s, i, n);
      Some(s[i..i + n + 3])
    else if SpacesThenCurrency(s, i + n) then
      ShortDecimalSlice(s, i, n);
      Some(s[i..i + n])
    else NamshiLeadTry(s, i, n - 1)
  }

  function NamshiLeadAt(s: string, i: int): (g: Option<string>)
    ensures g.Some? ==> IsDecimalNumber(g.value)
  {
    if 0 <= i <= |s| then NamshiLeadTry(s, i, Min(4, DigitRun(s, i))) else None
  }

  /** `(\d{1,4}(?:\.\d{2})?)\s*(?:aed|د\.إ)`: an amount written before the currency. */
  function NamshiLead(s: string): int -> Option<string> {
    i => NamshiLeadAt(s, i)
  }

  /** `\d{1,4}(?:\.\d{2})?` at `j`; nothing follows it in the pattern, so the first greedy choice stands. */
  function ShortAmountAt(s: string, j: nat): (g: Option<string>)
    requires j <= |s|
    ensures g.Some? ==> IsDecimalNumber(g.value)
  {
    var n := Min(4, DigitRun(s, j));
    if n == 0 then None
    else
      ShortDecimalSlice(s, j, n);
      if FracAt(s, j + n) then Some(s[j..j + n + 3])
      else Some(s[j..j + n])
  }

  /** `\s*` before the amount, with the whitespace count tried from `m` down. */
  function NamshiTrailTry(s: string, j: nat, m: nat): (g: Option<string>)
    requires j + m <= |s|
    ensures g.Some? ==> IsDecimalNumber(g.value)
    decreases m
  {
    match ShortAmountAt(s, j + m)
    case Some(g) => Some(g)
    case None => if m == 0 then None else NamshiTrailTry(s, j, m - 1)
  }

  function NamshiTrailAt(s: string, i: int): (g: Option<string>)
    ensures g.Some? ==> IsDecimalNumber(g.value)
  {
    if 0 <= i <= |s| && CurrencyAt(s, i) then NamshiTrailTry(s, i + 3, SpaceRun(s, i + 3)) else None
  }

  /** `(?:aed|د\.إ)\s*(\d{1,4}(?:\.\d{2})?)`: an amount written after the currency. */
  function NamshiTrail(s: string): int -> Option<string> {
    i => NamshiTrailAt(s, i)
  }

  /** `\b(\d{1,4})\b(?=\s*(?:aed|د\.إ))` at `i` with the digit count tried from `n` down. */
  function NamshiBeforeTry(s: string, i: nat, n: nat): (g: Option<string>)
    requires i + n <= |s|
    requires forall k :: i <= k < i + n ==> IsDigit(s[k])
    ensures g.Some? ==> IsDecimalNumber(g.value)
    decreases n
  {
    if n == 0 then None
    else if Boundary(s, i + n) && SpacesThenCurrency(s, i + n) then
      ShortDecimalSlice(s, i, n);
      Some(s[i..i + n])
    else NamshiBeforeTry(s, i, n - 1)
  }

  function NamshiBeforeAt(s: string, i: int): (g: Option<string>)
    ensures g.Some? ==> IsDecimalNumber(g.value)
  {
    if 0 <= i <= |s| && Boundary(s, i) then NamshiBeforeTry(s, i, Min(4, DigitRun(s, i))) else None
  }

  /** `\b(\d{1,4})\b(?=\s*(?:aed|د\.إ))`: a whole number directly followed by the currency. */
  function NamshiBefore(s: string): int -> Option<string> {
    i => NamshiBeforeAt(s, i)
  }

  /** `\b(\d{2,4})\b` at `i` with the digit count tried from `n` down; the end of the match. */
  function NamshiNumberTry(s: string, i: nat, n: nat): (e: Option<nat>)
    requires i + n <= |s|
    requires forall k :: i <= k < i + n ==> IsDigit(s[k])
    ensures e.Some? ==> i + 2 <= e.value <= i + n && AllDigits(s[i..e.value])
    decreases n
  {
    if n < 2 then None
    else if Boundary(s, i + n) then
      assert forall k :: i <= k < i + n ==> s[i..i + n][k - i] == s[k];
      Some(i + n)
    else NamshiNumberTry(s, i, n - 1)
  }

  function NamshiNumberEnd(s: string, i: nat): (e: Option<nat>)
    requires i <= |s|
    ensures e.Some? ==> i + 2 <= e.value <= i + 4 && e.value <= |s| && AllDigits(s[i..e.value])
  {
    if Boundary(s, i) then NamshiNumberTry(s, i, Min(4, DigitRun(s, i))) else None
  }

  /** `re.findall(r'\b(\d{2,4})\b', s[i:])`: the matches left to right, each search resuming where the last match ended. */
  function NamshiNumbers(s: string, i: nat): (r: seq<string>)
    requires i <= |s|
    ensures forall k :: 0 <= k < |r| ==> 2 <= |r[k]| <= 4 && AllDigits(r[k])
    decreases |s| - i
  {
    if i == |s| then []
    else match NamshiNumberEnd(s, i)
      case Some(e) => [s[i..e]] + NamshiNumbers(s, e)
      case None => NamshiNumbers(s, i + 1)
  }

  // ----- Noon: `\d{1,3}(?:,\d{3})*` amounts -----

  /** The end of the greedy `(?:,\d{3})*` from `j`. */
  function GroupsEnd(s: string, j: nat): (e: nat)
    requires j <= |s|
    ensures j <= e <= |s|
    decreases |s| - j
  {
    if GroupAt(s, j) then GroupsEnd(s, j + 4) else j
  }

  /**
   * `(?:,\d{3})*` from `j`, one more group tried before stopping, followed by
   * `(?:\.\d{2})?\s*(?:aed|د\.إ)`; the end of the captured group.
   */
  function NoonLeadRest(s: string, j: nat): (e: Option<nat>)
    requires j <= |s|
    ensures e.Some? ==> j <= e.value <= |s|
    decreases |s| - j
  {
    var more := if GroupAt(s, j) then NoonLeadRest(s, j + 4) else None;
    if more.Some? then more
    else if FracAt(s, j) && SpacesThenCurrency(s, j + 3) then Some(j + 3)
    else if SpacesThenCurrency(s, j) then Some(j)
    else None
  }

  function NoonLeadTry(s: string, i: nat, n: nat): Option<string>
    requires i + n <= |s|
    decreases n
  {
    if n == 0 then None
    else match NoonLeadRest(s, i + n)
      case Some(e) => Some(s[i..e])
      case None => NoonLeadTry(s, i, n - 1)
  }

  function NoonLeadAt(s: string, i: int): Option<string> {
    if 0 <= i <= |s| then NoonLeadTry(s, i, Min(3, DigitRun(s, i))) else None
  }

  /** `(\d{1,3}(?:,\d{3})*(?:\.\d{2})?)\s*(?:aed|د\.إ)`: an amount written before the currency. */
  function NoonLead(s: string): int -> Option<string> {
    i => NoonLeadAt(s, i)
  }

  /** `\d{1,3}(?:,\d{3})*(?:\.\d{2})?` at `j`; nothing follows it in the pattern, so the first greedy choice stands. */
  function GroupedAmountAt(s: string, j: nat): Option<string>
    requires j <= |s|
  {
    var n := Min(3, DigitRun(s, j));
    if n == 0 then None
    else
      var e := GroupsEnd(s, j + n);
      if FracAt(s, e) then Some(s[j..e + 3]) else Some(s[j..e])
  }

  function NoonTrailTry(s: string, j: nat, m: nat): Option<string>
    requires j + m <= |s|
    decreases m
  {
    match GroupedAmountAt(s, j + m)
    case Some(g) => Some(g)
    case None => if m == 0 then None else NoonTrailTry(s, j, m - 1)
  }

  function NoonTrailAt(s: string, i: int): Option<string> {
    if 0 <= i <= |s| && CurrencyAt(s, i) then NoonTrailTry(s, i + 3, SpaceRun(s, i + 3)) else None
  }

  /** `(?:aed|د\.إ)\s*(\d{1,3}(?:,\d{3})*(?:\.\d{2})?)`: an amount written after the currency. */
  function NoonTrail(s: string): int -> Option<string> {
    i => NoonTrailAt(s, i)
  }

  /** `(?:,\d{3})*` from `j`, more groups first, followed by `\b(?=\s*(?:aed|د\.إ))`. */
  function NoonBeforeRest(s: string, j: nat): (e: Option<nat>)
    requires j <= |s|
    ensures e.Some? ==> j <= e.value <= |s|
    decreases |s| - j
  {
    var more := if GroupAt(s, j) then NoonBeforeRest(s, j + 4) else None;
    if more.Some? then more
    else if Boundary(s, j) && SpacesThenCurrency(s, j) then Some(j)
    else None
  }

  function NoonBeforeTry(s: string, i: nat, n: nat): Option<string>
    requires i + n <= |s|
    decreases n
  {
    if n == 0 then None
    else match NoonBeforeRest(s, i + n)
      case Some(e) => Some(s[i..e])
      case None => NoonBeforeTry(s, i, n - 1)
  }

  function NoonBeforeAt(s: string, i: int): Option<string> {
    if 0 <= i <= |s| && Boundary(s, i) then NoonBeforeTry(s, i, Min(3, DigitRun(s, i))) else None
  }

  /** `\b(\d{1,3}(?:,\d{3})*)\b(?=\s*(?:aed|د\.إ))`: a whole amount directly followed by the currency. */
  function NoonBefore(s: string): int -> Option<string> {
    i => NoonBeforeAt(s, i)
  }

  /** `(?:,\d{3})*` from `j`, more groups first, followed by `\b`; the end of the match. */
  function NoonNumberRest(s: string, j: nat): (e: Option<nat>)
    requires j <= |s|
    ensures e.Some? ==> j <= e.value <= |s|
    decreases |s| - j
  {
    var more := if GroupAt(s, j) then NoonNumberRest(s, j + 4) else None;
    if more.Some? then more
    else if Boundary(s, j) then Some(j)
    else None
  }

  function NoonNumberTry(s: string, i: nat, n: nat): (e: Option<nat>)
    requires i + n <= |s|
    ensures e.Some? ==> i < e.value <= |s|
    decreases n
  {
    if n == 0 then None
    else match NoonNumberRest(s, i + n)
      case Some(e) => Some(e)
      case None => NoonNumberTry(s, i, n - 1)
  }

  function NoonNumberEnd(s: string, i: nat): (e: Option<nat>)
    requires i <= |s|
    ensures e.Some? ==> i < e.value <= |s|
  {
    if Boundary(s, i) then NoonNumberTry(s, i, Min(3, DigitRun(s, i))) else None
  }

  /** `re.findall(r'\b(\d{1,3}(?:,\d{3})*)\b', s[i:])`. */
  function NoonNumbers(s: string, i: nat): seq<string>
    requires i <= |s|
    decreases |s| - i
  {
    if i == |s| then []
    else match NoonNumberEnd(s, i)
      case Some(e) => [s[i..e]] + NoonNumbers(s, e)
      case None => NoonNumbers(s, i + 1)
  }

  // ----- How many dots a Noon amount holds -----

  /** The dots in `s[a..b]` are those in `s[a..m]` and those in `s[m..b]`. */
  lemma DotsSplit(s: string, a: nat, m: nat, b: nat)
    requires a <= m <= b <= |s|
    ensures Count(s[a..b], '.') == Count(s[a..m], '.') + Count(s[m..b], '.')
  {
    assert s[a..b] == s[a..m] + s[m..b];
    CountAppend(s[a..m], s[m..b], '.');
  }

  /** A stretch of digits and commas holds no dot. */
  lemma NoDots(s: string, a: nat, b: nat)
    requires a <= b <= |s|
    requires forall k :: a <= k < b ==> s[k] != '.'
    ensures Count(s[a..b], '.') == 0
  {
    CountZero(s[a..b], '.');
  }

  /** `(?:,\d{3})*` holds no dot. */
  lemma {:induction false} GroupsNoDot(s: string, j: nat)
    requires j <= |s|
    ensures Count(s[j..GroupsEnd(s, j)], '.') == 0
    decreases |s| - j
  {
    if GroupAt(s, j) {
      GroupsNoDot(s, j + 4);
      NoDots(s, j, j + 4);
      DotsSplit(s, j, j + 4, GroupsEnd(s, j));
    } else {
      NoDots(s, j, j);
    }
  }

  /** `\.\d{2}` holds one dot. */
  lemma FracDot(s: string, j: nat)
    requires FracAt(s, j)
    ensures Count(s[j..j + 3], '.') == 1
  {
    NoDots(s, j + 1, j + 3);
    DotsSplit(s, j, j + 1, j + 3);
  }

  /** What `NoonLeadRest` passes over holds at most one dot. */
  lemma {:induction false} LeadRestDots(s: string, j: nat)
    requires j <= |s| && NoonLeadRest(s, j).Some?
    ensures Count(s[j..NoonLeadRest(s, j).value], '.') <= 1
    decreases |s| - j
  {
    var e := NoonLeadRest(s, j).value;
    var more := if GroupAt(s, j) then NoonLeadRest(s, j + 4) else None;
    if more.Some? {
      LeadRestDots(s, j + 4);
      NoDots(s, j, j + 4);
      DotsSplit(s, j, j + 4, e);
    } else if FracAt(s, j) && SpacesThenCurrency(s, j + 3) {
      FracDot(s, j);
    } else {
      NoDots(s, j, j);
    }
  }

  /** What `NoonBeforeRest` passes over holds no dot. */
  lemma {:induction false} BeforeRestDots(s: string, j: nat)
    requires j <= |s| && NoonBeforeRest(s, j).Some?
    ensures Count(s[j..NoonBeforeRest(s, j).value], '.') == 0
    decreases |s| - j
  {
    var e := NoonBeforeRest(s, j).value;
    var more := if GroupAt(s, j) then NoonBeforeRest(s, j + 4) else None;
    if more.Some? {
      BeforeRestDots(s, j + 4);
      NoDots(s, j, j + 4);
      DotsSplit(s, j, j + 4, e);
    } else {
      NoDots(s, j, j);
    }
  }

  lemma {:induction false} LeadTryDots(s: string, i: nat, n: nat)
    requires i + n <= |s| && forall k :: i <= k < i + n ==> IsDigit(s[k])
    requires NoonLeadTry(s, i, n).Some?
    ensures Count(NoonLeadTry(s, i, n).value, '.') <= 1
    decreases n
  {
    match NoonLeadRest(s, i + n)
    case Some(e) =>
      LeadRestDots(s, i + n);
      NoDots(s, i, i + n);
      DotsSplit(s, i, i + n, e);
    case None =>
      LeadTryDots(s, i, n - 1);
  }

  lemma {:induction false} BeforeTryDots(s: string, i: nat, n: nat)
    requires i + n <= |s| && forall k :: i <= k < i + n ==> IsDigit(s[k])
    requires NoonBeforeTry(s, i, n).Some?
    ensures Count(NoonBeforeTry(s, i, n).value, '.') == 0
    decreases n
  {
    match NoonBeforeRest(s, i + n)
    case Some(e) =>
      BeforeRestDots(s, i + n);
      NoDots(s, i, i + n);
      DotsSplit(s, i, i + n, e);
    case None =>
      BeforeTryDots(s, i, n - 1);
  }

  lemma GroupedAmountDots(s: string, j: nat)
    requires j <= |s| && GroupedAmountAt(s, j).Some?
    ensures Count(GroupedAmountAt(s, j).value, '.') <= 1
  {
    var n := Min(3, DigitRun(s, j));
    var e := GroupsEnd(s, j + n);
    WholeNoDots(s, j, n);
    if FracAt(s, e) {
      FracAmountDots(s, j, e);
      assert GroupedAmountAt(s, j).value == s[j..e + 3];
    } else {
      assert GroupedAmountAt(s, j).value == s[j..e];
    }
  }

  lemma FracAmountDots(s: string, j: nat, e: nat)
    requires j <= e && FracAt(s, e) && Count(s[j..e], '.') == 0
    ensures Count(s[j..e + 3], '.') == 1
  {
    FracDot(s, e);
    DotsSplit(s, j, e, e + 3);
  }

  /** The whole part of a grouped amount, `\d{1,3}(?:,\d{3})*`, holds no dot. */
  lemma WholeNoDots(s: string, j: nat, n: nat)
    requires j <= |s| && n <= DigitRun(s, j)
    ensures Count(s[j..GroupsEnd(s, j + n)], '.') == 0
  {
    var e := GroupsEnd(s, j + n);
    DigitsNoDots(s, j, n);
    GroupsNoDot(s, j + n);
    DotsSplit(s, j, j + n, e);
  }

  lemma DigitsNoDots(s: string, j: nat, n: nat)
    requires j <= |s| && n <= DigitRun(s, j)
    ensures Count(s[j..j + n], '.') == 0
  {
    assert forall k :: j <= k < j + n ==> IsDigit(s[k]);
    NoDots(s, j, j + n);
  }

  lemma {:induction false} TrailTryDots(s: string, j: nat, m: nat)
    requires j + m <= |s| && NoonTrailTry(s, j, m).Some?
    ensures Count(NoonTrailTry(s, j, m).value, '.') <= 1
    decreases m
  {
    if GroupedAmountAt(s, j + m).Some? {
      GroupedAmountDots(s, j + m);
    } else {
      TrailTryDots(s, j, m - 1);
    }
  }

  /** Each of the three Noon price patterns captures an amount with at most one dot. */
  lemma NoonAmountDots(s: string, i: int)
    ensures NoonLeadAt(s, i).Some? ==> Count(NoonLeadAt(s, i).value, '.') <= 1
    ensures NoonTrailAt(s, i).Some? ==> Count(NoonTrailAt(s, i).value, '.') <= 1
    ensures NoonBeforeAt(s, i).Some? ==> Count(NoonBeforeAt(s, i).value, '.') == 0
  {
    if NoonLeadAt(s, i).Some? {
      LeadTryDots(s, i, Min(3, DigitRun(s, i)));
    }
    if NoonTrailAt(s, i).Some? {
      TrailTryDots(s, i + 3, SpaceRun(s, i + 3));
    }
    if NoonBeforeAt(s, i).Some? {
      BeforeTryDots(s, i, Min(3, DigitRun(s, i)));
    }
  }

  // ----- Amazon -----

  /** `\d+(?:\.\d+)?` at `k`; nothing follows it in the pattern, so the greedy choice stands. */
  function AmountAt(s: string, k: nat): (g: Option<string>)
    requires k <= |s|
    ensures g.Some? ==> IsDecimalNumber(g.value)
  {
    var n := DigitRun(s, k);
    if n == 0 then None
    else if k + n < |s| && s[k + n] == '.' && DigitRun(s, k + n + 1) > 0 then
      FractionAmount(s, k, n, DigitRun(s, k + n + 1));
      Some(s[k..k + n + 1 + DigitRun(s, k + n + 1)])
    else
      WholeAmount(s, k);
      Some(s[k..k + n])
  }

  /** The digits at `k` on their own form a decimal number. */
  lemma WholeAmount(s: string, k: nat)
    requires k <= |s| && DigitRun(s, k) > 0
    ensures IsDecimalNumber(s[k..k + DigitRun(s, k)])
  {
    DigitRunSliceAt(s, k, k + DigitRun(s, k), k);
  }

  /** The digits at `k`, a dot and the digits after it form a decimal number. */
  lemma FractionAmount(s: string, k: nat, n: nat, m: nat)
    requires k <= |s| && n == DigitRun(s, k) > 0
    requires k + n < |s| && s[k + n] == '.' && m == DigitRun(s, k + n + 1) > 0
    ensures IsDecimalNumber(s[k..k + n + 1 + m])
  {
    var g := s[k..k + n + 1 + m];
    DigitRunSliceAt(s, k, k + n + 1 + m, k);
    DigitRunSliceAt(s, k, k + n + 1 + m, k + n + 1);
    FractionShape(g, n, m);
  }

  lemma FractionShape(g: string, n: nat, m: nat)
    requires n > 0 && m > 0 && |g| == n + 1 + m && g[n] == '.'
    requires DigitRun(g, 0) == n && DigitRun(g, n + 1) == m
    ensures IsDecimalNumber(g)
  {
  }

  /** Runs of digits are read the same inside a slice that keeps the run or cuts it where it ends. */
  lemma DigitRunSlice(s: string, a: nat, b: nat)
    requires a <= b <= |s|
    ensures forall j :: a <= j <= b && (j + DigitRun(s, j) <= b) ==> DigitRun(s[a..b], j - a) == DigitRun(s, j)
  {
    forall j | a <= j <= b && j + DigitRun(s, j) <= b
      ensures DigitRun(s[a..b], j - a) == DigitRun(s, j)
    {
      DigitRunSliceAt(s, a, b, j);
    }
  }

  lemma {:induction false} DigitRunSliceAt(s: string, a: nat, b: nat, j: nat)
    requires a <= j <= b <= |s| && j + DigitRun(s, j) <= b
    ensures DigitRun(s[a..b], j - a) == DigitRun(s, j)
    decreases b - j
  {
    if j < b && IsDigit(s[j]) {
      assert s[a..b][j - a] == s[j];
      DigitRunSliceAt(s, a, b, j + 1);
    } else if j < b {
      assert s[a..b][j - a] == s[j];
    }
  }

  /** `[^\d]*` after "aed", with the count tried from `m` down, then the amount. */
  function OffscreenTry(s: string, j: nat, m: nat): (g: Option<string>)
    requires j + m <= |s|
    ensures g.Some? ==> IsDecimalNumber(g.value)
    decreases m
  {
    match AmountAt(s, j + m)
    case Some(g) => Some(g)
    case None => if m == 0 then None else OffscreenTry(s, j, m - 1)
  }

  function OffscreenAt(s: string, i: int): (g: Option<string>)
    ensures g.Some? ==> IsDecimalNumber(g.value)
  {
    if 0 <= i && i + 3 <= |s| && s[i..i + 3] == "aed" then OffscreenTry(s, i + 3, NonDigitRun(s, i + 3)) else None
  }

  /** `aed[^\d]*(\d+(?:\.\d+)?)` on lower-cased text. */
  function Offscreen(s: string): int -> Option<string> {
    i => OffscreenAt(s, i)
  }

  function RatingNumberAt(s: string, i: int): (g: Option<string>)
    ensures g.Some? ==> IsRatingNumber(g.value)
  {
    if 0 <= i <= |s| && DigitRun(s, i) > 0 then
      var j := i + DigitRun(s, i);
      if j < |s| && s[j] == '.' then
        var e := j + 1 + DigitRun(s, j + 1);
        assert DigitRun(s[i..e], 0) == j - i by { DigitRunSlice(s, i, e); }
        assert DigitRun(s[i..e], j + 1 - i) == DigitRun(s, j + 1) by { DigitRunSlice(s, i, e); }
        Some(s[i..e])
      else
        assert DigitRun(s[i..j], 0) == j - i by { DigitRunSlice(s, i, j); }
        Some(s[i..j])
    else None
  }

  /** `(\d+\.?\d*)`: a number such as "4.6" at the first digit. */
  function RatingNumber(s: string): int -> Option<string> {
    i => RatingNumberAt(s, i)
  }

  function ReviewCountAt(s: string, i: int): Option<string> {
    if 0 <= i <= |s| && DigitCommaRun(s, i) > 0 then
      var j := i + DigitCommaRun(s, i);
      var f := if j < |s| && s[j] == '.' && DigitRun(s, j + 1) > 0 then j + 1 + DigitRun(s, j + 1) else j;
      var e := if f < |s| && (s[f] == 'k' || s[f] == 'K') then f + 1 else f;
      Some(s[i..e])
    else None
  }

  /** `([\d,]+(?:\.\d+)?[kK]?)`: a count such as "91,260" or "91.2K". */
  function ReviewCount(s: string): int -> Option<string> {
    i => ReviewCountAt(s, i)
  }

  // ----- What `float()` makes of the numbers these patterns capture -----

  /** A number `d+`, `d+.` or `d+.d+` with `n` integer digits: its dot, if any, is at `n`. */
  lemma NumberShape(t: string, n: nat)
    requires 0 < n <= |t| && DigitRun(t, 0) == n
    requires n == |t| || (t[n] == '.' && DigitRun(t, n + 1) == |t| - n - 1)
    ensures AllDigitOrDot(t) && ',' !in t
    ensures ParseUnsigned(t).Some?
  {
    assert AllDigits(t[..n]) by {
      forall k | 0 <= k < n ensures IsDigit(t[..n][k]) { assert t[..n][k] == t[k]; }
    }
    if n == |t| {
      assert t[..n] == t;
      assert '.' !in t;
    } else {
      var fp := t[n + 1..];
      assert AllDigits(fp) by {
        forall k | 0 <= k < |fp| ensures IsDigit(fp[k]) { assert fp[k] == t[n + 1 + k]; }
      }
      assert '.' in t;
      var k := IndexOf(t, '.');
      assert k == n;
      assert forall m :: 0 <= m < |t| ==> DigitOrDot(t[m]) by {
        forall m | 0 <= m < |t| ensures DigitOrDot(t[m]) {
          if m < n { assert t[m] == t[..n][m]; } else if m > n { assert t[m] == fp[m - n - 1]; }
        }
      }
    }
  }

  /** What `\d+(\.\d+)?` captures reads through `float()`, and holds no comma. */
  lemma DecimalNumberParses(t: string)
    requires IsDecimalNumber(t)
    ensures AllDigitOrDot(t) && ',' !in t
    ensures ParseUnsigned(t).Some?
  {
    NumberShape(t, DigitRun(t, 0));
  }

  /**
   * Text that `^\d+(\.\d+)?$` accepts reads through `float()`, and is digits
   * and a dot, possibly followed by one newline.
   */
  lemma MatchesDecimalParses(u: string)
    requires MatchesDecimal(u)
    ensures ParseFloat(u).Some?
    ensures AllDigitOrDot(u) || (|u| > 0 && u[|u| - 1] == '\n' && AllDigitOrDot(u[..|u| - 1]))
    ensures ',' !in u
  {
    if IsDecimalNumber(u) {
      DecimalNumberParses(u);
      ParseFloatPlain(u);
    } else {
      var d := u[..|u| - 1];
      assert u == d + "\n";
      DecimalNumberParses(d);
      PlainIsBare(d);
      StripNewline(d);
      StripUnchanged(d);
      SameStripSameFloat(u, d);
      ParseFloatPlain(d);
    }
  }

  /** What `\d+\.?\d*` captures reads through `float()`. */
  lemma RatingNumberParses(t: string)
    requires IsRatingNumber(t)
    ensures AllDigitOrDot(t)
    ensures ParseUnsigned(t).Some?
  {
    NumberShape(t, DigitRun(t, 0));
  }
}
