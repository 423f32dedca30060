/**
 * The string operations the scrapers use from Python's `str` type and the
 * `re` character classes: `strip`, `lower`, `split`, `replace`, `isdigit`,
 * `isalnum`, `in`, `startswith`, and the classes `\s`, `\d` and `\w`.
 */
module Text {

  /** `str.isspace()`, which is also what `strip()`, `float()` and `\s` treat as whitespace. */
  predicate IsSpace(c: char) {
    || c == ' '
    || ('\t' <= c <= '\r')
    || ('\U{1C}' <= c <= '\U{1F}')
    || c == '\U{85}' || c == '\U{A0}' || c == '\U{1680}'
    || ('\U{2000}' <= c <= '\U{200A}')
    || c == '\U{2028}' || c == '\U{2029}' || c == '\U{202F}' || c == '\U{205F}' || c == '\U{3000}'
  }

  /** `\d` and `str.isdigit()` on one character, restricted to ASCII digits. */
  predicate IsDigit(c: char) {
    '0' <= c <= '9'
  }

  predicate IsAsciiLetter(c: char) {
    ('a' <= c <= 'z') || ('A' <= c <= 'Z')
  }

  /** The Arabic letters U+0621..U+064A, the block the dirham sign "د.إ" is written in. */
  predicate IsArabicLetter(c: char) {
    '\U{621}' <= c <= '\U{64A}'
  }

  /** `str.isalnum()` on one character: ASCII letters and digits and the Arabic letters above. */
  predicate IsAlnum(c: char) {
    IsAsciiLetter(c) || IsDigit(c) || IsArabicLetter(c)
  }

  /** `\w`: what `str.isalnum()` accepts, and the underscore. */
  predicate IsWordChar(c: char) {
    IsAlnum(c) || c == '_'
  }

  function LowerChar(c: char): char {
    if 'A' <= c <= 'Z' then (c as int + 32) as char else c
  }

  /** `str.lower()` on ASCII letters. */
  function Lower(s: string): string {
    seq(|s|, i requires 0 <= i < |s| => LowerChar(s[i]))
  }

  predicate StartsWith(s: string, prefix: string) {
    |prefix| <= |s| && s[..|prefix|] == prefix
  }

  predicate EndsWith(s: string, suffix: string) {
    |suffix| <= |s| && s[|s| - |suffix|..] == suffix
  }

  /** `sub in s`. */
  predicate Contains(s: string, sub: string)
    decreases |s|
  {
    StartsWith(s, sub) || (|s| > 0 && Contains(s[1..], sub))
  }

  /** `any(k in hay for k in keywords)`. */
  predicate AnyIn(hay: string, keywords: seq<string>)
    decreases |keywords|
  {
    |keywords| > 0 && (Contains(hay, keywords[0]) || AnyIn(hay, keywords[1..]))
  }

  predicate AllDigits(s: string) {
    forall i :: 0 <= i < |s| ==> IsDigit(s[i])
  }

  /** `str.isdigit()`: at least one character, and all of them digits. */
  predicate IsDigits(s: string) {
    |s| > 0 && AllDigits(s)
  }

  /** `re.search(r'\d+', s)` succeeds. */
  predicate HasDigit(s: string) {
    exists i :: 0 <= i < |s| && IsDigit(s[i])
  }

  /** How many times `c` occurs in `s`. */
  function Count(s: string, c: char): nat
    decreases |s|
  {
    if s == [] then 0 else (if s[0] == c then 1 else 0) + Count(s[1..], c)
  }

  lemma {:induction false} CountAppend(a: string, b: string, c: char)
    ensures Count(a + b, c) == Count(a, c) + Count(b, c)
    decreases |a|
  {
    if a == [] {
      assert a + b == b;
    } else {
      assert (a + b)[0] == a[0];
      assert (a + b)[1..] == a[1..] + b;
      CountAppend(a[1..], b, c);
    }
  }

  lemma {:induction false} CountZero(s: string, c: char)
    ensures Count(s, c) == 0 <==> c !in s
    decreases |s|
  {
    if s != [] {
      CountZero(s[1..], c);
      assert s == [s[0]] + s[1..];
    }
  }

  /** `s.index(c)`: the first position holding `c`. */
  function IndexOf(s: string, c: char): (k: nat)
    requires c in s
    ensures k < |s| && s[k] == c && c !in s[..k]
    decreases |s|
  {
    if s[0] == c then 0
    else
      var k := 1 + IndexOf(s[1..], c);
      assert s[..k] == [s[0]] + s[1..][..k - 1];
      k
  }

  lemma HasDigitAppend(a: string, b: string)
    ensures HasDigit(a + b) <==> HasDigit(a) || HasDigit(b)
  {
    if HasDigit(a + b) {
      var i :| 0 <= i < |a + b| && IsDigit((a + b)[i]);
      if i >= |a| { assert b[i - |a|] == (a + b)[i]; }
    }
    if HasDigit(b) {
      var i :| 0 <= i < |b| && IsDigit(b[i]);
      assert (a + b)[|a| + i] == b[i];
    }
    if HasDigit(a) {
      var i :| 0 <= i < |a| && IsDigit(a[i]);
      assert (a + b)[i] == a[i];
    }
  }

  /** A string put between a prefix and a suffix starts with the one, ends with the other and keeps itself in between. */
  lemma Wrapped(a: string, m: string, b: string)
    ensures StartsWith(a + m + b, a) && EndsWith(a + m + b, b)
    ensures (a + m + b)[|a|..|a + m + b| - |b|] == m
  {
    var r := a + m + b;
    assert r[..|a|] == a;
    assert r[|r| - |b|..] == b;
  }

  /** `s.replace(c, '')`. */
  function RemoveChar(s: string, c: char): (r: string)
    ensures |r| <= |s|
    decreases |s|
  {
    if s == [] then [] else (if s[0] == c then [] else [s[0]]) + RemoveChar(s[1..], c)
  }

  /** `s.replace(c, '')` holds no `c`, and every character it holds comes from `s`. */
  lemma {:induction false} RemoveCharChars(s: string, c: char)
    ensures forall i :: 0 <= i < |RemoveChar(s, c)| ==> RemoveChar(s, c)[i] != c && RemoveChar(s, c)[i] in s
    decreases |s|
  {
    if s != [] {
      RemoveCharChars(s[1..], c);
      var head: string := if s[0] == c then [] else [s[0]];
      assert RemoveChar(s, c) == head + RemoveChar(s[1..], c);
      forall i | 0 <= i < |RemoveChar(s, c)| ensures RemoveChar(s, c)[i] != c && RemoveChar(s, c)[i] in s {
        if i >= |head| {
          var j := i - |head|;
          assert RemoveChar(s, c)[i] == RemoveChar(s[1..], c)[j];
          assert RemoveChar(s[1..], c)[j] in s[1..];
        }
      }
    }
  }

  /** `s.replace(a, b)` for single characters. */
  function ReplaceChar(s: string, a: char, b: char): string {
    seq(|s|, i requires 0 <= i < |s| => if s[i] == a then b else s[i])
  }

  /** `"".join(c for c in s if keep(c))`. */
  function KeepChars(s: string, keep: char -> bool): string
    decreases |s|
  {
    if s == [] then [] else (if keep(s[0]) then [s[0]] else []) + KeepChars(s[1..], keep)
  }

  /** Every character `KeepChars` keeps passes the test and comes from `s`. */
  lemma {:induction false} KeepCharsChars(s: string, keep: char -> bool)
    ensures forall i :: 0 <= i < |KeepChars(s, keep)| ==> keep(KeepChars(s, keep)[i]) && KeepChars(s, keep)[i] in s
    decreases |s|
  {
    if s != [] {
      KeepCharsChars(s[1..], keep);
      var head: string := if keep(s[0]) then [s[0]] else [];
      assert KeepChars(s, keep) == head + KeepChars(s[1..], keep);
      forall i | 0 <= i < |KeepChars(s, keep)| ensures keep(KeepChars(s, keep)[i]) && KeepChars(s, keep)[i] in s {
        if i >= |head| {
          var j := i - |head|;
          assert KeepChars(s, keep)[i] == KeepChars(s[1..], keep)[j];
          assert KeepChars(s[1..], keep)[j] in s[1..];
        }
      }
    }
  }

  /** `str.lstrip()`. */
  function TrimStart(s: string): (r: string)
    ensures |r| <= |s|
    ensures r == [] || !IsSpace(r[0])
    decreases |s|
  {
    if |s| > 0 && IsSpace(s[0]) then TrimStart(s[1..]) else s
  }

  /** `TrimStart` keeps a suffix of its argument. */
  lemma {:induction false} TrimStartSuffix(s: string)
    ensures TrimStart(s) == s[|s| - |TrimStart(s)|..]
    decreases |s|
  {
    if |s| > 0 && IsSpace(s[0]) {
      TrimStartSuffix(s[1..]);
    }
  }

  /** Everything `TrimStart` drops is whitespace. */
  lemma {:induction false} TrimStartDropsSpaces(s: string)
    ensures forall i :: 0 <= i < |s| - |TrimStart(s)| ==> IsSpace(s[i])
    decreases |s|
  {
    if |s| > 0 && IsSpace(s[0]) {
      TrimStartDropsSpaces(s[1..]);
      assert forall i :: 1 <= i < |s| ==> s[i] == s[1..][i - 1];
    }
  }

  /** `str.rstrip()`. */
  function TrimEnd(s: string): (r: string)
    ensures |r| <= |s|
    ensures r == [] || !IsSpace(r[|r| - 1])
    decreases |s|
  {
    if |s| > 0 && IsSpace(s[|s| - 1]) then TrimEnd(s[..|s| - 1]) else s
  }

  /** `TrimEnd` keeps a prefix of its argument. */
  lemma {:induction false} TrimEndPrefix(s: string)
    ensures TrimEnd(s) == s[..|TrimEnd(s)|]
    decreases |s|
  {
    if |s| > 0 && IsSpace(s[|s| - 1]) {
      TrimEndPrefix(s[..|s| - 1]);
    }
  }

  /** Everything `TrimEnd` drops is whitespace. */
  lemma {:induction false} TrimEndDropsSpaces(s: string)
    ensures forall i :: |TrimEnd(s)| <= i < |s| ==> IsSpace(s[i])
    decreases |s|
  {
    if |s| > 0 && IsSpace(s[|s| - 1]) {
      TrimEndDropsSpaces(s[..|s| - 1]);
    }
  }

  /** Neither end of `s` is whitespace. */
  predicate Stripped(s: string) {
    s == [] || (!IsSpace(s[0]) && !IsSpace(s[|s| - 1]))
  }

  /** `str.strip()`. */
  function Strip(s: string): (r: string)
    ensures |r| <= |s|
    ensures Stripped(r)
  {
    TrimEndPrefix(TrimStart(s));
    TrimEnd(TrimStart(s))
  }

  /** What `Strip` keeps is one contiguous piece of its argument. */
  lemma StripIsSlice(s: string) returns (a: nat)
    ensures a + |Strip(s)| <= |s| && Strip(s) == s[a..a + |Strip(s)|]
  {
    var t := TrimStart(s);
    TrimStartSuffix(s);
    TrimEndPrefix(t);
    a := |s| - |t|;
    assert Strip(s) == t[..|Strip(s)|];
  }

  /** A string without whitespace at either end is its own strip. */
  lemma StripUnchanged(s: string)
    requires Stripped(s)
    ensures Strip(s) == s
  {
  }

  /** The pieces of `s.split(sep)` for a one-character separator, in order (an empty string gives `[""]`). */
  function Split(s: string, sep: char): (parts: seq<string>)
    ensures |parts| >= 1
    decreases |s|
  {
    if s == [] then [""]
    else
      var rest := Split(s[1..], sep);
      if s[0] == sep then [""] + rest else [[s[0]] + rest[0]] + rest[1..]
  }

  /** Joining the pieces of `Split(s, sep)` with `sep` gives back `s`. */
  function Join(parts: seq<string>, sep: char): string
    decreases |parts|
  {
    if parts == [] then "" else if |parts| == 1 then parts[0] else parts[0] + [sep] + Join(parts[1..], sep)
  }

  /** `"".join`-style inverse of `Split`, and the separator never occurs inside a piece. */
  lemma {:induction false} SplitJoin(s: string, sep: char)
    ensures Join(Split(s, sep), sep) == s
    ensures forall k :: 0 <= k < |Split(s, sep)| ==> sep !in Split(s, sep)[k]
    decreases |s|
  {
    if s != [] {
      SplitJoin(s[1..], sep);
      var rest := Split(s[1..], sep);
      if s[0] == sep {
        assert Split(s, sep) == [""] + rest;
      } else {
        var parts := Split(s, sep);
        assert parts == [[s[0]] + rest[0]] + rest[1..];
        if |rest| == 1 {
          assert Join(parts, sep) == [s[0]] + rest[0];
        } else {
          assert Join(rest, sep) == rest[0] + [sep] + Join(rest[1..], sep);
          assert parts[1..] == rest[1..];
        }
        forall k | 0 <= k < |parts| ensures sep !in parts[k] {
          if k > 0 { assert parts[k] == rest[k]; }
        }
      }
    }
  }

  /** A string without the separator is one piece. */
  lemma {:induction false} SplitNoSep(a: string, sep: char)
    requires sep !in a
    ensures Split(a, sep) == [a]
    decreases |a|
  {
    if a != [] {
      SplitNoSep(a[1..], sep);
      assert [a[0]] + a[1..] == a;
    }
  }

  /** The first piece ends at the first separator. */
  lemma {:induction false} SplitFirst(a: string, b: string, sep: char)
    requires sep !in a
    ensures Split(a + [sep] + b, sep) == [a] + Split(b, sep)
    decreases |a|
  {
    var s := a + [sep] + b;
    if a == [] {
      assert s[1..] == b;
    } else {
      assert s[0] == a[0] && s[1..] == a[1..] + [sep] + b;
      SplitFirst(a[1..], b, sep);
      assert [a[0]] + a[1..] == a;
    }
  }

  /** A string holding the separator splits into at least two pieces. */
  lemma {:induction false} SplitAtSeparator(s: string, sep: char)
    requires sep in s
    ensures |Split(s, sep)| >= 2
    decreases |s|
  {
    if s[0] != sep {
      SplitAtSeparator(s[1..], sep);
    }
  }

  /** Positions `i` and `i + 1` of `s` are both whitespace. */
  predicate SpacePair(s: string, i: int)
    requires 0 <= i < |s| - 1
  {
    IsSpace(s[i]) && IsSpace(s[i + 1])
  }

  /** The only whitespace in `s` is ' ', and no two whitespace characters are adjacent. */
  predicate Collapsed(s: string) {
    && (forall i :: 0 <= i < |s| && IsSpace(s[i]) ==> s[i] == ' ')
    && (forall i :: 0 <= i < |s| - 1 ==> !SpacePair(s, i))
  }

  /** `re.sub(r'\s+', ' ', s)`: every maximal run of whitespace becomes one space. */
  function CollapseSpaces(s: string): (r: string)
    ensures |r| <= |s|
    ensures |r| == 0 <==> |s| == 0
    ensures |s| > 0 && !IsSpace(s[0]) ==> r[0] == s[0]
    ensures |s| > 0 && IsSpace(s[0]) ==> r[0] == ' '
    decreases |s|
  {
    if s == [] then []
    else if IsSpace(s[0]) then " " + CollapseSpaces(TrimStart(s))
    else [s[0]] + CollapseSpaces(s[1..])
  }

  /** Putting one character in front of a collapsed string keeps it collapsed unless two spaces meet. */
  lemma CollapsedCons(c: char, t: string)
    requires Collapsed(t)
    requires IsSpace(c) ==> c == ' ' && (t == [] || !IsSpace(t[0]))
    ensures Collapsed([c] + t)
  {
    var r := [c] + t;
    forall i | 0 <= i < |r| && IsSpace(r[i]) ensures r[i] == ' ' {
      if i > 0 { assert r[i] == t[i - 1]; }
    }
    forall i | 0 <= i < |r| - 1 ensures !SpacePair(r, i) {
      if i > 0 {
        assert r[i] == t[i - 1] && r[i + 1] == t[i];
        assert !SpacePair(t, i - 1);
      }
    }
  }

  lemma {:induction false} CollapseSpacesCollapsed(s: string)
    ensures Collapsed(CollapseSpaces(s))
    decreases |s|
  {
    if s != [] {
      if IsSpace(s[0]) {
        var t := TrimStart(s);
        CollapseSpacesCollapsed(t);
        CollapsedCons(' ', CollapseSpaces(t));
      } else {
        CollapseSpacesCollapsed(s[1..]);
        CollapsedCons(s[0], CollapseSpaces(s[1..]));
      }
    }
  }

  lemma CollapsedSlice(s: string, a: nat, b: nat)
    requires Collapsed(s) && a <= b <= |s|
    ensures Collapsed(s[a..b])
  {
    var r := s[a..b];
    forall i | 0 <= i < |r| && IsSpace(r[i]) ensures r[i] == ' ' {
      assert r[i] == s[a + i];
    }
    forall i | 0 <= i < |r| - 1 ensures !SpacePair(r, i) {
      assert r[i] == s[a + i] && r[i + 1] == s[a + i + 1];
      assert !SpacePair(s, a + i);
    }
  }

  /** Collapsing an already collapsed string changes nothing. */
  lemma {:induction false} CollapseSpacesFixed(s: string)
    requires Collapsed(s)
    ensures CollapseSpaces(s) == s
    decreases |s|
  {
    if s != [] {
      CollapsedSlice(s, 1, |s|);
      assert s[1..|s|] == s[1..];
      CollapseSpacesFixed(s[1..]);
      if IsSpace(s[0]) {
        assert TrimStart(s) == s[1..] by {
          if |s| > 1 {
            assert !SpacePair(s, 0);
            assert TrimStart(s[1..]) == s[1..];
          }
        }
        assert [s[0]] + s[1..] == s;
      } else {
        assert [s[0]] + s[1..] == s;
      }
    }
  }

  /** Gluing a whitespace-free string onto a collapsed one keeps it collapsed. */
  lemma CollapsedAppendPlain(s: string, t: string)
    requires Collapsed(s)
    requires forall i :: 0 <= i < |t| ==> !IsSpace(t[i])
    ensures Collapsed(s + t)
  {
    var r := s + t;
    forall i | 0 <= i < |r| && IsSpace(r[i]) ensures r[i] == ' ' {
      if i < |s| { assert r[i] == s[i]; }
    }
    forall i | 0 <= i < |r| - 1 ensures !SpacePair(r, i) {
      if i + 1 < |s| {
        assert r[i] == s[i] && r[i + 1] == s[i + 1];
        assert !SpacePair(s, i);
      } else {
        assert r[i + 1] == t[i + 1 - |s|];
      }
    }
  }

  lemma StripCollapsed(s: string)
    requires Collapsed(s)
    ensures Collapsed(Strip(s))
  {
    var a := StripIsSlice(s);
    CollapsedSlice(s, a, a + |Strip(s)|);
  }

  /** Stripping twice is stripping once. */
  lemma StripIdempotent(s: string)
    ensures Strip(Strip(s)) == Strip(s)
  {
    StripUnchanged(Strip(s));
  }

  /** The strings of `ls`, stripped, keeping only those left non-empty. */
  function StrippedNonBlank(ls: seq<string>): (r: seq<string>)
    ensures |r| <= |ls|
    ensures forall k :: 0 <= k < |r| ==> r[k] != "" && Stripped(r[k])
    decreases |ls|
  {
    if ls == [] then []
    else (if Strip(ls[0]) != "" then [Strip(ls[0])] else []) + StrippedNonBlank(ls[1..])
  }

  /** `[line.strip() for line in s.split('\n') if line.strip()]`. */
  function NonBlankLines(s: string): seq<string> {
    StrippedNonBlank(Split(s, '\n'))
  }

  /** `sub in b` implies `sub in a + b`. */
  lemma {:induction false} ContainsAppend(a: string, b: string, sub: string)
    requires Contains(b, sub)
    ensures Contains(a + b, sub)
    decreases |a|
  {
    if a == [] {
      assert a + b == b;
    } else {
      assert (a + b)[1..] == a[1..] + b;
      ContainsAppend(a[1..], b, sub);
    }
  }

  /** `a + b` starts with `a`, and what follows `a` is `b`. */
  lemma Joined(a: string, b: string)
    ensures StartsWith(a + b, a) && (a + b)[|a|..] == b
  {
    assert (a + b)[..|a|] == a;
  }

  lemma StartsWithAppend(a: string, b: string, prefix: string)
    requires StartsWith(a, prefix)
    ensures StartsWith(a + b, prefix)
  {
    assert (a + b)[..|prefix|] == a[..|prefix|];
  }

  /** Removing a character that does not occur changes nothing. */
  lemma {:induction false} RemoveAbsent(s: string, c: char)
    requires c !in s
    ensures RemoveChar(s, c) == s
    decreases |s|
  {
    if s != [] {
      assert c !in s[1..] by { assert forall k :: 0 <= k < |s| - 1 ==> s[1..][k] == s[k + 1]; }
      RemoveAbsent(s[1..], c);
      assert s == [s[0]] + s[1..];
    }
  }

  /** Text that starts with a non-space character keeps something when stripped. */
  lemma StripKeepsNonBlank(s: string)
    requires s != [] && !IsSpace(s[0])
    ensures Strip(s) != []
  {
    assert TrimStart(s) == s;
    TrimEndDropsSpaces(s);
  }

  /** Lower-casing works character by character, so it distributes over concatenation. */
  lemma LowerAppend(a: string, b: string)
    ensures Lower(a + b) == Lower(a) + Lower(b)
  {
    assert forall k :: 0 <= k < |a + b| ==> Lower(a + b)[k] == (Lower(a) + Lower(b))[k];
  }

  /** A string contains every string it starts with. */
  lemma ContainsPrefix(a: string, b: string)
    ensures Contains(a + b, a)
  {
    assert (a + b)[..|a|] == a;
  }

  /** A string that contains `sub` contains the first character of `sub`. */
  lemma {:induction false} ContainsHead(s: string, sub: string)
    ensures Contains(s, sub) && sub != [] ==> sub[0] in s
    decreases |s|
  {
    if Contains(s, sub) && sub != [] && !StartsWith(s, sub) {
      ContainsHead(s[1..], sub);
    }
  }

  /** Removing `c` keeps every other character. */
  lemma {:induction false} RemoveKeeps(s: string, c: char, x: char)
    requires x in s && x != c
    ensures x in RemoveChar(s, c)
    decreases |s|
  {
    if s[0] != x {
      RemoveKeeps(s[1..], c, x);
    }
  }

  /** "1.2.3" holds two dots and is digits once commas and dots are dropped. */
  lemma TwoDots()
    ensures IsDigits(RemoveChar(RemoveChar("1.2.3", ','), '.'))
    ensures Count("1.2.3", '.') == 2
  {
    NoCommaInTwoDots();
    DotsOfTwoDots();
    CountTwoDots();
    DigitsOfTwoDots();
  }

  lemma DigitsOfTwoDots()
    ensures IsDigits("123")
  {
  }

  lemma NoCommaInTwoDots()
    ensures RemoveChar("1.2.3", ',') == "1.2.3"
  {
  }

  lemma DotsOfTwoDots()
    ensures RemoveChar("1.2.3", '.') == "123"
  {
  }

  lemma CountTwoDots()
    ensures Count("1.2.3", '.') == 2
  {
  }
}
