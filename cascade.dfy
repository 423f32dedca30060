/**
 * The loop shapes the scrapers repeat for every field: a selector list
 * scanned with `break`, in its two forms, an element filter, and a scan
 * that stops once it has collected enough.
 */
module Cascade {
  import opened Wrappers

  /**
   * Test, then assign: `for x in xs: if <x gives a value>: v = ...; break`.
   * The result is the value the first successful `x` gives.
   */
  function FirstSome<A, T>(xs: seq<A>, f: A -> Option<T>): Option<T>
    decreases |xs|
  {
    if xs == [] then None
    else if f(xs[0]).Some? then f(xs[0])
    else FirstSome(xs[1..], f)
  }

  /**
   * What `FirstSome` picks: the value of the first `x` that gives one, every
   * earlier `x` having given none; and nothing exactly when no `x` gives a
   * value.
   */
  lemma {:induction false} FirstSomeWins<A, T>(xs: seq<A>, f: A -> Option<T>)
    ensures FirstSome(xs, f).Some? ==>
      exists i :: 0 <= i < |xs| && f(xs[i]) == FirstSome(xs, f) && forall j :: 0 <= j < i ==> f(xs[j]).None?
    ensures FirstSome(xs, f).None? <==> forall i :: 0 <= i < |xs| ==> f(xs[i]).None?
    decreases |xs|
  {
    if xs != [] && f(xs[0]).None? {
      FirstSomeWins(xs[1..], f);
      assert forall i :: 1 <= i < |xs| ==> xs[i] == xs[1..][i - 1];
      if FirstSome(xs, f).Some? {
        var i :| 0 <= i < |xs[1..]| && f(xs[1..][i]) == FirstSome(xs, f) && forall j :: 0 <= j < i ==> f(xs[1..][j]).None?;
        assert f(xs[i + 1]) == FirstSome(xs, f);
        assert forall j :: 0 <= j < i + 1 ==> f(xs[j]).None? by {
          forall j | 0 <= j < i + 1 ensures f(xs[j]).None? {
            if j > 0 { assert xs[j] == xs[1..][j - 1]; }
          }
        }
      }
    }
  }

  /** The loop behind `FirstSome`. */
  method FindFirst<A, T>(xs: seq<A>, f: A -> Option<T>) returns (r: Option<T>)
    ensures r == FirstSome(xs, f)
  {
    var i := 0;
    r := None;
    while i < |xs|
      invariant 0 <= i <= |xs|
      invariant FirstSome(xs, f) == FirstSome(xs[i..], f)
    {
      assert xs[i..][1..] == xs[i + 1..];
      if f(xs[i]).Some? {
        r := f(xs[i]);
        return;
      }
      i := i + 1;
    }
  }

  /**
   * Assign, then test: `for x in xs: try: v = read(x); if stop(v): break; except: continue`.
   * A successful read overwrites `v` whether or not it stops the loop.
   */
  function LastAssigned<A, T>(xs: seq<A>, v: T, read: A -> Option<T>, stop: T -> bool): T
    decreases |xs|
  {
    if xs == [] then v
    else match read(xs[0])
      case None => LastAssigned(xs[1..], v, read, stop)
      case Some(w) => if stop(w) then w else LastAssigned(xs[1..], w, read, stop)
  }

  /** The loop behind `LastAssigned`. */
  method AssignUntil<A, T>(xs: seq<A>, v0: T, read: A -> Option<T>, stop: T -> bool) returns (v: T)
    ensures v == LastAssigned(xs, v0, read, stop)
  {
    var i := 0;
    v := v0;
    while i < |xs|
      invariant 0 <= i <= |xs|
      invariant LastAssigned(xs, v0, read, stop) == LastAssigned(xs[i..], v, read, stop)
    {
      assert xs[i..][1..] == xs[i + 1..];
      var w := read(xs[i]);
      if w.Some? {
        v := w.value;
        if stop(v) {
          return;
        }
      }
      i := i + 1;
    }
  }

  /** The read of `x`, when it is one that stops an assign-then-test loop. */
  function StopHit<A, T>(read: A -> Option<T>, stop: T -> bool): A -> Option<T> {
    x => if read(x).Some? && stop(read(x).value) then read(x) else None
  }

  /** The last successful read, or `v` when none succeeds: a reference reading of an assign-only loop. */
  function LastRead<A, T>(xs: seq<A>, v: T, read: A -> Option<T>): T
    decreases |xs|
  {
    if xs == [] then v
    else match read(xs[|xs| - 1])
      case Some(w) => w
      case None => LastRead(xs[..|xs| - 1], v, read)
  }

  lemma {:induction false} LastReadCons<A, T>(x: A, xs: seq<A>, v: T, read: A -> Option<T>)
    ensures LastRead([x] + xs, v, read) == LastRead(xs, read(x).GetOr(v), read)
    decreases |xs|
  {
    if xs != [] {
      assert ([x] + xs)[..|[x] + xs| - 1] == [x] + xs[..|xs| - 1];
      LastReadCons(x, xs[..|xs| - 1], v, read);
    } else {
      assert ([x] + xs)[..0] == [];
    }
  }

  /**
   * An assign-then-test loop ends with the first read that passes `stop`
   * if there is one, and otherwise with the last successful read (or the
   * starting value when nothing could be read).
   */
  lemma {:induction false} LastAssignedIs<A, T>(xs: seq<A>, v: T, read: A -> Option<T>, stop: T -> bool)
    ensures FirstSome(xs, StopHit(read, stop)).Some? ==>
      LastAssigned(xs, v, read, stop) == FirstSome(xs, StopHit(read, stop)).value
    ensures FirstSome(xs, StopHit(read, stop)).None? ==>
      LastAssigned(xs, v, read, stop) == LastRead(xs, v, read)
    decreases |xs|
  {
    if xs != [] {
      LastReadCons(xs[0], xs[1..], v, read);
      assert [xs[0]] + xs[1..] == xs;
      match read(xs[0])
      case None =>
        LastAssignedIs(xs[1..], v, read, stop);
      case Some(w) =>
        if !stop(w) {
          LastAssignedIs(xs[1..], w, read, stop);
        }
    }
  }

  /** `[x for x in xs if p(x)]`. */
  function Filter<A>(xs: seq<A>, p: A -> bool): (r: seq<A>)
    ensures |r| <= |xs|
    decreases |xs|
  {
    if xs == [] then []
    else Filter(xs[..|xs| - 1], p) + (if p(xs[|xs| - 1]) then [xs[|xs| - 1]] else [])
  }

  /** Everything the filter keeps comes from `xs` and passes `p`. */
  lemma {:induction false} FilterSound<A>(xs: seq<A>, p: A -> bool)
    ensures forall x :: x in Filter(xs, p) ==> x in xs && p(x)
    decreases |xs|
  {
    if xs != [] {
      FilterSound(xs[..|xs| - 1], p);
      assert forall x :: x in xs[..|xs| - 1] ==> x in xs;
    }
  }

  /** Every element that passes `p` survives the filter. */
  lemma {:induction false} FilterKeeps<A>(xs: seq<A>, p: A -> bool, x: A)
    requires x in xs && p(x)
    ensures x in Filter(xs, p)
    decreases |xs|
  {
    if xs[|xs| - 1] != x {
      var i :| 0 <= i < |xs| && xs[i] == x;
      assert xs[..|xs| - 1][i] == x;
      FilterKeeps(xs[..|xs| - 1], p, x);
    }
  }

  /** Filtering a prefix gives a prefix of the filtered sequence. */
  lemma {:induction false} FilterPrefix<A>(xs: seq<A>, p: A -> bool, n: nat)
    requires n <= |xs|
    ensures Filter(xs[..n], p) <= Filter(xs, p)
    decreases |xs|
  {
    if n < |xs| {
      FilterPrefix(xs[..|xs| - 1], p, n);
      assert xs[..|xs| - 1][..n] == xs[..n];
    } else {
      assert xs[..n] == xs;
    }
  }

  /** The loop behind `Filter`. */
  method FilterLoop<A>(xs: seq<A>, p: A -> bool) returns (r: seq<A>)
    ensures r == Filter(xs, p)
  {
    r := [];
    var i := 0;
    while i < |xs|
      invariant 0 <= i <= |xs|
      invariant r == Filter(xs[..i], p)
    {
      assert xs[..i + 1][..i] == xs[..i];
      if p(xs[i]) {
        r := r + [xs[i]];
      }
      i := i + 1;
    }
    assert xs[..i] == xs;
  }

  /** `xs[:n]`. */
  function Take<A>(xs: seq<A>, n: nat): (r: seq<A>)
    ensures |r| <= n && r <= xs
    ensures |xs| <= n ==> r == xs
  {
    if |xs| <= n then xs else xs[..n]
  }

  /**
   * The loop `for x in xs: if p(x): out.append(x); if len(out) >= cap: break`:
   * the first `cap` elements that pass `p`, in order.
   */
  method ScanUpTo<A>(xs: seq<A>, p: A -> bool, cap: nat) returns (r: seq<A>)
    requires cap >= 1
    ensures r == Take(Filter(xs, p), cap)
  {
    r := [];
    var i := 0;
    while i < |xs|
      invariant 0 <= i <= |xs|
      invariant r == Filter(xs[..i], p) && |r| < cap
    {
      assert xs[..i + 1][..i] == xs[..i];
      if p(xs[i]) {
        r := r + [xs[i]];
        if |r| >= cap {
          FilterPrefix(xs, p, i + 1);
          return;
        }
      }
      i := i + 1;
    }
    assert xs[..i] == xs;
  }

  /** The elements a locator finds that pass `ok`, when there are any. */
  function FilteredPick<S, C>(find: S -> Option<seq<C>>, ok: C -> bool): S -> Option<seq<C>> {
    s => match find(s)
      case None => None
      case Some(es) => var valid := Filter(es, ok); if valid != [] then Some(valid) else None
  }

  /**
   * The first locator whose passing elements are not empty wins: the pick is
   * exactly its passing elements, and every earlier locator found none.
   */
  lemma FilteredPickWins<S, C>(sels: seq<S>, find: S -> Option<seq<C>>, ok: C -> bool)
    requires FirstSome(sels, FilteredPick(find, ok)).Some?
    ensures exists i :: (0 <= i < |sels| && find(sels[i]).Some?
      && FirstSome(sels, FilteredPick(find, ok)).value == Filter(find(sels[i]).value, ok)
      && (forall j :: 0 <= j < i ==> FilteredPick(find, ok)(sels[j]).None?))
    ensures FirstSome(sels, FilteredPick(find, ok)).value != []
  {
    var i :| 0 <= i < |sels| && FilteredPick(find, ok)(sels[i]) == FirstSome(sels, FilteredPick(find, ok))
      && forall j :: 0 <= j < i ==> FilteredPick(find, ok)(sels[j]).None?;
    assert find(sels[i]).Some?;
  }

  /**
   * The loop `for s in sels: es = find(s); if es: valid = [e for e in es if ok(e)]; if valid: break`,
   * where a locator that raises is skipped: the winning locator's passing elements, or [].
   */
  method FirstFilteredTier<S, C>(sels: seq<S>, find: S -> Option<seq<C>>, ok: C -> bool) returns (r: seq<C>)
    ensures r == FirstSome(sels, FilteredPick(find, ok)).GetOr([])
  {
    r := [];
    var i := 0;
    while i < |sels| && r == []
      invariant 0 <= i <= |sels|
      invariant r == [] ==> FirstSome(sels, FilteredPick(find, ok)) == FirstSome(sels[i..], FilteredPick(find, ok))
      invariant r != [] ==> FirstSome(sels, FilteredPick(find, ok)) == Some(r)
    {
      assert sels[i..][1..] == sels[i + 1..];
      var elements := find(sels[i]);
      if elements.Some? && elements.value != [] {
        var valid := FilterLoop(elements.value, ok);
        if valid != [] {
          r := valid;
        }
      }
      i := i + 1;
    }
  }

  /** The elements a locator finds, when there are any. */
  function NonEmptyPick<S, C>(find: S -> Option<seq<C>>): S -> Option<seq<C>> {
    s => match find(s)
      case None => None
      case Some(es) => if es != [] then Some(es) else None
  }

  /**
   * The first locator that finds any element wins: the pick is all of its
   * elements, and every earlier locator raised or found nothing.
   */
  lemma NonEmptyPickWins<S, C>(sels: seq<S>, find: S -> Option<seq<C>>)
    requires FirstSome(sels, NonEmptyPick(find)).Some?
    ensures exists i :: (0 <= i < |sels| && find(sels[i]) == FirstSome(sels, NonEmptyPick(find))
      && (forall j :: 0 <= j < i ==> find(sels[j]).None? || find(sels[j]).value == []))
    ensures FirstSome(sels, NonEmptyPick(find)).value != []
  {
    var i :| 0 <= i < |sels| && NonEmptyPick(find)(sels[i]) == FirstSome(sels, NonEmptyPick(find))
      && forall j :: 0 <= j < i ==> NonEmptyPick(find)(sels[j]).None?;
    assert find(sels[i]).Some?;
  }

  /** The first value `f` gives on the items of `inner(x)`, for a given `x`. */
  function NestedPick<A, B, T>(inner: A -> seq<B>, f: B -> Option<T>): A -> Option<T> {
    x => FirstSome(inner(x), f)
  }

  /**
   * The nested loop `for x in xs: for y in inner(x): if <y gives a value>: v = ...; break`
   * followed by `if <found>: break`.
   */
  method FindNested<A, B, T>(xs: seq<A>, inner: A -> seq<B>, f: B -> Option<T>) returns (r: Option<T>)
    ensures r == FirstSome(xs, NestedPick(inner, f))
  {
    var i := 0;
    r := None;
    while i < |xs|
      invariant 0 <= i <= |xs|
      invariant FirstSome(xs, NestedPick(inner, f)) == FirstSome(xs[i..], NestedPick(inner, f))
    {
      assert xs[i..][1..] == xs[i + 1..];
      var y := FindFirst(inner(xs[i]), f);
      if y.Some? {
        r := y;
        return;
      }
      i := i + 1;
    }
  }

  /** The position of the first item `ok` rejects, or the length when it accepts them all. */
  function FirstFailing<A>(xs: seq<A>, ok: A -> bool): (k: nat)
    ensures k <= |xs|
    ensures forall m :: 0 <= m < k ==> ok(xs[m])
    ensures k < |xs| ==> !ok(xs[k])
    decreases |xs|
  {
    if xs == [] || !ok(xs[0]) then 0
    else 1 + FirstFailing(xs[1..], ok)
  }

  /** When `ok` accepts every item, none is the first failing one. */
  lemma {:induction false} NoneFailing<A>(xs: seq<A>, ok: A -> bool)
    requires forall m :: 0 <= m < |xs| ==> ok(xs[m])
    ensures FirstFailing(xs, ok) == |xs|
    decreases |xs|
  {
    if xs != [] {
      NoneFailing(xs[1..], ok);
    }
  }

  /** The value a nested pick gives comes from one inner item of one outer item. */
  lemma NestedPickFrom<A, B, T>(xs: seq<A>, inner: A -> seq<B>, f: B -> Option<T>)
    requires FirstSome(xs, NestedPick(inner, f)).Some?
    ensures exists i, j :: 0 <= i < |xs| && 0 <= j < |inner(xs[i])| && f(inner(xs[i])[j]) == FirstSome(xs, NestedPick(inner, f))
  {
    var r := FirstSome(xs, NestedPick(inner, f));
    FirstSomeWins(xs, NestedPick(inner, f));
    var i :| 0 <= i < |xs| && NestedPick(inner, f)(xs[i]) == r;
    FirstSomeWins(inner(xs[i]), f);
    var j :| 0 <= j < |inner(xs[i])| && f(inner(xs[i])[j]) == r;
  }

  /**
   * The loop `for x in xs: <read x, which may raise>; if p(x): out.append(x)` inside a
   * `try`: the passing items before the first one whose read raises are appended,
   * and `raised` tells whether the loop was cut short.
   */
  method AppendUntilRaise<A>(xs: seq<A>, readable: A -> bool, p: A -> bool, out0: seq<A>) returns (out: seq<A>, raised: bool)
    ensures out == out0 + Filter(xs[..FirstFailing(xs, readable)], p)
    ensures raised <==> FirstFailing(xs, readable) < |xs|
  {
    out := out0;
    raised := false;
    var k := 0;
    while k < |xs|
      invariant 0 <= k <= FirstFailing(xs, readable)
      invariant out == out0 + Filter(xs[..k], p)
    {
      assert xs[..k + 1][..k] == xs[..k];
      if !readable(xs[k]) {
        raised := true;
        return;
      }
      if p(xs[k]) {
        out := out + [xs[k]];
      }
      k := k + 1;
    }
  }
}
