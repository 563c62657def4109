/**
 * The list toggles of the UI: a selection list in which clicking an id removes it when present
 * and appends it otherwise, optionally only while the list is shorter than a cap.
 *   - AIResultSection.handleMoodToggle: unbounded toggle of the store's moods;
 *   - AIResultSection.handleProductToggle: toggle capped at 2 products;
 *   - canvas/page.handleMoodToggle: toggle capped at 3 moods.
 */
module Selection {

  predicate Distinct(xs: seq<string>) {
    forall i, j :: 0 <= i < j < |xs| ==> xs[i] != xs[j]
  }

  /** `a` is obtained from `b` by deleting elements (order kept). */
  ghost predicate IsSubsequence<T>(a: seq<T>, b: seq<T>) {
    a == [] ||
    (b != [] && (IsSubsequence(a, b[1..]) || (a[0] == b[0] && IsSubsequence(a[1..], b[1..]))))
  }

  /** The step of Remove that keeps the head. */
  lemma RemoveKeepsHead(xs: seq<string>, x: string, rest: seq<string>)
    requires xs != [] && xs[0] != x
    requires IsSubsequence(rest, xs[1..]) && multiset(rest) == multiset(xs[1..])[x := 0]
    ensures IsSubsequence([xs[0]] + rest, xs)
    ensures multiset([xs[0]] + rest) == multiset(xs)[x := 0]
  {
    assert ([xs[0]] + rest)[1..] == rest;
    assert xs == [xs[0]] + xs[1..];
  }

  /** The step of Remove that drops the head. */
  lemma RemoveDropsHead(xs: seq<string>, x: string, rest: seq<string>)
    requires xs != [] && xs[0] == x
    requires IsSubsequence(rest, xs[1..]) && multiset(rest) == multiset(xs[1..])[x := 0]
    ensures IsSubsequence(rest, xs)
    ensures multiset(rest) == multiset(xs)[x := 0]
  {
    assert xs == [xs[0]] + xs[1..];
  }

  /** `xs.filter((id) => id !== x)`: every element except x, in their order, each as often as
      before. */
  function Remove(xs: seq<string>, x: string): (r: seq<string>)
    ensures |r| <= |xs|
    ensures IsSubsequence(r, xs)
    ensures multiset(r) == multiset(xs)[x := 0]
    ensures forall y :: y in r <==> y in xs && y != x
    ensures Distinct(xs) ==> Distinct(r)
    ensures x in xs ==> |r| < |xs|
  {
    if xs == [] then []
    else
      var rest := Remove(xs[1..], x);
      if xs[0] == x then
        RemoveDropsHead(xs, x, rest);
        rest
      else
        RemoveKeepsHead(xs, x, rest);
        if Distinct(xs) then
          DistinctCons(xs[0], rest);
          [xs[0]] + rest
        else
          [xs[0]] + rest
  }

  lemma DistinctCons(a: string, rest: seq<string>)
    requires a !in rest && Distinct(rest)
    ensures Distinct([a] + rest)
  {
    forall i, j | 0 <= i < j < |[a] + rest|
      ensures ([a] + rest)[i] != ([a] + rest)[j]
    {
      assert ([a] + rest)[j] == rest[j - 1];
      if i > 0 {
        assert ([a] + rest)[i] == rest[i - 1];
      }
    }
  }

  lemma {:induction false} RemoveAbsent(xs: seq<string>, x: string)
    requires x !in xs
    ensures Remove(xs, x) == xs
  {
    if xs != [] {
      RemoveAbsent(xs[1..], x);
    }
  }

  /** Removing what was just appended gives back the list it was appended to. */
  lemma {:induction false} RemoveAppended(xs: seq<string>, x: string)
    requires x !in xs
    ensures Remove(xs + [x], x) == xs
  {
    if xs == [] {
    } else {
      assert (xs + [x])[1..] == xs[1..] + [x];
      RemoveAppended(xs[1..], x);
    }
  }

  /** The unbounded toggle: `includes(x) ? filter(!== x) : [...xs, x]`. */
  function Toggle(xs: seq<string>, x: string): (r: seq<string>)
    ensures x in r <==> x !in xs
    ensures forall y :: y != x ==> (y in r <==> y in xs)
    ensures Distinct(xs) ==> Distinct(r)
    ensures x !in xs ==> r == xs + [x]
  {
    if x in xs then Remove(xs, x) else xs + [x]
  }

  /** The capped toggle: a present id is removed; an absent one is appended only below the cap. */
  function CappedToggle(xs: seq<string>, x: string, cap: nat): (r: seq<string>)
    ensures |xs| <= cap ==> |r| <= cap
    ensures Distinct(xs) ==> Distinct(r)
    ensures x in r <==> x !in xs && |xs| < cap
    ensures forall y :: y != x ==> (y in r <==> y in xs)
    ensures x !in xs && |xs| < cap ==> r == xs + [x]
    ensures x !in xs && |xs| >= cap ==> r == xs
  {
    if x in xs then Remove(xs, x)
    else if |xs| < cap then xs + [x]
    else xs
  }

  /** Clicking an absent id twice, below the cap, restores the selection. */
  lemma CappedToggleTwice(xs: seq<string>, x: string, cap: nat)
    requires x !in xs && |xs| < cap
    ensures CappedToggle(CappedToggle(xs, x, cap), x, cap) == xs
  {
    RemoveAppended(xs, x);
  }

  /** Clicking a present id twice, in a duplicate-free selection below the cap, moves it to the end. */
  lemma CappedToggleTwicePresent(xs: seq<string>, x: string, cap: nat)
    requires Distinct(xs) && x in xs && |xs| <= cap
    ensures CappedToggle(CappedToggle(xs, x, cap), x, cap) == Remove(xs, x) + [x]
  {
  }

  /** The unbounded toggle, clicked twice on an absent id, restores the list. */
  lemma ToggleTwice(xs: seq<string>, x: string)
    requires x !in xs
    ensures Toggle(Toggle(xs, x), x) == xs
  {
    RemoveAppended(xs, x);
  }
}
