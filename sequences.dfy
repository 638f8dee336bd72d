/**
 * The list operations Tavern applies to token lists: keeping the elements a
 * predicate accepts (Rust's `Vec::retain`, JavaScript's `Array.filter`) and
 * finding the first element a predicate accepts (Rust's `iter().find`,
 * JavaScript's `Array.find`), and stripping the elements a predicate accepts
 * from both ends (the shape of JavaScript's `String.prototype.trim`).
 */
module Sequences {
  import opened Wrappers

  /** The elements of `s` that `keep` accepts, in their original order. */
  function Filter<T(!new)>(s: seq<T>, keep: T -> bool): (r: seq<T>)
    ensures |r| <= |s|
    ensures forall x :: x in r <==> x in s && keep(x)
  {
    if s == [] then []
    else
      assert forall x :: x in s <==> x == s[0] || x in s[1..];
      (if keep(s[0]) then [s[0]] else []) + Filter(s[1..], keep)
  }

  /** Filtering distributes over concatenation: the relative order of kept elements is preserved. */
  lemma {:induction false} FilterConcat<T(!new)>(s: seq<T>, t: seq<T>, keep: T -> bool)
    ensures Filter(s + t, keep) == Filter(s, keep) + Filter(t, keep)
  {
    if s == [] {
      assert s + t == t;
    } else {
      assert (s + t)[0] == s[0];
      assert (s + t)[1..] == s[1..] + t;
      FilterConcat(s[1..], t, keep);
    }
  }

  /** When `keep` accepts every element, filtering changes nothing. */
  lemma {:induction false} FilterKeepsAll<T(!new)>(s: seq<T>, keep: T -> bool)
    requires forall i :: 0 <= i < |s| ==> keep(s[i])
    ensures Filter(s, keep) == s
  {
    if s != [] {
      FilterKeepsAll(s[1..], keep);
    }
  }

  /** Filtering twice with the same predicate is filtering once. */
  lemma FilterIdempotent<T(!new)>(s: seq<T>, keep: T -> bool)
    ensures Filter(Filter(s, keep), keep) == Filter(s, keep)
  {
    var r := Filter(s, keep);
    forall i | 0 <= i < |r| ensures keep(r[i]) {
      assert r[i] in r;
    }
    FilterKeepsAll(r, keep);
  }

  /** The index of the first element of `s` that `p` accepts, if any. */
  function FirstIndex<T>(s: seq<T>, p: T -> bool): (r: Option<nat>)
    ensures r.None? <==> forall i :: 0 <= i < |s| ==> !p(s[i])
    ensures r.Some? ==> r.value < |s| && p(s[r.value]) && forall i :: 0 <= i < r.value ==> !p(s[i])
  {
    if s == [] then None
    else if p(s[0]) then Some(0)
    else
      match FirstIndex(s[1..], p)
      case None => None
      case Some(i) => Some(i + 1)
  }
  /** The number of elements at the start of `s` that `drop` accepts. */
  function Leading<T>(s: seq<T>, drop: T -> bool): (n: nat)
    ensures n <= |s|
    ensures forall i :: 0 <= i < n ==> drop(s[i])
    ensures n < |s| ==> !drop(s[n])
  {
    if s != [] && drop(s[0]) then 1 + Leading(s[1..], drop) else 0
  }

  /** The number of elements at the end of `s` that `drop` accepts. */
  function Trailing<T>(s: seq<T>, drop: T -> bool): (n: nat)
    ensures n <= |s|
    ensures forall i :: |s| - n <= i < |s| ==> drop(s[i])
    ensures n < |s| ==> !drop(s[|s| - n - 1])
  {
    if s != [] && drop(s[|s| - 1]) then 1 + Trailing(s[..|s| - 1], drop) else 0
  }

  /**
   * `s` stripped at both ends: the slice of `s` between the elements `drop`
   * accepts at its start and those at its end, which neither starts nor ends
   * with such an element, and is empty exactly when `drop` accepts all of `s`.
   */
  function Strip<T>(s: seq<T>, drop: T -> bool): (r: seq<T>)
    ensures Leading(s, drop) + |r| <= |s| && r == s[Leading(s, drop)..Leading(s, drop) + |r|]
    ensures forall j :: 0 <= j < Leading(s, drop) ==> drop(s[j])
    ensures forall j :: Leading(s, drop) + |r| <= j < |s| ==> drop(s[j])
    ensures r == [] || (!drop(r[0]) && !drop(r[|r| - 1]))
    ensures r == [] <==> forall j :: 0 <= j < |s| ==> drop(s[j])
  {
    var i := Leading(s, drop);
    if i == |s| then []
    else
      var e := |s| - Trailing(s, drop);
      assert i < e;
      s[i..e]
  }

  /** Stripping a stripped sequence changes nothing. */
  lemma StripIdempotent<T>(s: seq<T>, drop: T -> bool)
    ensures Strip(Strip(s, drop), drop) == Strip(s, drop)
  {
    var r := Strip(s, drop);
    assert Leading(r, drop) == 0;
    assert Trailing(r, drop) == 0;
  }
}
