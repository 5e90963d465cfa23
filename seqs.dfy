/// Generic sequence operations that the scorer and the validators share:
/// filtering comprehensions (`[x for x in s if keep(x)]`), element-wise maps
/// (`str.upper`), `str.count`, slice reversal (`s[::-1]`) and the
/// `list(set(xs))` de-duplication idiom.
module Seqs {

  datatype Option<T> = None | Some(value: T)

  /** The elements of `s` that satisfy `keep`, in their original order. */
  function Filter<T>(s: seq<T>, keep: T -> bool): (r: seq<T>)
    ensures |r| <= |s|
    ensures forall i :: 0 <= i < |r| ==> keep(r[i])
  {
    if s == [] then [] else (if keep(s[0]) then [s[0]] else []) + Filter(s[1..], keep)
  }

  /** Filtering distributes over concatenation, so it keeps the original order. */
  lemma {:induction false} FilterAppend<T>(a: seq<T>, b: seq<T>, keep: T -> bool)
    ensures Filter(a + b, keep) == Filter(a, keep) + Filter(b, keep)
  {
    if a == [] {
      assert a + b == b;
    } else {
      assert (a + b)[1..] == a[1..] + b;
      FilterAppend(a[1..], b, keep);
    }
  }

  /** Filtering keeps every occurrence of a kept value and drops every other value. */
  lemma {:induction false} FilterMultiset<T>(s: seq<T>, keep: T -> bool)
    ensures forall x :: multiset(Filter(s, keep))[x] == if keep(x) then multiset(s)[x] else 0
  {
    if s != [] {
      FilterMultiset(s[1..], keep);
      assert s == [s[0]] + s[1..];
    }
  }

  /** A sequence whose elements all pass the test is its own filtering. */
  lemma {:induction false} FilterKeepsAll<T>(s: seq<T>, keep: T -> bool)
    requires forall i :: 0 <= i < |s| ==> keep(s[i])
    ensures Filter(s, keep) == s
  {
    if s != [] {
      FilterKeepsAll(s[1..], keep);
    }
  }

  /** Filtering with a stronger test after a weaker one is filtering with the stronger one. */
  lemma {:induction false} FilterFilter<T>(s: seq<T>, weak: T -> bool, strong: T -> bool)
    requires forall x :: strong(x) ==> weak(x)
    ensures Filter(Filter(s, weak), strong) == Filter(s, strong)
  {
    if s != [] {
      FilterFilter(s[1..], weak, strong);
      FilterAppend(if weak(s[0]) then [s[0]] else [], Filter(s[1..], weak), strong);
    }
  }

  /** Every element passes the test exactly when filtering drops nothing. */
  lemma {:induction false} FilterKeepsLength<T>(s: seq<T>, keep: T -> bool)
    ensures |Filter(s, keep)| == |s| <==> forall i :: 0 <= i < |s| ==> keep(s[i])
  {
    if s != [] {
      FilterKeepsLength(s[1..], keep);
      assert forall i :: 1 <= i < |s| ==> s[i] == s[1..][i - 1];
    }
  }

  /** `f` applied to every element, position by position. */
  function Map<T, U>(s: seq<T>, f: T -> U): (r: seq<U>)
    ensures |r| == |s|
    ensures forall i :: 0 <= i < |s| ==> r[i] == f(s[i])
  {
    if s == [] then [] else [f(s[0])] + Map(s[1..], f)
  }

  /** Mapping works piecewise over concatenation. */
  lemma MapAppend<T, U>(a: seq<T>, b: seq<T>, f: T -> U)
    ensures Map(a + b, f) == Map(a, f) + Map(b, f)
  {
  }

  /** Mapping with a function that does not change the filter test commutes with filtering. */
  lemma {:induction false} MapFilter<T>(s: seq<T>, f: T -> T, keep: T -> bool)
    requires forall x :: keep(f(x)) == keep(x)
    ensures Map(Filter(s, keep), f) == Filter(Map(s, f), keep)
  {
    if s != [] {
      MapFilter(s[1..], f, keep);
      assert Map(s, f)[1..] == Map(s[1..], f);
      if keep(s[0]) {
        assert Map([s[0]] + Filter(s[1..], keep), f) == [f(s[0])] + Map(Filter(s[1..], keep), f);
      }
    }
  }

  /** Number of occurrences of `x` (`str.count` on one character). */
  function Count<T(==)>(s: seq<T>, x: T): (n: nat)
    ensures n == multiset(s)[x]
  {
    if s == [] then 0
    else
      assert s == [s[0]] + s[1..];
      (if s[0] == x then 1 else 0) + Count(s[1..], x)
  }

  /** A sequence drawn from four distinct values is as long as their four counts together. */
  lemma {:induction false} LengthByFourValues<T>(s: seq<T>, a: T, b: T, c: T, d: T)
    requires a != b && a != c && a != d && b != c && b != d && c != d
    requires forall i :: 0 <= i < |s| ==> s[i] == a || s[i] == b || s[i] == c || s[i] == d
    ensures var m := multiset(s); |s| == m[a] + m[b] + m[c] + m[d]
  {
    if s != [] {
      LengthByFourValues(s[1..], a, b, c, d);
      assert s == [s[0]] + s[1..];
    }
  }

  /** `s[::-1]`. */
  function Reverse<T>(s: seq<T>): (r: seq<T>)
    ensures |r| == |s|
  {
    if s == [] then [] else Reverse(s[1..]) + [s[0]]
  }

  /** Position `i` of the reversal holds the element `i` places from the end. */
  lemma {:induction false} ReverseIndex<T>(s: seq<T>)
    ensures forall i :: 0 <= i < |s| ==> Reverse(s)[i] == s[|s| - 1 - i]
  {
    if s != [] {
      ReverseIndex(s[1..]);
    }
  }

  predicate IsPalindrome<T(==)>(s: seq<T>) {
    s == Reverse(s)
  }

  /** A palindrome reads the same from either end, position by position. */
  lemma PalindromeMirror<T>(s: seq<T>)
    ensures IsPalindrome(s) <==> forall i :: 0 <= i < |s| ==> s[i] == s[|s| - 1 - i]
  {
    ReverseIndex(s);
    if forall i :: 0 <= i < |s| ==> s[i] == s[|s| - 1 - i] {
      assert s == Reverse(s);
    }
  }

  /** The window of `n` elements of `s` at index `j` exists and `accept` takes it. */
  predicate AcceptsAt<T>(s: seq<T>, n: nat, j: nat, accept: seq<T> -> bool) {
    j + n <= |s| && accept(s[j..j + n])
  }

  /** Index of the first window `s[j..j + n]`, `j >= i`, that `accept` takes: the
      scan `for j in range(i, len(s) - n + 1)` that returns at the first hit. */
  function FirstWindow<T>(s: seq<T>, n: nat, i: nat, accept: seq<T> -> bool): (r: Option<nat>)
    ensures r.Some? ==> i <= r.value && r.value + n <= |s|
    decreases |s| - i
  {
    if i + n > |s| then None
    else if accept(s[i..i + n]) then Some(i)
    else FirstWindow(s, n, i + 1, accept)
  }

  /** The scan finds a window `accept` takes and none before it, or finds that there is none. */
  lemma {:induction false} FirstWindowSound<T>(s: seq<T>, n: nat, i: nat, accept: seq<T> -> bool)
    ensures var r := FirstWindow(s, n, i, accept);
      && (r.Some? ==> AcceptsAt(s, n, r.value, accept))
      && (r.Some? ==> forall j: nat :: i <= j < r.value ==> !AcceptsAt(s, n, j, accept))
      && (r.None? ==> forall j: nat :: i <= j ==> !AcceptsAt(s, n, j, accept))
    decreases |s| - i
  {
    if i + n <= |s| && !accept(s[i..i + n]) {
      FirstWindowSound(s, n, i + 1, accept);
    }
  }

  /** The window the scan returns is accepted. */
  lemma FirstWindowAccepts<T>(s: seq<T>, n: nat, i: nat, accept: seq<T> -> bool)
    requires FirstWindow(s, n, i, accept).Some?
    ensures AcceptsAt(s, n, FirstWindow(s, n, i, accept).value, accept)
  {
    FirstWindowSound(s, n, i, accept);
  }

  /** A window `accept` rejects lets the scan move one place right. */
  lemma FirstWindowStep<T>(s: seq<T>, n: nat, i: nat, accept: seq<T> -> bool)
    requires i + n <= |s| && !accept(s[i..i + n])
    requires FirstWindow(s, n, 0, accept) == FirstWindow(s, n, i, accept)
    ensures FirstWindow(s, n, 0, accept) == FirstWindow(s, n, i + 1, accept)
  {
  }

  /** The scan stops at the first window `accept` takes. */
  lemma FirstWindowHit<T>(s: seq<T>, n: nat, i: nat, accept: seq<T> -> bool)
    requires i + n <= |s| && accept(s[i..i + n])
    requires FirstWindow(s, n, 0, accept) == FirstWindow(s, n, i, accept)
    ensures FirstWindow(s, n, 0, accept) == Some(i)
  {
  }

  predicate NoDuplicates<T(==)>(s: seq<T>) {
    forall i, j :: 0 <= i < j < |s| ==> s[i] != s[j]
  }

  /** `list(set(s))`: every value of `s` once. Python leaves the order of the
      result unspecified; this model keeps first occurrences in input order. */
  function Distinct<T(==)>(s: seq<T>): (r: seq<T>)
    ensures NoDuplicates(r)
    ensures forall i :: 0 <= i < |s| ==> s[i] in r
    ensures forall i :: 0 <= i < |r| ==> r[i] in s
  {
    if s == [] then []
    else
      var rest := Distinct(s[..|s| - 1]);
      assert s == s[..|s| - 1] + [s[|s| - 1]];
      if s[|s| - 1] in rest then rest else rest + [s[|s| - 1]]
  }

  /** A prefix one longer is the prefix and the next element. */
  lemma PrefixSnoc<T>(s: seq<T>, i: nat)
    requires i < |s|
    ensures s[..i + 1] == s[..i] + [s[i]]
  {
  }

  /** Dropping the last element of `s + [x]` gives back `s`. */
  lemma InitOfSnoc<T>(s: seq<T>, x: T)
    ensures (s + [x])[..|s|] == s
  {
  }

  /** Splitting off the last element of `b` also splits `a + b`. */
  lemma AppendSnoc<T>(a: seq<T>, b: seq<T>)
    requires b != []
    ensures b == b[..|b| - 1] + [b[|b| - 1]]
    ensures a + b == (a + b[..|b| - 1]) + [b[|b| - 1]]
  {
  }

  lemma AppendAssoc<T>(a: seq<T>, b: seq<T>, c: seq<T>)
    ensures (a + b) + c == a + (b + c)
  {
  }
}
