/// Runs of adjacent digits, the notion behind three rules: equal neighbours
/// (`Rule2_ConsecutiveRepeats`), neighbours one apart going up
/// (`Rule4_IncreasingSequence`) and going down (`Rule11_DecreasingSequence`).
///
/// `RunEndingAt` and `LongestRunUpTo` follow the counters of the source's loops
/// (`current_*` and `max_*`); `IsRun` is the independent definition they are
/// proved against.
module Runs {
  import opened Chars

  /** How two neighbouring digits must relate for a run to continue. */
  datatype Step = Repeat | Rise | Fall

  predicate Linked(step: Step, a: char, b: char) {
    match step
    case Repeat => b == a
    case Rise => DigitValue(b) == DigitValue(a) + 1
    case Fall => DigitValue(b) == DigitValue(a) - 1
  }

  /** The `n` characters of `d` from index `i` on form a run. */
  ghost predicate IsRun(step: Step, d: string, i: nat, n: nat) {
    1 <= n && i + n <= |d| && forall j :: i < j < i + n ==> Linked(step, d[j - 1], d[j])
  }

  /** No run is longer than `n`, and some run has length `n`. */
  ghost predicate Longest(step: Step, d: string, n: nat) {
    (exists i: nat :: IsRun(step, d, i, n)) && forall i: nat, m: nat :: IsRun(step, d, i, m) ==> m <= n
  }

  /** The run of length `n` at `s` is a longest run, and no longest run starts before it. */
  ghost predicate LeftmostLongest(step: Step, d: string, s: nat, n: nat) {
    && IsRun(step, d, s, n)
    && (forall i: nat, m: nat :: IsRun(step, d, i, m) ==> m <= n)
    && (forall i: nat :: i < s ==> !IsRun(step, d, i, n))
  }

  function Max(a: int, b: int): int { if a >= b then a else b }

  /** Length of the run that ends at index `j` (the loop's `current_*` counter). */
  function RunEndingAt(step: Step, d: string, j: nat): (n: nat)
    requires j < |d|
    ensures 1 <= n <= j + 1
  {
    if j == 0 then 1
    else if Linked(step, d[j - 1], d[j]) then RunEndingAt(step, d, j - 1) + 1
    else 1
  }

  /** Longest run ending before index `k` (the loop's `max_*` counter after `k - 1` steps). */
  function LongestRunUpTo(step: Step, d: string, k: nat): (m: nat)
    requires 1 <= k <= |d|
    ensures 1 <= m <= k
  {
    if k == 1 then 1 else Max(LongestRunUpTo(step, d, k - 1), RunEndingAt(step, d, k - 1))
  }

  /** Index where the first longest run before `k` ends: the maximum moves only on a strict increase. */
  function FirstLongestEnd(step: Step, d: string, k: nat): (e: nat)
    requires 1 <= k <= |d|
    ensures e < k
  {
    if k == 1 then 0
    else if RunEndingAt(step, d, k - 1) > LongestRunUpTo(step, d, k - 1) then k - 1
    else FirstLongestEnd(step, d, k - 1)
  }

  /** Length of the longest run in `d`; 0 for an empty string. */
  function LongestRun(step: Step, d: string): nat {
    if d == [] then 0 else LongestRunUpTo(step, d, |d|)
  }

  /** Start of the leftmost longest run. */
  function LongestRunStart(step: Step, d: string): nat
    requires d != []
  {
    var e := FirstLongestEnd(step, d, |d|);
    e + 1 - RunEndingAt(step, d, e)
  }

  lemma {:induction false} RunEndingAtIsRun(step: Step, d: string, j: nat)
    requires j < |d|
    ensures IsRun(step, d, j + 1 - RunEndingAt(step, d, j), RunEndingAt(step, d, j))
  {
    if j > 0 && Linked(step, d[j - 1], d[j]) {
      RunEndingAtIsRun(step, d, j - 1);
    }
  }

  lemma {:induction false} RunReachesEnd(step: Step, d: string, i: nat, n: nat)
    requires IsRun(step, d, i, n)
    ensures RunEndingAt(step, d, i + n - 1) >= n
  {
    if n > 1 {
      assert IsRun(step, d, i, n - 1);
      RunReachesEnd(step, d, i, n - 1);
    }
  }

  lemma {:induction false} LongestRunUpToBounds(step: Step, d: string, k: nat)
    requires 1 <= k <= |d|
    ensures forall j :: 0 <= j < k ==> RunEndingAt(step, d, j) <= LongestRunUpTo(step, d, k)
    ensures RunEndingAt(step, d, FirstLongestEnd(step, d, k)) == LongestRunUpTo(step, d, k)
    ensures forall j :: 0 <= j < FirstLongestEnd(step, d, k) ==> RunEndingAt(step, d, j) < LongestRunUpTo(step, d, k)
  {
    if k > 1 {
      LongestRunUpToBounds(step, d, k - 1);
    }
  }

  /** The run the loop settles on is the leftmost of the longest runs. */
  lemma LongestRunIsLeftmostLongest(step: Step, d: string)
    requires d != []
    ensures LeftmostLongest(step, d, LongestRunStart(step, d), LongestRun(step, d))
  {
    var e := FirstLongestEnd(step, d, |d|);
    var len := LongestRun(step, d);
    LongestRunUpToBounds(step, d, |d|);
    RunEndingAtIsRun(step, d, e);
    forall i: nat, m: nat | IsRun(step, d, i, m) ensures m <= len {
      RunReachesEnd(step, d, i, m);
    }
    forall i: nat | i < LongestRunStart(step, d) ensures !IsRun(step, d, i, len) {
      if IsRun(step, d, i, len) {
        RunReachesEnd(step, d, i, len);
      }
    }
  }

  /** The longest run is well defined: its length is the `Longest` one. */
  lemma LongestRunIsLongest(step: Step, d: string)
    requires d != []
    ensures Longest(step, d, LongestRun(step, d))
  {
    LongestRunIsLeftmostLongest(step, d);
  }

  /** Every character of a run of repeats is the run's first character. */
  lemma {:induction false} RepeatRunUniform(d: string, i: nat, n: nat)
    requires IsRun(Repeat, d, i, n)
    ensures forall j :: i <= j < i + n ==> d[j] == d[i]
  {
    if n > 1 {
      assert IsRun(Repeat, d, i, n - 1);
      RepeatRunUniform(d, i, n - 1);
      assert Linked(Repeat, d[i + n - 2], d[i + n - 1]);
    }
  }
}
