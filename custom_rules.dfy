/// The five example rules of add_custom_rule.py (`Rule8_AvoidNumber7` …
/// `Rule12_SpecificPattern`), in the same style as `DefaultRules`: a function
/// per rule; for each rule whose source is a loop, a method with that loop
/// proved equal to the function.
module CustomRules {
  import opened Seqs
  import opened Chars
  import opened RuleBase
  import opened Runs

  // ---------------------------------------------------------------- Rule8

  /** Rule8: a bonus of 5 without any digit 7, else a penalty of 3 per 7. */
  function AvoidNumber7(plate: string): (v: Verdict)
    ensures v.raw != 0
    ensures v.raw > 0 <==> '7' !in plate
    ensures '7' !in plate ==> v == Verdict(5, DigitAbsent('7'))
    ensures '7' in plate ==> v == Verdict(-3 * (multiset(plate)['7'] as int), DigitPenalty('7', multiset(plate)['7']))
  {
    var count7 := Count(ExtractDigits(plate), '7');
    if count7 == 0 then Verdict(5, DigitAbsent('7'))
    else Verdict(-(count7 * 3), DigitPenalty('7', count7))
  }

  // ---------------------------------------------------------------- Rule9

  /** A window of a digit string: `length` digits from `start`. */
  datatype Window = Window(start: nat, length: nat)

  /** The `m` digits of `d` from `i` on read the same backwards. */
  predicate PalindromeAt(d: string, m: nat, i: nat) {
    AcceptsAt(d, m, i, IsPalindrome)
  }

  /** The partial-palindrome search: lengths from `n` down to 3, and for each
      length the windows from left to right; the first palindrome found wins. */
  function LongestPalindrome(d: string, n: nat): (r: Option<Window>)
    ensures r.Some? ==> 3 <= r.value.length <= n && r.value.start + r.value.length <= |d|
    decreases n
  {
    if n < 3 then None
    else match FirstWindow(d, n, 0, IsPalindrome)
      case Some(i) => Some(Window(i, n))
      case None => LongestPalindrome(d, n - 1)
  }

  /**
   * The window the search finds is palindromic and at least 3 long; no
   * palindromic window of that length starts further left, and none is
   * longer. Finding none means no window of 3 to `n` digits is palindromic.
   */
  lemma {:induction false} LongestPalindromeSound(d: string, n: nat)
    ensures var r := LongestPalindrome(d, n);
      && (r.Some? ==> var w := r.value;
            && 3 <= w.length <= n
            && PalindromeAt(d, w.length, w.start)
            && (forall i: nat :: i < w.start ==> !PalindromeAt(d, w.length, i))
            && (forall i: nat, m: nat :: w.length < m <= n ==> !PalindromeAt(d, m, i)))
      && (r.None? ==> forall i: nat, m: nat :: 3 <= m <= n ==> !PalindromeAt(d, m, i))
    decreases n
  {
    if n >= 3 {
      FirstWindowSound(d, n, 0, IsPalindrome);
      if FirstWindow(d, n, 0, IsPalindrome).None? {
        LongestPalindromeSound(d, n - 1);
      }
    }
  }

  /** Rule9, as a function of the plate. */
  function PalindromeNumber(plate: string): Verdict {
    var d := ExtractDigits(plate);
    if |d| < 3 then Verdict(0, InsufficientDigits)
    else if IsPalindrome(d) then Verdict(35, PerfectPalindrome(d))
    else match LongestPalindrome(d, |d|)
      case Some(w) => Verdict((w.length - 2) * 8, PartialPalindrome(d[w.start..w.start + w.length]))
      case None => Verdict(0, NoPalindrome)
  }

  /**
   * Rule9 scores 0 with fewer than three digits and a flat 35 when all the
   * digits form a palindrome. Otherwise it reports a partial palindrome when
   * some run of three or more digits reads the same backwards, and "no
   * palindrome" exactly when none does.
   */
  lemma PalindromeNumberMeaning(plate: string)
    ensures var d, v := ExtractDigits(plate), PalindromeNumber(plate);
      && (|d| < 3 ==> v == Verdict(0, InsufficientDigits))
      && (|d| >= 3 && IsPalindrome(d) ==> v == Verdict(35, PerfectPalindrome(d)))
      && (v.reason == NoPalindrome <==> |d| >= 3 && forall i: nat, m: nat :: 3 <= m ==> !PalindromeAt(d, m, i))
      && (|d| >= 3 && !IsPalindrome(d) && (exists i: nat, m: nat :: 3 <= m && PalindromeAt(d, m, i)) ==>
            v.reason.PartialPalindrome?)
      && (v.reason.PerfectPalindrome? || v.reason.PartialPalindrome? || v.raw == 0)
  {
    var d := ExtractDigits(plate);
    if |d| >= 3 {
      LongestPalindromeSound(d, |d|);
      assert d[0..|d|] == d;
      assert PalindromeAt(d, |d|, 0) <==> IsPalindrome(d);
    }
  }

  /**
   * When no perfect palindrome is found, Rule9 scores 8 points for every digit
   * beyond two in the longest palindromic run of digits, the leftmost among
   * equally long ones, and reports that run.
   */
  lemma PalindromeNumberPartial(plate: string)
    ensures var d, v := ExtractDigits(plate), PalindromeNumber(plate);
      v.reason.PartialPalindrome? ==>
        var w := v.reason.window;
        && !IsPalindrome(d)
        && 3 <= |w| < |d|
        && v.raw == (|w| - 2) * 8
        && IsPalindrome(w)
        && (exists i: nat :: PalindromeAt(d, |w|, i) && d[i..i + |w|] == w
              && forall j: nat :: j < i ==> !PalindromeAt(d, |w|, j))
        && (forall i: nat, m: nat :: |w| < m ==> !PalindromeAt(d, m, i))
  {
    var d := ExtractDigits(plate);
    if |d| >= 3 && !IsPalindrome(d) {
      match LongestPalindrome(d, |d|)
      case Some(w) =>
        PartialWindowShorter(d, w);
        PartialCase(plate, w);
        PartialWindowMeaning(d, w);
        var word := d[w.start..w.start + w.length];
        assert d[w.start..w.start + |word|] == word;
      case None =>
        NoneCase(plate);
    }
  }

  /** The window the search finds, read off the digits, is a leftmost longest palindrome. */
  lemma PartialWindowMeaning(d: string, w: Window)
    requires LongestPalindrome(d, |d|) == Some(w)
    ensures var word := d[w.start..w.start + w.length];
      && |word| == w.length && IsPalindrome(word)
      && PalindromeAt(d, |word|, w.start)
      && (forall j: nat :: j < w.start ==> !PalindromeAt(d, |word|, j))
      && (forall i: nat, m: nat :: |word| < m ==> !PalindromeAt(d, m, i))
  {
    LongestPalindromeSound(d, |d|);
    PalindromeWindow(d, w.length, w.start);
  }

  /** Digits that are no palindrome themselves hold no palindromic window as long as they are. */
  lemma PartialWindowShorter(d: string, w: Window)
    requires !IsPalindrome(d) && LongestPalindrome(d, |d|) == Some(w)
    ensures w.length < |d|
  {
    if |d| >= 3 {
      assert d[0..|d|] == d;
      assert FirstWindow(d, |d|, 1, IsPalindrome) == None;
      assert FirstWindow(d, |d|, 0, IsPalindrome) == None;
      assert LongestPalindrome(d, |d|) == LongestPalindrome(d, |d| - 1);
    }
  }

  /** The verdict once the search has found window `w`. */
  lemma PartialCase(plate: string, w: Window)
    requires var d := ExtractDigits(plate); |d| >= 3 && !IsPalindrome(d) && LongestPalindrome(d, |d|) == Some(w)
    ensures var d := ExtractDigits(plate);
      && w.start + w.length <= |d|
      && PalindromeNumber(plate) == Verdict((w.length - 2) * 8, PartialPalindrome(d[w.start..w.start + w.length]))
  {
  }

  /** The verdicts given before any search. */
  lemma ShortOrPerfectCase(plate: string)
    ensures var d := ExtractDigits(plate);
      && (|d| < 3 ==> PalindromeNumber(plate) == Verdict(0, InsufficientDigits))
      && (|d| >= 3 && d == Reverse(d) ==> PalindromeNumber(plate) == Verdict(35, PerfectPalindrome(d)))
  {
  }

  /** The verdict once the search has found nothing. */
  lemma NoneCase(plate: string)
    requires var d := ExtractDigits(plate); |d| >= 3 && !IsPalindrome(d) && LongestPalindrome(d, |d|) == None
    ensures PalindromeNumber(plate) == Verdict(0, NoPalindrome)
  {
  }

  /** A palindromic window, taken out of the digits, is a palindrome. */
  lemma PalindromeWindow(d: string, n: nat, i: nat)
    requires PalindromeAt(d, n, i)
    ensures i + n <= |d| && IsPalindrome(d[i..i + n])
  {
  }

  /** A palindromic window of length `n` ends the search. */
  lemma SearchHit(d: string, n: nat, i: nat)
    requires 3 <= n && FirstWindow(d, n, 0, IsPalindrome) == Some(i)
    ensures LongestPalindrome(d, n) == Some(Window(i, n))
  {
  }

  /** Having found no palindromic window of length `n`, the search goes on with `n - 1`. */
  lemma SearchMiss(d: string, n: nat)
    requires 3 <= n && FirstWindow(d, n, 0, IsPalindrome) == None
    ensures LongestPalindrome(d, n) == LongestPalindrome(d, n - 1)
  {
  }

  /** Rule9's inner loop: the first palindromic window of `length` digits, if any. */
  method FindPalindrome(digits: string, length: nat) returns (found: Option<nat>)
    requires 3 <= length <= |digits|
    ensures found == FirstWindow(digits, length, 0, IsPalindrome)
  {
    var i := 0;
    while i < |digits| - length + 1
      invariant 0 <= i <= |digits| - length + 1
      invariant FirstWindow(digits, length, 0, IsPalindrome) == FirstWindow(digits, length, i, IsPalindrome)
    {
      var substring := digits[i..i + length];
      if substring == Reverse(substring) && length >= 3 {
        FirstWindowHit(digits, length, i, IsPalindrome);
        return Some(i);
      }
      FirstWindowStep(digits, length, i, IsPalindrome);
      i := i + 1;
    }
    return None;
  }

  /** Rule9's search (`Rule9_PalindromeNumber.calculate_score`): lengths from all the digits down to 3. */
  method ScorePalindromeNumber(plate: string) returns (v: Verdict)
    ensures v == PalindromeNumber(plate)
  {
    var digits := ExtractDigits(plate);
    ShortOrPerfectCase(plate);
    if |digits| < 3 {
      return Verdict(0, InsufficientDigits);
    }
    if digits == Reverse(digits) {
      return Verdict(35, PerfectPalindrome(digits));
    }
    var length := |digits|;
    while length > 2
      invariant 2 <= length <= |digits|
      invariant LongestPalindrome(digits, |digits|) == LongestPalindrome(digits, length)
    {
      var found := FindPalindrome(digits, length);
      if found.Some? {
        var i := found.value;
        SearchHit(digits, length, i);
        PartialCase(plate, Window(i, length));
        return Verdict((length - 2) * 8, PartialPalindrome(digits[i..i + length]));
      }
      SearchMiss(digits, length);
      length := length - 1;
    }
    NoneCase(plate);
    return Verdict(0, NoPalindrome);
  }

  /** The digits 12343215 are no palindrome, but their first seven, 1234321, are. */
  lemma PalindromeExamples()
    ensures !IsPalindrome("12343215") && "12343215"[0..8] == "12343215"
    ensures "12343215"[0..7] == "1234321" && IsPalindrome("1234321")
  {
    var whole, run := "12343215", "1234321";
    PalindromeMirror(whole);
    assert whole[0] != whole[7];
    PalindromeMirror(run);
    assert forall i :: 0 <= i < 7 ==> run[i] == run[6 - i];
  }

  /** The digits 12321 are a palindrome. */
  lemma ShortPalindromeExample()
    ensures IsPalindrome("12321")
  {
    var short := "12321";
    PalindromeMirror(short);
    assert forall i :: 0 <= i < 5 ==> short[i] == short[4 - i];
  }

  /** Digits 12343215 are no palindrome; their longest palindromic run is 1234321, worth 40. */
  lemma PalindromeNumberOf12343215(plate: string)
    requires ExtractDigits(plate) == "12343215"
    ensures PalindromeNumber(plate) == Verdict(40, PartialPalindrome("1234321"))
  {
    PalindromeExamples();
    var d := ExtractDigits(plate);
    assert FirstWindow(d, 8, 0, IsPalindrome) == None;
    assert FirstWindow(d, 7, 0, IsPalindrome) == Some(0);
    assert LongestPalindrome(d, 7) == Some(Window(0, 7));
    assert LongestPalindrome(d, 8) == Some(Window(0, 7));
    PartialCase(plate, Window(0, 7));
  }

  /** A partial palindrome can outscore a perfect one: digits 12343215 earn 40,
      more than the 35 that the palindromic digits 12321 earn. */
  lemma PartialPalindromeCanOutscorePerfect(partial: string, perfect: string)
    requires ExtractDigits(partial) == "12343215" && ExtractDigits(perfect) == "12321"
    ensures PalindromeNumber(perfect) == Verdict(35, PerfectPalindrome("12321"))
    ensures PalindromeNumber(partial).raw > PalindromeNumber(perfect).raw
  {
    ShortPalindromeExample();
    PalindromeNumberOf12343215(partial);
  }

  // ---------------------------------------------------------------- Rule10

  /** A divisor Python accepts without raising `ZeroDivisionError`. */
  type NonZero = d: int | d != 0 witness 10

  /** `sum(int(d) for d in digits)`. */
  function DigitSum(d: string): (n: nat)
    requires forall i :: 0 <= i < |d| ==> IsDigit(d[i])
    ensures n <= 9 * |d|
    ensures n == 0 <==> forall i :: 0 <= i < |d| ==> d[i] == '0'
  {
    if d == [] then 0 else DigitValue(d[0]) + DigitSum(d[1..])
  }

  /** `n` is a whole multiple of `divisor`. */
  ghost predicate Divides(divisor: NonZero, n: int) {
    exists k: int :: n == k * divisor
  }

  function Abs(x: int): nat { if x >= 0 then x else -x }

  lemma MulAtLeast(a: nat, s: nat)
    ensures s >= 1 ==> a * s >= a
  {
  }

  lemma AbsMul(a: int, t: int)
    ensures Abs(a * t) == Abs(a) * Abs(t)
  {
    if a >= 0 && t >= 0 {
    } else if a >= 0 {
      assert a * t == -(a * -t);
    } else if t >= 0 {
      assert a * t == -(-a * t);
    } else {
      assert a * t == -a * -t;
    }
  }

  /** A multiple leaves no remainder: the remainder is smaller than the divisor. */
  lemma MultipleHasNoRemainder(divisor: NonZero, n: int, k: int)
    requires n == k * divisor
    ensures n % divisor == 0
  {
    var q, r := n / divisor, n % divisor;
    assert divisor * (k - q) == r;
    AbsMul(divisor, k - q);
    MulAtLeast(Abs(divisor), Abs(k - q));
  }

  /** The source's test `n % divisor == 0` is divisibility. */
  lemma DividesIffNoRemainder(divisor: NonZero, n: int)
    ensures Divides(divisor, n) <==> n % divisor == 0
  {
    if n % divisor == 0 {
      assert n == (n / divisor) * divisor;
    }
    if Divides(divisor, n) {
      var k :| n == k * divisor;
      MultipleHasNoRemainder(divisor, n, k);
    }
  }

  /**
   * Rule10: 15 when the digit sum is a multiple of the divisor, else 0.
   * Python's floored `%` and Dafny's Euclidean `%` differ for negative operands
   * but are zero on the same inputs, so the test is the same divisibility.
   */
  function SumDivisibleBy(divisor: NonZero, plate: string): (v: Verdict)
    ensures var d := ExtractDigits(plate);
      && (d == [] ==> v == Verdict(0, NoDigits))
      && (d != [] ==>
            && (v.raw == 15 <==> Divides(divisor, DigitSum(d)))
            && (v.raw == 15 || v.raw == 0)
            && v.reason == if v.raw == 15 then SumDivisible(DigitSum(d)) else SumOnly(DigitSum(d)))
  {
    var d := ExtractDigits(plate);
    if d == [] then Verdict(0, NoDigits)
    else
      var digitSum := DigitSum(d);
      DividesIffNoRemainder(divisor, digitSum);
      if digitSum % divisor == 0 then Verdict(15, SumDivisible(digitSum))
      else Verdict(0, SumOnly(digitSum))
  }

  // ---------------------------------------------------------------- Rule11

  /** Rule11, as a function of the plate: 18 per digit beyond two in the longest falling run. */
  function DecreasingSequence(plate: string): Verdict {
    var d := ExtractDigits(plate);
    if |d| < 2 then Verdict(0, InsufficientDigits)
    else
      var n := LongestRun(Fall, d);
      if n >= 3 then Verdict((n - 2) * 18, DecreasingRun(n)) else Verdict(0, NoDecreasing)
  }

  /** Rule11 scores the longest run of digits that each fall short of the previous by one. */
  lemma DecreasingSequenceRewardsLongestFall(plate: string)
    ensures var d := ExtractDigits(plate); var v := DecreasingSequence(plate);
      && (|d| < 2 ==> v == Verdict(0, InsufficientDigits))
      && (|d| >= 2 ==>
            exists n: nat :: (Longest(Fall, d, n) &&
              v == if n >= 3 then Verdict((n - 2) * 18, DecreasingRun(n)) else Verdict(0, NoDecreasing)))
  {
    var d := ExtractDigits(plate);
    if |d| >= 2 {
      LongestRunIsLongest(Fall, d);
      assert Longest(Fall, d, LongestRun(Fall, d));
    }
  }

  /** Rule11's loop (`Rule11_DecreasingSequence.calculate_score`). */
  method ScoreDecreasingSequence(plate: string) returns (v: Verdict)
    ensures v == DecreasingSequence(plate)
  {
    var digits := ExtractDigits(plate);
    if |digits| < 2 {
      return Verdict(0, InsufficientDigits);
    }
    var maxSequence, currentSequence := 1, 1;
    for i := 1 to |digits|
      invariant currentSequence == RunEndingAt(Fall, digits, i - 1)
      invariant maxSequence == LongestRunUpTo(Fall, digits, i)
    {
      if DigitValue(digits[i]) == DigitValue(digits[i - 1]) - 1 {
        currentSequence := currentSequence + 1;
        maxSequence := Max(maxSequence, currentSequence);
      } else {
        currentSequence := 1;
      }
    }
    if maxSequence >= 3 {
      v := Verdict((maxSequence - 2) * 18, DecreasingRun(maxSequence));
    } else {
      v := Verdict(0, NoDecreasing);
    }
  }

  // ---------------------------------------------------------------- Rule12

  /** Four digits shaped AABB: two pairs of different digits. */
  predicate IsAABB(w: string) {
    |w| == 4 && w[0] == w[1] && w[2] == w[3] && w[0] != w[2]
  }

  /** Four digits shaped ABAB: two different digits alternating. */
  predicate IsABAB(w: string) {
    |w| == 4 && w[0] == w[2] && w[1] == w[3] && w[0] != w[1]
  }

  /** Three digits counting up by one (123, 234, …). */
  predicate IsABC(w: string) {
    |w| == 3 && DigitValue(w[1]) == DigitValue(w[0]) + 1 && DigitValue(w[2]) == DigitValue(w[1]) + 1
  }

  /** Rule12, as a function of the plate. */
  function SpecificPattern(plate: string): Verdict {
    var d := ExtractDigits(plate);
    if |d| < 4 then Verdict(0, InsufficientDigits)
    else match FirstWindow(d, 4, 0, IsAABB)
      case Some(i) => Verdict(25, AABBFound([d[i], d[i], d[i + 2], d[i + 3]]))
      case None =>
        match FirstWindow(d, 4, 0, IsABAB)
        case Some(i) => Verdict(28, ABABFound([d[i], d[i + 1], d[i], d[i + 1]]))
        case None =>
          match FirstWindow(d, 3, 0, IsABC)
          case Some(i) => Verdict(20, ABCFound([d[i], d[i + 1], d[i + 2]]))
          case None => Verdict(0, NoPattern)
  }

  /**
   * Rule12 scores 25 for an AABB group; failing that 28 for an ABAB group;
   * failing that 20 for an ABC group; otherwise 0. Plates with fewer than four
   * digits score 0, an ABC group among three digits included.
   */
  lemma SpecificPatternPriority(plate: string)
    ensures var d, v := ExtractDigits(plate), SpecificPattern(plate);
      var aabb := exists i: nat :: AcceptsAt(d, 4, i, IsAABB);
      var abab := exists i: nat :: AcceptsAt(d, 4, i, IsABAB);
      var abc := exists i: nat :: AcceptsAt(d, 3, i, IsABC);
      && (|d| < 4 ==> v == Verdict(0, InsufficientDigits))
      && (|d| >= 4 ==>
            && (v.raw == 25 <==> aabb)
            && (v.raw == 28 <==> !aabb && abab)
            && (v.raw == 20 <==> !aabb && !abab && abc)
            && (v.raw == 0 <==> !aabb && !abab && !abc))
  {
    var d := ExtractDigits(plate);
    if |d| >= 4 {
      FirstWindowSound(d, 4, 0, IsAABB);
      FirstWindowSound(d, 4, 0, IsABAB);
      FirstWindowSound(d, 3, 0, IsABC);
    }
  }

  /** The source spells an AABB group out as `digits[i]` twice, then `digits[i+2]`, `digits[i+3]`: the group itself. */
  lemma AABBText(d: string, i: nat)
    requires AcceptsAt(d, 4, i, IsAABB)
    ensures [d[i], d[i], d[i + 2], d[i + 3]] == d[i..i + 4]
  {
    assert IsAABB(d[i..i + 4]);
  }

  /** The source spells an ABAB group out as `digits[i]`, `digits[i+1]` twice over: the group itself. */
  lemma ABABText(d: string, i: nat)
    requires AcceptsAt(d, 4, i, IsABAB)
    ensures [d[i], d[i + 1], d[i], d[i + 1]] == d[i..i + 4]
  {
    assert IsABAB(d[i..i + 4]);
  }

  lemma ABCText(d: string, i: nat)
    requires i + 3 <= |d|
    ensures [d[i], d[i + 1], d[i + 2]] == d[i..i + 3]
  {
  }

  /** The reported pattern is the first matching group of digits, as it stands in the plate. */
  lemma SpecificPatternReportsFirstMatch(plate: string)
    ensures var d, v := ExtractDigits(plate), SpecificPattern(plate);
      && (v.reason.AABBFound? ==> exists i: nat :: FirstWindow(d, 4, 0, IsAABB) == Some(i) && v.reason.pattern == d[i..i + 4])
      && (v.reason.ABABFound? ==> exists i: nat :: FirstWindow(d, 4, 0, IsABAB) == Some(i) && v.reason.pattern == d[i..i + 4])
      && (v.reason.ABCFound? ==> exists i: nat :: FirstWindow(d, 3, 0, IsABC) == Some(i) && v.reason.pattern == d[i..i + 3])
  {
    var d := ExtractDigits(plate);
    if |d| >= 4 {
      match FirstWindow(d, 4, 0, IsAABB)
      case Some(i) =>
        FirstWindowAccepts(d, 4, 0, IsAABB);
        AABBText(d, i);
      case None =>
        match FirstWindow(d, 4, 0, IsABAB)
        case Some(i) =>
          FirstWindowAccepts(d, 4, 0, IsABAB);
          ABABText(d, i);
        case None =>
          match FirstWindow(d, 3, 0, IsABC)
          case Some(i) => ABCText(d, i);
          case None =>
    }
  }

  /** The AABB test of the first scan, on the window at `i`. */
  lemma AABBAt(d: string, i: nat)
    requires i + 4 <= |d|
    ensures IsAABB(d[i..i + 4]) <==> d[i] == d[i + 1] && d[i + 2] == d[i + 3] && d[i] != d[i + 2]
  {
  }

  /** The ABAB test of the second scan, on the window at `i`. */
  lemma ABABAt(d: string, i: nat)
    requires i + 4 <= |d|
    ensures IsABAB(d[i..i + 4]) <==> d[i] == d[i + 2] && d[i + 1] == d[i + 3] && d[i] != d[i + 1]
  {
  }

  /** The ABC test of the third scan, on the window at `i`. */
  lemma ABCAt(d: string, i: nat)
    requires i + 3 <= |d|
    ensures IsABC(d[i..i + 3]) <==>
      DigitValue(d[i + 1]) == DigitValue(d[i]) + 1 && DigitValue(d[i + 2]) == DigitValue(d[i + 1]) + 1
  {
  }

  /** Rule12's verdict when the first scan finds an AABB group at `i`. */
  lemma AABBVerdict(plate: string, i: nat)
    requires var d := ExtractDigits(plate); |d| >= 4 && FirstWindow(d, 4, 0, IsAABB) == Some(i)
    ensures var d := ExtractDigits(plate);
      i + 4 <= |d| && SpecificPattern(plate) == Verdict(25, AABBFound([d[i], d[i], d[i + 2], d[i + 3]]))
  {
  }

  /** Rule12's verdict when only the second scan finds a group, an ABAB one at `i`. */
  lemma ABABVerdict(plate: string, i: nat)
    requires var d := ExtractDigits(plate);
      |d| >= 4 && FirstWindow(d, 4, 0, IsAABB) == None && FirstWindow(d, 4, 0, IsABAB) == Some(i)
    ensures var d := ExtractDigits(plate);
      i + 4 <= |d| && SpecificPattern(plate) == Verdict(28, ABABFound([d[i], d[i + 1], d[i], d[i + 1]]))
  {
  }

  /** Rule12's verdict after the first two scans fail, by the outcome of the third. */
  lemma ABCVerdict(plate: string)
    requires var d := ExtractDigits(plate);
      |d| >= 4 && FirstWindow(d, 4, 0, IsAABB) == None && FirstWindow(d, 4, 0, IsABAB) == None
    ensures var d := ExtractDigits(plate);
      match FirstWindow(d, 3, 0, IsABC)
      case Some(i) => i + 3 <= |d| && SpecificPattern(plate) == Verdict(20, ABCFound([d[i], d[i + 1], d[i + 2]]))
      case None => SpecificPattern(plate) == Verdict(0, NoPattern)
  {
  }

  /** Rule12's first loop: the index of the first AABB group, if any. */
  method FindAABB(digits: string) returns (found: Option<nat>)
    ensures found == FirstWindow(digits, 4, 0, IsAABB)
  {
    if |digits| < 4 {
      return None;
    }
    for i := 0 to |digits| - 3
      invariant FirstWindow(digits, 4, 0, IsAABB) == FirstWindow(digits, 4, i, IsAABB)
    {
      AABBAt(digits, i);
      if digits[i] == digits[i + 1] && digits[i + 2] == digits[i + 3] && digits[i] != digits[i + 2] {
        FirstWindowHit(digits, 4, i, IsAABB);
        return Some(i);
      }
      FirstWindowStep(digits, 4, i, IsAABB);
    }
    return None;
  }

  /** Rule12's second loop: the index of the first ABAB group, if any. */
  method FindABAB(digits: string) returns (found: Option<nat>)
    ensures found == FirstWindow(digits, 4, 0, IsABAB)
  {
    if |digits| < 4 {
      return None;
    }
    for i := 0 to |digits| - 3
      invariant FirstWindow(digits, 4, 0, IsABAB) == FirstWindow(digits, 4, i, IsABAB)
    {
      ABABAt(digits, i);
      if digits[i] == digits[i + 2] && digits[i + 1] == digits[i + 3] && digits[i] != digits[i + 1] {
        FirstWindowHit(digits, 4, i, IsABAB);
        return Some(i);
      }
      FirstWindowStep(digits, 4, i, IsABAB);
    }
    return None;
  }

  /** Rule12's third loop: the index of the first ABC group, if any. */
  method FindABC(digits: string) returns (found: Option<nat>)
    ensures found == FirstWindow(digits, 3, 0, IsABC)
  {
    if |digits| < 3 {
      return None;
    }
    for i := 0 to |digits| - 2
      invariant FirstWindow(digits, 3, 0, IsABC) == FirstWindow(digits, 3, i, IsABC)
    {
      ABCAt(digits, i);
      if DigitValue(digits[i + 1]) == DigitValue(digits[i]) + 1 && DigitValue(digits[i + 2]) == DigitValue(digits[i + 1]) + 1 {
        FirstWindowHit(digits, 3, i, IsABC);
        return Some(i);
      }
      FirstWindowStep(digits, 3, i, IsABC);
    }
    return None;
  }

  /**
   * `Rule12_SpecificPattern.calculate_score`: the three scans in turn, each
   * run only when the ones before it found nothing, and the verdict of the
   * first that finds a group.
   */
  method ScoreSpecificPattern(plate: string) returns (v: Verdict)
    ensures v == SpecificPattern(plate)
  {
    var digits := ExtractDigits(plate);
    if |digits| < 4 {
      return Verdict(0, InsufficientDigits);
    }
    var aabb := FindAABB(digits);
    if aabb.Some? {
      var i := aabb.value;
      AABBVerdict(plate, i);
      return Verdict(25, AABBFound([digits[i], digits[i], digits[i + 2], digits[i + 3]]));
    }
    var abab := FindABAB(digits);
    if abab.Some? {
      var i := abab.value;
      ABABVerdict(plate, i);
      return Verdict(28, ABABFound([digits[i], digits[i + 1], digits[i], digits[i + 1]]));
    }
    var abc := FindABC(digits);
    ABCVerdict(plate);
    if abc.Some? {
      var i := abc.value;
      return Verdict(20, ABCFound([digits[i], digits[i + 1], digits[i + 2]]));
    }
    return Verdict(0, NoPattern);
  }

  lemma FirstGroupOf112233()
    ensures "112233"[0..4] == "1122" && IsAABB("1122")
    ensures ["112233"[0], "112233"[0], "112233"[2], "112233"[3]] == "1122"
  {
  }

  /** Only the first pattern found counts: digits 112233 hold two AABB groups and score 25 once. */
  lemma SpecificPatternScoresFirstOnly(plate: string)
    requires ExtractDigits(plate) == "112233"
    ensures SpecificPattern(plate) == Verdict(25, AABBFound("1122"))
  {
    FirstGroupOf112233();
    assert FirstWindow(ExtractDigits(plate), 4, 0, IsAABB) == Some(0);
  }

  /**
   * The length check comes before every scan, so three digits counting up
   * (123) score nothing, although the ABC scan itself accepts three digits.
   */
  lemma ThreeDigitRunScoresNothing(plate: string)
    requires ExtractDigits(plate) == "123"
    ensures IsABC(ExtractDigits(plate))
    ensures SpecificPattern(plate) == Verdict(0, InsufficientDigits)
  {
    var d := ExtractDigits(plate);
    assert DigitValue(d[0]) == 1 && DigitValue(d[1]) == 2 && DigitValue(d[2]) == 3;
  }
}
