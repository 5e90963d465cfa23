/// The seven default rules of plate_scorer.py (`Rule1_NoFour` …
/// `Rule7_SpecialLetters`). Each computes a `Verdict`: the rule's integer
/// score before the weight is applied, and its explanation.
///
/// Rules written as expressions in the source are functions here. The two
/// whose source is a counting loop (Rule2, Rule4) have a method with that
/// loop, proved equal to a function, and a lemma saying what the function
/// computes in terms of `Runs.IsRun`.
module DefaultRules {
  import opened Seqs
  import opened Chars
  import opened RuleBase
  import opened Runs

  // ---------------------------------------------------------------- Rule1

  /** Rule1: a bonus of 10 without any digit 4, else a penalty of 5 per 4. */
  function NoFour(plate: string): (v: Verdict)
    ensures v.raw != 0
    ensures v.raw > 0 <==> '4' !in plate
    ensures '4' !in plate ==> v == Verdict(10, DigitAbsent('4'))
    ensures '4' in plate ==> v == Verdict(-5 * (multiset(plate)['4'] as int), DigitPenalty('4', multiset(plate)['4']))
  {
    var count4 := Count(ExtractDigits(plate), '4');
    if count4 == 0 then Verdict(10, DigitAbsent('4'))
    else Verdict(-(count4 * 5), DigitPenalty('4', count4))
  }

  // ---------------------------------------------------------------- Rule2

  /** Rule2, as a function of the plate: 15 per repeat in the longest run of equal digits. */
  function ConsecutiveRepeats(plate: string): Verdict {
    var d := ExtractDigits(plate);
    if d == [] then Verdict(0, NoDigits)
    else
      var n := LongestRun(Repeat, d);
      if n >= 2 then Verdict((n - 1) * 15, RepeatRun(n, [d[FirstLongestEnd(Repeat, d, |d|)]]))
      else Verdict(0, NoRepeat)
  }

  /** Rule2 scores the leftmost longest run of equal digits, and reports that run's digit. */
  lemma ConsecutiveRepeatsRewardsLongestRun(plate: string)
    ensures var d := ExtractDigits(plate); var v := ConsecutiveRepeats(plate);
      && (d == [] ==> v == Verdict(0, NoDigits))
      && (d != [] ==>
            exists s: nat, n: nat :: (LeftmostLongest(Repeat, d, s, n) &&
              v == if n >= 2 then Verdict((n - 1) * 15, RepeatRun(n, [d[s]])) else Verdict(0, NoRepeat)))
  {
    var d := ExtractDigits(plate);
    if d != [] {
      var s, n := LongestRunStart(Repeat, d), LongestRun(Repeat, d);
      LongestRunIsLeftmostLongest(Repeat, d);
      LongestRunUpToBounds(Repeat, d, |d|);
      RepeatRunUniform(d, s, n);
      assert LeftmostLongest(Repeat, d, s, n);
    }
  }

  /** Rule2's loop (`Rule2_ConsecutiveRepeats.calculate_score`). */
  method ScoreConsecutiveRepeats(plate: string) returns (v: Verdict)
    ensures v == ConsecutiveRepeats(plate)
  {
    var digits := ExtractDigits(plate);
    if |digits| == 0 {
      return Verdict(0, NoDigits);
    }
    var maxRepeat, currentRepeat := 1, 1;
    var repeatDigit := "";
    for i := 1 to |digits|
      invariant currentRepeat == RunEndingAt(Repeat, digits, i - 1)
      invariant maxRepeat == LongestRunUpTo(Repeat, digits, i)
      invariant repeatDigit == if maxRepeat >= 2 then [digits[FirstLongestEnd(Repeat, digits, i)]] else ""
    {
      if digits[i] == digits[i - 1] {
        currentRepeat := currentRepeat + 1;
        if currentRepeat > maxRepeat {
          maxRepeat := currentRepeat;
          repeatDigit := [digits[i]];
        }
      } else {
        currentRepeat := 1;
      }
    }
    if maxRepeat >= 2 {
      v := Verdict((maxRepeat - 1) * 15, RepeatRun(maxRepeat, repeatDigit));
    } else {
      v := Verdict(0, NoRepeat);
    }
  }

  // ---------------------------------------------------------------- Rule3

  /** Rule3: 8 points for every 6 and every 8. */
  function Lucky68(plate: string): (v: Verdict)
    ensures var sixes, eights := multiset(plate)['6'], multiset(plate)['8'];
      && v.raw == 8 * (sixes + eights)
      && (v.raw == 0 <==> '6' !in plate && '8' !in plate)
      && v.reason == if v.raw == 0 then NoLucky else LuckyCounts(sixes, eights)
  {
    var digits := ExtractDigits(plate);
    var count6, count8 := Count(digits, '6'), Count(digits, '8');
    var total := count6 + count8;
    if total == 0 then Verdict(0, NoLucky) else Verdict(total * 8, LuckyCounts(count6, count8))
  }

  // ---------------------------------------------------------------- Rule4

  /** Rule4, as a function of the plate: 20 per digit beyond two in the longest rising run. */
  function IncreasingSequence(plate: string): Verdict {
    var d := ExtractDigits(plate);
    if |d| < 2 then Verdict(0, InsufficientDigits)
    else
      var n := LongestRun(Rise, d);
      if n >= 3 then Verdict((n - 2) * 20, IncreasingRun(n)) else Verdict(0, NoIncreasing)
  }

  /** Rule4 scores the longest run of digits that each exceed the previous by one. */
  lemma IncreasingSequenceRewardsLongestRise(plate: string)
    ensures var d := ExtractDigits(plate); var v := IncreasingSequence(plate);
      && (|d| < 2 ==> v == Verdict(0, InsufficientDigits))
      && (|d| >= 2 ==>
            exists n: nat :: (Longest(Rise, d, n) &&
              v == if n >= 3 then Verdict((n - 2) * 20, IncreasingRun(n)) else Verdict(0, NoIncreasing)))
  {
    var d := ExtractDigits(plate);
    if |d| >= 2 {
      LongestRunIsLongest(Rise, d);
      assert Longest(Rise, d, LongestRun(Rise, d));
    }
  }

  /** Rule4's loop (`Rule4_IncreasingSequence.calculate_score`). */
  method ScoreIncreasingSequence(plate: string) returns (v: Verdict)
    ensures v == IncreasingSequence(plate)
  {
    var digits := ExtractDigits(plate);
    if |digits| < 2 {
      return Verdict(0, InsufficientDigits);
    }
    var maxSequence, currentSequence := 1, 1;
    for i := 1 to |digits|
      invariant currentSequence == RunEndingAt(Rise, digits, i - 1)
      invariant maxSequence == LongestRunUpTo(Rise, digits, i)
    {
      if DigitValue(digits[i]) == DigitValue(digits[i - 1]) + 1 {
        currentSequence := currentSequence + 1;
        maxSequence := Max(maxSequence, currentSequence);
      } else {
        currentSequence := 1;
      }
    }
    if maxSequence >= 3 {
      v := Verdict((maxSequence - 2) * 20, IncreasingRun(maxSequence));
    } else {
      v := Verdict(0, NoIncreasing);
    }
  }

  // ---------------------------------------------------------------- Rule5

  predicate IsEven(c: char) { DigitValue(c) % 2 == 0 }
  predicate IsOdd(c: char) { DigitValue(c) % 2 == 1 }

  /** Any two digits of `d` have the same parity. */
  ghost predicate SameParity(d: string) {
    forall i, j :: 0 <= i < j < |d| ==> DigitValue(d[i]) % 2 == DigitValue(d[j]) % 2
  }

  /** Rule5: 25 when there are at least three digits and all share one parity. */
  function AllEvenOrOdd(plate: string): (v: Verdict)
    ensures var d := ExtractDigits(plate);
      && (v.raw == 25 <==> |d| >= 3 && SameParity(d))
      && (v.raw == 25 ==> v.reason.AllEven? || v.reason.AllOdd?)
      && (v.raw == 0 <==> !(|d| >= 3 && SameParity(d)))
      && (|d| < 3 ==> v.reason == InsufficientDigits)
      && (v.reason.AllEven? ==> forall i :: 0 <= i < |d| ==> IsEven(d[i]))
      && (v.reason.AllOdd? ==> forall i :: 0 <= i < |d| ==> IsOdd(d[i]))
  {
    var d := ExtractDigits(plate);
    if |d| < 3 then Verdict(0, InsufficientDigits)
    else if forall i :: 0 <= i < |d| ==> IsEven(d[i]) then Verdict(25, AllEven(|d|))
    else if forall i :: 0 <= i < |d| ==> IsOdd(d[i]) then Verdict(25, AllOdd(|d|))
    else
      assert !SameParity(d) by {
        var odd :| 0 <= odd < |d| && !IsEven(d[odd]);
        var even :| 0 <= even < |d| && !IsOdd(d[even]);
        if odd < even {
          assert DigitValue(d[odd]) % 2 != DigitValue(d[even]) % 2;
        } else {
          assert DigitValue(d[even]) % 2 != DigitValue(d[odd]) % 2;
        }
      }
      Verdict(0, MixedParity)
  }

  // ---------------------------------------------------------------- Rule6

  predicate IsPrimeDigit(c: char) { c == '2' || c == '3' || c == '5' || c == '7' }

  /** Number of prime digits in the plate, counted on the plate itself. */
  ghost function PrimeDigits(plate: string): nat {
    var m := multiset(plate);
    m['2'] + m['3'] + m['5'] + m['7']
  }

  lemma PrimeCountIsPrimeDigits(plate: string)
    ensures |Filter(ExtractDigits(plate), IsPrimeDigit)| == PrimeDigits(plate)
  {
    var d := ExtractDigits(plate);
    var primes := Filter(d, IsPrimeDigit);
    FilterMultiset(d, IsPrimeDigit);
    LengthByFourValues(primes, '2', '3', '5', '7');
    assert multiset(primes)['2'] == multiset(d)['2'] == multiset(plate)['2'];
    assert multiset(primes)['3'] == multiset(d)['3'] == multiset(plate)['3'];
    assert multiset(primes)['5'] == multiset(d)['5'] == multiset(plate)['5'];
    assert multiset(primes)['7'] == multiset(d)['7'] == multiset(plate)['7'];
  }

  /** Rule6: 30 when every digit is prime, 10 when at least 60% are, else 0 (three digits at least). */
  function AllPrimes(plate: string): (v: Verdict)
    ensures var d, p := ExtractDigits(plate), PrimeDigits(plate);
      && (|d| < 3 ==> v == Verdict(0, InsufficientDigits))
      && (|d| >= 3 ==>
            && (v.raw == 30 <==> p == |d|)
            && (v.raw == 10 <==> p < |d| && 5 * p >= 3 * |d|)
            && (v.raw == 0 <==> 5 * p < 3 * |d|)
            && (v.raw == 30 ==> v.reason == AllPrime(|d|))
            && (v.raw == 10 ==> v.reason == MostlyPrime(p, |d|))
            && (v.raw == 0 ==> v.reason == FewPrimes(p)))
  {
    var d := ExtractDigits(plate);
    if |d| < 3 then Verdict(0, InsufficientDigits)
    else
      var primeCount := |Filter(d, IsPrimeDigit)|;
      PrimeCountIsPrimeDigits(plate);
      FilterKeepsLength(d, IsPrimeDigit);
      if forall i :: 0 <= i < |d| ==> IsPrimeDigit(d[i]) then Verdict(30, AllPrime(|d|))
      else if 5 * primeCount >= 3 * |d| then Verdict(10, MostlyPrime(primeCount, |d|))
      else Verdict(0, FewPrimes(primeCount))
  }

  // ---------------------------------------------------------------- Rule7

  predicate IsSpecialLetter(c: char) { c == 'M' || c == 'J' || c == 'T' || c == 'Q' }

  /** Rule7: 12 points for every M, J, T or Q, in either case; the reason lists them in order. */
  function SpecialLetters(plate: string): (v: Verdict)
    ensures var m := multiset(Upper(plate));
      v.raw == 12 * (m['M'] + m['J'] + m['T'] + m['Q'])
    ensures v.raw == 0 ==> v.reason == NoSpecial
    ensures v.raw != 0 ==> v.reason == SpecialFound(Filter(Upper(plate), IsSpecialLetter))
  {
    var found := Filter(Upper(ExtractLetters(plate)), IsSpecialLetter);
    SpecialFoundInPlate(plate);
    SpecialFoundCount(Upper(plate));
    if found == [] then Verdict(0, NoSpecial) else Verdict(|found| * 12, SpecialFound(found))
  }

  /** Upper-casing only the letters finds the same special letters as upper-casing the plate. */
  lemma SpecialFoundInPlate(plate: string)
    ensures Filter(Upper(ExtractLetters(plate)), IsSpecialLetter) == Filter(Upper(plate), IsSpecialLetter)
  {
    var up := Upper(plate);
    MapFilter(plate, ToUpper, IsLetter);
    assert Upper(ExtractLetters(plate)) == Filter(up, IsLetter);
    FilterFilter(up, IsLetter, IsSpecialLetter);
  }

  /** The special letters found are as many as the plate's M, J, T and Q together. */
  lemma SpecialFoundCount(s: string)
    ensures var m := multiset(s);
      |Filter(s, IsSpecialLetter)| == m['M'] + m['J'] + m['T'] + m['Q']
  {
    var found := Filter(s, IsSpecialLetter);
    FilterMultiset(s, IsSpecialLetter);
    LengthByFourValues(found, 'M', 'J', 'T', 'Q');
    assert multiset(found)['M'] == multiset(s)['M'];
    assert multiset(found)['J'] == multiset(s)['J'];
    assert multiset(found)['T'] == multiset(s)['T'];
    assert multiset(found)['Q'] == multiset(s)['Q'];
  }
}
