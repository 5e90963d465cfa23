/// What every scoring rule shares (`ScoringRule`, `ScoreResult`): the result
/// record, the explanation each rule attaches to it, and the extraction of a
/// plate's digit and letter subsequences.
///
/// A rule's explanation is a Chinese f-string in the source. Here it is a
/// `Reason` value that carries exactly the values the f-string interpolates,
/// apart from the score itself.
module RuleBase {
  import opened Seqs
  import opened Chars

  datatype Reason =
    | NoDigits                                 // "无数字"
    | InsufficientDigits                       // "数字不足"
    | DigitAbsent(digit: char)                 // "无数字4 (+10)", "无数字7 (+5)"
    | DigitPenalty(digit: char, count: nat)    // "含有{n}个数字4 (-{penalty})"
    | RepeatRun(length: nat, repeated: string) // "连续{max_repeat}个{repeat_digit} (+{score})"
    | NoRepeat                                 // "无连续重复"
    | LuckyCounts(sixes: nat, eights: nat)     // "含有{n}个6, {m}个8 (+{score})"
    | NoLucky                                  // "无6或8"
    | IncreasingRun(length: nat)               // "{n}位递增序列 (+{score})"
    | NoIncreasing                             // "无明显递增序列"
    | AllEven(length: nat)                     // "全部{n}位为偶数 (+25)"
    | AllOdd(length: nat)                      // "全部{n}位为奇数 (+25)"
    | MixedParity                              // "奇偶混合"
    | AllPrime(length: nat)                    // "全部{n}位为质数 (+30)"
    | MostlyPrime(primes: nat, length: nat)    // "{p}/{n}位为质数 (+10)"
    | FewPrimes(primes: nat)                   // "仅{p}位质数"
    | SpecialFound(letters: string)            // "含有字母M, J (+{score})"
    | NoSpecial                                // "无特殊字母"
    | PerfectPalindrome(digits: string)        // "完美回文 {digits} (+35)"
    | PartialPalindrome(window: string)        // "部分回文 {substring} (+{score})"
    | NoPalindrome                             // "无回文"
    | SumDivisible(sum: nat)                   // "数字和={sum} (+15)"
    | SumOnly(sum: nat)                        // "数字和={sum}"
    | DecreasingRun(length: nat)               // "{n}位递减序列 (+{score})"
    | NoDecreasing                             // "无递减序列"
    | AABBFound(pattern: string)               // "AABB模式 {pattern} (+25)"
    | ABABFound(pattern: string)               // "ABAB模式 {pattern} (+28)"
    | ABCFound(pattern: string)                // "ABC模式 {pattern} (+20)"
    | NoPattern                                // "无特殊模式"

  /** A rule's integer score before its weight is applied, with its explanation. */
  datatype Verdict = Verdict(raw: int, reason: Reason)

  /** `ScoreResult(rule_name, score, reason)`. */
  datatype ScoreResult = ScoreResult(ruleName: string, score: real, reason: Reason)

  /** `ScoringRule.extract_digits`: the digit characters of the plate, in order. */
  function ExtractDigits(plate: string): (d: string)
    ensures |d| <= |plate|
    ensures forall i :: 0 <= i < |d| ==> IsDigit(d[i])
    ensures forall c :: multiset(d)[c] == if IsDigit(c) then multiset(plate)[c] else 0
  {
    FilterMultiset(plate, IsDigit);
    Filter(plate, IsDigit)
  }

  /** `ScoringRule.extract_letters`: the letter characters of the plate, in order. */
  function ExtractLetters(plate: string): (l: string)
    ensures |l| <= |plate|
    ensures forall i :: 0 <= i < |l| ==> IsLetter(l[i])
    ensures forall c :: multiset(l)[c] == if IsLetter(c) then multiset(plate)[c] else 0
  {
    FilterMultiset(plate, IsLetter);
    Filter(plate, IsLetter)
  }

  /** Extraction works piecewise, so the digits keep their relative order. */
  lemma ExtractAppend(a: string, b: string)
    ensures ExtractDigits(a + b) == ExtractDigits(a) + ExtractDigits(b)
    ensures ExtractLetters(a + b) == ExtractLetters(a) + ExtractLetters(b)
  {
    FilterAppend(a, b, IsDigit);
    FilterAppend(a, b, IsLetter);
  }

  /** Extraction keeps a digit or a letter and drops anything else. */
  lemma ExtractOne(c: char)
    ensures ExtractDigits([c]) == if IsDigit(c) then [c] else []
    ensures ExtractLetters([c]) == if IsLetter(c) then [c] else []
  {
    assert [c][1..] == [];
  }

  /** Extracting twice changes nothing. */
  lemma ExtractIdempotent(plate: string)
    ensures ExtractDigits(ExtractDigits(plate)) == ExtractDigits(plate)
    ensures ExtractLetters(ExtractLetters(plate)) == ExtractLetters(plate)
  {
    FilterKeepsAll(ExtractDigits(plate), IsDigit);
    FilterKeepsAll(ExtractLetters(plate), IsLetter);
  }
}
