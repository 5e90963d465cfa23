# License plate scoring, modelled in Dafny

This project models the plate-scoring engine of the license_plate_sort
scripts, together with the plate-format validators and the ranking step around
it.

**Scoring.** A plate string is split into its digit and letter subsequences.
Twelve independent rules each turn the plate into a
`ScoreResult(rule_name, score, reason)`:

- Rule1–Rule7 are the defaults of `plate_scorer.py`.
- Rule8–Rule12 are the examples of `add_custom_rule.py`.

A `PlateScorer` keeps an ordered list of rules. It scores a plate with each rule in turn and adds up the weighted scores.

**Validators and ranking.** Around the engine sit:

- the validators `is_likely_plate`, `is_license_plate` and `is_valid_plate`;
- the regular-expression candidate search `parse_plates_with_pattern`;
- the ranking of `analyze_and_score_plates`: score every plate, sort by total from high to low, recommend the first five.

Modules, one file each:

| file | module | what it holds |
|---|---|---|
| `seqs.dfy` | `Seqs` | filtering comprehensions, `str.count`, `s[::-1]`, the first-window scan, `list(set(..))` |
| `chars.dfy` | `Chars` | ASCII character classes, `str.upper`, decimal formatting of the Rule10 divisor |
| `rule_base.dfy` | `RuleBase` | `ScoreResult`, the explanation values, `extract_digits` / `extract_letters` |
| `runs.dfy` | `Runs` | runs of equal, rising and falling neighbours (Rule2, Rule4, Rule11) |
| `default_rules.dfy` | `DefaultRules` | Rule1–Rule7 |
| `custom_rules.dfy` | `CustomRules` | Rule8–Rule12 |
| `scoring.dfy` | `Scoring` | rules with weights, the class `PlateScorer`, `create_default_scorer`, the filter of `format_score_report` |
| `custom_scorer.dfy` | `CustomScorer` | `create_custom_scorer` |
| `patterns.dfy` | `PlatePatterns` | the `re` fragment used: two class repetitions, full match and `findall` |
| `plate_formats.dfy` | `PlateFormats` | the three validators and `parse_plates_with_pattern` |
| `ranking.dfy` | `Ranking` | the scoring loop, the stable descending sort, the top five |

How the model is built:

- **Rule verdicts.** Each rule first computes a `Verdict`: its integer score before weighting, and its explanation. `Scoring.Apply` multiplies the integer by the rule's weight, a `real`.
- **Loop rules.** Rules whose source is a loop (Rule2, Rule4, Rule9, Rule11, Rule12) are methods with that loop. Each is proved equal to a function of the plate, and lemmas say what that function means in independent terms: runs of digits, palindromic windows, first matching windows.
- **`PlateScorer`.** It is a class whose `rules` field `add_rule` and `remove_rule` reassign. `score_plate` is its loop.
- **Explanations.** The explanation strings are a `Reason` datatype. It carries exactly the values each f-string interpolates: the repeated digit, the palindromic window, the pattern found.

Some behaviours differ from what a reader might expect from the rule names or from the code's own comments. The model follows the code:

- **Empty plate.** It does not score 0. Rule1 gives +10 for "no digit 4" (plate_scorer.py:64-65), and with the custom rules Rule8 adds +5 (`Scoring.EmptyPlateScoresTen`, `CustomScorer.EmptyPlateScoresFifteen`).
- **Whole palindrome.** A digit string that is a palindrome scores a flat 35, not an amount growing with its length. A partial palindrome can therefore outscore a perfect one: digits 12343215 earn 40 (`CustomRules.PartialPalindromeCanOutscorePerfect`).
- **Duplicate names.** `add_rule` appends without checking them (plate_scorer.py:248); no duplicate-name error exists.
- **Length limit.** The comment of `is_license_plate` says 5–7 characters; the code accepts up to 8 (license_plate_easyocr.py:77-79).

Rule12's ABC scan has its own `len(digits) >= 3` guard (add_custom_rule.py:146). It is unreachable for three digits, because the method already returned for fewer than four (line 120). So digits 123 score 0 (`CustomRules.ThreeDigitRunScoresNothing`). The model keeps this behaviour.

## Model

| member | source | states |
|---|---|---|
| RuleBase.ExtractDigits | plate_scorer.py:45-47 | the result holds only digits, at most as many characters as the plate, and every digit of the plate as often as it occurs there |
| RuleBase.ExtractLetters | plate_scorer.py:49-51 | the same for letters |
| RuleBase.ExtractAppend | plate_scorer.py:45-51 | extraction works piecewise over concatenation, so the characters keep their original order |
| RuleBase.ExtractOne | plate_scorer.py:45-51 | one character is kept exactly when it is a digit (resp. a letter) |
| RuleBase.ExtractIdempotent | plate_scorer.py:45-51 | extracting twice gives the same result as extracting once |
| Runs.LongestRunIsLeftmostLongest | plate_scorer.py:84-95 | the run the counting loop settles on is a run, no run is longer, and no run of that length starts further left |
| Runs.LongestRunIsLongest | add_custom_rule.py:93-101 | the loop's maximum is the length of a longest run |
| DefaultRules.NoFour | plate_scorer.py:60-69 | +10 exactly when there is no digit 4; otherwise −5 per 4; never 0 |
| DefaultRules.ConsecutiveRepeats | plate_scorer.py:78-102 | the Rule2 verdict: 0 without digits, (L−1)·15 for the leftmost longest run of L ≥ 2 equal digits reported with its digit, else 0; characterised by `ConsecutiveRepeatsRewardsLongestRun` and `Runs.LongestRunIsLeftmostLongest` |
| DefaultRules.ConsecutiveRepeatsRewardsLongestRun | plate_scorer.py:78-102 | empty digits give 0; otherwise the score is 15 per repeat of the leftmost longest run of equal digits, and the reported digit is that run's digit |
| DefaultRules.ScoreConsecutiveRepeats | plate_scorer.py:78-102 | the counting loop computes exactly the Rule2 verdict |
| DefaultRules.Lucky68 | plate_scorer.py:111-128 | 8 points per 6 and per 8 with their counts reported; 0 exactly when neither digit occurs |
| DefaultRules.IncreasingSequence | plate_scorer.py:137-158 | the Rule4 verdict: 0 with fewer than 2 digits, (L−2)·20 for a longest run of L ≥ 3 digits rising by one, else 0; characterised by `IncreasingSequenceRewardsLongestRise` |
| DefaultRules.IncreasingSequenceRewardsLongestRise | plate_scorer.py:137-158 | fewer than 2 digits give 0; otherwise 20 per digit beyond two in a longest run rising by one, and 0 when that run is shorter than 3 |
| DefaultRules.ScoreIncreasingSequence | plate_scorer.py:137-158 | the counting loop computes exactly the Rule4 verdict |
| DefaultRules.AllEvenOrOdd | plate_scorer.py:167-187 | 25 exactly when there are at least three digits and all share one parity, else 0; the reported parity holds for every digit |
| DefaultRules.PrimeCountIsPrimeDigits | plate_scorer.py:202-205 | the prime digits counted are the plate's 2s, 3s, 5s and 7s together |
| DefaultRules.AllPrimes | plate_scorer.py:196-217 | with three digits or more: 30 exactly when every digit is prime; 10 when some digit is not prime but at least 60 % are (5p ≥ 3n); 0 below 60 %; each case with its own reason carrying the prime count and the digit count |
| DefaultRules.SpecialLetters | plate_scorer.py:226-237 | 12 points per M, J, T or Q in either case, with multiplicity; the reason lists them in order of appearance |
| DefaultRules.SpecialFoundInPlate | plate_scorer.py:227-230 | upper-casing the extracted letters finds the same special letters as upper-casing the plate |
| CustomRules.AvoidNumber7 | add_custom_rule.py:17-26 | +5 exactly when there is no digit 7; otherwise −3 per 7; never 0 |
| CustomRules.LongestPalindrome | add_custom_rule.py:47-53 | the search order of Rule9: lengths from the longest down to 3, and for each length the windows from left to right; the first palindromic window wins; characterised by `LongestPalindromeSound` |
| CustomRules.PalindromeNumber | add_custom_rule.py:35-55 | the Rule9 verdict: 0 under 3 digits, 35 for a palindromic digit string, (L−2)·8 for the window `LongestPalindrome` finds, else 0; characterised by `PalindromeNumberMeaning` and `PalindromeNumberPartial` |
| CustomRules.LongestPalindromeSound | add_custom_rule.py:47-53 | the window found is a palindrome of length at least 3; no palindromic window starts further left at that length or is longer; none found means no palindromic window of length 3 or more |
| CustomRules.PalindromeNumberMeaning | add_custom_rule.py:35-55 | fewer than 3 digits give 0; a palindromic digit string scores a flat 35; "no palindrome" exactly when no window of 3 or more digits is palindromic |
| CustomRules.PalindromeNumberPartial | add_custom_rule.py:46-53 | a partial result reports a palindromic window of the digits, the leftmost of the longest ones, scoring 8 per digit beyond two |
| Seqs.FirstWindowSound | add_custom_rule.py:48-53 | the left-to-right window scan returns a window the test accepts with no accepted window before it, and nothing only when no window is accepted |
| CustomRules.FindPalindrome | add_custom_rule.py:48-53 | the inner loop returns the leftmost start of a palindromic window of the given length, or nothing when there is none |
| CustomRules.ScorePalindromeNumber | add_custom_rule.py:35-55 | the nested search loops compute exactly the Rule9 verdict |
| CustomRules.PalindromeNumberOf12343215 | add_custom_rule.py:47-53 | digits 12343215 score 40 for the window 1234321 |
| CustomRules.PartialPalindromeCanOutscorePerfect | add_custom_rule.py:41-53 | digits 12321 score 35 as a perfect palindrome, less than the 40 of the non-palindrome 12343215 |
| CustomRules.DigitSum | add_custom_rule.py:71 | the sum of the digits is at most 9 per digit, and 0 exactly when every digit is 0 |
| CustomRules.DividesIffNoRemainder | add_custom_rule.py:73 | the test `sum % divisor == 0` holds exactly when the divisor divides the sum |
| CustomRules.SumDivisibleBy | add_custom_rule.py:65-78 | no digits give 0; otherwise 15 exactly when the divisor divides the digit sum, else 0, with the sum reported |
| CustomRules.DecreasingSequence | add_custom_rule.py:87-108 | the Rule11 verdict: 0 with fewer than 2 digits, (L−2)·18 for a longest run of L ≥ 3 digits falling by one, else 0; characterised by `DecreasingSequenceRewardsLongestFall` |
| CustomRules.DecreasingSequenceRewardsLongestFall | add_custom_rule.py:87-108 | fewer than 2 digits give 0; otherwise 18 per digit beyond two in a longest run falling by one, and 0 when that run is shorter than 3 |
| CustomRules.ScoreDecreasingSequence | add_custom_rule.py:87-108 | the counting loop computes exactly the Rule11 verdict |
| CustomRules.SpecificPattern | add_custom_rule.py:117-155 | the Rule12 verdict: 0 under 4 digits, then the first AABB group for 25, else the first ABAB group for 28, else the first ABC group for 20, else 0; characterised by `SpecificPatternPriority` and `SpecificPatternReportsFirstMatch` |
| CustomRules.SpecificPatternPriority | add_custom_rule.py:117-155 | fewer than 4 digits give 0; otherwise 25 exactly when an AABB group exists, 28 when none does but an ABAB group does, 20 when neither does but an ABC group does, else 0 |
| CustomRules.SpecificPatternReportsFirstMatch | add_custom_rule.py:125-153 | the reported pattern is the first matching group of digits as it stands in the plate |
| CustomRules.FindAABB | add_custom_rule.py:125-128 | the loop returns the first position where the source's AABB test holds, or nothing when it holds nowhere |
| CustomRules.FindABAB | add_custom_rule.py:136-139 | the loop returns the first position where the source's ABAB test holds, or nothing when it holds nowhere |
| CustomRules.FindABC | add_custom_rule.py:147-149 | the loop returns the first position where the source's ABC test holds, or nothing when it holds nowhere |
| CustomRules.ScoreSpecificPattern | add_custom_rule.py:117-155 | the three scanning loops compute exactly the Rule12 verdict |
| CustomRules.SpecificPatternScoresFirstOnly | add_custom_rule.py:125-132 | digits 112233 hold two AABB groups and score 25 once, for 1122 |
| CustomRules.ThreeDigitRunScoresNothing | add_custom_rule.py:120-121 | digits 123 form an ABC group yet score 0 for having fewer than four digits |
| Scoring.RawVerdict | plate_scorer.py:32-43 | `calculate_score` of each of the twelve rule kinds, before weighting: dispatches to the rule's own verdict function; `Scoring.Evaluate` ties it to the loop methods |
| Scoring.Weighted | plate_scorer.py:65-69 | a weight of 0 gives 0; a positive weight keeps the sign of the integer score and its being 0 |
| Scoring.Apply | plate_scorer.py:60-69 | a rule's result carries the rule's name and reason; a weight of 0 silences it; a positive weight keeps the sign of its integer score |
| Scoring.UnitWeightKeepsScore | plate_scorer.py:58 | with the weight 1.0 every rule is created with, the score is the integer score |
| Scoring.Evaluate | plate_scorer.py:268 | dispatching to the rule's own code, the loop methods included, gives the rule's result |
| Scoring.ScoreAll | plate_scorer.py:264-272 | one result per rule, each the result of the rule at the same position |
| Scoring.TotalScore | plate_scorer.py:265-270 | the running `total_score += result.score` over the results in order; characterised by `TotalScoreAppend` and `ActiveResultsKeepTotal` |
| Scoring.TotalScoreAppend | plate_scorer.py:270 | the running total over two lists is the sum of their totals |
| Scoring.ScoreAllAppend | plate_scorer.py:267-269 | scoring a concatenation of rule lists is scoring each list in turn |
| Scoring.TotalOfRules | plate_scorer.py:264-272 | the total over a concatenation of rule lists is the sum of their totals |
| Scoring.ZeroWeightsScoreZero | plate_scorer.py:264-272 | when every weight is 0 the total is 0 |
| Scoring.WithoutRule | plate_scorer.py:252 | the comprehension `[r for r in rules if r.name != name]`; characterised by `WithoutRuleRemovesExactly` and `WithoutRuleKeepsOrder` |
| Scoring.WithoutRuleRemovesExactly | plate_scorer.py:250-252 | removing by name drops every rule of that name, keeps every other rule as often as before, and changes nothing when the name is absent |
| Scoring.WithoutRuleKeepsOrder | plate_scorer.py:252 | removal works piecewise, so the remaining rules keep their order |
| Scoring.RuleSummary | plate_scorer.py:295-300 | the no-bonus text exactly when every score is 0; otherwise the entries are all the results with a non-zero score, as often as they occur, in the order of the results |
| Scoring.RuleSummaryInOrder | plate_scorer.py:295-300 | the listing is piecewise over the results, and one result is listed exactly when its score is non-zero, so the rules appear in registration order |
| Scoring.ActiveResultsKeepTotal | plate_scorer.py:295 | the listed active results add up to the same total |
| Scoring.PlateScorer.constructor | plate_scorer.py:243-244 | a new scorer has no rules |
| Scoring.PlateScorer.AddRule | plate_scorer.py:246-248 | the rule is appended at the end, with no duplicate check |
| Scoring.PlateScorer.RemoveRule | plate_scorer.py:250-252 | the new rule list is the old one without the rules of that name |
| Scoring.PlateScorer.ScorePlate | plate_scorer.py:254-272 | the loop returns one result per rule in rule order, and a total equal to the sum of the result scores |
| Scoring.DefaultRuleSet | plate_scorer.py:275-288 | seven rules, each of weight 1 |
| Scoring.CreateDefaultScorer | plate_scorer.py:275-288 | a fresh scorer holding Rule1 to Rule7 in order |
| Scoring.TotalOfFirstOnly | plate_scorer.py:264-272 | when every score after the first is 0, the total is the first score |
| Scoring.EmptyPlateScoresTen | plate_scorer.py:64-65 | with the default rules the empty plate totals 10 |
| CustomScorer.CreateCustomScorer | add_custom_rule.py:160-172 | a fresh scorer holding the seven defaults followed by Rule8 to Rule12 |
| CustomScorer.CustomRuleSetShape | add_custom_rule.py:160-172 | twelve rules of weight 1, the defaults first, no two with the same name, Rule10 named for and dividing by 10 |
| CustomScorer.TenIsWrittenTen | add_custom_rule.py:62 | the divisor 10 is written "10" in Rule10's name |
| CustomScorer.SumDivisibleRuleNamesDivisor | add_custom_rule.py:61-62 | for any non-zero divisor, Rule10's name is the fixed prefix, the decimal text of the divisor (a minus sign exactly when negative) and the fixed suffix, and that text reads back as the divisor |
| Chars.IntToDecimalNames | add_custom_rule.py:62 | the decimal text of an integer is its magnitude's digits after an optional minus sign, reads back as the magnitude, and starts with 0 only for 0 |
| CustomScorer.EmptyPlateScoresFifteen | add_custom_rule.py:160-172 | with the custom rules the empty plate totals 15 |
| PlatePatterns.TryTail | license_plate_ocr.py:118 | the greedy quantifier takes the most characters of its class it can, within its bounds; none when even the fewest cannot be taken |
| PlatePatterns.TryHead | license_plate_ocr.py:118 | the match found has the longest head and, for it, the longest tail; none means no split matches |
| PlatePatterns.MatchAt | license_plate_ocr.py:118 | a match at a position is found exactly when one exists there, and it is the one a backtracking engine finds first |
| PlatePatterns.MatchedTextFullyMatches | license_plate_ocr.py:118 | the text a match covers is a substring of the input that the pattern matches whole |
| PlatePatterns.FindAll | license_plate_ocr.py:118 | every string `findall` returns is matched whole by the pattern and occurs in the scanned text |
| PlatePatterns.FindAllEmpty | license_plate_ocr.py:118 | `findall` returns nothing exactly when no match starts anywhere in the scanned text |
| PlatePatterns.FindAllLeftmost | license_plate_ocr.py:118 | the first string `findall` returns is the match a backtracking engine finds at the leftmost position where one starts |
| PlateFormats.Clean | analyze_plates.py:90 | only A–Z and 0–9 remain, each as often as in the upper-cased text |
| PlateFormats.CleanAppend | analyze_plates.py:90 | cleaning works piecewise over concatenation, so the kept characters stay in their order |
| PlateFormats.CleanOne | analyze_plates.py:90 | one character is kept, upper-cased, exactly when its upper-case form is A–Z or 0–9 |
| PlateFormats.CleanIdempotent | license_plate_easyocr.py:75 | cleaning a cleaned text changes nothing |
| PlateFormats.CleanKeepsMix | analyze_plates.py:90-101 | cleaning never lengthens the text and keeps whether it has a letter and whether it has a digit |
| PlateFormats.WidePatternShape | analyze_plates.py:105 | `^[A-Z]{2,3}[A-Z0-9]{4,5}$` matches exactly 6–7 characters starting with two letters, or 7–8 starting with three, the rest letters or digits |
| PlateFormats.NarrowPatternsSubsumed | analyze_plates.py:104-112 | the second and third patterns only accept what the first accepts, so trying all three is trying the first |
| PlateFormats.IsLikelyPlate | analyze_plates.py:85-118 | `is_likely_plate`: the checks on the cleaned text in the source's order (length, letter and digit, the three patterns, the 2–4 letter fallback); characterised by `LikelyPlateCharacterised` |
| PlateFormats.IsLicensePlate | license_plate_easyocr.py:72-99 | `is_license_plate`: the same checks without the fallback; characterised by `LicensePlateCharacterised` and `LicenseImpliesLikely` |
| PlateFormats.IsValidPlate | license_plate_ocr.py:94-105 | `is_valid_plate`: the raw text is 5–8 characters long and holds a letter and a digit, with no cleaning; related to the two other validators by `CleanedPlatesAreValid` |
| PlateFormats.LikelyPlateCharacterised | analyze_plates.py:85-118 | accepted exactly when the cleaned text has 5–8 characters and a digit, and either the wide shape or 2–4 letters |
| PlateFormats.LicensePlateCharacterised | license_plate_easyocr.py:72-99 | accepted exactly when the cleaned text has a digit and the wide shape |
| PlateFormats.FiveCharactersRejected | license_plate_easyocr.py:89-92 | a cleaned text of 5 characters is never accepted |
| PlateFormats.LicenseImpliesLikely | license_plate_easyocr.py:72-99 | everything `is_license_plate` accepts, `is_likely_plate` accepts |
| PlateFormats.CleanedPlatesAreValid | license_plate_ocr.py:94-105 | a likely plate passes `is_valid_plate` once cleaned; a licence plate at most 8 characters long passes it raw |
| PlateFormats.FoundWith | license_plate_ocr.py:116-119 | every match gathered occurs in the text and is matched whole by one of the patterns |
| PlateFormats.ParsePlatesWithPattern | license_plate_ocr.py:107-121 | the loop gathers the `findall` results of the three patterns in order and de-duplicates them |
| PlateFormats.ParsedPlatesSound | license_plate_ocr.py:107-121 | no duplicates; every candidate is a substring matched whole by a search pattern; every string `findall` returns for any search pattern is a candidate |
| PlateFormats.MatchGivesCandidate | license_plate_ocr.py:107-121 | whenever a search pattern matches anywhere in the text, at least one candidate is returned |
| Ranking.ScoreOne | analyze_plates.py:153-154 | a plate's tuple carries the plate, the `score_plate` results of every rule in order as its details, and the sum of the details as its total |
| Ranking.ScoreEach | analyze_plates.py:152-155 | the tuples of every plate in recognition order, one per plate; characterised by `ScoreEachIndex` |
| Ranking.ScoreEachIndex | analyze_plates.py:152-155 | the tuple at each position is what `score_plate` gives the plate recognised at that position |
| Ranking.ScorePlates | analyze_plates.py:152-155 | the loop computes exactly the tuples of every plate, in order |
| Ranking.Insert | analyze_plates.py:158 | inserting into a list sorted from high to low keeps it sorted, one longer, headed by the old head or the new entry |
| Ranking.InsertPermutes | analyze_plates.py:158 | inserting adds exactly that entry and keeps every other one |
| Ranking.SortByTotal | analyze_plates.py:158 | the result is sorted from high to low and as long as the input |
| Ranking.SortPermutes | analyze_plates.py:158 | the result is a permutation of the input |
| Ranking.InsertAfterTies | analyze_plates.py:158 | an inserted element lands after every element with the same total |
| Ranking.SortIsStable | analyze_plates.py:158 | the entries with any one total keep their recognition order |
| Ranking.Recommend | analyze_plates.py:192 | the recommendation is the first min(5, n) entries |
| Ranking.RecommendedScoreHighest | analyze_plates.py:192 | no plate left out scores more than a recommended one; with at most five plates all are recommended |
| Ranking.AnalyzeAndScore | analyze_plates.py:148-192 | the default scorer, the scoring loop, the sort and the recommendation, composed |
| Ranking.RankingMeaning | analyze_plates.py:152-158 | the ranking is sorted from high to low, holds every scored plate once per recognition, and keeps ties in recognition order |

## Left out

- OCR, image processing and file or console output: `recognize_plates_*`, `preprocess_image`, `detect_license_plate_regions`, `extract_*`, `main`, the prints, the report file and the average score. These are calls into cv2, easyocr, pytesseract and PIL, plus I/O and a float average. `AnalyzeAndScore` therefore takes the recognised plates as a parameter. The source returns early when no plate was recognised; with an empty list the model ranks nothing.
- Floating point: weights and totals are `real`s, so float rounding is not modelled. Rule6's 60 % test is the exact integer test 5p ≥ 3n.
- The column layout of `format_score_report` (`:12s`, `:6.1f`, the `" | "` join) is float formatting. Only its choice of active rules and the no-bonus case are modelled.
- Explanation strings are `Reason` values holding the interpolated data, not the Chinese text.
- Characters are ASCII:
  - `str.isdigit`, `str.isalpha` and `str.upper` are modelled on `0`–`9`, `A`–`Z` and `a`–`z`.
  - Python also counts other Unicode digits and letters (Chinese characters included), so `is_valid_plate` on raw text containing them differs.
  - `int()` of a non-ASCII digit can raise; this is not modelled.
- Scoring.Apply: rules are a closed set of twelve kinds, dispatched by a tag, not an open class hierarchy. A rule from outside these files cannot be added.
- CustomRules.SumDivisibleBy: the divisor is non-zero by type. Python raises `ZeroDivisionError` for a zero divisor on a plate with digits; that error path is not modelled.
- PlatePatterns.FindAll: models `re.findall` only for patterns that cannot match the empty string, the only kind the source uses.
- Ranking.SortByTotal: `list.sort` works in place; the model sorts a value, by stable insertion. The in-place update is not modelled.
- PlateFormats.ParsePlatesWithPattern: `list(set(plates))` has no defined order in Python. The model keeps first occurrences in input order, and only the set of values and the absence of duplicates are promised.
