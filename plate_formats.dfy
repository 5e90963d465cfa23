/// The three plate-format validators of the recognition scripts and the
/// regular-expression candidate search: `is_likely_plate` (analyze_plates.py),
/// `is_license_plate` (license_plate_easyocr.py), `is_valid_plate` and
/// `parse_plates_with_pattern` (license_plate_ocr.py).
module PlateFormats {
  import opened Seqs
  import opened Chars
  import opened PlatePatterns

  /** A character that survives `re.sub(r'[^A-Z0-9]', '', ...)`. */
  predicate IsPlateChar(c: char) { IsUpper(c) || IsDigit(c) }

  /**
   * `re.sub(r'[^A-Z0-9]', '', text.upper())`: upper-case, then keep only
   * `A`-`Z` and `0`-`9`, in order, every occurrence of each.
   */
  function Clean(text: string): (t: string)
    ensures forall i :: 0 <= i < |t| ==> IsPlateChar(t[i])
    ensures forall c :: multiset(t)[c] == if IsPlateChar(c) then multiset(Upper(text))[c] else 0
  {
    FilterMultiset(Upper(text), IsPlateChar);
    Filter(Upper(text), IsPlateChar)
  }

  /** Cleaning works piecewise over concatenation, so the kept characters stay in their order. */
  lemma CleanAppend(a: string, b: string)
    ensures Clean(a + b) == Clean(a) + Clean(b)
  {
    MapAppend(a, b, ToUpper);
    FilterAppend(Upper(a), Upper(b), IsPlateChar);
  }

  /** One character is kept, upper-cased, exactly when its upper-case form is `A`-`Z` or `0`-`9`. */
  lemma CleanOne(c: char)
    ensures Clean([c]) == if IsPlateChar(ToUpper(c)) then [ToUpper(c)] else []
  {
    assert Upper([c]) == [ToUpper(c)];
    assert [ToUpper(c)][1..] == [];
  }

  /** `any(c.isalpha() for c in t)`. */
  predicate HasLetter(t: string) { exists c | c in t :: IsLetter(c) }

  /** `any(c.isdigit() for c in t)`. */
  predicate HasDigit(t: string) { exists c | c in t :: IsDigit(c) }

  /** `len([c for c in t if c.isalpha()])`. */
  function LetterCount(t: string): nat { |Filter(t, IsLetter)| }

  lemma {:induction false} UpperOfCleanText(t: string)
    requires forall i :: 0 <= i < |t| ==> IsPlateChar(t[i])
    ensures Upper(t) == t
  {
    if t != [] {
      UpperOfCleanText(t[1..]);
    }
  }

  /** Cleaning an already cleaned text changes nothing. */
  lemma CleanIdempotent(text: string)
    ensures Clean(Clean(text)) == Clean(text)
  {
    UpperOfCleanText(Clean(text));
    FilterKeepsAll(Clean(text), IsPlateChar);
  }

  /**
   * Cleaning never lengthens the text and keeps whether it has a letter and
   * whether it has a digit: only characters that are neither are dropped.
   */
  lemma CleanKeepsMix(text: string)
    ensures |Clean(text)| <= |text|
    ensures HasLetter(Clean(text)) <==> HasLetter(text)
    ensures HasDigit(Clean(text)) <==> HasDigit(text)
  {
    CleanKeepsLetters(text);
    CleanKeepsDigits(text);
  }

  /** A character is in the cleaned text exactly when it is a plate character of the upper-cased text. */
  lemma CleanMembership(text: string, c: char)
    ensures c in Clean(text) <==> IsPlateChar(c) && c in Upper(text)
  {
    assert c in Clean(text) <==> multiset(Clean(text))[c] > 0;
    assert c in Upper(text) <==> multiset(Upper(text))[c] > 0;
  }

  lemma CleanKeepsLetters(text: string)
    ensures HasLetter(Clean(text)) <==> HasLetter(text)
  {
    var u := Upper(text);
    if HasLetter(text) {
      var i :| 0 <= i < |text| && IsLetter(text[i]);
      CleanMembership(text, u[i]);
    }
    if HasLetter(Clean(text)) {
      var c :| c in Clean(text) && IsLetter(c);
      CleanMembership(text, c);
      var i :| 0 <= i < |u| && u[i] == c;
      assert text[i] in text;
    }
  }

  lemma CleanKeepsDigits(text: string)
    ensures HasDigit(Clean(text)) <==> HasDigit(text)
  {
    var u := Upper(text);
    if HasDigit(text) {
      var i :| 0 <= i < |text| && IsDigit(text[i]);
      CleanMembership(text, u[i]);
    }
    if HasDigit(Clean(text)) {
      var c :| c in Clean(text) && IsDigit(c);
      CleanMembership(text, c);
      var i :| 0 <= i < |u| && u[i] == c;
      assert text[i] in text;
    }
  }

  /** `^[A-Z]{2,3}[A-Z0-9]{4,5}$`. */
  const WidePattern := Pattern(Piece(Letters, 2, 3), Piece(LettersOrDigits, 4, 5))
  /** `^[A-Z]{2}[0-9]{4,5}$`. */
  const TwoLetterPattern := Pattern(Piece(Letters, 2, 2), Piece(Digits, 4, 5))
  /** `^[A-Z]{3}[0-9]{4}$`. */
  const ThreeLetterPattern := Pattern(Piece(Letters, 3, 3), Piece(Digits, 4, 4))

  /** The anchored patterns both validators try, in order. */
  const PlatePatternList := [WidePattern, TwoLetterPattern, ThreeLetterPattern]

  /** `for pattern in patterns: if re.match(pattern, t): return True`. */
  predicate MatchesAny(patterns: seq<Pattern>, t: string) {
    exists j | 0 <= j < |patterns| :: FullMatch(patterns[j], t)
  }

  /**
   * The wide pattern without regular expressions: 6 or 7 characters of which
   * the first two are letters, or 7 or 8 of which the first three are; the
   * rest letters or digits.
   */
  predicate WideShape(t: string) {
    || (6 <= |t| <= 7 && AllIn(Letters, t[..2]) && AllIn(LettersOrDigits, t[2..]))
    || (7 <= |t| <= 8 && AllIn(Letters, t[..3]) && AllIn(LettersOrDigits, t[3..]))
  }

  lemma WideHeadSplit(t: string, k: nat)
    requires k <= |t|
    ensures SplitsAt(WidePattern, t, k) <==>
      2 <= k <= 3 && 4 <= |t| - k <= 5 && AllIn(Letters, t[..k]) && AllIn(LettersOrDigits, t[k..])
  {
    assert t[0..k] == t[..k];
    assert t[k..k + (|t| - k)] == t[k..];
  }

  /** The wide pattern matches exactly the texts of `WideShape`. */
  lemma WidePatternShape(t: string)
    ensures FullMatch(WidePattern, t) <==> WideShape(t)
  {
    if FullMatch(WidePattern, t) {
      var k: nat :| k <= |t| && SplitsAt(WidePattern, t, k);
      WideHeadSplit(t, k);
    }
    if WideShape(t) {
      var k := if 6 <= |t| <= 7 && AllIn(Letters, t[..2]) && AllIn(LettersOrDigits, t[2..]) then 2 else 3;
      WideHeadSplit(t, k);
    }
  }

  /** `[0-9]` lies within `[A-Z0-9]`. */
  lemma DigitsAreLettersOrDigits(t: string)
    requires AllIn(Digits, t)
    ensures AllIn(LettersOrDigits, t)
  {
  }

  /** The second and third patterns only accept what the first accepts. */
  lemma NarrowPatternsSubsumed(t: string)
    ensures FullMatch(TwoLetterPattern, t) ==> FullMatch(WidePattern, t)
    ensures FullMatch(ThreeLetterPattern, t) ==> FullMatch(WidePattern, t)
    ensures MatchesAny(PlatePatternList, t) <==> FullMatch(WidePattern, t)
  {
    if FullMatch(TwoLetterPattern, t) {
      var k: nat :| k <= |t| && SplitsAt(TwoLetterPattern, t, k);
      DigitsAreLettersOrDigits(t[k..k + (|t| - k)]);
      assert SplitsAt(WidePattern, t, k);
    }
    if FullMatch(ThreeLetterPattern, t) {
      var k: nat :| k <= |t| && SplitsAt(ThreeLetterPattern, t, k);
      DigitsAreLettersOrDigits(t[k..k + (|t| - k)]);
      assert SplitsAt(WidePattern, t, k);
    }
    if FullMatch(WidePattern, t) {
      assert FullMatch(PlatePatternList[0], t);
    }
  }

  /** `is_likely_plate`: length, letter-and-digit mix, the patterns, then the letter-count fallback. */
  function IsLikelyPlate(text: string): bool {
    var t := Clean(text);
    if |t| < 5 || |t| > 8 then false
    else if !(HasLetter(t) && HasDigit(t)) then false
    else if MatchesAny(PlatePatternList, t) then true
    else 2 <= LetterCount(t) <= 4
  }

  /** `is_license_plate`: the same checks without the fallback. */
  function IsLicensePlate(text: string): bool {
    var t := Clean(text);
    if |t| < 5 || |t| > 8 then false
    else if !(HasLetter(t) && HasDigit(t)) then false
    else MatchesAny(PlatePatternList, t)
  }

  /** `is_valid_plate`: raw length 5 to 8, at least one letter and one digit; no cleaning. */
  function IsValidPlate(text: string): bool {
    if |text| < 5 || |text| > 8 then false
    else HasLetter(text) && HasDigit(text)
  }

  /** A text of the wide shape has a letter: its first character. */
  lemma WideShapeHasLetter(t: string)
    requires WideShape(t)
    ensures HasLetter(t) && 6 <= |t| <= 8
  {
    assert t[0] == t[..2][0];
    assert IsLetter(t[0]);
  }

  /**
   * `is_license_plate` without regular expressions: the cleaned text has a
   * digit and the wide shape.
   */
  lemma LicensePlateCharacterised(text: string)
    ensures IsLicensePlate(text) <==> HasDigit(Clean(text)) && WideShape(Clean(text))
  {
    var t := Clean(text);
    NarrowPatternsSubsumed(t);
    WidePatternShape(t);
    if WideShape(t) {
      WideShapeHasLetter(t);
    }
  }

  /**
   * `is_likely_plate` without regular expressions: 5 to 8 cleaned characters
   * with a digit, and either the wide shape or 2 to 4 letters.
   */
  lemma LikelyPlateCharacterised(text: string)
    ensures var t := Clean(text);
      IsLikelyPlate(text) <==>
        5 <= |t| <= 8 && HasDigit(t) && (WideShape(t) || (HasLetter(t) && 2 <= LetterCount(t) <= 4))
  {
    var t := Clean(text);
    NarrowPatternsSubsumed(t);
    WidePatternShape(t);
    if WideShape(t) {
      WideShapeHasLetter(t);
    }
  }

  /** Every pattern needs six characters, so five cleaned characters are never a licence plate. */
  lemma FiveCharactersRejected(text: string)
    requires |Clean(text)| == 5
    ensures !IsLicensePlate(text)
  {
    LicensePlateCharacterised(text);
  }

  /** `is_likely_plate` accepts everything `is_license_plate` accepts. */
  lemma LicenseImpliesLikely(text: string)
    ensures IsLicensePlate(text) ==> IsLikelyPlate(text)
  {
  }

  /**
   * What the two cleaning validators accept passes `is_valid_plate` once
   * cleaned, and also raw when the raw text is at most 8 characters long.
   */
  lemma CleanedPlatesAreValid(text: string)
    ensures IsLikelyPlate(text) ==> IsValidPlate(Clean(text))
    ensures IsLicensePlate(text) && |text| <= 8 ==> IsValidPlate(text)
  {
    CleanKeepsMix(text);
  }

  /** `[A-Z]{2,3}[0-9]{4,5}`. */
  const LettersThenDigits := Pattern(Piece(Letters, 2, 3), Piece(Digits, 4, 5))
  /** `[A-Z]{3}[0-9]{4}`. */
  const ThreeLettersFourDigits := Pattern(Piece(Letters, 3, 3), Piece(Digits, 4, 4))
  /** `[A-Z]{2}[A-Z0-9]{5}`. */
  const TwoLettersThenMixed := Pattern(Piece(Letters, 2, 2), Piece(LettersOrDigits, 5, 5))

  /** The unanchored patterns `parse_plates_with_pattern` searches with, in order. */
  const SearchPatterns := [LettersThenDigits, ThreeLettersFourDigits, TwoLettersThenMixed]

  /** `re.findall` with each pattern in turn, the lists joined in pattern order. */
  function FoundWith(patterns: seq<Pattern>, text: string): (found: seq<string>)
    requires forall j :: 0 <= j < |patterns| ==> NonEmpty(patterns[j])
    ensures forall r :: r in found ==> OccursFrom(r, text, 0) && MatchesAny(patterns, r)
  {
    if patterns == [] then []
    else
      var init := patterns[..|patterns| - 1];
      var last := patterns[|patterns| - 1];
      var found := FoundWith(init, text) + FindAll(last, text, 0);
      assert forall r :: r in FoundWith(init, text) && MatchesAny(init, r) ==> MatchesAny(patterns, r) by {
        forall r | r in FoundWith(init, text) && MatchesAny(init, r) ensures MatchesAny(patterns, r) {
          var j :| 0 <= j < |init| && FullMatch(init[j], r);
          assert patterns[j] == init[j];
        }
      }
      assert forall r :: r in FindAll(last, text, 0) ==> FullMatch(patterns[|patterns| - 1], r);
      found
  }

  /**
   * `parse_plates_with_pattern`: the matches of every pattern, gathered in a
   * loop and then de-duplicated.
   */
  method ParsePlatesWithPattern(text: string) returns (plates: seq<string>)
    ensures plates == Distinct(FoundWith(SearchPatterns, text))
  {
    var found: seq<string> := [];
    for k := 0 to |SearchPatterns|
      invariant found == FoundWith(SearchPatterns[..k], text)
    {
      assert SearchPatterns[..k + 1][..k] == SearchPatterns[..k];
      found := found + FindAll(SearchPatterns[k], text, 0);
    }
    assert SearchPatterns[..|SearchPatterns|] == SearchPatterns;
    plates := Distinct(found);
  }

  /**
   * The parsed candidates: no value twice; each a substring of the text that
   * one of the search patterns matches whole; and every match `re.findall`
   * returns for any of the patterns is among them.
   */
  lemma ParsedPlatesSound(text: string)
    ensures var plates := Distinct(FoundWith(SearchPatterns, text));
      && NoDuplicates(plates)
      && (forall r :: r in plates ==> OccursFrom(r, text, 0) && MatchesAny(SearchPatterns, r))
      && (forall j, r :: 0 <= j < |SearchPatterns| && r in FindAll(SearchPatterns[j], text, 0) ==> r in plates)
  {
    var found := FoundWith(SearchPatterns, text);
    var plates := Distinct(found);
    forall j, r | 0 <= j < |SearchPatterns| && r in FindAll(SearchPatterns[j], text, 0) ensures r in plates {
      FoundWithIncludes(SearchPatterns, text, j);
      var i :| 0 <= i < |found| && found[i] == r;
    }
  }

  /** Whenever a search pattern matches anywhere in the text, some candidate is found. */
  lemma MatchGivesCandidate(text: string, j: nat, a: nat, k: nat, m: nat)
    requires j < |SearchPatterns| && MatchesWith(SearchPatterns[j], text, a, k, m)
    ensures Distinct(FoundWith(SearchPatterns, text)) != []
  {
    var all := FindAll(SearchPatterns[j], text, 0);
    FindAllEmpty(SearchPatterns[j], text, 0);
    assert all != [];
    FoundWithIncludes(SearchPatterns, text, j);
    var found := FoundWith(SearchPatterns, text);
    assert all[0] in found;
    var n :| 0 <= n < |found| && found[n] == all[0];
    assert found[n] in Distinct(found);
  }

  lemma {:induction false} FoundWithIncludes(patterns: seq<Pattern>, text: string, j: nat)
    requires forall j :: 0 <= j < |patterns| ==> NonEmpty(patterns[j])
    requires j < |patterns|
    ensures forall r :: r in FindAll(patterns[j], text, 0) ==> r in FoundWith(patterns, text)
  {
    var init := patterns[..|patterns| - 1];
    if j < |patterns| - 1 {
      FoundWithIncludes(init, text, j);
      assert init[j] == patterns[j];
    }
  }
}
