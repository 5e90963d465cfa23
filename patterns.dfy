/// The fragment of Python's `re` that the plate validators use. Every pattern
/// there is two character-class repetitions, `[X]{a,b}[Y]{c,d}`: anchored as
/// `^...$` for `re.match`, unanchored for `re.findall`.
module PlatePatterns {
  import opened Seqs
  import opened Chars

  /** `[A-Z]`, `[0-9]` and `[A-Z0-9]`. */
  datatype CharClass = Letters | Digits | LettersOrDigits

  predicate InClass(cls: CharClass, c: char) {
    match cls
    case Letters => IsUpper(c)
    case Digits => IsDigit(c)
    case LettersOrDigits => IsUpper(c) || IsDigit(c)
  }

  predicate AllIn(cls: CharClass, t: string) {
    forall i :: 0 <= i < |t| ==> InClass(cls, t[i])
  }

  /** `[X]{lo,hi}`; `[X]{n}` is `[X]{n,n}`. */
  datatype Piece = Piece(cls: CharClass, lo: nat, hi: nat)

  /** A head repetition followed by a tail repetition. */
  datatype Pattern = Pattern(head: Piece, tail: Piece)

  /** A pattern that cannot match the empty string. */
  predicate NonEmpty(p: Pattern) {
    p.head.lo + p.tail.lo >= 1
  }

  /** `s[i..i + n]` exists and lies wholly in `cls`. */
  predicate RunAt(cls: CharClass, s: string, i: nat, n: nat) {
    i + n <= |s| && AllIn(cls, s[i..i + n])
  }

  /** `p` matches `s` from `i` with its head taking `k` characters and its tail `m`. */
  predicate MatchesWith(p: Pattern, s: string, i: nat, k: nat, m: nat) {
    && p.head.lo <= k <= p.head.hi && RunAt(p.head.cls, s, i, k)
    && p.tail.lo <= m <= p.tail.hi && RunAt(p.tail.cls, s, i + k, m)
  }

  /** The whole of `t` is matched, the head taking its first `k` characters. */
  predicate SplitsAt(p: Pattern, t: string, k: nat) {
    k <= |t| && MatchesWith(p, t, 0, k, |t| - k)
  }

  /** `re.match('^' + p + '$', t)` succeeds: `t` is in the language of `p`. */
  predicate FullMatch(p: Pattern, t: string) {
    exists k: nat | k <= |t| :: SplitsAt(p, t, k)
  }

  /** A match found at some position, with the lengths its two pieces took. */
  datatype Hit = Hit(headLength: nat, tailLength: nat)

  /** The tail piece at `j`, trying `m` characters first and then fewer, as a greedy quantifier does. */
  function TryTail(p: Pattern, s: string, j: nat, m: nat): (r: Option<nat>)
    ensures r.Some? ==> p.tail.lo <= r.value <= m && RunAt(p.tail.cls, s, j, r.value)
    ensures r.Some? ==> forall n :: r.value < n <= m ==> !RunAt(p.tail.cls, s, j, n)
    ensures r.None? ==> forall n :: p.tail.lo <= n <= m ==> !RunAt(p.tail.cls, s, j, n)
    decreases m
  {
    if m < p.tail.lo then None
    else if RunAt(p.tail.cls, s, j, m) then Some(m)
    else if m == 0 then None
    else TryTail(p, s, j, m - 1)
  }

  /**
   * The head piece at `i` with at most `k` characters, backtracking into fewer
   * when the tail cannot follow. The hit is the one with the longest head and,
   * for that head, the longest tail: the match a backtracking engine finds first.
   */
  function TryHead(p: Pattern, s: string, i: nat, k: nat): (r: Option<Hit>)
    requires k <= p.head.hi
    ensures r.Some? ==> r.value.headLength <= k && MatchesWith(p, s, i, r.value.headLength, r.value.tailLength)
    ensures r.Some? ==> forall a: nat, b: nat :: a <= k && MatchesWith(p, s, i, a, b) ==>
      a < r.value.headLength || (a == r.value.headLength && b <= r.value.tailLength)
    ensures r.None? ==> forall a: nat, b: nat :: a <= k ==> !MatchesWith(p, s, i, a, b)
    decreases k
  {
    if k < p.head.lo then None
    else if RunAt(p.head.cls, s, i, k) then
      match TryTail(p, s, i + k, p.tail.hi)
      case Some(m) => Some(Hit(k, m))
      case None => if k == 0 then None else TryHead(p, s, i, k - 1)
    else if k == 0 then None
    else TryHead(p, s, i, k - 1)
  }

  /**
   * The match `re` finds starting exactly at `i`: none when no substring that
   * starts at `i` is in the language, otherwise the greedy-first one.
   */
  function MatchAt(p: Pattern, s: string, i: nat): (r: Option<Hit>)
    ensures r.Some? ==> MatchesWith(p, s, i, r.value.headLength, r.value.tailLength)
    ensures r.Some? ==> forall a: nat, b: nat :: MatchesWith(p, s, i, a, b) ==>
      a < r.value.headLength || (a == r.value.headLength && b <= r.value.tailLength)
    ensures r.None? ==> forall a: nat, b: nat :: !MatchesWith(p, s, i, a, b)
  {
    TryHead(p, s, i, p.head.hi)
  }

  /** `t` appears in `s` starting at `a`. */
  predicate OccursAt(t: string, s: string, a: nat) {
    a + |t| <= |s| && s[a..a + |t|] == t
  }

  /** A piecewise match from `i` is a full match of the substring it covers. */
  lemma MatchedTextFullyMatches(p: Pattern, s: string, i: nat, k: nat, m: nat)
    requires MatchesWith(p, s, i, k, m)
    ensures FullMatch(p, s[i..i + k + m]) && OccursAt(s[i..i + k + m], s, i)
  {
    var t := s[i..i + k + m];
    assert t[0..k] == s[i..i + k];
    assert t[k..k + m] == s[i + k..i + k + m];
    assert SplitsAt(p, t, k);
  }

  /** `t` appears in `s` at or after position `i`. */
  predicate OccursFrom(t: string, s: string, i: nat) {
    exists a: nat | i <= a <= |s| :: OccursAt(t, s, a)
  }

  /**
   * `re.findall(p, s[i:])` for a pattern that never matches the empty string:
   * scanning left to right, each match is taken and the scan resumes after it;
   * a position where nothing matches is skipped.
   */
  function FindAll(p: Pattern, s: string, i: nat): (r: seq<string>)
    requires NonEmpty(p)
    ensures forall j :: 0 <= j < |r| ==> FullMatch(p, r[j]) && OccursFrom(r[j], s, i)
    decreases |s| - i
  {
    if i >= |s| then []
    else match MatchAt(p, s, i)
      case Some(h) =>
        var e := i + h.headLength + h.tailLength;
        MatchedTextFullyMatches(p, s, i, h.headLength, h.tailLength);
        var rest := FindAll(p, s, e);
        OccursFromEarlier(rest, s, i, e);
        [s[i..e]] + rest
      case None =>
        var rest := FindAll(p, s, i + 1);
        OccursFromEarlier(rest, s, i, i + 1);
        rest
  }

  /** `findall` returns nothing exactly when no match starts at or after `i`. */
  lemma {:induction false} FindAllEmpty(p: Pattern, s: string, i: nat)
    requires NonEmpty(p)
    ensures FindAll(p, s, i) == [] <==> forall j: nat, k: nat, m: nat :: i <= j ==> !MatchesWith(p, s, j, k, m)
    decreases |s| - i
  {
    if i >= |s| {
      assert forall j: nat, k: nat, m: nat :: i <= j && MatchesWith(p, s, j, k, m) ==> j + k + m <= |s| && k + m >= 1;
    } else if MatchAt(p, s, i).None? {
      FindAllEmpty(p, s, i + 1);
      assert forall k: nat, m: nat :: !MatchesWith(p, s, i, k, m);
    }
  }

  /**
   * The first string `findall` returns is the match `MatchAt` gives at the
   * leftmost position, at or after `i`, where a match starts.
   */
  lemma {:induction false} FindAllLeftmost(p: Pattern, s: string, i: nat)
    requires NonEmpty(p)
    ensures forall j: nat :: i <= j && MatchAt(p, s, j).Some? && (forall j': nat :: i <= j' < j ==> MatchAt(p, s, j').None?) ==>
      var h := MatchAt(p, s, j).value;
      FindAll(p, s, i) != [] && FindAll(p, s, i)[0] == s[j..j + h.headLength + h.tailLength]
    decreases |s| - i
  {
    if i < |s| && MatchAt(p, s, i).None? {
      FindAllLeftmost(p, s, i + 1);
    }
  }

  lemma OccursFromEarlier(ts: seq<string>, s: string, i: nat, e: nat)
    requires i <= e
    requires forall j :: 0 <= j < |ts| ==> OccursFrom(ts[j], s, e)
    ensures forall j :: 0 <= j < |ts| ==> OccursFrom(ts[j], s, i)
  {
    forall j | 0 <= j < |ts| ensures OccursFrom(ts[j], s, i) {
      var a: nat :| e <= a <= |s| && OccursAt(ts[j], s, a);
    }
  }
}
