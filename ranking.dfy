/// The ranking step of `analyze_and_score_plates` (analyze_plates.py): every
/// recognised plate is scored by the default scorer, the list is sorted by
/// total from high to low, and the first five are recommended.
module Ranking {
  import opened Seqs
  import opened RuleBase
  import opened Scoring

  /** The `(plate, total_score, details)` tuple. */
  datatype ScoredPlate = ScoredPlate(plate: string, total: real, details: seq<ScoreResult>)

  /** What `score_plate` gives one plate under `rules`. */
  function ScoreOne(rules: seq<Rule>, plate: string): (p: ScoredPlate)
    ensures p.plate == plate && |p.details| == |rules|
    ensures p.details == ScoreAll(rules, plate)
    ensures p.total == TotalScore(p.details)
  {
    var details := ScoreAll(rules, plate);
    ScoredPlate(plate, TotalScore(details), details)
  }

  /** Every plate scored, in recognition order. */
  function ScoreEach(rules: seq<Rule>, plates: seq<string>): (scored: seq<ScoredPlate>)
    ensures |scored| == |plates|
  {
    if plates == [] then []
    else ScoreEach(rules, plates[..|plates| - 1]) + [ScoreOne(rules, plates[|plates| - 1])]
  }

  lemma ScoreEachSnoc(rules: seq<Rule>, plates: seq<string>, plate: string)
    ensures ScoreEach(rules, plates + [plate]) == ScoreEach(rules, plates) + [ScoreOne(rules, plate)]
  {
    InitOfSnoc(plates, plate);
  }

  /** The tuple at position `i` is the one `score_plate` gives the `i`-th plate. */
  lemma {:induction false} ScoreEachIndex(rules: seq<Rule>, plates: seq<string>)
    ensures forall i :: 0 <= i < |plates| ==> ScoreEach(rules, plates)[i] == ScoreOne(rules, plates[i])
  {
    if plates != [] {
      var init, last := plates[..|plates| - 1], plates[|plates| - 1];
      ScoreEachIndex(rules, init);
      assert plates == init + [last];
      ScoreEachSnoc(rules, init, last);
      var prev := ScoreEach(rules, init);
      forall i | 0 <= i < |plates|
        ensures ScoreEach(rules, plates)[i] == ScoreOne(rules, plates[i])
      {
        if i < |init| {
          assert ScoreEach(rules, plates)[i] == prev[i];
          assert plates[i] == init[i];
        }
      }
    }
  }

  /** The loop that appends one tuple per plate. */
  method ScorePlates(scorer: PlateScorer, plates: seq<string>) returns (scored: seq<ScoredPlate>)
    ensures scored == ScoreEach(scorer.rules, plates)
  {
    scored := [];
    for i := 0 to |plates|
      invariant scored == ScoreEach(scorer.rules, plates[..i])
    {
      var total, details := scorer.ScorePlate(plates[i]);
      PrefixSnoc(plates, i);
      ScoreEachSnoc(scorer.rules, plates[..i], plates[i]);
      scored := scored + [ScoredPlate(plates[i], total, details)];
    }
    assert plates[..|plates|] == plates;
  }

  /** Totals never increase along the list. */
  predicate SortedByTotal(s: seq<ScoredPlate>) {
    forall i, j :: 0 <= i < j < |s| ==> s[i].total >= s[j].total
  }

  /** Puts `x` after every entry scoring at least as much, before the first that scores less. */
  function Insert(x: ScoredPlate, sorted: seq<ScoredPlate>): (r: seq<ScoredPlate>)
    requires SortedByTotal(sorted)
    ensures SortedByTotal(r) && |r| == |sorted| + 1
    ensures r[0] == x || (sorted != [] && r[0] == sorted[0])
  {
    if sorted == [] then [x]
    else if sorted[0].total >= x.total then
      var rest := Insert(x, sorted[1..]);
      InsertBehindHead(x, sorted, rest);
      [sorted[0]] + rest
    else
      InsertAtFront(x, sorted);
      [x] + sorted
  }

  /** A head at least as high as everything behind it keeps the list sorted. */
  lemma InsertBehindHead(x: ScoredPlate, sorted: seq<ScoredPlate>, rest: seq<ScoredPlate>)
    requires sorted != [] && SortedByTotal(sorted) && sorted[0].total >= x.total
    requires SortedByTotal(rest) && rest != [] && (rest[0] == x || (|sorted| > 1 && rest[0] == sorted[1]))
    ensures SortedByTotal([sorted[0]] + rest)
  {
    var r := [sorted[0]] + rest;
    forall i, j | 0 <= i < j < |r|
      ensures r[i].total >= r[j].total
    {
      assert r[j] == rest[j - 1];
      if i > 0 {
        assert r[i] == rest[i - 1];
      } else {
        assert rest[0].total >= rest[j - 1].total;
      }
    }
  }

  /** Inserting adds exactly `x` to the entries. */
  lemma {:induction false} InsertPermutes(x: ScoredPlate, sorted: seq<ScoredPlate>)
    requires SortedByTotal(sorted)
    ensures multiset(Insert(x, sorted)) == multiset(sorted) + multiset{x}
  {
    if sorted != [] && sorted[0].total >= x.total {
      var head, tail := sorted[0], sorted[1..];
      InsertPermutes(x, tail);
      assert sorted == [head] + tail;
      assert Insert(x, sorted) == [head] + Insert(x, tail);
    }
  }

  /** An entry scoring more than the head goes in front. */
  lemma InsertAtFront(x: ScoredPlate, sorted: seq<ScoredPlate>)
    requires sorted != [] && SortedByTotal(sorted) && sorted[0].total < x.total
    ensures SortedByTotal([x] + sorted)
  {
    var r := [x] + sorted;
    forall i, j | 0 <= i < j < |r|
      ensures r[i].total >= r[j].total
    {
      assert r[j] == sorted[j - 1];
      if i > 0 {
        assert r[i] == sorted[i - 1];
      } else {
        assert sorted[0].total >= sorted[j - 1].total;
      }
    }
  }

  /**
   * `scored_plates.sort(key=lambda x: x[1], reverse=True)`: a stable sort
   * from the highest total to the lowest.
   */
  function SortByTotal(s: seq<ScoredPlate>): (r: seq<ScoredPlate>)
    ensures SortedByTotal(r) && |r| == |s|
  {
    if s == [] then []
    else Insert(s[|s| - 1], SortByTotal(s[..|s| - 1]))
  }

  /** The sort neither drops nor duplicates an entry. */
  lemma {:induction false} SortPermutes(s: seq<ScoredPlate>)
    ensures multiset(SortByTotal(s)) == multiset(s)
  {
    if s != [] {
      var init, last := s[..|s| - 1], s[|s| - 1];
      SortPermutes(init);
      InsertPermutes(last, SortByTotal(init));
      assert s == init + [last];
    }
  }

  /** The entries whose total is `v`. */
  function HasTotal(v: real): ScoredPlate -> bool {
    (p: ScoredPlate) => p.total == v
  }

  lemma {:induction false} NoneHasTotal(s: seq<ScoredPlate>, v: real)
    requires forall i :: 0 <= i < |s| ==> s[i].total < v
    ensures Filter(s, HasTotal(v)) == []
  {
    if s != [] {
      NoneHasTotal(s[1..], v);
    }
  }

  /** Inserting `x` puts it after every entry that ties with it. */
  lemma {:induction false} InsertAfterTies(x: ScoredPlate, sorted: seq<ScoredPlate>, v: real)
    requires SortedByTotal(sorted)
    ensures Filter(Insert(x, sorted), HasTotal(v)) == Filter(sorted, HasTotal(v)) + Filter([x], HasTotal(v))
  {
    if sorted == [] {
    } else if sorted[0].total >= x.total {
      var head, tail := sorted[0], sorted[1..];
      InsertAfterTies(x, tail, v);
      assert sorted == [head] + tail;
      assert Insert(x, sorted) == [head] + Insert(x, tail);
      TiesBehindHead(head, tail, Insert(x, tail), x, HasTotal(v));
    } else {
      TiesInFront(x, sorted, v);
    }
  }

  /** The step of `InsertAfterTies` where `x` goes behind the head. */
  lemma TiesBehindHead(head: ScoredPlate, tail: seq<ScoredPlate>, rest: seq<ScoredPlate>, x: ScoredPlate, keep: ScoredPlate -> bool)
    requires Filter(rest, keep) == Filter(tail, keep) + Filter([x], keep)
    ensures Filter([head] + rest, keep) == Filter([head] + tail, keep) + Filter([x], keep)
  {
    FilterAppend([head], rest, keep);
    FilterAppend([head], tail, keep);
    AppendAssoc(Filter([head], keep), Filter(tail, keep), Filter([x], keep));
  }

  /** The step of `InsertAfterTies` where `x` goes in front. */
  lemma TiesInFront(x: ScoredPlate, sorted: seq<ScoredPlate>, v: real)
    requires SortedByTotal(sorted) && sorted != [] && sorted[0].total < x.total
    ensures Filter(Insert(x, sorted), HasTotal(v)) == Filter(sorted, HasTotal(v)) + Filter([x], HasTotal(v))
  {
    assert Insert(x, sorted) == [x] + sorted;
    FilterAppend([x], sorted, HasTotal(v));
    if x.total == v {
      NoneHasTotal(sorted, v);
    }
  }

  /**
   * The sort is stable: the entries of any one total keep their recognition
   * order.
   */
  lemma {:induction false} SortIsStable(s: seq<ScoredPlate>, v: real)
    ensures Filter(SortByTotal(s), HasTotal(v)) == Filter(s, HasTotal(v))
  {
    if s != [] {
      var init, last := s[..|s| - 1], s[|s| - 1];
      SortIsStable(init, v);
      InsertAfterTies(last, SortByTotal(init), v);
      assert s == init + [last];
      StableStep(init, last, SortByTotal(init), SortByTotal(s), HasTotal(v));
    }
  }

  /** The step of `SortIsStable` for the entry appended last. */
  lemma StableStep(init: seq<ScoredPlate>, last: ScoredPlate, sortedInit: seq<ScoredPlate>, sorted: seq<ScoredPlate>, keep: ScoredPlate -> bool)
    requires Filter(sortedInit, keep) == Filter(init, keep)
    requires Filter(sorted, keep) == Filter(sortedInit, keep) + Filter([last], keep)
    ensures Filter(sorted, keep) == Filter(init + [last], keep)
  {
    FilterAppend(init, [last], keep);
  }

  function Min(a: nat, b: nat): nat { if a <= b then a else b }

  /** `scored_plates[:min(5, len(scored_plates))]`. */
  function Recommend(ranked: seq<ScoredPlate>): (top: seq<ScoredPlate>)
    ensures |top| == Min(5, |ranked|)
    ensures top == ranked[..|top|]
  {
    ranked[..Min(5, |ranked|)]
  }

  /** No plate left out of the recommendation scores more than one in it. */
  lemma RecommendedScoreHighest(ranked: seq<ScoredPlate>)
    requires SortedByTotal(ranked)
    ensures forall i, j :: 0 <= i < |Recommend(ranked)| <= j < |ranked| ==>
      Recommend(ranked)[i].total >= ranked[j].total
    ensures |ranked| <= 5 ==> Recommend(ranked) == ranked
  {
  }

  /**
   * The ranking of `analyze_and_score_plates`: the default scorer, the scoring
   * loop, the sort and the recommendation.
   */
  method AnalyzeAndScore(plates: seq<string>) returns (ranked: seq<ScoredPlate>, top: seq<ScoredPlate>)
    ensures ranked == SortByTotal(ScoreEach(DefaultRuleSet(), plates))
    ensures top == Recommend(ranked)
  {
    var scorer := CreateDefaultScorer();
    var scored := ScorePlates(scorer, plates);
    ranked := SortByTotal(scored);
    top := Recommend(ranked);
  }

  /**
   * The ranking holds every recognised plate once per recognition, sorted
   * from high to low, ties in recognition order.
   */
  lemma RankingMeaning(plates: seq<string>, v: real)
    ensures var scored := ScoreEach(DefaultRuleSet(), plates);
      var ranked := SortByTotal(scored);
      && SortedByTotal(ranked)
      && multiset(ranked) == multiset(scored)
      && Filter(ranked, HasTotal(v)) == Filter(scored, HasTotal(v))
  {
    SortPermutes(ScoreEach(DefaultRuleSet(), plates));
    SortIsStable(ScoreEach(DefaultRuleSet(), plates), v);
  }
}
