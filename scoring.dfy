/// The scoring engine of plate_scorer.py: a rule is a name, a weight and one
/// of the twelve scoring heuristics; `PlateScorer` keeps an ordered list of
/// rules, scores a plate with each in turn and sums the weighted scores.
///
/// The source dispatches through the subclasses of `ScoringRule`; the rule
/// set is closed, so here a rule carries a `RuleKind` tag and `RawVerdict`
/// dispatches on it. Python floats become `real`s.
module Scoring {
  import opened Seqs
  import opened Chars
  import opened RuleBase
  import D = DefaultRules
  import C = CustomRules

  /** Which heuristic a rule applies; Rule10 carries its divisor. */
  datatype RuleKind =
    | NoFour | ConsecutiveRepeats | Lucky68 | IncreasingSequence
    | AllEvenOrOdd | AllPrimes | SpecialLetters
    | AvoidNumber7 | PalindromeNumber | SumDivisibleBy(divisor: C.NonZero)
    | DecreasingSequence | SpecificPattern

  /** A `ScoringRule`: its name, its weight and its heuristic. */
  datatype Rule = Rule(name: string, weight: real, kind: RuleKind)

  /** The unweighted score and explanation a heuristic gives a plate. */
  function RawVerdict(kind: RuleKind, plate: string): Verdict {
    match kind
    case NoFour => D.NoFour(plate)
    case ConsecutiveRepeats => D.ConsecutiveRepeats(plate)
    case Lucky68 => D.Lucky68(plate)
    case IncreasingSequence => D.IncreasingSequence(plate)
    case AllEvenOrOdd => D.AllEvenOrOdd(plate)
    case AllPrimes => D.AllPrimes(plate)
    case SpecialLetters => D.SpecialLetters(plate)
    case AvoidNumber7 => C.AvoidNumber7(plate)
    case PalindromeNumber => C.PalindromeNumber(plate)
    case SumDivisibleBy(divisor) => C.SumDivisibleBy(divisor, plate)
    case DecreasingSequence => C.DecreasingSequence(plate)
    case SpecificPattern => C.SpecificPattern(plate)
  }

  lemma WeightedSign(raw: int, weight: real)
    ensures weight == 0.0 ==> raw as real * weight == 0.0
    ensures weight > 0.0 ==> (raw as real * weight > 0.0 <==> raw > 0)
    ensures weight > 0.0 ==> (raw as real * weight == 0.0 <==> raw == 0)
  {
    if weight > 0.0 {
      if raw > 0 {
        assert raw as real >= 1.0;
        assert raw as real * weight >= weight;
      } else if raw < 0 {
        assert raw as real <= -1.0;
        assert raw as real * weight <= -weight;
      }
    }
  }

  /** `score * self.weight`: a weight of 0 gives 0, a positive weight keeps the sign. */
  function Weighted(raw: int, weight: real): (s: real)
    ensures weight == 0.0 ==> s == 0.0
    ensures weight > 0.0 ==> (s > 0.0 <==> raw > 0) && (s == 0.0 <==> raw == 0)
  {
    WeightedSign(raw, weight);
    raw as real * weight
  }

  /**
   * `rule.calculate_score(plate)`: the rule's integer score times its weight,
   * under the rule's name. A weight of 0 silences the rule; a positive weight
   * keeps the sign of the integer score.
   */
  function Apply(rule: Rule, plate: string): (r: ScoreResult)
    ensures r.ruleName == rule.name && r.reason == RawVerdict(rule.kind, plate).reason
    ensures rule.weight == 0.0 ==> r.score == 0.0
    ensures rule.weight > 0.0 ==> (r.score > 0.0 <==> RawVerdict(rule.kind, plate).raw > 0)
    ensures rule.weight > 0.0 ==> (r.score == 0.0 <==> RawVerdict(rule.kind, plate).raw == 0)
  {
    var v := RawVerdict(rule.kind, plate);
    ScoreResult(rule.name, Weighted(v.raw, rule.weight), v.reason)
  }

  /** A rule of weight 1 scores exactly its integer score. */
  lemma UnitWeightKeepsScore(rule: Rule, plate: string)
    requires rule.weight == 1.0
    ensures Apply(rule, plate).score == RawVerdict(rule.kind, plate).raw as real
  {
  }

  /** `calculate_score` of the rule's own class; the rules whose source loops run their loops. */
  method Evaluate(rule: Rule, plate: string) returns (r: ScoreResult)
    ensures r == Apply(rule, plate)
  {
    var v: Verdict;
    match rule.kind {
      case ConsecutiveRepeats => v := D.ScoreConsecutiveRepeats(plate);
      case IncreasingSequence => v := D.ScoreIncreasingSequence(plate);
      case PalindromeNumber => v := C.ScorePalindromeNumber(plate);
      case DecreasingSequence => v := C.ScoreDecreasingSequence(plate);
      case SpecificPattern => v := C.ScoreSpecificPattern(plate);
      case _ => v := RawVerdict(rule.kind, plate);
    }
    r := ScoreResult(rule.name, Weighted(v.raw, rule.weight), v.reason);
  }

  /** One result per rule, in rule order. */
  function ScoreAll(rules: seq<Rule>, plate: string): (results: seq<ScoreResult>)
    ensures |results| == |rules|
    ensures forall i :: 0 <= i < |rules| ==> results[i] == Apply(rules[i], plate)
  {
    if rules == [] then []
    else
      var init := rules[..|rules| - 1];
      assert forall i :: 0 <= i < |init| ==> init[i] == rules[i];
      ScoreAll(init, plate) + [Apply(rules[|rules| - 1], plate)]
  }

  /** Scoring one more rule appends its result. */
  lemma ScoreAllSnoc(rules: seq<Rule>, rule: Rule, plate: string)
    ensures ScoreAll(rules + [rule], plate) == ScoreAll(rules, plate) + [Apply(rule, plate)]
  {
    InitOfSnoc(rules, rule);
  }

  /** Sum of the scores, added up in list order. */
  function TotalScore(results: seq<ScoreResult>): real {
    if results == [] then 0.0 else TotalScore(results[..|results| - 1]) + results[|results| - 1].score
  }

  lemma {:induction false} TotalScoreAppend(a: seq<ScoreResult>, b: seq<ScoreResult>)
    ensures TotalScore(a + b) == TotalScore(a) + TotalScore(b)
    decreases |b|
  {
    if b == [] {
      assert a + b == a;
    } else {
      assert (a + b)[..|a + b| - 1] == a + b[..|b| - 1];
      assert (a + b)[|a + b| - 1] == b[|b| - 1];
      TotalScoreAppend(a, b[..|b| - 1]);
    }
  }

  /** Adding one more result adds its score. */
  lemma TotalScoreSnoc(results: seq<ScoreResult>, r: ScoreResult)
    ensures TotalScore(results + [r]) == TotalScore(results) + r.score
  {
    InitOfSnoc(results, r);
  }

  /** Scoring a list of rules is scoring its parts one after the other. */
  lemma {:induction false} ScoreAllAppend(a: seq<Rule>, b: seq<Rule>, plate: string)
    ensures ScoreAll(a + b, plate) == ScoreAll(a, plate) + ScoreAll(b, plate)
    decreases |b|
  {
    if b == [] {
      assert a + b == a;
    } else {
      var init, last := b[..|b| - 1], b[|b| - 1];
      AppendSnoc(a, b);
      ScoreAllAppend(a, init, plate);
      ScoreAllSnoc(a + init, last, plate);
      ScoreAllSnoc(init, last, plate);
      AppendAssoc(ScoreAll(a, plate), ScoreAll(init, plate), [Apply(last, plate)]);
    }
  }

  /** The total is the sum of every rule's own weighted score, whatever the rules. */
  lemma {:induction false} TotalOfRules(a: seq<Rule>, b: seq<Rule>, plate: string)
    ensures TotalScore(ScoreAll(a + b, plate)) == TotalScore(ScoreAll(a, plate)) + TotalScore(ScoreAll(b, plate))
  {
    ScoreAllAppend(a, b, plate);
    TotalScoreAppend(ScoreAll(a, plate), ScoreAll(b, plate));
  }

  /** Rules whose weight is 0 contribute nothing: with all weights 0 the total is 0. */
  lemma {:induction false} ZeroWeightsScoreZero(rules: seq<Rule>, plate: string)
    requires forall i :: 0 <= i < |rules| ==> rules[i].weight == 0.0
    ensures TotalScore(ScoreAll(rules, plate)) == 0.0
  {
    if rules != [] {
      ZeroWeightsScoreZero(rules[..|rules| - 1], plate);
    }
  }

  /** The test that keeps a rule in `remove_rule`'s comprehension. */
  function NameIsNot(name: string): Rule -> bool {
    (r: Rule) => r.name != name
  }

  /** `[r for r in rules if r.name != name]`. */
  function WithoutRule(rules: seq<Rule>, name: string): seq<Rule> {
    Filter(rules, NameIsNot(name))
  }

  /**
   * Removing by name drops every rule of that name and keeps every other rule,
   * each as often as before; removing a name that is absent changes nothing.
   */
  lemma WithoutRuleRemovesExactly(rules: seq<Rule>, name: string)
    ensures forall i :: 0 <= i < |WithoutRule(rules, name)| ==> WithoutRule(rules, name)[i].name != name
    ensures forall r :: multiset(WithoutRule(rules, name))[r] == if r.name != name then multiset(rules)[r] else 0
    ensures (forall i :: 0 <= i < |rules| ==> rules[i].name != name) ==> WithoutRule(rules, name) == rules
  {
    FilterMultiset(rules, NameIsNot(name));
    if forall i :: 0 <= i < |rules| ==> rules[i].name != name {
      FilterKeepsAll(rules, NameIsNot(name));
    }
  }

  /** The rules that are kept stay in their order: removal works piecewise. */
  lemma WithoutRuleKeepsOrder(a: seq<Rule>, b: seq<Rule>, name: string)
    ensures WithoutRule(a + b, name) == WithoutRule(a, name) + WithoutRule(b, name)
  {
    FilterAppend(a, b, NameIsNot(name));
  }

  /** `r.score != 0`, the test of `format_score_report`. */
  predicate IsActive(r: ScoreResult) { r.score != 0.0 }

  /** What `format_score_report` lists after the plate: the fixed "no bonus" text, or the active rules. */
  datatype Summary = NoBonus | Active(entries: seq<ScoreResult>)

  /** The filter part of `format_score_report`. */
  function RuleSummary(results: seq<ScoreResult>): (s: Summary)
    ensures s == NoBonus <==> forall i :: 0 <= i < |results| ==> results[i].score == 0.0
    ensures s.Active? ==> s.entries != [] && forall i :: 0 <= i < |s.entries| ==> s.entries[i].score != 0.0
    ensures s.Active? ==> forall r :: multiset(s.entries)[r] == if IsActive(r) then multiset(results)[r] else 0
    ensures s.Active? ==> s.entries == Filter(results, IsActive)
  {
    var active := Filter(results, IsActive);
    FilterMultiset(results, IsActive);
    FilterKeepsLength(results, IsActive);
    NoneActive(results);
    if active == [] then NoBonus else Active(active)
  }

  /** The results a summary lists; none for the "no bonus" text. */
  function Listed(s: Summary): seq<ScoreResult> {
    if s.Active? then s.entries else []
  }

  /**
   * The report lists the results in the order the rules were registered: the
   * listing of two result lists one after the other is the two listings one
   * after the other, and one result is listed exactly when it is active.
   */
  lemma RuleSummaryInOrder(a: seq<ScoreResult>, b: seq<ScoreResult>, r: ScoreResult)
    ensures Listed(RuleSummary(a + b)) == Listed(RuleSummary(a)) + Listed(RuleSummary(b))
    ensures Listed(RuleSummary([r])) == if IsActive(r) then [r] else []
  {
    FilterAppend(a, b, IsActive);
  }

  lemma {:induction false} NoneActive(results: seq<ScoreResult>)
    ensures Filter(results, IsActive) == [] <==> forall i :: 0 <= i < |results| ==> !IsActive(results[i])
  {
    if results != [] {
      NoneActive(results[1..]);
      assert forall i :: 1 <= i < |results| ==> results[i] == results[1..][i - 1];
    }
  }

  /** The active rules alone add up to the same total. */
  lemma {:induction false} ActiveResultsKeepTotal(results: seq<ScoreResult>)
    ensures TotalScore(Filter(results, IsActive)) == TotalScore(results)
    decreases |results|
  {
    if results != [] {
      var init, last := results[..|results| - 1], results[|results| - 1];
      assert results == init + [last];
      FilterAppend(init, [last], IsActive);
      assert [last][1..] == [];
      ActiveResultsKeepTotal(init);
      TotalScoreAppend(Filter(init, IsActive), Filter([last], IsActive));
    }
  }

  /** `PlateScorer`: an ordered, mutable list of rules. */
  class PlateScorer {
    var rules: seq<Rule>

    constructor()
      ensures rules == []
    {
      rules := [];
    }

    /** `add_rule`: appends, with no check for a rule of the same name. */
    method AddRule(rule: Rule)
      modifies this
      ensures rules == old(rules) + [rule]
    {
      rules := rules + [rule];
    }

    /** `remove_rule`: keeps the rules with another name. */
    method RemoveRule(name: string)
      modifies this
      ensures rules == WithoutRule(old(rules), name)
    {
      rules := Filter(rules, NameIsNot(name));
    }

    /** `score_plate`: one result per rule in rule order, and their total. */
    method ScorePlate(plate: string) returns (total: real, results: seq<ScoreResult>)
      ensures results == ScoreAll(rules, plate)
      ensures total == TotalScore(results)
    {
      var rs := rules;
      results := [];
      total := 0.0;
      for i := 0 to |rs|
        invariant results == ScoreAll(rs[..i], plate)
        invariant total == TotalScore(results)
      {
        var result := Evaluate(rs[i], plate);
        ScoreStep(rs, i, plate, results, result);
        results := results + [result];
        total := total + result.score;
      }
      assert rs[..|rs|] == rs;
    }
  }

  /** One step of `score_plate`'s loop: the next rule's result extends the list and the total. */
  lemma ScoreStep(rules: seq<Rule>, i: nat, plate: string, results: seq<ScoreResult>, result: ScoreResult)
    requires i < |rules|
    requires results == ScoreAll(rules[..i], plate) && result == Apply(rules[i], plate)
    ensures results + [result] == ScoreAll(rules[..i + 1], plate)
    ensures TotalScore(results + [result]) == TotalScore(results) + result.score
  {
    PrefixSnoc(rules, i);
    ScoreAllSnoc(rules[..i], rules[i], plate);
    TotalScoreSnoc(results, result);
  }

  /** The seven rules of `create_default_scorer`, each of weight 1. */
  function DefaultRuleSet(): (rules: seq<Rule>)
    ensures |rules| == 7
    ensures forall i :: 0 <= i < |rules| ==> rules[i].weight == 1.0
  {
    [ Rule("避免数字4", 1.0, NoFour),
      Rule("连续重复数字", 1.0, ConsecutiveRepeats),
      Rule("吉祥数字6/8", 1.0, Lucky68),
      Rule("递增序列", 1.0, IncreasingSequence),
      Rule("全偶数或全奇数", 1.0, AllEvenOrOdd),
      Rule("全质数", 1.0, AllPrimes),
      Rule("特殊字母MJTQ", 1.0, SpecialLetters) ]
  }

  /** `create_default_scorer`. */
  method CreateDefaultScorer() returns (scorer: PlateScorer)
    ensures fresh(scorer)
    ensures scorer.rules == DefaultRuleSet()
  {
    scorer := new PlateScorer();
    scorer.AddRule(Rule("避免数字4", 1.0, NoFour));
    scorer.AddRule(Rule("连续重复数字", 1.0, ConsecutiveRepeats));
    scorer.AddRule(Rule("吉祥数字6/8", 1.0, Lucky68));
    scorer.AddRule(Rule("递增序列", 1.0, IncreasingSequence));
    scorer.AddRule(Rule("全偶数或全奇数", 1.0, AllEvenOrOdd));
    scorer.AddRule(Rule("全质数", 1.0, AllPrimes));
    scorer.AddRule(Rule("特殊字母MJTQ", 1.0, SpecialLetters));
  }

  /** When every score after the first is 0, the total is the first score. */
  lemma {:induction false} TotalOfFirstOnly(results: seq<ScoreResult>)
    requires |results| >= 1
    requires forall i :: 1 <= i < |results| ==> results[i].score == 0.0
    ensures TotalScore(results) == results[0].score
  {
    if |results| > 1 {
      TotalOfFirstOnly(results[..|results| - 1]);
    } else {
      assert results[..0] == [];
    }
  }

  /** The empty plate does not score 0: it has no digit 4, so Rule1 gives it 10. */
  lemma EmptyPlateScoresTen(plate: string)
    requires plate == []
    ensures TotalScore(ScoreAll(DefaultRuleSet(), plate)) == 10.0
  {
    assert ExtractDigits(plate) == [] && Upper(plate) == [];
    var scores := ScoreAll(DefaultRuleSet(), plate);
    assert scores[0].score == 10.0;
    assert forall i :: 1 <= i < 7 ==> scores[i].score == 0.0;
    TotalOfFirstOnly(scores);
  }
}
