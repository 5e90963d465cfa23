/// `create_custom_scorer` of add_custom_rule.py: the default scorer extended
/// with Rule8 to Rule12, Rule10 dividing by 10.
module CustomScorer {
  import opened Chars
  import opened RuleBase
  import opened Scoring
  import C = CustomRules

  /** `Rule10_SumDivisibleBy(divisor)`, named after its divisor. */
  function SumDivisibleRule(divisor: C.NonZero): Rule {
    Rule("数字和能被" + IntToDecimal(divisor) + "整除", 1.0, SumDivisibleBy(divisor))
  }

  /** The five rules `create_custom_scorer` appends, in order. */
  function CustomRuleSet(): seq<Rule> {
    [ Rule("避免数字7", 1.0, AvoidNumber7),
      Rule("回文数字", 1.0, PalindromeNumber),
      SumDivisibleRule(10),
      Rule("递减序列", 1.0, DecreasingSequence),
      Rule("特殊数字模式", 1.0, SpecificPattern) ]
  }

  /** `create_custom_scorer`: the default scorer, then five `add_rule` calls. */
  method CreateCustomScorer() returns (scorer: PlateScorer)
    ensures fresh(scorer)
    ensures scorer.rules == DefaultRuleSet() + CustomRuleSet()
  {
    scorer := CreateDefaultScorer();
    scorer.AddRule(Rule("避免数字7", 1.0, AvoidNumber7));
    scorer.AddRule(Rule("回文数字", 1.0, PalindromeNumber));
    scorer.AddRule(SumDivisibleRule(10));
    scorer.AddRule(Rule("递减序列", 1.0, DecreasingSequence));
    scorer.AddRule(Rule("特殊数字模式", 1.0, SpecificPattern));
  }

  lemma TenIsWrittenTen()
    ensures IntToDecimal(10) == "10"
  {
  }

  /**
   * Rule10's name spells out its divisor: between the fixed prefix and suffix
   * stands the decimal text of the divisor, which reads back as the divisor.
   */
  lemma SumDivisibleRuleNamesDivisor(divisor: C.NonZero)
    ensures var name := SumDivisibleRule(divisor).name;
      && |name| >= 8
      && name[..5] == "数字和能被" && name[|name| - 2..] == "整除"
      && name[5..|name| - 2] == IntToDecimal(divisor)
      && (name[5] == '-' <==> divisor < 0)
      && DecimalValue(name[if divisor < 0 then 6 else 5..|name| - 2]) == (if divisor < 0 then -(divisor as int) else divisor as int)
  {
    var name := SumDivisibleRule(divisor).name;
    var text := IntToDecimal(divisor);
    assert name == "数字和能被" + text + "整除";
    assert name[5..|name| - 2] == text;
    IntToDecimalNames(divisor);
    if divisor < 0 {
      assert name[6..|name| - 2] == text[1..];
    }
  }

  /**
   * The custom scorer holds twelve rules of weight 1: the seven defaults in
   * their order, then Rule8 to Rule12; no two of them share a name, so
   * `remove_rule` on any one name takes out exactly that rule.
   */
  lemma CustomRuleSetShape()
    ensures var rules := DefaultRuleSet() + CustomRuleSet();
      && |rules| == 12
      && rules[..7] == DefaultRuleSet()
      && (forall i :: 0 <= i < 12 ==> rules[i].weight == 1.0)
      && (forall i, j :: 0 <= i < j < 12 ==> rules[i].name != rules[j].name)
      && rules[7].kind == AvoidNumber7 && rules[8].kind == PalindromeNumber
      && rules[9].kind == SumDivisibleBy(10) && rules[9].name == "数字和能被10整除"
      && rules[10].kind == DecreasingSequence && rules[11].kind == SpecificPattern
  {
    TenIsWrittenTen();
  }

  /** With the custom rules the empty plate gains Rule8's 5 on top of Rule1's 10. */
  lemma EmptyPlateScoresFifteen(plate: string)
    requires plate == []
    ensures TotalScore(ScoreAll(DefaultRuleSet() + CustomRuleSet(), plate)) == 15.0
  {
    TotalOfRules(DefaultRuleSet(), CustomRuleSet(), plate);
    EmptyPlateScoresTen(plate);
    assert ExtractDigits(plate) == [];
    var scores := ScoreAll(CustomRuleSet(), plate);
    assert scores[0].score == 5.0;
    assert forall i :: 1 <= i < 5 ==> scores[i].score == 0.0;
    TotalOfFirstOnly(scores);
  }
}
