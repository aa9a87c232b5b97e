/**
 * Concrete rule files and titles worked through the model: the classification examples
 * of the keyword rules, and a ranking tie where first appearance, not the rule file,
 * decides the order.
 */
module Scenarios {
  import opened Wrappers
  import opened Text
  import opened KeywordRules
  import opened Classifier
  import opened Aggregation

  /** Filter word 广告 and frequency word AI: a title holding both is filtered. */
  lemma FilterWordExample()
    ensures Classify("广告 AI", RuleSet(["AI"], ["广告"], [])) == Filtered
  {
    var t := Lower("广告 AI");
    LowerAt("广告 AI");
    LowerAt("广告");
    assert t[..2] == "广告";
    assert Lower("广告") == "广告";
    FilterPrecedence("广告 AI", RuleSet(["AI"], ["广告"], []), 0);
  }

  /** Must words 股市 and 下跌: a title holding only 股市 is rejected although 股市 is
      also a frequency word. */
  lemma MustWordExample()
    ensures Classify("股市上涨", RuleSet(["股市"], [], ["股市", "下跌"])) == Rejected
  {
    var title := "股市上涨";
    LowerAt(title);
    LowerAt("下跌");
    assert Lower(title) == title;
    assert Lower("下跌") == "下跌";
    FirstCharAbsent(Lower(title), "下跌");
    MustRejection(title, RuleSet(["股市"], [], ["股市", "下跌"]), 1);
  }

  /** The rule file with frequency words AI and stock, in that order. */
  function AiStockRules(): RuleSet {
    RuleSet(["AI", "stock"], [], [])
  }

  lemma StockTitle()
    ensures Classify("stock", AiStockRules()) == Evaluated(["stock"])
  {
    LowerAt("stock");
    LowerAt("AI");
    assert Lower("stock") == "stock" && Lower("AI") == "ai";
    FirstCharAbsent("stock", "ai");
    assert Contains("stock", "stock");
    assert ["AI", "stock"][..1] == ["AI"] && ["AI"][..0] == [];
    EvaluatedOutcome("stock", AiStockRules());
  }

  lemma AiTitle()
    ensures Classify("AI", AiStockRules()) == Evaluated(["AI"])
  {
    LowerAt("stock");
    LowerAt("AI");
    assert Lower("stock") == "stock" && Lower("AI") == "ai";
    FirstCharAbsent("ai", "stock");
    assert Contains("ai", "ai");
    assert ["AI", "stock"][..1] == ["AI"] && ["AI"][..0] == [];
    EvaluatedOutcome("AI", AiStockRules());
  }

  /** With AI listed before stock, a stock headline followed by an AI headline ranks
      stock first: both have one item and the tie keeps first-appearance order. */
  lemma StockRankedBeforeAi()
    ensures var a := Item("stock", "", None, "p", "");
      var b := Item("AI", "", None, "p", "");
      Analyze([a, b], AiStockRules(), 0).sortedKeywords == [KeywordCount("stock", 1), KeywordCount("AI", 1)]
  {
    var a := Item("stock", "", None, "p", "");
    var b := Item("AI", "", None, "p", "");
    StockTitle();
    AiTitle();
    assert Primary(a, AiStockRules()) == Some("stock");
    assert Primary(b, AiStockRules()) == Some("AI");
    TwoItemsTieOrder(a, b, AiStockRules(), 0);
  }
}
