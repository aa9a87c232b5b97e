/**
 * What `analyze_data` computes from the collected items, as functions of the item list
 * and the rule set: the counters, the per-keyword groups (keyed by each item's primary
 * keyword, in the order the keys first appear), the popularity table and ranking, and
 * the per-platform counts. The method in the Analyzer module is proved to compute
 * exactly `Analyze`; the lemmas here state what that result promises.
 */
module Aggregation {
  import opened Wrappers
  import opened KeywordRules
  import opened Classifier
  import opened Sorting

  /** The rank an item without one sorts as (`item.get('rank', 999)`). */
  const MissingRank := 999

  /** A collected headline. */
  datatype Item = Item(title: string, url: string, rank: Option<int>, platformName: string, timestamp: string)

  /** An entry of a keyword group. */
  datatype Match = Match(
    title: string,
    platform: string,
    rank: int,
    url: string,
    timestamp: string,
    allMatchedKeywords: seq<string>)

  /** One `(keyword, count)` pair of the popularity table. */
  datatype KeywordCount = KeywordCount(keyword: string, count: nat)

  datatype ConfigSummary = ConfigSummary(
    frequencyWordsCount: nat,
    filterWordsCount: nat,
    mustWordsCount: nat,
    platformsCount: nat)

  /** The analysis result. Each Python dict is an insertion-ordered sequence of keys
      together with a map; the analysis time stamp is not modelled. */
  datatype AnalysisResult = AnalysisResult(
    totalItems: nat,
    matchedCount: nat,
    filteredCount: nat,
    platformOrder: seq<string>,
    platformStats: map<string, nat>,
    keywordOrder: seq<string>,
    keywordMatches: map<string, seq<Match>>,
    keywordPopularity: seq<KeywordCount>,
    sortedKeywords: seq<KeywordCount>,
    configSummary: ConfigSummary)

  ghost predicate Distinct<T>(s: seq<T>) {
    forall i, j :: 0 <= i < j < |s| ==> s[i] != s[j]
  }

  function OutcomeOf(item: Item, rules: RuleSet): Outcome {
    Classify(item.title, rules)
  }

  /** The group entry recorded for a matched item. */
  function RecordOf(item: Item, hits: seq<string>): Match {
    Match(item.title, item.platformName, item.rank.GetOr(MissingRank), item.url, item.timestamp, hits)
  }

  /** The first matched keyword, which decides the item's group. */
  function Primary(item: Item, rules: RuleSet): Option<string> {
    var hits := OutcomeOf(item, rules).Hits();
    if hits == [] then None else Some(hits[0])
  }

  function FilteredCount(data: seq<Item>, rules: RuleSet): nat {
    if data == [] then 0
    else FilteredCount(data[..|data| - 1], rules) + (if OutcomeOf(data[|data| - 1], rules).Filtered? then 1 else 0)
  }

  function MatchedCount(data: seq<Item>, rules: RuleSet): nat {
    if data == [] then 0
    else MatchedCount(data[..|data| - 1], rules) + (if Primary(data[|data| - 1], rules).Some? then 1 else 0)
  }

  /** The primary keywords in the order they first occur (the key order of the
      `defaultdict`). */
  function KeywordOrder(data: seq<Item>, rules: RuleSet): seq<string> {
    if data == [] then []
    else
      var keys := KeywordOrder(data[..|data| - 1], rules);
      match Primary(data[|data| - 1], rules)
      case Some(k) => if k in keys then keys else keys + [k]
      case None => keys
  }

  /** The entries of keyword `k`'s group, in the order the items arrived. */
  function Group(data: seq<Item>, rules: RuleSet, k: string): seq<Match> {
    if data == [] then []
    else
      var item := data[|data| - 1];
      Group(data[..|data| - 1], rules, k)
      + (if Primary(item, rules) == Some(k) then [RecordOf(item, OutcomeOf(item, rules).Hits())] else [])
  }

  /** The platform names in the order they first occur (the key order of the `Counter`). */
  function PlatformOrder(data: seq<Item>): seq<string> {
    if data == [] then []
    else
      var names := PlatformOrder(data[..|data| - 1]);
      var p := data[|data| - 1].platformName;
      if p in names then names else names + [p]
  }

  /** How many items come from platform `p`. */
  function PlatformCount(data: seq<Item>, p: string): nat {
    if data == [] then 0
    else PlatformCount(data[..|data| - 1], p) + (if data[|data| - 1].platformName == p then 1 else 0)
  }

  function PlatformStats(data: seq<Item>): map<string, nat> {
    map p | p in PlatformOrder(data) :: PlatformCount(data, p)
  }

  /** Sort key of group entries: ascending rank. */
  function RankKey(m: Match): int { m.rank }

  /** Sort key of the ranking: descending count. */
  function CountKey(kc: KeywordCount): int { -(kc.count as int) }

  /** The keyword groups in arrival order, before they are sorted (`keyword_matches`
      after the main loop). */
  function Groups(data: seq<Item>, rules: RuleSet): map<string, seq<Match>> {
    map k | k in KeywordOrder(data, rules) :: Group(data, rules, k)
  }

  /** `keyword_popularity`: every key of an ordered dict of groups with the size of its
      group, in key order. */
  function PopularityOf(keys: seq<string>, groups: map<string, seq<Match>>): (r: seq<KeywordCount>)
    requires forall k :: k in keys ==> k in groups
    ensures |r| == |keys|
    ensures forall j :: 0 <= j < |keys| ==> r[j] == KeywordCount(keys[j], |groups[keys[j]]|)
  {
    seq(|keys|, j requires 0 <= j < |keys| => KeywordCount(keys[j], |groups[keys[j]]|))
  }

  /** Every group of an ordered dict sorted by ascending rank. */
  function SortedGroups(keys: seq<string>, groups: map<string, seq<Match>>): map<string, seq<Match>>
    requires forall k :: k in keys ==> k in groups
  {
    map k | k in keys :: SortBy(groups[k], RankKey)
  }

  /** The complete analysis of `data` under `rules`. */
  function Analyze(data: seq<Item>, rules: RuleSet, platformsCount: nat): AnalysisResult {
    var keys := KeywordOrder(data, rules);
    var popularity := PopularityOf(keys, Groups(data, rules));
    AnalysisResult(
      |data|,
      MatchedCount(data, rules),
      FilteredCount(data, rules),
      PlatformOrder(data),
      PlatformStats(data),
      keys,
      SortedGroups(keys, Groups(data, rules)),
      popularity,
      SortBy(popularity, CountKey),
      ConfigSummary(|rules.frequency|, |rules.filter|, |rules.must|, platformsCount))
  }

  /** The analysis is determined by the counters and the groups the main loop of
      `analyze_data` builds. */
  lemma AnalysisFromGroups(data: seq<Item>, rules: RuleSet, platformsCount: nat, keys: seq<string>, groups: map<string, seq<Match>>)
    requires keys == KeywordOrder(data, rules)
    requires forall k :: k in groups <==> k in keys
    requires forall k :: k in groups ==> groups[k] == Group(data, rules, k)
    ensures Analyze(data, rules, platformsCount) == AnalysisResult(
      |data|, MatchedCount(data, rules), FilteredCount(data, rules),
      PlatformOrder(data), PlatformStats(data),
      keys, SortedGroups(keys, groups),
      PopularityOf(keys, groups), SortBy(PopularityOf(keys, groups), CountKey),
      ConfigSummary(|rules.frequency|, |rules.filter|, |rules.must|, platformsCount))
  {
    assert groups == Groups(data, rules);
  }

  // ---------------------------------------------------------------------------------
  // Sums over the keys of an ordered dict

  function SumCounts(keys: seq<string>, stats: map<string, nat>): nat
    requires forall k :: k in keys ==> k in stats
  {
    if keys == [] then 0
    else SumCounts(keys[..|keys| - 1], stats) + stats[keys[|keys| - 1]]
  }

  function SumSizes(keys: seq<string>, groups: map<string, seq<Match>>): nat
    requires forall k :: k in keys ==> k in groups
  {
    if keys == [] then 0
    else SumSizes(keys[..|keys| - 1], groups) + |groups[keys[|keys| - 1]]|
  }

  function GroupSizeSum(data: seq<Item>, rules: RuleSet, keys: seq<string>): nat {
    if keys == [] then 0
    else GroupSizeSum(data, rules, keys[..|keys| - 1]) + |Group(data, rules, keys[|keys| - 1])|
  }

  function PlatformCountSum(data: seq<Item>, names: seq<string>): nat {
    if names == [] then 0
    else PlatformCountSum(data, names[..|names| - 1]) + PlatformCount(data, names[|names| - 1])
  }

  // ---------------------------------------------------------------------------------
  // Counters

  /** Filtered and matched items are disjoint parts of all items. */
  lemma {:induction false} CountsWithinTotal(data: seq<Item>, rules: RuleSet)
    ensures FilteredCount(data, rules) + MatchedCount(data, rules) <= |data|
  {
    if data != [] {
      CountsWithinTotal(data[..|data| - 1], rules);
      var o := OutcomeOf(data[|data| - 1], rules);
      assert o.Filtered? ==> o.Hits() == [];
    }
  }

  // ---------------------------------------------------------------------------------
  // Keyword groups

  /** The key order has no repetitions, holds exactly the keywords with a non-empty
      group, and only frequency words. */
  lemma {:induction false} KeywordOrderFacts(data: seq<Item>, rules: RuleSet)
    ensures Distinct(KeywordOrder(data, rules))
    ensures forall k :: k in KeywordOrder(data, rules) <==> Group(data, rules, k) != []
    ensures forall k :: k in KeywordOrder(data, rules) ==> k in rules.frequency
  {
    if data != [] {
      var init := data[..|data| - 1];
      var item := data[|data| - 1];
      KeywordOrderFacts(init, rules);
      PairConsistent(item.title, rules);
      forall k ensures k in KeywordOrder(data, rules) <==> Group(data, rules, k) != [] {
        if Primary(item, rules) == Some(k) {
          assert Group(data, rules, k) == Group(init, rules, k) + [RecordOf(item, OutcomeOf(item, rules).Hits())];
        }
      }
    }
  }

  /** Every entry of group `k` has `k` as its first matched keyword, and `k` is a
      frequency word. */
  lemma {:induction false} GroupMembersPrimary(data: seq<Item>, rules: RuleSet, k: string)
    ensures forall m :: m in Group(data, rules, k) ==>
      m.allMatchedKeywords != [] && m.allMatchedKeywords[0] == k && k in rules.frequency
  {
    if data != [] {
      var item := data[|data| - 1];
      GroupMembersPrimary(data[..|data| - 1], rules, k);
      PairConsistent(item.title, rules);
    }
  }

  /** Keys not yet in the key order have no entries. */
  lemma GroupEmptyOutsideOrder(data: seq<Item>, rules: RuleSet, k: string)
    requires k !in KeywordOrder(data, rules)
    ensures Group(data, rules, k) == []
  {
    KeywordOrderFacts(data, rules);
  }

  /** Appending one item adds its record to the group of its primary keyword only. */
  lemma GroupAppend(init: seq<Item>, item: Item, rules: RuleSet, k: string)
    ensures Group(init + [item], rules, k) == Group(init, rules, k)
      + (if Primary(item, rules) == Some(k) then [RecordOf(item, OutcomeOf(item, rules).Hits())] else [])
  {
    var data := init + [item];
    assert data[..|data| - 1] == init && data[|data| - 1] == item;
  }

  /** Appending one item to the data adds one entry to at most one group. */
  lemma {:induction false} GroupSizeSumStep(init: seq<Item>, item: Item, rules: RuleSet, keys: seq<string>)
    requires Distinct(keys)
    ensures GroupSizeSum(init + [item], rules, keys) == GroupSizeSum(init, rules, keys)
      + (if Primary(item, rules).Some? && Primary(item, rules).value in keys then 1 else 0)
  {
    var p := Primary(item, rules);
    forall k ensures |Group(init + [item], rules, k)| == |Group(init, rules, k)| + (if p == Some(k) then 1 else 0) {
      GroupAppend(init, item, rules, k);
    }
    GroupSizeSumGrows(init, init + [item], rules, keys, p);
  }

  /** The sum over distinct keys grows by one exactly when one key's group grew by one. */
  lemma {:induction false} GroupSizeSumGrows(
    before: seq<Item>, after: seq<Item>, rules: RuleSet, keys: seq<string>, p: Option<string>)
    requires Distinct(keys)
    requires forall k :: |Group(after, rules, k)| == |Group(before, rules, k)| + (if p == Some(k) then 1 else 0)
    ensures GroupSizeSum(after, rules, keys) == GroupSizeSum(before, rules, keys)
      + (if p.Some? && p.value in keys then 1 else 0)
  {
    if keys != [] {
      var prefix := keys[..|keys| - 1];
      var last := keys[|keys| - 1];
      assert keys == prefix + [last];
      GroupSizeSumGrows(before, after, rules, prefix, p);
    }
  }

  /** The group sizes add up to the number of matched items. */
  lemma {:induction false} GroupSizesMakeMatched(data: seq<Item>, rules: RuleSet)
    ensures GroupSizeSum(data, rules, KeywordOrder(data, rules)) == MatchedCount(data, rules)
  {
    if data != [] {
      var init := data[..|data| - 1];
      var item := data[|data| - 1];
      var keys := KeywordOrder(init, rules);
      assert data == init + [item];
      GroupSizesMakeMatched(init, rules);
      KeywordOrderFacts(init, rules);
      GroupSizeSumStep(init, item, rules, keys);
      match Primary(item, rules)
      case None =>
      case Some(k) =>
        if k !in keys {
          var keys' := keys + [k];
          assert keys'[..|keys'| - 1] == keys;
          GroupEmptyOutsideOrder(init, rules, k);
          assert Group(data, rules, k) == [RecordOf(item, OutcomeOf(item, rules).Hits())];
        }
    }
  }

  /** Summing a map's values along keys equals summing group sizes when the map holds,
      for every key, a sequence as long as that key's group. */
  lemma {:induction false} SumSizesIsGroupSizeSum(
    keys: seq<string>, groups: map<string, seq<Match>>, data: seq<Item>, rules: RuleSet)
    requires forall k :: k in keys ==> k in groups && |groups[k]| == |Group(data, rules, k)|
    ensures SumSizes(keys, groups) == GroupSizeSum(data, rules, keys)
  {
    if keys != [] {
      SumSizesIsGroupSizeSum(keys[..|keys| - 1], groups, data, rules);
    }
  }

  // ---------------------------------------------------------------------------------
  // Platform counts

  /** The platform order has no repetitions and holds exactly the platforms with items. */
  lemma {:induction false} PlatformOrderFacts(data: seq<Item>)
    ensures Distinct(PlatformOrder(data))
    ensures forall p :: p in PlatformOrder(data) <==> PlatformCount(data, p) > 0
  {
    if data != [] {
      PlatformOrderFacts(data[..|data| - 1]);
    }
  }

  lemma {:induction false} PlatformCountSumStep(init: seq<Item>, item: Item, names: seq<string>)
    requires Distinct(names)
    ensures PlatformCountSum(init + [item], names)
      == PlatformCountSum(init, names) + (if item.platformName in names then 1 else 0)
  {
    var data := init + [item];
    assert data[..|data| - 1] == init;
    if names != [] {
      var prefix := names[..|names| - 1];
      var last := names[|names| - 1];
      PlatformCountSumStep(init, item, prefix);
      assert names == prefix + [last];
      assert forall p :: p in names <==> p in prefix || p == last;
      assert last !in prefix;
    }
  }

  /** Every item is counted once, under its platform. */
  lemma {:induction false} PlatformCountsMakeTotal(data: seq<Item>)
    ensures PlatformCountSum(data, PlatformOrder(data)) == |data|
  {
    if data != [] {
      var init := data[..|data| - 1];
      var item := data[|data| - 1];
      var names := PlatformOrder(init);
      assert data == init + [item];
      PlatformCountsMakeTotal(init);
      PlatformOrderFacts(init);
      PlatformCountSumStep(init, item, names);
      var p := item.platformName;
      if p !in names {
        var names' := names + [p];
        assert names'[..|names'| - 1] == names;
        assert PlatformCount(init, p) == 0;
      }
    }
  }

  lemma {:induction false} SumCountsIsPlatformCountSum(names: seq<string>, stats: map<string, nat>, data: seq<Item>)
    requires forall p :: p in names ==> p in stats && stats[p] == PlatformCount(data, p)
    ensures SumCounts(names, stats) == PlatformCountSum(data, names)
  {
    if names != [] {
      SumCountsIsPlatformCountSum(names[..|names| - 1], stats, data);
    }
  }

  // ---------------------------------------------------------------------------------
  // Properties of the analysis result

  /** The counters: filtered and matched items are at most all items, the groups hold
      exactly the matched items, and the platform counts add up to all items. */
  lemma AnalysisCounts(data: seq<Item>, rules: RuleSet, platformsCount: nat)
    ensures var r := Analyze(data, rules, platformsCount);
      && r.totalItems == |data|
      && r.filteredCount + r.matchedCount <= r.totalItems
      && (forall k :: k in r.keywordOrder <==> k in r.keywordMatches)
      && SumSizes(r.keywordOrder, r.keywordMatches) == r.matchedCount
      && (forall p :: p in r.platformOrder <==> p in r.platformStats)
      && SumCounts(r.platformOrder, r.platformStats) == r.totalItems
  {
    var r := Analyze(data, rules, platformsCount);
    CountsWithinTotal(data, rules);
    SumSizesIsGroupSizeSum(r.keywordOrder, r.keywordMatches, data, rules);
    GroupSizesMakeMatched(data, rules);
    SumCountsIsPlatformCountSum(r.platformOrder, r.platformStats, data);
    PlatformCountsMakeTotal(data);
  }

  /** The keyword groups: one per key, keys distinct frequency words with non-empty
      groups; every entry of group `k` has primary keyword `k`; each group holds its
      items sorted by ascending rank, entries of equal rank in arrival order. */
  lemma AnalysisGroups(data: seq<Item>, rules: RuleSet, platformsCount: nat)
    ensures var r := Analyze(data, rules, platformsCount);
      && Distinct(r.keywordOrder)
      && forall k :: k in r.keywordMatches ==>
        && k in rules.frequency
        && r.keywordMatches[k] != []
        && (forall m :: m in r.keywordMatches[k] ==> m.allMatchedKeywords != [] && m.allMatchedKeywords[0] == k)
        && multiset(r.keywordMatches[k]) == multiset(Group(data, rules, k))
        && SortedBy(r.keywordMatches[k], RankKey)
        && (forall v :: Keep(r.keywordMatches[k], RankKey, v) == Keep(Group(data, rules, k), RankKey, v))
  {
    var r := Analyze(data, rules, platformsCount);
    KeywordOrderFacts(data, rules);
    forall k | k in r.keywordMatches
      ensures forall m :: m in r.keywordMatches[k] ==> m.allMatchedKeywords != [] && m.allMatchedKeywords[0] == k
      ensures forall v :: Keep(r.keywordMatches[k], RankKey, v) == Keep(Group(data, rules, k), RankKey, v)
    {
      var g := Group(data, rules, k);
      GroupMembersPrimary(data, rules, k);
      forall m | m in r.keywordMatches[k] ensures m in g {
        assert m in multiset(r.keywordMatches[k]);
      }
      forall v ensures Keep(r.keywordMatches[k], RankKey, v) == Keep(g, RankKey, v) {
        SortByStable(g, RankKey, v);
      }
    }
  }

  /** Ranking a popularity table: a permutation with non-increasing counts, and entries
      of equal count in table order. */
  lemma RankingOrder(popularity: seq<KeywordCount>)
    ensures var ranked := SortBy(popularity, CountKey);
      && multiset(ranked) == multiset(popularity)
      && (forall i, j :: 0 <= i < j < |ranked| ==> ranked[i].count >= ranked[j].count)
      && (forall v :: Keep(ranked, CountKey, v) == Keep(popularity, CountKey, v))
  {
    var ranked := SortBy(popularity, CountKey);
    assert SortedBy(ranked, CountKey);
    forall v ensures Keep(ranked, CountKey, v) == Keep(popularity, CountKey, v) {
      SortByStable(popularity, CountKey, v);
    }
  }

  /** The popularity table and the ranking: the table lists every key, in key order, with
      the size of its group; the ranking is a permutation of the table with non-increasing
      counts, and keywords of equal count keep their table order, which is the order in
      which they first became some item's primary keyword. */
  lemma AnalysisRanking(data: seq<Item>, rules: RuleSet, platformsCount: nat)
    ensures var r := Analyze(data, rules, platformsCount);
      && |r.keywordPopularity| == |r.keywordOrder|
      && (forall j :: 0 <= j < |r.keywordOrder| ==>
           r.keywordOrder[j] in r.keywordMatches
           && r.keywordPopularity[j] == KeywordCount(r.keywordOrder[j], |r.keywordMatches[r.keywordOrder[j]]|))
      && multiset(r.sortedKeywords) == multiset(r.keywordPopularity)
      && (forall i, j :: 0 <= i < j < |r.sortedKeywords| ==> r.sortedKeywords[i].count >= r.sortedKeywords[j].count)
      && (forall v :: Keep(r.sortedKeywords, CountKey, v) == Keep(r.keywordPopularity, CountKey, v))
  {
    var r := Analyze(data, rules, platformsCount);
    var keys := KeywordOrder(data, rules);
    var popularity := PopularityOf(keys, Groups(data, rules));
    assert r.keywordOrder == keys && r.keywordPopularity == popularity;
    assert r.sortedKeywords == SortBy(popularity, CountKey);
    RankingOrder(popularity);
    forall j | 0 <= j < |keys|
      ensures keys[j] in r.keywordMatches
      ensures popularity[j] == KeywordCount(keys[j], |r.keywordMatches[keys[j]]|)
    {
      var g := Group(data, rules, keys[j]);
      assert r.keywordMatches[keys[j]] == SortBy(g, RankKey);
    }
  }

  /** A ranking among equal counts is the table itself. */
  lemma EqualCountsKeepOrder(popularity: seq<KeywordCount>, c: nat)
    requires forall j :: 0 <= j < |popularity| ==> popularity[j].count == c
    ensures SortBy(popularity, CountKey) == popularity
  {
    SortBySameKey(popularity, CountKey, -(c as int));
  }

  /** Two items with different primary keywords form two groups of one entry each, keyed
      in arrival order. */
  lemma TwoItemsGroups(a: Item, b: Item, rules: RuleSet)
    requires Primary(a, rules).Some? && Primary(b, rules).Some?
    requires Primary(a, rules) != Primary(b, rules)
    ensures KeywordOrder([a, b], rules) == [Primary(a, rules).value, Primary(b, rules).value]
    ensures |Group([a, b], rules, Primary(a, rules).value)| == 1
    ensures |Group([a, b], rules, Primary(b, rules).value)| == 1
  {
    var data := [a, b];
    var k1, k2 := Primary(a, rules).value, Primary(b, rules).value;
    assert data[..|data| - 1] == [a] && data[|data| - 1] == b;
    assert [a][..0] == [] && [a][0] == a;
    assert [] + [a] == [a] && [a] + [b] == data;
    assert KeywordOrder([a], rules) == [k1];
    GroupAppend([], a, rules, k1);
    GroupAppend([], a, rules, k2);
    GroupAppend([a], b, rules, k1);
    GroupAppend([a], b, rules, k2);
  }

  /** Ties in the ranking are broken by first appearance, not by the order of the
      frequency words: of two keywords with one item each, the one whose item came first
      is ranked first, wherever the two stand in the rule file. */
  lemma TwoItemsTieOrder(a: Item, b: Item, rules: RuleSet, platformsCount: nat)
    requires Primary(a, rules).Some? && Primary(b, rules).Some?
    requires Primary(a, rules) != Primary(b, rules)
    ensures Analyze([a, b], rules, platformsCount).sortedKeywords ==
      [KeywordCount(Primary(a, rules).value, 1), KeywordCount(Primary(b, rules).value, 1)]
  {
    var k1, k2 := Primary(a, rules).value, Primary(b, rules).value;
    TwoItemsGroups(a, b, rules);
    var popularity := PopularityOf([k1, k2], Groups([a, b], rules));
    assert popularity == [KeywordCount(k1, 1), KeywordCount(k2, 1)];
    EqualCountsKeepOrder(popularity, 1);
  }
}
