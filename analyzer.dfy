/**
 * The `TrendAnalyzer` object: its rule lists, collected items, analysis result and time
 * window, and the methods that fill them. Each method is proved against the function of
 * the Text, KeywordRules, TimeWindow, Classifier, Aggregation or Fetching module that
 * specifies it.
 */
module Analyzer {
  import opened Wrappers
  import opened Text
  import opened Sorting
  import opened TimeWindow
  import opened KeywordRules
  import opened Classifier
  import opened Aggregation
  import opened Fetching

  class TrendAnalyzer {
    var frequencyWords: seq<string>
    var filterWords: seq<string>
    var mustWords: seq<string>
    var allData: seq<Item>
    /** `None` while `analysis_result` is still the empty dict. */
    var analysisResult: Option<AnalysisResult>
    var timeRange: Window
    /** The size of the platform table, reported in the result's summary. */
    const platformsCount: nat

    /** The rule set the three word lists form. */
    function Rules(): RuleSet
      reads this
    {
      RuleSet(frequencyWords, filterWords, mustWords)
    }

    /** `__init__`: `content` is the text of the keyword file, `config` the time settings,
        `now` the current instant. */
    constructor (content: string, config: TimeConfig, now: int, platformsCount: nat)
      ensures Rules() == LoadRules(content)
      ensures allData == [] && analysisResult == None
      ensures timeRange == Resolve(config, now)
      ensures this.platformsCount == platformsCount
    {
      var frequency := LoadFrequencyWords(content);
      var filter := LoadMarkedWords(content, FilterMarker);
      var must := LoadMarkedWords(content, MustMarker);
      frequencyWords, filterWords, mustWords := frequency, filter, must;
      allData := [];
      analysisResult := None;
      timeRange := Resolve(config, now);
      this.platformsCount := platformsCount;
    }

    /** `load_frequency_words` on the file content. */
    static method LoadFrequencyWords(content: string) returns (words: seq<string>)
      ensures words == FrequencyWords(content)
    {
      var text := Strip(content);
      if text == [] {
        return [];
      }
      var lines := SplitLines(text);
      words := [];
      for i := 0 to |lines|
        invariant words == FrequencyOf(lines[..i])
      {
        assert lines[..i + 1][..i] == lines[..i];
        var line := Strip(lines[i]);
        if IsFrequencyLine(line) {
          words := words + [line];
        }
      }
      assert lines[..|lines|] == lines;
    }

    /** `load_filter_words` (marker `!`) and `load_must_words` (marker `+`) on the file
        content. */
    static method LoadMarkedWords(content: string, marker: char) returns (words: seq<string>)
      ensures words == MarkedOf(RuleLines(content), marker)
    {
      var lines := SplitLines(Strip(content));
      words := [];
      for i := 0 to |lines|
        invariant words == MarkedOf(lines[..i], marker)
      {
        assert lines[..i + 1][..i] == lines[..i];
        var line := Strip(lines[i]);
        if line != [] && line[0] == marker {
          words := words + [line[1..]];
        }
      }
      assert lines[..|lines|] == lines;
    }

    /** `match_keywords`: the pair Python returns, which is the projection of the outcome
        `Classify` decides. */
    method MatchKeywords(title: string) returns (matchedWords: seq<string>, isFiltered: bool)
      ensures (matchedWords, isFiltered) == Classify(title, Rules()).Pair()
    {
      if title == [] {
        return [], false;
      }
      var titleLower := Lower(title);

      for i := 0 to |filterWords|
        invariant !AnyMentioned(titleLower, filterWords[..i])
      {
        if Contains(titleLower, Lower(filterWords[i])) {
          assert Mentions(titleLower, filterWords[i]);
          return [], true;
        }
        assert filterWords[..i + 1] == filterWords[..i] + [filterWords[i]];
      }
      assert filterWords[..|filterWords|] == filterWords;

      if |mustWords| > 0 {
        var mustMatchCount := 0;
        for i := 0 to |mustWords|
          invariant mustMatchCount == CountMentioned(titleLower, mustWords[..i])
        {
          assert mustWords[..i + 1][..i] == mustWords[..i];
          if Contains(titleLower, Lower(mustWords[i])) {
            mustMatchCount := mustMatchCount + 1;
          }
        }
        assert mustWords[..|mustWords|] == mustWords;
        CountMentionedAll(titleLower, mustWords);
        if mustMatchCount < |mustWords| {
          return [], false;
        }
      }

      matchedWords := [];
      for i := 0 to |frequencyWords|
        invariant matchedWords == Mentioned(titleLower, frequencyWords[..i])
      {
        assert frequencyWords[..i + 1][..i] == frequencyWords[..i];
        if Contains(titleLower, Lower(frequencyWords[i])) {
          matchedWords := matchedWords + [frequencyWords[i]];
        }
      }
      assert frequencyWords[..|frequencyWords|] == frequencyWords;
      isFiltered := false;
    }

    /** `analyze_data`: one pass over the collected items with counters and per-keyword
        groups, then the popularity table, the ranking and the in-place sort of every
        group by rank; the result is exactly `Analyze`. */
    method AnalyzeData() returns (result: AnalysisResult)
      ensures result == Analyze(allData, Rules(), platformsCount)
    {
      var filteredCount, matchedCount, keys, groups := GroupItems();
      AnalysisFromGroups(allData, Rules(), platformsCount, keys, groups);

      var keywordPopularity := PopularityOf(keys, groups);
      var sortedKeywords := SortBy(keywordPopularity, CountKey);
      var sortedGroups := SortGroups(keys, groups);

      result := AnalysisResult(
        |allData|, matchedCount, filteredCount,
        PlatformOrder(allData), PlatformStats(allData),
        keys, sortedGroups,
        keywordPopularity, sortedKeywords,
        ConfigSummary(|frequencyWords|, |filterWords|, |mustWords|, platformsCount));
    }

    /** The main loop of `analyze_data`: the filtered and matched counters and the groups
        keyed by primary keyword, keys in the order they first appear, entries in arrival
        order. */
    method GroupItems() returns (filteredCount: nat, matchedCount: nat, keys: seq<string>, groups: map<string, seq<Match>>)
      ensures filteredCount == FilteredCount(allData, Rules())
      ensures matchedCount == MatchedCount(allData, Rules())
      ensures keys == KeywordOrder(allData, Rules()) && Distinct(keys)
      ensures forall k :: k in groups <==> k in keys
      ensures forall k :: k in groups ==> groups[k] == Group(allData, Rules(), k)
    {
      var data := allData;
      keys, groups := [], map[];
      filteredCount, matchedCount := 0, 0;
      for i := 0 to |data|
        invariant filteredCount == FilteredCount(data[..i], Rules())
        invariant matchedCount == MatchedCount(data[..i], Rules())
        invariant keys == KeywordOrder(data[..i], Rules())
        invariant forall k :: k in groups <==> k in keys
        invariant forall k :: k in groups ==> groups[k] == Group(data[..i], Rules(), k)
      {
        var item := data[i];
        assert data[..i + 1] == data[..i] + [item];
        forall k ensures Group(data[..i + 1], Rules(), k) == Group(data[..i], Rules(), k)
          + (if Primary(item, Rules()) == Some(k) then [RecordOf(item, OutcomeOf(item, Rules()).Hits())] else [])
        {
          GroupAppend(data[..i], item, Rules(), k);
        }
        var matchedKeywords, isFiltered := MatchKeywords(item.title);
        if isFiltered {
          filteredCount := filteredCount + 1;
          continue;
        }
        if matchedKeywords != [] {
          matchedCount := matchedCount + 1;
          var primary := matchedKeywords[0];
          var record := RecordOf(item, matchedKeywords);
          if primary in groups {
            groups := groups[primary := groups[primary] + [record]];
          } else {
            GroupEmptyOutsideOrder(data[..i], Rules(), primary);
            keys := keys + [primary];
            groups := groups[primary := [record]];
          }
        }
      }
      assert data[..|data|] == data;
      KeywordOrderFacts(data, Rules());
    }

    /** The closing loop of `analyze_data`: every group sorted by ascending rank. */
    static method SortGroups(keys: seq<string>, groups: map<string, seq<Match>>)
      returns (sorted: map<string, seq<Match>>)
      requires Distinct(keys)
      requires forall k :: k in groups <==> k in keys
      ensures sorted == SortedGroups(keys, groups)
    {
      sorted := groups;
      for j := 0 to |keys|
        invariant forall k :: k in sorted <==> k in keys
        invariant forall k :: k in keys[..j] ==> sorted[k] == SortBy(groups[k], RankKey)
        invariant forall k :: k in keys && k !in keys[..j] ==> sorted[k] == groups[k]
      {
        assert keys[..j + 1] == keys[..j] + [keys[j]];
        assert keys[j] !in keys[..j];
        sorted := sorted[keys[j] := SortBy(sorted[keys[j]], RankKey)];
      }
      assert keys[..|keys|] == keys;
    }

    /** The first two steps of `run`: store the collected items and, when there are any,
        analyse them. A run without items stops before the analysis. */
    method Run(collected: seq<Item>)
      modifies this
      ensures allData == collected
      ensures Rules() == old(Rules()) && timeRange == old(timeRange)
      ensures analysisResult ==
        if collected == [] then old(analysisResult) else Some(Analyze(collected, Rules(), platformsCount))
    {
      allData := collected;
      if allData == [] {
        return;
      }
      var result := AnalyzeData();
      analysisResult := Some(result);
    }

    /** The numbering loop of `fetch_platform_data`: the first `maxResults` entries of
        one platform's reply, numbered from 1, without those whose cleaned title is
        empty; entry `i` is stamped with the clock reading `stampOf(i)`. */
    static method NumberEntries(
      newsList: seq<RawEntry>, maxResults: nat, platformId: string, stampOf: nat -> string, clean: string -> string)
      returns (results: seq<Fetched>)
      ensures results == Numbered(newsList[..if |newsList| <= maxResults then |newsList| else maxResults],
                                  TitleCleaner(clean), platformId, stampOf)
    {
      var entries := newsList[..if |newsList| <= maxResults then |newsList| else maxResults];
      results := [];
      for i := 0 to |entries|
        invariant results == Numbered(entries[..i], TitleCleaner(clean), platformId, stampOf)
      {
        assert entries[..i + 1][..i] == entries[..i] && entries[..i + 1][i] == entries[i];
        var e := entries[i];
        var title := clean(Strip(RawTitle(e)));
        assert title == TitleCleaner(clean)(e);
        if title != [] {
          results := results + [Fetched(title, RawUrl(e), i + 1, platformId, stampOf(i + 1))];
        }
      }
      assert entries[..|entries|] == entries;
    }
  }
}
