# TrendRadar analyzer core in Dafny

This project models the decision logic of TrendRadar's `TrendAnalyzer` (`main.py`) and
proves properties of it. TrendRadar collects trending headlines from news platforms.
It keeps the headlines that match the keyword rules of `frequency_words.txt` and groups
them by keyword. It then ranks the keywords by how many headlines they gathered. The
model covers:

- **Keyword rules.** The file content is stripped and split into lines, and every line
  is stripped. A `!word` line gives a filter word and a `+word` line gives a must word.
  Every other non-blank line that does not start with `#` gives a frequency word.
- **Time window.** The window comes from two optional custom dates and a duration in
  days and hours. A custom range comes first, then a start-only range, then the
  duration. Dates are clamped to the current time.
- **Title classification (`match_keywords`).** A title is filtered when a filter word
  occurs in it. It is rejected when a must word is missing. Otherwise the result is the
  list of frequency words that occur in it. Matching is case-insensitive substring
  containment.
- **Analysis (`analyze_data`).**
  - One pass over the collected items keeps a filtered and a matched counter.
  - It builds insertion-ordered groups keyed by each item's first matched keyword.
  - Each group is sorted by rank. A missing rank counts as 999.
  - It builds the popularity table and ranks keywords stably by count, descending.
  - It counts items per platform.
- **Rank numbering.** This is the loop of `fetch_platform_data` that numbers one
  platform's entries from 1 and drops those whose cleaned title is empty.

What is modelled where:

- `TrendAnalyzer` is a Dafny class in module `Analyzer`. Its fields are the three word
  lists, the collected items, the analysis result and the time window.
- Its methods keep the loops of the source: the line loops of the loaders, the three
  loops of `match_keywords`, the main loop and the group-sorting loop of
  `analyze_data`, and the numbering loop.
- Each method is proved equal to a function in the modules below:
  - `KeywordRules`: the rule lines;
  - `TimeWindow`: the window;
  - `Classifier`: the four outcomes of a title;
  - `Aggregation`: the analysis;
  - `Fetching`: the numbering.
- The lemmas in those modules state the properties of those functions.
- Support modules:
  - `Text` holds Python's `str.strip`, `split('\n')`, `lower` and `in` over `seq<char>`;
  - `Sorting` holds Python's stable `sort`/`sorted` with an integer key;
  - `Scenarios` works concrete rule files through the model.

How the model stands in for the source:

- A Python dict with insertion order is a key sequence together with a `map`.
- `match_keywords` returns a pair. `Classifier.Outcome` keeps its four cases apart:
  untitled, filtered, rejected and evaluated. `Outcome.Pair()` projects back onto the
  Python pair.
- The current time and the parsed custom dates are inputs. A date setting is `Unset`
  (an empty setting), `Malformed` (present but not a valid `YYYY-MM-DD`), or
  `Parsed(instant)`, where instants are whole seconds. `clean_text` is a parameter of
  the numbering loop.
- A platform entry's `title` and `name` are optional scalar JSON values (string, `null`,
  boolean, integer), turned into text as Python's `str` does. The loop reads the clock
  once per entry; `stampOf(i)` is the reading taken at entry `i`.

Two behaviours of the code are easy to misread, and the model follows the code in both:

- **Ranking ties.** Keywords with equal counts are ranked in the order they first became
  some item's primary keyword. This is the insertion order of `keyword_matches`, which
  `sorted` keeps stable. It is not the order of the frequency word list.
  `Aggregation.TwoItemsTieOrder` states this and `Scenarios.StockRankedBeforeAi` shows
  it on a concrete file.
- **Filter and must words.** These lose only their first character (`line[1:]`). The
  remainder is not trimmed again, so `!  x` gives the filter word `"  x"`. A bare `!`
  line gives the empty filter word, which filters every non-empty title.

## Model

| member | source | states |
|---|---|---|
| Analyzer.TrendAnalyzer.constructor | main.py:57-63 | the three word lists are exactly the rule set parsed from the file content, the item list is empty, no analysis result exists yet, and the time window is the one resolved for the settings and the current time |
| Analyzer.TrendAnalyzer.LoadFrequencyWords | main.py:122-135 | the loop over the stripped lines collects exactly the frequency words of the content, none at all when the content is blank |
| Analyzer.TrendAnalyzer.LoadMarkedWords | main.py:143-169 | the loop collects exactly the lines starting with the marker (`!` for filter words, `+` for must words), each with its first character removed |
| Analyzer.TrendAnalyzer.MatchKeywords | main.py:270-298 | the pair returned by the early-return filter loop, the must-word counter and the frequency loop is exactly the projection of `Classify` for the title and the object's rules |
| Analyzer.TrendAnalyzer.AnalyzeData | main.py:300-368 | the result assembled from the main loop, the popularity table, the ranking and the per-group sort is exactly `Analyze` of the collected items |
| Analyzer.TrendAnalyzer.GroupItems | main.py:309-332 | after the main loop the two counters, the key order and every group equal their specification functions, and the keys are distinct |
| Analyzer.TrendAnalyzer.SortGroups | main.py:346-348 | sorting each group in place in key order turns the groups into the same keys with every group stably sorted by rank |
| Analyzer.TrendAnalyzer.Run | main.py:673-680 | the collected items are stored; with no items the analysis is skipped and the previous result is kept, otherwise the result is the analysis of the items; rules and window are unchanged |
| Analyzer.TrendAnalyzer.NumberEntries | main.py:194-206 | the loop over the first `maxResults` entries yields exactly the numbered items of that prefix, with titles `clean_text(str(...).strip())` and each item stamped with the clock reading taken at its own entry |
| TimeWindow.Resolve | main.py:65-120 | whatever the settings, start <= end <= now; the mode is custom range exactly when both dates parse and from-date exactly when only the start is set and parses; a duration window ends now and starts strictly before |
| TimeWindow.Fallback | main.py:109-120 | the duration window ends now and starts strictly before now |
| TimeWindow.CustomRangeVerbatim | main.py:70-88 | a parsed custom range that runs forwards and ends no later than now is returned unchanged |
| TimeWindow.CustomRangeClamp | main.py:76-81 | a custom range ends at the earlier of its end date and now, and a start after that end becomes one day before the end |
| TimeWindow.FromDateClamp | main.py:93-104 | with only a start date, the window ends now and a start in the future becomes one day before now |
| TimeWindow.MalformedRangeFallsThrough | main.py:70-93 | when both dates are set and one fails to parse, the start-only rule is skipped and the duration rule applies |
| TimeWindow.DurationWindow | main.py:109-120 | when no custom rule applies, the window covers days*24+hours hours up to now, or 24 hours when that is not positive |
| KeywordRules.LinesPartitioned | main.py:126-166 | each stripped line goes to at most one list: the list sizes plus the ignored (blank or `#`) lines equal the number of lines |
| KeywordRules.FrequencyOfAppend | main.py:131-134 | frequency words keep file order and duplicates: the words of concatenated lines are the concatenated words |
| KeywordRules.MarkedOfAppend | main.py:143-169 | the same for filter and must words |
| KeywordRules.FrequencyWordShape | main.py:131-134 | every frequency word is non-empty, neither starts nor ends with whitespace, and does not start with `#`, `!` or `+` |
| KeywordRules.FrequencyWordsFromLines | main.py:131-134 | every frequency word is a whole stripped line of the file |
| KeywordRules.StrippedEnds | main.py:132 | a non-empty stripped line neither starts nor ends with whitespace |
| KeywordRules.MarkedWordShape | main.py:143-169 | every filter or must word is a stripped line of the file with exactly its leading marker removed |
| KeywordRules.BlankContentNoRules | main.py:122-169 | empty or all-whitespace content yields three empty lists |
| Classifier.MentionedExactly | main.py:292-296 | the frequency words kept are exactly those occurring in the title, each as often as it is listed |
| Classifier.MentionedAppend | main.py:292-296 | kept words stay in list order: the matches of a concatenated list are the concatenated matches |
| Classifier.CountMentionedAll | main.py:283-290 | the must-word counter never exceeds the number of must words and reaches it exactly when all of them occur |
| Classifier.FilterPrecedence | main.py:272-280 | a non-empty title holding some filter word is filtered, `([], True)`, whatever the must and frequency words |
| Classifier.MustRejection | main.py:283-290 | an unfiltered title missing some must word is rejected, `([], False)`, even when frequency words occur |
| Classifier.EvaluatedOutcome | main.py:292-298 | with no filter hit and all must words present the result is exactly the occurring frequency words, in list order with duplicates, not filtered |
| Classifier.PairConsistent | main.py:270-298 | in every case a filtered result has no matches, and every match is a frequency word occurring in the title |
| Classifier.EmptyFilterWordFiltersAll | main.py:278-280 | an empty filter word filters every non-empty title |
| Aggregation.CountsWithinTotal | main.py:313-322 | filtered and matched items are disjoint, so the two counters add up to at most the number of items |
| Aggregation.KeywordOrderFacts | main.py:309-332 | the group keys are distinct, are exactly the keywords with a non-empty group, and are all frequency words |
| Aggregation.GroupMembersPrimary | main.py:321-332 | every entry of group `k` has `k` as its first matched keyword |
| Aggregation.GroupEmptyOutsideOrder | main.py:325 | a keyword that is not yet a key has no entries |
| Aggregation.GroupSizesMakeMatched | main.py:321-332 | the group sizes add up to the matched counter |
| Aggregation.PlatformOrderFacts | main.py:306 | the platform keys are distinct and are exactly the platforms with items |
| Aggregation.PlatformCountsMakeTotal | main.py:306 | every item is counted once under its platform: the counts add up to the number of items |
| Aggregation.AnalysisCounts | main.py:305-368 | total = number of items; filtered + matched <= total; the group keys are the key order; group sizes sum to the matched counter; platform counts sum to the total |
| Aggregation.AnalysisGroups | main.py:321-348 | the keys are distinct frequency words with non-empty groups; every entry of group `k` has first keyword `k`; each group is a permutation of its arrival-order entries, sorted by rank, with equal ranks in arrival order |
| Aggregation.RankingOrder | main.py:340-344 | ranking a popularity table gives a permutation with non-increasing counts that keeps table order among equal counts |
| Aggregation.AnalysisRanking | main.py:334-344 | the popularity table pairs every key, in key order, with the size of its group; the ranking is a permutation of it with non-increasing counts, equal counts in first-appearance order |
| Aggregation.EqualCountsKeepOrder | main.py:340-344 | a table whose counts are all equal is ranked in table order |
| Aggregation.TwoItemsGroups | main.py:321-332 | two items with different primary keywords form two one-entry groups keyed in arrival order |
| Aggregation.TwoItemsTieOrder | main.py:336-344 | of two keywords with one item each, the one whose item came first is ranked first, wherever they stand in the rule file |
| Fetching.NumberedRanks | main.py:194-206 | at most one item per entry, with ranks strictly increasing between 1 and the number of entries |
| Fetching.NumberedFromEntries | main.py:194-206 | every item is the entry at its rank: cleaned non-empty title, url, platform, and the clock reading taken at that entry |
| Fetching.IntStrRoundTrip | main.py:197 | `str` of an integer title loses nothing: its spelling reads back as the same integer |
| Fetching.NonStringTitleNotBlank | main.py:197-205 | a title (or, without one, a name) that is JSON `null`, a boolean or a number is spelled out and never blank, so the entry is not dropped before `clean_text`; a `null` title becomes `"None"` |
| Fetching.NumberedComplete | main.py:194-206 | every entry with a non-empty cleaned title appears, with its position as rank |
| Sorting.SortBy | main.py:340-348 | the sort is a permutation of its input and is ordered by the key |
| Sorting.SortByStable | main.py:340-348 | elements with equal keys keep their input order |
| Sorting.SortBySameKey | main.py:340-344 | a sequence whose elements all have the same key comes out of the stable sort unchanged |
| Text.StripShape | main.py:126-132 | `strip` leaves the slice between the leading and trailing whitespace; that slice neither starts nor ends with whitespace, and it is empty exactly when the text is all whitespace |
| Text.JoinSplitLines | main.py:131 | splitting on newlines loses nothing: joining the pieces with newlines gives the text back |
| Text.LowerAt | main.py:275-279 | lowering maps every character in place |
| Text.ContainsAtIndex | main.py:275-296 | `needle in hay` holds exactly when the needle starts at some index of the hay |
| Text.FirstCharAbsent | main.py:275-296 | a word whose first character is absent from the text does not occur in it |
| Scenarios.FilterWordExample | main.py:278-280 | with filter word 广告, the title "广告 AI" is filtered although AI is a frequency word |
| Scenarios.MustWordExample | main.py:283-290 | with must words 股市 and 下跌, the title "股市上涨" is rejected |
| Scenarios.StockRankedBeforeAi | main.py:336-344 | with frequency words AI then stock, a stock headline followed by an AI headline ranks stock first |

## Left out

- Fetching a platform's data is not modelled: the HTTP request, the JSON shape detection (`data`/`list` keys) and the exception handlers of `fetch_platform_data`. They are network and library behaviour. Only its numbering loop is modelled.
- `collect_all_data` is not modelled. It does per-platform I/O and `time.sleep` pacing. The analysis takes the collected items as its input.
- `clean_text` is a parameter of the numbering loop. It relies on `html.unescape` and Unicode regular-expression classes.
- Opening `frequency_words.txt` and its exception fallbacks are not modelled, including the built-in default keyword list on `FileNotFoundError` and the bare `except` returns. The loaders take the file content.
- `datetime.now`, `strptime` and `strftime` are not modelled. The current time and the parsed dates are inputs. The window's `description` and the result's `analysis_time` strings are formatting only.
- Text.Lower: lowers ASCII letters only; Python's `str.lower` is full Unicode case mapping.
- Text.IsSpace: lists the code points `str.isspace` accepts directly instead of consulting the Unicode database.
- Report and message rendering, the Feishu webhook POST, and HTML generation and file writes are outside the core.
- `print_summary` prints only. `print_time_config_help` prints the settings help and then runs the pipeline itself (main.py:726-758). It always collects the data (main.py:728) and stops there when nothing was collected (main.py:730-732); otherwise it analyses, sends and saves. So every `run` collects twice, and analyses, sends and saves twice only when the helper's collection found data. The model leaves the helper's run out. `Analyzer.TrendAnalyzer.Run` models the first two steps of `run` proper: store the items, then analyse them unless there are none. When there are none, the kept result is whatever was there before: in the program, the helper's result from main.py:735 when its collection found data, and otherwise the empty dict set at main.py:62. The later steps of `run` send, save and print reports.
- The two warnings `calculate_time_range` prints when a custom date fails to parse (main.py:90 and 106) are console output only. The fallthrough to the next rule that follows each of them is modelled.
- A `title` or `name` holding a JSON float, array or object is not modelled: Python's `str` spelling of those is library formatting. The `url`/`link` value is taken as text; a non-string URL value, stored unconverted by the source, is not modelled.
- The global `CONFIG` table is not read. Its values are parameters: `MAX_RESULTS_PER_PLATFORM` (a `nat`, so a negative slice bound is not modelled), `HISTORY_DAYS`, `HISTORY_HOURS` and the two custom dates. The size of `PLATFORMS` is a constructor parameter.
- Items always carry a title and a platform name, as `collect_all_data` produces them. The `item.get('title', '')` default and a missing `platform_name` key are not modelled.
- Python `datetime` range limits (overflow of `now - timedelta(...)`) are not modelled: instants are unbounded integers.
