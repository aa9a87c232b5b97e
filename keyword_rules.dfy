/**
 * The keyword rule file (frequency_words.txt) and how its lines become the three word
 * lists: `!word` lines are filter words, `+word` lines are must words, every other
 * non-blank line that does not start with `#` is a frequency word. The loaders read the
 * whole file, strip it, split it on '\n' and strip every line before looking at it.
 */
module KeywordRules {
  import opened Text

  /** The three word lists, each in file order, duplicates kept. */
  datatype RuleSet = RuleSet(frequency: seq<string>, filter: seq<string>, must: seq<string>)

  const FilterMarker := '!'
  const MustMarker := '+'
  const CommentMarker := '#'

  /** The lines the loaders iterate over: `content.strip().split('\n')`. */
  function RuleLines(content: string): seq<string> {
    SplitLines(Strip(content))
  }

  /** A stripped line that is kept as a frequency word. */
  predicate IsFrequencyLine(line: string) {
    line != [] && line[0] != CommentMarker && line[0] != FilterMarker && line[0] != MustMarker
  }

  /** A stripped line that no list takes. */
  predicate IsIgnoredLine(line: string) {
    line == [] || line[0] == CommentMarker
  }

  /** The frequency words of `lines`: each kept line, stripped. */
  function FrequencyOf(lines: seq<string>): seq<string> {
    if lines == [] then []
    else
      var line := Strip(lines[|lines| - 1]);
      FrequencyOf(lines[..|lines| - 1]) + (if IsFrequencyLine(line) then [line] else [])
  }

  /** The words of `lines` that start with `marker` once stripped, the marker cut off
      (`line[1:]`, with no further trimming). */
  function MarkedOf(lines: seq<string>, marker: char): seq<string> {
    if lines == [] then []
    else
      var line := Strip(lines[|lines| - 1]);
      MarkedOf(lines[..|lines| - 1], marker) + (if line != [] && line[0] == marker then [line[1..]] else [])
  }

  /** `load_frequency_words`: an all-blank file yields no words. */
  function FrequencyWords(content: string): seq<string> {
    if Strip(content) == [] then [] else FrequencyOf(RuleLines(content))
  }

  /** The rule set the analyzer builds from one file content. */
  function LoadRules(content: string): RuleSet {
    RuleSet(FrequencyWords(content),
            MarkedOf(RuleLines(content), FilterMarker),
            MarkedOf(RuleLines(content), MustMarker))
  }

  /** The number of lines that no list takes. */
  function IgnoredCount(lines: seq<string>): nat {
    if lines == [] then 0
    else IgnoredCount(lines[..|lines| - 1]) + (if IsIgnoredLine(Strip(lines[|lines| - 1])) then 1 else 0)
  }

  /** Every line lands in exactly one list or is ignored: the list sizes and the ignored
      lines add up to the number of lines. */
  lemma {:induction false} LinesPartitioned(lines: seq<string>)
    ensures |FrequencyOf(lines)| + |MarkedOf(lines, FilterMarker)| + |MarkedOf(lines, MustMarker)|
            + IgnoredCount(lines) == |lines|
  {
    if lines != [] {
      LinesPartitioned(lines[..|lines| - 1]);
    }
  }

  /** Concatenating line sequences concatenates their frequency words: file order and
      duplicates are kept. */
  lemma {:induction false} FrequencyOfAppend(a: seq<string>, b: seq<string>)
    ensures FrequencyOf(a + b) == FrequencyOf(a) + FrequencyOf(b)
  {
    if b == [] {
      assert a + b == a;
    } else {
      assert (a + b)[..|a + b| - 1] == a + b[..|b| - 1];
      FrequencyOfAppend(a, b[..|b| - 1]);
    }
  }

  /** The same for the marked (filter or must) words. */
  lemma {:induction false} MarkedOfAppend(a: seq<string>, b: seq<string>, marker: char)
    ensures MarkedOf(a + b, marker) == MarkedOf(a, marker) + MarkedOf(b, marker)
  {
    if b == [] {
      assert a + b == a;
    } else {
      assert (a + b)[..|a + b| - 1] == a + b[..|b| - 1];
      MarkedOfAppend(a, b[..|b| - 1], marker);
    }
  }

  /** A non-empty stripped line neither starts nor ends with whitespace. */
  lemma StrippedEnds(line: string)
    requires Strip(line) != []
    ensures !IsSpace(Strip(line)[0]) && !IsSpace(Strip(line)[|Strip(line)| - 1])
  {
    StripShape(line);
  }

  /** Every frequency word is non-empty, neither starts nor ends with whitespace, and
      does not start with a marker or `#`. */
  lemma {:induction false} FrequencyWordShape(lines: seq<string>)
    ensures forall w :: w in FrequencyOf(lines) ==>
      IsFrequencyLine(w) && !IsSpace(w[0]) && !IsSpace(w[|w| - 1])
  {
    if lines != [] {
      var n := |lines|;
      var init := lines[..n - 1];
      var last := Strip(lines[n - 1]);
      FrequencyWordShape(init);
      assert FrequencyOf(lines) == FrequencyOf(init) + (if IsFrequencyLine(last) then [last] else []);
      forall w | w in FrequencyOf(lines) ensures IsFrequencyLine(w) && !IsSpace(w[0]) && !IsSpace(w[|w| - 1]) {
        if w !in FrequencyOf(init) {
          assert w == last;
          StrippedEnds(lines[n - 1]);
        }
      }
    }
  }

  /** Every frequency word is a whole stripped line of the file. */
  lemma {:induction false} FrequencyWordsFromLines(lines: seq<string>)
    ensures forall w :: w in FrequencyOf(lines) ==> exists j :: 0 <= j < |lines| && Strip(lines[j]) == w
  {
    if lines != [] {
      var n := |lines|;
      var init := lines[..n - 1];
      FrequencyWordsFromLines(init);
      forall w | w in FrequencyOf(lines) ensures exists j :: 0 <= j < n && Strip(lines[j]) == w {
        if w in FrequencyOf(init) {
          var j :| 0 <= j < |init| && Strip(init[j]) == w;
          assert lines[j] == init[j];
        } else {
          assert Strip(lines[n - 1]) == w;
        }
      }
    }
  }

  /** Every marked word is some stripped line with exactly its first character, the
      marker, removed. */
  lemma {:induction false} MarkedWordShape(lines: seq<string>, marker: char)
    ensures forall w :: w in MarkedOf(lines, marker) ==>
      exists j :: 0 <= j < |lines| && Strip(lines[j]) == [marker] + w
  {
    if lines != [] {
      var init := lines[..|lines| - 1];
      MarkedWordShape(init, marker);
      forall w | w in MarkedOf(init, marker)
        ensures exists j :: 0 <= j < |lines| && Strip(lines[j]) == [marker] + w
      {
        var j :| 0 <= j < |init| && Strip(init[j]) == [marker] + w;
        assert lines[j] == init[j];
      }
      var line := Strip(lines[|lines| - 1]);
      if line != [] && line[0] == marker {
        assert line == [marker] + line[1..];
      }
    }
  }

  /** A file that is empty or all whitespace yields three empty lists. */
  lemma BlankContentNoRules(content: string)
    requires forall i :: 0 <= i < |content| ==> IsSpace(content[i])
    ensures LoadRules(content) == RuleSet([], [], [])
  {
    StripShape(content);
    var lines := RuleLines(content);
    assert lines == [[]];
    assert lines[..0] == [];
    assert Strip(lines[0]) == [];
    assert FrequencyWords(content) == [];
    assert MarkedOf(lines, FilterMarker) == [];
    assert MarkedOf(lines, MustMarker) == [];
  }
}
