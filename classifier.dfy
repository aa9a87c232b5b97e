/**
 * Classification of one headline title against the rule set (`match_keywords`).
 * Every comparison is case-insensitive substring containment: the lowered word occurs
 * in the lowered title.
 */
module Classifier {
  import opened Text
  import opened KeywordRules

  /** The four ways `match_keywords` can end. Python returns a (matches, is_filtered) pair;
      `Pair` projects onto it, where the first three outcomes without matches collapse. */
  datatype Outcome =
    | Untitled                          // empty title: ([], False) before any rule runs
    | Filtered                          // a filter word occurs: ([], True)
    | Rejected                          // some must word is missing: ([], False)
    | Evaluated(matches: seq<string>)   // the frequency words that occur, in list order
  {
    /** The matched keywords the caller sees. */
    function Hits(): seq<string> {
      if Evaluated? then matches else []
    }

    /** The Python return value `(matched_words, is_filtered)`. */
    function Pair(): (seq<string>, bool) {
      (Hits(), Filtered?)
    }
  }

  /** `word.lower() in title_lower`. */
  predicate Mentions(titleLower: string, word: string) {
    Contains(titleLower, Lower(word))
  }

  predicate AnyMentioned(titleLower: string, words: seq<string>) {
    exists i :: 0 <= i < |words| && Mentions(titleLower, words[i])
  }

  predicate AllMentioned(titleLower: string, words: seq<string>) {
    forall i :: 0 <= i < |words| ==> Mentions(titleLower, words[i])
  }

  /** How many of `words` (counted with repetition) occur in the title. */
  function CountMentioned(titleLower: string, words: seq<string>): nat {
    if words == [] then 0
    else CountMentioned(titleLower, words[..|words| - 1])
         + (if Mentions(titleLower, words[|words| - 1]) then 1 else 0)
  }

  /** The words that occur in the title: exactly the occurring ones, each as often as in
      `words`, in the order of `words`. */
  function Mentioned(titleLower: string, words: seq<string>): (r: seq<string>)
    ensures |r| <= |words|
  {
    if words == [] then []
    else
      var last := words[|words| - 1];
      Mentioned(titleLower, words[..|words| - 1]) + (if Mentions(titleLower, last) then [last] else [])
  }

  /** `Mentioned` keeps exactly the occurring words, each as often as it is listed. */
  lemma {:induction false} MentionedExactly(titleLower: string, words: seq<string>)
    ensures forall w :: w in Mentioned(titleLower, words) <==> w in words && Mentions(titleLower, w)
    ensures forall w ::
      multiset(Mentioned(titleLower, words))[w] == (if Mentions(titleLower, w) then multiset(words)[w] else 0)
  {
    if words != [] {
      var init := words[..|words| - 1];
      var last := words[|words| - 1];
      MentionedExactly(titleLower, init);
      assert words == init + [last];
      assert forall w :: w in words <==> w in init || w == last;
    }
  }

  /** Mentioned words keep their list order: the matches of a concatenation are the
      matches of its parts, concatenated. */
  lemma {:induction false} MentionedAppend(titleLower: string, a: seq<string>, b: seq<string>)
    ensures Mentioned(titleLower, a + b) == Mentioned(titleLower, a) + Mentioned(titleLower, b)
  {
    if b == [] {
      assert a + b == a;
    } else {
      assert (a + b)[..|a + b| - 1] == a + b[..|b| - 1];
      MentionedAppend(titleLower, a, b[..|b| - 1]);
    }
  }

  /** What `match_keywords(title)` decides under `rules`. */
  function Classify(title: string, rules: RuleSet): Outcome {
    if title == [] then Untitled
    else
      var t := Lower(title);
      if AnyMentioned(t, rules.filter) then Filtered
      else if |rules.must| > 0 && !AllMentioned(t, rules.must) then Rejected
      else Evaluated(Mentioned(t, rules.frequency))
  }

  /** The must-word counter reaches the number of must words exactly when all of them
      occur; it never exceeds it. */
  lemma {:induction false} CountMentionedAll(titleLower: string, words: seq<string>)
    ensures CountMentioned(titleLower, words) <= |words|
    ensures CountMentioned(titleLower, words) == |words| <==> AllMentioned(titleLower, words)
  {
    if words != [] {
      var init := words[..|words| - 1];
      CountMentionedAll(titleLower, init);
      assert forall i :: 0 <= i < |init| ==> init[i] == words[i];
    }
  }

  /** Filter words win: if one occurs in a non-empty title, the title is filtered,
      whatever the must and frequency words are. */
  lemma FilterPrecedence(title: string, rules: RuleSet, i: nat)
    requires title != []
    requires i < |rules.filter| && Mentions(Lower(title), rules.filter[i])
    ensures Classify(title, rules) == Filtered
    ensures Classify(title, rules).Pair() == ([], true)
  {
  }

  /** A missing must word rejects an unfiltered title even when frequency words occur;
      a rejection is never reported as filtered. */
  lemma MustRejection(title: string, rules: RuleSet, i: nat)
    requires title != [] && !AnyMentioned(Lower(title), rules.filter)
    requires i < |rules.must| && !Mentions(Lower(title), rules.must[i])
    ensures Classify(title, rules) == Rejected
    ensures Classify(title, rules).Pair() == ([], false)
  {
  }

  /** Without a filter hit and with every must word present, the outcome is exactly the
      frequency words that occur, in list order, duplicates kept, not filtered. */
  lemma EvaluatedOutcome(title: string, rules: RuleSet)
    requires title != [] && !AnyMentioned(Lower(title), rules.filter)
    requires AllMentioned(Lower(title), rules.must)
    ensures Classify(title, rules) == Evaluated(Mentioned(Lower(title), rules.frequency))
    ensures Classify(title, rules).Pair() == (Mentioned(Lower(title), rules.frequency), false)
  {
  }

  /** In every case a filtered result carries no matches, and every match is a frequency
      word that occurs in the title. */
  lemma PairConsistent(title: string, rules: RuleSet)
    ensures Classify(title, rules).Pair().1 ==> Classify(title, rules).Pair().0 == []
    ensures forall w :: w in Classify(title, rules).Hits() ==>
      w in rules.frequency && Mentions(Lower(title), w)
  {
    MentionedExactly(Lower(title), rules.frequency);
  }

  /** An empty filter word (a rule line consisting of `!` alone) filters every non-empty
      title, because the empty string occurs in every string. */
  lemma EmptyFilterWordFiltersAll(title: string, rules: RuleSet)
    requires title != [] && [] in rules.filter
    ensures Classify(title, rules) == Filtered
  {
    var i :| 0 <= i < |rules.filter| && rules.filter[i] == [];
    EmptyContained(Lower(title));
    assert Lower(rules.filter[i]) == [];
  }
}
