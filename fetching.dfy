/**
 * The numbering step of `fetch_platform_data`: the decoded list of one platform is cut
 * to the first `maxResults` entries, entry `i` (from 1) gets rank `i`, and entries whose
 * cleaned title is empty are dropped, so ranks keep their gaps. The HTTP request, the
 * shape of the JSON reply and `clean_text` are outside the model; `clean` stands for
 * `clean_text`, and `stampOf(i)` for the clock reading the loop takes at entry `i`.
 */
module Fetching {
  import opened Wrappers
  import opened Text

  /** The scalar JSON values a title or name field can hold. */
  datatype JsonValue = JStr(s: string) | JNull | JBool(b: bool) | JInt(i: int)

  /** One decoded entry of a platform's reply: the keys the loop looks at (`None` when
      the key is absent). */
  datatype RawEntry = RawEntry(title: Option<JsonValue>, name: Option<JsonValue>, url: Option<string>, link: Option<string>)

  /** One numbered item of a platform. */
  datatype Fetched = Fetched(title: string, url: string, rank: nat, platformId: string, timestamp: string)

  /** The decimal digit for `d`. */
  function DigitChar(d: nat): char
    requires d < 10
  {
    ('0' as int + d) as char
  }

  /** The value of a decimal digit character. */
  function DigitValue(c: char): int {
    c as int - '0' as int
  }

  /** The decimal spelling of `n`, without leading zeros. */
  function NatStr(n: nat): (r: string)
    ensures r != []
    ensures forall j :: 0 <= j < |r| ==> '0' <= r[j] <= '9'
  {
    if n < 10 then [DigitChar(n)] else NatStr(n / 10) + [DigitChar(n % 10)]
  }

  /** Python's `str(i)` for an integer. */
  function IntStr(i: int): string {
    if i < 0 then "-" + NatStr(-i) else NatStr(i)
  }

  /** Reads a string of decimal digits back as a number. */
  function DecimalValue(s: string): int {
    if s == [] then 0 else 10 * DecimalValue(s[..|s| - 1]) + DigitValue(s[|s| - 1])
  }

  /** Reads Python's spelling of an integer back. */
  function IntValue(s: string): int {
    if s != [] && s[0] == '-' then -DecimalValue(s[1..]) else DecimalValue(s)
  }

  /** Reading the decimal spelling gives the number back. */
  lemma {:induction false} NatStrValue(n: nat)
    ensures DecimalValue(NatStr(n)) == n
  {
    if n >= 10 {
      var r := NatStr(n / 10) + [DigitChar(n % 10)];
      assert r[..|r| - 1] == NatStr(n / 10);
      NatStrValue(n / 10);
    }
  }

  /** `str` on integers loses nothing: the spelling reads back as the same integer. */
  lemma IntStrRoundTrip(i: int)
    ensures IntValue(IntStr(i)) == i
  {
    if i < 0 {
      NatStrValue(-i);
      assert IntStr(i)[1..] == NatStr(-i);
    } else {
      NatStrValue(i);
    }
  }

  /** Python's `str(v)` of a scalar JSON value: `null` is `"None"`, booleans are
      `"True"`/`"False"`, integers are their decimal spelling. */
  function PyStr(v: JsonValue): string {
    match v
    case JStr(s) => s
    case JNull => "None"
    case JBool(b) => if b then "True" else "False"
    case JInt(i) => IntStr(i)
  }

  /** `str(item.get('title', item.get('name', '')))` */
  function RawTitle(e: RawEntry): string {
    PyStr(if e.title.Some? then e.title.value else e.name.GetOr(JStr([])))
  }

  /** A title or name that is not a string is spelled out, never blank: a JSON `null`
      title becomes `"None"` and a numeric one its digits, so neither is dropped for being
      empty before `clean_text`. */
  lemma NonStringTitleNotBlank(e: RawEntry)
    requires e.title.Some? ==> !e.title.value.JStr?
    requires e.title.None? ==> e.name.Some? && !e.name.value.JStr?
    ensures Strip(RawTitle(e)) == RawTitle(e) != []
    ensures e.title == Some(JNull) ==> RawTitle(e) == "None"
  {
    var t := RawTitle(e);
    assert t != [] && !IsSpace(t[0]) && !IsSpace(t[|t| - 1]);
  }

  /** `item.get('url', item.get('link', ''))` */
  function RawUrl(e: RawEntry): string {
    if e.url.Some? then e.url.value else e.link.GetOr([])
  }

  /** The cleaned title of entry `e`: `clean_text(str(...).strip())`. */
  function CleanTitle(e: RawEntry, clean: string -> string): string {
    clean(Strip(RawTitle(e)))
  }

  /** `CleanTitle` as a function value, the title step `Numbered` is used with. */
  function TitleCleaner(clean: string -> string): RawEntry -> string {
    e => CleanTitle(e, clean)
  }

  /** The items numbered from `entries`, the last entry getting rank `|entries|`;
      `titleOf` gives an entry's cleaned title and `stampOf(i)` the time entry `i` is
      stamped with. */
  function Numbered(entries: seq<RawEntry>, titleOf: RawEntry -> string, platformId: string, stampOf: nat -> string): seq<Fetched> {
    if entries == [] then []
    else
      var e := entries[|entries| - 1];
      var title := titleOf(e);
      Numbered(entries[..|entries| - 1], titleOf, platformId, stampOf)
      + (if title != [] then [Fetched(title, RawUrl(e), |entries|, platformId, stampOf(|entries|))] else [])
  }

  /** Ranks strictly increase from left to right and lie between 1 and `n`. */
  ghost predicate RanksIncreasing(r: seq<Fetched>, n: nat) {
    && (forall j :: 0 <= j < |r| ==> 1 <= r[j].rank <= n)
    && (forall i, j :: 0 <= i < j < |r| ==> r[i].rank < r[j].rank)
  }

  /** Every item is the entry at its rank, with a non-empty cleaned title. */
  ghost predicate ItemsFromEntries(r: seq<Fetched>, entries: seq<RawEntry>, titleOf: RawEntry -> string, platformId: string, stampOf: nat -> string) {
    forall j :: 0 <= j < |r| ==>
      && 1 <= r[j].rank <= |entries|
      && r[j].title != []
      && r[j] == Fetched(titleOf(entries[r[j].rank - 1]), RawUrl(entries[r[j].rank - 1]),
                         r[j].rank, platformId, stampOf(r[j].rank))
  }

  /** The numbered items: at most one per entry, ranks strictly increasing between 1 and
      the number of entries. */
  lemma {:induction false} NumberedRanks(entries: seq<RawEntry>, titleOf: RawEntry -> string, platformId: string, stampOf: nat -> string)
    ensures |Numbered(entries, titleOf, platformId, stampOf)| <= |entries|
    ensures RanksIncreasing(Numbered(entries, titleOf, platformId, stampOf), |entries|)
  {
    if entries != [] {
      var n := |entries|;
      var init := entries[..n - 1];
      var r0 := Numbered(init, titleOf, platformId, stampOf);
      NumberedRanks(init, titleOf, platformId, stampOf);
      var e := entries[n - 1];
      var title := titleOf(e);
      var tail := if title != [] then [Fetched(title, RawUrl(e), n, platformId, stampOf(n))] else [];
      assert Numbered(entries, titleOf, platformId, stampOf) == r0 + tail;
      assert RanksIncreasing(r0 + tail, n) by {
        assert RanksIncreasing(r0, n - 1);
        assert forall j :: 0 <= j < |tail| ==> tail[j].rank == n;
      }
    }
  }

  /** Every numbered item is the entry at its rank, with a non-empty cleaned title. */
  lemma {:induction false} NumberedFromEntries(entries: seq<RawEntry>, titleOf: RawEntry -> string, platformId: string, stampOf: nat -> string)
    ensures ItemsFromEntries(Numbered(entries, titleOf, platformId, stampOf), entries, titleOf, platformId, stampOf)
  {
    if entries != [] {
      var n := |entries|;
      var init := entries[..n - 1];
      var r0 := Numbered(init, titleOf, platformId, stampOf);
      NumberedFromEntries(init, titleOf, platformId, stampOf);
      var e := entries[n - 1];
      var title := titleOf(e);
      var tail := if title != [] then [Fetched(title, RawUrl(e), n, platformId, stampOf(n))] else [];
      assert Numbered(entries, titleOf, platformId, stampOf) == r0 + tail;
      assert ItemsFromEntries(r0, entries, titleOf, platformId, stampOf) by {
        forall j | 0 <= j < |r0| ensures entries[r0[j].rank - 1] == init[r0[j].rank - 1] {
        }
      }
      assert ItemsFromEntries(tail, entries, titleOf, platformId, stampOf);
      assert ItemsFromEntries(r0 + tail, entries, titleOf, platformId, stampOf) by {
        forall j | 0 <= j < |r0 + tail|
          ensures (r0 + tail)[j] == if j < |r0| then r0[j] else tail[j - |r0|]
        {
        }
      }
    }
  }

  /** Every entry with a non-empty cleaned title has an item carrying its position as rank. */
  ghost predicate CoversEntries(r: seq<Fetched>, entries: seq<RawEntry>, titleOf: RawEntry -> string) {
    forall i :: 0 <= i < |entries| && titleOf(entries[i]) != [] ==>
      exists j :: 0 <= j < |r| && r[j].rank == i + 1
  }

  /** No entry with a non-empty cleaned title is lost: the entry at every such position
      appears, with that position as its rank. */
  lemma {:induction false} NumberedComplete(entries: seq<RawEntry>, titleOf: RawEntry -> string, platformId: string, stampOf: nat -> string)
    ensures CoversEntries(Numbered(entries, titleOf, platformId, stampOf), entries, titleOf)
  {
    if entries != [] {
      var n := |entries|;
      var init := entries[..n - 1];
      var r0 := Numbered(init, titleOf, platformId, stampOf);
      var r := Numbered(entries, titleOf, platformId, stampOf);
      NumberedComplete(init, titleOf, platformId, stampOf);
      var e := entries[n - 1];
      var tail := if titleOf(e) != [] then [Fetched(titleOf(e), RawUrl(e), n, platformId, stampOf(n))] else [];
      assert r == r0 + tail;
      forall i | 0 <= i < n && titleOf(entries[i]) != []
        ensures exists j :: 0 <= j < |r| && r[j].rank == i + 1
      {
        if i < n - 1 {
          assert init[i] == entries[i];
          var j :| 0 <= j < |r0| && r0[j].rank == i + 1;
          assert r[j] == r0[j];
        } else {
          assert entries[i] == e && tail != [];
          assert r[|r| - 1] == tail[0];
        }
      }
    }
  }
}
