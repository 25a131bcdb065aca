/**
  The derived views over the collection: the list filtered by search term and
  score tab, and the statistics panel computed over the whole collection.
 */
module View {
  import opened Strings
  import opened Collection

  // ---------------------------------------------------------------- filter

  /** Case-insensitive substring match on the brand or the platform. */
  predicate MatchesSearch(a: Association, term: string)
  {
    Contains(Lower(a.brand), Lower(term)) || Contains(Lower(a.platform), Lower(term))
  }

  predicate IsHigh(score: int) { score >= 7 }
  predicate IsMedium(score: int) { score >= 4 && score < 7 }
  predicate IsLow(score: int) { score < 4 }

  /** The score band a tab selects; `"all"` and any unknown tab select every score. */
  predicate InBand(tab: string, score: int)
  {
    if tab == "all" then true
    else if tab == "high" then IsHigh(score)
    else if tab == "medium" then IsMedium(score)
    else if tab == "low" then IsLow(score)
    else true
  }

  predicate Listed(a: Association, term: string, tab: string)
  {
    MatchesSearch(a, term) && InBand(tab, a.score)
  }

  /** `filteredAssociations`. */
  function FilterView(c: seq<Association>, term: string, tab: string): (r: seq<Association>)
    ensures |r| <= |c|
    ensures forall x :: x in r <==> x in c && Listed(x, term, tab)
    ensures forall x :: multiset(r)[x] == if Listed(x, term, tab) then multiset(c)[x] else 0
  {
    if |c| == 0 then []
    else
      assert c == [c[0]] + c[1..];
      (if Listed(c[0], term, tab) then [c[0]] else []) + FilterView(c[1..], term, tab)
  }

  /** `a` is `b` with some elements left out, the rest in their original order. */
  ghost predicate IsSubsequence<T>(a: seq<T>, b: seq<T>)
    decreases |b|
  {
    |a| <= |b| &&
    (|a| == 0 || (a[0] == b[0] && IsSubsequence(a[1..], b[1..])) || IsSubsequence(a, b[1..]))
  }

  /** The filtered list keeps the collection's order. */
  lemma {:induction false} FilterKeepsOrder(c: seq<Association>, term: string, tab: string)
    ensures IsSubsequence(FilterView(c, term, tab), c)
  {
    if |c| > 0 {
      FilterKeepsOrder(c[1..], term, tab);
      var r := FilterView(c, term, tab);
      if Listed(c[0], term, tab) {
        assert r[0] == c[0] && r[1..] == FilterView(c[1..], term, tab);
      } else {
        assert r == FilterView(c[1..], term, tab);
      }
    }
  }

  /** The empty search term matches every association. */
  lemma EmptySearchMatches(a: Association)
    ensures MatchesSearch(a, "")
  {
    assert Lower("") == "";
    ContainsEmpty(Lower(a.brand));
  }

  /** With the empty search term on the `"all"` tab, the whole collection is listed. */
  lemma {:induction false} EmptySearchListsAll(c: seq<Association>)
    ensures FilterView(c, "", "all") == c
  {
    if |c| > 0 {
      EmptySearchMatches(c[0]);
      assert Listed(c[0], "", "all");
      EmptySearchListsAll(c[1..]);
      assert FilterView(c, "", "all") == [c[0]] + FilterView(c[1..], "", "all");
      assert c == [c[0]] + c[1..];
    }
  }

  /** With the empty search term, a tab lists exactly the associations in its score band. */
  lemma EmptySearchSelectsBand(c: seq<Association>, tab: string, x: Association)
    ensures x in FilterView(c, "", tab) <==> x in c && InBand(tab, x.score)
  {
    EmptySearchMatches(x);
  }

  /** An unknown tab filters by the search term alone, like `"all"`. */
  lemma {:induction false} UnknownTabSearchesOnly(c: seq<Association>, term: string, tab: string)
    requires tab != "all" && tab != "high" && tab != "medium" && tab != "low"
    ensures FilterView(c, term, tab) == FilterView(c, term, "all")
  {
    if |c| > 0 {
      UnknownTabSearchesOnly(c[1..], term, tab);
    }
  }

  /** The search ignores the case of the term. */
  lemma {:induction false} SearchIgnoresCase(c: seq<Association>, term: string, tab: string)
    ensures FilterView(c, Lower(term), tab) == FilterView(c, term, tab)
  {
    LowerIdempotent(term);
    if |c| > 0 {
      SearchIgnoresCase(c[1..], term, tab);
    }
  }

  /** For a fixed search term the high, medium and low tabs split the `"all"` tab between them. */
  lemma {:induction false} BandsPartition(c: seq<Association>, term: string)
    ensures multiset(FilterView(c, term, "high")) + multiset(FilterView(c, term, "medium"))
          + multiset(FilterView(c, term, "low")) == multiset(FilterView(c, term, "all"))
    ensures |FilterView(c, term, "high")| + |FilterView(c, term, "medium")| + |FilterView(c, term, "low")|
         == |FilterView(c, term, "all")|
  {
    var h, m, l := FilterView(c, term, "high"), FilterView(c, term, "medium"), FilterView(c, term, "low");
    var all := FilterView(c, term, "all");
    forall x
      ensures (multiset(h) + multiset(m) + multiset(l))[x] == multiset(all)[x]
    {
      BandsSplitAt(c, term, x);
    }
    assert multiset(h) + multiset(m) + multiset(l) == multiset(all);
    assert |multiset(h) + multiset(m) + multiset(l)| == |h| + |m| + |l|;
  }

  /** Each association's copies under the all tab are split among exactly one of the three bands. */
  lemma BandsSplitAt(c: seq<Association>, term: string, x: Association)
    ensures multiset(FilterView(c, term, "high"))[x] + multiset(FilterView(c, term, "medium"))[x]
          + multiset(FilterView(c, term, "low"))[x] == multiset(FilterView(c, term, "all"))[x]
  {
    TabBands(x.score);
    var n, matched := multiset(c)[x], MatchesSearch(x, term);
    assert multiset(FilterView(c, term, "high"))[x] == if matched && IsHigh(x.score) then n else 0;
    assert multiset(FilterView(c, term, "medium"))[x] == if matched && IsMedium(x.score) then n else 0;
    assert multiset(FilterView(c, term, "low"))[x] == if matched && IsLow(x.score) then n else 0;
    assert multiset(FilterView(c, term, "all"))[x] == if matched then n else 0;
  }

  /** What each named tab selects. */
  lemma TabBands(score: int)
    ensures InBand("all", score)
    ensures InBand("high", score) == IsHigh(score)
    ensures InBand("medium", score) == IsMedium(score)
    ensures InBand("low", score) == IsLow(score)
  {
    assert "high"[0] != "all"[0];
    assert "medium"[0] != "all"[0] && "medium"[0] != "high"[0];
    assert "low"[0] != "all"[0] && "low"[0] != "high"[0] && "low"[0] != "medium"[0];
  }

  // ---------------------------------------------------------------- stats

  function ScoreSum(c: seq<Association>): int
  {
    if |c| == 0 then 0 else c[0].score + ScoreSum(c[1..])
  }

  /** `associations.filter(a => a.associationScore >= 7).length`. */
  function HighCount(c: seq<Association>): nat
  {
    if |c| == 0 then 0 else (if c[0].score >= 7 then 1 else 0) + HighCount(c[1..])
  }

  /** `associations.filter(a => a.associationScore < 4).length`. */
  function LowCount(c: seq<Association>): nat
  {
    if |c| == 0 then 0 else (if c[0].score < 4 then 1 else 0) + LowCount(c[1..])
  }

  /** The statistics panel; the average is exact rather than a rounded float. */
  datatype Stats = Stats(count: nat, average: real, highCount: nat, lowCount: nat)

  /** `avg` is the mean of `n` values summing to `sum`: `n` copies of it add up to `sum`. */
  predicate IsMean(avg: real, n: nat, sum: int)
  {
    n > 0 ==> avg * (n as real) == sum as real
  }

  /** The exact mean score, 0 for the empty collection. */
  function Average(c: seq<Association>): (a: real)
    ensures |c| == 0 ==> a == 0.0
    ensures IsMean(a, |c|, ScoreSum(c))
  {
    if |c| > 0 then ScoreSum(c) as real / |c| as real else 0.0
  }

  function Summarize(c: seq<Association>): (st: Stats)
    ensures st.count == |c|
    ensures st.count == 0 ==> st == Stats(0, 0.0, 0, 0)
    ensures IsMean(st.average, st.count, ScoreSum(c))
    ensures st.highCount + st.lowCount <= st.count
    // the two counts use the high and low tabs' thresholds, over the whole collection
    ensures st.highCount == |FilterView(c, "", "high")| && st.lowCount == |FilterView(c, "", "low")|
  {
    HighLowBound(c);
    PanelCountsMatchTabs(c);
    Stats(|c|, Average(c), HighCount(c), LowCount(c))
  }

  /** No association is both high and low, so the two counts never exceed the total. */
  lemma {:induction false} HighLowBound(c: seq<Association>)
    ensures HighCount(c) + LowCount(c) <= |c|
  {
    if |c| > 0 {
      HighLowBound(c[1..]);
    }
  }

  /** The panel's high count uses the high tab's threshold, over the unfiltered collection. */
  lemma {:induction false} HighCountMatchesTab(c: seq<Association>)
    ensures HighCount(c) == |FilterView(c, "", "high")|
  {
    if |c| > 0 {
      EmptySearchMatches(c[0]);
      assert Listed(c[0], "", "high") == IsHigh(c[0].score);
      HighCountMatchesTab(c[1..]);
    }
  }

  /** The panel's low count uses the low tab's threshold, over the unfiltered collection. */
  lemma {:induction false} LowCountMatchesTab(c: seq<Association>)
    ensures LowCount(c) == |FilterView(c, "", "low")|
  {
    if |c| > 0 {
      EmptySearchMatches(c[0]);
      assert Listed(c[0], "", "low") == IsLow(c[0].score);
      LowCountMatchesTab(c[1..]);
    }
  }

  lemma PanelCountsMatchTabs(c: seq<Association>)
    ensures HighCount(c) == |FilterView(c, "", "high")| && LowCount(c) == |FilterView(c, "", "low")|
  {
    HighCountMatchesTab(c);
    LowCountMatchesTab(c);
  }

  lemma {:induction false} SumBounds(c: seq<Association>, lo: int, hi: int)
    requires forall i | 0 <= i < |c| :: lo <= c[i].score <= hi
    ensures lo * |c| <= ScoreSum(c) <= hi * |c|
  {
    if |c| > 0 {
      SumBounds(c[1..], lo, hi);
    }
  }

  lemma QuotientBounds(sum: int, n: nat, lo: int, hi: int)
    requires n > 0 && lo * n <= sum <= hi * n
    ensures lo as real <= sum as real / n as real <= hi as real
  {
    var q := sum as real / n as real;
    assert q * (n as real) == sum as real;
    assert (lo as real) * (n as real) <= q * (n as real) <= (hi as real) * (n as real);
  }

  /** The average lies between the lowest and the highest score. */
  lemma AverageWithinScores(c: seq<Association>, lo: int, hi: int)
    requires |c| > 0
    requires forall i | 0 <= i < |c| :: lo <= c[i].score <= hi
    ensures lo as real <= Summarize(c).average <= hi as real
  {
    SumBounds(c, lo, hi);
    QuotientBounds(ScoreSum(c), |c|, lo, hi);
  }
}
