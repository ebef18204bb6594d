/** The analytics on the insights page (`InsightsPage.tsx`): the entries of the
    chosen time range, the per-mood counts, the per-activity counts and the
    five most frequent activities. The counting dictionaries are `Tally`
    tables built by loops over the entries. */
module InsightsPage {
  import opened Seqs
  import opened Calendar
  import opened Types
  import opened Tally
  import opened Sorting
  import MoodHistory

  /** `subDays(new Date(), days)`: the same time of day `days` days before `now`. */
  function RangeStart(now: int, days: int): int
  {
    now - days * DayMs
  }

  /** `filteredEntries`: the entries whose timestamp is at or after the start of
      the range, in their original order. An entry without a usable timestamp
      compares false and is dropped. */
  function FilteredEntries(entries: seq<MoodEntry>, now: int, days: int): (r: seq<MoodEntry>)
    ensures forall i :: 0 <= i < |r| ==>
              r[i] in entries && r[i].timestamp.Some? && r[i].timestamp.value >= now - days * DayMs
    ensures forall i :: (0 <= i < |entries| && entries[i].timestamp.Some? &&
                         entries[i].timestamp.value >= now - days * DayMs) ==> entries[i] in r
  {
    Filter(entries, (e: MoodEntry) => MoodHistory.OnOrAfter(e, RangeStart(now, days)))
  }

  /** The range keeps the entries in their order, and a shorter range keeps
      a subsequence of what a longer one keeps. */
  lemma {:induction false} FilteredEntriesSpec(entries: seq<MoodEntry>, now: int, days: int, longer: int)
    requires days <= longer
    ensures Subseq(FilteredEntries(entries, now, days), entries)
    ensures Subseq(FilteredEntries(entries, now, days), FilteredEntries(entries, now, longer))
  {
    var p := (e: MoodEntry) => MoodHistory.OnOrAfter(e, RangeStart(now, days));
    var q := (e: MoodEntry) => MoodHistory.OnOrAfter(e, RangeStart(now, longer));
    assert RangeStart(now, longer) <= RangeStart(now, days);
    FilterIsSubseq(entries, p);
    FilterWeaker(entries, p, q);
  }

  /** `moodCounts`: one increment per entry. Each mood is counted as often as
      it occurs, the keys are the distinct moods in first-seen order, and the
      counts add up to the number of entries. */
  method MoodCounts(entries: seq<MoodEntry>) returns (counts: seq<(string, nat)>)
    ensures forall m :: Lookup(counts, m) == Occurrences(Moods(entries), m)
    ensures KeysOf(counts) == Distinct(Moods(entries))
    ensures Total(counts) == |entries|
  {
    counts := [];
    var i := 0;
    while i < |entries|
      invariant 0 <= i <= |entries|
      invariant counts == CountAll(Moods(entries)[..i])
    {
      CountAllSnoc(Moods(entries)[..i], entries[i].mood);
      assert Moods(entries)[..i + 1] == Moods(entries)[..i] + [entries[i].mood];
      counts := Bump(counts, entries[i].mood);
      i := i + 1;
    }
    assert Moods(entries)[..i] == Moods(entries);
    CountAllSpec(Moods(entries));
  }

  /** `activityCounts`: one increment per activity of each entry. */
  method ActivityCounts(entries: seq<MoodEntry>) returns (counts: seq<(string, nat)>)
    ensures counts == CountAll(AllActivities(entries))
    ensures forall a :: Lookup(counts, a) == Occurrences(AllActivities(entries), a)
    ensures KeysOf(counts) == Distinct(AllActivities(entries))
    ensures Total(counts) == |AllActivities(entries)|
  {
    counts := [];
    var i := 0;
    while i < |entries|
      invariant 0 <= i <= |entries|
      invariant counts == CountAll(AllActivities(entries[..i]))
    {
      counts := BumpAll(counts, AllActivities(entries[..i]), entries[i].activities);
      AllActivitiesSnoc(entries[..i], entries[i]);
      assert entries[..i + 1] == entries[..i] + [entries[i]];
      i := i + 1;
    }
    assert entries[..i] == entries;
    CountAllSpec(AllActivities(entries));
  }

  /** `sortedActivities`: the pairs of the table sorted by decreasing count,
      cut to the first five. */
  function SortedActivities(counts: seq<(string, nat)>): seq<(string, nat)>
  {
    Take(SortByCountDesc(counts), 5)
  }

  /** At most five pairs (all of them when the table is shorter), each a pair
      of the table, in non-increasing count order. */
  lemma {:induction false} SortedActivitiesSpec(counts: seq<(string, nat)>)
    ensures |SortedActivities(counts)| == if |counts| < 5 then |counts| else 5
    ensures SortedDesc(SortedActivities(counts), Count)
    ensures forall i :: 0 <= i < |SortedActivities(counts)| ==> SortedActivities(counts)[i] in counts
  {
    var sorted := SortByCountDesc(counts);
    var r := SortedActivities(counts);
    SortSpec(counts, Count);
    SortLength(counts, Count);
    forall i | 0 <= i < |r| ensures r[i] in counts {
      assert r[i] == sorted[i];
      assert r[i] in multiset(sorted);
    }
  }

  /** No pair left out has a larger count than a pair kept. */
  lemma {:induction false} SortedActivitiesTop(counts: seq<(string, nat)>, p: (string, nat))
    requires p in counts && p !in SortedActivities(counts)
    ensures forall i :: 0 <= i < |SortedActivities(counts)| ==> SortedActivities(counts)[i].1 >= p.1
  {
    var sorted := SortByCountDesc(counts);
    var r := SortedActivities(counts);
    SortSpec(counts, Count);
    assert p in multiset(sorted);
    var j :| 0 <= j < |sorted| && sorted[j] == p;
    assert j >= |r|;
    forall i | 0 <= i < |r| ensures r[i].1 >= p.1 {
      assert r[i] == sorted[i];
    }
  }

  /** Pairs of equal count keep their table order: for every count, the kept
      pairs of that count are the first ones of that count in the table. */
  lemma SortedActivitiesStable(counts: seq<(string, nat)>)
    ensures forall c :: WithKey(SortedActivities(counts), Count, c) <= WithKey(counts, Count, c)
  {
    TakeSortedStable(counts, Count, 5);
  }
}
