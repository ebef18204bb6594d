/** The server's mood analyser (`moods/ai/engine.py`): it loads a user's
    entries of the last thirty days and derives from them the mood
    distribution, the activity counts, the activity/intensity correlations,
    the dominant mood, the intensity statistics and the suggestion texts.
    The Pearson coefficient (scipy's `pearsonr`, rounded to two decimals) of
    two vectors that are not constant is a parameter; when either vector is
    constant `pearsonr` gives NaN, which the model tracks itself. */
module Engine {
  import opened Wrappers
  import opened Seqs
  import opened Text
  import opened Sorting
  import opened Tally
  import opened Calendar
  import opened Types

  const LookbackDays: int := 30

  /** `timezone.now() - timedelta(days=lookback_days)`. */
  function WindowStart(now: int, lookbackDays: int): int
  {
    now - lookbackDays * DayMs
  }

  /** The filter of `_load_data`: the user's entries at or after `start`. */
  predicate InWindow(e: MoodEntry, user: int, start: int)
  {
    e.user == user && e.timestamp.Some? && e.timestamp.value >= start
  }

  function Window(table: seq<MoodEntry>, user: int, start: int): seq<MoodEntry>
  {
    Filter(table, (e: MoodEntry) => InWindow(e, user, start))
  }

  /** `_load_data`: the rows of the data frame, in the model's default order. */
  function LoadData(table: seq<MoodEntry>, user: int, now: int, lookbackDays: int): seq<MoodEntry>
  {
    NewestFirst(Window(table, user, WindowStart(now, lookbackDays)))
  }

  /** The rows are exactly the user's entries of the window, each as often as
      in the table, newest first. */
  lemma LoadDataSpec(table: seq<MoodEntry>, user: int, now: int, lookbackDays: int)
    ensures multiset(LoadData(table, user, now, lookbackDays)) ==
              multiset(Window(table, user, WindowStart(now, lookbackDays)))
    ensures forall e :: e in LoadData(table, user, now, lookbackDays) <==>
              e in table && InWindow(e, user, WindowStart(now, lookbackDays))
    ensures SortedDesc(LoadData(table, user, now, lookbackDays), Stamp)
  {
    var w := Window(table, user, WindowStart(now, lookbackDays));
    SortSpec(w, Stamp);
    var rows := LoadData(table, user, now, lookbackDays);
    forall e ensures e in rows <==> e in w {
      assert e in rows <==> e in multiset(rows);
      assert e in w <==> e in multiset(w);
    }
  }

  // ---------------------------------------------------------------------
  // Mood distribution and activity statistics

  /** `_calculate_mood_distribution`: `value_counts()`, most frequent first;
      moods of equal count are listed in the order they are first seen. */
  function MoodDistribution(rows: seq<MoodEntry>): seq<(string, nat)>
  {
    SortByCountDesc(CountAll(Moods(rows)))
  }

  /** Each mood of the rows appears with its number of rows, the counts do not
      increase from left to right and add up to the number of rows; no rows,
      no distribution. */
  lemma MoodDistributionSpec(rows: seq<MoodEntry>)
    ensures SortedDesc(MoodDistribution(rows), Count)
    ensures forall i :: 0 <= i < |MoodDistribution(rows)| ==>
              MoodDistribution(rows)[i].1 == Occurrences(Moods(rows), MoodDistribution(rows)[i].0)
    ensures forall m :: m in Moods(rows) <==> m in KeysOf(MoodDistribution(rows))
    ensures Total(MoodDistribution(rows)) == |rows|
    ensures rows == [] <==> MoodDistribution(rows) == []
  {
    SortedCountsSpec(Moods(rows));
  }

  /** `_calculate_activity_stats`: one increment per listed activity of each
      row, then the pairs sorted by decreasing count. */
  method ActivityStats(rows: seq<MoodEntry>) returns (stats: seq<(string, nat)>)
    ensures stats == SortByCountDesc(CountAll(AllActivities(rows)))
  {
    var counts: seq<(string, nat)> := [];
    var i := 0;
    while i < |rows|
      invariant 0 <= i <= |rows|
      invariant counts == CountAll(AllActivities(rows[..i]))
    {
      var acts := rows[i].activities;
      ActivitiesStep(rows, i);
      if |acts| > 0 {
        counts := BumpAll(counts, AllActivities(rows[..i]), acts);
      }
      i := i + 1;
    }
    assert rows[..i] == rows;
    stats := SortByCountDesc(counts);
  }

  /** The activities of one more row follow those of the rows before it. */
  lemma ActivitiesStep(rows: seq<MoodEntry>, i: int)
    requires 0 <= i < |rows|
    ensures AllActivities(rows[..i + 1]) == AllActivities(rows[..i]) + rows[i].activities
    ensures rows[i].activities == [] ==> AllActivities(rows[..i + 1]) == AllActivities(rows[..i])
  {
    AllActivitiesSnoc(rows[..i], rows[i]);
    assert rows[..i + 1] == rows[..i] + [rows[i]];
    assert AllActivities(rows[..i]) + [] == AllActivities(rows[..i]);
  }

  /** Each activity appears with the number of times the rows list it, in
      non-increasing count order, activities of equal count in first-seen
      order, and the counts add up to the number of listed activities. */
  lemma ActivityStatsSpec(rows: seq<MoodEntry>)
    ensures var stats := SortByCountDesc(CountAll(AllActivities(rows)));
            SortedDesc(stats, Count) &&
            (forall i :: 0 <= i < |stats| ==> stats[i].1 == Occurrences(AllActivities(rows), stats[i].0)) &&
            (forall a :: a in AllActivities(rows) <==> a in KeysOf(stats)) &&
            Total(stats) == |AllActivities(rows)| &&
            (forall c :: WithKey(stats, Count, c) == WithKey(CountAll(AllActivities(rows)), Count, c)) &&
            KeysOf(CountAll(AllActivities(rows))) == Distinct(AllActivities(rows))
  {
    SortedCountsSpec(AllActivities(rows));
    SortSpec(CountAll(AllActivities(rows)), Count);
    CountAllSpec(AllActivities(rows));
  }

  // ---------------------------------------------------------------------
  // Correlations

  /** The presence vector of an activity: one slot per row, 1 when the row
      lists the activity. */
  function Presence(rows: seq<MoodEntry>, a: string): seq<int>
  {
    Map(rows, (r: MoodEntry) => if a in r.activities then 1 else 0)
  }

  /** `df['intensity'].tolist()`. */
  function Intensities(rows: seq<MoodEntry>): seq<int>
  {
    Map(rows, (r: MoodEntry) => r.intensity)
  }

  /** The presence vector adds up to the number of rows listing the activity. */
  lemma {:induction false} PresenceSum(rows: seq<MoodEntry>, a: string)
    ensures Sum(Presence(rows, a)) == CountWhere(rows, (r: MoodEntry) => a in r.activities)
  {
    if rows != [] {
      PresenceSum(rows[1..], a);
      assert Presence(rows, a) == [Presence(rows, a)[0]] + Presence(rows[1..], a);
    }
  }

  lemma PresenceSnoc(rows: seq<MoodEntry>, i: int, a: string)
    requires 0 <= i < |rows|
    ensures Presence(rows[..i + 1], a) == Presence(rows[..i], a) + [if a in rows[i].activities then 1 else 0]
  {
  }

  /** The rounded coefficient of a presence vector and the intensities, for
      vectors of the same length neither of which is constant. */
  type Pearson = (seq<int>, seq<int>) -> real

  /** A vector whose values are all equal. */
  predicate Constant(v: seq<int>)
  {
    forall i :: 0 <= i < |v| ==> v[i] == v[0]
  }

  /** `sum(presence) >= 3`: the activity's coefficient is computed. */
  predicate Eligible(rows: seq<MoodEntry>, a: string)
  {
    Sum(Presence(rows, a)) >= 3
  }

  /** `pearsonr` gives NaN: the presence vector or the intensities are
      constant. With two vectors of one slot per row and at least four rows,
      `pearsonr` raises nothing, so the `except` around it never skips. */
  predicate Undefined(rows: seq<MoodEntry>, a: string)
  {
    Constant(Presence(rows, a)) || Constant(Intensities(rows))
  }

  /** The activity is eligible and its coefficient is a number. */
  predicate Correlated(rows: seq<MoodEntry>, a: string)
  {
    Eligible(rows, a) && !Undefined(rows, a)
  }

  /** The table would hold a NaN: some eligible activity of four or more rows
      has an undefined coefficient. `json.dumps` writes it as `NaN`, which no
      database's JSON column accepts, so creating the insight raises. */
  predicate Unstorable(rows: seq<MoodEntry>)
  {
    |rows| >= 4 && exists a :: a in AllActivities(rows) && Eligible(rows, a) && Undefined(rows, a)
  }

  /** A presence vector of some row listing the activity is constant exactly
      when every row lists it. */
  lemma ConstantPresence(rows: seq<MoodEntry>, a: string)
    requires Eligible(rows, a)
    ensures Constant(Presence(rows, a)) <==> forall i :: 0 <= i < |rows| ==> a in rows[i].activities
  {
    PresenceSum(rows, a);
    var p := Presence(rows, a);
    if Constant(p) {
      var k :| 0 <= k < |rows| && a in rows[k].activities;
      forall i | 0 <= i < |rows| ensures a in rows[i].activities {
        assert p[i] == p[0] == p[k];
      }
    }
  }

  /** Four or more rows that all list one activity: its presence vector is
      constant, so the insight cannot be stored. */
  lemma AlwaysListedUnstorable(rows: seq<MoodEntry>, a: string)
    requires |rows| >= 4
    requires forall i :: 0 <= i < |rows| ==> a in rows[i].activities
    ensures Unstorable(rows)
  {
    PresenceSum(rows, a);
    var lists := Map(rows, (e: MoodEntry) => e.activities);
    FlattenSpec(lists);
    assert a in lists[0];
    assert a in AllActivities(rows);
    var p := Presence(rows, a);
    forall i | 0 <= i < |p| ensures p[i] == p[0] {
    }
  }

  /** Some activity of `acts` is eligible and has a NaN coefficient. */
  predicate AnyUndefined(rows: seq<MoodEntry>, acts: seq<string>)
  {
    exists j :: 0 <= j < |acts| && Eligible(rows, acts[j]) && Undefined(rows, acts[j])
  }

  lemma AnyUndefinedSnoc(rows: seq<MoodEntry>, acts: seq<string>, k: int)
    requires 0 <= k < |acts|
    ensures AnyUndefined(rows, acts[..k + 1]) <==>
              AnyUndefined(rows, acts[..k]) || (Eligible(rows, acts[k]) && Undefined(rows, acts[k]))
  {
    if AnyUndefined(rows, acts[..k + 1]) {
      var j :| 0 <= j < k + 1 && Eligible(rows, acts[..k + 1][j]) && Undefined(rows, acts[..k + 1][j]);
      if j < k {
        assert acts[..k][j] == acts[j];
      }
    }
    if AnyUndefined(rows, acts[..k]) {
      var j :| 0 <= j < k && Eligible(rows, acts[..k][j]) && Undefined(rows, acts[..k][j]);
      assert acts[..k + 1][j] == acts[j];
    }
    if Eligible(rows, acts[k]) && Undefined(rows, acts[k]) {
      assert acts[..k + 1][k] == acts[k];
    }
  }

  /** Over the distinct activities of four or more rows, a NaN is an
      unstorable table. */
  lemma AnyUndefinedDistinct(rows: seq<MoodEntry>)
    requires |rows| >= 4
    ensures AnyUndefined(rows, Distinct(AllActivities(rows))) <==> Unstorable(rows)
  {
    var unique := Distinct(AllActivities(rows));
    DistinctSpec(AllActivities(rows));
    if AnyUndefined(rows, unique) {
      var j :| 0 <= j < |unique| && Eligible(rows, unique[j]) && Undefined(rows, unique[j]);
      assert unique[j] in AllActivities(rows);
    }
    if Unstorable(rows) {
      var a :| a in AllActivities(rows) && Eligible(rows, a) && Undefined(rows, a);
      var j :| 0 <= j < |unique| && unique[j] == a;
    }
  }

  /** The insight cannot be stored exactly when there are four or more rows
      and some activity listed in at least three of them is listed in every
      row, or all rows have the same intensity. */
  lemma UnstorableIff(rows: seq<MoodEntry>)
    ensures Unstorable(rows) <==>
              |rows| >= 4 &&
              exists a :: a in AllActivities(rows) && Eligible(rows, a) &&
                ((forall i :: 0 <= i < |rows| ==> a in rows[i].activities) ||
                 (forall i :: 0 <= i < |rows| ==> rows[i].intensity == rows[0].intensity))
  {
    forall a | Eligible(rows, a)
      ensures Undefined(rows, a) <==>
                (forall i :: 0 <= i < |rows| ==> a in rows[i].activities) ||
                (forall i :: 0 <= i < |rows| ==> rows[i].intensity == rows[0].intensity)
    {
      ConstantPresence(rows, a);
    }
  }

  /** The activities of a correlation table, in order. */
  function ActivitiesOf(c: seq<(string, real)>): seq<string>
  {
    Map(c, (p: (string, real)) => p.0)
  }

  /** The correlation table over `activities`, in their order. */
  function Coefficients(rows: seq<MoodEntry>, activities: seq<string>, pearson: Pearson): seq<(string, real)>
  {
    if activities == [] then []
    else
      var init := Coefficients(rows, activities[..|activities| - 1], pearson);
      var a := activities[|activities| - 1];
      if Correlated(rows, a)
      then init + [(a, pearson(Presence(rows, a), Intensities(rows)))]
      else init
  }

  /** The table over one more activity adds that activity's pair when it is
      correlated. */
  lemma CoefficientsSnoc(rows: seq<MoodEntry>, activities: seq<string>, k: int, pearson: Pearson)
    requires 0 <= k < |activities|
    ensures Coefficients(rows, activities[..k + 1], pearson) ==
              Coefficients(rows, activities[..k], pearson) +
              (if Correlated(rows, activities[k])
               then [(activities[k], pearson(Presence(rows, activities[k]), Intensities(rows)))]
               else [])
  {
    assert activities[..k + 1][..k] == activities[..k];
  }

  /** `_calculate_correlations`: nothing below four rows; otherwise one pair
      per distinct activity that is correlated, in the order the activities
      are first seen. */
  function CorrelationTable(rows: seq<MoodEntry>, pearson: Pearson): seq<(string, real)>
  {
    if |rows| < 4 then [] else Coefficients(rows, Distinct(AllActivities(rows)), pearson)
  }

  /** Each pair is a correlated activity of the list with its coefficient,
      and every correlated activity of the list has a pair. */
  lemma {:induction false} CoefficientsPairs(rows: seq<MoodEntry>, activities: seq<string>, pearson: Pearson)
    ensures forall i :: 0 <= i < |Coefficients(rows, activities, pearson)| ==>
              var p := Coefficients(rows, activities, pearson)[i];
              p.0 in activities && Correlated(rows, p.0) &&
              pearson(Presence(rows, p.0), Intensities(rows)) == p.1
    ensures forall a :: a in activities && Correlated(rows, a) ==>
              a in ActivitiesOf(Coefficients(rows, activities, pearson))
    decreases |activities|
  {
    if activities != [] {
      var init := activities[..|activities| - 1];
      var a := activities[|activities| - 1];
      CoefficientsPairs(rows, init, pearson);
      assert activities == init + [a];
      if Correlated(rows, a) {
        assert ActivitiesOf(Coefficients(rows, activities, pearson)) ==
               ActivitiesOf(Coefficients(rows, init, pearson)) + [a];
      }
    }
  }

  /** An activity not in the list has no pair in its table. */
  lemma CoefficientsAbsent(rows: seq<MoodEntry>, activities: seq<string>, pearson: Pearson, a: string)
    requires a !in activities
    ensures a !in ActivitiesOf(Coefficients(rows, activities, pearson))
  {
    var c := Coefficients(rows, activities, pearson);
    CoefficientsPairs(rows, activities, pearson);
    forall i | 0 <= i < |c| ensures ActivitiesOf(c)[i] != a {
      assert c[i].0 in activities;
    }
  }

  /** A list without repeats gives a table without repeated activities. */
  lemma {:induction false} CoefficientsNoDup(rows: seq<MoodEntry>, activities: seq<string>, pearson: Pearson)
    requires NoDup(activities)
    ensures NoDup(ActivitiesOf(Coefficients(rows, activities, pearson)))
    decreases |activities|
  {
    if activities != [] {
      var init := activities[..|activities| - 1];
      var a := activities[|activities| - 1];
      assert activities == init + [a];
      assert NoDup(init);
      CoefficientsNoDup(rows, init, pearson);
      var c0 := Coefficients(rows, init, pearson);
      if Correlated(rows, a) {
        assert ActivitiesOf(Coefficients(rows, activities, pearson)) == ActivitiesOf(c0) + [a];
        assert a !in init;
        CoefficientsAbsent(rows, init, pearson, a);
        NoDupSnoc(ActivitiesOf(c0), a);
      }
    }
  }

  lemma CoefficientsSpec(rows: seq<MoodEntry>, activities: seq<string>, pearson: Pearson)
    ensures forall i :: 0 <= i < |Coefficients(rows, activities, pearson)| ==>
              var p := Coefficients(rows, activities, pearson)[i];
              p.0 in activities && Correlated(rows, p.0) &&
              pearson(Presence(rows, p.0), Intensities(rows)) == p.1
    ensures forall a :: a in activities && Correlated(rows, a) ==>
              a in ActivitiesOf(Coefficients(rows, activities, pearson))
    ensures NoDup(activities) ==> NoDup(ActivitiesOf(Coefficients(rows, activities, pearson)))
  {
    CoefficientsPairs(rows, activities, pearson);
    if NoDup(activities) {
      CoefficientsNoDup(rows, activities, pearson);
    }
  }

  /** A pair per activity listed in at least three of four or more rows whose
      coefficient is a number, each activity once, holding that coefficient; no
      other pair. */
  lemma CorrelationTableSpec(rows: seq<MoodEntry>, pearson: Pearson)
    ensures |rows| < 4 ==> CorrelationTable(rows, pearson) == []
    ensures forall i :: 0 <= i < |CorrelationTable(rows, pearson)| ==>
              var p := CorrelationTable(rows, pearson)[i];
              |rows| >= 4 && p.0 in AllActivities(rows) && Correlated(rows, p.0) &&
              pearson(Presence(rows, p.0), Intensities(rows)) == p.1
    ensures forall a :: |rows| >= 4 && a in AllActivities(rows) && Correlated(rows, a) ==>
              a in ActivitiesOf(CorrelationTable(rows, pearson))
    ensures NoDup(ActivitiesOf(CorrelationTable(rows, pearson)))
  {
    if |rows| >= 4 {
      DistinctSpec(AllActivities(rows));
      CoefficientsSpec(rows, Distinct(AllActivities(rows)), pearson);
    }
  }

  /** `unique_activities`: the activities of all rows, each once. The set's
      iteration order is taken to be first-seen order. */
  method UniqueActivities(rows: seq<MoodEntry>) returns (unique: seq<string>)
    ensures unique == Distinct(AllActivities(rows))
  {
    unique := [];
    var i := 0;
    while i < |rows|
      invariant 0 <= i <= |rows|
      invariant unique == Distinct(AllActivities(rows[..i]))
    {
      ActivitiesStep(rows, i);
      unique := AppendNew(unique, AllActivities(rows[..i]), rows[i].activities);
      i := i + 1;
    }
    assert rows[..i] == rows;
  }

  /** One row's activities, each appended when not listed yet. */
  method AppendNew(unique: seq<string>, ghost done: seq<string>, acts: seq<string>) returns (r: seq<string>)
    requires unique == Distinct(done)
    ensures r == Distinct(done + acts)
  {
    r := unique;
    var j := 0;
    assert done + acts[..j] == done;
    while j < |acts|
      invariant 0 <= j <= |acts|
      invariant r == Distinct(done + acts[..j])
    {
      var s := done + acts[..j + 1];
      assert s[..|s| - 1] == done + acts[..j];
      if acts[j] !in r {
        r := r + [acts[j]];
      }
      j := j + 1;
    }
    assert acts[..j] == acts;
  }

  /** The presence list of `a` in the `defaultdict`, empty while absent. */
  function Get(presence: map<string, seq<int>>, a: string): seq<int>
  {
    if a in presence then presence[a] else []
  }

  /** One more row of the presence lists: every activity of the list gets
      its slot for row `i`. */
  method AppendRow(presence: map<string, seq<int>>, rows: seq<MoodEntry>, i: int, activities: seq<string>)
    returns (r: map<string, seq<int>>)
    requires 0 <= i < |rows| && NoDup(activities)
    requires forall k :: 0 <= k < |activities| ==> Get(presence, activities[k]) == Presence(rows[..i], activities[k])
    ensures forall k :: 0 <= k < |activities| ==> Get(r, activities[k]) == Presence(rows[..i + 1], activities[k])
    ensures forall k :: 0 <= k < |activities| ==> activities[k] in r
  {
    r := presence;
    var j := 0;
    while j < |activities|
      invariant 0 <= j <= |activities|
      invariant forall k :: 0 <= k < j ==> Get(r, activities[k]) == Presence(rows[..i + 1], activities[k])
      invariant forall k :: j <= k < |activities| ==> Get(r, activities[k]) == Presence(rows[..i], activities[k])
      invariant forall k :: 0 <= k < j ==> activities[k] in r
    {
      var a := activities[j];
      PresenceSnoc(rows, i, a);
      r := r[a := Get(r, a) + [if a in rows[i].activities then 1 else 0]];
      j := j + 1;
    }
  }

  /** The presence lists, built row by row: every activity of the list gets
      one slot per row, and once there is a row every activity has a list. */
  method ActivityPresence(rows: seq<MoodEntry>, activities: seq<string>)
    returns (presence: map<string, seq<int>>)
    requires NoDup(activities)
    ensures forall a :: a in activities ==> Get(presence, a) == Presence(rows, a)
    ensures |rows| > 0 ==> forall a :: a in activities ==> a in presence
  {
    presence := map[];
    var i := 0;
    while i < |rows|
      invariant 0 <= i <= |rows|
      invariant forall k :: 0 <= k < |activities| ==> Get(presence, activities[k]) == Presence(rows[..i], activities[k])
      invariant i > 0 ==> forall k :: 0 <= k < |activities| ==> activities[k] in presence
    {
      presence := AppendRow(presence, rows, i, activities);
      i := i + 1;
    }
    assert rows[..i] == rows;
  }

  /** One activity's turn in `_calculate_correlations`: with at least three
      occurrences its coefficient joins the table when it is a number, and is
      a NaN otherwise. */
  method Coefficient(rows: seq<MoodEntry>, a: string, pearson: Pearson, p: seq<int>, intensities: seq<int>)
    returns (pair: seq<(string, real)>, nan: bool)
    requires p == Presence(rows, a) && intensities == Intensities(rows)
    ensures pair == if Correlated(rows, a) then [(a, pearson(Presence(rows, a), Intensities(rows)))] else []
    ensures nan <==> Eligible(rows, a) && Undefined(rows, a)
  {
    pair, nan := [], false;
    if Sum(p) >= 3 {
      if Constant(p) || Constant(intensities) {
        nan := true;
      } else {
        pair := [(a, pearson(p, intensities))];
      }
    }
  }

  /** `_calculate_correlations`. The numeric coefficients go to `corr`; a
      NaN one sets `hasNaN` instead, the table the source returns then
      holding that NaN. */
  method Correlations(rows: seq<MoodEntry>, pearson: Pearson) returns (corr: seq<(string, real)>, hasNaN: bool)
    ensures corr == CorrelationTable(rows, pearson)
    ensures hasNaN <==> Unstorable(rows)
  {
    if |rows| < 4 {
      return [], false;
    }
    var unique := UniqueActivities(rows);
    DistinctSpec(AllActivities(rows));
    var presence := ActivityPresence(rows, unique);
    var intensities := Intensities(rows);
    corr, hasNaN := [], false;
    var k := 0;
    assert !AnyUndefined(rows, unique[..0]);
    while k < |unique|
      invariant 0 <= k <= |unique|
      invariant corr == Coefficients(rows, unique[..k], pearson)
      invariant hasNaN == AnyUndefined(rows, unique[..k])
    {
      var a := unique[k];
      assert Get(presence, a) == Presence(rows, a);
      var p := presence[a];
      CoefficientsSnoc(rows, unique, k, pearson);
      AnyUndefinedSnoc(rows, unique, k);
      var pair, nan := Coefficient(rows, a, pearson, p, intensities);
      corr, hasNaN := corr + pair, hasNaN || nan;
      k := k + 1;
    }
    assert unique[..k] == unique;
    AnyUndefinedDistinct(rows);
  }

  // ---------------------------------------------------------------------
  // Dominant mood and intensity statistics

  /** Among `candidates`, the most frequent in `all`, the smallest string among
      the most frequent. */
  function ModeAmong(all: seq<string>, candidates: seq<string>): string
    requires candidates != []
    decreases |candidates|
  {
    if |candidates| == 1 then candidates[0]
    else
      var m := ModeAmong(all, candidates[1..]);
      var c := candidates[0];
      if Occurrences(all, c) > Occurrences(all, m) ||
         (Occurrences(all, c) == Occurrences(all, m) && LexLess(c, m))
      then c else m
  }

  lemma {:induction false} ModeAmongSpec(all: seq<string>, candidates: seq<string>)
    requires candidates != []
    ensures ModeAmong(all, candidates) in candidates
    ensures forall x :: x in candidates ==> Occurrences(all, x) <= Occurrences(all, ModeAmong(all, candidates))
    ensures forall x :: (x in candidates && x != ModeAmong(all, candidates) &&
                         Occurrences(all, x) == Occurrences(all, ModeAmong(all, candidates))) ==>
              LexLess(ModeAmong(all, candidates), x)
    decreases |candidates|
  {
    if |candidates| > 1 {
      var rest := candidates[1..];
      ModeAmongSpec(all, rest);
      var m := ModeAmong(all, rest);
      var c := candidates[0];
      assert candidates == [c] + rest;
      if ModeAmong(all, candidates) == c && c != m {
        assert Occurrences(all, c) >= Occurrences(all, m);
        forall x | x in rest && x != c && Occurrences(all, x) == Occurrences(all, c)
          ensures LexLess(c, x)
        {
          assert Occurrences(all, c) == Occurrences(all, m);
          assert LexLess(c, m);
          if x != m {
            LexLessTransitive(c, m, x);
          }
        }
      } else if ModeAmong(all, candidates) == m {
        if c != m && Occurrences(all, c) == Occurrences(all, m) {
          LexLessTotal(c, m);
        }
      }
    }
  }

  /** `df['mood'].mode()[0]`: the modes come sorted, so the first is the
      smallest of the most frequent moods. */
  function DominantMood(rows: seq<MoodEntry>): (m: string)
    requires rows != []
  {
    ModeAmong(Moods(rows), Moods(rows))
  }

  /** The dominant mood is a mood of the rows, no mood is more frequent, and
      it precedes every other mood of the same count. */
  lemma DominantMoodSpec(rows: seq<MoodEntry>)
    requires rows != []
    ensures DominantMood(rows) in Moods(rows)
    ensures forall m :: m in Moods(rows) ==> Occurrences(Moods(rows), m) <= Occurrences(Moods(rows), DominantMood(rows))
    ensures forall m :: (m in Moods(rows) && m != DominantMood(rows) &&
                         Occurrences(Moods(rows), m) == Occurrences(Moods(rows), DominantMood(rows))) ==>
              LexLess(DominantMood(rows), m)
  {
    ModeAmongSpec(Moods(rows), Moods(rows));
  }

  /** `intensity_stats`: the mean (before its rounding to one decimal), the
      largest and the smallest intensity. */
  datatype IntensityStats = IntensityStats(average: real, max: int, min: int)

  function MaxOf(xs: seq<int>): (m: int)
    requires xs != []
    ensures m in xs && forall i :: 0 <= i < |xs| ==> xs[i] <= m
  {
    if |xs| == 1 then xs[0]
    else var r := MaxOf(xs[1..]); if xs[0] >= r then xs[0] else r
  }

  function MinOf(xs: seq<int>): (m: int)
    requires xs != []
    ensures m in xs && forall i :: 0 <= i < |xs| ==> m <= xs[i]
  {
    if |xs| == 1 then xs[0]
    else var r := MinOf(xs[1..]); if xs[0] <= r then xs[0] else r
  }

  function Stats(rows: seq<MoodEntry>): IntensityStats
    requires rows != []
  {
    var xs := Intensities(rows);
    IntensityStats(Sum(xs) as real / |xs| as real, MaxOf(xs), MinOf(xs))
  }

  lemma {:induction false} SumBounds(xs: seq<int>, lo: int, hi: int)
    requires forall i :: 0 <= i < |xs| ==> lo <= xs[i] <= hi
    ensures |xs| * lo <= Sum(xs) <= |xs| * hi
  {
    if xs != [] {
      SumBounds(xs[1..], lo, hi);
    }
  }

  /** Multiplying by a positive number keeps the order. */
  lemma ScaleMonotone(a: real, b: real, n: real)
    requires n > 0.0
    ensures a < b <==> a * n < b * n
  {
    assert b * n - a * n == (b - a) * n;
  }

  lemma MeanBounds(s: int, n: int, lo: int, hi: int)
    requires n > 0 && n * lo <= s <= n * hi
    ensures lo as real <= s as real / n as real <= hi as real
  {
    var q := s as real / n as real;
    assert q * n as real == s as real;
    assert (n * lo) as real == lo as real * n as real;
    assert (n * hi) as real == hi as real * n as real;
    ScaleMonotone(q, lo as real, n as real);
    ScaleMonotone(hi as real, q, n as real);
  }

  /** The smallest intensity is at most the mean, the mean at most the largest. */
  lemma StatsOrdered(rows: seq<MoodEntry>)
    requires rows != []
    ensures Stats(rows).min as real <= Stats(rows).average <= Stats(rows).max as real
  {
    var xs := Intensities(rows);
    SumBounds(xs, MinOf(xs), MaxOf(xs));
    MeanBounds(Sum(xs), |xs|, MinOf(xs), MaxOf(xs));
  }

  // ---------------------------------------------------------------------
  // Suggestions

  const LowIntensityMessage: string :=
    "Your average mood intensity is low. Consider engaging in uplifting activities."

  function MostFrequentMessage(mood: string, count: nat): string
  {
    "Your most frequent mood was " + mood + " (" + NatToString(count) + " times)."
  }

  function KeepUpMessage(activity: string): string
  {
    "Keep up with " + activity + ", it's positively impacting your mood!"
  }

  function ReduceMessage(activity: string): string
  {
    "Consider reducing " + activity + " as it correlates with lower moods."
  }

  /** Python's `max` with a key: the first pair of largest count. */
  function FirstMaxIndex(d: seq<(string, nat)>): (k: nat)
    requires d != []
    ensures k < |d|
    ensures forall i :: 0 <= i < |d| ==> d[i].1 <= d[k].1
    ensures forall i :: 0 <= i < k ==> d[i].1 < d[k].1
  {
    if |d| == 1 then 0
    else
      var k := FirstMaxIndex(d[1..]);
      if d[0].1 >= d[k + 1].1 then 0 else k + 1
  }

  /** The suggestion about the most frequent mood, when there is one with a
      non-empty name. */
  function TopMoodSuggestion(dist: seq<(string, nat)>): seq<string>
  {
    if dist == [] then []
    else
      var p := dist[FirstMaxIndex(dist)];
      if p.0 != "" then [MostFrequentMessage(p.0, p.1)] else []
  }

  /** Above 0.4 the activity is encouraged, below -0.4 discouraged. */
  function CorrelationSuggestion(p: (string, real)): seq<string>
  {
    if p.1 > 0.4 then [KeepUpMessage(p.0)]
    else if p.1 < -0.4 then [ReduceMessage(p.0)]
    else []
  }

  function CorrelationSuggestions(corr: seq<(string, real)>): seq<string>
  {
    Flatten(Map(corr, CorrelationSuggestion))
  }

  /** `round(average, 1) < 2.5`: the mean rounds below 2.5 exactly when it is
      below 2.45. */
  predicate LowIntensity(s: IntensityStats)
  {
    s.average < 49.0 / 20.0
  }

  /** `_generate_suggestions`: the texts in the order they are created. */
  function Suggestions(dist: seq<(string, nat)>, corr: seq<(string, real)>, stats: IntensityStats): seq<string>
  {
    TopMoodSuggestion(dist) + CorrelationSuggestions(corr) +
    (if LowIntensity(stats) then [LowIntensityMessage] else [])
  }

  lemma CorrelationSuggestionsSnoc(corr: seq<(string, real)>, p: (string, real))
    ensures CorrelationSuggestions(corr + [p]) == CorrelationSuggestions(corr) + CorrelationSuggestion(p)
  {
    assert Map(corr + [p], CorrelationSuggestion) == Map(corr, CorrelationSuggestion) + [CorrelationSuggestion(p)];
    FlattenAppend(Map(corr, CorrelationSuggestion), [CorrelationSuggestion(p)]);
    assert Flatten([CorrelationSuggestion(p)]) == CorrelationSuggestion(p) + Flatten([]);
  }

  /** The suggestions of one more correlation follow those before it. */
  lemma CorrelationStep(corr: seq<(string, real)>, i: int)
    requires 0 <= i < |corr|
    ensures CorrelationSuggestions(corr[..i + 1]) == CorrelationSuggestions(corr[..i]) + CorrelationSuggestion(corr[i])
  {
    CorrelationSuggestionsSnoc(corr[..i], corr[i]);
    assert corr[..i + 1] == corr[..i] + [corr[i]];
  }

  /** `_generate_suggestions`, building the list step by step. */
  method GenerateSuggestions(dist: seq<(string, nat)>, corr: seq<(string, real)>, stats: IntensityStats)
    returns (suggestions: seq<string>)
    ensures suggestions == Suggestions(dist, corr, stats)
  {
    suggestions := [];
    if dist != [] {
      var k := FirstMaxIndex(dist);
      if dist[k].0 != "" {
        suggestions := suggestions + [MostFrequentMessage(dist[k].0, dist[k].1)];
      }
    }
    suggestions := SuggestFromCorrelations(suggestions, corr);
    if LowIntensity(stats) {
      suggestions := suggestions + [LowIntensityMessage];
    }
  }

  /** The loop over the correlations: one suggestion appended per strong one. */
  method SuggestFromCorrelations(init: seq<string>, corr: seq<(string, real)>) returns (suggestions: seq<string>)
    ensures suggestions == init + CorrelationSuggestions(corr)
  {
    suggestions := init;
    var i := 0;
    assert corr[..i] == [];
    while i < |corr|
      invariant 0 <= i <= |corr|
      invariant suggestions == init + CorrelationSuggestions(corr[..i])
    {
      CorrelationStep(corr, i);
      if corr[i].1 > 0.4 {
        suggestions := suggestions + [KeepUpMessage(corr[i].0)];
      } else if corr[i].1 < -0.4 {
        suggestions := suggestions + [ReduceMessage(corr[i].0)];
      }
      i := i + 1;
    }
    assert corr[..i] == corr;
  }

  /** A strong correlation: above 0.4 or below -0.4. */
  predicate Strong(p: (string, real))
  {
    p.1 > 0.4 || p.1 < -0.4
  }

  /** One correlation suggestion per strong correlation, naming its activity,
      in the table's order. */
  lemma {:induction false} CorrelationSuggestionsSpec(corr: seq<(string, real)>)
    ensures |CorrelationSuggestions(corr)| == CountWhere(corr, Strong)
    ensures forall i :: 0 <= i < |corr| && corr[i].1 > 0.4 ==> KeepUpMessage(corr[i].0) in CorrelationSuggestions(corr)
    ensures forall i :: 0 <= i < |corr| && corr[i].1 < -0.4 ==> ReduceMessage(corr[i].0) in CorrelationSuggestions(corr)
  {
    if corr != [] {
      CorrelationSuggestionsSpec(corr[1..]);
      assert Map(corr, CorrelationSuggestion) == [CorrelationSuggestion(corr[0])] + Map(corr[1..], CorrelationSuggestion);
      assert CorrelationSuggestions(corr) == CorrelationSuggestion(corr[0]) + CorrelationSuggestions(corr[1..]);
      forall i | 1 <= i < |corr| ensures corr[i] == corr[1..][i - 1] { }
    }
  }

  /** The rounded mean is below 2.5 exactly when `20 * sum < 49 * count`. */
  lemma LowIntensityIff(rows: seq<MoodEntry>)
    requires rows != []
    ensures LowIntensity(Stats(rows)) <==> 20 * Sum(Intensities(rows)) < 49 * |rows|
  {
    MeanBelow(Sum(Intensities(rows)), |rows|);
  }

  lemma MeanBelow(s: int, n: int)
    requires n > 0
    ensures s as real / n as real < 49.0 / 20.0 <==> 20 * s < 49 * n
  {
    var q := s as real / n as real;
    assert q * n as real == s as real;
    assert (20 * s) as real == 20.0 * s as real;
    assert (49 * n) as real == 49.0 * n as real;
    ScaleMonotone(q, 49.0 / 20.0, 20.0 * n as real);
  }

  /** Over a sorted distribution the first pair is the most frequent. */
  lemma FirstMaxOfSorted(dist: seq<(string, nat)>)
    requires dist != [] && SortedDesc(dist, Count)
    ensures FirstMaxIndex(dist) == 0
  {
    var k := FirstMaxIndex(dist);
    assert Count(dist[0]) >= Count(dist[k]);
  }

  /** The pair `max` picks from the rows' distribution holds a mood of the
      rows that no other mood outnumbers, with its count. */
  lemma TopOfDistribution(rows: seq<MoodEntry>)
    requires rows != []
    ensures MoodDistribution(rows) != []
    ensures var dist := MoodDistribution(rows);
            var p := dist[FirstMaxIndex(dist)];
            p.0 in Moods(rows) && p.1 == Occurrences(Moods(rows), p.0) &&
            forall x :: x in Moods(rows) ==> Occurrences(Moods(rows), x) <= p.1
  {
    MoodDistributionSpec(rows);
    FirstMaxOfCounts(MoodDistribution(rows), Moods(rows));
  }

  /** In a table holding each value of `xs` with its number of occurrences,
      the pair `max` picks holds a value no other value outnumbers. */
  lemma FirstMaxOfCounts(d: seq<(string, nat)>, xs: seq<string>)
    requires d != []
    requires forall i :: 0 <= i < |d| ==> d[i].1 == Occurrences(xs, d[i].0)
    requires forall m :: m in xs <==> m in KeysOf(d)
    ensures d[FirstMaxIndex(d)].0 in xs && d[FirstMaxIndex(d)].1 == Occurrences(xs, d[FirstMaxIndex(d)].0)
    ensures forall x :: x in xs ==> Occurrences(xs, x) <= d[FirstMaxIndex(d)].1
  {
    var k := FirstMaxIndex(d);
    assert KeysOf(d)[k] == d[k].0;
    forall x | x in xs ensures Occurrences(xs, x) <= d[k].1 {
      var j :| 0 <= j < |d| && KeysOf(d)[j] == x;
      assert d[j].1 <= d[k].1;
    }
  }

  /** For the rows' distribution the mood suggestion names a mood of the rows
      that no other mood outnumbers, with its true count, and that count is
      the dominant mood's count too. */
  lemma TopMoodSuggestionSpec(rows: seq<MoodEntry>)
    requires rows != [] && forall i :: 0 <= i < |rows| ==> rows[i].mood != ""
    ensures exists m :: m in Moods(rows) &&
              TopMoodSuggestion(MoodDistribution(rows)) == [MostFrequentMessage(m, Occurrences(Moods(rows), m))] &&
              (forall x :: x in Moods(rows) ==> Occurrences(Moods(rows), x) <= Occurrences(Moods(rows), m)) &&
              Occurrences(Moods(rows), m) == Occurrences(Moods(rows), DominantMood(rows))
  {
    var dist := MoodDistribution(rows);
    TopOfDistribution(rows);
    DominantMoodSpec(rows);
    var m := dist[FirstMaxIndex(dist)].0;
    assert m in Moods(rows);
    assert m != "";
  }

  // ---------------------------------------------------------------------
  // The insight

  /** A value held by a `DateField` of a model instance: a date (a day
      number), or the datetime it was given (an instant), which Django turns
      into a date only when it writes the row. */
  datatype DateValue = Date(day: int) | DateTime(instant: int)

  /** The period values `_create_insight_object` hands to `create`:
      `timezone.now()` less the lookback, and `timezone.now()`. Both are
      datetimes, and the instance `create` returns keeps them as given. */
  function CreatedPeriods(now: int): (DateValue, DateValue)
  {
    (DateTime(WindowStart(now, LookbackDays)), DateTime(now))
  }

  /** An `AIMoodInsight` row with its suggestions. The periods are day
      numbers, as the row stores them. */
  datatype Insight = Insight(
    user: int,
    periodStart: int,
    periodEnd: int,
    moodDistribution: seq<(string, nat)>,
    topActivities: seq<(string, nat)>,
    activityCorrelations: seq<(string, real)>,
    dominantMood: string,
    intensityStats: IntensityStats,
    suggestions: seq<string>)

  /** The insight the analyser builds for `user` at instant `now` from the
      rows of its window. */
  function InsightOf(rows: seq<MoodEntry>, user: int, now: int, pearson: Pearson): Insight
    requires rows != []
  {
    var dist := MoodDistribution(rows);
    var corr := CorrelationTable(rows, pearson);
    var stats := Stats(rows);
    Insight(user, DayNumber(WindowStart(now, LookbackDays)), DayNumber(now), dist,
            SortByCountDesc(CountAll(AllActivities(rows))), corr, DominantMood(rows), stats,
            Suggestions(dist, corr, stats))
  }

  /** `generate_insights` for `user` at instant `now`: nothing when the window
      holds no entry or the insight cannot be stored, otherwise the insight
      built from the rows. */
  method GenerateInsights(table: seq<MoodEntry>, user: int, now: int, pearson: Pearson)
    returns (insight: Option<Insight>)
    ensures insight.None? <==> LoadData(table, user, now, LookbackDays) == [] ||
                               Unstorable(LoadData(table, user, now, LookbackDays))
    ensures insight.Some? ==>
              var rows := LoadData(table, user, now, LookbackDays);
              var i := insight.value;
              rows != [] &&
              i.user == user && i.periodStart == DayNumber(WindowStart(now, LookbackDays)) &&
              i.periodEnd == DayNumber(now) &&
              i.moodDistribution == MoodDistribution(rows) &&
              i.topActivities == SortByCountDesc(CountAll(AllActivities(rows))) &&
              i.activityCorrelations == CorrelationTable(rows, pearson) &&
              i.dominantMood == DominantMood(rows) &&
              i.intensityStats == Stats(rows) &&
              i.suggestions == Suggestions(i.moodDistribution, i.activityCorrelations, i.intensityStats)
    ensures insight.Some? ==> insight.value == InsightOf(LoadData(table, user, now, LookbackDays), user, now, pearson)
  {
    var rows := LoadData(table, user, now, LookbackDays);
    if rows == [] {
      return None;
    }
    insight := Analyse(rows, user, now, pearson);
  }

  /** The `try` block of `generate_insights` past the empty check: the
      insight of the rows, or nothing when creating it raises. */
  method Analyse(rows: seq<MoodEntry>, user: int, now: int, pearson: Pearson)
    returns (insight: Option<Insight>)
    requires rows != []
    ensures insight.None? <==> Unstorable(rows)
    ensures insight.Some? ==> insight.value == InsightOf(rows, user, now, pearson)
  {
    var dist := MoodDistribution(rows);
    var top := ActivityStats(rows);
    var corr, hasNaN := Correlations(rows, pearson);
    if hasNaN {
      // `create` raises on the NaN, and the `except` returns None
      return None;
    }
    var i := Build(rows, user, now, pearson, dist, top, corr);
    insight := Some(i);
  }

  /** The insight object and its suggestions, from the parts computed so
      far. */
  method Build(rows: seq<MoodEntry>, user: int, now: int, pearson: Pearson,
               dist: seq<(string, nat)>, top: seq<(string, nat)>, corr: seq<(string, real)>)
    returns (insight: Insight)
    requires rows != []
    requires dist == MoodDistribution(rows) && top == SortByCountDesc(CountAll(AllActivities(rows)))
    requires corr == CorrelationTable(rows, pearson)
    ensures insight == InsightOf(rows, user, now, pearson)
  {
    var stats := Stats(rows);
    var suggestions := GenerateSuggestions(dist, corr, stats);
    insight := Insight(user, DayNumber(WindowStart(now, LookbackDays)), DayNumber(now),
                       dist, top, corr, DominantMood(rows), stats, suggestions);
  }
}
