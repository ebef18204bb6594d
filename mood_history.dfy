/** The mood history list (`MoodHistory.tsx`): the client-side mood, date and
    search filters over the store's entries, the date cutoffs, the distinct
    moods offered as filter options, the mood emoji, and the edit dialog that
    sends a partial update. */
module MoodHistory {
  import opened Wrappers
  import opened Seqs
  import opened Text
  import opened Calendar
  import opened Types
  import MoodStore

  /** The cutoff instant of a date filter, read from the wall clock `now`:
      midnight today (`setHours(0, 0, 0, 0)`), the same time seven days earlier
      (`setDate(getDate() - 7)`), the same day and time in the previous month
      (`setMonth(getMonth() - 1)`, whose day overflows into the current month
      when the previous month is shorter), or `now` itself for any other value. */
  function DateCutoff(dateFilter: string, now: LocalTime): int
    requires now.Valid()
  {
    if dateFilter == "today" then DayOf(now) * DayMs
    else if dateFilter == "week" then Instant(now) - 7 * DayMs
    else if dateFilter == "month" then (MonthStart(PrevMonth(now.month)) + now.day - 1) * DayMs + now.msOfDay
    else Instant(now)
  }

  /** Every cutoff lies at or before `now`; 'today' is the start of the current
      day, 'week' seven whole days back, and 'month' exactly as many days back as
      the previous month has. */
  lemma {:induction false} DateCutoffSpec(dateFilter: string, now: LocalTime)
    requires now.Valid()
    ensures DateCutoff(dateFilter, now) <= Instant(now)
    ensures dateFilter == "today" ==>
              DateCutoff(dateFilter, now) <= Instant(now) < DateCutoff(dateFilter, now) + DayMs &&
              DayNumber(DateCutoff(dateFilter, now)) == DayOf(now)
    ensures dateFilter == "week" ==> DateCutoff(dateFilter, now) == Instant(now) - 7 * DayMs
    ensures dateFilter == "month" ==>
              DateCutoff(dateFilter, now) == Instant(now) - MonthLength(PrevMonth(now.month)) * DayMs
  {
    var prev := PrevMonth(now.month);
    MonthsAreConsecutive(prev);
    PrevNextInverse(now.month);
    InstantOnItsDay(now);
  }

  /** On March 31st of a common year the 'month' cutoff is March 3rd at the same time:
      `setMonth` overflows February 31st. */
  lemma MonthCutoffOverflows(y: int, msOfDay: int)
    requires !IsLeap(y) && 0 <= msOfDay < DayMs
    ensures var now := LocalTime(Month(y, 2), 31, msOfDay);
            now.Valid() && DateCutoff("month", now) == Instant(LocalTime(Month(y, 2), 3, msOfDay))
  {
    DateCutoffSpec("month", LocalTime(Month(y, 2), 31, msOfDay));
  }

  /** The entry's timestamp parses and is not before the cutoff. */
  predicate OnOrAfter(e: MoodEntry, cutoff: int)
  {
    e.timestamp.Some? && e.timestamp.value >= cutoff
  }

  /** Case-insensitive search: the lower-cased term occurs in the lower-cased
      mood, notes, some tag or some activity. */
  predicate MatchesSearch(e: MoodEntry, searchTerm: string)
  {
    var term := Lower(searchTerm);
    Includes(Lower(e.mood), term) || Includes(Lower(e.notes), term)
    || (exists k :: 0 <= k < |e.tags| && Includes(Lower(e.tags[k]), term))
    || (exists k :: 0 <= k < |e.activities| && Includes(Lower(e.activities[k]), term))
  }

  /** The three filters together: an entry is shown when it passes each filter
      that is switched on. */
  predicate Shown(e: MoodEntry, moodFilter: string, dateFilter: string, cutoff: int, searchTerm: string)
  {
    (moodFilter == "all" || e.mood == moodFilter)
    && (dateFilter == "all" || OnOrAfter(e, cutoff))
    && (searchTerm == "" || MatchesSearch(e, searchTerm))
  }

  /** `filterEntries`: narrows a copy of the entries by mood, then by date, then
      by search term. The result is the entries the three filters together
      accept, in their original order. */
  method FilterEntries(entries: seq<MoodEntry>, moodFilter: string, dateFilter: string,
                       searchTerm: string, now: LocalTime)
    returns (filtered: seq<MoodEntry>)
    requires now.Valid()
    ensures filtered ==
              Filter(entries, (e: MoodEntry) =>
                Shown(e, moodFilter, dateFilter, DateCutoff(dateFilter, now), searchTerm))
    ensures Subseq(filtered, entries)
    ensures moodFilter != "all" ==> forall i :: 0 <= i < |filtered| ==> filtered[i].mood == moodFilter
    ensures moodFilter == "all" && dateFilter == "all" && searchTerm == "" ==> filtered == entries
  {
    var byMood := (e: MoodEntry) => e.mood == moodFilter;
    filtered := entries;
    if moodFilter != "all" {
      filtered := Filter(filtered, byMood);
    }

    // The cutoff is read from the clock; it only matters when a date filter is on.
    var cutoff := DateCutoff(dateFilter, now);
    var byDate := (e: MoodEntry) => OnOrAfter(e, cutoff);
    if dateFilter != "all" {
      filtered := Filter(filtered, byDate);
    }

    var bySearch := (e: MoodEntry) => MatchesSearch(e, searchTerm);
    if searchTerm != "" {
      filtered := Filter(filtered, bySearch);
    }

    var shown := (e: MoodEntry) => Shown(e, moodFilter, dateFilter, cutoff, searchTerm);
    FilterStages(entries, moodFilter != "all", byMood, dateFilter != "all", byDate,
                 searchTerm != "", bySearch, shown);
    FilterIsSubseq(entries, shown);
    if moodFilter == "all" && dateFilter == "all" && searchTerm == "" {
      FilterKeepsAll(entries, shown);
    }
  }

  /** The moods offered in the mood filter: each mood of the entries once, in
      order of first occurrence. */
  function UniqueMoods(entries: seq<MoodEntry>): (moods: seq<string>)
    ensures NoDup(moods)
    ensures forall m :: m in moods <==> exists i :: 0 <= i < |entries| && entries[i].mood == m
  {
    var all := Map(entries, (e: MoodEntry) => e.mood);
    DistinctSpec(all);
    assert forall m :: m in all <==> exists i :: 0 <= i < |entries| && entries[i].mood == m by {
      forall m ensures m in all <==> exists i :: 0 <= i < |entries| && entries[i].mood == m {
        if m in all {
          var i :| 0 <= i < |all| && all[i] == m;
          assert entries[i].mood == m;
        }
      }
    }
    Distinct(all)
  }

  /** The moods come in the order in which they first occur among the entries. */
  lemma UniqueMoodsOrder(entries: seq<MoodEntry>)
    ensures var all := Map(entries, (e: MoodEntry) => e.mood);
            forall i, j :: 0 <= i < j < |UniqueMoods(entries)| ==>
              UniqueMoods(entries)[i] in all && UniqueMoods(entries)[j] in all &&
              FirstIndex(all, UniqueMoods(entries)[i]) < FirstIndex(all, UniqueMoods(entries)[j])
  {
    var all := Map(entries, (e: MoodEntry) => e.mood);
    var u := UniqueMoods(entries);
    assert u == Distinct(all);
    DistinctSpec(all);
    forall i, j | 0 <= i < j < |u| ensures u[i] in all && u[j] in all && FirstIndex(all, u[i]) < FirstIndex(all, u[j]) {
      assert u[i] in Distinct(all) && u[j] in Distinct(all);
    }
  }

  /** `getMoodEmoji`: one emoji per mood of the vocabulary, a thinking face for anything else. */
  function MoodEmoji(mood: string): (emoji: string)
    ensures mood in MoodChoices <==> emoji != "\U{1F914}"
  {
    match mood
    case "happy" => "\U{1F60A}"
    case "calm" => "\U{1F60C}"
    case "excited" => "\U{1F603}"
    case "content" => "\U{1F642}"
    case "neutral" => "\U{1F610}"
    case "anxious" => "\U{1F630}"
    case "stressed" => "\U{1F613}"
    case "sad" => "\U{1F622}"
    case "angry" => "\U{1F620}"
    case "tired" => "\U{1F634}"
    case _ => "\U{1F914}"
  }

  /** Reading an emoji back as the mood it stands for; the empty string for
      the thinking face and anything else. */
  function EmojiMood(emoji: string): string
  {
    match emoji
    case "\U{1F60A}" => "happy"
    case "\U{1F60C}" => "calm"
    case "\U{1F603}" => "excited"
    case "\U{1F642}" => "content"
    case "\U{1F610}" => "neutral"
    case "\U{1F630}" => "anxious"
    case "\U{1F613}" => "stressed"
    case "\U{1F622}" => "sad"
    case "\U{1F620}" => "angry"
    case "\U{1F634}" => "tired"
    case _ => ""
  }

  /** The emoji of a vocabulary mood reads back as that mood. */
  lemma MoodEmojiRoundTrip(mood: string)
    requires mood in MoodChoices
    ensures EmojiMood(MoodEmoji(mood)) == mood
  {
  }

  /** Different moods of the vocabulary get different emoji. */
  lemma MoodEmojiInjective(a: string, b: string)
    requires a in MoodChoices && b in MoodChoices && a != b
    ensures MoodEmoji(a) != MoodEmoji(b)
  {
    MoodEmojiRoundTrip(a);
    MoodEmojiRoundTrip(b);
  }

  /** The body of an edit: the three edited fields and nothing else. */
  function EditPayload(mood: string, intensity: int, notes: string): (body: Body)
    ensures body.Keys == {"mood", "intensity", "notes"}
    ensures body["mood"] == JStr(mood) && body["intensity"] == JInt(intensity) && body["notes"] == JStr(notes)
  {
    map["mood" := JStr(mood), "intensity" := JInt(intensity), "notes" := JStr(notes)]
  }

  /** The edit dialog's state. */
  class EditDialog {
    var selectedEntry: Option<MoodEntry>
    var isEditModalOpen: bool
    var editMood: string
    var editIntensity: int
    var editNotes: string

    constructor()
      ensures selectedEntry == None && !isEditModalOpen
      ensures editMood == "" && editIntensity == 3 && editNotes == ""
    {
      selectedEntry := None;
      isEditModalOpen := false;
      editMood := "";
      editIntensity := 3;
      editNotes := "";
    }

    /** `handleEditClick`: the dialog opens on the entry's mood, intensity and notes. */
    method EditClick(entry: MoodEntry)
      modifies this
      ensures selectedEntry == Some(entry) && isEditModalOpen
      ensures editMood == entry.mood && editIntensity == entry.intensity && editNotes == entry.notes
    {
      selectedEntry := Some(entry);
      editMood := entry.mood;
      editIntensity := entry.intensity;
      editNotes := entry.notes;
      isEditModalOpen := true;
    }

    /** `handleSaveEdit`: without a selected entry nothing happens; otherwise the
        three edited fields are sent as an update of that entry, and the dialog
        closes whatever the outcome. */
    method SaveEdit(store: MoodStore.Store, reply: MoodStore.Reply<EntryPatch>) returns (sent: Option<Body>)
      modifies this, store
      ensures old(selectedEntry).None? ==>
                sent.None? && unchanged(this) && unchanged(store)
      ensures old(selectedEntry).Some? ==>
                sent == Some(EditPayload(old(editMood), old(editIntensity), old(editNotes))) &&
                !isEditModalOpen && selectedEntry.None? &&
                (reply.Answered? ==>
                   store.entries == MoodStore.UpdateById(old(store.entries), old(selectedEntry).value.id, reply.body))
      ensures old(selectedEntry).Some? && !reply.Answered? ==> store.entries == old(store.entries)
    {
      if selectedEntry.None? {
        return None;
      }
      var id := selectedEntry.value.id;
      sent := Some(EditPayload(editMood, editIntensity, editNotes));
      store.UpdateEntry(id, reply);
      isEditModalOpen := false;
      selectedEntry := None;
    }
  }
}
