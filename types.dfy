/** The records the client and the server exchange: mood entries, JSON request
    bodies, and partial entries that a response spreads over a held entry. */
module Types {
  import opened Wrappers
  import opened Seqs
  import opened Sorting

  /** A mood entry. `timestamp` is the parsed instant in local milliseconds, or
      `None` when the entry has no timestamp or one that does not parse (a
      JavaScript `Invalid Date`, which every date comparison rejects). */
  datatype MoodEntry = MoodEntry(
    id: int,
    user: int,
    mood: string,
    intensity: int,
    activities: seq<string>,
    notes: string,
    tags: seq<string>,
    timestamp: Option<int>,
    isAutoDetected: bool)

  /** The mood vocabulary of the entry model (`MOOD_CHOICES`). */
  const MoodChoices: seq<string> :=
    ["happy", "calm", "excited", "content", "neutral",
     "anxious", "stressed", "sad", "angry", "tired"]

  /** The JSON values that occur in the application's request bodies. */
  datatype Json = JNull | JBool(b: bool) | JInt(n: int) | JStr(s: string) | JStrList(items: seq<string>)

  /** A JSON object: key to value. An absent key is `undefined`. */
  type Body = map<string, Json>

  /** JavaScript truthiness of a JSON value (every array is truthy, even `[]`). */
  predicate Truthy(j: Json)
  {
    match j
    case JNull => false
    case JBool(b) => b
    case JInt(n) => n != 0
    case JStr(s) => s != ""
    case JStrList(_) => true
  }

  /** The fields of a response object, each present or absent. */
  datatype EntryPatch = EntryPatch(
    id: Option<int>,
    user: Option<int>,
    mood: Option<string>,
    intensity: Option<int>,
    activities: Option<seq<string>>,
    notes: Option<string>,
    tags: Option<seq<string>>,
    timestamp: Option<Option<int>>,
    isAutoDetected: Option<bool>)

  const EmptyPatch := EntryPatch(None, None, None, None, None, None, None, None, None)

  /** A patch that carries every field of `e`. */
  function FullPatch(e: MoodEntry): EntryPatch
  {
    EntryPatch(Some(e.id), Some(e.user), Some(e.mood), Some(e.intensity), Some(e.activities),
               Some(e.notes), Some(e.tags), Some(e.timestamp), Some(e.isAutoDetected))
  }

  /** `{ ...e, ...p }`: every field present in `p` replaces the one of `e`. */
  function Overlay(e: MoodEntry, p: EntryPatch): MoodEntry
  {
    MoodEntry(
      p.id.GetOr(e.id), p.user.GetOr(e.user), p.mood.GetOr(e.mood),
      p.intensity.GetOr(e.intensity), p.activities.GetOr(e.activities),
      p.notes.GetOr(e.notes), p.tags.GetOr(e.tags), p.timestamp.GetOr(e.timestamp),
      p.isAutoDetected.GetOr(e.isAutoDetected))
  }

  /** Spreading is idempotent, an empty object changes nothing, a complete
      object replaces everything, and a field the patch lacks is kept. */
  lemma OverlayLaws(e: MoodEntry, p: EntryPatch, x: MoodEntry)
    ensures Overlay(Overlay(e, p), p) == Overlay(e, p)
    ensures Overlay(e, EmptyPatch) == e
    ensures Overlay(x, FullPatch(e)) == e
    ensures p.user.None? ==> Overlay(e, p).user == e.user
    ensures p.id.None? ==> Overlay(e, p).id == e.id
  {
  }

  /** The moods of the entries, in order. */
  function Moods(entries: seq<MoodEntry>): (ms: seq<string>)
    ensures |ms| == |entries|
    ensures forall i :: 0 <= i < |entries| ==> ms[i] == entries[i].mood
  {
    Map(entries, (e: MoodEntry) => e.mood)
  }

  /** Every activity of every entry, entry by entry, duplicates included. */
  function AllActivities(entries: seq<MoodEntry>): seq<string>
  {
    Flatten(Map(entries, (e: MoodEntry) => e.activities))
  }

  lemma AllActivitiesSnoc(entries: seq<MoodEntry>, e: MoodEntry)
    ensures AllActivities(entries + [e]) == AllActivities(entries) + e.activities
  {
    var f := (e: MoodEntry) => e.activities;
    assert Map(entries + [e], f) == Map(entries, f) + [e.activities];
    FlattenAppend(Map(entries, f), [e.activities]);
    assert Flatten([e.activities]) == e.activities + Flatten([]);
  }

  /** An activity's total is the sum of its occurrences in each entry's list,
      so an activity listed twice in one entry counts twice. */
  lemma {:induction false} AllActivitiesOccurrences(entries: seq<MoodEntry>, a: string)
    ensures Occurrences(AllActivities(entries), a) ==
              Sum(Map(entries, (e: MoodEntry) => Occurrences(e.activities, a) as int))
  {
    if entries != [] {
      AllActivitiesOccurrences(entries[1..], a);
      var f := (e: MoodEntry) => e.activities;
      assert Map(entries, f) == [entries[0].activities] + Map(entries[1..], f);
      assert AllActivities(entries) == entries[0].activities + AllActivities(entries[1..]);
      OccurrencesAppend(entries[0].activities, AllActivities(entries[1..]), a);
      var g := (e: MoodEntry) => Occurrences(e.activities, a) as int;
      assert Map(entries, g) == [g(entries[0])] + Map(entries[1..], g);
    }
  }

  /** The instant an entry was saved. Entries on the server always carry one
      (`auto_now_add`); a missing one counts as the epoch. */
  function Stamp(e: MoodEntry): int
  {
    if e.timestamp.Some? then e.timestamp.value else 0
  }

  /** The entry model's default ordering, `-timestamp`: newest first. Rows
      saved at the same instant keep their table order. */
  function NewestFirst(entries: seq<MoodEntry>): seq<MoodEntry>
  {
    SortDesc(entries, Stamp)
  }
}
