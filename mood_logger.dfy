/** The mood logging form (`MoodLogger.tsx`): the tag and activity lists the
    user edits, the inputs they are typed into, and the submission that hands
    a draft to the mood store and clears the form. */
module MoodLogger {
  import opened Wrappers
  import opened Seqs
  import opened Text
  import opened Types
  import MoodStore

  /** The activities offered as buttons. */
  const ActivityOptions: seq<string> :=
    ["exercise", "meditation", "reading", "work", "study",
     "socializing", "family time", "hobbies", "entertainment",
     "outdoors", "cooking", "cleaning", "shopping", "travel",
     "self-care", "sleeping", "eating", "commuting"]

  /** The tags a form can hold: no duplicates, no blank tag, each trimmed. */
  predicate TagsValid(tags: seq<string>)
  {
    NoDup(tags) && forall i :: 0 <= i < |tags| ==> tags[i] != "" && Trim(tags[i]) == tags[i]
  }

  /** The tags after `handleAddTag` with `input` in the tag field: the trimmed
      input is appended when it is not blank and not already a tag. */
  function WithTag(tags: seq<string>, input: string): (r: seq<string>)
    ensures |tags| <= |r| <= |tags| + 1 && r[..|tags|] == tags
    ensures forall t :: t in r <==> t in tags || (t == Trim(input) && t != "")
    ensures NoDup(tags) ==> NoDup(r)
  {
    var t := Trim(input);
    if t != "" && t !in tags then tags + [t] else tags
  }

  /** Adding a tag keeps the tag list valid. */
  lemma WithTagValid(tags: seq<string>, input: string)
    requires TagsValid(tags)
    ensures TagsValid(WithTag(tags, input))
  {
    var t := Trim(input);
    if t != "" && t !in tags {
      TrimIdempotent(input);
      var r := tags + [t];
      assert WithTag(tags, input) == r;
      forall i | 0 <= i < |r| ensures r[i] != "" && Trim(r[i]) == r[i] {
        if i < |tags| {
          assert r[i] == tags[i];
        }
      }
    }
  }

  /** Removing a tag keeps the tag list valid. */
  lemma RemoveTagValid(tags: seq<string>, removed: string)
    requires TagsValid(tags)
    ensures TagsValid(RemoveAll(tags, removed))
  {
    var r := RemoveAll(tags, removed);
    RemoveAllSpec(tags, removed);
    forall i | 0 <= i < |r| ensures r[i] != "" && Trim(r[i]) == r[i] {
      var j :| 0 <= j < |tags| && tags[j] == r[i];
    }
  }

  /** The activities after `handleAddActivity` with `input` in the activity
      field: the untrimmed input is appended when it is non-empty and absent. */
  function WithActivity(activities: seq<string>, input: string): (r: seq<string>)
    ensures |activities| <= |r| <= |activities| + 1 && r[..|activities|] == activities
    ensures forall a :: a in r <==> a in activities || (a == input && a != "")
    ensures NoDup(activities) ==> NoDup(r)
  {
    if input != "" && input !in activities then activities + [input] else activities
  }

  /** `handleSelectActivity`: an absent activity is appended, a present one removed. */
  function Toggle(activities: seq<string>, a: string): (r: seq<string>)
    ensures a in r <==> a !in activities
    ensures forall x :: x != a ==> (x in r <==> x in activities)
  {
    if a !in activities then activities + [a] else RemoveAll(activities, a)
  }

  /** Toggling twice restores membership, and toggling keeps the list
      duplicate-free. */
  lemma ToggleTwice(activities: seq<string>, a: string)
    ensures forall x :: x in Toggle(Toggle(activities, a), a) <==> x in activities
    ensures NoDup(activities) ==> NoDup(Toggle(activities, a))
  {
    if a in activities {
      RemoveAllSpec(activities, a);
    }
  }

  /** Selecting an absent activity twice gives back the very same list. */
  lemma {:induction false} ToggleTwiceAbsent(activities: seq<string>, a: string)
    requires a !in activities
    ensures Toggle(Toggle(activities, a), a) == activities
  {
    assert Toggle(activities, a) == activities + [a];
    RemoveAllAppendAbsent(activities, a);
  }

  /** The draft `handleSubmit` passes to the store. */
  function SubmitDraft(userId: string, mood: string, intensity: int, activities: seq<string>,
                       notes: string, tags: seq<string>): (b: Body)
  {
    map["userId" := JStr(userId), "mood" := JStr(mood), "intensity" := JInt(intensity),
        "activities" := JStrList(activities), "notes" := JStr(notes), "tags" := JStrList(tags)]
  }

  /** The draft carries exactly the six fields of an entry, each holding the
      form's value; the form always sends arrays, so the store's `|| []`
      defaults never replace what the user chose. */
  lemma SubmitDraftSent(userId: string, mood: string, intensity: int, activities: seq<string>,
                        notes: string, tags: seq<string>)
    ensures var d := SubmitDraft(userId, mood, intensity, activities, notes, tags);
            d.Keys == {"userId", "mood", "intensity", "activities", "notes", "tags"} &&
            d["userId"] == JStr(userId) && d["mood"] == JStr(mood) && d["intensity"] == JInt(intensity) &&
            d["activities"] == JStrList(activities) && d["notes"] == JStr(notes) && d["tags"] == JStrList(tags)
    ensures var sent := MoodStore.AddEntryBody(SubmitDraft(userId, mood, intensity, activities, notes, tags));
            sent == SubmitDraft(userId, mood, intensity, activities, notes, tags)
  {
    var d := SubmitDraft(userId, mood, intensity, activities, notes, tags);
    var sent := MoodStore.AddEntryBody(d);
    assert sent.Keys == d.Keys;
  }

  class Form {
    var mood: string
    var intensity: int
    var activities: seq<string>
    var notes: string
    var tags: seq<string>
    var currentTag: string
    var currentActivity: string

    /** The lists the handlers maintain. */
    predicate Valid()
      reads this
    {
      TagsValid(tags) && NoDup(activities)
    }

    constructor()
      ensures mood == "" && intensity == 3 && activities == [] && notes == "" && tags == []
      ensures currentTag == "" && currentActivity == ""
      ensures Valid()
    {
      mood := "";
      intensity := 3;
      activities := [];
      notes := "";
      tags := [];
      currentTag := "";
      currentActivity := "";
    }

    /** `handleAddTag`: the field is cleared only when a tag was added. */
    method AddTag()
      requires Valid()
      modifies this
      ensures Valid()
      ensures tags == WithTag(old(tags), old(currentTag))
      ensures currentTag == (if |tags| > |old(tags)| then "" else old(currentTag))
      ensures activities == old(activities) && currentActivity == old(currentActivity)
      ensures mood == old(mood) && intensity == old(intensity) && notes == old(notes)
    {
      var t := Trim(currentTag);
      WithTagValid(tags, currentTag);
      assert WithTag(tags, currentTag) == if t != "" && t !in tags then tags + [t] else tags;
      if t != "" && t !in tags {
        tags := tags + [t];
        currentTag := "";
      }
    }

    /** `handleRemoveTag`. */
    method RemoveTag(tag: string)
      requires Valid()
      modifies this
      ensures Valid()
      ensures tags == RemoveAll(old(tags), tag)
      ensures activities == old(activities) && currentTag == old(currentTag) && currentActivity == old(currentActivity)
      ensures mood == old(mood) && intensity == old(intensity) && notes == old(notes)
    {
      RemoveTagValid(tags, tag);
      tags := RemoveAll(tags, tag);
    }

    /** `handleAddActivity`: the field is cleared only when an activity was added. */
    method AddActivity()
      requires Valid()
      modifies this
      ensures Valid()
      ensures activities == WithActivity(old(activities), old(currentActivity))
      ensures currentActivity == (if |activities| > |old(activities)| then "" else old(currentActivity))
      ensures tags == old(tags) && currentTag == old(currentTag)
      ensures mood == old(mood) && intensity == old(intensity) && notes == old(notes)
    {
      if currentActivity != "" && currentActivity !in activities {
        activities := activities + [currentActivity];
        currentActivity := "";
      }
    }

    /** `handleRemoveActivity`. */
    method RemoveActivity(activity: string)
      requires Valid()
      modifies this
      ensures Valid()
      ensures activities == RemoveAll(old(activities), activity)
      ensures tags == old(tags) && currentTag == old(currentTag) && currentActivity == old(currentActivity)
      ensures mood == old(mood) && intensity == old(intensity) && notes == old(notes)
    {
      RemoveAllSpec(activities, activity);
      activities := RemoveAll(activities, activity);
    }

    /** `handleSelectActivity`. */
    method SelectActivity(activity: string)
      requires Valid()
      modifies this
      ensures Valid()
      ensures activities == Toggle(old(activities), activity)
      ensures tags == old(tags) && currentTag == old(currentTag) && currentActivity == old(currentActivity)
      ensures mood == old(mood) && intensity == old(intensity) && notes == old(notes)
    {
      ToggleTwice(activities, activity);
      if activity !in activities {
        activities := activities + [activity];
      } else {
        activities := RemoveAll(activities, activity);
      }
    }

    /** `handleSubmit`: without a signed-in user nothing happens. Otherwise the
        draft goes to the store, and the form is cleared whatever the store's
        outcome (the store keeps its own error). The tag and activity fields
        keep their text. */
    method Submit(user: Option<string>, store: MoodStore.Store, reply: MoodStore.Reply<MoodEntry>)
      returns (sent: Option<Body>)
      modifies this, store
      ensures user.None? ==> sent.None? && unchanged(this) && unchanged(store)
      ensures user.Some? ==>
                sent == Some(MoodStore.AddEntryBody(SubmitDraft(user.value, old(mood), old(intensity),
                                                                 old(activities), old(notes), old(tags)))) &&
                mood == "" && intensity == 3 && activities == [] && notes == "" && tags == [] &&
                currentTag == old(currentTag) && currentActivity == old(currentActivity) &&
                (reply.Answered? ==> store.entries == [reply.body] + old(store.entries)) &&
                (!reply.Answered? ==> store.entries == old(store.entries))
      ensures user.Some? ==> Valid()
    {
      if user.None? {
        return None;
      }
      var draft := SubmitDraft(user.value, mood, intensity, activities, notes, tags);
      var body := store.AddEntry(draft, reply);
      sent := Some(body);
      mood := "";
      intensity := 3;
      activities := [];
      notes := "";
      tags := [];
    }
  }
}
