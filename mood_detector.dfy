/** The camera mood detector (`MoodDetector.tsx`): the simulated model picks
    one of five emotions with a confidence between 0.7 and 1.0; saving maps
    the emotion to the application's moods, the confidence to an intensity
    from 1 to 5, and posts an automatically detected entry through the mood
    store. `Math.random()` is passed in as reals in [0, 1). */
module MoodDetector {
  import opened Wrappers
  import opened Text
  import opened Types
  import MoodStore
  import Serializers
  import MoodViews

  /** The labels the model distinguishes. */
  const Emotions: seq<string> := ["angry", "sad", "neutral", "happy", "surprised"]

  const AutoTag: string := "auto-detected"

  /** The key of the detection flag the entry serializer reads. */
  const FlagKey: string := "is_auto_detected"

  /** The key the component sends the flag under. */
  const AsWrittenFlagKey: string := "isAutoDetected"

  /** `moodMapping[emotion] || emotion`. */
  function MapMood(emotion: string): string
  {
    if emotion == "surprised" then "excited" else emotion
  }

  /** Every label maps to a mood of the entry model, different labels to
      different moods, and only `surprised` is renamed. */
  lemma MapMoodSpec(emotion: string, other: string)
    ensures emotion in Emotions ==> MapMood(emotion) in MoodChoices
    ensures emotion in Emotions && other in Emotions && emotion != other ==> MapMood(emotion) != MapMood(other)
    ensures emotion != "surprised" ==> MapMood(emotion) == emotion
  {
  }

  /** `Math.round(x)`: the nearest integer, halves rounded up. */
  function Round(x: real): (n: int)
    ensures n as real - 0.5 <= x < n as real + 0.5
  {
    (x + 0.5).Floor
  }

  /** `Math.max(1, Math.min(5, Math.round(confidence * 5)))`. */
  function Intensity(confidence: real): int
  {
    var n := Round(confidence * 5.0);
    if n > 5 then 5 else if n < 1 then 1 else n
  }

  /** The intensity is always a valid one, never decreases as the confidence
      grows, and a detected confidence (0.7 to 1.0) gives 4 or 5. */
  lemma IntensitySpec(c: real, d: real)
    ensures 1 <= Intensity(c) <= 5
    ensures c <= d ==> Intensity(c) <= Intensity(d)
    ensures 0.7 <= c <= 1.0 ==> 4 <= Intensity(c) <= 5
    ensures c >= 0.9 ==> Intensity(c) == 5
  {
    if c <= d {
      assert Round(c * 5.0) <= Round(d * 5.0) by {
        assert c * 5.0 <= d * 5.0;
      }
    }
  }

  /** The simulated prediction: `emotions[Math.floor(u * 5)]` and
      `0.7 + v * 0.3`. */
  function Detect(u: real, v: real): (r: (string, real))
    requires 0.0 <= u < 1.0 && 0.0 <= v < 1.0
    ensures r.0 in Emotions
    ensures 0.7 <= r.1 < 1.0
  {
    var i := (u * 5.0).Floor;
    assert 0 <= i < 5 by {
      assert 0.0 <= u * 5.0 < 5.0;
    }
    (Emotions[i], 0.7 + v * 0.3)
  }

  /** Every label can be detected: label `k` for `u` in [k/5, (k+1)/5). */
  lemma DetectCovers(k: nat, v: real)
    requires k < 5 && 0.0 <= v < 1.0
    ensures Detect(k as real / 5.0, v).0 == Emotions[k]
  {
    assert (k as real / 5.0) * 5.0 == k as real;
  }

  /** The note of the entry, with the confidence as a whole percentage. */
  function Notes(emotion: string, confidence: real): string
  {
    "Auto-detected mood: " + emotion + " (confidence: " + Serializers.IntToString(Round(confidence * 100.0)) + "%)"
  }

  /** The note has no surrounding white space, so the server stores it as sent. */
  lemma NotesTrimmed(emotion: string, confidence: real)
    ensures Trim(Notes(emotion, confidence)) == Notes(emotion, confidence)
  {
    var head := "Auto-detected mood: ";
    var tail := emotion + " (confidence: " + Serializers.IntToString(Round(confidence * 100.0)) + "%)";
    assert Notes(emotion, confidence) == head + tail;
    assert tail[|tail| - 1] == ')';
    TrimUnchanged(head + tail);
  }

  /** The object `saveMoodEntry` hands to `addEntry`, with the detection flag
      under `flagKey`. */
  function EntryDraft(flagKey: string, userId: string, emotion: string, confidence: real): Body
  {
    DraftOf(flagKey, userId, MapMood(emotion), Intensity(confidence), Notes(emotion, confidence))
  }

  /** The shape of that object: the entry's fields with no activities and
      the `auto-detected` tag, and the flag set. */
  function DraftOf(flagKey: string, userId: string, mood: string, intensity: int, notes: string): Body
  {
    DraftFields(userId, mood, intensity, notes)[flagKey := JBool(true)]
  }

  function DraftFields(userId: string, mood: string, intensity: int, notes: string): Body
  {
    map["userId" := JStr(userId),
        "mood" := JStr(mood),
        "intensity" := JInt(intensity),
        "activities" := JStrList([]),
        "notes" := JStr(notes),
        "tags" := JStrList([AutoTag])]
  }

  /** What the server creates from a saved detection. */
  function Saved(table: seq<MoodEntry>, user: int, draft: Body, newId: int, now: int): (MoodViews.Answer, seq<MoodEntry>)
  {
    MoodViews.Create(table, user, MoodStore.AddEntryBody(draft), newId, now)
  }

  /** `addEntry` leaves a draft alone when its lists are present and truthy. */
  lemma AddEntryBodyKeeps(draft: Body)
    requires "activities" in draft && Truthy(draft["activities"])
    requires "tags" in draft && Truthy(draft["tags"])
    ensures MoodStore.AddEntryBody(draft) == draft
  {
    var b := MoodStore.AddEntryBody(draft);
    assert b.Keys == draft.Keys;
  }

  /** What the serializer reads from the draft, field by field: every field
      is given, the flag only under the serializer's key. */
  lemma ReadDraft(flagKey: string, userId: string, emotion: string, confidence: real)
    requires emotion in Emotions
    requires flagKey == FlagKey || flagKey == AsWrittenFlagKey
    ensures Serializers.ReadFields(EntryDraft(flagKey, userId, emotion, confidence), false) ==
              Serializers.Fields(Serializers.Given(MapMood(emotion)), Serializers.Given(Intensity(confidence)),
                                 Serializers.Given([]), Serializers.Given(Notes(emotion, confidence)),
                                 Serializers.Given([AutoTag]),
                                 if flagKey == FlagKey then Serializers.Given(true) else Serializers.Absent)
  {
    MapMoodSpec(emotion, emotion);
    IntensitySpec(confidence, confidence);
    NotesTrimmed(emotion, confidence);
    DraftLookups(flagKey, userId, MapMood(emotion), Intensity(confidence), Notes(emotion, confidence));
    ReadDraftOf(EntryDraft(flagKey, userId, emotion, confidence), MapMood(emotion), Intensity(confidence),
                Notes(emotion, confidence), flagKey == FlagKey);
  }

  /** The same, for any body holding values the serializer accepts under
      those keys. */
  lemma ReadDraftOf(d: Body, mood: string, intensity: int, notes: string, flagged: bool)
    requires mood in MoodChoices && 1 <= intensity <= 5 && Trim(notes) == notes
    requires "mood" in d && d["mood"] == JStr(mood) && "intensity" in d && d["intensity"] == JInt(intensity)
    requires "activities" in d && d["activities"] == JStrList([]) && "notes" in d && d["notes"] == JStr(notes)
    requires "tags" in d && d["tags"] == JStrList([AutoTag])
    requires (FlagKey in d <==> flagged) && (FlagKey in d ==> d[FlagKey] == JBool(true))
    ensures Serializers.ReadFields(d, false) ==
              Serializers.Fields(Serializers.Given(mood), Serializers.Given(intensity),
                                 Serializers.Given([]), Serializers.Given(notes),
                                 Serializers.Given([AutoTag]),
                                 if flagged then Serializers.Given(true) else Serializers.Absent)
  {
    Serializers.ParseIntensitySpec(JInt(intensity));
    assert Serializers.ReadField(d, "mood", Serializers.ParseMood, true, false) == Serializers.Given(mood) by {
      assert Serializers.ParseMood(d["mood"]) == Ok(mood);
    }
    assert Serializers.ReadField(d, "intensity", Serializers.ParseIntensity, true, false) == Serializers.Given(intensity) by {
      assert Serializers.ParseIntensity(d["intensity"]) == Ok(intensity);
    }
    assert Serializers.ReadField(d, "activities", Serializers.ParseList, false, false) == Serializers.Given([]) by {
      assert Serializers.ParseList(d["activities"]) == Ok([]);
    }
    assert Serializers.ReadField(d, "notes", Serializers.ParseNotes, false, false) == Serializers.Given(notes) by {
      assert Serializers.ParseNotes(d["notes"]) == Ok(notes);
    }
    assert Serializers.ReadField(d, "tags", Serializers.ParseList, false, false) == Serializers.Given([AutoTag]) by {
      assert Serializers.ParseList(d["tags"]) == Ok([AutoTag]);
    }
    if flagged {
      assert Serializers.ParseFlag(d[FlagKey]) == Ok(true);
    }
  }

  /** Fields read that way pass validation, as the matching partial entry. */
  lemma AcceptedOf(d: Body, mood: string, intensity: int, notes: string, flagged: bool)
    requires Serializers.ReadFields(d, false) ==
               Serializers.Fields(Serializers.Given(mood), Serializers.Given(intensity),
                                  Serializers.Given([]), Serializers.Given(notes),
                                  Serializers.Given([AutoTag]),
                                  if flagged then Serializers.Given(true) else Serializers.Absent)
    ensures Serializers.Validate(d, false) ==
              Serializers.Accepted(EntryPatch(None, None, Some(mood), Some(intensity), Some([]), Some(notes),
                                              Some([AutoTag]), None, if flagged then Some(true) else None))
  {
    assert Serializers.ErrorsOf(Serializers.ReadFields(d, false)) == map[];
  }

  /** The value under each key the serializer reads. */
  lemma DraftLookups(flagKey: string, userId: string, mood: string, intensity: int, notes: string)
    requires flagKey == FlagKey || flagKey == AsWrittenFlagKey
    ensures var d := DraftOf(flagKey, userId, mood, intensity, notes);
            "mood" in d && d["mood"] == JStr(mood) &&
            "intensity" in d && d["intensity"] == JInt(intensity) &&
            "activities" in d && d["activities"] == JStrList([]) &&
            "notes" in d && d["notes"] == JStr(notes) &&
            "tags" in d && d["tags"] == JStrList([AutoTag]) &&
            (FlagKey in d <==> flagKey == FlagKey) &&
            (FlagKey in d ==> d[FlagKey] == JBool(true))
  {
    var fields := DraftFields(userId, mood, intensity, notes);
    assert |FlagKey| == 16 && |AsWrittenFlagKey| == 14;
    assert fields.Keys == {"userId", "mood", "intensity", "activities", "notes", "tags"};
  }

  /** The store posts the draft unchanged and the serializer accepts it,
      whichever key carries the flag. */
  lemma DraftAccepted(flagKey: string, userId: string, emotion: string, confidence: real)
    requires emotion in Emotions
    requires flagKey == FlagKey || flagKey == AsWrittenFlagKey
    ensures MoodStore.AddEntryBody(EntryDraft(flagKey, userId, emotion, confidence)) ==
              EntryDraft(flagKey, userId, emotion, confidence)
    ensures Serializers.Validate(EntryDraft(flagKey, userId, emotion, confidence), false) ==
              Serializers.Accepted(EntryPatch(None, None, Some(MapMood(emotion)), Some(Intensity(confidence)),
                                              Some([]), Some(Notes(emotion, confidence)), Some([AutoTag]), None,
                                              if flagKey == FlagKey then Some(true) else None))
  {
    MapMoodSpec(emotion, emotion);
    IntensitySpec(confidence, confidence);
    NotesTrimmed(emotion, confidence);
    DraftLookups(flagKey, userId, MapMood(emotion), Intensity(confidence), Notes(emotion, confidence));
    var draft := EntryDraft(flagKey, userId, emotion, confidence);
    AddEntryBodyKeeps(draft);
    ReadDraftOf(draft, MapMood(emotion), Intensity(confidence), Notes(emotion, confidence), flagKey == FlagKey);
    AcceptedOf(draft, MapMood(emotion), Intensity(confidence), Notes(emotion, confidence), flagKey == FlagKey);
  }

  /** As written, the flag is sent as `isAutoDetected`, a key the serializer
      does not read: the entry is created, but stored as not detected. */
  lemma AsWrittenLosesFlag(table: seq<MoodEntry>, user: int, userId: string, emotion: string, confidence: real,
                           newId: int, now: int)
    requires emotion in Emotions
    ensures var r := Saved(table, user, EntryDraft(AsWrittenFlagKey, userId, emotion, confidence), newId, now);
            r.0.status == 201 && r.0.entry.Some? && !r.0.entry.value.isAutoDetected
  {
    DraftAccepted(AsWrittenFlagKey, userId, emotion, confidence);
  }

  /** Sent under the serializer's own key, the flag is stored: the entry is
      created for the requester with the mapped mood, the computed intensity,
      no activities, the note, the `auto-detected` tag, and marked detected. */
  lemma SavedEntry(table: seq<MoodEntry>, user: int, userId: string, emotion: string, confidence: real,
                   newId: int, now: int)
    requires emotion in Emotions
    ensures var r := Saved(table, user, EntryDraft(FlagKey, userId, emotion, confidence), newId, now);
            r.0.status == 201 && r.0.entry.Some? && r.1 == table + [r.0.entry.value] &&
            r.0.entry.value == MoodEntry(newId, user, MapMood(emotion), Intensity(confidence), [],
                                         Notes(emotion, confidence), [AutoTag], Some(now), true)
  {
    DraftAccepted(FlagKey, userId, emotion, confidence);
  }

  /** The component's state. */
  class Detector {
    var capturedImage: Option<string>
    var detectedMood: Option<string>
    var confidence: real
    var modelReady: bool
    var cameraPermission: Option<bool>
    var error: Option<string>

    constructor()
      ensures capturedImage.None? && detectedMood.None? && confidence == 0.0
      ensures !modelReady && cameraPermission.None? && error.None?
    {
      capturedImage := None;
      detectedMood := None;
      confidence := 0.0;
      modelReady := false;
      cameraPermission := None;
      error := None;
    }

    /** The model-loading effect: the simulated model becomes available. */
    method LoadModel()
      modifies this
      ensures modelReady
      ensures capturedImage == old(capturedImage) && detectedMood == old(detectedMood)
      ensures confidence == old(confidence) && cameraPermission == old(cameraPermission) && error == old(error)
    {
      modelReady := true;
    }

    /** The camera-permission effect: refused access records the error. */
    method CheckCameraPermission(granted: bool)
      modifies this
      ensures cameraPermission == Some(granted)
      ensures error == if granted then old(error) else Some(CameraMessage)
      ensures capturedImage == old(capturedImage) && detectedMood == old(detectedMood)
      ensures confidence == old(confidence) && modelReady == old(modelReady)
    {
      cameraPermission := Some(granted);
      if !granted {
        error := Some(CameraMessage);
      }
    }

    /** `captureImage`: with a mounted webcam, its screenshot (or `null`)
      becomes the captured image; otherwise nothing happens. */
    method CaptureImage(webcamMounted: bool, screenshot: Option<string>)
      modifies this
      ensures capturedImage == if webcamMounted then screenshot else old(capturedImage)
      ensures detectedMood == old(detectedMood) && confidence == old(confidence)
      ensures modelReady == old(modelReady) && cameraPermission == old(cameraPermission) && error == old(error)
    {
      if webcamMounted {
        capturedImage := screenshot;
      }
    }

    /** `detectMood`: without an image or a model nothing happens; otherwise
      the prediction for the draws `u` and `v` is recorded. */
    method DetectMood(u: real, v: real)
      requires 0.0 <= u < 1.0 && 0.0 <= v < 1.0
      modifies this
      ensures capturedImage.None? || !modelReady ==>
                detectedMood == old(detectedMood) && confidence == old(confidence)
      ensures capturedImage.Some? && modelReady ==>
                detectedMood == Some(Detect(u, v).0) && confidence == Detect(u, v).1
      ensures detectedMood.Some? ==> (old(detectedMood).Some? && detectedMood == old(detectedMood)) || detectedMood.value in Emotions
      ensures capturedImage == old(capturedImage) && modelReady == old(modelReady)
      ensures cameraPermission == old(cameraPermission) && error == old(error)
    {
      if capturedImage.None? || !modelReady {
        return;
      }
      var r := Detect(u, v);
      detectedMood := Some(r.0);
      confidence := r.1;
    }

    /** `resetCapture`. */
    method ResetCapture()
      modifies this
      ensures capturedImage.None? && detectedMood.None? && confidence == 0.0 && error.None?
      ensures modelReady == old(modelReady) && cameraPermission == old(cameraPermission)
    {
      capturedImage := None;
      detectedMood := None;
      confidence := 0.0;
      error := None;
    }

    /** `saveMoodEntry`: without a user or a detection nothing happens;
      otherwise the draft, with the flag under `isAutoDetected` as the page
      sends it, goes through the store's `addEntry`, and the capture is reset
      whatever the reply. */
    method SaveMoodEntry(userId: Option<string>, store: MoodStore.Store, reply: MoodStore.Reply<MoodEntry>)
      returns (sent: Option<Body>)
      modifies this, store
      ensures userId.None? || old(detectedMood).None? ==>
                (sent.None? && store.entries == old(store.entries) && detectedMood == old(detectedMood) &&
                 capturedImage == old(capturedImage) && confidence == old(confidence) && error == old(error))
      ensures userId.Some? && old(detectedMood).Some? ==>
                (sent == Some(MoodStore.AddEntryBody(EntryDraft(AsWrittenFlagKey, userId.value, old(detectedMood).value, old(confidence)))) &&
                 store.entries == (if reply.Answered? then [reply.body] + old(store.entries) else old(store.entries)) &&
                 capturedImage.None? && detectedMood.None? && confidence == 0.0 && error.None?)
      ensures modelReady == old(modelReady) && cameraPermission == old(cameraPermission)
    {
      if userId.None? || detectedMood.None? {
        return None;
      }
      var draft := EntryDraft(AsWrittenFlagKey, userId.value, detectedMood.value, confidence);
      var body := store.AddEntry(draft, reply);
      sent := Some(body);
      ResetCapture();
    }
  }

  const CameraMessage: string :=
    "Camera access is required for mood detection. Please allow camera access and try again."
}
