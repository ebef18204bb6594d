/** The server's serializers (`moods/serializers.py`): how a JSON request body
    becomes the fields of a mood entry, and how an insight is presented.
    `MoodEntrySerializer` is a Django REST framework model serializer, so its
    fields follow the model: `mood` and `intensity` have choices and become
    choice fields, `notes` a blank-allowed character field, `activities` and
    `tags` JSON fields, `is_auto_detected` a boolean field with a default.
    `id`, `timestamp` and `user` are read-only, and any other key of the body
    is ignored. */
module Serializers {
  import opened Wrappers
  import opened Seqs
  import opened Text
  import opened Types
  import Engine

  const RequiredMessage: string := "This field is required."
  const NullMessage: string := "This field may not be null."
  const InvalidChoiceMessage: string := "is not a valid choice."
  const NotAStringMessage: string := "Not a valid string."
  const NotABooleanMessage: string := "Must be a valid boolean."
  const NotAListMessage: string := "Expected a list of strings."
  const IntensityMessage: string := "Intensity must be between 1-5"

  /** The keys the serializer reads from a body. */
  const WritableFields: set<string> :=
    {"mood", "intensity", "activities", "notes", "tags", "is_auto_detected", "insight"}

  /** The strings the boolean field reads as true and as false. */
  const TrueStrings: set<string> :=
    {"t", "T", "y", "Y", "yes", "Yes", "YES", "true", "True", "TRUE", "on", "On", "ON", "1"}
  const FalseStrings: set<string> :=
    {"f", "F", "n", "N", "no", "No", "NO", "false", "False", "FALSE", "off", "Off", "OFF", "0"}

  /** `validate_intensity`. */
  function ValidateIntensity(value: int): (r: Result<int>)
    ensures r.Ok? <==> 1 <= value <= 5
    ensures r.Ok? ==> r.value == value
    ensures r.Err? ==> r.message == IntensityMessage
  {
    if 1 <= value <= 5 then Ok(value) else Err(IntensityMessage)
  }

  /** `str(n)` for an integer. */
  function IntToString(n: int): string
  {
    if n < 0 then "-" + NatToString(-n) else NatToString(n)
  }

  /** The choice field of `mood`: a string among the model's choices. */
  function ParseMood(j: Json): (r: Result<string>)
    ensures r.Ok? <==> j.JStr? && j.s in MoodChoices
    ensures r.Ok? ==> r.value == j.s
  {
    match j
    case JNull => Err(NullMessage)
    case JStr(s) => if s in MoodChoices then Ok(s) else Err(InvalidChoiceMessage)
    case _ => Err(InvalidChoiceMessage)
  }

  /** The choice field of `intensity`: choices 1 to 5 are looked up by their
      decimal text, so the integer or its text is accepted. */
  function IntensityChoice(j: Json): Result<int>
  {
    match j
    case JNull => Err(NullMessage)
    case JInt(n) => if 1 <= n <= 5 then Ok(n) else Err(InvalidChoiceMessage)
    case JStr(s) =>
      if s == "1" then Ok(1) else if s == "2" then Ok(2) else if s == "3" then Ok(3)
      else if s == "4" then Ok(4) else if s == "5" then Ok(5)
      else Err(InvalidChoiceMessage)
    case _ => Err(InvalidChoiceMessage)
  }

  /** The intensity field: the choice, then `validate_intensity`. */
  function ParseIntensity(j: Json): Result<int>
  {
    match IntensityChoice(j)
    case Ok(v) => ValidateIntensity(v)
    case Err(m) => Err(m)
  }

  /** The intensity is accepted exactly when it is 1 to 5, given as a number
      or as its decimal text, and the range check of `validate_intensity`
      never fires: the choice field has already refused every other value. */
  lemma ParseIntensitySpec(j: Json)
    ensures ParseIntensity(j).Ok? <==>
              (j.JInt? && 1 <= j.n <= 5) || (j.JStr? && j.s in {"1", "2", "3", "4", "5"})
    ensures ParseIntensity(j).Ok? ==>
              (1 <= ParseIntensity(j).value <= 5 &&
               (j.JInt? ==> ParseIntensity(j).value == j.n) &&
               (j.JStr? ==> NatToString(ParseIntensity(j).value) == j.s))
    ensures IntensityChoice(j).Ok? ==> ValidateIntensity(IntensityChoice(j).value).Ok?
    ensures ParseIntensity(j).Err? ==> ParseIntensity(j).message != IntensityMessage
  {
  }

  /** The character field of `notes`: a string with its surrounding white
      space removed, or a number's decimal text. */
  function ParseNotes(j: Json): (r: Result<string>)
    ensures r.Ok? <==> j.JStr? || j.JInt?
    ensures j.JStr? ==> r == Ok(Trim(j.s))
  {
    match j
    case JNull => Err(NullMessage)
    case JStr(s) => Ok(Trim(s))
    case JInt(n) => Ok(Trim(IntToString(n)))
    case _ => Err(NotAStringMessage)
  }

  /** The JSON fields `activities` and `tags`, restricted to lists of strings. */
  function ParseList(j: Json): (r: Result<seq<string>>)
    ensures r.Ok? <==> j.JStrList?
    ensures r.Ok? ==> r.value == j.items
  {
    match j
    case JNull => Err(NullMessage)
    case JStrList(items) => Ok(items)
    case _ => Err(NotAListMessage)
  }

  /** The boolean field of `is_auto_detected`. */
  function ParseFlag(j: Json): (r: Result<bool>)
    ensures r.Ok? <==>
              (j.JBool? || (j.JInt? && j.n in {0, 1}) || (j.JStr? && (j.s in TrueStrings || j.s in FalseStrings)))
    ensures j.JBool? ==> r == Ok(j.b)
  {
    match j
    case JNull => Err(NullMessage)
    case JBool(b) => Ok(b)
    case JInt(n) => if n == 1 then Ok(true) else if n == 0 then Ok(false) else Err(NotABooleanMessage)
    case JStr(s) =>
      if s in TrueStrings then Ok(true) else if s in FalseStrings then Ok(false) else Err(NotABooleanMessage)
    case _ => Err(NotABooleanMessage)
  }

  /** One field of a body after validation. */
  datatype Field<T> = Absent | Given(value: T) | Bad(message: string)
  {
    function Opt(): Option<T>
    {
      if Given? then Some(value) else None
    }

    function Errors(key: string): (e: map<string, string>)
      ensures e.Keys == if Bad? then {key} else {}
    {
      if Bad? then map[key := message] else map[]
    }
  }

  /** Reads `key`: parsed when present; when absent, an error only if the field
      is required and the update is not partial. */
  function ReadField<T>(body: Body, key: string, parse: Json -> Result<T>, required: bool, partial: bool): Field<T>
  {
    if key in body then
      match parse(body[key])
      case Ok(v) => Given(v)
      case Err(m) => Bad(m)
    else if required && !partial then Bad(RequiredMessage)
    else Absent
  }

  /** The field is bad exactly when its value does not parse or it is a
      required field missing from a full update; it is given exactly when
      its key is present and parses. */
  lemma ReadFieldSpec<T>(body: Body, key: string, parse: Json -> Result<T>, required: bool, partial: bool)
    ensures ReadField(body, key, parse, required, partial).Bad? <==>
              (key in body && parse(body[key]).Err?) || (key !in body && required && !partial)
    ensures ReadField(body, key, parse, required, partial).Opt().Some? <==> key in body && parse(body[key]).Ok?
    ensures ReadField(body, key, parse, required, partial).Opt().Some? ==>
              parse(body[key]) == Ok(ReadField(body, key, parse, required, partial).Opt().value)
  {
  }

  /** Another key of the body does not affect a field. */
  lemma ReadFieldIgnores<T>(body: Body, other: string, key: string, parse: Json -> Result<T>,
                            required: bool, partial: bool)
    requires other != key
    ensures ReadField(body - {other}, key, parse, required, partial) == ReadField(body, key, parse, required, partial)
  {
    assert (key in body - {other}) <==> key in body;
  }

  /** The six fields the serializer validates. */
  datatype Fields = Fields(
    mood: Field<string>,
    intensity: Field<int>,
    activities: Field<seq<string>>,
    notes: Field<string>,
    tags: Field<seq<string>>,
    flag: Field<bool>)

  function ReadFields(body: Body, partial: bool): Fields
  {
    Fields(
      ReadField(body, "mood", ParseMood, true, partial),
      ReadField(body, "intensity", ParseIntensity, true, partial),
      ReadField(body, "activities", ParseList, false, partial),
      ReadField(body, "notes", ParseNotes, false, partial),
      ReadField(body, "tags", ParseList, false, partial),
      ReadField(body, "is_auto_detected", ParseFlag, false, partial))
  }

  /** The message of each bad field under its key. */
  function ErrorsOf(f: Fields): (errors: map<string, string>)
    ensures errors.Keys <= WritableFields
    ensures errors == map[] <==>
              !f.mood.Bad? && !f.intensity.Bad? && !f.activities.Bad? && !f.notes.Bad? && !f.tags.Bad? && !f.flag.Bad?
  {
    var errors := f.mood.Errors("mood") + f.intensity.Errors("intensity") + f.activities.Errors("activities") +
                  f.notes.Errors("notes") + f.tags.Errors("tags") + f.flag.Errors("is_auto_detected");
    assert errors.Keys == f.mood.Errors("mood").Keys + f.intensity.Errors("intensity").Keys +
                          f.activities.Errors("activities").Keys + f.notes.Errors("notes").Keys +
                          f.tags.Errors("tags").Keys + f.flag.Errors("is_auto_detected").Keys;
    assert errors == map[] <==> errors.Keys == {};
    errors
  }

  /** The validated data as a partial entry: no read-only field, and each
      writable field exactly when given. */
  function PatchOf(f: Fields): EntryPatch
  {
    EntryPatch(None, None, f.mood.Opt(), f.intensity.Opt(), f.activities.Opt(), f.notes.Opt(),
               f.tags.Opt(), None, f.flag.Opt())
  }

  /** A validated body: the fields given, or the message of each bad field. */
  datatype Validation = Accepted(patch: EntryPatch) | Rejected(errors: map<string, string>)

  /** `is_valid()` for a create (`partial` false) or a PATCH (`partial` true). */
  function Validate(body: Body, partial: bool): Validation
  {
    var f := ReadFields(body, partial);
    if ErrorsOf(f) == map[] then Accepted(PatchOf(f)) else Rejected(ErrorsOf(f))
  }

  /** Whether a present key's value passes its field, independently of the
      other keys. */
  predicate FieldAccepts(key: string, j: Json)
  {
    if key == "mood" then ParseMood(j).Ok?
    else if key == "intensity" then ParseIntensity(j).Ok?
    else if key == "activities" || key == "tags" then ParseList(j).Ok?
    else if key == "notes" then ParseNotes(j).Ok?
    else if key == "is_auto_detected" then ParseFlag(j).Ok?
    else true
  }

  /** Whether the serializer rejects the field `key` of this body: a present
      value that does not pass, or mood or intensity missing from a full
      update. */
  predicate FieldRejected(body: Body, partial: bool, key: string)
  {
    key in WritableFields - {"insight"} &&
    if key in body then !FieldAccepts(key, body[key]) else (key == "mood" || key == "intensity") && !partial
  }

  /** The errors are listed under exactly the rejected fields. */
  lemma ErrorKeys(body: Body, partial: bool)
    ensures forall k :: k in ErrorsOf(ReadFields(body, partial)) <==> FieldRejected(body, partial, k)
  {
    forall k ensures k in ErrorsOf(ReadFields(body, partial)) <==> FieldRejected(body, partial, k) {
      if k == "mood" || k == "intensity" {
        RequiredErrorKey(body, partial, k);
      } else if k == "activities" || k == "tags" {
        ListErrorKey(body, partial, k);
      } else if k == "notes" || k == "is_auto_detected" {
        OtherErrorKey(body, partial, k);
      } else {
        ErrorsOfKey(ReadFields(body, partial), k);
        assert k !in WritableFields - {"insight"};
      }
    }
  }

  lemma RequiredErrorKey(body: Body, partial: bool, k: string)
    requires k == "mood" || k == "intensity"
    ensures k in ErrorsOf(ReadFields(body, partial)) <==> FieldRejected(body, partial, k)
  {
    var f := ReadFields(body, partial);
    ErrorsOfKey(f, k);
    if k == "mood" {
      FieldRejectedIff(body, partial, "mood", ParseMood, true, f.mood);
    } else {
      FieldRejectedIff(body, partial, "intensity", ParseIntensity, true, f.intensity);
    }
  }

  lemma ListErrorKey(body: Body, partial: bool, k: string)
    requires k == "activities" || k == "tags"
    ensures k in ErrorsOf(ReadFields(body, partial)) <==> FieldRejected(body, partial, k)
  {
    var f := ReadFields(body, partial);
    ErrorsOfKey(f, k);
    if k == "activities" {
      FieldRejectedIff(body, partial, "activities", ParseList, false, f.activities);
    } else {
      FieldRejectedIff(body, partial, "tags", ParseList, false, f.tags);
    }
  }

  lemma OtherErrorKey(body: Body, partial: bool, k: string)
    requires k == "notes" || k == "is_auto_detected"
    ensures k in ErrorsOf(ReadFields(body, partial)) <==> FieldRejected(body, partial, k)
  {
    var f := ReadFields(body, partial);
    ErrorsOfKey(f, k);
    if k == "notes" {
      FieldRejectedIff(body, partial, "notes", ParseNotes, false, f.notes);
    } else {
      FieldRejectedIff(body, partial, "is_auto_detected", ParseFlag, false, f.flag);
    }
  }

  /** A field read with its own parser is bad exactly when it is rejected. */
  lemma FieldRejectedIff<T>(body: Body, partial: bool, key: string, parse: Json -> Result<T>, required: bool,
                            field: Field<T>)
    requires field == ReadField(body, key, parse, required, partial)
    requires key in WritableFields - {"insight"}
    requires required <==> key == "mood" || key == "intensity"
    requires key in body ==> (parse(body[key]).Ok? <==> FieldAccepts(key, body[key]))
    ensures field.Bad? <==> FieldRejected(body, partial, key)
  {
    ReadFieldSpec(body, key, parse, required, partial);
  }

  /** A key is among the errors exactly when it names a bad field. */
  lemma ErrorsOfKey(f: Fields, k: string)
    ensures k in ErrorsOf(f) <==>
              (k == "mood" && f.mood.Bad?) || (k == "intensity" && f.intensity.Bad?) ||
              (k == "activities" && f.activities.Bad?) || (k == "notes" && f.notes.Bad?) ||
              (k == "tags" && f.tags.Bad?) || (k == "is_auto_detected" && f.flag.Bad?)
  {
    var a, b, c := f.mood.Errors("mood").Keys, f.intensity.Errors("intensity").Keys, f.activities.Errors("activities").Keys;
    var d, e, g := f.notes.Errors("notes").Keys, f.tags.Errors("tags").Keys, f.flag.Errors("is_auto_detected").Keys;
    assert ErrorsOf(f).Keys == a + b + c + d + e + g;
    FieldErrorKey(f.mood, "mood", k);
    FieldErrorKey(f.intensity, "intensity", k);
    FieldErrorKey(f.activities, "activities", k);
    FieldErrorKey(f.notes, "notes", k);
    FieldErrorKey(f.tags, "tags", k);
    FieldErrorKey(f.flag, "is_auto_detected", k);
  }

  lemma FieldErrorKey<T>(x: Field<T>, key: string, k: string)
    ensures k in x.Errors(key).Keys <==> k == key && x.Bad?
  {
  }

  /** A body is accepted exactly when every present field passes and, unless
      the update is partial, mood and intensity are present; a rejected body
      has at least one error, and its errors are under exactly the rejected
      fields. */
  lemma ValidateSpec(body: Body, partial: bool)
    ensures Validate(body, partial).Accepted? <==>
              (forall k :: k in body && k in WritableFields - {"insight"} ==> FieldAccepts(k, body[k])) &&
              (!partial ==> "mood" in body && "intensity" in body)
    ensures Validate(body, partial).Rejected? ==>
              Validate(body, partial).errors != map[] && Validate(body, partial).errors.Keys <= WritableFields
    ensures Validate(body, partial).Rejected? ==>
              forall k :: k in Validate(body, partial).errors <==> FieldRejected(body, partial, k)
  {
    ErrorKeys(body, partial);
    ReadFieldSpec(body, "mood", ParseMood, true, partial);
    ReadFieldSpec(body, "intensity", ParseIntensity, true, partial);
    ReadFieldSpec(body, "activities", ParseList, false, partial);
    ReadFieldSpec(body, "notes", ParseNotes, false, partial);
    ReadFieldSpec(body, "tags", ParseList, false, partial);
    ReadFieldSpec(body, "is_auto_detected", ParseFlag, false, partial);
    FieldsAccepted(body);
  }

  /** Every present field passing, key by key. */
  lemma FieldsAccepted(body: Body)
    ensures (forall k :: k in body && k in WritableFields - {"insight"} ==> FieldAccepts(k, body[k])) <==>
              ("mood" in body ==> ParseMood(body["mood"]).Ok?) &&
              ("intensity" in body ==> ParseIntensity(body["intensity"]).Ok?) &&
              ("activities" in body ==> ParseList(body["activities"]).Ok?) &&
              ("notes" in body ==> ParseNotes(body["notes"]).Ok?) &&
              ("tags" in body ==> ParseList(body["tags"]).Ok?) &&
              ("is_auto_detected" in body ==> ParseFlag(body["is_auto_detected"]).Ok?)
  {
    var keys := WritableFields - {"insight"};
    assert keys == {"mood", "intensity", "activities", "notes", "tags", "is_auto_detected"};
  }

  /** An accepted body never sets `id`, `user` or `timestamp`, carries a field
      exactly when the body has it, and only moods of the vocabulary and
      intensities from 1 to 5; a full update always carries both. */
  lemma ValidatePatch(body: Body, partial: bool)
    requires Validate(body, partial).Accepted?
    ensures var p := Validate(body, partial).patch;
            p.id.None? && p.user.None? && p.timestamp.None? &&
            (p.mood.Some? <==> "mood" in body) && (p.intensity.Some? <==> "intensity" in body) &&
            (p.activities.Some? <==> "activities" in body) && (p.notes.Some? <==> "notes" in body) &&
            (p.tags.Some? <==> "tags" in body) && (p.isAutoDetected.Some? <==> "is_auto_detected" in body) &&
            (p.mood.Some? ==> p.mood.value in MoodChoices) &&
            (p.intensity.Some? ==> 1 <= p.intensity.value <= 5) &&
            (!partial ==> p.mood.Some? && p.intensity.Some?)
  {
    ValidateSpec(body, partial);
    ReadFieldSpec(body, "mood", ParseMood, true, partial);
    ReadFieldSpec(body, "intensity", ParseIntensity, true, partial);
    ReadFieldSpec(body, "activities", ParseList, false, partial);
    ReadFieldSpec(body, "notes", ParseNotes, false, partial);
    ReadFieldSpec(body, "tags", ParseList, false, partial);
    ReadFieldSpec(body, "is_auto_detected", ParseFlag, false, partial);
    if "intensity" in body {
      ParseIntensitySpec(body["intensity"]);
    }
  }

  /** An accepted body's patch carries, for each field present, the value
      its parser makes of it. */
  lemma ValidateValues(body: Body, partial: bool)
    requires Validate(body, partial).Accepted?
    ensures var p := Validate(body, partial).patch;
            ("mood" in body ==> p.mood.Some? && ParseMood(body["mood"]) == Ok(p.mood.value)) &&
            ("intensity" in body ==> p.intensity.Some? && ParseIntensity(body["intensity"]) == Ok(p.intensity.value)) &&
            ("activities" in body ==> p.activities.Some? && ParseList(body["activities"]) == Ok(p.activities.value)) &&
            ("notes" in body ==> p.notes.Some? && ParseNotes(body["notes"]) == Ok(p.notes.value)) &&
            ("tags" in body ==> p.tags.Some? && ParseList(body["tags"]) == Ok(p.tags.value)) &&
            ("is_auto_detected" in body ==>
               p.isAutoDetected.Some? && ParseFlag(body["is_auto_detected"]) == Ok(p.isAutoDetected.value))
  {
    ReadFieldSpec(body, "mood", ParseMood, true, partial);
    ReadFieldSpec(body, "intensity", ParseIntensity, true, partial);
    ReadFieldSpec(body, "activities", ParseList, false, partial);
    ReadFieldSpec(body, "notes", ParseNotes, false, partial);
    ReadFieldSpec(body, "tags", ParseList, false, partial);
    ReadFieldSpec(body, "is_auto_detected", ParseFlag, false, partial);
  }

  /** A key the serializer does not read (`userId`, `user`, `isAutoDetected`,
      `timestamp`, ...) has no effect on the outcome. */
  lemma IgnoresOtherKeys(body: Body, key: string, partial: bool)
    requires key !in WritableFields
    ensures Validate(body - {key}, partial) == Validate(body, partial)
  {
    ReadFieldIgnores(body, key, "mood", ParseMood, true, partial);
    ReadFieldIgnores(body, key, "intensity", ParseIntensity, true, partial);
    ReadFieldIgnores(body, key, "activities", ParseList, false, partial);
    ReadFieldIgnores(body, key, "notes", ParseNotes, false, partial);
    ReadFieldIgnores(body, key, "tags", ParseList, false, partial);
    ReadFieldIgnores(body, key, "is_auto_detected", ParseFlag, false, partial);
    assert ReadFields(body - {key}, partial) == ReadFields(body, partial);
  }

  /** `ModelSerializer.create` after `perform_create`: the owner is the
      requesting user, the timestamp the time of saving, and the fields left
      out of the body take the model's defaults. */
  function NewEntry(p: EntryPatch, id: int, user: int, now: int): (e: MoodEntry)
    requires p.mood.Some? && p.intensity.Some?
    ensures e.user == user && e.id == id && e.timestamp == Some(now)
    ensures e.mood == p.mood.value && e.intensity == p.intensity.value
    ensures e.activities == (if p.activities.Some? then p.activities.value else [])
    ensures e.tags == (if p.tags.Some? then p.tags.value else [])
    ensures e.notes == (if p.notes.Some? then p.notes.value else "")
    ensures e.isAutoDetected == (p.isAutoDetected.Some? && p.isAutoDetected.value)
  {
    MoodEntry(id, user, p.mood.value, p.intensity.value, p.activities.GetOr([]), p.notes.GetOr(""),
              p.tags.GetOr([]), Some(now), p.isAutoDetected.GetOr(false))
  }

  /** A valid create body yields an entry owned by the requester, with a mood
      of the vocabulary and an intensity from 1 to 5. */
  lemma CreateFromValidBody(body: Body, id: int, user: int, now: int)
    requires Validate(body, false).Accepted?
    ensures var p := Validate(body, false).patch;
            p.mood.Some? && p.intensity.Some? &&
            var e := NewEntry(p, id, user, now);
            e.user == user && e.mood in MoodChoices && 1 <= e.intensity <= 5
  {
    ValidatePatch(body, false);
  }

  // ---------------------------------------------------------------------
  // Insights

  /** `SuggestionSerializer`: the stored text, its type and its confidence
      score, null unless set. */
  datatype SuggestionView = SuggestionView(content: string, suggestionType: string, confidenceScore: Option<real>)

  /** `InsightSerializer`'s output. The chart objects are pairs of the fields
      they hold. */
  datatype InsightView = InsightView(
    id: int,
    periodStart: int,
    periodEnd: int,
    dominantMood: string,
    moodCorrelations: seq<(string, real)>,
    activityImpact: seq<(string, real)>,
    suggestions: seq<SuggestionView>,
    moodChartDistribution: seq<(string, nat)>,
    activityChartTop: seq<(string, nat)>,
    activityChartCorrelations: seq<(string, real)>,
    intensityStats: Engine.IntensityStats)

  function Abs(x: real): real
  {
    if x < 0.0 then -x else x
  }

  /** `get_activityImpact`: each correlation's magnitude. */
  function Impact(corr: seq<(string, real)>): seq<(string, real)>
  {
    Map(corr, (p: (string, real)) => (p.0, Abs(p.1)))
  }

  /** The impact keeps the activities and their order, its values are the
      magnitudes of the correlations, never negative, and taking it twice
      changes nothing. */
  lemma ImpactSpec(corr: seq<(string, real)>)
    ensures |Impact(corr)| == |corr|
    ensures forall i :: 0 <= i < |corr| ==>
              Impact(corr)[i].0 == corr[i].0 && Impact(corr)[i].1 >= 0.0 &&
              (Impact(corr)[i].1 == corr[i].1 || Impact(corr)[i].1 == -corr[i].1)
    ensures Impact(Impact(corr)) == Impact(corr)
  {
  }

  function Reverse<T>(s: seq<T>): (r: seq<T>)
    ensures |r| == |s| && forall i :: 0 <= i < |s| ==> r[i] == s[|s| - 1 - i]
  {
    if s == [] then [] else Reverse(s[1..]) + [s[0]]
  }

  /** The suggestions as the related manager lists them: by `-generated_at`,
      so the one created last comes first. `_generate_suggestions` sets the
      type and never the confidence score. */
  function SuggestionViews(contents: seq<string>): seq<SuggestionView>
  {
    Map(Reverse(contents), (c: string) => SuggestionView(c, "auto_generated", None))
  }

  /** `InsightSerializer(insight).data` for the stored insight `id`. */
  function SerializeInsight(id: int, i: Engine.Insight): InsightView
  {
    InsightView(id, i.periodStart, i.periodEnd, i.dominantMood, i.activityCorrelations,
                Impact(i.activityCorrelations), SuggestionViews(i.suggestions), i.moodDistribution,
                i.topActivities, i.activityCorrelations, i.intensityStats)
  }

  /** `DateField.to_representation`: a date is shown as it is; a datetime
      fails the field's assertion that it is not one, and the request ends in
      a server error. */
  function DateRepresentation(v: Engine.DateValue): (r: Option<int>)
    ensures r.Some? <==> v.Date?
    ensures r.Some? ==> r.value == v.day
  {
    match v
    case Date(d) => Some(d)
    case DateTime(_) => None
  }

  /** `InsightSerializer(insight).data` for an instance whose period fields
      hold `start` and `end`: nothing when a period is refused. */
  function SerializeInstance(id: int, i: Engine.Insight, start: Engine.DateValue, end: Engine.DateValue)
    : (r: Option<InsightView>)
    ensures r.Some? <==> start.Date? && end.Date?
    ensures r.Some? ==> r.value == SerializeInsight(id, i.(periodStart := start.day, periodEnd := end.day))
  {
    match (DateRepresentation(start), DateRepresentation(end))
    case (Some(s), Some(e)) => Some(SerializeInsight(id, i.(periodStart := s, periodEnd := e)))
    case _ => None
  }

  /** The serialized insight carries the stored id, the period, the dominant
      mood, the statistics and the chart data as stored; it shows the same
      correlations twice, their magnitudes under the same activities, and
      every suggestion once, the last created first, as an automatic one
      with a null confidence. */
  lemma SerializeInsightSpec(id: int, i: Engine.Insight)
    ensures var v := SerializeInsight(id, i);
            v.id == id && v.periodStart == i.periodStart && v.periodEnd == i.periodEnd &&
            v.dominantMood == i.dominantMood && v.intensityStats == i.intensityStats &&
            v.moodChartDistribution == i.moodDistribution && v.activityChartTop == i.topActivities
    ensures var v := SerializeInsight(id, i);
            v.moodCorrelations == v.activityChartCorrelations == i.activityCorrelations &&
            ActivitiesOfView(v.activityImpact) == ActivitiesOfView(i.activityCorrelations) &&
            |v.suggestions| == |i.suggestions| &&
            (forall k :: 0 <= k < |i.suggestions| ==>
               v.suggestions[k].content == i.suggestions[|i.suggestions| - 1 - k] &&
               v.suggestions[k].suggestionType == "auto_generated" &&
               v.suggestions[k].confidenceScore.None?)
  {
    ImpactSpec(i.activityCorrelations);
  }

  function ActivitiesOfView(c: seq<(string, real)>): seq<string>
  {
    Map(c, (p: (string, real)) => p.0)
  }
}
