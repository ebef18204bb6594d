/** The server's mood endpoints (`moods/views.py`): the listing with its user
    and date-window filters and its ordering, the creation that makes the
    requester the owner, the detail lookups confined to the requester's
    entries, and the insight generation that answers 400 when there is
    nothing to analyse. The entry table is a sequence in table order; days
    are day numbers. */
module MoodViews {
  import opened Wrappers
  import opened Seqs
  import opened Sorting
  import opened Calendar
  import opened Types
  import Engine
  import Serializers

  /** The entry belongs to `user`. */
  predicate OwnedBy(e: MoodEntry, user: int)
  {
    e.user == user
  }

  /** `MoodEntry.objects.filter(user=request.user)`. */
  function UserEntries(table: seq<MoodEntry>, user: int): seq<MoodEntry>
  {
    Filter(table, (e: MoodEntry) => OwnedBy(e, user))
  }

  /** The date of the entry's timestamp is `d` or later. */
  predicate DatedFrom(e: MoodEntry, d: int)
  {
    e.timestamp.Some? && DayNumber(e.timestamp.value) >= d
  }

  predicate DatedOn(e: MoodEntry, d: int)
  {
    e.timestamp.Some? && DayNumber(e.timestamp.value) == d
  }

  /** The `date_filter` step: 'today' keeps the entries dated today, 'week'
      those dated seven days ago or later, 'month' thirty days ago or later;
      an absent, empty or other value keeps everything. */
  function DateWindow(entries: seq<MoodEntry>, dateFilter: Option<string>, today: int): seq<MoodEntry>
  {
    if dateFilter.None? || dateFilter.value == "" then entries
    else if dateFilter.value == "today" then Filter(entries, (e: MoodEntry) => DatedOn(e, today))
    else if dateFilter.value == "week" then Filter(entries, (e: MoodEntry) => DatedFrom(e, today - 7))
    else if dateFilter.value == "month" then Filter(entries, (e: MoodEntry) => DatedFrom(e, today - 30))
    else entries
  }

  /** Whether the window of `dateFilter` keeps an entry. */
  predicate InDateWindow(e: MoodEntry, dateFilter: Option<string>, today: int)
  {
    if dateFilter.None? || dateFilter.value == "" then true
    else if dateFilter.value == "today" then DatedOn(e, today)
    else if dateFilter.value == "week" then DatedFrom(e, today - 7)
    else if dateFilter.value == "month" then DatedFrom(e, today - 30)
    else true
  }

  /** `get_queryset` of the list endpoint at instant `now`. */
  function ListEntries(table: seq<MoodEntry>, user: int, dateFilter: Option<string>, now: int): seq<MoodEntry>
  {
    NewestFirst(DateWindow(UserEntries(table, user), dateFilter, DayNumber(now)))
  }

  /** The window keeps exactly the entries its filter value admits. */
  lemma DateWindowSpec(entries: seq<MoodEntry>, dateFilter: Option<string>, today: int)
    ensures forall e :: e in DateWindow(entries, dateFilter, today) <==> e in entries && InDateWindow(e, dateFilter, today)
    ensures Subseq(DateWindow(entries, dateFilter, today), entries)
  {
    if dateFilter.Some? && dateFilter.value == "today" {
      FilterIsSubseq(entries, (e: MoodEntry) => DatedOn(e, today));
    } else if dateFilter.Some? && dateFilter.value == "week" {
      FilterIsSubseq(entries, (e: MoodEntry) => DatedFrom(e, today - 7));
    } else if dateFilter.Some? && dateFilter.value == "month" {
      FilterIsSubseq(entries, (e: MoodEntry) => DatedFrom(e, today - 30));
    } else {
      SubseqReflexive(entries);
    }
  }

  /** The listing holds only the requester's entries, exactly those the date
      window admits, each as often as in the table, newest first; an absent
      or unknown filter value lists all of them. */
  lemma ListEntriesSpec(table: seq<MoodEntry>, user: int, dateFilter: Option<string>, now: int)
    ensures forall e :: e in ListEntries(table, user, dateFilter, now) <==>
              e in table && e.user == user && InDateWindow(e, dateFilter, DayNumber(now))
    ensures multiset(ListEntries(table, user, dateFilter, now)) ==
              multiset(DateWindow(UserEntries(table, user), dateFilter, DayNumber(now)))
    ensures SortedDesc(ListEntries(table, user, dateFilter, now), Stamp)
    ensures (dateFilter.None? || dateFilter.value !in {"today", "week", "month"}) ==>
              multiset(ListEntries(table, user, dateFilter, now)) == multiset(UserEntries(table, user))
  {
    var mine := UserEntries(table, user);
    var w := DateWindow(mine, dateFilter, DayNumber(now));
    DateWindowSpec(mine, dateFilter, DayNumber(now));
    SortSpec(w, Stamp);
    var r := ListEntries(table, user, dateFilter, now);
    forall e ensures e in r <==> e in w {
      assert e in r <==> e in multiset(r);
      assert e in w <==> e in multiset(w);
    }
  }

  /** A longer window lists every entry a shorter one lists. */
  lemma WindowsNest(table: seq<MoodEntry>, user: int, now: int)
    ensures forall e :: e in ListEntries(table, user, Some("today"), now) ==> e in ListEntries(table, user, Some("week"), now)
    ensures forall e :: e in ListEntries(table, user, Some("week"), now) ==> e in ListEntries(table, user, Some("month"), now)
    ensures forall e :: e in ListEntries(table, user, Some("month"), now) ==> e in ListEntries(table, user, None, now)
  {
    ListEntriesSpec(table, user, Some("today"), now);
    ListEntriesSpec(table, user, Some("week"), now);
    ListEntriesSpec(table, user, Some("month"), now);
    ListEntriesSpec(table, user, None, now);
  }

  /** The answer of an endpoint: its status and, when there is one, the entry. */
  datatype Answer = Answer(status: int, entry: Option<MoodEntry>, errors: map<string, string>)

  /** `create` with `perform_create`: a body the serializer rejects is a 400
      and changes nothing; otherwise the new entry, owned by the requester and
      stamped `now`, is added to the table and returned with 201. */
  function Create(table: seq<MoodEntry>, user: int, body: Body, newId: int, now: int): (r: (Answer, seq<MoodEntry>))
    ensures r.0.status == 201 <==> Serializers.Validate(body, false).Accepted?
    ensures r.0.status == 400 <==> Serializers.Validate(body, false).Rejected?
    ensures r.0.status == 400 ==> r.1 == table && r.0.entry.None? && r.0.errors != map[]
    ensures r.0.status == 201 ==>
              r.0.entry.Some? && r.1 == table + [r.0.entry.value] &&
              r.0.entry.value.user == user && r.0.entry.value.id == newId &&
              r.0.entry.value.timestamp == Some(now) &&
              r.0.entry.value.mood in MoodChoices && 1 <= r.0.entry.value.intensity <= 5
  {
    match Serializers.Validate(body, false)
    case Rejected(errors) =>
      Serializers.ValidateSpec(body, false);
      (Answer(400, None, errors), table)
    case Accepted(p) =>
      Serializers.ValidatePatch(body, false);
      var e := Serializers.NewEntry(p, newId, user, now);
      (Answer(201, Some(e), map[]), table + [e])
  }

  /** A key in the body cannot make someone else the owner: whatever `user`
      value the client sends, the created entry belongs to the requester. */
  lemma CreateIgnoresClaimedOwner(table: seq<MoodEntry>, user: int, body: Body, claimed: Json, newId: int, now: int)
    ensures Create(table, user, body["user" := claimed], newId, now) == Create(table, user, body - {"user"}, newId, now)
    ensures Create(table, user, body["user" := claimed], newId, now).0.entry.Some? ==>
              Create(table, user, body["user" := claimed], newId, now).0.entry.value.user == user
  {
    var b := body["user" := claimed];
    assert b - {"user"} == body - {"user"};
    Serializers.IgnoresOtherKeys(b, "user", false);
  }

  /** The detail endpoints' lookup: the first of the requester's entries with
      that id, or nothing (a 404). */
  function Lookup(table: seq<MoodEntry>, user: int, id: int): (r: Option<MoodEntry>)
    ensures r.Some? ==> r.value in table && r.value.user == user && r.value.id == id
    ensures r.None? <==> forall e :: e in table && e.user == user ==> e.id != id
  {
    var found := Filter(UserEntries(table, user), (e: MoodEntry) => e.id == id);
    if found == [] then None else Some(found[0])
  }

  /** Another user's entry is never found, even when its id is asked for and
      ids are unique. */
  lemma LookupOnlyOwn(table: seq<MoodEntry>, user: int, e: MoodEntry)
    requires e in table && e.user != user
    requires forall x, y :: x in table && y in table && x.id == y.id ==> x == y
    ensures Lookup(table, user, e.id).None?
  {
  }

  /** PATCH on an entry: 404 when the requester has no entry with that id,
      400 when the body is rejected, otherwise the validated fields replace
      the entry's, in place. */
  function PartialUpdate(table: seq<MoodEntry>, user: int, id: int, body: Body): (r: (Answer, seq<MoodEntry>))
    ensures r.0.status in {200, 400, 404}
    ensures r.0.status != 200 ==> r.1 == table
    ensures r.0.status == 404 <==> Lookup(table, user, id).None?
    ensures r.0.status == 200 ==>
              |r.1| == |table| && r.0.entry.Some? && r.0.entry.value.user == user && r.0.entry.value.id == id &&
              forall i :: 0 <= i < |table| ==> r.1[i] == (if table[i] == Lookup(table, user, id).value
                                                          then r.0.entry.value else table[i])
  {
    match Lookup(table, user, id)
    case None => (Answer(404, None, map[]), table)
    case Some(e) =>
      match Serializers.Validate(body, true)
      case Rejected(errors) => (Answer(400, None, errors), table)
      case Accepted(p) =>
        Serializers.ValidatePatch(body, true);
        var updated := Overlay(e, p);
        (Answer(200, Some(updated), map[]), Map(table, (x: MoodEntry) => if x == e then updated else x))
  }

  /** DELETE on an entry: 404 when not found, otherwise 204 and the entry is
      gone, the rest of the table kept in order. */
  function Destroy(table: seq<MoodEntry>, user: int, id: int): (r: (Answer, seq<MoodEntry>))
    ensures r.0.status in {204, 404}
    ensures r.0.status == 404 <==> Lookup(table, user, id).None?
    ensures r.0.status == 404 ==> r.1 == table
    ensures r.0.status == 204 ==>
              (Lookup(table, user, id).value !in r.1 && Subseq(r.1, table) &&
               forall e :: e in table && e != Lookup(table, user, id).value ==> e in r.1)
  {
    match Lookup(table, user, id)
    case None => (Answer(404, None, map[]), table)
    case Some(e) =>
      RemoveAllSpec(table, e);
      (Answer(204, None, map[]), RemoveAll(table, e))
  }

  const NotEnoughData: string := "Not enough data to generate insights"

  /** `GenerateInsightAPI.post` for an analyser whose returned insight holds
      `periods` in its period fields: 400 with the detail message when the
      analyser returns nothing (no rows, or a NaN coefficient it could not
      store); otherwise the serializer's view of the insight,
      or a server error when the serializer refuses a period. */
  method InsightResponse(table: seq<MoodEntry>, user: int, now: int, pearson: Engine.Pearson, newId: int,
                         periods: (Engine.DateValue, Engine.DateValue))
    returns (status: int, detail: Option<string>, view: Option<Serializers.InsightView>)
    ensures status == 400 <==> Engine.LoadData(table, user, now, Engine.LookbackDays) == [] ||
                               Engine.Unstorable(Engine.LoadData(table, user, now, Engine.LookbackDays))
    ensures status == 400 ==> detail == Some(NotEnoughData) && view.None?
    ensures status != 400 ==>
              detail.None? && (status == 200 <==> view.Some?) && (status != 200 ==> status == 500) &&
              view == Serializers.SerializeInstance(
                        newId, Engine.InsightOf(Engine.LoadData(table, user, now, Engine.LookbackDays), user, now, pearson),
                        periods.0, periods.1)
  {
    var insight := Engine.GenerateInsights(table, user, now, pearson);
    if insight.None? {
      return 400, Some(NotEnoughData), None;
    }
    view := Serializers.SerializeInstance(newId, insight.value, periods.0, periods.1);
    status := if view.Some? then 200 else 500;
    detail := None;
  }

  /** `GenerateInsightAPI.post` as written. The insight the analyser returns
      still holds the datetimes it was created with, and the serializer's
      `DateField`s refuse them: an insight that was stored always ends in a
      server error, after the insight and its suggestions were stored. */
  method GenerateInsight(table: seq<MoodEntry>, user: int, now: int, pearson: Engine.Pearson, newId: int)
    returns (status: int, detail: Option<string>, view: Option<Serializers.InsightView>)
    ensures status == 400 <==> Engine.LoadData(table, user, now, Engine.LookbackDays) == [] ||
                               Engine.Unstorable(Engine.LoadData(table, user, now, Engine.LookbackDays))
    ensures status == 400 ==> detail == Some(NotEnoughData) && view.None?
    ensures status != 400 ==> status == 500 && detail.None? && view.None?
  {
    status, detail, view := InsightResponse(table, user, now, pearson, newId, Engine.CreatedPeriods(now));
  }

  /** `GenerateInsightAPI.post` with the periods taken as dates (`.date()`),
      as the row stores them: an insight that was stored is answered 200
      with its serialized view. */
  method GenerateInsightDated(table: seq<MoodEntry>, user: int, now: int, pearson: Engine.Pearson, newId: int)
    returns (status: int, detail: Option<string>, view: Option<Serializers.InsightView>)
    ensures status == 400 <==> Engine.LoadData(table, user, now, Engine.LookbackDays) == [] ||
                               Engine.Unstorable(Engine.LoadData(table, user, now, Engine.LookbackDays))
    ensures status == 400 ==> detail == Some(NotEnoughData) && view.None?
    ensures status != 400 ==>
              (status == 200 && detail.None? && view.Some? &&
               view.value.moodChartDistribution == Engine.MoodDistribution(Engine.LoadData(table, user, now, Engine.LookbackDays)) &&
               view.value.moodCorrelations == Engine.CorrelationTable(Engine.LoadData(table, user, now, Engine.LookbackDays), pearson))
    ensures status == 200 ==>
              view == Some(Serializers.SerializeInsight(newId, Engine.InsightOf(Engine.LoadData(table, user, now, Engine.LookbackDays),
                                                                               user, now, pearson)))
  {
    var periods := (Engine.Date(DayNumber(Engine.WindowStart(now, Engine.LookbackDays))), Engine.Date(DayNumber(now)));
    status, detail, view := InsightResponse(table, user, now, pearson, newId, periods);
  }

  /** One entry of the requester inside the window is enough for the server
      error: the analyser has rows and stores the insight, and the serializer refuses the periods
      the returned insight holds. */
  lemma OneEntryServerError(e: MoodEntry, now: int, pearson: Engine.Pearson, newId: int)
    requires e.timestamp.Some? && Engine.WindowStart(now, Engine.LookbackDays) <= e.timestamp.value
    ensures Engine.LoadData([e], e.user, now, Engine.LookbackDays) != []
    ensures !Engine.Unstorable(Engine.LoadData([e], e.user, now, Engine.LookbackDays))
    ensures var rows := Engine.LoadData([e], e.user, now, Engine.LookbackDays);
            var periods := Engine.CreatedPeriods(now);
            rows != [] && Serializers.SerializeInstance(newId, Engine.InsightOf(rows, e.user, now, pearson),
                                                        periods.0, periods.1).None?
  {
    Engine.LoadDataSpec([e], e.user, now, Engine.LookbackDays);
    var rows := Engine.LoadData([e], e.user, now, Engine.LookbackDays);
    assert e in rows;
    assert |rows| == |multiset(rows)| == |Engine.Window([e], e.user, Engine.WindowStart(now, Engine.LookbackDays))| <= 1;
  }
}
