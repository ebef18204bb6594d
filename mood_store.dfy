/** The client store of mood entries (`moodStore.ts`): the list the pages show,
    a loading flag and the last error, changed by four asynchronous actions that
    call the entries API. The outcome of each call is an input. */
module MoodStore {
  import opened Wrappers
  import opened Seqs
  import opened Types

  /** How an awaited API call settled: it threw (network failure, unreadable
      body) with a message, it answered with a non-2xx status, or it answered
      with a body. */
  datatype Reply<T> = Rejected(message: string) | NotOk | Answered(body: T)

  /** The list endpoint's body: a bare array, or a paginated object whose
      `results` may be missing. */
  datatype ListBody = ArrayBody(items: seq<MoodEntry>) | PagedBody(results: Option<seq<MoodEntry>>)

  /** The optional filters of `fetchEntries`. */
  datatype Filters = Filters(dateFilter: Option<string>, moodFilter: Option<string>, searchTerm: Option<string>)

  /** A filter is sent when it is present and not the empty string. */
  predicate Given(f: Option<string>)
  {
    f.Some? && f.value != ""
  }

  /** The value of the first query parameter named `key`. */
  function ParamValue(ps: seq<(string, string)>, key: string): Option<string>
  {
    if ps == [] then None else if ps[0].0 == key then Some(ps[0].1) else ParamValue(ps[1..], key)
  }

  function ParamIf(f: Option<string>, key: string): seq<(string, string)>
  {
    if Given(f) then [(key, f.value)] else []
  }

  /** The `URLSearchParams` of `fetchEntries`, in the order they are appended. */
  function QueryParams(f: Filters): (ps: seq<(string, string)>)
    ensures |ps| <= 3
    ensures forall i :: 0 <= i < |ps| ==> ps[i].1 != ""
    ensures ParamValue(ps, "date_filter") == (if Given(f.dateFilter) then f.dateFilter else None)
    ensures ParamValue(ps, "mood") == (if Given(f.moodFilter) then f.moodFilter else None)
    ensures ParamValue(ps, "search") == (if Given(f.searchTerm) then f.searchTerm else None)
  {
    var d, m, s := ParamIf(f.dateFilter, "date_filter"), ParamIf(f.moodFilter, "mood"), ParamIf(f.searchTerm, "search");
    assert "date_filter" != "mood" && "date_filter" != "search" && "mood" != "search";
    ParamIfValue(f.dateFilter, "date_filter", "mood");
    ParamIfValue(f.dateFilter, "date_filter", "search");
    ParamIfValue(f.dateFilter, "date_filter", "date_filter");
    ParamIfValue(f.moodFilter, "mood", "mood");
    ParamIfValue(f.moodFilter, "mood", "search");
    ParamIfValue(f.moodFilter, "mood", "date_filter");
    ParamIfValue(f.searchTerm, "search", "mood");
    ParamIfValue(f.searchTerm, "search", "search");
    ParamIfValue(f.searchTerm, "search", "date_filter");
    ParamValueAppend(d, m + s, "date_filter");
    ParamValueAppend(d, m + s, "mood");
    ParamValueAppend(d, m + s, "search");
    ParamValueAppend(m, s, "mood");
    ParamValueAppend(m, s, "search");
    ParamValueAppend(m, s, "date_filter");
    assert d + m + s == d + (m + s);
    d + m + s
  }

  /** A filter's own parameter holds its value when given; no other key is found in it. */
  lemma ParamIfValue(f: Option<string>, key: string, other: string)
    ensures ParamValue(ParamIf(f, key), other) == if other == key && Given(f) then f else None
  {
  }

  /** Looking a key up in two lists of parameters finds it in the first one first. */
  lemma {:induction false} ParamValueAppend(a: seq<(string, string)>, b: seq<(string, string)>, key: string)
    ensures ParamValue(a + b, key) == if ParamValue(a, key).Some? then ParamValue(a, key) else ParamValue(b, key)
  {
    if a != [] {
      assert (a + b)[1..] == a[1..] + b;
      ParamValueAppend(a[1..], b, key);
    } else {
      assert a + b == b;
    }
  }

  /** The entries a list body provides: the array itself, else `results`, else none. */
  function EntriesOf(b: ListBody): seq<MoodEntry>
  {
    match b
    case ArrayBody(items) => items
    case PagedBody(results) => results.GetOr([])
  }

  /** The body `addEntry` posts: the draft, with falsy `activities` and `tags` replaced by `[]`. */
  function AddEntryBody(draft: Body): (b: Body)
    ensures "activities" in b && "tags" in b
    ensures b["activities"] == (if "activities" in draft && Truthy(draft["activities"]) then draft["activities"] else JStrList([]))
    ensures b["tags"] == (if "tags" in draft && Truthy(draft["tags"]) then draft["tags"] else JStrList([]))
    ensures forall k :: k != "activities" && k != "tags" ==> (k in b <==> k in draft)
    ensures forall k :: k != "activities" && k != "tags" && k in draft ==> b[k] == draft[k]
  {
    var acts := if "activities" in draft && Truthy(draft["activities"]) then draft["activities"] else JStrList([]);
    var tags := if "tags" in draft && Truthy(draft["tags"]) then draft["tags"] else JStrList([]);
    draft["activities" := acts]["tags" := tags]
  }

  /** `entries.map(e => e.id === id ? { ...e, ...patch } : e)`. */
  function UpdateById(es: seq<MoodEntry>, id: int, p: EntryPatch): (r: seq<MoodEntry>)
    ensures |r| == |es|
    ensures forall i :: 0 <= i < |es| && es[i].id != id ==> r[i] == es[i]
    ensures forall i :: 0 <= i < |es| && es[i].id == id ==> r[i] == Overlay(es[i], p)
  {
    Map(es, (e: MoodEntry) => if e.id == id then Overlay(e, p) else e)
  }

  function Ids(es: seq<MoodEntry>): seq<int>
  {
    Map(es, (e: MoodEntry) => e.id)
  }

  /** An update whose response keeps the id (or omits it) leaves every id in place,
      and repeating it changes nothing more. */
  lemma UpdateByIdLaws(es: seq<MoodEntry>, id: int, p: EntryPatch)
    ensures p.id.None? || p.id == Some(id) ==> Ids(UpdateById(es, id, p)) == Ids(es)
    ensures p.id.None? || p.id == Some(id) ==> UpdateById(UpdateById(es, id, p), id, p) == UpdateById(es, id, p)
  {
    var r := UpdateById(es, id, p);
    if p.id.None? || p.id == Some(id) {
      assert forall i :: 0 <= i < |es| ==> r[i].id == es[i].id;
      assert Ids(r) == Ids(es);
      var r2 := UpdateById(r, id, p);
      forall i | 0 <= i < |es| ensures r2[i] == r[i] {
        OverlayLaws(es[i], p, es[i]);
      }
    }
  }

  /** `entries.filter(e => e.id !== id)`. */
  function DeleteById(es: seq<MoodEntry>, id: int): (r: seq<MoodEntry>)
    ensures forall i :: 0 <= i < |r| ==> r[i].id != id && r[i] in es
    ensures forall i :: 0 <= i < |es| && es[i].id != id ==> es[i] in r
  {
    Filter(es, (e: MoodEntry) => e.id != id)
  }

  /** Deleting keeps the remaining entries in their order and removes exactly as
      many entries as carried the id. */
  lemma {:induction false} DeleteByIdSpec(es: seq<MoodEntry>, id: int)
    ensures Subseq(DeleteById(es, id), es)
    ensures |DeleteById(es, id)| == |es| - CountWhere(es, (e: MoodEntry) => e.id == id)
  {
    FilterIsSubseq(es, (e: MoodEntry) => e.id != id);
    DeleteCount(es, id);
  }

  lemma {:induction false} DeleteCount(es: seq<MoodEntry>, id: int)
    ensures |DeleteById(es, id)| == |es| - CountWhere(es, (e: MoodEntry) => e.id == id)
  {
    if es != [] {
      DeleteCount(es[1..], id);
      assert DeleteById(es, id) == if es[0].id != id then [es[0]] + DeleteById(es[1..], id) else DeleteById(es[1..], id);
    }
  }

  /** The message the `catch` block stores: the thrown message, or the action's
      own message for a non-2xx answer. */
  function FailureMessage<T>(reply: Reply<T>, fallback: string): (m: string)
    requires !reply.Answered?
    ensures reply.NotOk? ==> m == fallback
    ensures reply.Rejected? ==> m == reply.message
  {
    if reply.Rejected? then reply.message else fallback
  }

  class Store {
    var entries: seq<MoodEntry>
    var isLoading: bool
    var error: Option<string>

    constructor()
      ensures entries == [] && !isLoading && error == None
    {
      entries := [];
      isLoading := false;
      error := None;
    }

    /** The synchronous start of every action: loading, no error, entries kept. */
    method StartRequest()
      modifies this
      ensures isLoading && error == None
      ensures entries == old(entries)
    {
      isLoading := true;
      error := None;
    }

    /** The `catch` block of every action: entries kept, error set, loading over. */
    method Fail(message: string)
      modifies this
      ensures !isLoading && error == Some(message)
      ensures entries == old(entries)
    {
      error := Some(message);
      isLoading := false;
    }

    method FetchEntries(filters: Filters, reply: Reply<ListBody>) returns (params: seq<(string, string)>)
      modifies this
      ensures params == QueryParams(filters)
      ensures !isLoading
      ensures reply.Answered? ==> entries == EntriesOf(reply.body) && error == None
      ensures !reply.Answered? ==>
                entries == old(entries) && error == Some(FailureMessage(reply, "Failed to fetch entries"))
    {
      StartRequest();
      params := QueryParams(filters);
      if reply.Answered? {
        entries := EntriesOf(reply.body);
        isLoading := false;
      } else {
        Fail(FailureMessage(reply, "Failed to fetch entries"));
      }
    }

    /** Posts the draft; on success the created entry goes in front of the others. */
    method AddEntry(draft: Body, reply: Reply<MoodEntry>) returns (sent: Body)
      modifies this
      ensures sent == AddEntryBody(draft)
      ensures !isLoading
      ensures reply.Answered? ==> entries == [reply.body] + old(entries) && error == None
      ensures !reply.Answered? ==>
                entries == old(entries) && error == Some(FailureMessage(reply, "Failed to add entry"))
    {
      StartRequest();
      sent := AddEntryBody(draft);
      if reply.Answered? {
        entries := [reply.body] + entries;
        isLoading := false;
      } else {
        Fail(FailureMessage(reply, "Failed to add entry"));
      }
    }

    /** Patches one entry; on success the response is spread over every entry with that id. */
    method UpdateEntry(id: int, reply: Reply<EntryPatch>)
      modifies this
      ensures !isLoading
      ensures reply.Answered? ==> entries == UpdateById(old(entries), id, reply.body) && error == None
      ensures !reply.Answered? ==>
                entries == old(entries) && error == Some(FailureMessage(reply, "Failed to update entry"))
    {
      StartRequest();
      if reply.Answered? {
        entries := UpdateById(entries, id, reply.body);
        isLoading := false;
      } else {
        Fail(FailureMessage(reply, "Failed to update entry"));
      }
    }

    /** Deletes one entry; on success every entry with that id leaves the list.
        The body of a successful answer is not read. */
    method DeleteEntry(id: int, reply: Reply<()>)
      modifies this
      ensures !isLoading
      ensures reply.Answered? ==> entries == DeleteById(old(entries), id) && error == None
      ensures !reply.Answered? ==>
                entries == old(entries) && error == Some(FailureMessage(reply, "Failed to delete entry"))
    {
      StartRequest();
      if reply.Answered? {
        entries := DeleteById(entries, id);
        isLoading := false;
      } else {
        Fail(FailureMessage(reply, "Failed to delete entry"));
      }
    }
  }
}
