/** The journal API's two handlers over the entry store: `POST` runs the
    submission pipeline and saves at most one record; `GET` lists the ten
    most recent records, newest first. */
module JournalApi {
  import opened Maybe
  import opened Js
  import opened JournalSchema
  import opened JournalPipeline

  const RecentLimit := 10
  const ListFailedError := "Database connection failed"

  /** The `GET` reply: the records, or an error with its status. */
  datatype ListReply = Listed(entries: seq<Entry>) | ListFailed(status: int, error: string)

  /** The store's records in creation order: ids are positions, every record
      satisfies the schema, and timestamps never decrease. */
  predicate WellFormed(s: seq<Entry>) {
    && (forall i :: 0 <= i < |s| ==> s[i].id == i && ValidEntry(s[i]))
    && (forall i, j :: 0 <= i < j < |s| ==> s[i].createdAt <= s[j].createdAt)
  }

  /** `now` is not earlier than any stored timestamp: the clock does not run
      backwards between requests. */
  predicate NotBefore(s: seq<Entry>, now: int) {
    s == [] || s[|s| - 1].createdAt <= now
  }

  /** The append-only journal collection. */
  class Store {
    var entries: seq<Entry>

    ghost predicate Valid()
      reads this
    {
      WellFormed(entries)
    }

    constructor ()
      ensures Valid() && entries == []
    {
      entries := [];
    }

    /** Inserts one record; the store assigns ids in sequence. */
    method Append(e: Entry)
      requires Valid()
      requires e.id == |entries| && ValidEntry(e) && NotBefore(entries, e.createdAt)
      modifies this
      ensures Valid()
      ensures entries == old(entries) + [e]
    {
      entries := entries + [e];
    }

    /** `save()`: the document is validated against the schema and, if the
        store is up and it conforms, stored under the next id at `svc.now`. */
    method Save(d: Draft, svc: Services) returns (r: Result<Entry, SaveError>)
      requires Valid() && NotBefore(entries, svc.now) && d.createdAt.None?
      modifies this
      ensures Valid()
      ensures r == Attempt(old(entries), d, svc)
      ensures entries == Saved(old(entries), r)
    {
      if !svc.storeUp {
        return Err(StoreUnavailable);
      }
      match Create(d, |entries|, svc.now)
      case Ok(e) =>
        Append(e);
        r := Ok(e);
      case Err(reason) =>
        r := Err(Rejected(reason));
    }

    /** `POST /api/journal`: the pipeline decides, then at most one save runs;
        the response and the new records are those `HandlePost` describes. */
    method Post(body: Body, svc: Services) returns (response: Response)
      requires Valid() && NotBefore(entries, svc.now)
      modifies this
      ensures Valid()
      ensures Handled(response, entries) == HandlePost(old(entries), body, svc)
    {
      var stored := entries;
      var plan := PlanPost(body, svc);
      assert HandlePost(stored, body, svc) == Finish(stored, plan, svc);
      match plan
      case Finished(r) =>
        response := r;
      case RecordCrisis(d) =>
        var ignored := Save(d, svc);
        response := UrgentNotice;
      case Record(d) =>
        var saved := Save(d, svc);
        response := if saved.Ok? then Echo(saved.value) else Failure(500, SaveFailedError);
    }

    /** The query behind `GET`: the last ten records in creation order,
        listed newest first; timestamps descend, and no record left out is
        newer than one returned. */
    method Recent() returns (r: seq<Entry>)
      requires Valid()
      ensures |r| == if |entries| < RecentLimit then |entries| else RecentLimit
      ensures forall i :: 0 <= i < |r| ==> r[i] == entries[|entries| - 1 - i]
      ensures forall i, j :: 0 <= i < j < |r| ==> r[i].createdAt >= r[j].createdAt
      ensures forall j, i :: 0 <= j < |entries| - |r| && 0 <= i < |r| ==> entries[j].createdAt <= r[i].createdAt
    {
      var s := entries;
      var n := |s|;
      var k := if n < RecentLimit then n else RecentLimit;
      r := seq(k, i requires 0 <= i < k => s[n - 1 - i]);
    }

    /** `GET /api/journal`: the recent records, or 500 when the store cannot
        be reached. */
    method Get(storeUp: bool) returns (reply: ListReply)
      requires Valid()
      ensures !storeUp ==> reply == ListFailed(500, ListFailedError)
      ensures storeUp ==> reply.Listed?
      ensures storeUp ==> |reply.entries| == if |entries| < RecentLimit then |entries| else RecentLimit
      ensures storeUp ==> forall i :: 0 <= i < |reply.entries| ==> reply.entries[i] == entries[|entries| - 1 - i]
      ensures storeUp ==> forall i, j :: 0 <= i < j < |reply.entries| ==> reply.entries[i].createdAt >= reply.entries[j].createdAt
      ensures storeUp ==> forall j, i :: 0 <= j < |entries| - |reply.entries| && 0 <= i < |reply.entries| ==>
        entries[j].createdAt <= reply.entries[i].createdAt
    {
      if !storeUp {
        return ListFailed(500, ListFailedError);
      }
      var recent := Recent();
      reply := Listed(recent);
    }
  }
}
