/**
 * The service controller: reading, updating and deleting one service by id,
 * and the bulk update that merges a list of partial rows into the table,
 * counting the entries that were saved and those that failed. Whether a
 * save throws (a NOT NULL or UNIQUE violation in the database) is an input.
 */
module ServiceController {
  import opened Wrappers
  import opened Tables

  /** The keys of a body that are defined; an inner `None` is an explicit null. */
  datatype ServicePatch = ServicePatch(
    name: Option<string>,
    cost: Option<Option<real>>,
    objectName: Option<Option<string>>,
    limit: Option<Option<int>>,
    priceGuest: Option<real>,
    priceRegistered: Option<real>,
    pricePremium: Option<real>,
    pricePro: Option<real>,
    description: Option<Option<string>>,
    active: Option<Option<bool>>)

  /** Every row of the table is stored under its own primary key, as `findByPk` reads it. */
  predicate Keyed(services: map<int, Service>) {
    forall k :: k in services ==> services[k].serviceId == k
  }

  /** The patch with no keys. */
  const EmptyPatch := ServicePatch(None, None, None, None, None, None, None, None, None, None)

  /** `s[key] = up[key]` for every defined key other than `service_id`. */
  function Merge(s: Service, p: ServicePatch): (m: Service)
    ensures m.serviceId == s.serviceId
    ensures p.name.Some? ==> m.name == p.name.value
    ensures p.name.None? ==> m.name == s.name
    ensures p.cost.Some? ==> m.cost == p.cost.value
    ensures p.cost.None? ==> m.cost == s.cost
    ensures p.objectName.Some? ==> m.objectName == p.objectName.value
    ensures p.objectName.None? ==> m.objectName == s.objectName
    ensures p.limit.Some? ==> m.limit == p.limit.value
    ensures p.limit.None? ==> m.limit == s.limit
    ensures p.priceGuest.Some? ==> m.priceGuest == p.priceGuest.value
    ensures p.priceGuest.None? ==> m.priceGuest == s.priceGuest
    ensures p.priceRegistered.Some? ==> m.priceRegistered == p.priceRegistered.value
    ensures p.priceRegistered.None? ==> m.priceRegistered == s.priceRegistered
    ensures p.pricePremium.Some? ==> m.pricePremium == p.pricePremium.value
    ensures p.pricePremium.None? ==> m.pricePremium == s.pricePremium
    ensures p.pricePro.Some? ==> m.pricePro == p.pricePro.value
    ensures p.pricePro.None? ==> m.pricePro == s.pricePro
    ensures p.description.Some? ==> m.description == p.description.value
    ensures p.description.None? ==> m.description == s.description
    ensures p.active.Some? ==> m.active == p.active.value
    ensures p.active.None? ==> m.active == s.active
  {
    s.(name := p.name.GetOr(s.name),
       cost := p.cost.GetOr(s.cost),
       objectName := p.objectName.GetOr(s.objectName),
       limit := p.limit.GetOr(s.limit),
       priceGuest := p.priceGuest.GetOr(s.priceGuest),
       priceRegistered := p.priceRegistered.GetOr(s.priceRegistered),
       pricePremium := p.pricePremium.GetOr(s.pricePremium),
       pricePro := p.pricePro.GetOr(s.pricePro),
       description := p.description.GetOr(s.description),
       active := p.active.GetOr(s.active))
  }

  /** Merging no keys keeps the row, and merging the same keys twice is merging them once. */
  lemma MergeLaws(s: Service, p: ServicePatch)
    ensures Merge(s, EmptyPatch) == s
    ensures Merge(Merge(s, p), p) == Merge(s, p)
  {
  }

  /** Two merges in a row are one merge of the keys of both, the later winning. */
  function Overlay(p: ServicePatch, q: ServicePatch): ServicePatch {
    ServicePatch(
      if q.name.Some? then q.name else p.name,
      if q.cost.Some? then q.cost else p.cost,
      if q.objectName.Some? then q.objectName else p.objectName,
      if q.limit.Some? then q.limit else p.limit,
      if q.priceGuest.Some? then q.priceGuest else p.priceGuest,
      if q.priceRegistered.Some? then q.priceRegistered else p.priceRegistered,
      if q.pricePremium.Some? then q.pricePremium else p.pricePremium,
      if q.pricePro.Some? then q.pricePro else p.pricePro,
      if q.description.Some? then q.description else p.description,
      if q.active.Some? then q.active else p.active)
  }

  lemma MergeOverlay(s: Service, p: ServicePatch, q: ServicePatch)
    ensures Merge(Merge(s, p), q) == Merge(s, Overlay(p, q))
  {
  }

  // ------------------------------------------------------------ single row

  /** `getServiceById`: the row, or 404. */
  function GetService(db: DbState, id: int): (r: Result<Service, int>)
    ensures r.Ok? <==> id in db.services
    ensures r.Ok? ==> r.value == db.services[id]
    ensures r.Err? ==> r.error == 404
  {
    if id in db.services then Ok(db.services[id]) else Err(404)
  }

  /** The writes and the HTTP status of a handler. */
  datatype ServiceReply = ServiceReply(writes: seq<Write>, status: int)

  /** `updateService`: 404 for an unknown id, else the body merged and saved, or 500 when the save throws. */
  function UpdateServiceReply(db: DbState, id: int, p: ServicePatch, saveOk: bool): (r: ServiceReply)
    ensures id !in db.services ==> r == ServiceReply([], 404)
    ensures id in db.services && !saveOk ==> r == ServiceReply([], 500)
    ensures id in db.services && saveOk ==> r == ServiceReply([SaveService(Merge(db.services[id], p))], 200)
  {
    if id !in db.services then ServiceReply([], 404)
    else if !saveOk then ServiceReply([], 500)
    else ServiceReply([SaveService(Merge(db.services[id], p))], 200)
  }

  /** `deleteService`: 404 for an unknown id, else the row is removed. */
  function DeleteServiceReply(db: DbState, id: int): (r: ServiceReply)
    ensures id !in db.services ==> r == ServiceReply([], 404)
    ensures id in db.services ==> r == ServiceReply([DeleteService(id)], 200)
  {
    if id !in db.services then ServiceReply([], 404) else ServiceReply([DeleteService(id)], 200)
  }

  /** After a delete the id is unknown: a second delete, a read and an update all answer 404. */
  lemma DeleteThen404(db: DbState, id: int, p: ServicePatch, saveOk: bool)
    requires id in db.services
    ensures var after := Apply(db, DeleteServiceReply(db, id).writes);
            && id !in after.services
            && DeleteServiceReply(after, id).status == 404
            && GetService(after, id) == Err(404)
            && UpdateServiceReply(after, id, p, saveOk).status == 404
  {
    ApplySingle(db, DeleteService(id));
  }

  // ------------------------------------------------------------ bulk update

  /** One element of the bulk body: its `service_id` (absent or 0 when falsy) and its other keys. */
  datatype BulkEntry = BulkEntry(serviceId: Option<int>, patch: ServicePatch)

  /** The loop's variables: the store as saved so far, the saves, `ok`, `fail` and the ids whose save threw. */
  datatype BulkState = BulkState(db: DbState, writes: seq<Write>, updated: nat, failed: nat, errors: seq<int>)

  /** Whether entry `e` names a stored row: `up.service_id` is truthy and `findByPk` finds it. */
  predicate Known(db: DbState, e: BulkEntry) {
    e.serviceId.Some? && e.serviceId.value != 0 && e.serviceId.value in db.services
  }

  /** One turn of the loop for entry number `i`; `saveOk(i)` says whether its save returns. */
  function BulkStep(b: BulkState, e: BulkEntry, i: nat, saveOk: nat -> bool): (r: BulkState)
    ensures r.updated + r.failed == b.updated + b.failed + 1
    ensures |r.errors| - |b.errors| <= r.failed - b.failed
    ensures r.db.services.Keys == b.db.services.Keys || !Keyed(b.db.services)
    ensures Keyed(b.db.services) ==> Keyed(r.db.services)
  {
    if !Known(b.db, e) then b.(failed := b.failed + 1)
    else if !saveOk(i) then b.(failed := b.failed + 1, errors := b.errors + [e.serviceId.value])
    else
      var w := SaveService(Merge(b.db.services[e.serviceId.value], e.patch));
      b.(db := Apply1(b.db, w), writes := b.writes + [w], updated := b.updated + 1)
  }

  /** The loop after the first `n` entries, from the stored table. */
  function BulkRun(db: DbState, entries: seq<BulkEntry>, saveOk: nat -> bool, n: nat): (r: BulkState)
    requires n <= |entries|
    ensures r.updated + r.failed == n
    ensures |r.errors| <= r.failed
    ensures Keyed(db.services) ==> Keyed(r.db.services) && r.db.services.Keys == db.services.Keys
  {
    if n == 0 then BulkState(db, [], 0, 0, [])
    else BulkStep(BulkRun(db, entries, saveOk, n - 1), entries[n - 1], n - 1, saveOk)
  }

  /** The answer of `bulkUpdate`: 400 for a body that is not an array, else the counters and the failed ids. */
  datatype BulkReply = BulkReply(status: int, updated: nat, failed: nat, errors: seq<int>)

  /** The writes and the answer of `bulkUpdate` on a body that may not be an array. */
  function BulkUpdateReply(db: DbState, body: Option<seq<BulkEntry>>, saveOk: nat -> bool): (r: (seq<Write>, BulkReply))
    ensures body.None? ==> r == ([], BulkReply(400, 0, 0, []))
    ensures body.Some? ==> r.1.status == 200 && r.1.updated + r.1.failed == |body.value| && |r.1.errors| <= r.1.failed
  {
    if body.None? then ([], BulkReply(400, 0, 0, []))
    else
      var b := BulkRun(db, body.value, saveOk, |body.value|);
      (b.writes, BulkReply(200, b.updated, b.failed, b.errors))
  }

  /** The store the loop keeps is the store its saves give, and nothing but the services table changes. */
  lemma {:induction false} BulkRunApplies(db: DbState, entries: seq<BulkEntry>, saveOk: nat -> bool, n: nat)
    requires n <= |entries|
    ensures Apply(db, BulkRun(db, entries, saveOk, n).writes) == BulkRun(db, entries, saveOk, n).db
    ensures BulkRun(db, entries, saveOk, n).db == db.(services := BulkRun(db, entries, saveOk, n).db.services)
  {
    if n > 0 {
      BulkRunApplies(db, entries, saveOk, n - 1);
      var b := BulkRun(db, entries, saveOk, n - 1);
      var e := entries[n - 1];
      if Known(b.db, e) && saveOk(n - 1) {
        ApplyAppend(db, b.writes, SaveService(Merge(b.db.services[e.serviceId.value], e.patch)));
      }
    } else {
      assert Apply(db, []) == db;
    }
  }

  /**
   * The rows the list does not mention keep their values, whatever the
   * saves of the other entries do.
   */
  lemma {:induction false} BulkUntouched(db: DbState, entries: seq<BulkEntry>, saveOk: nat -> bool, n: nat, id: int)
    requires n <= |entries| && id in db.services && Keyed(db.services)
    requires forall i :: 0 <= i < n ==> entries[i].serviceId != Some(id)
    ensures id in BulkRun(db, entries, saveOk, n).db.services
    ensures BulkRun(db, entries, saveOk, n).db.services[id] == db.services[id]
  {
    if n > 0 {
      BulkUntouched(db, entries, saveOk, n - 1, id);
    }
  }

  /** A single entry for a known id whose save returns is that row merged, as `updateService` saves it. */
  lemma BulkSingle(db: DbState, id: int, p: ServicePatch, saveOk: nat -> bool)
    requires id != 0 && id in db.services && saveOk(0)
    ensures var r := BulkUpdateReply(db, Some([BulkEntry(Some(id), p)]), saveOk);
            && r.1 == BulkReply(200, 1, 0, [])
            && r.0 == [SaveService(Merge(db.services[id], p))]
            && r.0 == UpdateServiceReply(db, id, p, true).writes
  {
    var entries := [BulkEntry(Some(id), p)];
    assert BulkRun(db, entries, saveOk, 1) == BulkStep(BulkRun(db, entries, saveOk, 0), entries[0], 0, saveOk);
  }

  /** An entry whose id is missing, 0 or unknown is one failure and no write. */
  lemma BulkSkipsUnknown(db: DbState, e: BulkEntry, saveOk: nat -> bool)
    requires !Known(db, e)
    ensures BulkUpdateReply(db, Some([e]), saveOk) == ([], BulkReply(200, 0, 1, []))
  {
    assert BulkRun(db, [e], saveOk, 1) == BulkStep(BulkRun(db, [e], saveOk, 0), e, 0, saveOk);
  }

  /** An entry whose save throws is one failure, one error and no write. */
  lemma BulkSaveThrows(db: DbState, e: BulkEntry, saveOk: nat -> bool)
    requires Known(db, e) && !saveOk(0)
    ensures BulkUpdateReply(db, Some([e]), saveOk) == ([], BulkReply(200, 0, 1, [e.serviceId.value]))
  {
    assert BulkRun(db, [e], saveOk, 1) == BulkStep(BulkRun(db, [e], saveOk, 0), e, 0, saveOk);
    assert BulkRun(db, [e], saveOk, 0).errors + [e.serviceId.value] == [e.serviceId.value];
  }

  /** `bulkUpdate` on the store: one turn per entry, each counted once as updated or failed. */
  method BulkUpdate(st: Store, body: Option<seq<BulkEntry>>, saveOk: nat -> bool) returns (reply: BulkReply)
    modifies st
    ensures reply == BulkUpdateReply(old(st.State()), body, saveOk).1
    ensures st.State() == Apply(old(st.State()), BulkUpdateReply(old(st.State()), body, saveOk).0)
    ensures st.journal == old(st.journal) + BulkUpdateReply(old(st.State()), body, saveOk).0
  {
    ghost var db := st.State();
    if body.None? {
      assert Apply(db, []) == db;
      return BulkReply(400, 0, 0, []);
    }
    var entries := body.value;
    var ok, fail := 0, 0;
    var errors: seq<int> := [];
    ghost var writes: seq<Write> := [];
    var i := 0;
    while i < |entries|
      invariant 0 <= i <= |entries|
      invariant BulkRun(db, entries, saveOk, i) == BulkState(st.State(), writes, ok, fail, errors)
      invariant st.journal == old(st.journal) + writes
    {
      var e := entries[i];
      if e.serviceId.None? || e.serviceId.value == 0 {
        fail := fail + 1;
      } else if e.serviceId.value !in st.services {
        fail := fail + 1;
      } else if !saveOk(i) {
        fail := fail + 1;
        errors := errors + [e.serviceId.value];
      } else {
        var m := Merge(st.services[e.serviceId.value], e.patch);
        st.UpdateService(m);
        writes := writes + [SaveService(m)];
        ok := ok + 1;
      }
      i := i + 1;
    }
    BulkRunApplies(db, entries, saveOk, |entries|);
    reply := BulkReply(200, ok, fail, errors);
  }
}
