/**
 * The two message handlers of the harvest queue: the gather consumer's
 * handler, which runs a job's gather stage, reconciles the job's stored
 * objects with what the stage returned and publishes one fetch message per
 * object, and the fetch consumer's handler, which drives one harvest object
 * through the fetch and import stages and classifies its report status.
 *
 * The database is the `Store` class; the broker's message and the fetch
 * publisher are the `Message` and `Publisher` classes.  Each harvester plugin
 * is a `Harvester` value whose stages are functions: what a stage returns,
 * whether it raises, and what it writes are all part of its result.
 */
module Queue {
  import opened Wrappers
  import opened HarvestModel

  const JobIdKey := "harvest_job_id"
  const ObjectIdKey := "harvest_object_id"

  const Aborted := "Aborted"
  const FetchState := "FETCH"
  const ImportState := "IMPORT"
  const Complete := "COMPLETE"
  const Errored := "ERROR"

  /** How `gather_stage` ended: it raised, or returned a (possibly None) list of ids. */
  datatype GatherOutcome = GatherRaises(error: string) | GatherReturns(ids: Option<seq<Id>>)

  /** A gather stage's effect: the objects it persisted, then how it ended. */
  datatype Gathered = Gathered(created: seq<HObject>, outcome: GatherOutcome)

  /**
   * How `fetch_stage` ended: it raised, returned a value equal to True,
   * returned 'unchanged', or returned anything else.
   */
  datatype FetchOutcome = FetchRaises(error: string) | FetchTrue | FetchUnchanged | FetchOther

  /** How `import_stage` ended: it raised, or returned a truthy or a falsy value. */
  datatype ImportOutcome = ImportRaises(error: string) | ImportTruthy | ImportFalsy

  /** A fetch or import stage's effect: its outcome and the object as the stage left it. */
  datatype Staged<T> = Staged(outcome: T, obj: HObject)

  /** A registered harvester plugin: the name its `info()` reports and its three stages. */
  datatype Harvester = Harvester(
    name: string,
    gatherStage: Job -> Gathered,
    fetchStage: HObject -> Staged<FetchOutcome>,
    importStage: HObject -> Staged<ImportOutcome>)

  /** How a gather message was handled (the last two are the normal paths). */
  datatype GatherResult =
    | NoJobId
    | JobLoadFailed
    | JobMissing
    | NoHarvester
    | GatherAborted(error: string)
    | GatherDone

  /** How a fetch message was handled. */
  datatype FetchResult = NoObjectId | ObjectLoadFailed | ObjectMissing | FetchDone

  // ---------------------------------------------------------------------
  // Broker side: the message being handled and the fetch publisher.
  // ---------------------------------------------------------------------

  class Message {
    const data: map<string, Id>
    var acked: bool

    constructor (data: map<string, Id>)
      ensures this.data == data && !acked
    {
      this.data := data;
      acked := false;
    }

    method Ack()
      modifies this
      ensures acked
    {
      acked := true;
    }
  }

  /** The message body published on the fetch queue for one object id. */
  function FetchMessage(id: Id): map<string, Id> {
    map[ObjectIdKey := id]
  }

  /** The messages published for `ids`, one per id and in the same order. */
  function FetchMessages(ids: seq<Id>): seq<map<string, Id>> {
    seq(|ids|, i requires 0 <= i < |ids| => FetchMessage(ids[i]))
  }

  lemma FetchMessagesAppend(ids: seq<Id>, more: seq<Id>)
    ensures FetchMessages(ids + more) == FetchMessages(ids) + FetchMessages(more)
  {
  }

  class Publisher {
    var sent: seq<map<string, Id>>
    var closed: bool

    constructor ()
      ensures sent == [] && !closed
    {
      sent := [];
      closed := false;
    }

    method Send(m: map<string, Id>)
      modifies this
      ensures sent == old(sent) + [m] && closed == old(closed)
    {
      sent := sent + [m];
    }

    method Close()
      modifies this
      ensures closed && sent == old(sent)
    {
      closed := true;
    }
  }

  // ---------------------------------------------------------------------
  // Gather: specification.
  // ---------------------------------------------------------------------

  /** Every stored record sits under its own id (the primary key). */
  ghost predicate KeyedObjects(objects: map<Id, HObject>) {
    forall k | k in objects :: objects[k].id == k
  }

  ghost predicate KeyedJobs(jobs: map<Id, Job>) {
    forall k | k in jobs :: jobs[k].id == k
  }

  /** The query `HarvestObject` filtered by `harvest_job_id`. */
  function ObjectsOfJob(objects: map<Id, HObject>, jobId: Id): (ids: set<Id>)
    ensures ids <= objects.Keys
  {
    set k | k in objects && objects[k].jobId == jobId
  }

  function IdsOf(created: seq<HObject>): set<Id> {
    set o | o in created :: o.id
  }

  /** The store after a plugin persisted `created`, one object after the other. */
  function AddObjects(objects: map<Id, HObject>, created: seq<HObject>): (r: map<Id, HObject>)
    ensures KeyedObjects(objects) ==> KeyedObjects(r)
    decreases |created|
  {
    if created == [] then objects
    else AddObjects(objects[created[0].id := created[0]], created[1..])
  }

  /**
   * What persisting does to the store: the created ids are added, every
   * other object is untouched and each created id holds the last of the
   * created objects saved under that id.
   */
  lemma {:induction false} AddObjectsStores(objects: map<Id, HObject>, created: seq<HObject>)
    ensures var r := AddObjects(objects, created);
      && r.Keys == objects.Keys + IdsOf(created)
      && (forall k | k in objects && k !in IdsOf(created) :: r[k] == objects[k])
      && (forall k | k in IdsOf(created) :: r[k] in created)
      && (forall k | k in IdsOf(created) ::
            exists i | 0 <= i < |created| ::
              && created[i].id == k && r[k] == created[i]
              && forall j | i < j < |created| :: created[j].id != k)
    decreases |created|
  {
    if created != [] {
      var rest := created[1..];
      var r := AddObjects(objects, created);
      AddObjectsStores(objects[created[0].id := created[0]], rest);
      IdsOfCons(created);
      forall k | k in IdsOf(created)
        ensures exists i | 0 <= i < |created| ::
          && created[i].id == k && r[k] == created[i]
          && forall j | i < j < |created| :: created[j].id != k
      {
        if k in IdsOf(rest) {
          var i' :| 0 <= i' < |rest| && rest[i'].id == k && r[k] == rest[i']
                    && forall j | i' < j < |rest| :: rest[j].id != k;
          assert created[i' + 1] == rest[i'];
          forall j | i' + 1 < j < |created|
            ensures created[j].id != k
          {
            assert created[j] == rest[j - 1];
          }
        } else {
          assert k == created[0].id && r[k] == created[0];
          forall j | 0 < j < |created|
            ensures created[j].id != k
          {
            assert created[j] == rest[j - 1];
            assert created[j] in rest;
          }
        }
      }
    }
  }

  lemma IdsOfCons(created: seq<HObject>)
    requires created != []
    ensures IdsOf(created) == {created[0].id} + IdsOf(created[1..])
  {
    assert created == [created[0]] + created[1..];
  }

  /** The store with every object of the job deleted. */
  function DeleteJobObjects(objects: map<Id, HObject>, jobId: Id): map<Id, HObject> {
    objects - ObjectsOfJob(objects, jobId)
  }

  /** The stored objects of the job that gather did not return. */
  function Orphans(objects: map<Id, HObject>, jobId: Id, returned: seq<Id>): set<Id> {
    ObjectsOfJob(objects, jobId) - (set x | x in returned)
  }

  function RemoveOrphans(objects: map<Id, HObject>, jobId: Id, returned: seq<Id>): map<Id, HObject> {
    objects - Orphans(objects, jobId, returned)
  }

  /** `harvest_object_ids or []`. */
  function Returned(ids: Option<seq<Id>>): seq<Id> {
    if ids.Some? then ids.value else []
  }

  function NoHarvesterMessage(sourceType: string): string {
    "System error - no harvester could be found for source type " + sourceType
  }

  /**
   * What the gather handler has done to the job so far: the job record, the
   * stored objects, the ids published, whether a harvester matched and the
   * error of a gather stage that raised.
   */
  datatype GatherState = GatherState(
    job: Job,
    objects: map<Id, HObject>,
    sent: seq<Id>,
    found: bool,
    raised: Option<string>)

  function GatherStart(job: Job, objects: map<Id, HObject>): GatherState {
    GatherState(job, objects, [], false, None)
  }

  /** One turn of the loop over the registered harvesters. */
  function GatherStep(h: Harvester, st: GatherState): (r: GatherState)
    ensures r.job.id == st.job.id && r.job.sourceType == st.job.sourceType
  {
    if h.name != st.job.sourceType then st
    else
      var job := st.job.(gatherStarted := true);
      var g := h.gatherStage(job);
      var objects := AddObjects(st.objects, g.created);
      match g.outcome
      case GatherRaises(e) =>
        GatherState(job.(status := Aborted, gatherFinished := true),
                    DeleteJobObjects(objects, job.id), st.sent, true, Some(e))
      case GatherReturns(ids) =>
        GatherState(job.(gatherFinished := true),
                    RemoveOrphans(objects, job.id, Returned(ids)),
                    st.sent + Returned(ids), true, None)
  }

  /** The whole loop: every harvester in turn, stopping at a gather stage that raises. */
  function GatherPass(hs: seq<Harvester>, st: GatherState): (r: GatherState)
    ensures r.job.id == st.job.id && r.job.sourceType == st.job.sourceType
    decreases |hs|
  {
    if hs == [] || st.raised.Some? then st else GatherPass(hs[1..], GatherStep(hs[0], st))
  }

  // ---------------------------------------------------------------------
  // Gather: properties.
  // ---------------------------------------------------------------------

  /** No gather stage of `hs`, whatever job it is handed, saves an object under `k`. */
  ghost predicate NeverSaves(hs: seq<Harvester>, k: Id) {
    forall i, job | 0 <= i < |hs| :: k !in IdsOf(hs[i].gatherStage(job).created)
  }

  /** An object of another job that no gather stage overwrites is kept as it was. */
  lemma {:induction false} GatherPassKeepsOthers(hs: seq<Harvester>, st: GatherState, k: Id)
    requires k in st.objects && st.objects[k].jobId != st.job.id
    requires NeverSaves(hs, k)
    ensures var r := GatherPass(hs, st);
      k in r.objects && r.objects[k] == st.objects[k]
    decreases |hs|
  {
    if hs != [] && st.raised.None? {
      var next := GatherStep(hs[0], st);
      if hs[0].name == st.job.sourceType {
        var job := st.job.(gatherStarted := true);
        assert k !in IdsOf(hs[0].gatherStage(job).created);
        AddObjectsStores(st.objects, hs[0].gatherStage(job).created);
      }
      assert NeverSaves(hs[1..], k) by {
        forall i, job | 0 <= i < |hs| - 1
          ensures k !in IdsOf(hs[1..][i].gatherStage(job).created)
        {
          assert hs[1..][i] == hs[i + 1];
        }
      }
      GatherPassKeepsOthers(hs[1..], next, k);
    }
  }

  /**
   * A raising gather stage leaves the job aborted, stamped and with no stored
   * object; the deletion is scoped to the job, so another job's object that no
   * gather stage overwrote is kept.
   */
  lemma {:induction false} GatherAbortEmptiesJob(hs: seq<Harvester>, st: GatherState)
    requires st.raised.None?
    ensures var r := GatherPass(hs, st);
      r.raised.Some? ==>
        && ObjectsOfJob(r.objects, st.job.id) == {}
        && r.job.status == Aborted
        && r.job.gatherStarted && r.job.gatherFinished
    ensures var r := GatherPass(hs, st);
      forall k | k in st.objects && st.objects[k].jobId != st.job.id && NeverSaves(hs, k)
        :: k in r.objects && r.objects[k] == st.objects[k]
    decreases |hs|
  {
    forall k | k in st.objects && st.objects[k].jobId != st.job.id && NeverSaves(hs, k)
      ensures k in GatherPass(hs, st).objects && GatherPass(hs, st).objects[k] == st.objects[k]
    {
      GatherPassKeepsOthers(hs, st, k);
    }
    if hs != [] {
      var next := GatherStep(hs[0], st);
      if next.raised.None? {
        GatherAbortEmptiesJob(hs[1..], next);
      } else {
        assert GatherPass(hs, st) == next by {
          assert GatherPass(hs[1..], next) == next;
        }
        var all := AddObjects(st.objects, hs[0].gatherStage(st.job.(gatherStarted := true)).created);
        assert next.objects == DeleteJobObjects(all, st.job.id);
      }
    }
  }

  /** With no harvester named after the source type, the loop changes nothing. */
  lemma {:induction false} GatherNoMatch(hs: seq<Harvester>, st: GatherState)
    requires forall i | 0 <= i < |hs| :: hs[i].name != st.job.sourceType
    ensures GatherPass(hs, st) == st
    decreases |hs|
  {
    if hs != [] && st.raised.None? {
      assert GatherStep(hs[0], st) == st;
      GatherNoMatch(hs[1..], st);
    }
  }

  /** A loop in which no harvester matched leaves the job, the store and the queue untouched. */
  lemma {:induction false} GatherNotFound(hs: seq<Harvester>, st: GatherState)
    requires !st.found && st.raised.None?
    ensures !GatherPass(hs, st).found ==> GatherPass(hs, st) == st
    decreases |hs|
  {
    if hs != [] {
      var next := GatherStep(hs[0], st);
      if !next.found {
        assert next == st;
        GatherNotFound(hs[1..], st);
      } else {
        GatherFoundStays(hs[1..], next);
      }
    }
  }

  /** Once a harvester matched, the loop says so to the end. */
  lemma {:induction false} GatherFoundStays(hs: seq<Harvester>, st: GatherState)
    requires st.found
    ensures GatherPass(hs, st).found
    decreases |hs|
  {
    if hs != [] && st.raised.None? {
      GatherFoundStays(hs[1..], GatherStep(hs[0], st));
    }
  }

  /** With exactly one matching harvester the loop is that harvester's step. */
  lemma {:induction false} GatherSingleMatch(hs: seq<Harvester>, m: nat, st: GatherState)
    requires m < |hs| && hs[m].name == st.job.sourceType
    requires forall i | 0 <= i < |hs| && i != m :: hs[i].name != st.job.sourceType
    requires st.raised.None?
    ensures GatherPass(hs, st) == GatherStep(hs[m], st)
    decreases |hs|
  {
    if m == 0 {
      var next := GatherStep(hs[0], st);
      if next.raised.None? {
        GatherNoMatch(hs[1..], next);
      }
    } else {
      assert GatherStep(hs[0], st) == st;
      GatherSingleMatch(hs[1..], m - 1, st);
    }
  }

  /**
   * Reconciliation after a successful gather that returned `ids`: of the
   * job's objects exactly those returned survive, objects of other jobs stay
   * as they were, and the returned ids are published in order.  When the
   * stage persisted an object of the job for every id it returned, the
   * job's stored objects are exactly the returned ids.
   */
  lemma ReconcileAfterGather(h: Harvester, st: GatherState, ids: Option<seq<Id>>)
    requires h.name == st.job.sourceType
    requires h.gatherStage(st.job.(gatherStarted := true)).outcome == GatherReturns(ids)
    ensures var all := AddObjects(st.objects, h.gatherStage(st.job.(gatherStarted := true)).created);
      var r := GatherStep(h, st);
      var returned := set x | x in Returned(ids);
      && ObjectsOfJob(r.objects, st.job.id) == ObjectsOfJob(all, st.job.id) * returned
      && (forall k | k in all && all[k].jobId != st.job.id :: k in r.objects && r.objects[k] == all[k])
      && r.objects.Keys <= all.Keys
      && r.sent == st.sent + Returned(ids)
      && r.raised.None? && r.found && r.job.gatherStarted && r.job.gatherFinished
      && r.job.status == st.job.status
      && (returned <= ObjectsOfJob(all, st.job.id) ==> ObjectsOfJob(r.objects, st.job.id) == returned)
  {
  }

  // ---------------------------------------------------------------------
  // Fetch and import: specification.
  // ---------------------------------------------------------------------

  /** The fields a harvester's stage may write on the object it is given. */
  function Adopt(o: HObject, written: HObject): HObject {
    o.(guid := written.guid, packageId := written.packageId, reportStatus := written.reportStatus,
       current := written.current, extras := written.extras)
  }

  function SystemError(e: string): string {
    "System error (" + e + ")"
  }

  /** The object as it is handed to `fetch_stage`. */
  function Fetching(obj: HObject): HObject {
    obj.(fetchStarted := true, state := FetchState)
  }

  /** The object as it is handed to `import_stage`. */
  function Importing(obj: HObject): HObject {
    obj.(importStarted := true, state := ImportState)
  }

  /** The object once `fetch_stage` returned or raised and the finish was stamped. */
  function Fetched(h: Harvester, obj: HObject): HObject {
    Adopt(Fetching(obj), h.fetchStage(Fetching(obj)).obj).(fetchFinished := true)
  }

  /** The error record a raising `fetch_stage` leaves. */
  function FetchErrors(h: Harvester, obj: HObject): seq<ObjectError> {
    var f := h.fetchStage(Fetching(obj)).outcome;
    if f.FetchRaises? then [ObjectError(obj.id, SystemError(f.error), "Fetch", None)] else []
  }

  /** The object once `import_stage` returned or raised and the finish was stamped. */
  function Imported(h: Harvester, obj: HObject): HObject {
    Adopt(Importing(obj), h.importStage(Importing(obj)).obj).(importFinished := true)
  }

  /** The error record a raising `import_stage` leaves. */
  function ImportErrors(h: Harvester, obj: HObject): seq<ObjectError> {
    var m := h.importStage(Importing(obj)).outcome;
    if m.ImportRaises? then [ObjectError(obj.id, SystemError(m.error), "Import", None)] else []
  }

  /** The object after the stages ran, the error records they left and the stages called. */
  datatype Stages = Stages(obj: HObject, errors: seq<ObjectError>, calls: seq<string>)

  /** The fetch stage, then the import stage if fetch returned True. */
  function RunStages(h: Harvester, obj: HObject): (s: Stages)
    ensures s.obj.id == obj.id && s.obj.jobId == obj.jobId && s.obj.sourceType == obj.sourceType
  {
    var f := h.fetchStage(Fetching(obj)).outcome;
    var o2 := Fetched(h, obj);
    match f
    case FetchTrue =>
      var m := h.importStage(Importing(o2)).outcome;
      Stages(Imported(h, o2).(state := if m == ImportTruthy then Complete else Errored),
             ImportErrors(h, o2), ["Fetch", "Import"])
    case FetchUnchanged =>
      Stages(o2.(reportStatus := "unchanged", state := Complete), [], ["Fetch"])
    case FetchRaises(e) =>
      Stages(o2.(state := Errored), FetchErrors(h, obj), ["Fetch"])
    case FetchOther =>
      Stages(o2.(state := Errored), [], ["Fetch"])
  }

  /**
   * What the stages promise: the object ends COMPLETE or ERROR with both
   * fetch stamps; import runs exactly when fetch returned True; an
   * "unchanged" fetch completes the object; after a True fetch the object
   * completes exactly when import returned a truthy value; a raising stage
   * leaves one error record named after it and counts as a failure.
   */
  lemma RunStagesOutcome(h: Harvester, obj: HObject)
    ensures var s := RunStages(h, obj);
      var f := h.fetchStage(Fetching(obj)).outcome;
      && (s.obj.state == Complete || s.obj.state == Errored)
      && s.obj.fetchStarted && s.obj.fetchFinished
      && (f == FetchTrue ==> s.calls == ["Fetch", "Import"] && s.obj.importStarted && s.obj.importFinished)
      && (f != FetchTrue ==> s.calls == ["Fetch"] && s.obj.importStarted == obj.importStarted)
      && (f == FetchUnchanged ==> s.obj.state == Complete && s.obj.reportStatus == "unchanged" && s.errors == [])
      && (f.FetchRaises? ==> s.obj.state == Errored && s.errors == [ObjectError(obj.id, SystemError(f.error), "Fetch", None)])
      && (f == FetchOther ==> s.obj.state == Errored && s.errors == [])
      && (f == FetchTrue ==>
            var m := h.importStage(Importing(Fetched(h, obj))).outcome;
            && (s.obj.state == Complete <==> m == ImportTruthy)
            && (m.ImportRaises? ==> s.errors == [ObjectError(obj.id, SystemError(m.error), "Import", None)])
            && (!m.ImportRaises? ==> s.errors == []))
      && |s.errors| <= 1
      && (forall e | e in s.errors :: e.objectId == obj.id && e.line == None && (e.stage == "Fetch" || e.stage == "Import"))
  {
  }

  /** The stored objects whose package_id equals `p` (a NULL matches NULL). */
  function SharingPackage(objects: map<Id, HObject>, p: Option<Id>): (ids: set<Id>)
    ensures ids <= objects.Keys
  {
    set k | k in objects && objects[k].packageId == p
  }

  predicate MarkedDeleted(obj: HObject) {
    "status" in obj.extras && obj.extras["status"] == "deleted"
  }

  /** The report_status rules, first match wins; `objects` already holds `obj`. */
  function Classify(obj: HObject, objects: map<Id, HObject>): string {
    if obj.state == Errored then "errored"
    else if MarkedDeleted(obj) then "deleted"
    else if obj.current == Some(false) then "unchanged"
    else if |SharingPackage(objects, obj.packageId)| >= 2 then "reimported"
    else "new"
  }

  /** What the fetch handler has done so far; `done` once it returned early. */
  datatype FetchProgress = FetchProgress(objects: map<Id, HObject>, errors: seq<ObjectError>, done: bool)

  /** One turn of the loop over the registered harvesters, for the object `id`. */
  function FetchStep(h: Harvester, id: Id, st: FetchProgress): (r: FetchProgress)
    requires id in st.objects
    ensures r.objects.Keys == st.objects.Keys
    ensures r.objects[id].id == st.objects[id].id && r.objects[id].sourceType == st.objects[id].sourceType
  {
    var obj := st.objects[id];
    if h.name != obj.sourceType then st
    else
      var s := RunStages(h, obj);
      var objects := st.objects[id := s.obj];
      var errors := st.errors + s.errors;
      if s.obj.reportStatus != "" then FetchProgress(objects, errors, true)
      else FetchProgress(objects[id := s.obj.(reportStatus := Classify(s.obj, objects))], errors, false)
  }

  /** The whole loop: every harvester in turn, until a report_status is found set. */
  function FetchPass(hs: seq<Harvester>, id: Id, st: FetchProgress): (r: FetchProgress)
    requires id in st.objects
    ensures r.objects.Keys == st.objects.Keys
    ensures r.objects[id].id == st.objects[id].id && r.objects[id].sourceType == st.objects[id].sourceType
    decreases |hs|
  {
    if hs == [] || st.done then st else FetchPass(hs[1..], id, FetchStep(hs[0], id, st))
  }

  // ---------------------------------------------------------------------
  // Fetch and import: properties.
  // ---------------------------------------------------------------------

  /**
   * The classification rules restated without the package-id count: the
   * count includes the object itself, so "two or more" means that some
   * other stored object has the same package_id.
   */
  lemma ClassifyTable(obj: HObject, objects: map<Id, HObject>)
    requires obj.id in objects && objects[obj.id] == obj
    ensures Classify(obj, objects) ==
      if obj.state == Errored then "errored"
      else if MarkedDeleted(obj) then "deleted"
      else if obj.current == Some(false) then "unchanged"
      else if exists k | k in objects :: k != obj.id && objects[k].packageId == obj.packageId then "reimported"
      else "new"
  {
    var share := SharingPackage(objects, obj.packageId);
    assert obj.id in share;
    if exists k | k in objects :: k != obj.id && objects[k].packageId == obj.packageId {
      var k :| k in objects && k != obj.id && objects[k].packageId == obj.packageId;
      assert {obj.id, k} <= share;
      assert |{obj.id, k}| == 2;
      SubsetCard({obj.id, k}, share);
    } else {
      assert share == {obj.id};
    }
  }

  lemma SubsetCard(a: set<Id>, b: set<Id>)
    requires a <= b
    ensures |a| <= |b|
  {
    assert b == a + (b - a);
  }

  /** One turn touches no stored object but `id`, and appends only errors about `id`. */
  lemma FetchStepFrame(h: Harvester, id: Id, st: FetchProgress)
    requires id in st.objects
    ensures var r := FetchStep(h, id, st);
      && (forall k | k in st.objects && k != id :: r.objects[k] == st.objects[k])
      && |r.errors| >= |st.errors| && r.errors[..|st.errors|] == st.errors
      && (forall i | |st.errors| <= i < |r.errors| :: r.errors[i].objectId == st.objects[id].id)
  {
    if h.name == st.objects[id].sourceType {
      var s := RunStages(h, st.objects[id]);
      RunStagesOutcome(h, st.objects[id]);
      var r := FetchStep(h, id, st);
      assert r.errors == st.errors + s.errors;
      forall i | |st.errors| <= i < |r.errors|
        ensures r.errors[i].objectId == st.objects[id].id
      {
        assert r.errors[i] == s.errors[i - |st.errors|];
      }
    }
  }

  /** The loop touches no stored object but `id`, and every error it records is about `id`. */
  lemma {:induction false} FetchPassFrame(hs: seq<Harvester>, id: Id, st: FetchProgress)
    requires id in st.objects
    ensures var r := FetchPass(hs, id, st);
      && (forall k | k in st.objects && k != id :: r.objects[k] == st.objects[k])
      && |r.errors| >= |st.errors| && r.errors[..|st.errors|] == st.errors
      && (forall i | |st.errors| <= i < |r.errors| :: r.errors[i].objectId == st.objects[id].id)
    decreases |hs|
  {
    if hs != [] && !st.done {
      var next := FetchStep(hs[0], id, st);
      FetchStepFrame(hs[0], id, st);
      FetchPassFrame(hs[1..], id, next);
      var r := FetchPass(hs, id, st);
      assert r == FetchPass(hs[1..], id, next);
      assert r.errors[..|st.errors|] == st.errors by {
        assert r.errors[..|st.errors|] == r.errors[..|next.errors|][..|st.errors|];
      }
    }
  }

  /** With no harvester named after the object's source type, the loop changes nothing. */
  lemma {:induction false} FetchNoMatch(hs: seq<Harvester>, id: Id, st: FetchProgress)
    requires id in st.objects
    requires forall i | 0 <= i < |hs| :: hs[i].name != st.objects[id].sourceType
    ensures FetchPass(hs, id, st) == st
    decreases |hs|
  {
    if hs != [] && !st.done {
      assert FetchStep(hs[0], id, st) == st;
      FetchNoMatch(hs[1..], id, st);
    }
  }

  /**
   * Once some harvester matches the object's source type, the object ends
   * COMPLETE or ERROR with a report_status set.
   */
  lemma {:induction false} FetchPassTerminal(hs: seq<Harvester>, m: nat, id: Id, st: FetchProgress)
    requires id in st.objects && !st.done
    requires m < |hs| && hs[m].name == st.objects[id].sourceType
    ensures var r := FetchPass(hs, id, st);
      (r.objects[id].state == Complete || r.objects[id].state == Errored) && r.objects[id].reportStatus != ""
    decreases |hs|
  {
    var next := FetchStep(hs[0], id, st);
    if hs[0].name == st.objects[id].sourceType {
      var s := RunStages(hs[0], st.objects[id]);
      RunStagesOutcome(hs[0], st.objects[id]);
      assert next.objects[id].state == s.obj.state;
      FetchPassTerminalAfterMatch(hs[1..], id, next);
    } else {
      assert next == st;
      FetchPassTerminal(hs[1..], m - 1, id, st);
    }
  }

  /** After a matching step the object stays terminal with a report_status set. */
  lemma {:induction false} FetchPassTerminalAfterMatch(hs: seq<Harvester>, id: Id, st: FetchProgress)
    requires id in st.objects
    requires st.objects[id].state == Complete || st.objects[id].state == Errored
    requires st.objects[id].reportStatus != ""
    ensures var r := FetchPass(hs, id, st);
      (r.objects[id].state == Complete || r.objects[id].state == Errored) && r.objects[id].reportStatus != ""
    decreases |hs|
  {
    if hs != [] && !st.done {
      var next := FetchStep(hs[0], id, st);
      if hs[0].name == st.objects[id].sourceType {
        var s := RunStages(hs[0], st.objects[id]);
        RunStagesOutcome(hs[0], st.objects[id]);
        assert next.objects[id].state == s.obj.state;
      }
      FetchPassTerminalAfterMatch(hs[1..], id, next);
    }
  }

  /**
   * With exactly one matching harvester: the object ends as the stages left
   * it, and its report_status is the one they set or, when they set none,
   * the classification; the stages' error records are appended.
   */
  lemma {:induction false} FetchSingleMatch(hs: seq<Harvester>, m: nat, id: Id, st: FetchProgress)
    requires id in st.objects && !st.done
    requires m < |hs| && hs[m].name == st.objects[id].sourceType
    requires forall i | 0 <= i < |hs| && i != m :: hs[i].name != st.objects[id].sourceType
    ensures var s := RunStages(hs[m], st.objects[id]);
      var r := FetchPass(hs, id, st);
      && r.errors == st.errors + s.errors
      && r.objects[id] == s.obj.(reportStatus :=
           if s.obj.reportStatus != "" then s.obj.reportStatus
           else Classify(s.obj, st.objects[id := s.obj]))
    decreases |hs|
  {
    var next := FetchStep(hs[0], id, st);
    if m == 0 {
      if !next.done {
        forall i | 0 <= i < |hs[1..]|
          ensures hs[1..][i].name != next.objects[id].sourceType
        {
          assert hs[1..][i] == hs[i + 1];
        }
        FetchNoMatch(hs[1..], id, next);
      }
      assert FetchPass(hs, id, st) == next;
      var s := RunStages(hs[0], st.objects[id]);
      if s.obj.reportStatus != "" {
        assert next.objects[id] == s.obj;
      }
    } else {
      assert next == st;
      FetchSingleMatch(hs[1..], m - 1, id, st);
    }
  }

  lemma MapOverwrite<K, V>(m: map<K, V>, k: K, a: V, b: V)
    ensures m[k := a][k := b] == m[k := b]
  {
  }

  /**
   * The store and the fetch queue after `gather_callback` handled the loaded
   * job `id`: objects and published ids as the loop left them; a job some
   * harvester gathered is stored as the loop left it, and a job no
   * harvester could gather is aborted with one gather error.
   */
  ghost predicate GatheredJob(
    registry: seq<Harvester>, id: Id,
    jobs0: map<Id, Job>, objects0: map<Id, HObject>, errors0: seq<GatherError>,
    jobs: map<Id, Job>, objects: map<Id, HObject>, errors: seq<GatherError>,
    sent: seq<map<string, Id>>, r: GatherResult)
    requires id in jobs0
  {
    var job := jobs0[id];
    var st := GatherPass(registry, GatherStart(job, objects0));
    && sent == FetchMessages(st.sent)
    && objects == st.objects
    && (st.found ==>
          && jobs == jobs0[id := st.job] && errors == errors0
          && r == (if st.raised.Some? then GatherAborted(st.raised.value) else GatherDone))
    && (!st.found ==>
          && st == GatherStart(job, objects0)
          && jobs == jobs0[id := job.(status := Aborted)]
          && errors == errors0 + [GatherError(id, NoHarvesterMessage(job.sourceType))]
          && r == NoHarvester)
  }

  // ---------------------------------------------------------------------
  // The database and the two handlers.
  // ---------------------------------------------------------------------

  class Store {
    var jobs: map<Id, Job>
    var objects: map<Id, HObject>
    var gatherErrors: seq<GatherError>
    var objectErrors: seq<ObjectError>

    ghost predicate Valid()
      reads this
    {
      KeyedJobs(jobs) && KeyedObjects(objects)
    }

    constructor (jobs: map<Id, Job>, objects: map<Id, HObject>)
      requires KeyedJobs(jobs) && KeyedObjects(objects)
      ensures Valid()
      ensures this.jobs == jobs && this.objects == objects
      ensures gatherErrors == [] && objectErrors == []
    {
      this.jobs := jobs;
      this.objects := objects;
      gatherErrors := [];
      objectErrors := [];
    }

    /** `Session.delete` of each of the given objects. */
    method DeleteObjects(ids: set<Id>)
      requires Valid()
      modifies this
      ensures Valid()
      ensures objects == old(objects) - ids
      ensures jobs == old(jobs) && gatherErrors == old(gatherErrors) && objectErrors == old(objectErrors)
    {
      var rest := ids;
      while rest != {}
        invariant rest <= ids
        invariant objects == old(objects) - (ids - rest)
        invariant Valid()
        invariant jobs == old(jobs) && gatherErrors == old(gatherErrors) && objectErrors == old(objectErrors)
        decreases |rest|
      {
        var k :| k in rest;
        objects := objects - {k};
        rest := rest - {k};
      }
    }

    /**
     * One turn of the gather loop: a harvester named after the job's source
     * type stamps the job, runs its stage, then either aborts the job and
     * deletes all of its objects, or deletes its orphans and publishes the
     * returned ids; any other harvester is skipped.
     */
    method GatherTurn(h: Harvester, job: Job, publisher: Publisher, ghost sentIds: seq<Id>, found: bool)
      returns (job': Job, found': bool, raised: Option<string>, ghost sentIds': seq<Id>)
      requires Valid() && job.id in jobs && jobs[job.id] == job
      requires publisher.sent == FetchMessages(sentIds)
      modifies this, publisher
      ensures Valid()
      ensures GatherStep(h, GatherState(job, old(objects), sentIds, found, None))
              == GatherState(job', objects, sentIds', found', raised)
      ensures jobs == old(jobs)[job.id := job']
      ensures publisher.sent == FetchMessages(sentIds') && publisher.closed == old(publisher.closed)
      ensures gatherErrors == old(gatherErrors) && objectErrors == old(objectErrors)
    {
      if h.name != job.sourceType {
        assert jobs == jobs[job.id := job];
        return job, found, None, sentIds;
      }
      var g;
      job', g := StartGather(h, job);
      if g.outcome.GatherRaises? {
        job' := job'.(status := Aborted);
        DeleteJobObjectsOf(job.id);
        raised, sentIds' := Some(g.outcome.error), sentIds;
      } else {
        raised, sentIds' := None, sentIds + Returned(g.outcome.ids);
      }
      // the `finally` clause stamps the finish on both paths
      MapOverwrite(old(jobs), job.id, job.(gatherStarted := true), job'.(gatherFinished := true));
      job' := job'.(gatherFinished := true);
      jobs := jobs[job.id := job'];
      if raised.None? {
        Reconcile(job.id, g.outcome.ids, publisher, sentIds);
      }
      found' := true;
    }

    /** The start is stamped and the harvester's gather stage runs; what it persisted is stored. */
    method StartGather(h: Harvester, job: Job) returns (job': Job, g: Gathered)
      requires Valid()
      modifies this
      ensures Valid()
      ensures job' == job.(gatherStarted := true) && g == h.gatherStage(job')
      ensures jobs == old(jobs)[job.id := job'] && objects == AddObjects(old(objects), g.created)
      ensures gatherErrors == old(gatherErrors) && objectErrors == old(objectErrors)
    {
      job' := job.(gatherStarted := true);
      jobs := jobs[job.id := job'];
      g := h.gatherStage(job');
      objects := AddObjects(objects, g.created);
    }

    /**
     * A raising gather stage: every object of the job is deleted (the
     * aborted status is written by the `finally` save that follows).
     */
    method DeleteJobObjectsOf(jobId: Id)
      requires Valid()
      modifies this
      ensures Valid()
      ensures objects == DeleteJobObjects(old(objects), jobId)
      ensures jobs == old(jobs) && gatherErrors == old(gatherErrors) && objectErrors == old(objectErrors)
    {
      DeleteObjects(ObjectsOfJob(objects, jobId));
    }

    /**
     * After a gather stage that returned: the job's objects that were not
     * returned are deleted and the returned ids published.
     */
    method Reconcile(jobId: Id, ids: Option<seq<Id>>, publisher: Publisher, ghost sentIds: seq<Id>)
      requires Valid()
      requires publisher.sent == FetchMessages(sentIds)
      modifies this, publisher
      ensures Valid()
      ensures objects == RemoveOrphans(old(objects), jobId, Returned(ids))
      ensures publisher.sent == FetchMessages(sentIds + Returned(ids)) && publisher.closed == old(publisher.closed)
      ensures jobs == old(jobs) && gatherErrors == old(gatherErrors) && objectErrors == old(objectErrors)
    {
      var returned := Returned(ids);
      DeleteObjects(Orphans(objects, jobId, returned));
      if ids.Some? && |ids.value| > 0 {
        Publish(publisher, returned, sentIds);
      } else {
        assert sentIds + returned == sentIds;
      }
    }

    /**
     * The gather consumer's callback.  The message is acknowledged on every
     * path except a missing job id and a failure to load the job; the
     * publisher is acquired once the id is read and closed on every path but
     * a failed load.  The store ends as `GatherPass` says, and a job no
     * harvester can gather is aborted with one gather error.
     */
    method GatherCallback(message: Message, registry: seq<Harvester>, loadFails: bool)
      returns (publisher: Publisher?, r: GatherResult)
      requires Valid()
      modifies this, message
      ensures Valid()
      ensures objectErrors == old(objectErrors)
      ensures publisher != null ==> fresh(publisher)
      ensures JobIdKey !in message.data ==>
        && r == NoJobId && publisher == null
        && message.acked == old(message.acked) && unchanged(this)
      ensures JobIdKey in message.data && loadFails ==>
        && r == JobLoadFailed && publisher != null && publisher.sent == [] && !publisher.closed
        && message.acked == old(message.acked) && unchanged(this)
      ensures JobIdKey in message.data && !loadFails && message.data[JobIdKey] !in old(jobs) ==>
        && r == JobMissing && publisher != null && publisher.sent == [] && publisher.closed
        && message.acked && unchanged(this)
      ensures JobIdKey in message.data && !loadFails && message.data[JobIdKey] in old(jobs) ==>
        && publisher != null && publisher.closed && message.acked
        && GatheredJob(registry, message.data[JobIdKey], old(jobs), old(objects), old(gatherErrors),
                       jobs, objects, gatherErrors, publisher.sent, r)
    {
      if JobIdKey !in message.data {
        return null, NoJobId;
      }
      var id := message.data[JobIdKey];
      publisher := new Publisher();
      if loadFails {
        // not acknowledged: the broker redelivers the message
        return publisher, JobLoadFailed;
      }
      if id !in jobs {
        publisher.Close();
        message.Ack();
        return publisher, JobMissing;
      }
      r := GatherJob(registry, id, publisher);
      // the `finally` clauses, also when a gather stage raised
      publisher.Close();
      message.Ack();
    }

    /** The body of `gather_callback` once the job `id` is loaded. */
    method GatherJob(registry: seq<Harvester>, id: Id, publisher: Publisher) returns (r: GatherResult)
      requires Valid() && id in jobs && publisher.sent == []
      modifies this, publisher
      ensures Valid()
      ensures objectErrors == old(objectErrors) && publisher.closed == old(publisher.closed)
      ensures GatheredJob(registry, id, old(jobs), old(objects), old(gatherErrors),
                          jobs, objects, gatherErrors, publisher.sent, r)
    {
      var job, found, raised, sentIds := GatherLoop(registry, id, publisher);
      GatherNotFound(registry, GatherStart(old(jobs)[id], old(objects)));
      if raised.Some? {
        // the exception propagates out of the handler
        return GatherAborted(raised.value);
      }
      if !found {
        gatherErrors := gatherErrors + [GatherError(job.id, NoHarvesterMessage(job.sourceType))];
        MapOverwrite(old(jobs), id, job, job.(status := Aborted));
        job := job.(status := Aborted);
        jobs := jobs[id := job];
      }
      r := if found then GatherDone else NoHarvester;
    }

    /**
     * The loop over the registered harvesters: each one named after the
     * job's source type takes its turn, until a gather stage raises.
     */
    method GatherLoop(registry: seq<Harvester>, id: Id, publisher: Publisher)
      returns (job: Job, found: bool, raised: Option<string>, ghost sentIds: seq<Id>)
      requires Valid() && id in jobs
      requires publisher.sent == []
      modifies this, publisher
      ensures Valid()
      ensures GatherPass(registry, GatherStart(old(jobs)[id], old(objects))) == GatherState(job, objects, sentIds, found, raised)
      ensures publisher.sent == FetchMessages(sentIds)
      ensures jobs == old(jobs)[id := job]
      ensures publisher.closed == old(publisher.closed)
      ensures gatherErrors == old(gatherErrors) && objectErrors == old(objectErrors)
    {
      var job0 := jobs[id];
      ghost var st0 := GatherStart(job0, objects);
      job, found, raised, sentIds := job0, false, None, [];
      assert jobs == jobs[id := job0];
      var i := 0;
      while i < |registry|
        invariant 0 <= i <= |registry|
        invariant Valid() && job.id == id && job.sourceType == job0.sourceType
        invariant jobs == old(jobs)[id := job]
        invariant GatherPass(registry, st0) == GatherPass(registry[i..], GatherState(job, objects, sentIds, found, None))
        invariant raised.None?
        invariant publisher.sent == FetchMessages(sentIds) && publisher.closed == old(publisher.closed)
        invariant gatherErrors == old(gatherErrors) && objectErrors == old(objectErrors)
      {
        assert registry[i..][0] == registry[i] && registry[i..][1..] == registry[i + 1..];
        job, found, raised, sentIds := GatherTurn(registry[i], job, publisher, sentIds, found);
        if raised.Some? {
          assert GatherPass(registry, st0) == GatherState(job, objects, sentIds, found, raised);
          return;
        }
        i := i + 1;
      }
      assert registry[i..] == [];
    }

    /** `fetch_stage` on the stored object, saved before and after. */
    method FetchOn(h: Harvester, id: Id) returns (f: FetchOutcome)
      requires Valid() && id in objects
      modifies this
      ensures Valid()
      ensures f == h.fetchStage(Fetching(old(objects)[id])).outcome
      ensures objects == old(objects)[id := Fetched(h, old(objects)[id])]
      ensures objectErrors == old(objectErrors) + FetchErrors(h, old(objects)[id])
      ensures jobs == old(jobs) && gatherErrors == old(gatherErrors)
    {
      var obj := Fetching(objects[id]);
      objects := objects[id := obj];
      var staged := h.fetchStage(obj);
      obj := Adopt(obj, staged.obj);
      if staged.outcome.FetchRaises? {
        objectErrors := objectErrors + [ObjectError(obj.id, SystemError(staged.outcome.error), "Fetch", None)];
      }
      obj := obj.(fetchFinished := true);
      objects := objects[id := obj];
      f := staged.outcome;
    }

    /** `import_stage` on the stored object, saved before and after. */
    method ImportOn(h: Harvester, id: Id) returns (m: ImportOutcome)
      requires Valid() && id in objects
      modifies this
      ensures Valid()
      ensures m == h.importStage(Importing(old(objects)[id])).outcome
      ensures objects == old(objects)[id := Imported(h, old(objects)[id])]
      ensures objectErrors == old(objectErrors) + ImportErrors(h, old(objects)[id])
      ensures jobs == old(jobs) && gatherErrors == old(gatherErrors)
    {
      var obj := Importing(objects[id]);
      objects := objects[id := obj];
      var staged := h.importStage(obj);
      obj := Adopt(obj, staged.obj);
      if staged.outcome.ImportRaises? {
        objectErrors := objectErrors + [ObjectError(obj.id, SystemError(staged.outcome.error), "Import", None)];
      }
      obj := obj.(importFinished := true);
      objects := objects[id := obj];
      m := staged.outcome;
    }

    /** The fetch stage and, after a True fetch, the import stage; the state ends COMPLETE or ERROR. */
    method StagesOn(h: Harvester, id: Id)
      requires Valid() && id in objects
      modifies this
      ensures Valid()
      ensures var s := RunStages(h, old(objects)[id]);
        objects == old(objects)[id := s.obj] && objectErrors == old(objectErrors) + s.errors
      ensures jobs == old(jobs) && gatherErrors == old(gatherErrors)
    {
      ghost var o := objects[id];
      var f := FetchOn(h, id);
      var obj;
      if f == FetchTrue {
        var m := ImportOn(h, id);
        obj := objects[id].(state := if m == ImportTruthy then Complete else Errored);
        MapOverwrite(old(objects), id, Fetched(h, o), Imported(h, Fetched(h, o)));
        MapOverwrite(old(objects), id, Imported(h, Fetched(h, o)), obj);
      } else if f == FetchUnchanged {
        obj := objects[id].(reportStatus := "unchanged", state := Complete);
        MapOverwrite(old(objects), id, Fetched(h, o), obj);
      } else {
        obj := objects[id].(state := Errored);
        MapOverwrite(old(objects), id, Fetched(h, o), obj);
      }
      objects := objects[id := obj];
    }

    /**
     * One matching harvester's turn of the fetch loop: the stages, then the
     * report_status classification unless a report_status is already set,
     * in which case the handler stops (`done`).
     */
    method FetchWith(h: Harvester, id: Id) returns (done: bool)
      requires Valid() && id in objects && h.name == objects[id].sourceType
      modifies this
      ensures Valid()
      ensures FetchStep(h, id, FetchProgress(old(objects), old(objectErrors), false))
              == FetchProgress(objects, objectErrors, done)
      ensures jobs == old(jobs) && gatherErrors == old(gatherErrors)
    {
      StagesOn(h, id);
      var obj := objects[id];
      if obj.reportStatus != "" {
        return true;
      }
      obj := obj.(reportStatus := Classify(obj, objects));
      objects := objects[id := obj];
      done := false;
    }

    /**
     * The fetch consumer's callback.  The message is acknowledged on every
     * path except a failure to load the object; a loaded object is driven
     * through the stages of each matching harvester as `FetchPass` says, and
     * nothing else in the store changes.
     */
    method FetchCallback(message: Message, registry: seq<Harvester>, loadFails: bool)
      returns (r: FetchResult)
      requires Valid()
      modifies this, message
      ensures Valid()
      ensures jobs == old(jobs) && gatherErrors == old(gatherErrors)
      ensures ObjectIdKey !in message.data ==>
        r == NoObjectId && message.acked && unchanged(this)
      ensures ObjectIdKey in message.data && loadFails ==>
        r == ObjectLoadFailed && message.acked == old(message.acked) && unchanged(this)
      ensures ObjectIdKey in message.data && !loadFails && message.data[ObjectIdKey] !in old(objects) ==>
        r == ObjectMissing && message.acked && unchanged(this)
      ensures ObjectIdKey in message.data && !loadFails && message.data[ObjectIdKey] in old(objects) ==>
        var st := FetchPass(registry, message.data[ObjectIdKey], FetchProgress(old(objects), old(objectErrors), false));
        && r == FetchDone && message.acked
        && objects == st.objects && objectErrors == st.errors
    {
      if ObjectIdKey !in message.data {
        message.Ack();
        return NoObjectId;
      }
      var id := message.data[ObjectIdKey];
      if loadFails {
        // not acknowledged: the broker redelivers the message
        return ObjectLoadFailed;
      }
      if id !in objects {
        message.Ack();
        return ObjectMissing;
      }
      FetchLoop(registry, id);
      message.Ack();
      r := FetchDone;
    }

    /**
     * The loop over the registered harvesters: each one named after the
     * object's source type takes its turn, until the handler returns.
     */
    method FetchLoop(registry: seq<Harvester>, id: Id)
      requires Valid() && id in objects
      modifies this
      ensures Valid()
      ensures var st := FetchPass(registry, id, FetchProgress(old(objects), old(objectErrors), false));
        objects == st.objects && objectErrors == st.errors
      ensures jobs == old(jobs) && gatherErrors == old(gatherErrors)
    {
      ghost var st0 := FetchProgress(objects, objectErrors, false);
      var i := 0;
      while i < |registry|
        invariant 0 <= i <= |registry|
        invariant Valid() && id in objects
        invariant FetchPass(registry, id, st0) == FetchPass(registry[i..], id, FetchProgress(objects, objectErrors, false))
        invariant jobs == old(jobs) && gatherErrors == old(gatherErrors)
      {
        var h := registry[i];
        assert registry[i..][0] == h && registry[i..][1..] == registry[i + 1..];
        if h.name == objects[id].sourceType {
          var done := FetchWith(h, id);
          if done {
            // the handler returns here
            assert FetchPass(registry, id, st0) == FetchProgress(objects, objectErrors, true);
            return;
          }
        }
        i := i + 1;
      }
      assert registry[i..] == [];
    }
  }

  /** `publisher.send({'harvest_object_id': id})` for each id, in order. */
  method Publish(publisher: Publisher, ids: seq<Id>, ghost sentIds: seq<Id>)
    requires publisher.sent == FetchMessages(sentIds)
    modifies publisher
    ensures publisher.sent == FetchMessages(sentIds + ids) && publisher.closed == old(publisher.closed)
  {
    var j := 0;
    while j < |ids|
      invariant 0 <= j <= |ids|
      invariant publisher.sent == FetchMessages(sentIds) + FetchMessages(ids[..j])
      invariant publisher.closed == old(publisher.closed)
    {
      assert FetchMessages(ids[..j + 1]) == FetchMessages(ids[..j]) + [FetchMessage(ids[j])];
      publisher.Send(FetchMessage(ids[j]));
      j := j + 1;
    }
    assert ids[..j] == ids;
    FetchMessagesAppend(sentIds, ids);
  }
}
