/**
 * `ingest`, `approve` and `sync_services` keep the invariant.
 */
module IntakeSteps {
  import opened Base
  import opened Schema
  import opened Slices
  import opened Transactions
  import opened Coherence
  import opened JobSteps

  // ---- the lookups by unique keys ----

  lemma OpenIncidentIs(db: Db, i: Id, service: Id, fingerprint: string, sha: string)
    requires OneOpen(db) && Groups(db, i, service, fingerprint, sha)
    ensures OpenIncident(db, service, fingerprint, sha) == Some(i)
  {}

  /** An occurrence always names a stored incident. */
  lemma OccurrencePlaced(db: Db, o: Id)
    requires EventsLinked(db) && o in db.occurrences
    ensures db.occurrences[o].incident in db.incidents
  {
    var e :| e in db.events && db.events[e].id == o;
    assert EventPlaced(db, e);
  }

  // ---- a new incident ----

  /** What `_ingest_resolved` knows when it inserts a new incident. */
  ghost predicate Opening(env: Env, db: Db, call: Intake, ids: IntakeIds) {
    && IntakeIdsNew(db, ids)
    && EventKey(call.service, call.event) !in db.events
    && call.service in db.services && db.services[call.service].path == call.path
    && env.resolve(call.path).Some? && env.isCommit(env.resolve(call.path).value, call.sha)
    && OpenIncident(db, call.service, call.fingerprint, call.sha).None?
  }

  lemma OpenedJobs(env: Env, db: Db, d: Db, now: Time, call: Intake, ids: IntakeIds)
    requires JobsLinked(db) && Opening(env, db, call, ids) && d == OpenedNew(db, now, call, ids)
    ensures JobsLinked(d)
    ensures AnalyzeKey(ids.incident) !in db.jobIndex
  {
    assert forall j | j in db.jobs :: JobNamed(db, db.jobs[j]);
    forall j | j in d.jobs
      ensures JobNamed(d, d.jobs[j])
    {
      if j != ids.job {
        assert JobNamed(db, db.jobs[j]);
      }
    }
  }

  /** No other row names an incident that is not stored yet. */
  lemma OpenedOldSlices(env: Env, db: Db, d: Db, now: Time, call: Intake, ids: IntakeIds)
    requires JobsLinked(db) && Opening(env, db, call, ids) && d == OpenedNew(db, now, call, ids)
    ensures forall k {:trigger SliceOf(d, k)} | k in db.incidents :: SliceOf(d, k) == SliceOf(db, k)
  {
    forall k | k in db.incidents
      ensures SliceOf(d, k) == SliceOf(db, k)
    {}
  }

  lemma OpenedSlices(env: Env, db: Db, d: Db, now: Time, call: Intake, ids: IntakeIds)
    requires JobsLinked(db) && RunsLinked(db) && AllSlices(db)
    requires Opening(env, db, call, ids) && d == OpenedNew(db, now, call, ids)
    ensures AllSlices(d)
    ensures forall k {:trigger SliceOf(d, k)} | k in db.incidents :: SliceOf(d, k) == SliceOf(db, k)
    ensures SliceOf(d, ids.incident) == Slice(NewIncident(call, now, ids), Some(NewAnalyzeJob(now, ids)), None, None, None, None)
  {
    OpenedOldSlices(env, db, d, now, call, ids);
    assert SliceOf(d, ids.incident) == Slice(NewIncident(call, now, ids), Some(NewAnalyzeJob(now, ids)), None, None, None, None);
    forall k | k in d.incidents
      ensures SliceOk(SliceOf(d, k))
    {
      if k != ids.incident {
        assert SliceOk(SliceOf(db, k));
      }
    }
  }

  lemma RecordedEvents(db: Db, d: Db, now: Time, call: Intake, ids: IntakeIds, i: Id)
    requires EventsLinked(db) && ids.event !in db.occurrences && EventKey(call.service, call.event) !in db.events
    requires i in d.incidents && d.incidents[i].service == call.service && d.incidents[i].fingerprint == call.fingerprint
    requires forall k | k in db.incidents :: k in d.incidents && d.incidents[k].service == db.incidents[k].service && d.incidents[k].fingerprint == db.incidents[k].fingerprint
    requires d.events == Recorded(db, now, call, ids, i).events && d.occurrences == Recorded(db, now, call, ids, i).occurrences
    ensures EventsLinked(d)
  {
    var key := EventKey(call.service, call.event);
    forall e | e in d.events
      ensures EventPlaced(d, e)
      ensures e != key ==> d.events[e].id != ids.event
    {
      if e != key {
        assert EventPlaced(db, e);
      }
    }
    forall o | o in d.occurrences
      ensures exists e :: e in d.events && d.events[e].id == o
    {
      if o == ids.event {
        assert d.events[key].id == o;
      } else {
        var e :| e in db.events && db.events[e].id == o;
        assert d.events[e].id == o;
      }
    }
  }

  lemma OpenedCounted(env: Env, db: Db, d: Db, now: Time, call: Intake, ids: IntakeIds)
    requires EventsLinked(db) && Counted(db) && Opening(env, db, call, ids) && d == OpenedNew(db, now, call, ids)
    ensures Counted(d)
  {
    forall k | k in d.incidents
      ensures OccurrencesOf(d, k) == if k == ids.incident then {ids.event} else OccurrencesOf(db, k)
    {
      forall o | o in db.occurrences
        ensures db.occurrences[o].incident != ids.incident
      {
        OccurrencePlaced(db, o);
      }
    }
  }

  lemma OpenedOneOpen(env: Env, db: Db, d: Db, now: Time, call: Intake, ids: IntakeIds)
    requires OneOpen(db) && Opening(env, db, call, ids) && d == OpenedNew(db, now, call, ids)
    ensures OneOpen(d)
  {
    forall a, b, service, fingerprint, sha | Groups(d, a, service, fingerprint, sha) && Groups(d, b, service, fingerprint, sha)
      ensures a == b
    {
      assert a != ids.incident ==> Groups(db, a, service, fingerprint, sha);
      assert b != ids.incident ==> Groups(db, b, service, fingerprint, sha);
    }
  }

  lemma OpenedLocated(env: Env, db: Db, d: Db, now: Time, call: Intake, ids: IntakeIds)
    requires Located(env, db) && Opening(env, db, call, ids) && d == OpenedNew(db, now, call, ids)
    ensures Located(env, d)
  {
    forall k | k in d.incidents
      ensures IncidentLocated(env, d, d.incidents[k])
    {
      if k != ids.incident {
        assert IncidentLocated(env, db, db.incidents[k]);
      }
    }
  }

  lemma OpenedLinked(env: Env, db: Db, d: Db, now: Time, call: Intake, ids: IntakeIds)
    requires Linked(db) && Opening(env, db, call, ids) && d == OpenedNew(db, now, call, ids)
    ensures Linked(d)
  {
    OpenedJobs(env, db, d, now, call, ids);
  }

  lemma OpenedGrouped(env: Env, db: Db, d: Db, now: Time, call: Intake, ids: IntakeIds)
    requires Grouped(db) && Opening(env, db, call, ids) && d == OpenedNew(db, now, call, ids)
    ensures Grouped(d)
  {
    RecordedEvents(db, d, now, call, ids, ids.incident);
    OpenedCounted(env, db, d, now, call, ids);
    OpenedOneOpen(env, db, d, now, call, ids);
  }

  lemma OpenedBounded(db: Db, d: Db, now: Time, call: Intake, ids: IntakeIds)
    requires IntakeIdsNew(db, ids) && d == OpenedNew(db, now, call, ids) && |ActiveJobs(db)| < JOB_LIMIT
    ensures Bounded(d)
  {
    assert ActiveJobs(d) == ActiveJobs(db) + {ids.job};
  }

  /** Inserting an event, an incident, its ANALYZE job and the occurrence keeps the invariant. */
  lemma OpenedCoherent(env: Env, db: Db, d: Db, now: Time, call: Intake, ids: IntakeIds)
    requires Coherent(env, db) && Opening(env, db, call, ids) && d == OpenedNew(db, now, call, ids)
    requires |ActiveJobs(db)| < JOB_LIMIT
    ensures Coherent(env, d)
  {
    OpenedLinked(env, db, d, now, call, ids);
    OpenedSlices(env, db, d, now, call, ids);
    OpenedGrouped(env, db, d, now, call, ids);
    OpenedLocated(env, db, d, now, call, ids);
    OpenedBounded(db, d, now, call, ids);
  }

  // ---- one more occurrence ----

  ghost predicate Appending(db: Db, call: Intake, ids: IntakeIds, i: Id) {
    && IntakeIdsNew(db, ids)
    && EventKey(call.service, call.event) !in db.events
    && Groups(db, i, call.service, call.fingerprint, call.sha)
  }

  lemma AppendedLinked(db: Db, d: Db, now: Time, call: Intake, ids: IntakeIds, i: Id)
    requires Linked(db) && Appending(db, call, ids, i) && d == Appended(db, now, call, ids, i)
    ensures Linked(d)
  {
    forall j | j in d.jobs
      ensures JobNamed(d, d.jobs[j])
    {
      assert JobNamed(db, db.jobs[j]);
    }
  }

  /** A further occurrence touches the count and nothing the workers compare. */
  lemma AppendedSlices(db: Db, d: Db, now: Time, call: Intake, ids: IntakeIds, i: Id)
    requires AllSlices(db) && Appending(db, call, ids, i) && d == Appended(db, now, call, ids, i)
    ensures AllSlices(d)
    ensures forall k {:trigger SliceOf(d, k)} | k in db.incidents ::
      SliceOf(d, k) == SliceOf(db, k).(incident := db.incidents[k].(count := d.incidents[k].count))
  {
    forall k | k in db.incidents
      ensures SliceOf(d, k) == SliceOf(db, k).(incident := db.incidents[k].(count := d.incidents[k].count))
      ensures SliceOk(SliceOf(d, k))
    {
      CountIsFree(SliceOf(db, k), d.incidents[k].count);
    }
  }

  lemma CountIsFree(s: Slice, n: int)
    requires SliceOk(s)
    ensures SliceOk(s.(incident := s.incident.(count := n)))
  {}

  lemma AppendedCounted(db: Db, d: Db, now: Time, call: Intake, ids: IntakeIds, i: Id)
    requires Counted(db) && Appending(db, call, ids, i) && d == Appended(db, now, call, ids, i)
    ensures Counted(d)
  {
    forall k | k in d.incidents
      ensures OccurrencesOf(d, k) == OccurrencesOf(db, k) + (if k == i then {ids.event} else {})
    {}
  }

  lemma AppendedOneOpen(db: Db, d: Db, now: Time, call: Intake, ids: IntakeIds, i: Id)
    requires OneOpen(db) && Appending(db, call, ids, i) && d == Appended(db, now, call, ids, i)
    ensures OneOpen(d)
  {
    forall a, b, service, fingerprint, sha | Groups(d, a, service, fingerprint, sha) && Groups(d, b, service, fingerprint, sha)
      ensures a == b
    {
      assert Groups(db, a, service, fingerprint, sha) && Groups(db, b, service, fingerprint, sha);
    }
  }

  lemma AppendedLocated(env: Env, db: Db, d: Db, now: Time, call: Intake, ids: IntakeIds, i: Id)
    requires Located(env, db) && Appending(db, call, ids, i) && d == Appended(db, now, call, ids, i)
    ensures Located(env, d) && ActiveJobs(d) == ActiveJobs(db)
  {
    forall k | k in d.incidents
      ensures IncidentLocated(env, d, d.incidents[k])
    {
      assert IncidentLocated(env, db, db.incidents[k]);
    }
  }

  lemma AppendedCoherent(env: Env, db: Db, d: Db, now: Time, call: Intake, ids: IntakeIds, i: Id)
    requires Coherent(env, db) && Appending(db, call, ids, i) && d == Appended(db, now, call, ids, i)
    ensures Coherent(env, d)
  {
    AppendedLinked(db, d, now, call, ids, i);
    AppendedSlices(db, d, now, call, ids, i);
    RecordedEvents(db, d, now, call, ids, i);
    AppendedCounted(db, d, now, call, ids, i);
    AppendedOneOpen(db, d, now, call, ids, i);
    AppendedLocated(env, db, d, now, call, ids, i);
  }

  /** Every ingest keeps the invariant, and the 500 branch "Event has no incident" is never taken. */
  lemma IngestCoherent(env: Env, db: Db, now: Time, call: Intake, ids: IntakeIds)
    requires Coherent(env, db) && Ready(env, db, now, Ingest(call, ids))
    ensures Coherent(env, IngestDb(db, now, call, ids))
    ensures !IngestReply(db, call, ids).NoIncident?
  {
    var key := EventKey(call.service, call.event);
    assert key in db.events ==> EventPlaced(db, key);
    var reply := IngestReply(db, call, ids);
    if reply.Accepted? && !reply.duplicate {
      var i := OpenIncident(db, call.service, call.fingerprint, call.sha);
      if i.None? {
        OpenedCoherent(env, db, IngestDb(db, now, call, ids), now, call, ids);
      } else {
        AppendedCoherent(env, db, IngestDb(db, now, call, ids), now, call, ids, i.value);
      }
    }
  }

  // ---- approve ----

  ghost predicate Approving(db: Db, i: Id, key: Id, ids: ApproveIds) {
    && ApproveIdsNew(db, ids)
    && i in db.incidents && db.incidents[i].state == AwaitingApproval
    && key !in db.keyIndex && i !in db.approvals && i in db.runs
  }

  /** Before approval there is no patch run and no PATCH job, so none of the inserts can collide. */
  lemma ApprovingIsFirst(db: Db, i: Id, key: Id, ids: ApproveIds)
    requires JobsLinked(db) && AllSlices(db) && Approving(db, i, key, ids)
    ensures i !in db.patchRuns && PatchKey(ids.approval) !in db.jobIndex && SliceOk(SliceOf(db, i))
  {
    assert SliceOk(SliceOf(db, i));
    assert forall j | j in db.jobs :: JobNamed(db, db.jobs[j]);
  }

  lemma ApprovedJobs(db: Db, d: Db, now: Time, i: Id, key: Id, ids: ApproveIds)
    requires JobsLinked(db) && AllSlices(db) && Approving(db, i, key, ids) && d == ApprovedDb(db, now, i, key, ids)
    ensures JobsLinked(d)
  {
    ApprovingIsFirst(db, i, key, ids);
    forall j | j in d.jobs
      ensures JobNamed(d, d.jobs[j])
    {
      if j != ids.job {
        assert JobNamed(db, db.jobs[j]);
      }
    }
  }

  lemma ApprovedRuns(db: Db, d: Db, now: Time, i: Id, key: Id, ids: ApproveIds)
    requires JobsLinked(db) && AllSlices(db) && RunsLinked(db) && KeysLinked(db)
    requires Approving(db, i, key, ids) && d == ApprovedDb(db, now, i, key, ids)
    ensures RunsLinked(d) && KeysLinked(d)
  {
    ApprovingIsFirst(db, i, key, ids);
    ApprovedKeys(db, d, now, i, key, ids);
  }

  lemma ApprovedKeys(db: Db, d: Db, now: Time, i: Id, key: Id, ids: ApproveIds)
    requires KeysLinked(db) && Approving(db, i, key, ids) && d == ApprovedDb(db, now, i, key, ids)
    ensures KeysLinked(d)
  {}

  lemma ApprovedSlices(db: Db, d: Db, now: Time, i: Id, key: Id, ids: ApproveIds)
    requires JobsLinked(db) && AllSlices(db) && Approving(db, i, key, ids) && d == ApprovedDb(db, now, i, key, ids)
    ensures SliceOf(d, i) == ApproveSlice(SliceOf(db, i), i, now, key, ids)
    ensures OthersKept(db, d, i)
  {
    ApprovingIsFirst(db, i, key, ids);
    forall k | k in db.incidents && k != i
      ensures SliceOf(d, k) == SliceOf(db, k)
    {}
  }

  lemma ApprovedAllSlices(db: Db, d: Db, now: Time, i: Id, key: Id, ids: ApproveIds)
    requires JobsLinked(db) && AllSlices(db) && Approving(db, i, key, ids) && d == ApprovedDb(db, now, i, key, ids)
    ensures AllSlices(d)
  {
    ApprovedSlices(db, d, now, i, key, ids);
    ApproveAdvances(SliceOf(db, i), i, now, key, ids);
    forall k | k in d.incidents
      ensures SliceOk(SliceOf(d, k))
    {
      if k != i {
        assert SliceOk(SliceOf(db, k));
      }
    }
  }

  lemma ApprovedMoves(db: Db, d: Db, now: Time, i: Id, key: Id, ids: ApproveIds)
    requires JobsLinked(db) && AllSlices(db) && Approving(db, i, key, ids) && d == ApprovedDb(db, now, i, key, ids)
    ensures Moved(db, d, i)
  {
    ApprovedSlices(db, d, now, i, key, ids);
    ApproveAdvances(SliceOf(db, i), i, now, key, ids);
  }

  lemma ApprovedGrouped(db: Db, d: Db, now: Time, i: Id, key: Id, ids: ApproveIds)
    requires Grouped(db) && Approving(db, i, key, ids) && d == ApprovedDb(db, now, i, key, ids)
    ensures Grouped(d)
  {
    forall e | e in d.events
      ensures EventPlaced(d, e)
    {
      assert EventPlaced(db, e);
    }
    forall k | k in d.incidents
      ensures OccurrencesOf(d, k) == OccurrencesOf(db, k)
    {}
    forall a, b, service, fingerprint, sha | Groups(d, a, service, fingerprint, sha) && Groups(d, b, service, fingerprint, sha)
      ensures a == b
    {
      assert Groups(db, a, service, fingerprint, sha) && Groups(db, b, service, fingerprint, sha);
    }
  }

  lemma ApprovedLocated(env: Env, db: Db, d: Db, now: Time, i: Id, key: Id, ids: ApproveIds)
    requires Located(env, db) && ServicesLinked(db) && Approving(db, i, key, ids) && d == ApprovedDb(db, now, i, key, ids)
    ensures Located(env, d) && ServicesLinked(d)
  {
    forall k | k in d.incidents
      ensures IncidentLocated(env, d, d.incidents[k])
    {
      assert IncidentLocated(env, db, db.incidents[k]);
    }
  }

  lemma ApprovedBounded(db: Db, d: Db, now: Time, i: Id, key: Id, ids: ApproveIds)
    requires Bounded(db) && Approving(db, i, key, ids) && d == ApprovedDb(db, now, i, key, ids)
    requires |ActiveJobs(db)| < JOB_LIMIT
    ensures Bounded(d)
  {
    assert ActiveJobs(d) == ActiveJobs(db) + {ids.job};
  }

  /** The approval, the patch run and the PATCH job appear together. */
  lemma ApprovedCoherent(env: Env, db: Db, d: Db, now: Time, i: Id, key: Id, ids: ApproveIds)
    requires Coherent(env, db) && Approving(db, i, key, ids) && d == ApprovedDb(db, now, i, key, ids)
    requires |ActiveJobs(db)| < JOB_LIMIT
    ensures Coherent(env, d)
  {
    ApprovedJobs(db, d, now, i, key, ids);
    ApprovedRuns(db, d, now, i, key, ids);
    ApprovedAllSlices(db, d, now, i, key, ids);
    ApprovedGrouped(db, d, now, i, key, ids);
    ApprovedLocated(env, db, d, now, i, key, ids);
    ApprovedBounded(db, d, now, i, key, ids);
  }

  /** "Approval has no patch run", "analysis and SHA do not match" and "already approved" are never taken. */
  lemma ApproveReplies(env: Env, db: Db, i: Id, key: Id, ids: ApproveIds)
    requires Coherent(env, db)
    ensures Decide(db, i, key, ids) !in {NoPatchRun, ShaMismatch, AlreadyApproved}
  {
    if i in db.incidents {
      assert SliceOk(SliceOf(db, i));
    }
  }

  /** Every approval keeps the invariant, and one that takes effect advances its incident. */
  lemma ApproveCoherent(env: Env, db: Db, now: Time, i: Id, key: Id, ids: ApproveIds)
    requires Coherent(env, db) && Ready(env, db, now, Approve(i, key, ids))
    ensures var d := ApproveDb(db, now, i, key, ids);
            Coherent(env, d) && (d == db || Moved(db, d, i))
  {
    var reply := Decide(db, i, key, ids);
    if reply.Approved? && !reply.duplicate {
      ApprovedCoherent(env, db, ApproveDb(db, now, i, key, ids), now, i, key, ids);
      ApprovedMoves(db, ApproveDb(db, now, i, key, ids), now, i, key, ids);
    }
  }

  // ---- sync_services ----

  /** A sync touches the services table only. */
  ghost predicate OnlyServices(db: Db, d: Db) {
    d == db.(services := d.services, serviceIndex := d.serviceIndex)
  }

  /** The part of the invariant that reads the services. */
  ghost predicate ServicesOk(env: Env, db: Db) {
    ServicesLinked(db) && Located(env, db)
  }

  lemma OnlyServicesSlices(db: Db, d: Db)
    requires JobsLinked(db) && AllSlices(db) && OnlyServices(db, d)
    ensures JobsLinked(d) && AllSlices(d)
  {
    forall j | j in d.jobs
      ensures JobNamed(d, d.jobs[j])
    {
      assert JobNamed(db, db.jobs[j]);
    }
    forall i | i in d.incidents
      ensures SliceOk(SliceOf(d, i))
    {
      assert SliceOf(d, i) == SliceOf(db, i);
    }
  }

  lemma OnlyServicesGrouped(db: Db, d: Db)
    requires Grouped(db) && OnlyServices(db, d)
    ensures Grouped(d)
  {
    forall i | i in d.incidents
      ensures OccurrencesOf(d, i) == OccurrencesOf(db, i)
    {}
    forall e | e in d.events
      ensures EventPlaced(d, e)
    {
      assert EventPlaced(db, e);
    }
    forall a, b, service, fingerprint, sha | Groups(d, a, service, fingerprint, sha) && Groups(d, b, service, fingerprint, sha)
      ensures a == b
    {
      assert Groups(db, a, service, fingerprint, sha) && Groups(db, b, service, fingerprint, sha);
    }
  }

  lemma OnlyServicesCoherent(env: Env, db: Db, d: Db)
    requires Coherent(env, db) && OnlyServices(db, d) && ServicesOk(env, d)
    ensures Coherent(env, d)
  {
    OnlyServicesSlices(db, d);
    OnlyServicesGrouped(db, d);
    assert ActiveJobs(d) == ActiveJobs(db);
  }

  lemma RegisteredOk(env: Env, db: Db, d: Db, e: Entry)
    requires ServicesLinked(db) && Located(env, db) && e.id !in db.services && e.key !in db.serviceIndex
    requires env.resolve(e.path).Some? && d == Registered(db, e)
    ensures ServicesLinked(d) && Located(env, d)
  {
    forall i | i in d.incidents
      ensures IncidentLocated(env, d, d.incidents[i])
    {
      assert IncidentLocated(env, db, db.incidents[i]);
    }
  }

  lemma UpdatedLinks(db: Db, d: Db, v: Id, e: Entry)
    requires ServicesLinked(db) && v in db.services && db.services[v].key == e.key && d == Updated(db, v, e)
    ensures ServicesLinked(d)
  {}

  lemma UpdatedLocated(env: Env, db: Db, d: Db, v: Id, e: Entry)
    requires Located(env, db) && v in db.services && d == Updated(db, v, e)
    requires env.resolve(e.path).Some?
    requires HasOpen(db, v) ==> env.resolve(db.services[v].path) == env.resolve(e.path)
    ensures Located(env, d)
  {
    forall i | i in d.incidents
      ensures IncidentLocated(env, d, d.incidents[i])
    {
      assert IncidentLocated(env, db, db.incidents[i]);
    }
  }

  lemma UpdatedOk(env: Env, db: Db, e: Entry)
    requires ServicesOk(env, db) && e.key in db.serviceIndex && SyncOne(env, db, e).Some?
    ensures SyncOne(env, db, e).value == Updated(db, db.serviceIndex[e.key], e)
    ensures ServicesOk(env, SyncOne(env, db, e).value)
  {
    UpdatedLinks(db, Updated(db, db.serviceIndex[e.key], e), db.serviceIndex[e.key], e);
    UpdatedLocated(env, db, Updated(db, db.serviceIndex[e.key], e), db.serviceIndex[e.key], e);
  }

  /** One service: an open incident's repository never moves away under it. */
  lemma SyncOneOk(env: Env, db: Db, e: Entry)
    requires ServicesOk(env, db) && e.id !in db.services
    requires SyncOne(env, db, e).Some?
    ensures ServicesOk(env, SyncOne(env, db, e).value)
    ensures OnlyServices(db, SyncOne(env, db, e).value)
    ensures SyncOne(env, db, e).value.services.Keys <= db.services.Keys + {e.id}
  {
    if e.key in db.serviceIndex {
      UpdatedOk(env, db, e);
    } else {
      RegisteredOk(env, db, Registered(db, e), e);
    }
  }

  lemma {:induction false} SyncAllOk(env: Env, db: Db, entries: seq<Entry>)
    requires ServicesOk(env, db) && EntryIdsNew(db, entries)
    requires SyncAll(env, db, entries).Some?
    ensures ServicesOk(env, SyncAll(env, db, entries).value)
    ensures OnlyServices(db, SyncAll(env, db, entries).value)
    ensures forall v | v in SyncAll(env, db, entries).value.services :: v in db.services || exists a :: 0 <= a < |entries| && entries[a].id == v
  {
    if entries != [] {
      var n := |entries| - 1;
      SyncAllOk(env, db, entries[..n]);
      var m := SyncAll(env, db, entries[..n]).value;
      SyncOneOk(env, m, entries[n]);
      var d := SyncAll(env, db, entries).value;
      forall v | v in d.services
        ensures v in db.services || exists a :: 0 <= a < |entries| && entries[a].id == v
      {
        if v in m.services && v !in db.services {
          var a :| 0 <= a < n && entries[..n][a].id == v;
          assert entries[a].id == v;
        }
      }
    }
  }

  /** A sync keeps the invariant, and one that fails for any service changes no service. */
  lemma SyncCoherent(env: Env, db: Db, now: Time, entries: seq<Entry>)
    requires Coherent(env, db) && Ready(env, db, now, Sync(entries))
    ensures Coherent(env, SyncDb(env, db, entries)) && OnlyServices(db, SyncDb(env, db, entries))
    ensures SyncAll(env, db, entries).None? ==> SyncDb(env, db, entries) == db
  {
    if SyncAll(env, db, entries).Some? {
      SyncAllOk(env, db, entries);
      OnlyServicesCoherent(env, db, SyncDb(env, db, entries));
    }
  }
}
