/**
 * Exactly-once over whole runs: what an approval key and an event id answer for ever, how events
 * are grouped, and where an incident's commit comes from.
 */
module Once {
  import opened Base
  import opened Schema
  import opened Slices
  import opened Transactions
  import opened Coherence
  import opened JobSteps
  import opened IntakeSteps
  import opened Protocol
  import opened ProtocolSafety
  import opened Workflow

  /** Rows that are only ever inserted. */
  ghost predicate Keeps(db: Db, d: Db) {
    && (forall i | i in db.approvals :: i in d.approvals && d.approvals[i] == db.approvals[i])
    && (forall k | k in db.keyIndex :: k in d.keyIndex && d.keyIndex[k] == db.keyIndex[k])
    && (forall e | e in db.events :: e in d.events && d.events[e] == db.events[e])
    && (forall o | o in db.occurrences :: o in d.occurrences && d.occurrences[o] == db.occurrences[o])
  }

  ghost predicate SameInserts(db: Db, d: Db) {
    d.approvals == db.approvals && d.keyIndex == db.keyIndex && d.events == db.events && d.occurrences == db.occurrences
  }

  lemma {:induction false} SweepInserts(db: Db, now: Time, batch: seq<Id>)
    ensures SameInserts(db, RecoverDb(db, now, batch))
  {
    if batch != [] {
      SweepInserts(db, now, batch[..|batch| - 1]);
    }
  }

  lemma ApproveInserts(env: Env, db: Db, now: Time, k: Id, key: Id, ids: ApproveIds)
    requires Decide(db, k, key, ids) == Approved(ids.approval, ids.patch, false) && k !in db.approvals && key !in db.keyIndex
    ensures Keeps(db, ApproveDb(db, now, k, key, ids))
  {}

  lemma ApproveKeepsRows(env: Env, db: Db, now: Time, k: Id, key: Id, ids: ApproveIds)
    ensures Keeps(db, ApproveDb(db, now, k, key, ids))
  {
    if Decide(db, k, key, ids).Approved? && !Decide(db, k, key, ids).duplicate {
      ApproveInserts(env, db, now, k, key, ids);
    }
  }

  lemma RecordedInserts(db: Db, now: Time, call: Intake, ids: IntakeIds, i: Id)
    requires EventKey(call.service, call.event) !in db.events && ids.event !in db.occurrences
    ensures Keeps(db, Recorded(db, now, call, ids, i))
  {}

  lemma IngestInserts(env: Env, db: Db, now: Time, call: Intake, ids: IntakeIds)
    requires Ready(env, db, now, Ingest(call, ids))
    ensures Keeps(db, IngestDb(db, now, call, ids))
  {
    var i := IngestRows(db, IngestDb(db, now, call, ids), now, call, ids);
    if IngestDb(db, now, call, ids) != db {
      RecordedInserts(db, now, call, ids, i);
    }
  }

  lemma IngestRows(db: Db, d: Db, now: Time, call: Intake, ids: IntakeIds) returns (i: Id)
    requires d == IngestDb(db, now, call, ids)
    ensures d == db || (EventKey(call.service, call.event) !in db.events && SameInserts(Recorded(db, now, call, ids, i), d))
  {
    var reply, o := IngestReply(db, call, ids), OpenIncident(db, call.service, call.fingerprint, call.sha);
    i := if o.Some? then o.value else ids.incident;
    if reply.Accepted? && !reply.duplicate {
      assert EventKey(call.service, call.event) !in db.events;
      if o.Some? {
        assert d == Appended(db, now, call, ids, o.value);
      } else {
        assert d == OpenedNew(db, now, call, ids);
      }
    }
  }

  lemma ClaimInserts(env: Env, db: Db, now: Time, j: Id, token: Id, who: string, runId: Id)
    ensures SameInserts(db, ClaimDb(env, db, now, j, token, who, runId))
  {}

  lemma FinalizeInserts(db: Db, now: Time, claim: Claim, outcome: Outcome, version: int)
    ensures SameInserts(db, FinalizeDb(db, now, claim, outcome, version))
  {}

  lemma SameKeeps(db: Db, d: Db)
    requires SameInserts(db, d)
    ensures Keeps(db, d)
  {}

  lemma TxInserts(env: Env, db: Db, now: Time, tx: Tx)
    requires Coherent(env, db) && Ready(env, db, now, tx)
    ensures Keeps(db, Run(env, db, now, tx))
  {
    match tx
    case Sync(entries) =>
      SyncCoherent(env, db, now, entries);
      SameKeeps(db, SyncDb(env, db, entries));
    case Recover(batch) =>
      SweepInserts(db, now, batch);
      SameKeeps(db, RecoverDb(db, now, batch));
    case Approve(k, key, ids) => ApproveKeepsRows(env, db, now, k, key, ids);
    case Ingest(call, ids) => IngestInserts(env, db, now, call, ids);
    case Heartbeat(claim) => SameKeeps(db, BeatDb(db, now, claim));
    case ClaimJob(j, token, who, runId) =>
      ClaimInserts(env, db, now, j, token, who, runId);
      SameKeeps(db, ClaimDb(env, db, now, j, token, who, runId));
    case Mark(claim) => SameKeeps(db, MarkDb(db, claim));
    case Finalize(claim, outcome, version) =>
      FinalizeInserts(db, now, claim, outcome, version);
      SameKeeps(db, FinalizeDb(db, now, claim, outcome, version));
  }

  lemma {:induction false} RunInserts(env: Env, s: Sys, run: seq<Event>)
    requires Good(env, s) && Legal(env, s, run)
    ensures Keeps(s.db, End(env, s, run).db)
    decreases |run|
  {
    if run != [] {
      if TxOf(s, run[0].step).Some? {
        StepTxReady(env, s, run[0].now, run[0].step);
        TxInserts(env, s.db, run[0].now, TxOf(s, run[0].step).value);
      }
      NextKeeps(env, s, run[0].now, run[0].step);
      RunInserts(env, Next(env, s, run[0].now, run[0].step), run[1..]);
    }
  }

  // ---- approvals ----

  /** A first approval is on record under its key. */
  lemma ApprovalRecorded(env: Env, db: Db, now: Time, i: Id, key: Id, ids: ApproveIds)
    requires Coherent(env, db) && Decide(db, i, key, ids) == Approved(ids.approval, ids.patch, false)
    ensures var d := ApproveDb(db, now, i, key, ids);
            && key in d.keyIndex && d.keyIndex[key] == i && i in d.approvals && i in d.patchRuns
            && d.approvals[i].id == ids.approval && d.approvals[i].key == key && d.patchRuns[i].id == ids.patch
  {}

  /** In one coherent database a used key answers its own approval and nothing else. */
  lemma KeyAnswers(env: Env, s: Sys, key: Id, k: Id, ids: ApproveIds)
    requires Good(env, s) && key in s.db.keyIndex
    ensures s.db.keyIndex[key] in s.db.approvals && s.db.keyIndex[key] in s.db.patchRuns
    ensures var i := s.db.keyIndex[key];
            && Decide(s.db, i, key, ids) == Approved(s.db.approvals[i].id, s.db.patchRuns[i].id, true)
            && (k != i ==> Decide(s.db, k, key, ids) in {KeyElsewhere, NotFound})
  {
    SameCommit(env, s, s.db.keyIndex[key]);
  }

  lemma UsedKeyIsInert(db: Db, now: Time, k: Id, key: Id, ids: ApproveIds)
    requires key in db.keyIndex
    ensures ApproveDb(db, now, k, key, ids) == db
  {}

  /** A second key is refused for an approved incident. */
  lemma OtherKeyRefused(env: Env, s: Sys, i: Id, other: Id, ids: ApproveIds)
    requires Good(env, s) && i in s.db.approvals && s.db.approvals[i].key != other
    ensures !Decide(s.db, i, other, ids).Approved?
  {
    ApproveReplies(env, s.db, i, other, ids);
    assert i in s.db.incidents;
    assert SliceOk(SliceOf(s.db, i));
  }

  /**
   * After a key has approved an incident, every later call with the key answers the same ids for
   * that incident, whatever the workers did since, is refused for every other incident, and
   * changes nothing; every other key is refused for the incident.
   */
  lemma ApprovedOnce(env: Env, s: Sys, run: seq<Event>, key: Id, other: Id, ids: ApproveIds)
    requires Good(env, s) && Legal(env, s, run) && key in s.db.keyIndex
    ensures s.db.keyIndex[key] in s.db.approvals && s.db.keyIndex[key] in s.db.patchRuns
    ensures var i, d := s.db.keyIndex[key], End(env, s, run).db;
            && Decide(d, i, key, ids) == Approved(s.db.approvals[i].id, s.db.patchRuns[i].id, true)
            && (other != i ==> Decide(d, other, key, ids) in {KeyElsewhere, NotFound})
            && (other != key ==> !Decide(d, i, other, ids).Approved?)
            && (forall now, k :: ApproveDb(d, now, k, key, ids) == d)
  {
    var i, e := s.db.keyIndex[key], End(env, s, run);
    RunInserts(env, s, run);
    RunGood(env, s, run);
    KeyAnswers(env, s, key, other, ids);
    KeyAnswers(env, e, key, other, ids);
    RunFreezes(env, s, run, i);
    if other != key {
      OtherKeyRefused(env, e, i, other, ids);
    }
    forall now, k
      ensures ApproveDb(e.db, now, k, key, ids) == e.db
    {
      UsedKeyIsInert(e.db, now, k, key, ids);
    }
  }

  lemma RecordedKeyAnswers(env: Env, n: Sys, run: seq<Event>, i: Id, key: Id, ids: ApproveIds, other: ApproveIds)
    requires Good(env, n) && Legal(env, n, run) && key in n.db.keyIndex && n.db.keyIndex[key] == i
    requires i in n.db.approvals && n.db.approvals[i].id == ids.approval && i in n.db.patchRuns && n.db.patchRuns[i].id == ids.patch
    ensures Decide(End(env, n, run).db, i, key, other) == Approved(ids.approval, ids.patch, true)
  {
    ApprovedOnce(env, n, run, key, i, other);
  }

  /** What a first approval answers is what its key answers for ever after. */
  lemma GrantLasts(env: Env, s: Sys, now: Time, i: Id, key: Id, ids: ApproveIds, n: Sys, run: seq<Event>, other: ApproveIds)
    requires Good(env, s) && Enabled(env, s, now, Server(Approve(i, key, ids))) && n == Next(env, s, now, Server(Approve(i, key, ids)))
    requires Decide(s.db, i, key, ids) == Approved(ids.approval, ids.patch, false) && Legal(env, n, run)
    ensures Decide(End(env, n, run).db, i, key, other) == Approved(ids.approval, ids.patch, true)
  {
    NextKeeps(env, s, now, Server(Approve(i, key, ids)));
    ApprovalRecorded(env, s.db, now, i, key, ids);
    RecordedKeyAnswers(env, n, run, i, key, ids, other);
  }

  /** The key of an approval, its incident, its approval row and its patch run determine each other. */
  lemma ApprovalKeysInject(env: Env, s: Sys, a: Id, b: Id)
    requires Good(env, s) && a in s.db.keyIndex && b in s.db.keyIndex
    ensures s.db.keyIndex[a] in s.db.approvals && s.db.keyIndex[a] in s.db.patchRuns
    ensures s.db.keyIndex[b] in s.db.approvals && s.db.keyIndex[b] in s.db.patchRuns
    ensures s.db.keyIndex[a] == s.db.keyIndex[b] <==> a == b
    ensures s.db.approvals[s.db.keyIndex[a]].id == s.db.approvals[s.db.keyIndex[b]].id <==> a == b
    ensures s.db.patchRuns[s.db.keyIndex[a]].id == s.db.patchRuns[s.db.keyIndex[b]].id <==> a == b
  {
    SameCommit(env, s, s.db.keyIndex[a]);
    SameCommit(env, s, s.db.keyIndex[b]);
  }

  /** No PATCH job exists without the approval it is named after. */
  lemma PatchJobsAreApproved(env: Env, s: Sys, j: Id)
    requires Good(env, s) && j in s.db.jobs && s.db.jobs[j].kind == Patch
    ensures s.db.jobs[j].incident in s.db.approvals
    ensures s.db.jobs[j].key == PatchKey(s.db.approvals[s.db.jobs[j].incident].id)
  {
    assert JobNamed(s.db, s.db.jobs[j]);
  }

  // ---- events ----

  /** The event's row and its one occurrence after an accepted intake. */
  ghost predicate Stored(db: Db, d: Db, call: Intake, ids: IntakeIds, i: Id) {
    var key := EventKey(call.service, call.event);
    && key !in db.events && key in d.events && d.events[key].checksum == call.checksum && d.events[key].id == ids.event
    && ids.event !in db.occurrences && ids.event in d.occurrences && d.occurrences[ids.event].incident == i
  }

  /** Incident `i` groups the call. */
  ghost predicate GroupsCall(d: Db, call: Intake, i: Id, st: IncidentState) {
    Groups(d, i, call.service, call.fingerprint, call.sha) && d.incidents[i].state == st
  }

  lemma RecordedEvent(db: Db, d: Db, now: Time, call: Intake, ids: IntakeIds, i: Id)
    requires EventKey(call.service, call.event) !in db.events && ids.event !in db.occurrences
    requires d.events == Recorded(db, now, call, ids, i).events && d.occurrences == Recorded(db, now, call, ids, i).occurrences
    ensures Stored(db, d, call, ids, i)
  {}

  /** An accepted new event is stored with one occurrence on an open incident of its service, fingerprint and commit. */
  lemma EventRecorded(db: Db, now: Time, call: Intake, ids: IntakeIds)
    requires EventsLinked(db) && IntakeIdsNew(db, ids)
    requires IngestReply(db, call, ids).Accepted? && !IngestReply(db, call, ids).duplicate
    ensures Stored(db, IngestDb(db, now, call, ids), call, ids, IngestReply(db, call, ids).incident)
    ensures GroupsCall(IngestDb(db, now, call, ids), call, IngestReply(db, call, ids).incident, IngestReply(db, call, ids).state)
  {
    var key := EventKey(call.service, call.event);
    assert key in db.events ==> EventPlaced(db, key);
    var o := OpenIncident(db, call.service, call.fingerprint, call.sha);
    if o.Some? {
      RecordedEvent(db, Appended(db, now, call, ids, o.value), now, call, ids, o.value);
      assert Groups(db, o.value, call.service, call.fingerprint, call.sha);
    } else {
      RecordedEvent(db, OpenedNew(db, now, call, ids), now, call, ids, ids.incident);
    }
  }

  /**
   * A stored event answers the same incident to every retransmission and a conflict to every other
   * payload, for ever, and neither changes anything.
   */
  lemma RetransmissionsAgree(env: Env, s: Sys, run: seq<Event>, call: Intake, now: Time, ids: IntakeIds)
    requires Good(env, s) && Legal(env, s, run) && EventKey(call.service, call.event) in s.db.events
    ensures var row, d := s.db.events[EventKey(call.service, call.event)], End(env, s, run).db;
            && row.id in s.db.occurrences
            && s.db.occurrences[row.id].incident in d.incidents
            && Duplicate(d, call) == Some(
                 if call.checksum == row.checksum then
                   Accepted(s.db.occurrences[row.id].incident, d.incidents[s.db.occurrences[row.id].incident].state, true)
                 else ChecksumConflict)
            && IngestDb(d, now, call, ids) == d
            && (call.service in d.services && d.services[call.service].active ==> IngestReply(d, call, ids) == Duplicate(d, call).value)
  {
    var key := EventKey(call.service, call.event);
    assert EventPlaced(s.db, key);
    RunInserts(env, s, run);
    RunGood(env, s, run);
    assert EventPlaced(End(env, s, run).db, key);
  }

  /** Occurrences are conserved: each event has one, each incident counts its own, and none is shared. */
  lemma OccurrencesConserved(env: Env, s: Sys, i: Id, e: EventKey)
    requires Good(env, s) && i in s.db.incidents && e in s.db.events
    ensures s.db.incidents[i].count == |OccurrencesOf(s.db, i)| >= 1
    ensures s.db.events[e].id in s.db.occurrences
    ensures s.db.events[e].id in OccurrencesOf(s.db, i) ==>
      e.service == s.db.incidents[i].service && s.db.events[e].fingerprint == s.db.incidents[i].fingerprint
  {
    assert EventPlaced(s.db, e);
    var own := OccurrencesOf(s.db, i);
    assert s.db.incidents[i].firstEvent in own;
    SubsetSize({s.db.incidents[i].firstEvent}, own);
  }

  /** At most one open incident per service, fingerprint and commit. */
  lemma OneOpenIncident(env: Env, s: Sys, i: Id, k: Id)
    requires Good(env, s) && i in s.db.incidents && k in s.db.incidents
    requires Open(s.db.incidents[i].state) && Open(s.db.incidents[k].state)
    requires s.db.incidents[i].service == s.db.incidents[k].service
    requires s.db.incidents[i].fingerprint == s.db.incidents[k].fingerprint && s.db.incidents[i].sha == s.db.incidents[k].sha
    ensures i == k
  {
    var inc := s.db.incidents[i];
    assert Groups(s.db, i, inc.service, inc.fingerprint, inc.sha) && Groups(s.db, k, inc.service, inc.fingerprint, inc.sha);
  }

  /** An open incident's commit belongs to the repository its service points to now. */
  lemma RepositoryAgrees(env: Env, s: Sys, i: Id)
    requires Good(env, s) && i in s.db.incidents && Open(s.db.incidents[i].state)
    ensures s.db.incidents[i].service in s.db.services
    ensures var here := env.resolve(s.db.services[s.db.incidents[i].service].path);
            here.Some? && here == env.resolve(s.db.incidents[i].path) && env.isCommit(here.value, s.db.incidents[i].sha)
  {
    assert IncidentLocated(env, s.db, s.db.incidents[i]);
  }

  // ---- services ----

  /** The row registered for an entry. */
  ghost predicate Applied(d: Db, e: Entry) {
    && e.key in d.serviceIndex && d.serviceIndex[e.key] in d.services
    && d.services[d.serviceIndex[e.key]] == Service(e.key, e.path, e.branch, e.policy, true)
  }

  /** Services no entry names keep their row, and known services keep their id. */
  ghost predicate OthersStay(db: Db, d: Db, entries: seq<Entry>) {
    && (forall key | key in db.serviceIndex :: key in d.serviceIndex && d.serviceIndex[key] == db.serviceIndex[key])
    && (forall v | v in db.services :: v in d.services
          && ((forall n | 0 <= n < |entries| :: entries[n].key != db.services[v].key) ==> d.services[v] == db.services[v]))
  }

  /** One more entry: its service is as given, other services and earlier entries stay. */
  ghost predicate AppliesOne(db: Db, d: Db, e: Entry) {
    && Applied(d, e) && OthersStay(db, d, [e])
    && forall f: Entry {:trigger Applied(d, f)} | Applied(db, f) && f.key != e.key :: Applied(d, f)
  }

  lemma RegisteredApplies(db: Db, d: Db, e: Entry)
    requires ServicesLinked(db) && e.id !in db.services && e.key !in db.serviceIndex && d == Registered(db, e)
    ensures AppliesOne(db, d, e)
  {}

  lemma UpdatedApplies(db: Db, d: Db, v: Id, e: Entry)
    requires ServicesLinked(db) && e.key in db.serviceIndex && db.serviceIndex[e.key] == v && v in db.services && d == Updated(db, v, e)
    ensures AppliesOne(db, d, e)
  {
    assert [e][0] == e;
  }

  lemma SyncOneApplies(env: Env, db: Db, d: Db, e: Entry)
    requires ServicesLinked(db) && e.id !in db.services && SyncOne(env, db, e) == Some(d)
    ensures AppliesOne(db, d, e)
  {
    if e.key in db.serviceIndex {
      UpdatedApplies(db, d, db.serviceIndex[e.key], e);
    } else {
      RegisteredApplies(db, d, e);
    }
  }

  ghost predicate DistinctKeys(entries: seq<Entry>) {
    forall a, b | 0 <= a < b < |entries| :: entries[a].key != entries[b].key
  }

  ghost predicate AllApplied(d: Db, entries: seq<Entry>) {
    forall n {:trigger Applied(d, entries[n])} | 0 <= n < |entries| :: Applied(d, entries[n])
  }

  lemma PrefixReady(db: Db, rest: seq<Entry>, last: Entry)
    requires EntryIdsNew(db, rest + [last]) && DistinctKeys(rest + [last])
    ensures EntryIdsNew(db, rest) && DistinctKeys(rest) && last.id !in db.services
    ensures forall a | 0 <= a < |rest| :: rest[a].id != last.id
  {
    assert forall a | 0 <= a < |rest| :: (rest + [last])[a] == rest[a];
    assert (rest + [last])[|rest|] == last;
  }

  /** A sync that succeeds registers every entry as given, activates it, and leaves all other services alone. */
  lemma {:induction false} SyncApplies(env: Env, db: Db, entries: seq<Entry>)
    requires ServicesOk(env, db) && EntryIdsNew(db, entries) && DistinctKeys(entries) && SyncAll(env, db, entries).Some?
    ensures AllApplied(SyncAll(env, db, entries).value, entries)
    ensures OthersStay(db, SyncAll(env, db, entries).value, entries)
  {
    if entries != [] {
      var rest, last := entries[..|entries| - 1], entries[|entries| - 1];
      assert entries == rest + [last];
      PrefixReady(db, rest, last);
      SyncApplies(env, db, rest);
      SyncAllOk(env, db, rest);
      LastApplies(env, db, SyncAll(env, db, rest).value, SyncAll(env, db, entries).value, rest, last);
    }
  }

  lemma LastApplies(env: Env, db: Db, m: Db, d: Db, rest: seq<Entry>, last: Entry)
    requires ServicesLinked(db) && ServicesLinked(m) && AllApplied(m, rest) && OthersStay(db, m, rest)
    requires last.id !in m.services && DistinctKeys(rest + [last]) && SyncOne(env, m, last) == Some(d)
    ensures AllApplied(d, rest + [last]) && OthersStay(db, d, rest + [last])
  {
    SyncOneApplies(env, m, d, last);
    OneMoreApplied(m, d, rest, last);
    OthersStayTwice(db, m, d, rest, last);
  }

  lemma OneMoreApplied(m: Db, d: Db, rest: seq<Entry>, last: Entry)
    requires AllApplied(m, rest) && AppliesOne(m, d, last) && DistinctKeys(rest + [last])
    ensures AllApplied(d, rest + [last])
  {
    forall n | 0 <= n < |rest + [last]|
      ensures Applied(d, (rest + [last])[n])
    {
      if n < |rest| {
        assert (rest + [last])[n] == rest[n] && (rest + [last])[|rest|] == last;
        assert Applied(m, rest[n]);
      }
    }
  }

  lemma OthersStayTwice(db: Db, m: Db, d: Db, rest: seq<Entry>, last: Entry)
    requires OthersStay(db, m, rest) && OthersStay(m, d, [last])
    requires ServicesLinked(db) && ServicesLinked(m)
    ensures OthersStay(db, d, rest + [last])
  {
    forall v | v in db.services && forall n | 0 <= n < |rest + [last]| :: (rest + [last])[n].key != db.services[v].key
      ensures v in d.services && d.services[v] == db.services[v]
    {
      assert (rest + [last])[|rest|] == last;
      forall n | 0 <= n < |rest| ensures rest[n].key != db.services[v].key {
        assert (rest + [last])[n] == rest[n];
      }
      assert m.services[v] == db.services[v];
    }
  }

  // ---- when a sync succeeds ----

  /** The entry's path resolves, and its service is new, does not move, or has no open incident. */
  ghost predicate CanSync(env: Env, db: Db, e: Entry) {
    && env.resolve(e.path).Some?
    && (e.key in db.serviceIndex && db.serviceIndex[e.key] in db.services ==>
          || env.resolve(db.services[db.serviceIndex[e.key]].path) == env.resolve(e.path)
          || forall i | i in db.incidents && db.incidents[i].service == db.serviceIndex[e.key] ::
               db.incidents[i].state in {AnalysisFailed, PatchReady, PatchFailed})
  }

  lemma SyncOneExactly(env: Env, db: Db, e: Entry)
    requires ServicesOk(env, db)
    ensures SyncOne(env, db, e).Some? <==> CanSync(env, db, e)
  {
    forall i | i in db.incidents
      ensures Open(db.incidents[i].state) <==> db.incidents[i].state !in {AnalysisFailed, PatchReady, PatchFailed}
    {
      OpenExactly(db.incidents[i].state);
    }
  }

  /** The states that group further reports and pin a repository are all but the three final ones. */
  lemma OpenExactly(st: IncidentState)
    ensures Open(st) <==> st !in {AnalysisFailed, PatchReady, PatchFailed}
  {
    match st
    case Received =>
    case Analyzing =>
    case AwaitingApproval =>
    case AnalysisFailed =>
    case Patching =>
    case Validating =>
    case PatchReady =>
    case PatchFailed =>
  }

  lemma SyncOneKeys(env: Env, m: Db, d: Db, e: Entry)
    requires SyncOne(env, m, e) == Some(d)
    ensures forall key | key in d.serviceIndex :: key in m.serviceIndex || key == e.key
  {
    assert d == Registered(m, e) || d.serviceIndex == m.serviceIndex;
  }

  /** A sync registers no key but those of its entries. */
  lemma {:induction false} SyncKeys(env: Env, db: Db, entries: seq<Entry>)
    requires SyncAll(env, db, entries).Some?
    ensures forall key | key in SyncAll(env, db, entries).value.serviceIndex ::
              key in db.serviceIndex || exists n :: 0 <= n < |entries| && entries[n].key == key
  {
    if entries != [] {
      var rest, last := entries[..|entries| - 1], entries[|entries| - 1];
      SyncKeys(env, db, rest);
      var m, d := SyncAll(env, db, rest).value, SyncAll(env, db, entries).value;
      SyncOneKeys(env, m, d, last);
      forall key | key in d.serviceIndex
        ensures key in db.serviceIndex || exists n :: 0 <= n < |entries| && entries[n].key == key
      {
        if key in m.serviceIndex && key !in db.serviceIndex {
          var n :| 0 <= n < |rest| && rest[n].key == key;
          assert entries[n].key == key;
        } else if key !in m.serviceIndex {
          assert entries[|entries| - 1].key == key;
        }
      }
    }
  }

  /** The tables after some entries ask the same of the next one as the tables before them. */
  lemma CanSyncStays(env: Env, db: Db, m: Db, rest: seq<Entry>, last: Entry)
    requires ServicesLinked(db) && ServicesLinked(m) && OnlyServices(db, m) && OthersStay(db, m, rest) && DistinctKeys(rest + [last])
    requires forall key | key in m.serviceIndex :: key in db.serviceIndex || exists n :: 0 <= n < |rest| && rest[n].key == key
    ensures CanSync(env, m, last) <==> CanSync(env, db, last)
  {
    assert (rest + [last])[|rest|] == last;
    forall n | 0 <= n < |rest| ensures rest[n].key != last.key {
      assert (rest + [last])[n] == rest[n];
    }
    assert last.key in m.serviceIndex <==> last.key in db.serviceIndex;
    if last.key in db.serviceIndex {
      var v := db.serviceIndex[last.key];
      assert db.services[v].key == last.key && m.services[v] == db.services[v];
    }
  }

  /**
   * A sync succeeds exactly when every entry can be synced with the tables it starts from; otherwise
   * it is the ValueError that leaves every service as it was.
   */
  lemma {:induction false} SyncSucceedsExactly(env: Env, db: Db, entries: seq<Entry>)
    requires ServicesOk(env, db) && EntryIdsNew(db, entries) && DistinctKeys(entries)
    ensures SyncAll(env, db, entries).Some? <==> forall n | 0 <= n < |entries| :: CanSync(env, db, entries[n])
    ensures SyncAll(env, db, entries).None? ==> SyncDb(env, db, entries) == db
  {
    if entries != [] {
      var rest, last := entries[..|entries| - 1], entries[|entries| - 1];
      assert entries == rest + [last];
      PrefixReady(db, rest, last);
      SyncSucceedsExactly(env, db, rest);
      LastSyncs(env, db, rest, last);
      assert (forall n | 0 <= n < |entries| :: CanSync(env, db, entries[n]))
        <==> (forall n | 0 <= n < |rest| :: CanSync(env, db, rest[n])) && CanSync(env, db, last) by {
        assert forall n | 0 <= n < |rest| :: rest[n] == entries[n];
        assert entries[|entries| - 1] == last;
      }
    }
  }

  lemma LastSyncs(env: Env, db: Db, rest: seq<Entry>, last: Entry)
    requires ServicesOk(env, db) && EntryIdsNew(db, rest) && DistinctKeys(rest) && DistinctKeys(rest + [last])
    ensures SyncAll(env, db, rest).Some? ==> (SyncOne(env, SyncAll(env, db, rest).value, last).Some? <==> CanSync(env, db, last))
  {
    if SyncAll(env, db, rest).Some? {
      SyncAllOk(env, db, rest);
      SyncApplies(env, db, rest);
      SyncKeys(env, db, rest);
      SyncOneExactly(env, SyncAll(env, db, rest).value, last);
      CanSyncStays(env, db, SyncAll(env, db, rest).value, rest, last);
    }
  }
}
