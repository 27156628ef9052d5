/** What one call leaves in a run record and its projections, on the fields of what it found. */
module RunUpdates {
  import opened Basics
  import opened CustomObjects
  import opened RunRecords

  // ---------- Consecutive values of a run record ----------

  /** The status a call asks for. */
  function Asked(call: Call): Option<Status> {
    if call.Update? then call.status else Some(call.beginStatus)
  }

  predicate CancelsIfRequested(call: Call) { call.Update? && call.cancelIfRequested }

  /** The first value of a record is that of the call that began it, at the time it found none. */
  lemma FirstValue(records: seq<RunRecord>, writes: seq<Write>, r: RunId)
    requires HeldIsChain(records, writes, r)
    ensures writes[0].call.Begin?
    ensures var call, state := writes[0].call, records[0].state;
      && state.runId == r && state.definitionIds == call.definitionIds && state.startedAt == writes[0].at
      && state.status == call.beginStatus && state.operation == Some(call.operation)
      && state.execution.None? && state.finishedAt.None?
  {
  }

  /**
   * A call that finishes the run leaves a finish time: the one it had, otherwise the time at which the
   * call read the record. Any other call leaves it as it was.
   */
  lemma FinishTime(records: seq<RunRecord>, writes: seq<Write>, r: RunId, i: nat)
    requires HeldIsChain(records, writes, r) && 0 < i < |records|
    ensures var call, before, after := writes[i].call, records[i - 1].state.finishedAt, records[i].state.finishedAt;
      if call.Update? && call.finish then after == Some(if before.Some? then before.value else writes[i].at) else after == before
  {
    assert Computed(writes[i], Some(records[i - 1]), records[i]);
    hide Resolve;
  }

  /** A call attaches the execution it brings and leaves the record's own otherwise. */
  lemma ExecutionWritten(records: seq<RunRecord>, writes: seq<Write>, r: RunId, i: nat)
    requires HeldIsChain(records, writes, r) && 0 < i < |records|
    ensures var call := writes[i].call;
      records[i].state.execution ==
        if call.Update? && call.execution.Some? then call.execution else records[i - 1].state.execution
  {
    assert Computed(writes[i], Some(records[i - 1]), records[i]);
    hide Resolve;
  }

  /**
   * The status a call asks for is written, unless the run had ended, which keeps its status, or was
   * being cancelled: then a success that yields to cancelling writes Cancelled, and nothing brings it
   * back to work.
   */
  lemma StatusWritten(records: seq<RunRecord>, writes: seq<Write>, r: RunId, i: nat)
    requires HeldIsChain(records, writes, r) && 0 < i < |records|
    ensures var call, before, after := writes[i].call, records[i - 1].state.status, records[i].state.status;
      if before !in {Queued, Running, Cancelling} || Asked(call).None? then after == before
      else if before.Cancelling? && Asked(call) == Some(Succeeded) && CancelsIfRequested(call) then after == Cancelled
      else if before.Cancelling? && Asked(call).value in {Queued, Running} then after == Cancelling
      else after == Asked(call).value
  {
    assert Computed(writes[i], Some(records[i - 1]), records[i]);
  }

  /** The calls that write nothing over what they find. */
  predicate Refuses(call: Call, current: Option<RunState>) {
    match current
    case None => call.Update?
    case Some(state) =>
      || state.definitionIds != call.definitionIds
      || (if state.status in {Queued, Running, Cancelling} then
            state.status.Running? && Asked(call) in {Some(Queued), Some(StartFailed)}
          else
            || (call.Update? && call.onlyIfActive)
            || (Asked(call) != Some(state.status)
                && !(state.status.Cancelled? && Asked(call) == Some(Succeeded) && CancelsIfRequested(call))))
  }

  lemma RefusesExactly(call: Call, current: Option<RunState>, now: int)
    ensures Refuses(call, current) <==> NextState(call, current, now).None?
  {
  }

  // ---------- A client that nobody interrupts ----------

  predicate Waits(pc: Pc) { pc.Idle? || (pc.WriteProjection? && pc.todo == []) }

  /** `n` successful requests of one client. */
  function Alone(store: Store, pc: Pc, now: int, n: nat): (Store, Pc)
    decreases n
  {
    if n == 0 || Waits(pc) then (store, pc)
    else
      var (store', pc') := StepClient(store, pc, now, true);
      Alone(store', pc', now, n - 1)
  }

  ghost predicate Leads(store: Store, pc: Pc, now: int, store': Store, pc': Pc) {
    exists n: nat :: Alone(store, pc, now, n) == (store', pc')
  }

  lemma LeadsNowhere(store: Store, pc: Pc, now: int)
    ensures Leads(store, pc, now, store, pc)
  {
    assert Alone(store, pc, now, 0) == (store, pc);
  }

  lemma {:induction false} AloneAdds(store: Store, pc: Pc, now: int, n: nat, k: nat)
    ensures var (store', pc') := Alone(store, pc, now, n); Alone(store, pc, now, n + k) == Alone(store', pc', now, k)
    decreases n
  {
    hide StepClient;
    if n > 0 && !Waits(pc) {
      var (next, pc1) := StepClient(store, pc, now, true);
      AloneAdds(next, pc1, now, n - 1, k);
    }
  }

  lemma LeadsOn(store: Store, pc: Pc, now: int, store1: Store, pc1: Pc, store2: Store, pc2: Pc)
    requires Leads(store, pc, now, store1, pc1) && Leads(store1, pc1, now, store2, pc2)
    ensures Leads(store, pc, now, store2, pc2)
  {
    var n: nat :| Alone(store, pc, now, n) == (store1, pc1);
    var k: nat :| Alone(store1, pc1, now, k) == (store2, pc2);
    hide Alone;
    AloneAdds(store, pc, now, n, k);
    assert Alone(store, pc, now, n + k) == (store2, pc2);
  }

  lemma StepLeads(store: Store, pc: Pc, now: int)
    requires !Waits(pc)
    ensures var (store', pc') := StepClient(store, pc, now, true); Leads(store, pc, now, store', pc')
  {
    hide StepClient;
    var (store', pc') := StepClient(store, pc, now, true);
    assert Alone(store', pc', now, 0) == (store', pc');
    assert Alone(store, pc, now, 1) == (store', pc');
  }

  // ---------- What it reads before it writes ----------

  /** The run that the projection of `d` shows. */
  function ShownRun(store: Store, d: DefinitionId): Option<RunId> {
    if d in store.latest then Some(store.latest[d].value.state.runId) else None
  }

  /** A call that begins a run records, for each definition, the run its projection shows. */
  ghost predicate RecordsShown(store: Store, predecessors: Predecessors, before: map<DefinitionId, Option<RunId>>,
                               ids: seq<DefinitionId>)
  {
    && predecessors.Some?
    && (forall d :: d in ids ==> d in predecessors.value && predecessors.value[d] == ShownRun(store, d))
    && (forall d :: d !in ids ==> Lookup(predecessors.value, d) == Lookup(before, d))
  }

  lemma {:induction false} ReadsPredecessors(store: Store, pc: Pc, now: int) returns (next: RunRecord)
    requires pc.ReadLatest? && pc.version == 0 && pc.next.predecessors.Some?
    ensures Leads(store, pc, now, store, WriteRun(pc.write, pc.attempts, 0, next, pc.projected))
    ensures next.state == pc.next.state
    ensures RecordsShown(store, next.predecessors, pc.next.predecessors.value, pc.todo)
    decreases |pc.todo|
  {
    StepLeads(store, pc, now);
    var pc1 := AfterReadLatest(store, pc);
    if pc.todo == [] {
      next := pc.next;
    } else {
      next := ReadsPredecessors(store, pc1, now);
      hide Leads, AfterReadLatest, StepClient;
      LeadsOn(store, pc, now, store, pc1, store, WriteRun(pc.write, pc.attempts, 0, next, pc.projected));
      ShownOneMore(store, next.predecessors, pc.next.predecessors.value, pc.todo);
    }
  }

  lemma ShownOneMore(store: Store, predecessors: Predecessors, before: map<DefinitionId, Option<RunId>>, ids: seq<DefinitionId>)
    requires ids != [] && RecordsShown(store, predecessors, before[ids[0] := ShownRun(store, ids[0])], ids[1..])
    ensures RecordsShown(store, predecessors, before, ids)
  {
    var d := ids[0];
    assert ids == [d] + ids[1..];
    assert d !in ids[1..] ==>
      Lookup(predecessors.value, d) == Lookup(before[d := ShownRun(store, d)], d) == Some(ShownRun(store, d));
  }

  /** The definitions, in order, whose projection shows run `r`. */
  function Showing(store: Store, ids: seq<DefinitionId>, r: RunId): (shown: seq<DefinitionId>)
    ensures forall d :: d in shown <==> d in ids && ShownRun(store, d) == Some(r)
  {
    if ids == [] then []
    else (if ShownRun(store, ids[0]) == Some(r) then [ids[0]] else []) + Showing(store, ids[1..], r)
  }

  lemma {:induction false} ReadsShowing(store: Store, pc: Pc, now: int)
    requires pc.ReadLatest? && pc.version > 0
    ensures Leads(store, pc, now, store,
      WriteRun(pc.write, pc.attempts, pc.version, pc.next, pc.projected + Showing(store, pc.todo, pc.write.call.runId)))
    decreases |pc.todo|
  {
    StepLeads(store, pc, now);
    var r := pc.write.call.runId;
    if pc.todo == [] {
      assert pc.projected + Showing(store, pc.todo, r) == pc.projected;
    } else {
      var pc1 := AfterReadLatest(store, pc);
      ReadsShowing(store, pc1, now);
      assert pc1.projected + Showing(store, pc.todo[1..], r) == pc.projected + Showing(store, pc.todo, r);
      hide Leads, AfterReadLatest, StepClient, Showing;
      LeadsOn(store, pc, now, store, pc1, store,
        WriteRun(pc.write, pc.attempts, pc.version, pc.next, pc.projected + Showing(store, pc.todo, r)));
    }
  }

  // ---------- What it projects ----------

  /** A projection of a run shows a status of the same run over another. */
  predicate MayFollow(from: Status, to: Status) {
    || from == to
    || (from in {Queued, Running, Cancelling} && !(from.Running? && to in {Queued, StartFailed})
        && !(from.Cancelling? && to in {Queued, Running}))
  }

  /** The projection of `d` gives way to the record: it is absent, of the same run, or of the run before it. */
  predicate GivesWay(store: Store, record: RunRecord, d: DefinitionId) {
    if d !in store.latest then true
    else
      var shown := store.latest[d].value.state;
      if shown.runId == record.state.runId then MayFollow(shown.status, record.state.status)
      else
        record.predecessors.Some? && d in record.predecessors.value && record.predecessors.value[d] == Some(shown.runId)
  }

  /** Cancelling covers every definition; otherwise the call's own outcome for it comes first. */
  function ShownStatus(call: Call, status: Status, d: DefinitionId): DefinitionStatus {
    if status !in {Cancelling, Cancelled} && call.Update? && d in call.outcomes then call.outcomes[d] else OfRun(status)
  }

  lemma GivesWayExactly(store: Store, record: RunRecord, d: DefinitionId)
    ensures GivesWay(store, record, d) <==> MayProject(ValueOf(Lookup(store.latest, d)), record, d)
  {
  }

  /** The projections of `ids` that give way show the record, and the others stay. */
  ghost predicate Projected(store: Store, call: Call, record: RunRecord, ids: seq<DefinitionId>, store': Store) {
    && store'.runs == store.runs && store'.held == store.held && store'.writes == store.writes
    && forall d :: ProjectedAt(store, call, record, ids, store', d)
  }

  ghost predicate ProjectedAt(store: Store, call: Call, record: RunRecord, ids: seq<DefinitionId>, store': Store, d: DefinitionId) {
    if d in ids && GivesWay(store, record, d) then
      d in store'.latest && store'.latest[d].value == LatestRecord(record.state, ShownStatus(call, record.state.status, d))
    else Lookup(store'.latest, d) == Lookup(store.latest, d)
  }

  ghost predicate CountsVersions(store: Store) {
    forall d :: d in store.latest ==> store.latest[d].version >= 1
  }

  lemma {:induction false} ProjectsAll(store: Store, call: Call, record: RunRecord, ids: seq<DefinitionId>, attempts: nat, now: int)
    returns (store': Store)
    requires CountsVersions(store)
    ensures Leads(store, ReadProjection(call, record, ids, attempts), now, store', Idle)
    ensures Projected(store, call, record, ids, store')
    decreases |ids|
  {
    if ids == [] {
      StepLeads(store, ReadProjection(call, record, ids, attempts), now);
      store' := store;
    } else {
      var rest := ReadProjection(call, record, ids[1..], WRITE_ATTEMPTS);
      var store1 := ProjectsNext(store, call, record, ids, attempts, now);
      hide *;
      store' := ProjectsAll(store1, call, record, ids[1..], WRITE_ATTEMPTS, now);
      LeadsOn(store, ReadProjection(call, record, ids, attempts), now, store1, rest, store', Idle);
      ProjectedOneMore(store, call, record, ids, store1, store');
    }
  }

  /** The next definition: read its projection, and write it when it gives way. */
  lemma ProjectsNext(store: Store, call: Call, record: RunRecord, ids: seq<DefinitionId>, attempts: nat, now: int)
    returns (store1: Store)
    requires CountsVersions(store) && ids != []
    ensures CountsVersions(store1) && Projected(store, call, record, [ids[0]], store1)
    ensures Leads(store, ReadProjection(call, record, ids, attempts), now, store1, ReadProjection(call, record, ids[1..], WRITE_ATTEMPTS))
  {
    var reading := ReadProjection(call, record, ids, attempts);
    GivesWayExactly(store, record, ids[0]);
    StepLeads(store, reading, now);
    hide MayProject, Leads;
    if GivesWay(store, record, ids[0]) {
      hide GivesWay;
      var writing := WriteProjection(call, record, ids, attempts, Lookup(store.latest, ids[0]));
      StepLeads(store, writing, now);
      store1 := WithProjection(store, call, record, ids[0]);
      LeadsOn(store, reading, now, store, writing, store1, ReadProjection(call, record, ids[1..], WRITE_ATTEMPTS));
    } else {
      hide GivesWay;
      store1 := store;
    }
  }

  lemma ProjectedOneMore(store: Store, call: Call, record: RunRecord, ids: seq<DefinitionId>, store1: Store, store': Store)
    requires ids != [] && Projected(store, call, record, [ids[0]], store1) && Projected(store1, call, record, ids[1..], store')
    ensures Projected(store, call, record, ids, store')
  {
    assert ids == [ids[0]] + ids[1..];
    forall d ensures ProjectedAt(store, call, record, ids, store', d) {
      assert ProjectedAt(store, call, record, [ids[0]], store1, d);
      assert ProjectedAt(store1, call, record, ids[1..], store', d);
      StillGivesWay(store, call, record, ids[0], store1, d);
    }
  }

  /** Once it shows the record, a projection gives way to it again. */
  lemma StillGivesWay(store: Store, call: Call, record: RunRecord, e: DefinitionId, store1: Store, d: DefinitionId)
    requires ProjectedAt(store, call, record, [e], store1, d)
    ensures GivesWay(store1, record, d) <==> GivesWay(store, record, d)
  {
  }

  // ---------- The whole call ----------

  /** The definitions a call projects after writing: an update those that still show its run, a begin all. */
  function ProjectedIds(store: Store, call: Call): seq<DefinitionId> {
    if call.Update? then Showing(store, call.definitionIds, call.runId) else call.definitionIds
  }

  /**
   * The call has written `record` after what it found, and then projected it. A record it began holds
   * the run each projection showed; one it updated keeps what it recorded.
   */
  ghost predicate Wrote(store: Store, call: Call, now: int, record: RunRecord, store': Store) {
    var r := call.runId;
    var written := WithRun(store, Write(call, now), record);
    && Projected(written, call, record, ProjectedIds(store, call), store')
    && HeldOf(store', r) == HeldOf(store, r) + [record] && WritesOf(store', r) == WritesOf(store, r) + [Write(call, now)]
    && r in store'.runs && store'.runs[r].value == record
    && (if r in store.runs then record.predecessors == store.runs[r].value.predecessors
        else RecordsShown(store, record.predecessors, map[], call.definitionIds))
  }

  lemma {:induction false} AloneIsSound(store: Store, pc: Pc, now: int, n: nat)
    requires RunsAreHeld(store) && LatestWasHeld(store) && PcIsSound(store, pc)
    ensures RunsAreHeld(Alone(store, pc, now, n).0) && LatestWasHeld(Alone(store, pc, now, n).0)
    decreases n
  {
    hide RunsAreHeld, LatestWasHeld, StepClient, PcIsSound;
    if n > 0 && !Waits(pc) {
      RequestIsSound(store, pc, now, true);
      var (next, pc1) := StepClient(store, pc, now, true);
      AloneIsSound(next, pc1, now, n - 1);
    }
  }

  lemma LeadsToSound(store: Store, call: Call, now: int, store': Store)
    requires RunsAreHeld(store) && LatestWasHeld(store) && Leads(store, ReadRun(call, WRITE_ATTEMPTS), now, store', Idle)
    ensures RunsAreHeld(store') && LatestWasHeld(store')
  {
    hide RunsAreHeld, LatestWasHeld, Alone;
    var n: nat :| Alone(store, ReadRun(call, WRITE_ATTEMPTS), now, n) == (store', Idle);
    AloneIsSound(store, ReadRun(call, WRITE_ATTEMPTS), now, n);
  }

  /** From the write on: the record is written, as nobody else has, and then projected. */
  lemma WritesAndProjects(store: Store, write: Write, attempts: nat, version: nat, record: RunRecord,
                          ids: seq<DefinitionId>, now: int)
    returns (store': Store)
    requires LatestWasHeld(store) && Accepts(store.runs, write.call.runId, Some(version))
    ensures Leads(store, WriteRun(write, attempts, version, record, ids), now, store', Idle)
    ensures Projected(WithRun(store, write, record), write.call, record, ids, store')
  {
    var pc := WriteRun(write, attempts, version, record, ids);
    var written := WithRun(store, write, record);
    assert CountsVersions(written);
    StepLeads(store, pc, now);
    assert StepClient(store, pc, now, true) == (written, ReadProjection(write.call, record, ids, WRITE_ATTEMPTS));
    hide *;
    store' := ProjectsAll(written, write.call, record, ids, WRITE_ATTEMPTS, now);
    LeadsOn(store, pc, now, written, ReadProjection(write.call, record, ids, WRITE_ATTEMPTS), store', Idle);
  }

  lemma WroteIt(store: Store, call: Call, now: int, record: RunRecord, store': Store)
    requires Projected(WithRun(store, Write(call, now), record), call, record, ProjectedIds(store, call), store')
    requires if call.runId in store.runs then record.predecessors == store.runs[call.runId].value.predecessors
             else RecordsShown(store, record.predecessors, map[], call.definitionIds)
    ensures Wrote(store, call, now, record, store')
  {
    hide ProjectedAt, ProjectedIds, RecordsShown;
  }

  /** The first request over a record that is there. */
  lemma ReadsRecord(store: Store, call: Call, now: int) returns (record: RunRecord, reading: Pc)
    requires call.runId in store.runs && !Refuses(call, Some(store.runs[call.runId].value.state))
    ensures record.predecessors == store.runs[call.runId].value.predecessors
    ensures Leads(store, ReadRun(call, WRITE_ATTEMPTS), now, store, reading)
    ensures var version := store.runs[call.runId].version;
      reading == if call.Update?
                 then ReadLatest(Write(call, now), WRITE_ATTEMPTS, version, record, call.definitionIds, [])
                 else WriteRun(Write(call, now), WRITE_ATTEMPTS, version, record, call.definitionIds)
  {
    var current := store.runs[call.runId];
    RefusesExactly(call, Some(current.value.state), now);
    StepLeads(store, ReadRun(call, WRITE_ATTEMPTS), now);
    hide NextState, Leads;
    record := RunRecord(NextState(call, Some(current.value.state), now).value, current.value.predecessors);
    reading := StepClient(store, ReadRun(call, WRITE_ATTEMPTS), now, true).1;
  }

  /** An update then reads which projections still show its run. */
  lemma ReadsUntilWrite(store: Store, call: Call, now: int) returns (record: RunRecord)
    requires RunsAreHeld(store) && call.runId in store.runs
    requires !Refuses(call, Some(store.runs[call.runId].value.state))
    ensures record.predecessors == store.runs[call.runId].value.predecessors
    ensures Accepts(store.runs, call.runId, Some(store.runs[call.runId].version))
    ensures Leads(store, ReadRun(call, WRITE_ATTEMPTS), now, store,
      WriteRun(Write(call, now), WRITE_ATTEMPTS, store.runs[call.runId].version, record, ProjectedIds(store, call)))
  {
    hide Refuses, Leads, RunsAreHeld, Accepts, ProjectedIds, Showing;
    VersionIsAccepted(store, call.runId);
    var reading;
    record, reading := ReadsRecord(store, call, now);
    if call.Update? {
      ReadsShowing(store, reading, now);
      LeadsOn(store, ReadRun(call, WRITE_ATTEMPTS), now, store, reading, store,
        WriteRun(reading.write, WRITE_ATTEMPTS, reading.version, record, [] + Showing(store, reading.todo, call.runId)));
      assert [] + Showing(store, reading.todo, call.runId) == Showing(store, reading.todo, call.runId);
    }
    ProjectedIdsAre(store, call);
  }

  lemma ProjectedIdsAre(store: Store, call: Call)
    ensures ProjectedIds(store, call) ==
      if call.Update? then Showing(store, call.definitionIds, call.runId) else call.definitionIds
  {
  }

  lemma VersionIsAccepted(store: Store, r: RunId)
    requires RunsAreHeld(store) && r in store.runs
    ensures store.runs[r].version > 0 && Accepts(store.runs, r, Some(store.runs[r].version))
  {
    ReadIsLast(store, r);
    hide RunsAreHeld, HeldIsChain;
  }

  /** Over a record that is there. */
  lemma UpdatesAlone(store: Store, call: Call, now: int) returns (store': Store, record: RunRecord)
    requires RunsAreHeld(store) && LatestWasHeld(store) && call.runId in store.runs
    requires !Refuses(call, Some(store.runs[call.runId].value.state))
    ensures Leads(store, ReadRun(call, WRITE_ATTEMPTS), now, store', Idle) && Wrote(store, call, now, record, store')
  {
    var write, version, ids := Write(call, now), store.runs[call.runId].version, ProjectedIds(store, call);
    hide *;
    record := ReadsUntilWrite(store, call, now);
    store' := WritesAndProjects(store, write, WRITE_ATTEMPTS, version, record, ids, now);
    LeadsOn(store, ReadRun(call, WRITE_ATTEMPTS), now, store, WriteRun(write, WRITE_ATTEMPTS, version, record, ids), store', Idle);
    WroteIt(store, call, now, record, store');
  }

  /** Over no record, which only a begin can write. */
  lemma BeginsAlone(store: Store, call: Call, now: int) returns (store': Store, record: RunRecord)
    requires LatestWasHeld(store) && call.runId !in store.runs && !Refuses(call, None)
    ensures Leads(store, ReadRun(call, WRITE_ATTEMPTS), now, store', Idle) && Wrote(store, call, now, record, store')
  {
    var pc, write := ReadRun(call, WRITE_ATTEMPTS), Write(call, now);
    RefusesExactly(call, None, now);
    StepLeads(store, pc, now);
    var reading := StepClient(store, pc, now, true).1;
    assert reading == ReadLatest(write, WRITE_ATTEMPTS, 0, reading.next, call.definitionIds, call.definitionIds);
    assert reading.next.predecessors == Some(map[]);
    assert Accepts(store.runs, call.runId, Some(0));
    assert ProjectedIds(store, call) == call.definitionIds;
    record := ReadsPredecessors(store, reading, now);
    var writing := WriteRun(write, WRITE_ATTEMPTS, 0, record, call.definitionIds);
    hide *;
    LeadsOn(store, pc, now, store, reading, store, writing);
    store' := WritesAndProjects(store, write, WRITE_ATTEMPTS, 0, record, call.definitionIds, now);
    LeadsOn(store, pc, now, store, writing, store', Idle);
    WroteIt(store, call, now, record, store');
  }

  /**
   * A call whose requests all succeed, with no other client in between, writes nothing exactly when
   * what it found refuses it; otherwise it writes one value after the one it found and projects it.
   */
  lemma CallAlone(store: Store, call: Call, now: int) returns (store': Store)
    requires RunsAreHeld(store) && LatestWasHeld(store)
    ensures Leads(store, ReadRun(call, WRITE_ATTEMPTS), now, store', Idle) && RunsAreHeld(store') && LatestWasHeld(store')
    ensures
      if Refuses(call, StateOf(ValueOf(Lookup(store.runs, call.runId)))) then store' == store
      else call.runId in store'.runs && Wrote(store, call, now, store'.runs[call.runId].value, store')
  {
    hide Refuses, Wrote, RunsAreHeld, LatestWasHeld, Leads;
    var record;
    if Refuses(call, StateOf(ValueOf(Lookup(store.runs, call.runId)))) {
      store' := RefusedAlone(store, call, now);
    } else if call.runId in store.runs {
      store', record := UpdatesAlone(store, call, now);
      WroteRecord(store, call, now, record, store');
    } else {
      store', record := BeginsAlone(store, call, now);
      WroteRecord(store, call, now, record, store');
    }
    LeadsToSound(store, call, now, store');
  }

  lemma WroteRecord(store: Store, call: Call, now: int, record: RunRecord, store': Store)
    requires Wrote(store, call, now, record, store')
    ensures call.runId in store'.runs && store'.runs[call.runId].value == record
  {
  }

  lemma RefusedAlone(store: Store, call: Call, now: int) returns (store': Store)
    requires Refuses(call, StateOf(ValueOf(Lookup(store.runs, call.runId))))
    ensures store' == store && Leads(store, ReadRun(call, WRITE_ATTEMPTS), now, store', Idle)
  {
    RefusesExactly(call, StateOf(ValueOf(Lookup(store.runs, call.runId))), now);
    StepLeads(store, ReadRun(call, WRITE_ATTEMPTS), now);
    hide NextState, Refuses, Leads;
    store' := store;
  }

  /** A run that begins shows in the projection of each of its definitions. */
  lemma BeginShowsEverywhere(store: Store, call: Call, now: int, record: RunRecord, store': Store, d: DefinitionId)
    requires RunsAreHeld(store) && LatestWasHeld(store) && call.Begin? && call.runId !in store.runs && d in call.definitionIds
    requires record.state.runId == call.runId && Wrote(store, call, now, record, store')
    ensures d in store'.latest && store'.latest[d].value == LatestRecord(record.state, OfRun(record.state.status))
  {
    var written := WithRun(store, Write(call, now), record);
    assert ProjectedAt(written, call, record, call.definitionIds, store', d);
    assert record.predecessors.Some? && d in record.predecessors.value && record.predecessors.value[d] == ShownRun(store, d);
    if d in store.latest {
      ShownWasHeld(store, d);
    }
    hide Projected, RecordsShown, RunsAreHeld, LatestWasHeld, Posted;
  }

  lemma ShownWasHeld(store: Store, d: DefinitionId)
    requires RunsAreHeld(store) && LatestWasHeld(store) && d in store.latest
    ensures store.latest[d].value.state.runId in store.runs
  {
    hide HeldIsChain;
    assert ProjectsHeld(store, store.latest[d].value);
  }

  /** The time a write carries is that of the request that read the record it writes over. */
  lemma ReadTimeIsCarried(m: Machine, c: Client, now: int, ok: bool, m': Machine)
    requires Next(m, Request(c, now, ok), m') && (m'.pcs[c].ReadLatest? || m'.pcs[c].WriteRun?)
    ensures m'.pcs[c].write == if m.pcs[c].ReadRun? then Write(m.pcs[c].call, now) else m.pcs[c].write
  {
    hide NextState, MayProject, Posted;
  }

  /** Having read the record, a begin will project all its definitions, and an update will see which. */
  lemma ReadsBeforeProjecting(m: Machine, c: Client, now: int, m': Machine)
    requires RunsAreHeld(m.store) && Next(m, Request(c, now, true), m') && m.pcs[c].ReadRun?
    ensures var call, pc' := m.pcs[c].call, m'.pcs[c];
      && (pc'.WriteRun? ==> call.Begin? && pc'.projected == call.definitionIds)
      && (pc'.ReadLatest? ==> pc'.todo == call.definitionIds && (pc'.version == 0 <==> call.Begin?))
      && (pc'.ReadLatest? ==> pc'.projected == if call.Begin? then call.definitionIds else [])
  {
    if m.pcs[c].call.runId in m.store.runs {
      ReadIsLast(m.store, m.pcs[c].call.runId);
    }
    hide RunsAreHeld, HeldIsChain, Resolve;
  }

  /**
   * However other clients interleave: an update projects the definitions, in order, whose projection
   * shows its run when it reads it, and a begin of a new record keeps the run that each one shows.
   */
  lemma ReadsOneProjection(m: Machine, c: Client, now: int, m': Machine)
    requires Next(m, Request(c, now, true), m') && m.pcs[c].ReadLatest? && m.pcs[c].todo != []
    ensures m'.pcs[c].ReadLatest? && m'.pcs[c].todo == m.pcs[c].todo[1..] && m'.pcs[c].next.state == m.pcs[c].next.state
    ensures var pc, pc', shown := m.pcs[c], m'.pcs[c], ShownRun(m.store, m.pcs[c].todo[0]);
      if pc.version > 0 then
        && pc'.next == pc.next
        && pc'.projected == pc.projected + if shown == Some(pc.write.call.runId) then [pc.todo[0]] else []
      else
        && pc'.projected == pc.projected && pc'.next.predecessors.Some?
        && Lookup(pc'.next.predecessors.value, pc.todo[0]) == Some(shown)
  {
    assert m.pcs[c].projected + [] == m.pcs[c].projected;
  }

  /** Then it writes exactly that, */
  lemma WritesWhatItRead(m: Machine, c: Client, now: int, m': Machine)
    requires Next(m, Request(c, now, true), m') && m.pcs[c].ReadLatest? && m.pcs[c].todo == []
    ensures m'.pcs[c] ==
      WriteRun(m.pcs[c].write, m.pcs[c].attempts, m.pcs[c].version, m.pcs[c].next, m.pcs[c].projected)
  {
  }

  /** and projects it, with five attempts at each projection. */
  lemma ProjectsWhatItWrote(m: Machine, c: Client, now: int, m': Machine)
    requires Next(m, Request(c, now, true), m') && m.pcs[c].WriteRun? && m'.store != m.store
    ensures m'.pcs[c] == ReadProjection(m.pcs[c].write.call, m.pcs[c].next, m.pcs[c].projected, 5)
  {
    hide Posted, Accepts;
  }

  // ---------- Concurrent writes ----------

  /** What one request of a client meets: the store as other clients left it, the time, whether it gets through. */
  datatype Meets = Meets(store: Store, now: int, ok: bool)

  function PcAfter(pc: Pc, met: seq<Meets>): Pc
    decreases |met|
  {
    if met == [] then pc
    else
      var before, last := PcAfter(pc, met[..|met| - 1]), met[|met| - 1];
      if Waits(before) then before else StepClient(last.store, before, last.now, last.ok).1
  }

  /** The client's write of the run record gets through, but the record has changed since it was read. */
  predicate IsRejected(pc: Pc, met: Meets) {
    pc.WriteRun? && met.ok && !Accepts(met.store.runs, pc.write.call.runId, Some(pc.version))
  }

  function Rejections(pc: Pc, met: seq<Meets>): nat
    decreases |met|
  {
    if met == [] then 0
    else Rejections(pc, met[..|met| - 1]) + if IsRejected(PcAfter(pc, met[..|met| - 1]), met[|met| - 1]) then 1 else 0
  }

  lemma StepTries(store: Store, pc: Pc, now: int, ok: bool)
    requires !Waits(pc)
    ensures var pc' := StepClient(store, pc, now, ok).1;
      && (IsRejected(pc, Meets(store, now, ok)) ==>
            pc' == if pc.attempts > 1 then ReadRun(pc.write.call, pc.attempts - 1) else Idle)
      && (!IsRejected(pc, Meets(store, now, ok)) && (pc'.ReadRun? || pc'.ReadLatest? || pc'.WriteRun?) ==>
            (pc.ReadRun? || pc.ReadLatest? || pc.WriteRun?) && pc'.attempts == pc.attempts)
  {
    hide NextState, MayProject, Posted, Accepts;
  }

  /** A call tries its write five times, reading the record again each time, and then gives up. */
  lemma {:induction false} TriesFiveTimes(call: Call, met: seq<Meets>)
    ensures var pc, k := PcAfter(ReadRun(call, WRITE_ATTEMPTS), met), Rejections(ReadRun(call, WRITE_ATTEMPTS), met);
      && k <= 5 && (k == 5 ==> pc.Idle?)
      && (pc.ReadRun? || pc.ReadLatest? || pc.WriteRun? ==> pc.attempts == 5 - k)
      && (met != [] && k < 5 && k > Rejections(ReadRun(call, WRITE_ATTEMPTS), met[..|met| - 1]) ==> pc.ReadRun?)
    decreases |met|
  {
    if met != [] {
      var n := |met| - 1;
      TriesFiveTimes(call, met[..n]);
      var before := PcAfter(ReadRun(call, WRITE_ATTEMPTS), met[..n]);
      if !Waits(before) {
        hide StepClient;
        StepTries(met[n].store, before, met[n].now, met[n].ok);
      }
    }
  }
}
