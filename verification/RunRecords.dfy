/** Migration run records and their latest-run projections, written by any number of clients at once. */
module RunRecords {
  import opened Basics
  import opened CustomObjects

  type RunId = Name
  type DefinitionId = Name
  type Client = nat

  const WRITE_ATTEMPTS: nat := 5

  datatype Status = Queued | Running | Cancelling | Cancelled | Failed | StartFailed | Succeeded

  datatype DefinitionStatus = OfRun(status: Status) | Skipped

  datatype Operation = RunOperation | RollbackOperation

  datatype RunState = RunState(
    definitionIds: seq<DefinitionId>, runId: RunId, startedAt: int, status: Status,
    operation: Option<Operation>, execution: Option<Name>, finishedAt: Option<int>)

  /** For each definition the run projected over when it began; absent when it was recorded without any. */
  type Predecessors = Option<map<DefinitionId, Option<RunId>>>

  datatype RunRecord = RunRecord(state: RunState, predecessors: Predecessors)

  datatype LatestRecord = LatestRecord(state: RunState, definitionStatus: DefinitionStatus)

  // ---------- Transitions ----------

  predicate IsActive(status: Status) { status.Queued? || status.Running? || status.Cancelling? }

  datatype Transition = Transition(accepted: bool, status: Option<Status>)

  function Resolve(current: Option<Status>, requested: Option<Status>, cancelIfRequested: bool): Transition {
    if current.None? then Transition(true, requested)
    else if !IsActive(current.value) then
      Transition(
        requested == current
        || (current.value.Cancelled? && requested == Some(Succeeded) && cancelIfRequested),
        current)
    else if current.value.Running? && requested in {Some(Queued), Some(StartFailed)} then Transition(false, current)
    else if current.value.Cancelling? && requested == Some(Succeeded) && cancelIfRequested then
      Transition(true, Some(Cancelled))
    else if current.value.Cancelling? && requested in {None, Some(Queued), Some(Running), Some(Cancelling)} then
      Transition(true, current)
    else Transition(true, if requested.Some? then requested else current)
  }

  function Rank(status: Status): nat {
    match status
    case Queued => 0
    case Running => 1
    case Cancelling => 2
    case _ => 3
  }

  /** `to` is reached from `from` without going back, and a terminal status is final. */
  predicate Advances(from: Status, to: Status) {
    Rank(from) <= Rank(to) && (!IsActive(from) ==> to == from)
  }

  function DefinitionStatusOf(d: DefinitionId, status: Status, outcomes: map<DefinitionId, DefinitionStatus>)
    : DefinitionStatus
  {
    if status.Cancelling? || status.Cancelled? then OfRun(status)
    else if d in outcomes then outcomes[d]
    else OfRun(status)
  }

  function CanReplace(current: Option<RunId>, predecessor: Option<Option<RunId>>, runId: RunId): bool {
    current.None? || current.value == runId || predecessor == Some(current)
  }

  // ---------- What one call writes ----------

  datatype Call =
    | Update(runId: RunId, definitionIds: seq<DefinitionId>, outcomes: map<DefinitionId, DefinitionStatus>,
             execution: Option<Name>, finish: bool, cancelIfRequested: bool, onlyIfActive: bool, status: Option<Status>)
    | Begin(runId: RunId, definitionIds: seq<DefinitionId>, beginStatus: Status, operation: Operation)
  {
    function Outcomes(): map<DefinitionId, DefinitionStatus> {
      if Update? then outcomes else map[]
    }
  }

  /** The state a call writes over the state it read; None when it writes nothing. */
  function NextState(call: Call, current: Option<RunState>, now: int): Option<RunState> {
    if current.Some? && current.value.definitionIds != call.definitionIds then None
    else
      match call
      case Update(runId, definitionIds, _, execution, finish, cancelIfRequested, onlyIfActive, status) =>
        if current.None? then None
        else
          var state := current.value;
          var transition := Resolve(Some(state.status), status, cancelIfRequested);
          if onlyIfActive && !IsActive(state.status) then None
          else if !transition.accepted then None
          else
            Some(state.(
              execution := if execution.Some? then execution else state.execution,
              finishedAt := if finish && state.finishedAt.None? then Some(now) else state.finishedAt,
              status := if transition.status.Some? then transition.status.value else state.status))
      case Begin(runId, definitionIds, status, operation) =>
        if current.None? then
          Some(RunState(definitionIds, runId, now, status, Some(operation), None, None))
        else
          var transition := Resolve(Some(current.value.status), Some(status), false);
          if !transition.accepted then None
          else Some(current.value.(status := if transition.status.Some? then transition.status.value else status))
  }

  // ---------- Clients, one request at a time ----------

  /** A call with the time at which it read the run record that it writes over. */
  datatype Write = Write(call: Call, at: int)

  /**
   * `held` are all values each run record ever had, oldest first, and `writes` what wrote them; the
   * clients never see either.
   */
  datatype Store = Store(
    runs: map<RunId, Stored<RunRecord>>, latest: map<DefinitionId, Stored<LatestRecord>>,
    held: map<RunId, seq<RunRecord>>, writes: map<RunId, seq<Write>>)

  function HeldOf(store: Store, r: RunId): seq<RunRecord> {
    if r in store.held then store.held[r] else []
  }

  function WritesOf(store: Store, r: RunId): seq<Write> {
    if r in store.writes then store.writes[r] else []
  }

  datatype Pc =
    | Idle
    | ReadRun(call: Call, attempts: nat)
    | ReadLatest(write: Write, attempts: nat, version: nat, next: RunRecord,
                 todo: seq<DefinitionId>, projected: seq<DefinitionId>)
    | WriteRun(write: Write, attempts: nat, version: nat, next: RunRecord, projected: seq<DefinitionId>)
    | ReadProjection(call: Call, record: RunRecord, todo: seq<DefinitionId>, attempts: nat)
    | WriteProjection(call: Call, record: RunRecord, todo: seq<DefinitionId>, attempts: nat,
                      current: Option<Stored<LatestRecord>>)

  function Lookup<K, V>(objects: map<K, V>, key: K): Option<V> {
    if key in objects then Some(objects[key]) else None
  }

  function ValueOf<V>(current: Option<Stored<V>>): Option<V> {
    if current.Some? then Some(current.value.value) else None
  }

  function StateOf(record: Option<RunRecord>): Option<RunState> {
    if record.Some? then Some(record.value.state) else None
  }

  function VersionOf<V>(current: Option<Stored<V>>): nat {
    if current.Some? then current.value.version else 0
  }

  function AfterReadRun(store: Store, call: Call, attempts: nat, now: int): Pc {
    var current := Lookup(store.runs, call.runId);
    match NextState(call, StateOf(ValueOf(current)), now)
    case None => Idle
    case Some(next) =>
      if current.None? then
        ReadLatest(Write(call, now), attempts, 0, RunRecord(next, Some(map[])), call.definitionIds, call.definitionIds)
      else if call.Begin? then
        WriteRun(Write(call, now), attempts, current.value.version, RunRecord(next, current.value.value.predecessors),
                 call.definitionIds)
      else
        ReadLatest(Write(call, now), attempts, current.value.version, RunRecord(next, current.value.value.predecessors),
                   call.definitionIds, [])
  }

  function AfterReadLatest(store: Store, pc: Pc): Pc
    requires pc.ReadLatest?
  {
    if pc.todo == [] then WriteRun(pc.write, pc.attempts, pc.version, pc.next, pc.projected)
    else
      var d := pc.todo[0];
      var latest := if d in store.latest then Some(store.latest[d].value.state.runId) else None;
      if pc.version == 0 then
        var predecessors := if pc.next.predecessors.Some? then pc.next.predecessors.value else map[];
        pc.(next := pc.next.(predecessors := Some(predecessors[d := latest])), todo := pc.todo[1..])
      else
        pc.(todo := pc.todo[1..],
            projected := if latest == Some(pc.write.call.runId) then pc.projected + [d] else pc.projected)
  }

  /** A projection may be written over `current`: not over a later run, nor over a later status. */
  predicate MayProject(current: Option<LatestRecord>, record: RunRecord, d: DefinitionId) {
    var state := record.state;
    var predecessor := if record.predecessors.Some? then Lookup(record.predecessors.value, d) else None;
    && CanReplace(if current.Some? then Some(current.value.state.runId) else None, predecessor, state.runId)
    && (current.Some? && current.value.state.runId == state.runId ==>
          Resolve(Some(current.value.state.status), Some(state.status), false) == Transition(true, Some(state.status)))
  }

  function AfterReadProjection(store: Store, pc: Pc): Pc
    requires pc.ReadProjection?
  {
    if pc.todo == [] then Idle
    else
      var current := Lookup(store.latest, pc.todo[0]);
      if MayProject(ValueOf(current), pc.record, pc.todo[0]) then
        WriteProjection(pc.call, pc.record, pc.todo, pc.attempts, current)
      else ReadProjection(pc.call, pc.record, pc.todo[1..], WRITE_ATTEMPTS)
  }

  function WithRun(store: Store, write: Write, next: RunRecord): Store {
    var r := write.call.runId;
    store.(runs := Posted(store.runs, r, next), held := store.held[r := HeldOf(store, r) + [next]],
           writes := store.writes[r := WritesOf(store, r) + [write]])
  }

  function WithProjection(store: Store, call: Call, record: RunRecord, d: DefinitionId): Store {
    var status := DefinitionStatusOf(d, record.state.status, call.Outcomes());
    store.(latest := Posted(store.latest, d, LatestRecord(record.state, status)))
  }

  /** One request of one client. A request that fails, or data it rejects, ends the call. */
  function StepClient(store: Store, pc: Pc, now: int, ok: bool): (Store, Pc)
    requires !pc.Idle? && (pc.WriteProjection? ==> pc.todo != [])
  {
    if !ok then (store, Idle)
    else
      match pc
      case ReadRun(call, attempts) => (store, AfterReadRun(store, call, attempts, now))
      case ReadLatest(_, _, _, _, _, _) => (store, AfterReadLatest(store, pc))
      case WriteRun(write, attempts, version, next, projected) =>
        if Accepts(store.runs, write.call.runId, Some(version)) then
          (WithRun(store, write, next), ReadProjection(write.call, next, projected, WRITE_ATTEMPTS))
        else (store, if attempts > 1 then ReadRun(write.call, attempts - 1) else Idle)
      case ReadProjection(_, _, _, _) => (store, AfterReadProjection(store, pc))
      case WriteProjection(call, record, todo, attempts, current) =>
        if Accepts(store.latest, todo[0], Some(VersionOf(current))) then
          (WithProjection(store, call, record, todo[0]), ReadProjection(call, record, todo[1..], WRITE_ATTEMPTS))
        else (store, if attempts > 1 then ReadProjection(call, record, todo, attempts - 1) else Idle)
  }

  // ---------- The machine ----------

  datatype Machine = Machine(store: Store, pcs: map<Client, Pc>)

  const EMPTY: Machine := Machine(Store(map[], map[], map[], map[]), map[])

  /** A client starts a call, or makes its next request at time `now`. */
  datatype Move = Start(client: Client, call: Call) | Request(client: Client, now: int, ok: bool)

  predicate CanRequest(m: Machine, c: Client) {
    c in m.pcs && !m.pcs[c].Idle? && (m.pcs[c].WriteProjection? ==> m.pcs[c].todo != [])
  }

  ghost function AfterRequest(m: Machine, c: Client, now: int, ok: bool): Machine
    requires CanRequest(m, c)
  {
    var (store, pc) := StepClient(m.store, m.pcs[c], now, ok);
    Machine(store, m.pcs[c := pc])
  }

  ghost predicate Next(m: Machine, move: Move, m': Machine) {
    match move
    case Start(c, call) => (c in m.pcs ==> m.pcs[c].Idle?) && m' == m.(pcs := m.pcs[c := ReadRun(call, WRITE_ATTEMPTS)])
    case Request(c, now, ok) => CanRequest(m, c) && m' == AfterRequest(m, c, now, ok)
  }

  // ---------- The invariant ----------

  /** `after` is what the call writes when it has read `before` at that time. */
  ghost predicate Computed(write: Write, before: Option<RunRecord>, after: RunRecord) {
    && write.call.runId == after.state.runId
    && NextState(write.call, StateOf(before), write.at) == Some(after.state)
    && (before.Some? ==> after.predecessors == before.value.predecessors && after.state.runId == before.value.state.runId)
  }

  /** Each value is what the call that wrote it writes over the value just before it. */
  ghost predicate HeldIsChain(records: seq<RunRecord>, writes: seq<Write>, r: RunId) {
    && records != [] && |writes| == |records|
    && (forall i :: 0 <= i < |records| ==> records[i].state.runId == r)
    && Computed(writes[0], None, records[0])
    && (forall i :: 0 < i < |records| ==> Computed(writes[i], Some(records[i - 1]), records[i]))
  }

  ghost predicate RunsAreHeld(s: Store) {
    && s.runs.Keys == s.held.Keys == s.writes.Keys
    && forall r :: r in s.held ==>
      && HeldIsChain(s.held[r], s.writes[r], r)
      && s.runs[r] == Stored(|s.held[r]|, s.held[r][|s.held[r]| - 1])
  }

  /** `record` was once the value of its run record. */
  ghost predicate WasHeld(s: Store, record: RunRecord) {
    record.state.runId in s.held && record in s.held[record.state.runId]
  }

  /**
   * Apart from its definition status, the projection is a value its run record once had; while a run
   * is being cancelled or is cancelled, so is every definition.
   */
  ghost predicate ProjectsHeld(s: Store, projection: LatestRecord) {
    && (exists p :: WasHeld(s, RunRecord(projection.state, p)))
    && (projection.state.status in {Cancelling, Cancelled} ==> projection.definitionStatus == OfRun(projection.state.status))
  }

  ghost predicate LatestWasHeld(s: Store) {
    forall d :: d in s.latest ==> s.latest[d].version >= 1 && ProjectsHeld(s, s.latest[d].value)
  }

  /** What a client is about to write follows from the version it will be checked against. */
  ghost predicate BasedOn(s: Store, write: Write, version: nat, next: RunRecord) {
    && next.state.runId == write.call.runId
    && if version == 0 then Computed(write, None, next)
       else
         && version <= |HeldOf(s, write.call.runId)|
         && Computed(write, Some(HeldOf(s, write.call.runId)[version - 1]), next)
  }

  ghost predicate ReadBefore(s: Store, d: DefinitionId, current: Option<Stored<LatestRecord>>) {
    current.Some? ==>
      && current.value.version >= 1 && d in s.latest && current.value.version <= s.latest[d].version
      && (current.value.version == s.latest[d].version ==> current.value == s.latest[d])
  }

  ghost predicate PcIsSound(s: Store, pc: Pc) {
    match pc
    case Idle => true
    case ReadRun(_, _) => true
    case ReadLatest(write, _, version, next, _, _) => BasedOn(s, write, version, next)
    case WriteRun(write, _, version, next, _) => BasedOn(s, write, version, next)
    case ReadProjection(_, record, _, _) => WasHeld(s, record)
    case WriteProjection(_, record, todo, _, current) =>
      && WasHeld(s, record) && todo != [] && ReadBefore(s, todo[0], current)
      && MayProject(ValueOf(current), record, todo[0])
  }

  ghost predicate Sound(m: Machine) {
    && RunsAreHeld(m.store) && LatestWasHeld(m.store)
    && forall c :: c in m.pcs ==> PcIsSound(m.store, m.pcs[c])
  }

  // ---------- Every step keeps the invariant ----------

  /** Histories only grow, and a projection changes only to a higher version. */
  ghost predicate Extends(s: Store, s': Store) {
    && (forall r :: r in s.held ==> r in s'.held && s.held[r] <= s'.held[r])
    && (forall r :: WritesOf(s, r) <= WritesOf(s', r))
    && (forall d :: d in s.latest ==> Replaced(s, d, s'))
  }

  ghost predicate Replaced(s: Store, d: DefinitionId, s': Store)
    requires d in s.latest
  {
    d in s'.latest && (s'.latest[d] == s.latest[d] || s'.latest[d].version > s.latest[d].version)
  }

  lemma SoundPcStays(s: Store, s': Store, pc: Pc)
    requires PcIsSound(s, pc) && Extends(s, s')
    ensures PcIsSound(s', pc)
  {
    hide Computed, MayProject;
    match pc
    case ReadLatest(write, _, version, next, _, _) => BasisStays(s, s', write, version, next);
    case WriteRun(write, _, version, next, _) => BasisStays(s, s', write, version, next);
    case WriteProjection(_, _, todo, _, current) =>
      if current.Some? {
        assert Replaced(s, todo[0], s');
      }
    case _ =>
  }

  lemma BasisStays(s: Store, s': Store, write: Write, version: nat, next: RunRecord)
    requires BasedOn(s, write, version, next) && Extends(s, s')
    ensures BasedOn(s', write, version, next)
  {
    hide Computed;
  }

  lemma LatestStaysHeld(s: Store, s': Store)
    requires LatestWasHeld(s) && Extends(s, s') && s'.latest == s.latest
    ensures LatestWasHeld(s')
  {
    forall d | d in s.latest ensures ProjectsHeld(s', s.latest[d].value) {
      ProjectionStaysHeld(s, s', s.latest[d].value);
    }
  }

  lemma ProjectionStaysHeld(s: Store, s': Store, projection: LatestRecord)
    requires ProjectsHeld(s, projection) && forall r :: r in s.held ==> r in s'.held && s.held[r] <= s'.held[r]
    ensures ProjectsHeld(s', projection)
  {
    var p :| WasHeld(s, RunRecord(projection.state, p));
    assert WasHeld(s', RunRecord(projection.state, p));
  }

  // ---------- Reading ----------

  /** What a client knows after reading the run record follows from the version it read. */
  lemma ReadRunIsBased(s: Store, call: Call, attempts: nat, now: int)
    requires RunsAreHeld(s)
    ensures PcIsSound(s, AfterReadRun(s, call, attempts, now))
  {
    var current := Lookup(s.runs, call.runId);
    var state := StateOf(ValueOf(current));
    if current.Some? {
      ReadIsLast(s, call.runId);
    }
    var next := NextState(call, state, now);
    if next.Some? {
      NextKeepsRun(call, state, now);
      if current.None? {
        assert Computed(Write(call, now), None, RunRecord(next.value, Some(map[])));
      } else {
        ComputedFrom(call, current.value.value, next.value, now);
      }
    }
  }

  lemma ReadIsLast(s: Store, r: RunId)
    requires RunsAreHeld(s) && r in s.runs
    ensures r in s.held && r in s.writes && s.runs[r].version == |s.held[r]| >= 1 && HeldIsChain(s.held[r], s.writes[r], r)
    ensures s.runs[r].value == s.held[r][|s.held[r]| - 1] && s.runs[r].value.state.runId == r
  {
    hide Computed;
  }

  lemma NextKeepsRun(call: Call, current: Option<RunState>, now: int)
    requires NextState(call, current, now).Some? && (current.Some? ==> current.value.runId == call.runId)
    ensures NextState(call, current, now).value.runId == call.runId
  {
    hide Resolve;
  }

  lemma ComputedFrom(call: Call, before: RunRecord, next: RunState, now: int)
    requires before.state.runId == call.runId && NextState(call, Some(before.state), now) == Some(next)
    ensures next.runId == call.runId && Computed(Write(call, now), Some(before), RunRecord(next, before.predecessors))
  {
    NextKeepsRun(call, Some(before.state), now);
    hide NextState;
    assert NextState(call, StateOf(Some(before)), now) == Some(next);
  }

  lemma ReadLatestKeepsBasis(s: Store, pc: Pc)
    requires pc.ReadLatest? && PcIsSound(s, pc)
    ensures PcIsSound(s, AfterReadLatest(s, pc))
  {
    if pc.todo != [] && pc.version == 0 {
      hide NextState;
    }
  }

  lemma ReadProjectionIsSound(s: Store, pc: Pc)
    requires pc.ReadProjection? && PcIsSound(s, pc) && LatestWasHeld(s)
    ensures PcIsSound(s, AfterReadProjection(s, pc))
  {
    hide MayProject, ProjectsHeld;
  }

  // ---------- Writing ----------

  lemma WithRunIsSound(s: Store, write: Write, version: nat, next: RunRecord)
    requires RunsAreHeld(s) && LatestWasHeld(s) && BasedOn(s, write, version, next)
    requires Accepts(s.runs, write.call.runId, Some(version))
    ensures var s' := WithRun(s, write, next);
      RunsAreHeld(s') && LatestWasHeld(s') && Extends(s, s') && WasHeld(s', next)
  {
    hide *;
    WriteIsBased(s, write, version, next);
    WithRunExtends(s, write, next);
    ChainGrows(HeldOf(s, write.call.runId), WritesOf(s, write.call.runId), next, write);
    WithRunIsHeld(s, write, next);
    LatestStaysHeld(s, WithRun(s, write, next));
  }

  /** An accepted write is computed from the value it goes after. */
  lemma WriteIsBased(s: Store, write: Write, version: nat, next: RunRecord)
    requires RunsAreHeld(s) && BasedOn(s, write, version, next) && Accepts(s.runs, write.call.runId, Some(version))
    ensures var records, writes := HeldOf(s, write.call.runId), WritesOf(s, write.call.runId);
      && next.state.runId == write.call.runId
      && if records == [] then writes == [] && Computed(write, None, next)
         else HeldIsChain(records, writes, write.call.runId) && Computed(write, Some(records[|records| - 1]), next)
  {
    hide Computed, HeldIsChain;
    if version > 0 {
      ReadIsLast(s, write.call.runId);
    }
  }

  lemma WithRunExtends(s: Store, write: Write, next: RunRecord)
    requires next.state.runId == write.call.runId
    ensures var s' := WithRun(s, write, next); Extends(s, s') && WasHeld(s', next) && s'.latest == s.latest
  {
    var records := HeldOf(s, write.call.runId);
    assert (records + [next])[|records|] == next;
  }

  lemma WithRunIsHeld(s: Store, write: Write, next: RunRecord)
    requires RunsAreHeld(s)
    requires HeldIsChain(HeldOf(s, write.call.runId) + [next], WritesOf(s, write.call.runId) + [write], write.call.runId)
    ensures RunsAreHeld(WithRun(s, write, next))
  {
    hide HeldIsChain;
    var s' := WithRun(s, write, next);
    assert s'.runs[write.call.runId] == Stored(|s'.held[write.call.runId]|, next);
  }

  lemma ChainGrows(records: seq<RunRecord>, writes: seq<Write>, next: RunRecord, write: Write)
    requires next.state.runId == write.call.runId
    requires if records == [] then writes == [] && Computed(write, None, next)
             else HeldIsChain(records, writes, write.call.runId) && Computed(write, Some(records[|records| - 1]), next)
    ensures HeldIsChain(records + [next], writes + [write], write.call.runId)
  {
    hide Computed;
  }

  lemma WithProjectionIsSound(s: Store, pc: Pc)
    requires RunsAreHeld(s) && LatestWasHeld(s) && pc.WriteProjection? && PcIsSound(s, pc)
    requires Accepts(s.latest, pc.todo[0], Some(VersionOf(pc.current)))
    ensures var s' := WithProjection(s, pc.call, pc.record, pc.todo[0]);
      RunsAreHeld(s') && LatestWasHeld(s') && Extends(s, s') && WasHeld(s', pc.record)
  {
    assert WasHeld(s, pc.record);
    hide *;
    WithProjectionIsHeld(s, pc.call, pc.record, pc.todo[0]);
    WithProjectionExtends(s, pc.call, pc.record, pc.todo[0]);
    WithProjectionKeepsRuns(s, pc.call, pc.record, pc.todo[0]);
  }

  lemma WithProjectionKeepsRuns(s: Store, call: Call, record: RunRecord, d: DefinitionId)
    requires RunsAreHeld(s) && WasHeld(s, record)
    ensures var s' := WithProjection(s, call, record, d); RunsAreHeld(s') && WasHeld(s', record)
  {
    hide HeldIsChain, Posted;
  }

  lemma WithProjectionExtends(s: Store, call: Call, record: RunRecord, d: DefinitionId)
    ensures Extends(s, WithProjection(s, call, record, d))
  {
  }

  lemma WithProjectionIsHeld(s: Store, call: Call, record: RunRecord, d: DefinitionId)
    requires LatestWasHeld(s) && WasHeld(s, record)
    ensures LatestWasHeld(WithProjection(s, call, record, d))
  {
    var s' := WithProjection(s, call, record, d);
    hide ProjectsHeld;
    forall e | e in s'.latest ensures s'.latest[e].version >= 1 && ProjectsHeld(s', s'.latest[e].value) {
      if e == d {
        ProjectsRecord(s', s'.latest[d].value, record);
      } else {
        ProjectionStaysHeld(s, s', s.latest[e].value);
      }
    }
  }

  lemma ProjectsRecord(s: Store, projection: LatestRecord, record: RunRecord)
    requires WasHeld(s, record) && projection.state == record.state
    requires exists d, outcomes ::
      projection.definitionStatus == DefinitionStatusOf(d, projection.state.status, outcomes)
    ensures ProjectsHeld(s, projection)
  {
    assert WasHeld(s, RunRecord(projection.state, record.predecessors));
  }

  lemma NothingChanges(s: Store)
    ensures Extends(s, s)
  {
  }

  lemma RequestIsSound(s: Store, pc: Pc, now: int, ok: bool)
    requires RunsAreHeld(s) && LatestWasHeld(s) && PcIsSound(s, pc) && !pc.Idle?
    ensures var (s', pc') := StepClient(s, pc, now, ok);
      RunsAreHeld(s') && LatestWasHeld(s') && Extends(s, s') && PcIsSound(s', pc')
  {
    NothingChanges(s);
    hide RunsAreHeld, LatestWasHeld, Extends, AfterReadRun, AfterReadLatest, AfterReadProjection, WithRun,
         WithProjection, BasedOn, WasHeld, MayProject, ReadBefore, Accepts;
    if ok {
      match pc
      case ReadRun(call, attempts) => ReadRunIsBased(s, call, attempts, now);
      case ReadLatest(_, _, _, _, _, _) => ReadLatestKeepsBasis(s, pc);
      case WriteRun(write, _, version, next, _) =>
        if Accepts(s.runs, write.call.runId, Some(version)) {
          WithRunIsSound(s, write, version, next);
        }
      case ReadProjection(_, _, _, _) => ReadProjectionIsSound(s, pc);
      case WriteProjection(_, _, todo, _, current) =>
        if Accepts(s.latest, todo[0], Some(VersionOf(current))) {
          WithProjectionIsSound(s, pc);
        }
    }
  }

  /** Any move of any client keeps the invariant, and histories only grow. */
  lemma MoveIsSound(m: Machine, move: Move, m': Machine)
    requires Sound(m) && Next(m, move, m')
    ensures Sound(m') && Extends(m.store, m'.store)
  {
    NothingChanges(m.store);
    match move
    case Start(c, call) =>
      hide RunsAreHeld, LatestWasHeld, Extends;
    case Request(c, now, ok) =>
      hide RunsAreHeld, LatestWasHeld, PcIsSound, Extends, StepClient;
      assert PcIsSound(m.store, m.pcs[c]);
      RequestIsSound(m.store, m.pcs[c], now, ok);
      forall e | e in m'.pcs ensures PcIsSound(m'.store, m'.pcs[e]) {
        if e != c {
          SoundPcStays(m.store, m'.store, m.pcs[e]);
        }
      }
  }

  // ---------- What that says about histories ----------

  /** `later` keeps everything a run fixes when it begins, and its status only advances. */
  ghost predicate Continues(earlier: RunRecord, later: RunRecord) {
    && later.state.runId == earlier.state.runId
    && later.state.definitionIds == earlier.state.definitionIds
    && later.state.startedAt == earlier.state.startedAt
    && later.state.operation == earlier.state.operation
    && later.predecessors == earlier.predecessors
    && (earlier.state.finishedAt.Some? ==> later.state.finishedAt == earlier.state.finishedAt)
    && Advances(earlier.state.status, later.state.status)
  }

  lemma ComputedContinues(write: Write, before: RunRecord, after: RunRecord)
    requires Computed(write, Some(before), after)
    ensures Continues(before, after)
  {
  }

  /** Between any two values a run record held. */
  lemma {:induction false} HeldContinues(records: seq<RunRecord>, writes: seq<Write>, r: RunId, i: nat, j: nat)
    requires HeldIsChain(records, writes, r) && i <= j < |records|
    ensures Continues(records[i], records[j])
    decreases j - i
  {
    if i < j {
      HeldContinues(records, writes, r, i, j - 1);
      ComputedContinues(writes[j], records[j - 1], records[j]);
    }
  }

  /** The call leaves the execution of the run alone. */
  predicate KeepsExecution(call: Call) { call.Update? ==> call.execution.None? }

  lemma ComputedExecution(write: Write, before: RunRecord, after: RunRecord)
    requires Computed(write, Some(before), after)
    ensures after.state.execution == if KeepsExecution(write.call) then before.state.execution else write.call.execution
  {
  }

  /** What one call attached stays until another call attaches something else, however others write. */
  lemma {:induction false} AttachedExecutionStays(records: seq<RunRecord>, writes: seq<Write>, r: RunId, i: nat, j: nat)
    requires HeldIsChain(records, writes, r) && 0 < i <= j < |records| && !KeepsExecution(writes[i].call)
    requires forall k :: i < k <= j ==> KeepsExecution(writes[k].call)
    ensures records[j].state.execution == writes[i].call.execution
    decreases j - i
  {
    ComputedExecution(writes[j], records[j - 1], records[j]);
    if i < j {
      AttachedExecutionStays(records, writes, r, i, j - 1);
    }
  }

  ghost predicate Execution(ms: seq<Machine>) {
    && |ms| > 0 && ms[0] == EMPTY
    && forall i :: 0 <= i < |ms| - 1 ==> Moves(ms[i], ms[i + 1])
  }

  ghost predicate Moves(m: Machine, m': Machine) {
    exists move :: Next(m, move, m')
  }

  lemma {:induction false} ExecutionIsSound(ms: seq<Machine>)
    requires Execution(ms)
    ensures Sound(ms[|ms| - 1])
  {
    var n := |ms| - 1;
    if n > 0 {
      ExecutionIsSound(ms[..n]);
      assert Moves(ms[n - 1], ms[n]);
      hide Sound, Next;
      var move :| Next(ms[n - 1], move, ms[n]);
      MoveIsSound(ms[n - 1], move, ms[n]);
    }
  }

  /** A client's request writes the run record of its call, or leaves every history alone. */
  ghost predicate RecordsWrite(s: Store, pc: Pc, s': Store) {
    || (s'.held == s.held && s'.writes == s.writes)
    || (pc.WriteRun? && s' == WithRun(s, pc.write, pc.next) && Accepts(s.runs, pc.write.call.runId, Some(pc.version)))
  }

  /** Histories record exactly the accepted writes, each with the call of the client that made it. */
  lemma MoveRecordsWrites(m: Machine, move: Move, m': Machine)
    requires Next(m, move, m')
    ensures if move.Request? then RecordsWrite(m.store, m.pcs[move.client], m'.store) else m'.store == m.store
  {
    hide AfterReadRun, AfterReadLatest, AfterReadProjection, WithRun, Accepts, Posted;
  }

  /**
   * However clients interleave, each value of a run record is what the call that wrote it writes over
   * the value just before it, later values keep what the run fixed at its beginning, and every
   * projection is, apart from its definition status, a value its run record held.
   */
  lemma NoUpdateIsLost(ms: seq<Machine>, r: RunId, i: nat, j: nat)
    requires Execution(ms) && var s := ms[|ms| - 1].store; r in s.held && i <= j < |s.held[r]|
    ensures var s := ms[|ms| - 1].store;
      && r in s.writes && |s.writes[r]| == |s.held[r]|
      && Computed(s.writes[r][i], if i > 0 then Some(s.held[r][i - 1]) else None, s.held[r][i])
      && Continues(s.held[r][i], s.held[r][j])
      && r in s.runs && s.runs[r].value == s.held[r][|s.held[r]| - 1]
      && LatestWasHeld(s)
  {
    ExecutionIsSound(ms);
    var s := ms[|ms| - 1].store;
    ReadIsLast(s, r);
    HeldContinues(s.held[r], s.writes[r], r, i, j);
  }

  /** The projection of `d` changes only within a run, forwards, or from the recorded predecessor. */
  ghost predicate ProjectionAdvances(s: Store, d: DefinitionId, s': Store)
    requires d in s.latest && d in s'.latest
  {
    var before, after := s.latest[d].value.state, s'.latest[d].value.state;
    || s'.latest[d] == s.latest[d]
    || (after.runId == before.runId && Advances(before.status, after.status))
    || exists p :: WasHeld(s', RunRecord(after, Some(p))) && d in p && p[d] == Some(before.runId)
  }

  lemma ProjectedResolution(before: Status, after: Status)
    requires Resolve(Some(before), Some(after), false) == Transition(true, Some(after))
    ensures Advances(before, after)
  {
  }

  lemma WrittenProjectionAdvances(s: Store, pc: Pc)
    requires LatestWasHeld(s) && pc.WriteProjection? && PcIsSound(s, pc) && pc.todo[0] in s.latest
    requires Accepts(s.latest, pc.todo[0], Some(VersionOf(pc.current)))
    ensures ProjectionAdvances(s, pc.todo[0], WithProjection(s, pc.call, pc.record, pc.todo[0]))
  {
    var d, s' := pc.todo[0], WithProjection(s, pc.call, pc.record, pc.todo[0]);
    var before, after := s.latest[d].value.state, pc.record.state;
    assert pc.current == Some(s.latest[d]);
    hide ProjectsHeld, Resolve;
    if before.runId == after.runId {
      ProjectedResolution(before.status, after.status);
    } else {
      assert WasHeld(s', RunRecord(after, Some(pc.record.predecessors.value)));
    }
  }

  lemma RequestAdvancesProjection(s: Store, pc: Pc, now: int, ok: bool, d: DefinitionId)
    requires LatestWasHeld(s) && PcIsSound(s, pc) && !pc.Idle? && d in s.latest
    ensures var s' := StepClient(s, pc, now, ok).0; d in s'.latest && ProjectionAdvances(s, d, s')
  {
    assert pc.WriteProjection? ==> pc.todo != [];
    hide LatestWasHeld, AfterReadRun, AfterReadLatest, AfterReadProjection, PcIsSound, Accepts;
    if ok && pc.WriteProjection? {
      if pc.todo[0] == d && Accepts(s.latest, d, Some(VersionOf(pc.current))) {
        hide ProjectionAdvances;
        WithProjectionExtends(s, pc.call, pc.record, d);
        WrittenProjectionAdvances(s, pc);
        assert Replaced(s, d, WithProjection(s, pc.call, pc.record, d));
      }
    }
  }

  /** A projection is never removed, and no client's move takes it backwards. */
  lemma MoveAdvancesProjections(m: Machine, move: Move, m': Machine, d: DefinitionId)
    requires Sound(m) && Next(m, move, m') && d in m.store.latest
    ensures d in m'.store.latest && ProjectionAdvances(m.store, d, m'.store)
  {
    if move.Request? {
      var pc := m.pcs[move.client];
      assert PcIsSound(m.store, pc);
      hide StepClient, ProjectionAdvances, LatestWasHeld, PcIsSound, RunsAreHeld;
      RequestAdvancesProjection(m.store, pc, move.now, move.ok, d);
    }
  }
}
