/** Polling Import Operations until every one is settled or the deadline passes. */
module ImportPolling {
  import opened Basics
  import opened ImportOutcomes

  /** A validated polling request; `keys` and `keysByOp` values are insertion-ordered sets. */
  datatype PollQuery = PollQuery(
    container: Name,
    interval: real,
    timeout: real,
    keys: seq<Key>,
    ids: seq<OpId>,
    keysByOp: map<OpId, seq<Key>>,
    opsByKey: map<Key, seq<OpId>>)

  ghost predicate ValidQuery(q: PollQuery) {
    q.interval > 0.0 && q.timeout >= 0.0 && Distinct(q.keys) && Distinct(q.ids)
  }

  datatype PollResult = PollSuccess(operation: Operation) | PollFailure

  /** What request `id` of polling round `n` is answered with. */
  type Poll = (nat, OpId) -> PollResult

  predicate Unsettled(ops: map<OpId, Operation>, id: OpId) {
    id !in ops || IsPending(ops[id].state)
  }

  function AllowedKeys(q: PollQuery, id: OpId): seq<Key> {
    if id in q.keysByOp then q.keysByOp[id] else q.keys
  }

  predicate ValidPolledOperation(q: PollQuery, id: OpId, operation: Operation) {
    operation.id == id && operation.container == q.container && operation.key in AllowedKeys(q, id)
  }

  // ---------- What is known after a number of rounds ----------

  /** The latest operation seen per id after `n` rounds; settled operations are not polled again. */
  ghost function KnownAfter(q: PollQuery, poll: Poll, n: nat): map<OpId, Operation> {
    if n == 0 then map[]
    else
      var before := KnownAfter(q, poll, n - 1);
      before + map id | id in q.ids && Unsettled(before, id) && poll(n - 1, id).PollSuccess?
        :: poll(n - 1, id).operation
  }

  /** The ids whose latest poll failed. */
  ghost function ErrorsAfter(q: PollQuery, poll: Poll, n: nat): set<OpId> {
    if n == 0 then {}
    else
      var before := KnownAfter(q, poll, n - 1);
      set id | id in q.ids &&
        if Unsettled(before, id) then poll(n - 1, id).PollFailure? else id in ErrorsAfter(q, poll, n - 1)
  }

  ghost predicate RoundIsValid(q: PollQuery, poll: Poll, n: nat) {
    var before := KnownAfter(q, poll, n);
    forall id :: id in q.ids && Unsettled(before, id) && poll(n, id).PollSuccess? ==>
      ValidPolledOperation(q, id, poll(n, id).operation)
  }

  /** Known operations can be reported: no two share a key and each one is readable. */
  ghost predicate Consistent(ops: map<OpId, Operation>) {
    && (forall a, b :: a in ops && b in ops && a != b ==> ops[a].key != ops[b].key)
    && forall id :: id in ops ==> Readable(ops[id])
  }

  ghost predicate Reports(ops: map<OpId, Operation>, container: Name, outcomes: map<Key, Outcome>) {
    && (forall id :: id in ops ==>
          && ops[id].key in outcomes
          && OutcomeFromOperation(ops[id], container) == Ok(outcomes[ops[id].key]))
    && forall k :: k in outcomes ==> exists id :: id in ops && ops[id].key == k
  }

  method OutcomesFromKnownOperations(order: seq<OpId>, ops: map<OpId, Operation>, container: Name)
    returns (r: Result<map<Key, Outcome>, ContractError>)
    requires Distinct(order) && Elements(order) == ops.Keys
    ensures r.Ok? <==> Consistent(ops)
    ensures r.Ok? ==> Reports(ops, container, r.value)
    ensures r.Err? ==> r.error.MultipleOperations? || r.error.UnreadableOperation?
  {
    var outcomes: map<Key, Outcome> := map[];
    var i := 0;
    assert Reports(Restrict(ops, {}), container, outcomes) && Consistent(Restrict(ops, {}));
    hide Reports, Consistent, Restrict;
    while i < |order|
      invariant 0 <= i <= |order|
      invariant Reports(Restrict(ops, Elements(order[..i])), container, outcomes)
      invariant Consistent(Restrict(ops, Elements(order[..i])))
    {
      var id := order[i];
      NextInOrder(order, ops, i);
      var operation := ops[id];
      if operation.key in outcomes {
        SharedKeyIsInconsistent(ops, Elements(order[..i]), id, container, outcomes);
        return Err(MultipleOperations(operation.key));
      }
      var outcome := OutcomeFromOperation(operation, container);
      if outcome.Err? {
        UnreadableIsInconsistent(ops, id);
        return Err(outcome.error);
      }
      ReportOneMore(ops, Elements(order[..i]), id, container, outcomes, outcome.value);
      ConsistentOneMore(ops, Elements(order[..i]), id, container, outcomes);
      outcomes := outcomes[operation.key := outcome.value];
      i := i + 1;
    }
    WholeOrder(order, ops);
    r := Ok(outcomes);
  }

  lemma NextInOrder(order: seq<OpId>, ops: map<OpId, Operation>, i: nat)
    requires Distinct(order) && Elements(order) == ops.Keys && i < |order|
    ensures order[i] in ops && order[i] !in Elements(order[..i])
    ensures Elements(order[..i + 1]) == Elements(order[..i]) + {order[i]}
  {
    assert order[i] in Elements(order);
  }

  lemma WholeOrder(order: seq<OpId>, ops: map<OpId, Operation>)
    requires Elements(order) == ops.Keys
    ensures Restrict(ops, Elements(order[..|order|])) == ops
  {
    assert order[..|order|] == order;
  }

  lemma UnreadableIsInconsistent(ops: map<OpId, Operation>, id: OpId)
    requires id in ops && !Readable(ops[id])
    ensures !Consistent(ops)
  {
  }

  lemma SharedKeyIsInconsistent(
    ops: map<OpId, Operation>, ids: set<OpId>, id: OpId, container: Name, outcomes: map<Key, Outcome>)
    requires id in ops && id !in ids && Reports(Restrict(ops, ids), container, outcomes)
    requires ops[id].key in outcomes
    ensures !Consistent(ops)
  {
    var reported := Restrict(ops, ids);
    var other :| other in reported && reported[other].key == ops[id].key;
    assert other in ops && other != id;
  }

  lemma ReportOneMore(
    ops: map<OpId, Operation>, ids: set<OpId>, id: OpId, container: Name,
    outcomes: map<Key, Outcome>, outcome: Outcome)
    requires id in ops && id !in ids && Reports(Restrict(ops, ids), container, outcomes)
    requires ops[id].key !in outcomes && OutcomeFromOperation(ops[id], container) == Ok(outcome)
    ensures Reports(Restrict(ops, ids + {id}), container, outcomes[ops[id].key := outcome])
  {
    hide OutcomeFromOperation;
    var before, after := Restrict(ops, ids), Restrict(ops, ids + {id});
    assert after == before[id := ops[id]];
    forall k | k in outcomes ensures exists a :: a in after && after[a].key == k {
      var a :| a in before && before[a].key == k;
      assert after[a].key == k;
    }
    assert after[id].key == ops[id].key;
  }

  lemma ConsistentOneMore(
    ops: map<OpId, Operation>, ids: set<OpId>, id: OpId, container: Name, outcomes: map<Key, Outcome>)
    requires id in ops && id !in ids && Consistent(Restrict(ops, ids))
    requires Reports(Restrict(ops, ids), container, outcomes)
    requires ops[id].key !in outcomes && Readable(ops[id])
    ensures Consistent(Restrict(ops, ids + {id}))
  {
    hide Readable, OutcomeFromOperation;
    var before, after := Restrict(ops, ids), Restrict(ops, ids + {id});
    assert after == before[id := ops[id]];
  }

  ghost function Restrict(ops: map<OpId, Operation>, ids: set<OpId>): map<OpId, Operation> {
    map id | id in ops && id in ids :: ops[id]
  }

  // ---------- Reporting at the deadline ----------

  function PendingOps(q: PollQuery, ops: map<OpId, Operation>): seq<OpId> {
    Keep(q.ids, id => Unsettled(ops, id))
  }

  function MissingOps(q: PollQuery, ops: map<OpId, Operation>): seq<OpId> {
    Keep(PendingOps(q, ops), id => id !in ops)
  }

  function KnownKeys(ops: map<OpId, Operation>): set<Key> {
    set id | id in ops :: ops[id].key
  }

  function MissingKeys(q: PollQuery, known: set<Key>): seq<Key> {
    Keep(q.keys, k => k !in known)
  }

  function PollingFailureMessage(ids: seq<OpId>, errors: set<OpId>): Message {
    var failed := Keep(ids, id => id in errors);
    if failed == [] then NotCorrelated else PollsFailed(failed)
  }

  predicate IsExact(q: PollQuery, id: OpId, key: Key) {
    id in q.keysByOp && q.keysByOp[id] == [key]
  }

  /** The first missing operation that can only belong to `key`. */
  function ExactOperation(q: PollQuery, missing: seq<OpId>, key: Key): (r: Option<OpId>)
    ensures r.Some? ==> r.value in missing && IsExact(q, r.value, key)
    ensures r.None? ==> forall id :: id in missing ==> !IsExact(q, id, key)
  {
    if missing == [] then None
    else if IsExact(q, missing[0], key) then Some(missing[0])
    else ExactOperation(q, missing[1..], key)
  }

  function CandidateOps(q: PollQuery, missing: seq<OpId>, key: Key): seq<OpId> {
    match ExactOperation(q, missing, key)
    case Some(id) => [id]
    case None => if key in q.opsByKey then Keep(q.opsByKey[key], id => id in missing) else missing
  }

  function UnionKeys(ids: seq<OpId>, keysByOp: map<OpId, seq<Key>>): (r: seq<Key>)
    ensures forall k :: k in r <==> exists id :: id in ids && id in keysByOp && k in keysByOp[id]
    ensures Distinct(r)
  {
    if ids == [] then []
    else
      var rest := UnionKeys(ids[..|ids| - 1], keysByOp);
      var last := ids[|ids| - 1];
      assert forall id :: id in ids <==> id in ids[..|ids| - 1] || id == last;
      if last in keysByOp then InsertAll(rest, keysByOp[last]) else rest
  }

  function CandidateKeys(ids: seq<OpId>, keysByOp: map<OpId, seq<Key>>, fallback: seq<Key>): seq<Key> {
    var keys := UnionKeys(ids, keysByOp);
    if keys == [] then fallback else keys
  }

  function TimeoutGroup(q: PollQuery, ops: map<OpId, Operation>, key: Key): CandidateGroup {
    var candidates := CandidateOps(q, MissingOps(q, ops), key);
    CandidateGroup(
      candidates,
      CandidateKeys(candidates, q.keysByOp, MissingKeys(q, KnownKeys(ops))),
      key)
  }

  function TimeoutOutcome(q: PollQuery, ops: map<OpId, Operation>, errors: set<OpId>, key: Key): Outcome {
    Indeterminate(Accepted, TimeoutGroup(q, ops, key), q.container,
                  PollingFailureMessage(MissingOps(q, ops), errors), PollFailed)
  }

  /** The answer for the requested keys, given the operations known when polling stops. */
  ghost predicate Answers(
    q: PollQuery, ops: map<OpId, Operation>, errors: set<OpId>, outcomes: map<Key, Outcome>)
  {
    && outcomes.Keys == Elements(q.keys)
    && (forall id :: id in ops && ops[id].key in q.keys ==>
          OutcomeFromOperation(ops[id], q.container) == Ok(outcomes[ops[id].key]))
    && forall k :: k in q.keys && k !in KnownKeys(ops) ==> outcomes[k] == TimeoutOutcome(q, ops, errors, k)
  }

  ghost predicate AllSettled(q: PollQuery, ops: map<OpId, Operation>) {
    forall id :: id in q.ids ==> !Unsettled(ops, id)
  }

  ghost predicate Covered(q: PollQuery, ops: map<OpId, Operation>) {
    forall k :: k in q.keys ==> k in KnownKeys(ops)
  }

  /** Round `n` (counted from 0) is answered, correlated and readable. */
  ghost predicate RoundSucceeds(q: PollQuery, poll: Poll, n: nat) {
    RoundIsValid(q, poll, n) && Consistent(KnownAfter(q, poll, n + 1))
  }

  // ---------- The clock ----------

  function Least(a: real, b: real): real { if a < b then a else b }

  /** `clock(0)` is read before the first round, `clock(n)` after round `n`; sleeping takes its time. */
  ghost predicate ClockAdvances(interval: real, timeout: real, clock: nat -> real) {
    && clock(1) >= clock(0)
    && forall n: nat :: n >= 1 ==> SleepTakesTime(interval, timeout, clock, n)
  }

  ghost predicate SleepTakesTime(interval: real, timeout: real, clock: nat -> real, n: nat) {
    clock(n + 1) >= clock(n) + Least(interval, timeout - (clock(n) - clock(0)))
  }

  /** ceil(timeout / interval) + 1 */
  function RoundBound(q: PollQuery): (bound: nat)
    requires q.interval > 0.0 && q.timeout >= 0.0
    ensures bound >= 1
  {
    var quotient := q.timeout / q.interval;
    quotient.Floor + (if quotient == quotient.Floor as real then 0 else 1) + 1
  }

  /** `n` full poll intervals. */
  ghost function Intervals(n: nat, interval: real): real {
    if n == 0 then 0.0 else Intervals(n - 1, interval) + interval
  }

  lemma {:induction false} IntervalsIsProduct(n: nat, interval: real)
    ensures Intervals(n, interval) == n as real * interval
  {
    if n > 0 {
      IntervalsIsProduct(n - 1, interval);
      assert n as real * interval == (n - 1) as real * interval + interval;
    }
  }

  lemma {:induction false} IntervalsGrow(m: nat, n: nat, interval: real)
    requires m <= n && interval > 0.0
    ensures Intervals(m, interval) <= Intervals(n, interval)
  {
    if m < n {
      IntervalsGrow(m, n - 1, interval);
    }
  }

  lemma RoundBoundReachesTimeout(q: PollQuery)
    requires ValidQuery(q)
    ensures Intervals(RoundBound(q) - 1, q.interval) >= q.timeout
  {
    var quotient, n := q.timeout / q.interval, RoundBound(q) - 1;
    IntervalsIsProduct(n, q.interval);
    MultiplyMonotone(quotient, n as real, q.interval);
    assert quotient * q.interval == q.timeout;
  }

  lemma MultiplyMonotone(a: real, b: real, c: real)
    requires a <= b && c > 0.0
    ensures a * c <= b * c
  {
  }

  /** After `n` rounds the clock has counted `n - 1` sleeps, or the timeout, by its next reading. */
  ghost predicate OnTime(q: PollQuery, clock: nat -> real, n: nat)
    requires q.interval > 0.0 && q.timeout >= 0.0
  {
    clock(n + 1) - clock(0) >= Least(Intervals(n, q.interval), q.timeout) && n < RoundBound(q)
  }

  /** Before the deadline another round is allowed. */
  lemma BeforeDeadline(q: PollQuery, clock: nat -> real, n: nat)
    requires ValidQuery(q) && ClockAdvances(q.interval, q.timeout, clock) && n >= 1
    requires OnTime(q, clock, n - 1) && clock(n) - clock(0) < q.timeout
    ensures OnTime(q, clock, n)
  {
    assert SleepTakesTime(q.interval, q.timeout, clock, n);
    if n >= RoundBound(q) {
      TimeoutReached(q, n);
    }
  }

  lemma TimeoutReached(q: PollQuery, n: nat)
    requires ValidQuery(q) && n >= RoundBound(q)
    ensures Intervals(n - 1, q.interval) >= q.timeout
  {
    RoundBoundReachesTimeout(q);
    IntervalsGrow(RoundBound(q) - 1, n - 1, q.interval);
  }

  lemma {:induction false} SameMissingKeys(keys: seq<Key>, reported: set<Key>, known: set<Key>)
    requires forall k :: k in keys ==> (k in reported <==> k in known)
    ensures Keep(keys, k => k !in reported) == Keep(keys, k => k !in known)
  {
    if keys != [] {
      SameMissingKeys(keys[1..], reported, known);
    }
  }

  /** The ids still to poll, each once. */
  ghost predicate IsPendingList(q: PollQuery, ops: map<OpId, Operation>, pending: seq<OpId>) {
    Distinct(pending) && forall id :: id in pending <==> id in q.ids && Unsettled(ops, id)
  }

  lemma PendingOpsAreUnsettled(q: PollQuery, ops: map<OpId, Operation>)
    requires Distinct(q.ids)
    ensures IsPendingList(q, ops, PendingOps(q, ops))
    ensures PendingOps(q, ops) == [] <==> AllSettled(q, ops)
  {
    KeepDistinct(q.ids, id => Unsettled(ops, id));
    if PendingOps(q, ops) != [] {
      assert PendingOps(q, ops)[0] in PendingOps(q, ops);
    }
  }

  /** The Maps a poll keeps: operations seen (in insertion order) and the latest poll errors. */
  datatype Progress = Progress(order: seq<OpId>, operations: map<OpId, Operation>, errors: set<OpId>)

  ghost predicate ProgressAfter(q: PollQuery, poll: Poll, n: nat, p: Progress) {
    && p.operations == KnownAfter(q, poll, n)
    && p.errors == ErrorsAfter(q, poll, n)
    && p.errors <= Elements(q.ids)
    && Distinct(p.order) && Elements(p.order) == p.operations.Keys
  }

  /** Answers `seen` of one round have been taken in. */
  ghost predicate MidRound(q: PollQuery, poll: Poll, n: nat, before: Progress, seen: seq<OpId>, p: Progress) {
    && Distinct(p.order) && Elements(p.order) == p.operations.Keys
    && (forall id :: id in p.operations <==> id in before.operations || (id in seen && poll(n, id).PollSuccess?))
    && (forall id :: id in p.operations ==>
          p.operations[id] == (if id in seen && poll(n, id).PollSuccess?
                               then poll(n, id).operation else before.operations[id]))
    && (forall id :: id in p.errors <==> if id in seen then poll(n, id).PollFailure? else id in before.errors)
    && (forall id :: id in seen && poll(n, id).PollSuccess? ==>
          ValidPolledOperation(q, id, poll(n, id).operation))
  }

  lemma WholeRound(q: PollQuery, poll: Poll, n: nat, before: Progress, pending: seq<OpId>, p: Progress)
    requires ProgressAfter(q, poll, n, before) && IsPendingList(q, before.operations, pending)
    requires MidRound(q, poll, n, before, pending, p)
    ensures RoundIsValid(q, poll, n) && ProgressAfter(q, poll, n + 1, p)
  {
    hide *;
    KnownOneMore(q, poll, n, before, pending, p);
    ErrorsOneMore(q, poll, n, before, pending, p);
    RoundWasValid(q, poll, n, before, pending, p);
    ProgressIf(q, poll, n, p);
  }

  lemma RoundWasValid(q: PollQuery, poll: Poll, n: nat, before: Progress, pending: seq<OpId>, p: Progress)
    requires before.operations == KnownAfter(q, poll, n) && IsPendingList(q, before.operations, pending)
    requires MidRound(q, poll, n, before, pending, p)
    ensures RoundIsValid(q, poll, n)
  {
    hide ValidPolledOperation, KnownAfter, Unsettled, Distinct, Elements;
  }

  lemma KnownOneMore(q: PollQuery, poll: Poll, n: nat, before: Progress, pending: seq<OpId>, p: Progress)
    requires ProgressAfter(q, poll, n, before) && IsPendingList(q, before.operations, pending)
    requires MidRound(q, poll, n, before, pending, p)
    ensures before.operations == KnownAfter(q, poll, n) && p.operations == KnownAfter(q, poll, n + 1)
  {
    hide ValidPolledOperation, Unsettled, Distinct, Elements, ErrorsAfter;
  }

  lemma ErrorsOneMore(q: PollQuery, poll: Poll, n: nat, before: Progress, pending: seq<OpId>, p: Progress)
    requires ProgressAfter(q, poll, n, before) && IsPendingList(q, before.operations, pending)
    requires MidRound(q, poll, n, before, pending, p)
    ensures p.errors == ErrorsAfter(q, poll, n + 1) && p.errors <= Elements(q.ids)
    ensures Distinct(p.order) && Elements(p.order) == p.operations.Keys
  {
    hide ValidPolledOperation, Unsettled, Distinct, KnownAfter;
  }

  lemma ProgressIf(q: PollQuery, poll: Poll, n: nat, p: Progress)
    requires p.operations == KnownAfter(q, poll, n + 1) && p.errors == ErrorsAfter(q, poll, n + 1)
    requires p.errors <= Elements(q.ids) && Distinct(p.order) && Elements(p.order) == p.operations.Keys
    ensures ProgressAfter(q, poll, n + 1, p)
  {
    hide KnownAfter, ErrorsAfter, Distinct, Elements;
  }

  lemma NoteFailure(q: PollQuery, poll: Poll, n: nat, before: Progress, seen: seq<OpId>, id: OpId, p: Progress)
    requires MidRound(q, poll, n, before, seen, p) && id !in seen && poll(n, id).PollFailure?
    ensures MidRound(q, poll, n, before, seen + [id], p.(errors := p.errors + {id}))
  {
  }

  lemma NoteSuccess(q: PollQuery, poll: Poll, n: nat, before: Progress, seen: seq<OpId>, id: OpId, p: Progress)
    requires MidRound(q, poll, n, before, seen, p) && id !in seen && poll(n, id).PollSuccess?
    requires ValidPolledOperation(q, id, poll(n, id).operation)
    ensures MidRound(q, poll, n, before, seen + [id],
                     Progress(Insert(p.order, id), p.operations[id := poll(n, id).operation], p.errors - {id}))
  {
  }

  /** One polling round over the pending ids, in order. */
  method PollRound(q: PollQuery, poll: Poll, n: nat, pendingIds: seq<OpId>, before: Progress)
    returns (r: Result<Progress, ContractError>)
    requires ProgressAfter(q, poll, n, before) && IsPendingList(q, before.operations, pendingIds)
    ensures r.Ok? <==> RoundIsValid(q, poll, n)
    ensures r.Ok? ==> ProgressAfter(q, poll, n + 1, r.value)
    ensures r.Err? ==> r.error.ForeignOperation?
  {
    var p := before;
    var i := 0;
    while i < |pendingIds|
      invariant 0 <= i <= |pendingIds|
      invariant MidRound(q, poll, n, before, pendingIds[..i], p)
    {
      var id := pendingIds[i];
      assert id in pendingIds && id !in pendingIds[..i];
      assert pendingIds[..i + 1] == pendingIds[..i] + [id];
      match poll(n, id) {
        case PollFailure =>
          NoteFailure(q, poll, n, before, pendingIds[..i], id, p);
          p := p.(errors := p.errors + {id});
        case PollSuccess(operation) =>
          if !ValidPolledOperation(q, id, operation) {
            return Err(ForeignOperation(id));
          }
          NoteSuccess(q, poll, n, before, pendingIds[..i], id, p);
          p := Progress(Insert(p.order, id), p.operations[id := operation], p.errors - {id});
      }
      i := i + 1;
    }
    assert pendingIds[..i] == pendingIds;
    WholeRound(q, poll, n, before, pendingIds, p);
    r := Ok(p);
  }

  /** Nothing is left to poll: the known outcomes answer the request if they cover it. */
  method SettledAnswer(q: PollQuery, operations: map<OpId, Operation>, ghost errors: set<OpId>,
                       known: map<Key, Outcome>)
    returns (r: Result<map<Key, Outcome>, ContractError>)
    requires Distinct(q.keys) && Reports(operations, q.container, known)
    ensures r.Ok? <==> Covered(q, operations)
    ensures r.Ok? ==> Answers(q, operations, errors, r.value)
    ensures r.Err? ==> r.error.Uncovered?
  {
    var outcomes := map k | k in known && k in q.keys :: known[k];
    CoverageIsCounted(q, operations, known, outcomes);
    if |outcomes| != |q.keys| {
      return Err(Uncovered);
    }
    KnownAnswers(q, operations, errors, known, outcomes);
    return Ok(outcomes);
  }

  /** The deadline: every requested key without a known operation gets an indeterminate outcome. */
  method AddTimeouts(q: PollQuery, operations: map<OpId, Operation>, errors: set<OpId>,
                     known: map<Key, Outcome>)
    returns (outcomes: map<Key, Outcome>)
    requires Reports(operations, q.container, known)
    ensures Answers(q, operations, errors, outcomes)
  {
    hide Reports, Answers, TimeoutOutcome, KnownKeys;
    outcomes := map k | k in known && k in q.keys :: known[k];
    var missingKeys := MissingKeys(q, outcomes.Keys);
    MissingKeysAreUnknown(q, operations, known, outcomes);
    outcomes := SetEach(outcomes, missingKeys, key => TimeoutOutcome(q, operations, errors, key));
    KnownAnswers(q, operations, errors, known, outcomes);
  }

  /** Set the outcome of each key in turn. */
  method SetEach(base: map<Key, Outcome>, keys: seq<Key>, make: Key -> Outcome)
    returns (outcomes: map<Key, Outcome>)
    ensures outcomes == base + map k | k in Elements(keys) :: make(k)
  {
    outcomes := base;
    var i := 0;
    while i < |keys|
      invariant 0 <= i <= |keys|
      invariant outcomes == base + map k | k in Elements(keys[..i]) :: make(k)
    {
      assert Elements(keys[..i + 1]) == Elements(keys[..i]) + {keys[i]};
      outcomes := outcomes[keys[i] := make(keys[i])];
      i := i + 1;
    }
    assert keys[..i] == keys;
  }

  lemma MissingKeysAreUnknown(
    q: PollQuery, ops: map<OpId, Operation>, known: map<Key, Outcome>, outcomes: map<Key, Outcome>)
    requires Reports(ops, q.container, known)
    requires outcomes == map k | k in known && k in q.keys :: known[k]
    ensures MissingKeys(q, outcomes.Keys) == MissingKeys(q, KnownKeys(ops))
    ensures Elements(MissingKeys(q, outcomes.Keys)) == Elements(q.keys) - outcomes.Keys
  {
    KnownOrMissing(q, ops, known, outcomes);
    SameMissingKeys(q.keys, outcomes.Keys, KnownKeys(ops));
  }

  /** Each of the first `n` rounds succeeded and left something to poll. */
  ghost predicate StillPolling(q: PollQuery, poll: Poll, n: nat) {
    forall m :: 0 <= m < n ==> RoundContinues(q, poll, m)
  }

  ghost predicate RoundContinues(q: PollQuery, poll: Poll, n: nat) {
    RoundSucceeds(q, poll, n) && !AllSettled(q, KnownAfter(q, poll, n + 1))
  }

  /** The deadline had not passed after any of the first `n` rounds. */
  ghost predicate BeforeTimeout(q: PollQuery, clock: nat -> real, n: nat) {
    forall m: nat :: 1 <= m <= n ==> clock(m) - clock(0) < q.timeout
  }

  /** Polling stopped after `rounds` rounds with `r`. */
  ghost predicate PollEnds(
    q: PollQuery, poll: Poll, clock: nat -> real, rounds: nat, r: Result<map<Key, Outcome>, ContractError>)
    requires rounds >= 1
  {
    var ops := KnownAfter(q, poll, rounds);
    && StillPolling(q, poll, rounds - 1) && BeforeTimeout(q, clock, rounds - 1)
    && (r.Ok? <==> RoundSucceeds(q, poll, rounds - 1) && (AllSettled(q, ops) ==> Covered(q, ops)))
    && (r.Ok? ==> Answers(q, ops, ErrorsAfter(q, poll, rounds), r.value))
    && (r.Ok? && !AllSettled(q, ops) ==> clock(rounds) - clock(0) >= q.timeout)
    && (r.Err? && r.error.Uncovered? ==> RoundSucceeds(q, poll, rounds - 1) && AllSettled(q, ops))
  }

  lemma OneMoreRound(q: PollQuery, poll: Poll, n: nat)
    requires n > 0 && StillPolling(q, poll, n - 1)
    requires RoundSucceeds(q, poll, n - 1) && !AllSettled(q, KnownAfter(q, poll, n))
    ensures StillPolling(q, poll, n)
  {
    hide RoundSucceeds, AllSettled, KnownAfter;
    assert RoundContinues(q, poll, n - 1);
  }

  /** One pass of the polling loop: an answer, or the state the next pass starts from. */
  method PollOnce(q: PollQuery, poll: Poll, clock: nat -> real, n: nat, pendingIds: seq<OpId>, before: Progress)
    returns (answer: Option<Result<map<Key, Outcome>, ContractError>>, pending: seq<OpId>, p: Progress)
    requires ValidQuery(q) && ClockAdvances(q.interval, q.timeout, clock)
    requires ProgressAfter(q, poll, n, before) && IsPendingList(q, before.operations, pendingIds)
    requires StillPolling(q, poll, n) && BeforeTimeout(q, clock, n) && OnTime(q, clock, n)
    ensures answer.Some? ==> PollEnds(q, poll, clock, n + 1, answer.value)
    ensures answer.None? ==>
      && ProgressAfter(q, poll, n + 1, p) && IsPendingList(q, p.operations, pending)
      && StillPolling(q, poll, n + 1) && BeforeTimeout(q, clock, n + 1) && OnTime(q, clock, n + 1)
  {
    hide KnownAfter, ErrorsAfter, IsPendingList, RoundIsValid, Consistent, Reports, Answers, AllSettled, Covered;
    hide ClockAdvances, RoundBound, PendingOps, StillPolling, OnTime, PollEnds, RoundSucceeds, ProgressAfter;
    hide Distinct, Elements, Unsettled, BeforeTimeout;
    answer, pending, p := None, pendingIds, before;
    var polled := PollRound(q, poll, n, pendingIds, before);
    if polled.Err? {
      answer := Some(Err(polled.error));
      BadRoundEnds(q, poll, clock, n + 1, answer.value);
      return;
    }
    p := polled.value;
    KnownOperations(q, poll, n + 1, p);
    var known := OutcomesFromKnownOperations(p.order, p.operations, q.container);
    if known.Err? {
      answer := Some(Err(known.error));
      InconsistentRoundEnds(q, poll, clock, n + 1, answer.value);
      return;
    }
    GoodRound(q, poll, n + 1);
    pending := PendingOps(q, p.operations);
    PendingOpsAreUnsettled(q, p.operations);
    if |pending| == 0 {
      var covered := SettledAnswer(q, p.operations, p.errors, known.value);
      answer := Some(covered);
      AnsweredRoundEnds(q, poll, clock, n + 1, p.operations, p.errors, covered);
    } else if clock(n + 1) - clock(0) >= q.timeout {
      var outcomes := AddTimeouts(q, p.operations, p.errors, known.value);
      answer := Some(Ok(outcomes));
      AnsweredRoundEnds(q, poll, clock, n + 1, p.operations, p.errors, Ok(outcomes));
    } else {
      BeforeDeadline(q, clock, n + 1);
      OneMoreRound(q, poll, n + 1);
      StillBeforeTimeout(q, clock, n);
    }
  }

  method PollOperations(q: PollQuery, poll: Poll, clock: nat -> real)
    returns (r: Result<map<Key, Outcome>, ContractError>, rounds: nat)
    requires ValidQuery(q) && ClockAdvances(q.interval, q.timeout, clock)
    ensures 1 <= rounds <= RoundBound(q)
    ensures PollEnds(q, poll, clock, rounds, r)
  {
    var p := Progress([], map[], {});
    var pendingIds := q.ids;
    var round := 0;
    while true
      invariant ProgressAfter(q, poll, round, p)
      invariant IsPendingList(q, p.operations, pendingIds)
      invariant StillPolling(q, poll, round) && BeforeTimeout(q, clock, round)
      invariant OnTime(q, clock, round)
      decreases RoundBound(q) - round
    {
      var answer;
      answer, pendingIds, p := PollOnce(q, poll, clock, round, pendingIds, p);
      round := round + 1;
      if answer.Some? {
        return answer.value, round;
      }
    }
  }

  lemma StillBeforeTimeout(q: PollQuery, clock: nat -> real, n: nat)
    requires BeforeTimeout(q, clock, n) && clock(n + 1) - clock(0) < q.timeout
    ensures BeforeTimeout(q, clock, n + 1)
  {
  }

  /** Polling ends with this error. */
  ghost predicate PollFails(q: PollQuery, poll: Poll, clock: nat -> real, error: ContractError) {
    exists rounds: nat :: rounds >= 1 && PollEnds(q, poll, clock, rounds, Err(error))
  }

  /** The answers and the clock decide when polling ends, and whether it ends in an error. */
  lemma PollingEndsOnce(
    q: PollQuery, poll: Poll, clock: nat -> real,
    m: nat, a: Result<map<Key, Outcome>, ContractError>, n: nat, b: Result<map<Key, Outcome>, ContractError>)
    requires m >= 1 && n >= 1 && PollEnds(q, poll, clock, m, a) && PollEnds(q, poll, clock, n, b)
    ensures m == n && (a.Ok? <==> b.Ok?)
  {
    hide *;
    if m < n {
      EarlierRounds(q, poll, clock, m, n, b);
      EndHasEnded(q, poll, clock, m, a);
      assert false;
    } else if n < m {
      EarlierRounds(q, poll, clock, n, m, a);
      EndHasEnded(q, poll, clock, n, b);
      assert false;
    }
    SameEnding(q, poll, clock, m, a, b);
  }

  lemma SameEnding(
    q: PollQuery, poll: Poll, clock: nat -> real, rounds: nat,
    a: Result<map<Key, Outcome>, ContractError>, b: Result<map<Key, Outcome>, ContractError>)
    requires rounds >= 1 && PollEnds(q, poll, clock, rounds, a) && PollEnds(q, poll, clock, rounds, b)
    ensures a.Ok? <==> b.Ok?
  {
    hide RoundSucceeds, AllSettled, Covered, Answers, KnownAfter, ErrorsAfter, StillPolling, BeforeTimeout;
  }

  /** Where polling ended, it could not have gone on. */
  lemma EndHasEnded(
    q: PollQuery, poll: Poll, clock: nat -> real, rounds: nat, r: Result<map<Key, Outcome>, ContractError>)
    requires rounds >= 1 && PollEnds(q, poll, clock, rounds, r)
    ensures !(StillPolling(q, poll, rounds) && BeforeTimeout(q, clock, rounds))
  {
    hide RoundSucceeds, AllSettled, Covered, Answers, KnownAfter, ErrorsAfter;
    if StillPolling(q, poll, rounds) {
      assert RoundContinues(q, poll, rounds - 1);
      assert clock(rounds) - clock(0) >= q.timeout;
    }
  }

  lemma EarlierRounds(
    q: PollQuery, poll: Poll, clock: nat -> real, m: nat, n: nat, r: Result<map<Key, Outcome>, ContractError>)
    requires m < n && PollEnds(q, poll, clock, n, r)
    ensures StillPolling(q, poll, m) && BeforeTimeout(q, clock, m)
  {
    hide RoundContinues, RoundSucceeds, AllSettled, Covered, Answers, KnownAfter, ErrorsAfter;
  }

  lemma PollFailsExactly(
    q: PollQuery, poll: Poll, clock: nat -> real, rounds: nat, r: Result<map<Key, Outcome>, ContractError>)
    requires rounds >= 1 && PollEnds(q, poll, clock, rounds, r)
    ensures r.Err? ==> PollFails(q, poll, clock, r.error)
    ensures r.Ok? ==> forall error :: !PollFails(q, poll, clock, error)
  {
    hide PollEnds;
    forall error | PollFails(q, poll, clock, error) ensures r.Err? {
      var n: nat :| n >= 1 && PollEnds(q, poll, clock, n, Err(error));
      PollingEndsOnce(q, poll, clock, rounds, r, n, Err(error));
    }
  }

  lemma KnownOperations(q: PollQuery, poll: Poll, n: nat, p: Progress)
    requires ProgressAfter(q, poll, n, p)
    ensures p.operations == KnownAfter(q, poll, n) && p.errors == ErrorsAfter(q, poll, n)
    ensures Distinct(p.order) && Elements(p.order) == p.operations.Keys
  {
  }

  lemma GoodRound(q: PollQuery, poll: Poll, n: nat)
    requires n > 0 && RoundIsValid(q, poll, n - 1) && Consistent(KnownAfter(q, poll, n))
    ensures RoundSucceeds(q, poll, n - 1)
  {
  }

  lemma BadRoundEnds(
    q: PollQuery, poll: Poll, clock: nat -> real, rounds: nat, r: Result<map<Key, Outcome>, ContractError>)
    requires rounds >= 1 && BeforeTimeout(q, clock, rounds - 1) && StillPolling(q, poll, rounds - 1) && !RoundIsValid(q, poll, rounds - 1)
    requires r.Err? && r.error.ForeignOperation?
    ensures PollEnds(q, poll, clock, rounds, r)
  {
    hide BeforeTimeout, RoundIsValid, KnownAfter, StillPolling;
  }

  lemma InconsistentRoundEnds(
    q: PollQuery, poll: Poll, clock: nat -> real, rounds: nat, r: Result<map<Key, Outcome>, ContractError>)
    requires rounds >= 1 && BeforeTimeout(q, clock, rounds - 1) && StillPolling(q, poll, rounds - 1) && !Consistent(KnownAfter(q, poll, rounds))
    requires r.Err? && !r.error.Uncovered?
    ensures PollEnds(q, poll, clock, rounds, r)
  {
    hide BeforeTimeout, Consistent, KnownAfter, StillPolling;
    assert rounds - 1 + 1 == rounds;
  }

  lemma AnsweredRoundEnds(
    q: PollQuery, poll: Poll, clock: nat -> real, rounds: nat, ops: map<OpId, Operation>, errors: set<OpId>,
    r: Result<map<Key, Outcome>, ContractError>)
    requires rounds >= 1 && BeforeTimeout(q, clock, rounds - 1) && StillPolling(q, poll, rounds - 1) && RoundSucceeds(q, poll, rounds - 1)
    requires ops == KnownAfter(q, poll, rounds) && errors == ErrorsAfter(q, poll, rounds)
    requires AllSettled(q, ops) || clock(rounds) - clock(0) >= q.timeout
    requires r.Ok? <==> (AllSettled(q, ops) ==> Covered(q, ops))
    requires r.Ok? ==> Answers(q, ops, errors, r.value)
    ensures PollEnds(q, poll, clock, rounds, r)
  {
    hide BeforeTimeout, KnownAfter, ErrorsAfter, StillPolling, RoundSucceeds, AllSettled, Covered, Answers;
  }

  lemma KnownOrMissing(
    q: PollQuery, ops: map<OpId, Operation>, known: map<Key, Outcome>, outcomes: map<Key, Outcome>)
    requires Reports(ops, q.container, known)
    requires outcomes == map k | k in known && k in q.keys :: known[k]
    ensures known.Keys == KnownKeys(ops)
    ensures forall k :: k in outcomes <==> k in q.keys && k in KnownKeys(ops)
  {
    forall k | k in known ensures k in KnownKeys(ops) {
      var id :| id in ops && ops[id].key == k;
    }
  }

  lemma KnownAnswers(
    q: PollQuery, ops: map<OpId, Operation>, errors: set<OpId>,
    known: map<Key, Outcome>, outcomes: map<Key, Outcome>)
    requires Reports(ops, q.container, known)
    requires outcomes.Keys == Elements(q.keys)
    requires forall k :: k in known && k in q.keys ==> outcomes[k] == known[k]
    requires forall k :: k in q.keys && k !in known ==> outcomes[k] == TimeoutOutcome(q, ops, errors, k)
    ensures Answers(q, ops, errors, outcomes)
  {
    KnownOrMissing(q, ops, known, map k | k in known && k in q.keys :: known[k]);
  }

  /** Comparing the number of outcomes with the number of keys decides coverage. */
  lemma CoverageIsCounted(
    q: PollQuery, ops: map<OpId, Operation>, known: map<Key, Outcome>, outcomes: map<Key, Outcome>)
    requires Distinct(q.keys) && Reports(ops, q.container, known)
    requires outcomes == map k | k in known && k in q.keys :: known[k]
    ensures |outcomes| == |q.keys| <==> Covered(q, ops)
    ensures |outcomes| == |q.keys| ==> outcomes.Keys == Elements(q.keys)
  {
    DistinctSize(q.keys);
    KnownOrMissing(q, ops, known, outcomes);
    assert outcomes.Keys <= Elements(q.keys);
    SubsetSize(outcomes.Keys, Elements(q.keys));
    if |outcomes.Keys| == |q.keys| {
      forall k | k in q.keys ensures k in KnownKeys(ops) {
        assert k in Elements(q.keys);
      }
    }
    if Covered(q, ops) {
      assert outcomes.Keys == Elements(q.keys);
    }
  }

  /** Every known operation was requested, names itself and belongs to an allowed key. */
  ghost predicate Correlated(q: PollQuery, ops: map<OpId, Operation>) {
    forall id :: id in ops ==> id in q.ids && ValidPolledOperation(q, id, ops[id])
  }

  lemma {:induction false} KnownIsCorrelated(q: PollQuery, poll: Poll, n: nat)
    requires forall m :: 0 <= m < n ==> RoundIsValid(q, poll, m)
    ensures Correlated(q, KnownAfter(q, poll, n))
  {
    hide ValidPolledOperation;
    if n > 0 {
      KnownIsCorrelated(q, poll, n - 1);
      assert RoundIsValid(q, poll, n - 1);
    }
  }

  lemma PolledIsCorrelated(q: PollQuery, poll: Poll, rounds: nat)
    requires rounds > 0 && StillPolling(q, poll, rounds - 1) && RoundSucceeds(q, poll, rounds - 1)
    ensures Correlated(q, KnownAfter(q, poll, rounds)) && Consistent(KnownAfter(q, poll, rounds))
  {
    hide RoundIsValid, KnownAfter, Consistent, AllSettled, Correlated;
    forall m | 0 <= m < rounds ensures RoundIsValid(q, poll, m) {
      if m < rounds - 1 {
        assert RoundContinues(q, poll, m);
      }
    }
    KnownIsCorrelated(q, poll, rounds);
  }

  // ---------- What polling leaves known, in terms of the polls ----------

  /** The last answer to the polls of an operation before round `n`. */
  function LastAnswer(poll: Poll, n: nat, id: OpId): Option<Operation> {
    if n == 0 then None
    else if poll(n - 1, id).PollSuccess? then Some(poll(n - 1, id).operation)
    else LastAnswer(poll, n - 1, id)
  }

  /** No poll of the operation before round `n` was answered with a settled state. */
  ghost predicate NotSettledBefore(poll: Poll, n: nat, id: OpId) {
    forall m: nat :: m < n && poll(m, id).PollSuccess? ==> IsPending(poll(m, id).operation.state)
  }

  lemma PolledInRound(q: PollQuery, poll: Poll, n: nat, id: OpId)
    requires n > 0 && id in q.ids
    ensures var before, after := KnownAfter(q, poll, n - 1), KnownAfter(q, poll, n);
      if Unsettled(before, id) && poll(n - 1, id).PollSuccess? then id in after && after[id] == poll(n - 1, id).operation
      else (id in after <==> id in before) && (id in before ==> after[id] == before[id])
    ensures id in ErrorsAfter(q, poll, n) <==>
      if Unsettled(KnownAfter(q, poll, n - 1), id) then poll(n - 1, id).PollFailure? else id in ErrorsAfter(q, poll, n - 1)
  {
  }

  /**
   * While its answers leave an operation open it is polled every round: what is known of it is the
   * last answer, and it is in error when the last poll was.
   */
  lemma {:induction false} LastAnswerIsKnown(q: PollQuery, poll: Poll, n: nat, id: OpId)
    requires id in q.ids && NotSettledBefore(poll, n, id)
    ensures var known := KnownAfter(q, poll, n);
      && (if id in known then Some(known[id]) else None) == LastAnswer(poll, n, id) && Unsettled(known, id)
    ensures id in ErrorsAfter(q, poll, n) <==> n > 0 && poll(n - 1, id).PollFailure?
  {
    if n > 0 {
      LastAnswerIsKnown(q, poll, n - 1, id);
      PolledInRound(q, poll, n, id);
      hide KnownAfter, ErrorsAfter;
    }
  }

  /** The first settled answer is the last one taken, and leaves no error. */
  lemma {:induction false} SettledAnswerStays(q: PollQuery, poll: Poll, m: nat, n: nat, id: OpId)
    requires id in q.ids && m < n && NotSettledBefore(poll, m, id)
    requires poll(m, id).PollSuccess? && !IsPending(poll(m, id).operation.state)
    ensures id in KnownAfter(q, poll, n) && KnownAfter(q, poll, n)[id] == poll(m, id).operation
    ensures id !in ErrorsAfter(q, poll, n)
  {
    hide *;
    if n == m + 1 {
      SettlesIn(q, poll, m, id);
    } else {
      SettledAnswerStays(q, poll, m, n - 1, id);
      StaysSettled(q, poll, n, id, poll(m, id).operation);
    }
  }

  lemma SettlesIn(q: PollQuery, poll: Poll, m: nat, id: OpId)
    requires id in q.ids && NotSettledBefore(poll, m, id) && poll(m, id).PollSuccess?
    ensures id in KnownAfter(q, poll, m + 1) && KnownAfter(q, poll, m + 1)[id] == poll(m, id).operation
    ensures id !in ErrorsAfter(q, poll, m + 1)
  {
    LastAnswerIsKnown(q, poll, m, id);
    PolledInRound(q, poll, m + 1, id);
    hide KnownAfter, ErrorsAfter, NotSettledBefore, LastAnswer;
  }

  lemma StaysSettled(q: PollQuery, poll: Poll, n: nat, id: OpId, operation: Operation)
    requires n > 0 && id in q.ids && id in KnownAfter(q, poll, n - 1) && KnownAfter(q, poll, n - 1)[id] == operation
    requires !IsPending(operation.state) && id !in ErrorsAfter(q, poll, n - 1)
    ensures id in KnownAfter(q, poll, n) && KnownAfter(q, poll, n)[id] == operation && id !in ErrorsAfter(q, poll, n)
  {
    PolledInRound(q, poll, n, id);
    hide KnownAfter, ErrorsAfter;
  }

  /** A key that polling did not see is left as accepted, with the operations whose last poll failed. */
  lemma TimeoutIs(q: PollQuery, ops: map<OpId, Operation>, errors: set<OpId>, k: Key)
    ensures var outcome := TimeoutOutcome(q, ops, errors, k);
      && outcome.Indeterminate? && outcome.acceptance == Accepted && outcome.phase == PollFailed
      && outcome.container == q.container && outcome.group.key == k
      && match outcome.message
         case NotCorrelated => forall id :: id in q.ids && id !in ops ==> id !in errors
         case PollsFailed(ids) => ids != [] && forall id :: id in ids <==> id in q.ids && id !in ops && id in errors
         case SdkMessage(_) => false
  {
    assert TimeoutGroup(q, ops, k).key == k;
    MissingIsPolled(q, ops);
    hide TimeoutGroup, MissingOps;
  }

  lemma MissingIsPolled(q: PollQuery, ops: map<OpId, Operation>)
    ensures forall id :: id in MissingOps(q, ops) <==> id in q.ids && id !in ops
  {
  }
}
