/** Submitting chunks and polling what they became. */
module ImportSubmission {
  import opened Basics
  import opened Chunking
  import opened ImportOutcomes
  import opened ImportPolling

  const BODY_LIMIT: int := 14_000_000
  const DEFAULT_CONCURRENCY: int := 4
  const DEFAULT_POLL_INTERVAL: real := 1000.0
  const DEFAULT_POLL_TIMEOUT: real := 30000.0

  datatype PollOptions = PollOptions(container: Name, pollInterval: Option<real>, pollTimeout: Option<real>)
  {
    function Interval(): real { if pollInterval.Some? then pollInterval.value else DEFAULT_POLL_INTERVAL }
    function Timeout(): real { if pollTimeout.Some? then pollTimeout.value else DEFAULT_POLL_TIMEOUT }
    predicate Valid() { !container.blank && Interval() > 0.0 && Timeout() >= 0.0 }
  }

  function ValidatePollOptions(options: PollOptions): (r: Option<ContractError>)
    ensures r.None? <==> options.Valid()
    ensures r.Some? ==> !r.value.Uncovered?
  {
    if options.container.blank then Some(BlankContainer)
    else if !(options.Interval() > 0.0) || !(options.Timeout() >= 0.0) then Some(BadDuration)
    else None
  }

  /** A request that asks for nothing yet. */
  function EmptyQuery(options: PollOptions): PollQuery {
    PollQuery(options.container, options.Interval(), options.Timeout(), [], [], map[], map[])
  }

  datatype ImportInput = ImportInput(
    options: PollOptions, resources: seq<Resource>, maxBytes: Option<int>, concurrency: Option<int>)
  {
    function MaxBytes(): int { if maxBytes.Some? then maxBytes.value else BODY_LIMIT }
    function Concurrency(): int { if concurrency.Some? then concurrency.value else DEFAULT_CONCURRENCY }
  }

  function KeysOf(resources: seq<Resource>): (r: seq<Key>)
    ensures |r| == |resources| && forall i :: 0 <= i < |r| ==> r[i] == resources[i].key
  {
    seq(|resources|, i requires 0 <= i < |resources| => resources[i].key)
  }

  ghost predicate ValidResources(resources: seq<Resource>) {
    && resources != []
    && (forall k :: k in KeysOf(resources) ==> !k.blank)
    && Distinct(KeysOf(resources))
  }

  ghost predicate ValidImportInput(input: ImportInput) {
    && ValidResources(input.resources)
    && 0 < input.MaxBytes() <= BODY_LIMIT
    && input.Concurrency() > 0
    && input.options.Valid()
    && !SomeResourceTooLarge(input.resources, input.MaxBytes())
  }

  method ValidateImportInput(input: ImportInput)
    returns (r: Result<seq<seq<Resource>>, ContractError>)
    ensures r.Ok? <==> ValidImportInput(input)
    ensures r.Ok? ==> IsGreedySplit(r.value, input.resources, input.MaxBytes())
    ensures r.Err? ==> !r.error.Uncovered?
  {
    if |input.resources| == 0 {
      return Err(EmptyInput);
    }
    var keys: set<Key> := {};
    ghost var all := KeysOf(input.resources);
    var i := 0;
    while i < |input.resources|
      invariant 0 <= i <= |input.resources|
      invariant keys == Elements(all[..i])
      invariant forall j :: 0 <= j < i ==> !all[j].blank
      invariant Distinct(all[..i])
    {
      var key := input.resources[i].key;
      assert all[..i + 1] == all[..i] + [key];
      if key.blank {
        assert key in all;
        return Err(BlankKey);
      }
      if key in keys {
        assert key in all[..i];
        return Err(DuplicateKey(key));
      }
      keys := keys + {key};
      i := i + 1;
    }
    assert all[..i] == all;
    if input.MaxBytes() <= 0 || input.MaxBytes() > BODY_LIMIT {
      return Err(BadBodyLimit);
    }
    if input.Concurrency() <= 0 {
      return Err(BadConcurrency);
    }
    var poll := ValidatePollOptions(input.options);
    if poll.Some? {
      return Err(poll.value);
    }
    var chunks := ChunkResources(input.resources, input.MaxBytes());
    if chunks.Err? {
      return Err(ResourceTooLarge(chunks.error.key));
    }
    return Ok(chunks.value);
  }

  // ---------- The provider's answer to one chunk ----------

  datatype Status = Status(state: ProcessingState, operationId: Option<OpId>)

  /** An SDK failure is a definite rejection (4xx) or leaves acceptance unknown. */
  datatype SubmitResult =
    | Response(statuses: seq<Status>)
    | SdkFailure(definitelyRejected: bool, message: Message)
  {
    function Acceptance(): Acceptance
      requires SdkFailure?
    {
      if definitelyRejected then NotAccepted else UnknownAcceptance
    }
  }

  predicate UsableStatus(status: Status) {
    && (status.state.Processing? || status.state.ValidationFailed?)
    && status.operationId.Some?
    && !status.operationId.value.blank
  }

  /** The response names as many fresh, distinct, non-blank operations as resources were sent. */
  ghost predicate ResponseNames(statuses: seq<Status>, count: nat, known: set<OpId>, ids: seq<OpId>) {
    && |statuses| == count == |ids|
    && (forall i :: 0 <= i < count ==> UsableStatus(statuses[i]) && statuses[i].operationId.value == ids[i])
    && Distinct(ids)
    && Elements(ids) !! known
  }

  method ValidateSubmissionResponse(statuses: seq<Status>, expectedCount: nat, knownIds: set<OpId>)
    returns (r: Result<seq<OpId>, ContractError>)
    ensures r.Ok? ==> ResponseNames(statuses, expectedCount, knownIds, r.value)
    ensures r.Err? ==> forall ids :: !ResponseNames(statuses, expectedCount, knownIds, ids)
    ensures r.Err? ==> !r.error.Uncovered?
  {
    if |statuses| != expectedCount {
      return Err(UnexpectedCount);
    }
    var known := knownIds;
    var ids: seq<OpId> := [];
    for i := 0 to |statuses|
      invariant |ids| == i
      invariant forall j :: 0 <= j < i ==> UsableStatus(statuses[j]) && statuses[j].operationId.value == ids[j]
      invariant Distinct(ids) && Elements(ids) !! knownIds
      invariant known == knownIds + Elements(ids)
    {
      var status := statuses[i];
      if !(status.state.Processing? || status.state.ValidationFailed?) {
        return Err(UnknownInitialState);
      }
      if status.operationId.None? || status.operationId.value.blank {
        return Err(MissingOperationId);
      }
      var id := status.operationId.value;
      if id in known {
        forall names ensures !ResponseNames(statuses, expectedCount, knownIds, names) {
          if |names| == |statuses| && names[..i] == ids && names[i] == id {
            assert id in Elements(names);
            if id in ids {
              var j :| 0 <= j < i && ids[j] == id;
              assert names[j] == names[i];
            }
          }
        }
        return Err(DuplicateOperationId(id));
      }
      assert Elements(ids + [id]) == Elements(ids) + {id};
      known := known + {id};
      ids := ids + [id];
    }
    return Ok(ids);
  }

  /** No list of operations makes the response acceptable after the operations `known` so far. */
  ghost predicate Refused(answer: SubmitResult, count: nat, known: seq<OpId>) {
    answer.Response? && forall ids :: !ResponseNames(answer.statuses, count, Elements(known), ids)
  }

  function SubmissionFailureOutcome(
    container: Name, resources: seq<Resource>, key: Key, acceptance: Acceptance, message: Message): Outcome
  {
    Indeterminate(acceptance, CandidateGroup([], KeysOf(resources), key), container, message, SubmissionFailed)
  }

  // ---------- Accepted chunks and the polling request they make ----------

  /** An accepted chunk: the keys sent and the operations named, in no known correspondence. */
  datatype ChunkGroup = ChunkGroup(keys: seq<Key>, ids: seq<OpId>)

  ghost predicate ValidGroup(g: ChunkGroup) {
    && |g.keys| == |g.ids| > 0
    && Distinct(g.keys) && (forall k :: k in g.keys ==> !k.blank)
    && Distinct(g.ids) && (forall id :: id in g.ids ==> !id.blank)
  }

  ghost predicate DisjointGroups(a: ChunkGroup, b: ChunkGroup) {
    Elements(a.keys) !! Elements(b.keys) && Elements(a.ids) !! Elements(b.ids)
  }

  ghost predicate ValidGroups(groups: set<ChunkGroup>) {
    && (forall g :: g in groups ==> ValidGroup(g))
    && forall a, b :: a in groups && b in groups && a != b ==> DisjointGroups(a, b)
  }

  ghost predicate SomeKey(groups: set<ChunkGroup>, k: Key) {
    exists g :: g in groups && k in g.keys
  }

  ghost predicate SomeId(groups: set<ChunkGroup>, id: OpId) {
    exists g :: g in groups && id in g.ids
  }

  /** `q` asks for exactly the accepted keys and lets each operation be any key of its own chunk. */
  ghost predicate AsksFor(q: PollQuery, groups: set<ChunkGroup>) {
    && Distinct(q.keys) && Distinct(q.ids)
    && (forall k :: k in q.keys <==> SomeKey(groups, k))
    && (forall id :: id in q.ids <==> SomeId(groups, id))
    && q.keysByOp.Keys == Elements(q.ids)
    && q.opsByKey.Keys == Elements(q.keys)
    && (forall g, id :: g in groups && id in g.ids ==> id in q.keysByOp && q.keysByOp[id] == g.keys)
    && (forall g, k :: g in groups && k in g.keys ==> k in q.opsByKey && q.opsByKey[k] == g.ids)
  }

  function AddGroup(q: PollQuery, g: ChunkGroup): PollQuery {
    q.(keys := q.keys + g.keys,
       ids := q.ids + g.ids,
       keysByOp := q.keysByOp + map id | id in g.ids :: g.keys,
       opsByKey := q.opsByKey + map k | k in g.keys :: g.ids)
  }

  lemma FreshGroup(q: PollQuery, groups: set<ChunkGroup>, g: ChunkGroup)
    requires ValidGroups(groups + {g}) && g !in groups && AsksFor(q, groups)
    ensures forall k :: k in q.keys ==> k !in g.keys
    ensures forall id :: id in q.ids ==> id !in g.ids
    ensures ValidGroup(g) && ValidGroups(groups)
    ensures forall a :: a in groups ==> DisjointGroups(a, g)
  {
    assert g in groups + {g};
    forall a | a in groups ensures DisjointGroups(a, g) {
      assert a in groups + {g} && a != g;
    }
    forall k | k in q.keys ensures k !in g.keys {
      var a :| a in groups && k in a.keys;
      assert k in Elements(a.keys);
    }
    forall id | id in q.ids ensures id !in g.ids {
      var a :| a in groups && id in a.ids;
      assert id in Elements(a.ids);
    }
  }

  lemma AddGroupAsks(q: PollQuery, groups: set<ChunkGroup>, g: ChunkGroup)
    requires ValidGroups(groups + {g}) && g !in groups && AsksFor(q, groups)
    ensures AsksFor(AddGroup(q, g), groups + {g})
    ensures Elements(AddGroup(q, g).keys) == Elements(q.keys) + Elements(g.keys)
  {
    FreshGroup(q, groups, g);
    AddGroupLists(q, groups, g);
    AddGroupMaps(q, groups, g);
    hide ValidGroups, SomeKey, SomeId, Distinct, DisjointGroups;
  }

  lemma AddGroupLists(q: PollQuery, groups: set<ChunkGroup>, g: ChunkGroup)
    requires AsksFor(q, groups) && ValidGroup(g)
    requires forall k :: k in q.keys ==> k !in g.keys
    requires forall id :: id in q.ids ==> id !in g.ids
    ensures var q', groups' := AddGroup(q, g), groups + {g};
      && Distinct(q'.keys) && Distinct(q'.ids)
      && (forall k :: k in q'.keys <==> SomeKey(groups', k))
      && (forall id :: id in q'.ids <==> SomeId(groups', id))
  {
    DistinctConcat(q.keys, g.keys);
    DistinctConcat(q.ids, g.ids);
    var groups' := groups + {g};
    assert forall a :: a in groups' <==> a in groups || a == g;
    forall k ensures SomeKey(groups', k) <==> SomeKey(groups, k) || k in g.keys {
      SomeKeyMore(groups, g, k);
    }
    forall id ensures SomeId(groups', id) <==> SomeId(groups, id) || id in g.ids {
      SomeIdMore(groups, g, id);
    }
    hide SomeKey, SomeId, Distinct, Elements;
  }

  lemma SomeKeyMore(groups: set<ChunkGroup>, g: ChunkGroup, k: Key)
    ensures SomeKey(groups + {g}, k) <==> SomeKey(groups, k) || k in g.keys
  {
    var groups' := groups + {g};
    assert g in groups';
    if SomeKey(groups, k) {
      var a :| a in groups && k in a.keys;
      assert a in groups';
    }
  }

  lemma SomeIdMore(groups: set<ChunkGroup>, g: ChunkGroup, id: OpId)
    ensures SomeId(groups + {g}, id) <==> SomeId(groups, id) || id in g.ids
  {
    var groups' := groups + {g};
    assert g in groups';
    if SomeId(groups, id) {
      var a :| a in groups && id in a.ids;
      assert a in groups';
    }
  }

  lemma AddGroupMaps(q: PollQuery, groups: set<ChunkGroup>, g: ChunkGroup)
    requires AsksFor(q, groups)
    requires forall a :: a in groups ==> DisjointGroups(a, g)
    ensures var q', groups' := AddGroup(q, g), groups + {g};
      && q'.keysByOp.Keys == Elements(q'.ids) && q'.opsByKey.Keys == Elements(q'.keys)
      && (forall a, id :: a in groups' && id in a.ids ==> id in q'.keysByOp && q'.keysByOp[id] == a.keys)
      && (forall a, k :: a in groups' && k in a.keys ==> k in q'.opsByKey && q'.opsByKey[k] == a.ids)
  {
    hide SomeKey, SomeId, Distinct;
    var q', groups' := AddGroup(q, g), groups + {g};
    forall a, id | a in groups' && id in a.ids ensures id in q'.keysByOp && q'.keysByOp[id] == a.keys {
      assert a != g ==> id in Elements(a.ids) && id !in Elements(g.ids);
    }
    forall a, k | a in groups' && k in a.keys ensures k in q'.opsByKey && q'.opsByKey[k] == a.ids {
      assert a != g ==> k in Elements(a.keys) && k !in Elements(g.keys);
    }
  }

  // ---------- The counting argument ----------

  /** A chunk key no known operation belongs to leaves some operation of the chunk unknown. */
  lemma GroupPigeonhole(g: ChunkGroup, ops: map<OpId, Operation>, k: Key)
    requires ValidGroup(g) && k in g.keys
    requires forall id :: id in g.ids && id in ops ==> ops[id].key in g.keys && ops[id].key != k
    requires forall a, b :: a in g.ids && b in g.ids && a in ops && b in ops && a != b ==>
      ops[a].key != ops[b].key
    ensures exists id :: id in g.ids && id !in ops
  {
    if forall id :: id in g.ids ==> id in ops {
      var keyOf := map id | id in g.ids :: ops[id].key;
      var ids := Elements(g.ids);
      InjectiveImageSize(ids, keyOf);
      var image := Image(ids, keyOf);
      DistinctSize(g.keys);
      DistinctSize(g.ids);
      var others := Elements(g.keys) - {k};
      assert k in Elements(g.keys);
      assert |others| == |Elements(g.keys)| - 1;
      assert |image| == |g.ids|;
      assert image <= others;
      SubsetSize(image, others);
      assert false;
    }
  }

  /** No known operation of the chunk resolved to `k`, so one of its operations is missing. */
  lemma MissingKeyHasMissingOperation(
    q: PollQuery, groups: set<ChunkGroup>, ops: map<OpId, Operation>, g: ChunkGroup, k: Key)
    requires ValidGroups(groups) && AsksFor(q, groups)
    requires Correlated(q, ops) && Consistent(ops)
    requires g in groups && k in g.keys && k !in KnownKeys(ops)
    ensures exists id :: id in g.ids && id in MissingOps(q, ops)
  {
    forall id | id in g.ids && id in ops ensures ops[id].key in g.keys && ops[id].key != k {
      assert id in q.keysByOp && q.keysByOp[id] == g.keys;
      assert ops[id].key in KnownKeys(ops);
    }
    GroupPigeonhole(g, ops, k);
    var id :| id in g.ids && id !in ops;
    assert SomeId(groups, id);
    assert id in PendingOps(q, ops);
  }

  /** With every operation settled the accepted keys are covered, whatever the provider answered. */
  lemma SettledIsCovered(q: PollQuery, groups: set<ChunkGroup>, ops: map<OpId, Operation>)
    requires ValidGroups(groups) && AsksFor(q, groups)
    requires Correlated(q, ops) && Consistent(ops) && AllSettled(q, ops)
    ensures Covered(q, ops)
  {
    forall k | k in q.keys ensures k in KnownKeys(ops) {
      if k !in KnownKeys(ops) {
        assert SomeKey(groups, k);
        var g :| g in groups && k in g.keys;
        MissingKeyHasMissingOperation(q, groups, ops, g, k);
        assert false;
      }
    }
  }

  /** Every timeout leaves a group a later await accepts. */
  lemma TimeoutIsAwaitable(q: PollQuery, groups: set<ChunkGroup>, ops: map<OpId, Operation>, k: Key)
    requires ValidGroups(groups) && AsksFor(q, groups)
    requires Correlated(q, ops) && Consistent(ops)
    requires k in q.keys && k !in KnownKeys(ops)
    ensures Awaitable(TimeoutGroup(q, ops, k))
    ensures TimeoutGroup(q, ops, k).key == k
  {
    assert SomeKey(groups, k);
    var g :| g in groups && k in g.keys;
    MissingKeyHasMissingOperation(q, groups, ops, g, k);
    var missing := MissingOps(q, ops);
    var candidates := CandidateOps(q, missing, k);
    CandidatesOfGroup(q, groups, g, k, missing);
    KeepDistinct(g.ids, id => id in missing);
    var keys := UnionKeys(candidates, q.keysByOp);
    assert candidates[0] in candidates && q.keysByOp[candidates[0]] == g.keys;
    assert k in keys;
    assert forall k' :: k' in keys ==> k' in g.keys;
  }

  lemma CandidatesOfGroup(q: PollQuery, groups: set<ChunkGroup>, g: ChunkGroup, k: Key, missing: seq<OpId>)
    requires ValidGroups(groups) && AsksFor(q, groups) && g in groups && k in g.keys
    requires exists id :: id in g.ids && id in missing
    requires forall id :: id in missing ==> id in q.ids
    ensures var candidates := CandidateOps(q, missing, k);
      && candidates != []
      && (forall id :: id in candidates ==> id in g.ids && id in missing)
      && (|candidates| == 1 || candidates == Keep(g.ids, id => id in missing))
  {
    match ExactOperation(q, missing, k)
    case Some(id) =>
      assert SomeId(groups, id);
      var a :| a in groups && id in a.ids;
      assert a.keys == [k];
      assert k in Elements(a.keys) && k in Elements(g.keys);
      assert a != g ==> DisjointGroups(a, g);
    case None =>
      var id :| id in g.ids && id in missing;
      assert id in Keep(g.ids, id => id in missing);
  }

  // ---------- Submitting all chunks ----------

  /** What the answer to one chunk leaves behind: a group to poll, or a failure outcome per key. */
  ghost predicate ChunkTaken(
    container: Name, chunk: seq<Resource>, answer: SubmitResult,
    groups: set<ChunkGroup>, failed: map<Key, Outcome>)
  {
    match answer
    case Response(statuses) =>
      exists g :: g in groups && g.keys == KeysOf(chunk) && ResponseNames(statuses, |chunk|, {}, g.ids)
    case SdkFailure(_, message) =>
      forall k :: k in KeySet(chunk) ==>
        k in failed && failed[k] == SubmissionFailureOutcome(container, chunk, k, answer.Acceptance(), message)
  }

  /** The keys of the chunks that failed without a definite rejection: the provider may have accepted them. */
  ghost function Doubted(chunks: seq<seq<Resource>>, submit: nat -> SubmitResult): set<Key> {
    set j: nat, k | j < |chunks| && k in KeySet(chunks[j]) && submit(j).SdkFailure? && !submit(j).definitelyRejected :: k
  }

  ghost function KeySet(resources: seq<Resource>): set<Key> {
    set r | r in resources :: r.key
  }

  /** Chunks of resources with distinct, non-blank keys. */
  ghost predicate ValidChunks(chunks: seq<seq<Resource>>) {
    && (forall i :: 0 <= i < |chunks| ==> chunks[i] != [] && ValidResources(chunks[i]))
    && forall i, j :: 0 <= i < j < |chunks| ==> KeySet(chunks[i]) !! KeySet(chunks[j])
  }

  ghost function TakenKeys(chunks: seq<seq<Resource>>): set<Key> {
    if chunks == [] then {} else TakenKeys(chunks[..|chunks| - 1]) + KeySet(chunks[|chunks| - 1])
  }

  lemma KeySetIsElements(resources: seq<Resource>)
    ensures KeySet(resources) == Elements(KeysOf(resources))
  {
    var keys := KeysOf(resources);
    forall k | k in KeySet(resources) ensures k in keys {
      var r :| r in resources && r.key == k;
      var i :| 0 <= i < |resources| && resources[i] == r;
      assert keys[i] == k;
    }
    forall k | k in keys ensures k in KeySet(resources) {
      var i :| 0 <= i < |keys| && keys[i] == k;
      assert resources[i] in resources;
    }
  }

  lemma SliceOfValid(resources: seq<Resource>, a: nat, b: nat)
    requires ValidResources(resources) && a < b <= |resources|
    ensures ValidResources(resources[a..b])
    ensures KeySet(resources[a..b]) !! KeySet(resources[..a])
  {
    var keys := KeysOf(resources);
    assert KeysOf(resources[a..b]) == keys[a..b];
    forall k | k in keys[a..b] ensures !k.blank {
      assert k in keys;
    }
    KeySetIsElements(resources[a..b]);
    KeySetIsElements(resources[..a]);
    assert KeysOf(resources[..a]) == keys[..a];
  }

  lemma AppendChunk(chunks: seq<seq<Resource>>, chunk: seq<Resource>)
    requires ValidChunks(chunks) && chunk != [] && ValidResources(chunk)
    requires TakenKeys(chunks) !! KeySet(chunk)
    ensures ValidChunks(chunks + [chunk])
  {
    var all, n := chunks + [chunk], |chunks|;
    forall i, j | 0 <= i < j < |all| ensures KeySet(all[i]) !! KeySet(all[j]) {
      assert all[i] == chunks[i];
      ChunkIsTaken(chunks, i);
      if j < n {
        assert all[j] == chunks[j];
      }
    }
  }

  lemma {:induction false} ChunkIsTaken(chunks: seq<seq<Resource>>, i: nat)
    requires i < |chunks|
    ensures KeySet(chunks[i]) <= TakenKeys(chunks)
    decreases |chunks|
  {
    var n := |chunks| - 1;
    if i < n {
      ChunkIsTaken(chunks[..n], i);
    }
  }

  lemma {:induction false} TakenIsEarlier(chunks: seq<seq<Resource>>, n: nat, m: nat)
    requires ValidChunks(chunks) && n <= m < |chunks|
    ensures TakenKeys(chunks[..n]) !! KeySet(chunks[m])
  {
    if n > 0 {
      TakenIsEarlier(chunks, n - 1, m);
      assert chunks[..n][..n - 1] == chunks[..n - 1];
    }
  }

  /** Splitting valid resources gives valid chunks with the same keys. */
  lemma {:induction false} SplitIsValid(chunks: seq<seq<Resource>>, resources: seq<Resource>)
    requires Flatten(chunks) == resources
    requires resources != [] ==> ValidResources(resources)
    requires forall i :: 0 <= i < |chunks| ==> chunks[i] != []
    ensures ValidChunks(chunks) && TakenKeys(chunks) == KeySet(resources)
    decreases |chunks|
  {
    if chunks != [] {
      var n := |chunks| - 1;
      var prefix := Flatten(chunks[..n]);
      assert prefix == resources[..|prefix|] && chunks[n] == resources[|prefix|..|resources|];
      SliceOfValid(resources, |prefix|, |resources|);
      if prefix != [] {
        SliceOfValid(resources, 0, |prefix|);
        assert resources[0..|prefix|] == prefix;
      }
      SplitIsValid(chunks[..n], prefix);
      AppendChunk(chunks[..n], chunks[n]);
      assert chunks == chunks[..n] + [chunks[n]];
      assert KeySet(resources) == KeySet(prefix) + KeySet(chunks[n]);
    }
  }

  /** The first `n` chunks have been submitted. */
  ghost predicate ChunksTaken(
    container: Name, chunks: seq<seq<Resource>>, n: nat, submit: nat -> SubmitResult,
    groups: set<ChunkGroup>, q: PollQuery, failed: map<Key, Outcome>)
    requires n <= |chunks|
  {
    && ValidGroups(groups) && AsksFor(q, groups)
    && Elements(q.keys) !! failed.Keys
    && Elements(q.keys) + failed.Keys == TakenKeys(chunks[..n])
    && forall j :: 0 <= j < n ==> ChunkTaken(container, chunks[j], submit(j), groups, failed)
  }

  lemma AcceptedGroupIsNew(
    groups: set<ChunkGroup>, q: PollQuery, chunk: seq<Resource>, statuses: seq<Status>, ids: seq<OpId>)
    requires ValidGroups(groups) && AsksFor(q, groups) && ValidResources(chunk)
    requires Elements(q.keys) !! KeySet(chunk)
    requires ResponseNames(statuses, |chunk|, Elements(q.ids), ids)
    ensures var g := ChunkGroup(KeysOf(chunk), ids);
      && g !in groups && ValidGroups(groups + {g}) && Elements(g.keys) == KeySet(chunk)
    ensures ResponseNames(statuses, |chunk|, {}, ids)
  {
    var g := ChunkGroup(KeysOf(chunk), ids);
    KeySetIsElements(chunk);
    forall id | id in ids ensures !id.blank {
      var i :| 0 <= i < |ids| && ids[i] == id;
      assert UsableStatus(statuses[i]);
    }
    assert ValidGroup(g);
    forall a | a in groups ensures DisjointGroups(a, g) && a != g {
      forall k | k in a.keys ensures k in Elements(q.keys) {
        assert SomeKey(groups, k);
      }
      forall id | id in a.ids ensures id in Elements(q.ids) {
        assert SomeId(groups, id);
      }
      assert a.keys[0] in a.keys;
    }
  }

  lemma ChunkStaysTaken(
    container: Name, chunk: seq<Resource>, answer: SubmitResult, groups: set<ChunkGroup>,
    failed: map<Key, Outcome>, groups': set<ChunkGroup>, failed': map<Key, Outcome>)
    requires ChunkTaken(container, chunk, answer, groups, failed)
    requires groups <= groups'
    requires forall k :: k in failed ==> k in failed' && failed'[k] == failed[k]
    ensures ChunkTaken(container, chunk, answer, groups', failed')
  {
  }

  lemma OneMoreTaken(
    container: Name, chunks: seq<seq<Resource>>, n: nat, submit: nat -> SubmitResult,
    groups: set<ChunkGroup>, failed: map<Key, Outcome>, groups': set<ChunkGroup>, failed': map<Key, Outcome>)
    requires n < |chunks|
    requires forall j :: 0 <= j < n ==> ChunkTaken(container, chunks[j], submit(j), groups, failed)
    requires groups <= groups'
    requires forall k :: k in failed ==> k in failed' && failed'[k] == failed[k]
    requires ChunkTaken(container, chunks[n], submit(n), groups', failed')
    ensures forall j :: 0 <= j < n + 1 ==> ChunkTaken(container, chunks[j], submit(j), groups', failed')
    ensures TakenKeys(chunks[..n + 1]) == TakenKeys(chunks[..n]) + KeySet(chunks[n])
  {
    forall j | 0 <= j < n ensures ChunkTaken(container, chunks[j], submit(j), groups', failed') {
      ChunkStaysTaken(container, chunks[j], submit(j), groups, failed, groups', failed');
    }
    assert chunks[..n + 1][..n] == chunks[..n];
  }

  lemma TakeAccepted(
    container: Name, chunks: seq<seq<Resource>>, n: nat, submit: nat -> SubmitResult,
    groups: set<ChunkGroup>, q: PollQuery, failed: map<Key, Outcome>, ids: seq<OpId>)
    requires n < |chunks| && ValidChunks(chunks)
    requires ChunksTaken(container, chunks, n, submit, groups, q, failed)
    requires submit(n).Response? && ResponseNames(submit(n).statuses, |chunks[n]|, Elements(q.ids), ids)
    ensures
      var g := ChunkGroup(KeysOf(chunks[n]), ids);
      ChunksTaken(container, chunks, n + 1, submit, groups + {g}, AddGroup(q, g), failed)
  {
    hide AsksFor, ValidGroups, ChunkTaken, ResponseNames, ValidResources, KeySet, KeysOf, AddGroup, Distinct;
    var g := ChunkGroup(KeysOf(chunks[n]), ids);
    TakenIsEarlier(chunks, n, n);
    AcceptedGroupIsNew(groups, q, chunks[n], submit(n).statuses, ids);
    AddGroupAsks(q, groups, g);
    AcceptedChunkTaken(container, chunks[n], submit(n), groups, g, failed);
    OneMoreTaken(container, chunks, n, submit, groups, failed, groups + {g}, failed);
  }

  lemma AcceptedChunkTaken(
    container: Name, chunk: seq<Resource>, answer: SubmitResult, groups: set<ChunkGroup>, g: ChunkGroup,
    failed: map<Key, Outcome>)
    requires answer.Response? && ResponseNames(answer.statuses, |chunk|, {}, g.ids) && g.keys == KeysOf(chunk)
    ensures ChunkTaken(container, chunk, answer, groups + {g}, failed)
  {
    assert g in groups + {g};
  }

  lemma TakeFailed(
    container: Name, chunks: seq<seq<Resource>>, n: nat, submit: nat -> SubmitResult,
    groups: set<ChunkGroup>, q: PollQuery, failed: map<Key, Outcome>, failed': map<Key, Outcome>)
    requires n < |chunks| && ValidChunks(chunks)
    requires ChunksTaken(container, chunks, n, submit, groups, q, failed)
    requires submit(n).SdkFailure?
    requires failed' == failed + map k | k in KeySet(chunks[n])
      :: SubmissionFailureOutcome(container, chunks[n], k, submit(n).Acceptance(), submit(n).message)
    ensures ChunksTaken(container, chunks, n + 1, submit, groups, q, failed')
  {
    hide AsksFor, ValidGroups, KeySet, SubmissionFailureOutcome;
    TakenIsEarlier(chunks, n, n);
    assert forall k :: k in failed ==> k !in KeySet(chunks[n]);
    OneMoreTaken(container, chunks, n, submit, groups, failed, groups, failed');
  }

  /**
   * A failed key is journaled as definitely rejected when its chunk was, and otherwise as possibly
   * accepted, with the keys of its chunk and the failure's message, and no operation.
   */
  ghost predicate FailureRecorded(
    container: Name, chunk: seq<Resource>, answer: SubmitResult, outcomes: map<Key, Outcome>, k: Key)
    requires answer.SdkFailure?
  {
    && k in outcomes && outcomes[k].Indeterminate? && outcomes[k].phase == SubmissionFailed
    && (outcomes[k].acceptance == NotAccepted <==> answer.definitelyRejected)
    && (outcomes[k].acceptance == UnknownAcceptance <==> !answer.definitelyRejected)
    && outcomes[k].group.ops == [] && outcomes[k].group.key == k && outcomes[k].group.keys == KeysOf(chunk)
    && outcomes[k].container == container && outcomes[k].message == answer.message
  }

  ghost predicate FailuresRecorded(
    container: Name, chunks: seq<seq<Resource>>, submit: nat -> SubmitResult, outcomes: map<Key, Outcome>)
  {
    forall j, k :: 0 <= j < |chunks| && k in KeySet(chunks[j]) && submit(j).SdkFailure? ==>
      FailureRecorded(container, chunks[j], submit(j), outcomes, k)
  }

  lemma FailuresAreRecorded(
    container: Name, chunks: seq<seq<Resource>>, submit: nat -> SubmitResult, groups: set<ChunkGroup>, q: PollQuery,
    failed: map<Key, Outcome>)
    requires ChunksTaken(container, chunks, |chunks|, submit, groups, q, failed)
    ensures FailuresRecorded(container, chunks, submit, failed)
  {
    hide TakenKeys, AsksFor, ValidGroups, KeySet, KeysOf;
    forall j, k | 0 <= j < |chunks| && k in KeySet(chunks[j]) && submit(j).SdkFailure?
      ensures FailureRecorded(container, chunks[j], submit(j), failed, k)
    {
      assert ChunkTaken(container, chunks[j], submit(j), groups, failed);
    }
  }

  /** What one call submitted and what was known of it when polling stopped. */
  datatype Submission = Submission(
    chunks: seq<seq<Resource>>, groups: set<ChunkGroup>, q: PollQuery, failed: map<Key, Outcome>,
    ops: map<OpId, Operation>, errors: set<OpId>)

  ghost predicate ValidSubmission(input: ImportInput, submit: nat -> SubmitResult, s: Submission) {
    && ValidImportInput(input)
    && IsGreedySplit(s.chunks, input.resources, input.MaxBytes())
    && s.q.container == input.options.container
    && ChunksTaken(s.q.container, s.chunks, |s.chunks|, submit, s.groups, s.q, s.failed)
    && Correlated(s.q, s.ops) && Consistent(s.ops)
  }

  /** Polling went on for this many rounds, at most the bound, and left these operations known. */
  ghost predicate PolledFor(
    q: PollQuery, poll: Poll, clock: nat -> real, rounds: nat, ops: map<OpId, Operation>, errors: set<OpId>)
    requires q.interval > 0.0 && q.timeout >= 0.0
  {
    && (q.ids == [] <==> rounds == 0) && rounds <= RoundBound(q)
    && (rounds > 0 ==> exists answer :: PollEnds(q, poll, clock, rounds, Ok(answer)))
    && ops == KnownAfter(q, poll, rounds) && errors == ErrorsAfter(q, poll, rounds)
  }

  /** Polled keys are answered from the operations known at the end, rejected ones by their failure. */
  ghost predicate SubmissionAnswers(s: Submission, outcomes: map<Key, Outcome>) {
    exists polled :: outcomes == polled + s.failed && Answers(s.q, s.ops, s.errors, polled)
  }

  /** The operations the statuses of an acceptable response name. */
  function NamedBy(statuses: seq<Status>): seq<OpId>
    requires forall i :: 0 <= i < |statuses| ==> statuses[i].operationId.Some?
  {
    seq(|statuses|, i requires 0 <= i < |statuses| => statuses[i].operationId.value)
  }

  predicate AllName(statuses: seq<Status>) {
    forall i :: 0 <= i < |statuses| ==> statuses[i].operationId.Some?
  }

  /** The polling request once the answer to one more chunk is taken in; None when it is refused. */
  ghost function QueryNext(q: PollQuery, chunk: seq<Resource>, answer: SubmitResult): Option<PollQuery> {
    if answer.SdkFailure? then Some(q)
    else if Refused(answer, |chunk|, q.ids) || !AllName(answer.statuses) then None
    else Some(AddGroup(q, ChunkGroup(KeysOf(chunk), NamedBy(answer.statuses))))
  }

  /** The polling request the answers to the first `n` chunks make; None when one of them is refused. */
  ghost function QueryAfter(
    options: PollOptions, chunks: seq<seq<Resource>>, submit: nat -> SubmitResult, n: nat): Option<PollQuery>
    requires n <= |chunks|
  {
    if n == 0 then Some(EmptyQuery(options))
    else
      match QueryAfter(options, chunks, submit, n - 1)
      case None => None
      case Some(q) => QueryNext(q, chunks[n - 1], submit(n - 1))
  }

  /** Why a submission ends in an error: its input, a response, or polling. */
  ghost predicate SubmissionFails(
    input: ImportInput, submit: nat -> SubmitResult, poll: Poll, clock: nat -> real, chunks: seq<seq<Resource>>)
  {
    !ValidImportInput(input) || TakingFails(input.options, chunks, submit) || AwaitingFails(input.options, chunks, submit, poll, clock)
  }

  ghost predicate TakingFails(options: PollOptions, chunks: seq<seq<Resource>>, submit: nat -> SubmitResult) {
    QueryAfter(options, chunks, submit, |chunks|).None?
  }

  ghost predicate AwaitingFails(
    options: PollOptions, chunks: seq<seq<Resource>>, submit: nat -> SubmitResult, poll: Poll, clock: nat -> real)
  {
    var q := QueryAfter(options, chunks, submit, |chunks|);
    q.Some? && q.value.ids != [] && exists error :: PollFails(q.value, poll, clock, error)
  }

  lemma NamesAreNamed(statuses: seq<Status>, count: nat, known: set<OpId>, ids: seq<OpId>)
    requires ResponseNames(statuses, count, known, ids)
    ensures AllName(statuses) && ids == NamedBy(statuses)
  {
  }

  lemma AcceptedNext(q: PollQuery, chunk: seq<Resource>, answer: SubmitResult, ids: seq<OpId>)
    requires answer.Response? && ResponseNames(answer.statuses, |chunk|, Elements(q.ids), ids)
    ensures QueryNext(q, chunk, answer) == Some(AddGroup(q, ChunkGroup(KeysOf(chunk), ids)))
    ensures !Refused(answer, |chunk|, q.ids)
  {
    NamesAreNamed(answer.statuses, |chunk|, Elements(q.ids), ids);
    hide AddGroup, ResponseNames;
  }

  lemma RefusedNext(q: PollQuery, chunk: seq<Resource>, answer: SubmitResult)
    requires Refused(answer, |chunk|, q.ids)
    ensures QueryNext(q, chunk, answer) == None
  {
  }

  lemma {:induction false} RefusedForGood(
    options: PollOptions, chunks: seq<seq<Resource>>, submit: nat -> SubmitResult, m: nat, n: nat)
    requires m <= n <= |chunks| && QueryAfter(options, chunks, submit, m).None?
    ensures QueryAfter(options, chunks, submit, n).None?
  {
    if m < n {
      RefusedForGood(options, chunks, submit, m, n - 1);
    }
  }

  /** Take in the answer to chunk `n`: one group more to poll, or one failure per key. */
  method TakeAnswer(container: Name, chunks: seq<seq<Resource>>, n: nat, ghost submit: nat -> SubmitResult,
                    answer: SubmitResult, ghost groups: set<ChunkGroup>, q: PollQuery, failed: map<Key, Outcome>)
    returns (r: Result<(PollQuery, map<Key, Outcome>), ContractError>, ghost groups': set<ChunkGroup>)
    requires n < |chunks| && ValidChunks(chunks) && answer == submit(n)
    requires ChunksTaken(container, chunks, n, submit, groups, q, failed)
    ensures r.Ok? ==>
      && ChunksTaken(container, chunks, n + 1, submit, groups', r.value.0, r.value.1)
      && r.value.0.container == q.container && r.value.0.interval == q.interval && r.value.0.timeout == q.timeout
    ensures r.Err? <==> Refused(answer, |chunks[n]|, q.ids)
    ensures QueryNext(q, chunks[n], answer) == if r.Ok? then Some(r.value.0) else None
    ensures r.Err? ==> !r.error.Uncovered?
  {
    hide ChunksTaken, ResponseNames, ValidChunks;
    groups' := groups;
    var chunk := chunks[n];
    match answer {
      case SdkFailure(_, message) =>
        var acceptance := answer.Acceptance();
        var failed' := SetEach(failed, KeysOf(chunk),
                               key => SubmissionFailureOutcome(container, chunk, key, acceptance, message));
        KeySetIsElements(chunk);
        TakeFailed(container, chunks, n, submit, groups, q, failed, failed');
        r := Ok((q, failed'));
      case Response(statuses) =>
        var known := set id | id in q.ids;
        assert known == Elements(q.ids);
        var ids := ValidateSubmissionResponse(statuses, |chunk|, known);
        if ids.Err? {
          RefusedNext(q, chunk, answer);
          return Err(ids.error), groups;
        }
        AcceptedNext(q, chunk, answer, ids.value);
        TakeAccepted(container, chunks, n, submit, groups, q, failed, ids.value);
        var g := ChunkGroup(KeysOf(chunk), ids.value);
        groups' := groups + {g};
        r := Ok((AddGroup(q, g), failed));
    }
  }

  method SubmitChunks(options: PollOptions, chunks: seq<seq<Resource>>, submit: nat -> SubmitResult)
    returns (r: Result<(PollQuery, map<Key, Outcome>), ContractError>, ghost groups: set<ChunkGroup>)
    requires ValidChunks(chunks)
    ensures r.Ok? ==> QueryAfter(options, chunks, submit, |chunks|) == Some(r.value.0)
    ensures r.Ok? ==>
      && r.value.0.container == options.container
      && r.value.0.interval == options.Interval() && r.value.0.timeout == options.Timeout()
      && ChunksTaken(options.container, chunks, |chunks|, submit, groups, r.value.0, r.value.1)
    ensures r.Err? ==> TakingFails(options, chunks, submit) && !r.error.Uncovered?
  {
    var q := EmptyQuery(options);
    var failed: map<Key, Outcome> := map[];
    groups := {};
    NothingTaken(options, chunks, submit);
    hide ChunksTaken, ValidChunks, Refused, QueryNext;
    var i := 0;
    while i < |chunks|
      invariant 0 <= i <= |chunks|
      invariant ChunksTaken(options.container, chunks, i, submit, groups, q, failed)
      invariant QueryAfter(options, chunks, submit, i) == Some(q)
      invariant q.container == options.container && q.interval == options.Interval() && q.timeout == options.Timeout()
    {
      r, groups := TakeAnswer(options.container, chunks, i, submit, submit(i), groups, q, failed);
      if r.Err? {
        RefusedForGood(options, chunks, submit, i + 1, |chunks|);
        return;
      }
      q, failed := r.value.0, r.value.1;
      i := i + 1;
    }
    r := Ok((q, failed));
  }

  lemma NothingTaken(options: PollOptions, chunks: seq<seq<Resource>>, submit: nat -> SubmitResult)
    ensures ChunksTaken(options.container, chunks, 0, submit, {}, EmptyQuery(options), map[])
  {
    assert chunks[..0] == [];
  }

  /**
   * Submit and poll. It fails exactly on an invalid input, a refused response, or polling that fails,
   * in at most the bound of rounds, and never because a submitted key stays uncovered.
   */
  method SubmitAndAwait(input: ImportInput, submit: nat -> SubmitResult, poll: Poll, clock: nat -> real)
    returns (r: Result<map<Key, Outcome>, ContractError>, ghost s: Submission, ghost rounds: nat)
    requires ClockAdvances(input.options.Interval(), input.options.Timeout(), clock)
    ensures r.Err? <==> SubmissionFails(input, submit, poll, clock, s.chunks)
    ensures ValidImportInput(input) ==> IsGreedySplit(s.chunks, input.resources, input.MaxBytes())
    ensures rounds > 0 ==> input.options.Valid() && rounds <= RoundBound(EmptyQuery(input.options))
    ensures r.Ok? ==> ValidSubmission(input, submit, s) && SubmissionAnswers(s, r.value)
    ensures r.Ok? ==> QueryAfter(input.options, s.chunks, submit, |s.chunks|) == Some(s.q)
    ensures r.Ok? ==>
      s.q.interval > 0.0 && s.q.timeout >= 0.0 && PolledFor(s.q, poll, clock, rounds, s.ops, s.errors)
    ensures r.Ok? ==> r.value.Keys == KeySet(input.resources)
    ensures r.Ok? ==> FailuresRecorded(input.options.container, s.chunks, submit, r.value)
    ensures r.Err? ==> !r.error.Uncovered?
  {
    hide *;
    s := Submission([], {}, EmptyQuery(input.options), map[], map[], {});
    rounds := 0;
    var validated := ValidateImportInput(input);
    if validated.Err? {
      FailsIf(input, submit, poll, clock, s.chunks);
      return Err(validated.error), s, rounds;
    }
    ghost var chunks := validated.value;
    ValidInput(input, chunks);
    SplitIsValid(chunks, input.resources);
    ghost var groups;
    var submitted;
    submitted, groups := SubmitChunks(input.options, validated.value, submit);
    s := s.(chunks := chunks);
    FailsIf(input, submit, poll, clock, chunks);
    if submitted.Err? {
      return Err(submitted.error), s, rounds;
    }
    var q, failed := submitted.value.0, submitted.value.1;
    s := Submission(chunks, groups, q, failed, map[], {});
    SameBound(q, input.options);
    TakenAll(input.options.container, chunks, submit, groups, q, failed);
    r, rounds := AwaitAccepted(q, groups, poll, clock);
    TakingSucceeded(input.options, chunks, submit, q, poll, clock);
    if r.Err? {
      return;
    }
    s := Submission(chunks, groups, q, failed, KnownAfter(q, poll, rounds), ErrorsAfter(q, poll, rounds));
    SubmissionIs(input, submit, s, r.value);
    FailuresAreRecorded(input.options.container, chunks, submit, groups, q, failed);
    FailuresStayRecorded(input.options.container, chunks, submit, r.value, failed);
    r := Ok(r.value + failed);
  }

  lemma FailuresStayRecorded(
    container: Name, chunks: seq<seq<Resource>>, submit: nat -> SubmitResult, polled: map<Key, Outcome>,
    failed: map<Key, Outcome>)
    requires FailuresRecorded(container, chunks, submit, failed)
    ensures FailuresRecorded(container, chunks, submit, polled + failed)
  {
    hide KeySet, KeysOf;
    forall j, k | 0 <= j < |chunks| && k in KeySet(chunks[j]) && submit(j).SdkFailure?
      ensures FailureRecorded(container, chunks[j], submit(j), polled + failed, k)
    {
      assert FailureRecorded(container, chunks[j], submit(j), failed, k);
    }
  }

  lemma ValidInput(input: ImportInput, chunks: seq<seq<Resource>>)
    requires ValidImportInput(input) && IsGreedySplit(chunks, input.resources, input.MaxBytes())
    ensures input.options.Valid() && ValidResources(input.resources) && Flatten(chunks) == input.resources
    ensures input.options.Interval() > 0.0 && input.options.Timeout() >= 0.0
    ensures forall i :: 0 <= i < |chunks| ==> chunks[i] != []
  {
    hide ValidResources, Fits, Flatten;
  }

  lemma FailsIf(
    input: ImportInput, submit: nat -> SubmitResult, poll: Poll, clock: nat -> real, chunks: seq<seq<Resource>>)
    ensures SubmissionFails(input, submit, poll, clock, chunks) <==>
      || !ValidImportInput(input) || TakingFails(input.options, chunks, submit)
      || AwaitingFails(input.options, chunks, submit, poll, clock)
  {
  }

  lemma TakingSucceeded(options: PollOptions, chunks: seq<seq<Resource>>, submit: nat -> SubmitResult, q: PollQuery,
                        poll: Poll, clock: nat -> real)
    requires QueryAfter(options, chunks, submit, |chunks|) == Some(q)
    ensures !TakingFails(options, chunks, submit)
    ensures AwaitingFails(options, chunks, submit, poll, clock) <==>
      q.ids != [] && exists error :: PollFails(q, poll, clock, error)
  {
    hide QueryAfter, PollFails;
  }

  lemma TakenAll(container: Name, chunks: seq<seq<Resource>>, submit: nat -> SubmitResult, groups: set<ChunkGroup>,
                 q: PollQuery, failed: map<Key, Outcome>)
    requires ChunksTaken(container, chunks, |chunks|, submit, groups, q, failed)
    ensures ValidGroups(groups) && AsksFor(q, groups)
  {
    hide ValidGroups, AsksFor, TakenKeys, ChunkTaken;
  }

  lemma SubmissionIs(input: ImportInput, submit: nat -> SubmitResult, s: Submission, polled: map<Key, Outcome>)
    requires ValidImportInput(input) && IsGreedySplit(s.chunks, input.resources, input.MaxBytes())
    requires s.q.container == input.options.container
    requires ChunksTaken(s.q.container, s.chunks, |s.chunks|, submit, s.groups, s.q, s.failed)
    requires Correlated(s.q, s.ops) && Consistent(s.ops) && Answers(s.q, s.ops, s.errors, polled)
    requires TakenKeys(s.chunks) == KeySet(input.resources)
    ensures ValidSubmission(input, submit, s) && SubmissionAnswers(s, polled + s.failed)
    ensures (polled + s.failed).Keys == KeySet(input.resources)
  {
    hide ValidImportInput, IsGreedySplit, Correlated, Consistent, ValidGroups, AsksFor, TakenKeys, ChunkTaken, KeySet;
    assert s.chunks[..|s.chunks|] == s.chunks;
    assert polled.Keys == Elements(s.q.keys);
  }

  /** Poll what was accepted; nothing is polled when nothing was. */
  method AwaitAccepted(q: PollQuery, ghost groups: set<ChunkGroup>, poll: Poll, clock: nat -> real)
    returns (r: Result<map<Key, Outcome>, ContractError>, ghost rounds: nat)
    requires ValidGroups(groups) && AsksFor(q, groups) && q.interval > 0.0 && q.timeout >= 0.0
    requires ClockAdvances(q.interval, q.timeout, clock)
    ensures rounds <= RoundBound(q)
    ensures r.Err? <==> q.ids != [] && exists error :: PollFails(q, poll, clock, error)
    ensures r.Err? ==> !r.error.Uncovered?
    ensures r.Ok? ==>
      && PolledFor(q, poll, clock, rounds, KnownAfter(q, poll, rounds), ErrorsAfter(q, poll, rounds))
      && Correlated(q, KnownAfter(q, poll, rounds)) && Consistent(KnownAfter(q, poll, rounds))
      && Answers(q, KnownAfter(q, poll, rounds), ErrorsAfter(q, poll, rounds), r.value)
  {
    hide KnownAfter, ErrorsAfter, RoundBound, PollEnds, Correlated, Consistent, AsksFor, ValidGroups, PollFails,
         RoundSucceeds, ClockAdvances, Answers;
    rounds := 0;
    if |q.ids| > 0 {
      r, rounds := PollAccepted(q, groups, poll, clock);
    } else {
      NothingAccepted(q, groups);
      NotPolledYet(q, poll);
      r := Ok(map[]);
    }
  }

  lemma SameBound(q: PollQuery, options: PollOptions)
    requires options.Valid() && q.interval == options.Interval() && q.timeout == options.Timeout()
    ensures RoundBound(q) == RoundBound(EmptyQuery(options))
  {
  }

  /** Polling accepted chunks never reports an uncovered key. */
  method PollAccepted(q: PollQuery, ghost groups: set<ChunkGroup>, poll: Poll, clock: nat -> real)
    returns (r: Result<map<Key, Outcome>, ContractError>, ghost rounds: nat)
    requires ValidGroups(groups) && AsksFor(q, groups) && q.interval > 0.0 && q.timeout >= 0.0
    requires ClockAdvances(q.interval, q.timeout, clock)
    ensures 1 <= rounds <= RoundBound(q)
    ensures r.Ok? ==> PollEnds(q, poll, clock, rounds, r)
    ensures r.Err? <==> exists error :: PollFails(q, poll, clock, error)
    ensures r.Err? ==> !RoundSucceeds(q, poll, rounds - 1) && !r.error.Uncovered?
    ensures r.Ok? ==>
      && Correlated(q, KnownAfter(q, poll, rounds)) && Consistent(KnownAfter(q, poll, rounds))
      && Answers(q, KnownAfter(q, poll, rounds), ErrorsAfter(q, poll, rounds), r.value)
  {
    r, rounds := PollOperations(q, poll, clock);
    PollFailsExactly(q, poll, clock, rounds, r);
    if RoundSucceeds(q, poll, rounds - 1) {
      SucceedingRoundIsCovered(q, groups, poll, rounds);
    }
    hide Correlated, Consistent, AllSettled, Covered, Answers, RoundSucceeds, PollFails;
  }

  /** The last round's answers, once accepted, cover every key when all operations are settled. */
  lemma SucceedingRoundIsCovered(q: PollQuery, groups: set<ChunkGroup>, poll: Poll, rounds: nat)
    requires ValidGroups(groups) && AsksFor(q, groups) && rounds > 0
    requires StillPolling(q, poll, rounds - 1) && RoundSucceeds(q, poll, rounds - 1)
    ensures Correlated(q, KnownAfter(q, poll, rounds)) && Consistent(KnownAfter(q, poll, rounds))
    ensures AllSettled(q, KnownAfter(q, poll, rounds)) ==> Covered(q, KnownAfter(q, poll, rounds))
  {
    hide *;
    PolledIsCorrelated(q, poll, rounds);
    if AllSettled(q, KnownAfter(q, poll, rounds)) {
      SettledIsCovered(q, groups, KnownAfter(q, poll, rounds));
    }
  }

  lemma NotPolledYet(q: PollQuery, poll: Poll)
    ensures KnownAfter(q, poll, 0) == map[] && ErrorsAfter(q, poll, 0) == {}
    ensures Correlated(q, map[]) && Consistent(map[])
  {
  }

  lemma NothingAccepted(q: PollQuery, groups: set<ChunkGroup>)
    requires ValidGroups(groups) && AsksFor(q, groups) && q.ids == []
    ensures q.keys == [] && Answers(q, map[], {}, map[])
  {
    if q.keys != [] {
      assert SomeKey(groups, q.keys[0]);
      var g :| g in groups && q.keys[0] in g.keys;
      assert SomeId(groups, g.ids[0]);
    }
  }
}
