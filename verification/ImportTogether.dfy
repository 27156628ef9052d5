/** Runs whose batches keep candidate groups together never submit a key twice and never fail. */
module ImportTogether {
  import opened Basics
  import opened Chunking
  import opened ImportOutcomes
  import opened ImportPolling
  import opened ImportSubmission
  import opened ImportAwait
  import opened ImportRuns

  ghost predicate ShareOperation(a: CandidateGroup, b: CandidateGroup) {
    exists id :: id in a.ops && id in b.ops
  }

  /** A batch that awaits a key also holds every key awaiting one of the same operations. */
  ghost predicate KeepsTogether(journal: map<Key, JournalValue>, keys: set<Key>) {
    forall k, k' :: (
      && k in keys && Awaits(journal, k) && Awaits(journal, k')
      && ShareOperation(GroupOf(journal, k), GroupOf(journal, k'))) ==> k' in keys
  }

  lemma SharedHasNoSharedOwner(w: World, batch: seq<Resource>)
    requires TrueJournal(w) && Shared(w)
    ensures NoSharedOwner(w, batch)
  {
    var groups := AwaitGroups(w.journal, batch);
    forall a, b | a in w.owner && b in w.owner && a != b && Listed(groups, a) && Listed(groups, b)
      ensures w.owner[a] != w.owner[b]
    {
      if w.owner[a] == w.owner[b] {
        ListedIsOwn(w, batch, a);
        ListedIsOwn(w, batch, b);
      }
    }
  }

  lemma ListedIsOwn(w: World, batch: seq<Resource>, id: OpId)
    requires TrueJournal(w) && Shared(w) && Listed(AwaitGroups(w.journal, batch), id)
    ensures id in w.owner && Awaits(w.journal, w.owner[id])
    ensures OwnIn(w.owner, GroupOf(w.journal, w.owner[id]).ops, w.owner[id], id)
  {
    var g :| g in AwaitGroups(w.journal, batch) && id in g.ops;
    AwaitedIsTrue(w, batch, g);
    SharedOwner(w, g.key, id);
  }

  lemma SharedOwner(w: World, k: Key, id: OpId)
    requires TrueJournal(w) && Shared(w) && Awaits(w.journal, k) && id in GroupOf(w.journal, k).ops
    ensures id in w.owner && Awaits(w.journal, w.owner[id])
    ensures SameOps(GroupOf(w.journal, w.owner[id]), GroupOf(w.journal, k))
    ensures OwnIn(w.owner, GroupOf(w.journal, w.owner[id]).ops, w.owner[id], id)
  {
    OwnOfAwaiting(w, k);
    assert SharedEntry(w, k);
    var o := w.owner[id];
    OwnOfAwaiting(w, o);
    var own :| OwnIn(w.owner, GroupOf(w.journal, o).ops, o, own);
  }

  // ---------- What a run leaves its keys with ----------

  function SeenResume(operation: Operation, k: Key): Resume {
    if IsPending(operation.state) then Await(CandidateGroup([operation.id], [k], k)) else Submit
  }

  /** What a polled key is left with: its own operation when seen, otherwise a timeout listing it. */
  ghost predicate LeftAwaiting(q: PollQuery, seen: map<OpId, Operation>, k: Key, own: OpId, d: Option<Resume>) {
    && d.Some?
    && (own in seen ==> d.value == SeenResume(seen[own], k))
    && (own !in seen ==> d.value == Await(TimeoutGroup(q, seen, k)) && own in TimeoutGroup(q, seen, k).ops)
  }

  lemma OnlyOwnIsSeen(q: PollQuery, owner: map<OpId, Key>, seen: map<OpId, Operation>, k: Key, own: OpId)
    requires SeenFrom(q, owner, seen)
    requires forall id :: id in q.ids && id in owner && owner[id] == k ==> id == own
    ensures k in KnownKeys(seen) ==> own in seen && owner[own] == k
    ensures own in seen && own in owner && owner[own] == k ==> k in KnownKeys(seen)
  {
    if k in KnownKeys(seen) {
      var id :| id in seen && seen[id].key == k;
    }
  }

  /** With no other polled operation of `k`, the answer for `k` is about its own operation. */
  lemma OwnAnswer(q: PollQuery, owner: map<OpId, Key>, seen: map<OpId, Operation>, errors: set<OpId>,
                  outcomes: map<Key, Outcome>, k: Key, ops: seq<OpId>, own: OpId)
    requires OwnedKey(q, owner, k, ops, own) && OwnedQuery(q, owner) && SeenFrom(q, owner, seen)
    requires Answers(q, seen, errors, outcomes) && k in q.keys
    requires forall id :: id in seen ==> seen[id].id == id
    requires forall id :: id in q.ids && id in owner && owner[id] == k ==> id == own
    ensures k in outcomes && LeftAwaiting(q, seen, k, own, DecisionOn(outcomes[k], k))
  {
    OnlyOwnIsSeen(q, owner, seen, k, own);
    AnswerOf(q, owner, seen, errors, outcomes, k);
    OwnHasKey(q, owner, k, ops, own);
    hide *;
    if k in KnownKeys(seen) {
      var id :| SeenAnswer(q, owner, seen, k, outcomes[k], id);
      SeenIsOwn(q, owner, seen, k, outcomes[k], id, own);
    } else {
      TimeoutIsOwn(q, owner, seen, errors, k, ops, own);
    }
  }

  lemma OwnHasKey(q: PollQuery, owner: map<OpId, Key>, k: Key, ops: seq<OpId>, own: OpId)
    requires OwnedKey(q, owner, k, ops, own)
    ensures own in owner && owner[own] == k
  {
  }

  lemma TimeoutIsOwn(q: PollQuery, owner: map<OpId, Key>, seen: map<OpId, Operation>, errors: set<OpId>,
                     k: Key, ops: seq<OpId>, own: OpId)
    requires OwnedKey(q, owner, k, ops, own) && OwnedQuery(q, owner) && SeenFrom(q, owner, seen)
    requires k !in KnownKeys(seen) && own !in seen
    ensures LeftAwaiting(q, seen, k, own, DecisionOn(TimeoutOutcome(q, seen, errors, k), k))
  {
    TimeoutIsTrue(q, owner, seen, k, ops, own);
    hide TimeoutGroup, DecisionOn, OwnedQuery, TimeoutOutcome, SeenFrom, GroupIsTrue, OwnedKey, KnownKeys;
    TimeoutDecision(q, seen, errors, k);
  }

  lemma SeenIsOwn(q: PollQuery, owner: map<OpId, Key>, seen: map<OpId, Operation>, k: Key, outcome: Outcome,
                  id: OpId, own: OpId)
    requires SeenAnswer(q, owner, seen, k, outcome, id) && SeenFrom(q, owner, seen)
    requires forall a :: a in seen ==> seen[a].id == a
    requires forall a :: a in q.ids && a in owner && owner[a] == k ==> a == own
    ensures LeftAwaiting(q, seen, k, own, DecisionOn(outcome, k))
  {
    assert id == own;
    SeenDecision(q, owner, seen, k, outcome, own);
    hide DecisionOn, TimeoutGroup;
  }

  /** The operations a timeout lists for `k`: the unseen ones of the old list, or just the exact one. */
  ghost predicate TimeoutOps(q: PollQuery, seen: map<OpId, Operation>, k: Key, ops: seq<OpId>, own: OpId) {
    forall id :: id in TimeoutGroup(q, seen, k).ops <==>
      id in ops && id !in seen && (id == own || !IsExact(q, own, k))
  }

  lemma TimeoutOpsOf(
    q: PollQuery, owner: map<OpId, Key>, seen: map<OpId, Operation>, k: Key, ops: seq<OpId>, own: OpId)
    requires OwnedKey(q, owner, k, ops, own) && OwnedQuery(q, owner) && SeenFrom(q, owner, seen) && own !in seen
    ensures TimeoutOps(q, seen, k, ops, own)
  {
    hide *;
    var missing := MissingOps(q, seen);
    forall id ensures id in missing <==> id in q.ids && id !in seen {
      MissingIsUnseen(q, seen, id);
    }
    ExactIsOwn(q, owner, k, ops, own);
    OwnedOps(q, owner, k, ops, own);
    forall id
      ensures id in CandidateOps(q, missing, k) <==> id in ops && id !in seen && (id == own || !IsExact(q, own, k))
    {
      CandidateIs(q, missing, k, ops, own, id);
    }
    TimeoutOpsIf(q, seen, k, ops, own);
  }

  lemma TimeoutOpsIf(q: PollQuery, seen: map<OpId, Operation>, k: Key, ops: seq<OpId>, own: OpId)
    requires forall id :: id in CandidateOps(q, MissingOps(q, seen), k) <==>
      id in ops && id !in seen && (id == own || !IsExact(q, own, k))
    ensures TimeoutOps(q, seen, k, ops, own)
  {
    hide CandidateOps, MissingOps, IsExact;
  }

  lemma OwnedOps(q: PollQuery, owner: map<OpId, Key>, k: Key, ops: seq<OpId>, own: OpId)
    requires OwnedKey(q, owner, k, ops, own)
    ensures k in q.opsByKey && q.opsByKey[k] == ops && own in ops && own in q.ids
    ensures forall id :: id in ops ==> id in q.ids
  {
    hide AllowedKeys, IsExact;
  }

  /** A candidate is a missing listed operation, and the exact one alone when there is one. */
  lemma CandidateIs(q: PollQuery, missing: seq<OpId>, k: Key, ops: seq<OpId>, own: OpId, id: OpId)
    requires k in q.opsByKey && q.opsByKey[k] == ops && own in ops && own in missing
    requires forall a :: a in missing ==> a in q.ids
    requires forall a :: a in q.ids && IsExact(q, a, k) ==> a == own
    ensures id in CandidateOps(q, missing, k) <==> id in ops && id in missing && (id == own || !IsExact(q, own, k))
  {
    hide IsExact;
    match ExactOperation(q, missing, k)
    case Some(exact) =>
    case None =>
  }

  lemma ExactIsOwn(q: PollQuery, owner: map<OpId, Key>, k: Key, ops: seq<OpId>, own: OpId)
    requires OwnedKey(q, owner, k, ops, own) && OwnedQuery(q, owner)
    ensures forall id :: id in q.ids && IsExact(q, id, k) ==> id == own
  {
    forall id | id in q.ids && IsExact(q, id, k) ensures id == own {
      assert owner[id] in q.keysByOp[id] && owner[id] == k;
    }
  }

  /** `own` is the current operation of `k`, which was polled with `ops`, and its answer is about `own`. */
  ghost predicate LeftWithOwn(
    w': World, q: PollQuery, owner: map<OpId, Key>, seen: map<OpId, Operation>, k: Key, ops: seq<OpId>, own: OpId)
  {
    && own in owner && owner[own] == k && own in ops && own in q.ids
    && (forall id :: id in ops ==> k in AllowedKeys(q, id))
    && LeftAwaiting(q, seen, k, own, Decision(w'.journal, k))
    && (own !in seen ==> TimeoutOps(q, seen, k, ops, own))
  }

  lemma LeftWithOwnIf(w': World, q: PollQuery, owner: map<OpId, Key>, seen: map<OpId, Operation>,
                      outcomes: map<Key, Outcome>, k: Key, ops: seq<OpId>, own: OpId)
    requires OwnedKey(q, owner, k, ops, own) && OwnedQuery(q, owner) && SeenFrom(q, owner, seen) && k in outcomes
    requires LeftAwaiting(q, seen, k, own, DecisionOn(outcomes[k], k))
    requires Decision(w'.journal, k) == DecisionOn(outcomes[k], k)
    ensures LeftWithOwn(w', q, owner, seen, k, ops, own)
  {
    hide LeftAwaiting, TimeoutGroup, Decision, DecisionOn, TimeoutOps, OwnedQuery, SeenFrom, AllowedKeys;
    if own !in seen {
      TimeoutOpsOf(q, owner, seen, k, ops, own);
    }
  }

  lemma AwaitedOwn(options: PollOptions, w: World, batch: seq<Resource>, c: Choice, w': World, k: Key, own: OpId)
    requires TrueJournal(w) && Shared(w) && Run(options, w, batch, c, w')
    requires k in KeySet(batch) && Awaits(w.journal, k) && OwnIn(w.owner, GroupOf(w.journal, k).ops, k, own)
    ensures LeftWithOwn(w', AwaitQuery(options, AwaitGroups(w.journal, batch)), w.owner, c.seen, k,
                        GroupOf(w.journal, k).ops, own)
  {
    var q, g := AwaitQuery(options, AwaitGroups(w.journal, batch)), GroupOf(w.journal, k);
    RunPhases(options, w, batch, c, w');
    EntryAfter(options, w, batch, c, w', k);
    AwaitQueryOf(options, w, batch);
    AwaitQueryIsOwned(q, w, batch);
    AwaitedKeyIsOwned(q, w, batch, k, own);
    SeenIsAwaited(options, w, batch, c);
    OwnIsAlone(q, w, batch, k, own);
    hide *;
    OwnAnswer(q, w.owner, c.seen, c.errors, c.awaited, k, g.ops, own);
    LeftWithOwnIf(w', q, w.owner, c.seen, c.awaited, k, g.ops, own);
  }

  lemma OwnIsAlone(q: PollQuery, w: World, batch: seq<Resource>, k: Key, own: OpId)
    requires TrueJournal(w) && Shared(w) && AsksForGroups(q, AwaitGroups(w.journal, batch))
    requires Awaits(w.journal, k) && OwnIn(w.owner, GroupOf(w.journal, k).ops, k, own)
    ensures forall id :: id in q.ids && id in w.owner && w.owner[id] == k ==> id == own
  {
    forall id | id in q.ids && id in w.owner && w.owner[id] == k ensures id == own {
      assert Listed(AwaitGroups(w.journal, batch), id);
      ListedIsOwn(w, batch, id);
    }
  }

  lemma SubmittedOwn(options: PollOptions, w: World, batch: seq<Resource>, c: Choice, w': World,
                     g: ChunkGroup, k: Key, own: OpId)
    requires TrueJournal(w) && Run(options, w, batch, c, w')
    requires g in c.sub.groups && k in g.keys && OwnIn(c.created, g.ids, k, own)
    ensures LeftWithOwn(w', c.sub.q, c.created, c.sub.ops, k, g.ids, own)
  {
    var q := c.sub.q;
    RunPhases(options, w, batch, c, w');
    SubmittedIsFresh(options, w, batch, c, g, k);
    EntryAfter(options, w, batch, c, w', k);
    SubmitFacts(options, w, batch, c);
    CreatedIsOwned(q, c.sub.groups, w.owner, c.created);
    SubmittedKeyIsOwned(q, c.sub.groups, w.owner, c.created, g, k, own);
    SeenIsCreated(options, w, batch, c);
    SubmittedKeys(options, w, batch, c, k);
    OwnIsNew(c.created, g.ids, k, own);
    CreatedOnce(c.created, w.owner, c.sub.groups, k, own);
    hide *;
    OwnAnswer(q, c.created, c.sub.ops, c.sub.errors, PolledPart(c), k, g.ids, own);
    LeftWithOwnIf(w', q, c.created, c.sub.ops, PolledPart(c), k, g.ids, own);
  }

  lemma OwnIsNew(owner: map<OpId, Key>, ops: seq<OpId>, k: Key, own: OpId)
    requires OwnIn(owner, ops, k, own)
    ensures own in owner && owner[own] == k
  {
  }

  lemma CreatedOnce(created: map<OpId, Key>, owner: map<OpId, Key>, groups: set<ChunkGroup>, k: Key, own: OpId)
    requires Creates(owner, groups, created) && own in created && created[own] == k
    ensures forall id :: id in created && created[id] == k ==> id == own
  {
  }

  lemma SubmittedIsFresh(options: PollOptions, w: World, batch: seq<Resource>, c: Choice, g: ChunkGroup, k: Key)
    requires SubmitPhase(options, w, batch, c) && g in c.sub.groups && k in g.keys
    ensures k in c.sub.q.keys && k in KeySet(FreshResources(w.journal, batch))
    ensures k in KeySet(batch) && Decision(w.journal, k) == Some(Submit)
  {
    hide Creates, Truthful, FailureOf, Answers, PolledPart, KeySet, FreshResources;
    BatchKinds(w, batch, k);
    assert SomeKey(c.sub.groups, k);
    assert k in Elements(c.sub.q.keys);
  }

  /** New operations belong only to keys that were submitted and accepted. */
  lemma CreatedIsAccepted(options: PollOptions, w: World, batch: seq<Resource>, c: Choice, id: OpId)
    requires SubmitPhase(options, w, batch, c) && id in c.created
    ensures c.created[id] in c.sub.q.keys
    ensures exists g :: g in c.sub.groups && c.created[id] in g.keys && OwnIn(c.created, g.ids, c.created[id], id)
  {
    SubmitFacts(options, w, batch, c);
    hide SubmitPhase, Truthful, Answers;
    CreatedHasGroup(w.owner, c.sub.groups, c.created, id);
    var g :| g in c.sub.groups && id in g.ids && c.created[id] in g.keys;
    assert SomeKey(c.sub.groups, c.created[id]);
    OwnOfCreated(w.owner, c.sub.groups, c.created, g, id);
  }

  lemma CreatedHasGroup(owner: map<OpId, Key>, groups: set<ChunkGroup>, created: map<OpId, Key>, id: OpId)
    requires Creates(owner, groups, created) && id in created
    ensures exists g :: g in groups && id in g.ids && created[id] in g.keys
  {
    assert SomeId(groups, id);
    var g :| g in groups && id in g.ids;
    assert created[id] in g.keys;
  }

  lemma OwnOfCreated(owner: map<OpId, Key>, groups: set<ChunkGroup>, created: map<OpId, Key>, g: ChunkGroup, id: OpId)
    requires Creates(owner, groups, created) && g in groups && id in g.ids && id in created
    ensures OwnIn(created, g.ids, created[id], id)
  {
  }

  // ---------- Every run leaves a shared journal safe ----------

  /** What can still run for `k` after the run. */
  lemma OutstandingAfter(options: PollOptions, w: World, batch: seq<Resource>, c: Choice, w': World, k: Key)
    requires TrueJournal(w) && Run(options, w, batch, c, w')
    ensures k !in c.sub.q.keys ==> Outstanding(w', k) <= Outstanding(w, k)
    ensures forall id :: id in Outstanding(w', k) ==>
      id in Outstanding(w, k) || (id in c.created && c.created[id] == k)
    ensures forall id :: id in Outstanding(w', k) ==> id !in c.finished
    ensures w'.doubtful[k] == w.doubtful[k] + (if k in c.doubted then 1 else 0)
  {
    RunPhases(options, w, batch, c, w');
    forall id | id in Outstanding(w', k)
      ensures id in Outstanding(w, k) || (id in c.created && c.created[id] == k && k in c.sub.q.keys)
    {
      hide Run, TrueJournal, AwaitPhase, SubmitPhase;
      if id in c.created {
        CreatedIsAccepted(options, w, batch, c, id);
      }
    }
  }

  lemma DoubtsOf(options: PollOptions, w: World, batch: seq<Resource>, c: Choice, k: Key)
    requires SubmitPhase(options, w, batch, c)
    ensures k in c.doubted <==> k in c.sub.failed && c.sub.failed[k].acceptance.UnknownAcceptance?
    ensures k in c.sub.failed ==>
      Decision(w.journal, k) == Some(Submit) && k in KeySet(batch) && FailureOf(options, k, c.sub.failed[k])
  {
    hide Creates, Truthful, Answers, PolledPart, FreshResources, AsksFor, ValidGroups;
    BatchKinds(w, batch, k);
    hide KeySet;
    assert k in c.sub.failed ==> FailureOf(options, k, c.sub.failed[k]);
  }

  /** From a shared journal every run, whatever its batch, leaves every resume decision safe. */
  lemma RunFromSharedIsSafe(options: PollOptions, w: World, batch: seq<Resource>, c: Choice, w': World)
    requires TrueJournal(w) && Shared(w) && Safe(w) && Run(options, w, batch, c, w')
    ensures Safe(w')
  {
    hide *;
    forall k ensures SafeEntry(w', k) {
      SafeEntryAfter(options, w, batch, c, w', k);
    }
    SafeIf(w');
  }

  lemma SafeIf(w: World)
    requires forall k :: SafeEntry(w, k)
    ensures Safe(w)
  {
  }

  lemma SafeEntryAfter(options: PollOptions, w: World, batch: seq<Resource>, c: Choice, w': World, k: Key)
    requires TrueJournal(w) && Shared(w) && Safe(w) && Run(options, w, batch, c, w')
    ensures SafeEntry(w', k)
  {
    RunPhases(options, w, batch, c, w');
    SubmittedKeys(options, w, batch, c, k);
    BatchKinds(w, batch, k);
    EntryIsTrueBefore(w, k);
    assert SafeEntry(w, k);
    hide *;
    if k in KeySet(batch) && Awaits(w.journal, k) {
      SafeAwaited(options, w, batch, c, w', k);
    } else if k in c.sub.q.keys {
      SafeAccepted(options, w, batch, c, w', k);
    } else if k in c.sub.failed {
      SafeFailed(options, w, batch, c, w', k);
    } else {
      SafeUntouched(options, w, batch, c, w', k);
    }
  }

  lemma SafeAwaited(options: PollOptions, w: World, batch: seq<Resource>, c: Choice, w': World, k: Key)
    requires TrueJournal(w) && Shared(w) && SafeEntry(w, k) && Run(options, w, batch, c, w')
    requires k in KeySet(batch) && Awaits(w.journal, k)
    ensures SafeEntry(w', k)
  {
    var q := AwaitQuery(options, AwaitGroups(w.journal, batch));
    OwnOfAwaiting(w, k);
    var own :| OwnIn(w.owner, GroupOf(w.journal, k).ops, k, own);
    AwaitedOwn(options, w, batch, c, w', k, own);
    RunPhases(options, w, batch, c, w');
    SubmittedKeys(options, w, batch, c, k);
    BatchKinds(w, batch, k);
    OutstandingAfter(options, w, batch, c, w', k);
    DoubtsOf(options, w, batch, c, k);
    SeenIsFinished(options, w, batch, c, own);
    OnlyOwnOutstanding(w, k, own);
    hide *;
    LeftWithOwnIsSafe(w', q, w.owner, c.seen, k, GroupOf(w.journal, k).ops, own);
  }

  lemma SeenIsFinished(options: PollOptions, w: World, batch: seq<Resource>, c: Choice, id: OpId)
    requires AwaitPhase(options, w, batch, c)
    ensures id in c.seen && !IsPending(c.seen[id].state) ==> id in c.finished
    ensures id in c.seen ==> c.seen[id].id == id
  {
    hide AwaitEnds, Answers, AwaitQuery, AwaitGroups, Readable;
  }

  lemma OnlyOwnOutstanding(w: World, k: Key, own: OpId)
    requires SafeEntry(w, k) && Awaits(w.journal, k) && OwnIn(w.owner, GroupOf(w.journal, k).ops, k, own)
    ensures w.doubtful[k] == 0 && forall id :: id in Outstanding(w, k) ==> id == own
  {
    hide Decision;
  }

  /** With at most its own operation outstanding, the answer for `k` is safe. */
  lemma LeftWithOwnIsSafe(
    w': World, q: PollQuery, owner: map<OpId, Key>, seen: map<OpId, Operation>, k: Key, ops: seq<OpId>, own: OpId)
    requires LeftWithOwn(w', q, owner, seen, k, ops, own) && w'.doubtful[k] == 0
    requires forall id :: id in Outstanding(w', k) ==> id == own
    requires own in seen ==> seen[own].id == own
    requires own in seen && !IsPending(seen[own].state) ==> own !in Outstanding(w', k)
    ensures SafeEntry(w', k)
  {
    hide Decision, TimeoutGroup, TimeoutOps, Outstanding, AllowedKeys;
    var d := Decision(w'.journal, k).value;
    if own in seen && !IsPending(seen[own].state) {
      assert Outstanding(w', k) == {};
    } else {
      assert d.Await? && own in d.group.ops;
    }
  }

  lemma SafeAccepted(options: PollOptions, w: World, batch: seq<Resource>, c: Choice, w': World, k: Key)
    requires TrueJournal(w) && SafeEntry(w, k) && Run(options, w, batch, c, w') && k in c.sub.q.keys
    ensures SafeEntry(w', k)
  {
    hide *;
    RunPhases(options, w, batch, c, w');
    SubmitFacts(options, w, batch, c);
    AcceptedHasOwn(options, w, batch, c, k);
    var g, own :| g in c.sub.groups && k in g.keys && OwnIn(c.created, g.ids, k, own);
    SubmittedOwn(options, w, batch, c, w', g, k, own);
    SubmittedIsFresh(options, w, batch, c, g, k);
    NothingOutstanding(w, k);
    SubmittedKeys(options, w, batch, c, k);
    OutstandingAfter(options, w, batch, c, w', k);
    DoubtsOf(options, w, batch, c, k);
    SubmittedIsFinished(options, w, batch, c, own);
    OwnIsNew(c.created, g.ids, k, own);
    CreatedOnce(c.created, w.owner, c.sub.groups, k, own);
    LeftWithOwnIsSafe(w', c.sub.q, c.created, c.sub.ops, k, g.ids, own);
  }

  lemma AcceptedHasOwn(options: PollOptions, w: World, batch: seq<Resource>, c: Choice, k: Key)
    requires SubmitPhase(options, w, batch, c) && k in c.sub.q.keys
    ensures exists g, own :: g in c.sub.groups && k in g.keys && OwnIn(c.created, g.ids, k, own)
  {
    SubmitFacts(options, w, batch, c);
    assert SomeKey(c.sub.groups, k);
    hide SubmitPhase, Truthful, Answers, OwnIn;
    var g :| g in c.sub.groups && k in g.keys;
    ChunkCreatesEachKey(c.sub.groups, w.owner, c.created, g, k);
  }

  lemma NothingOutstanding(w: World, k: Key)
    requires SafeEntry(w, k) && Decision(w.journal, k) == Some(Submit)
    ensures Outstanding(w, k) == {} && w.doubtful[k] == 0
  {
  }

  lemma SubmittedIsFinished(options: PollOptions, w: World, batch: seq<Resource>, c: Choice, id: OpId)
    requires SubmitPhase(options, w, batch, c)
    ensures id in c.sub.ops && !IsPending(c.sub.ops[id].state) ==> id in c.finished
    ensures id in c.sub.ops ==> c.sub.ops[id].id == id
  {
    SubmitFacts(options, w, batch, c);
    hide SubmitPhase, Answers, AsksFor, ValidGroups, Creates;
  }

  lemma SafeFailed(options: PollOptions, w: World, batch: seq<Resource>, c: Choice, w': World, k: Key)
    requires TrueJournal(w) && SafeEntry(w, k) && Run(options, w, batch, c, w')
    requires k in c.sub.failed && k !in c.sub.q.keys
    ensures SafeEntry(w', k)
  {
    hide *;
    RunPhases(options, w, batch, c, w');
    EntryAfter(options, w, batch, c, w', k);
    SubmittedKeys(options, w, batch, c, k);
    DoubtsOf(options, w, batch, c, k);
    NothingOutstanding(w, k);
    OutstandingAfter(options, w, batch, c, w', k);
    FailureDecision(options, k, c.sub.failed[k]);
    SafeWithout(w', k);
  }

  /** With nothing outstanding, a key that awaits nothing is safe unless it is doubtful and resubmits. */
  lemma SafeWithout(w: World, k: Key)
    requires Outstanding(w, k) == {} && w.doubtful[k] <= 1
    requires Decision(w.journal, k).Some? && !Decision(w.journal, k).value.Await?
    requires Decision(w.journal, k) == Some(Submit) ==> w.doubtful[k] == 0
    ensures SafeEntry(w, k)
  {
    hide Decision, Outstanding;
  }

  lemma SafeUntouched(options: PollOptions, w: World, batch: seq<Resource>, c: Choice, w': World, k: Key)
    requires TrueJournal(w) && SafeEntry(w, k) && Run(options, w, batch, c, w')
    requires k !in c.sub.q.keys && k !in c.sub.failed && !(k in KeySet(batch) && Awaits(w.journal, k))
    ensures Decision(w'.journal, k) == Decision(w.journal, k) && SafeEntry(w', k)
  {
    RunPhases(options, w, batch, c, w');
    UntouchedDecision(options, w, batch, c, w', k);
    OutstandingAfter(options, w, batch, c, w', k);
    DoubtsOf(options, w, batch, c, k);
    hide Run, AwaitPhase, SubmitPhase, TrueJournal, Decision, Outstanding, KeySet, Awaits;
  }

  lemma UntouchedDecision(options: PollOptions, w: World, batch: seq<Resource>, c: Choice, w': World, k: Key)
    requires TrueJournal(w) && Run(options, w, batch, c, w')
    requires k !in c.sub.q.keys && k !in c.sub.failed && !(k in KeySet(batch) && Awaits(w.journal, k))
    ensures Decision(w'.journal, k) == Decision(w.journal, k)
  {
    RunPhases(options, w, batch, c, w');
    EntryAfter(options, w, batch, c, w', k);
    SubmittedKeys(options, w, batch, c, k);
    BatchKinds(w, batch, k);
    EntryIsTrueBefore(w, k);
    hide Run, AwaitPhase, SubmitPhase, TrueJournal, Decision, KeySet, DecisionOn, TrueEntry;
  }

  // ---------- Keeping groups together keeps the journal shared ----------

  /** The run leaves the keys of one group awaiting the same operations. */
  lemma SameAfter(w': World, q: PollQuery, owner: map<OpId, Key>, seen: map<OpId, Operation>,
                  k: Key, ops: seq<OpId>, own: OpId, o: Key, ops': seq<OpId>, id: OpId)
    requires LeftWithOwn(w', q, owner, seen, k, ops, own) && LeftWithOwn(w', q, owner, seen, o, ops', id)
    requires SameElements(ops, ops')
    requires Awaits(w'.journal, k) && id in GroupOf(w'.journal, k).ops
    requires own in seen ==> seen[own].id == own
    ensures Awaits(w'.journal, o) && SameOps(GroupOf(w'.journal, o), GroupOf(w'.journal, k))
  {
    if k != o {
      StillUnseen(w', q, owner, seen, k, ops, own, o, ops', id);
      UnseenAwaits(w', q, owner, seen, k, ops, own);
      UnseenAwaits(w', q, owner, seen, o, ops', id);
      NotExact(w', q, owner, seen, k, ops, own, o, ops', id);
      hide LeftWithOwn, Awaits, GroupOf, TimeoutGroup, IsExact;
    }
  }

  lemma SameGroupElements(a: CandidateGroup, b: CandidateGroup)
    requires SameOps(a, b)
    ensures SameElements(b.ops, a.ops)
  {
  }

  ghost predicate SameElements(a: seq<OpId>, b: seq<OpId>) {
    forall id :: id in a <==> id in b
  }

  lemma StillUnseen(w': World, q: PollQuery, owner: map<OpId, Key>, seen: map<OpId, Operation>,
                    k: Key, ops: seq<OpId>, own: OpId, o: Key, ops': seq<OpId>, id: OpId)
    requires LeftWithOwn(w', q, owner, seen, k, ops, own) && LeftWithOwn(w', q, owner, seen, o, ops', id) && k != o
    requires Awaits(w'.journal, k) && id in GroupOf(w'.journal, k).ops
    requires own in seen ==> seen[own].id == own
    ensures own !in seen && id !in seen
  {
    hide TimeoutGroup, AllowedKeys, IsExact;
    assert own != id;
  }

  lemma UnseenAwaits(w': World, q: PollQuery, owner: map<OpId, Key>, seen: map<OpId, Operation>,
                     k: Key, ops: seq<OpId>, own: OpId)
    requires LeftWithOwn(w', q, owner, seen, k, ops, own) && own !in seen
    ensures Awaits(w'.journal, k) && GroupOf(w'.journal, k) == TimeoutGroup(q, seen, k)
    ensures TimeoutOps(q, seen, k, ops, own)
  {
    hide TimeoutGroup, AllowedKeys, IsExact, TimeoutOps, Decision;
  }

  lemma NotExact(w': World, q: PollQuery, owner: map<OpId, Key>, seen: map<OpId, Operation>,
                 k: Key, ops: seq<OpId>, own: OpId, o: Key, ops': seq<OpId>, id: OpId)
    requires LeftWithOwn(w', q, owner, seen, k, ops, own) && LeftWithOwn(w', q, owner, seen, o, ops', id) && k != o
    requires SameElements(ops, ops')
    ensures !IsExact(q, own, k) && !IsExact(q, id, o)
  {
    hide TimeoutGroup, LeftAwaiting, TimeoutOps;
    assert o in AllowedKeys(q, own) && k in AllowedKeys(q, id);
  }

  /** A run whose batch keeps candidate groups together keeps the journal shared. */
  lemma RunKeepsShared(options: PollOptions, w: World, batch: seq<Resource>, c: Choice, w': World)
    requires TrueJournal(w) && Shared(w) && Run(options, w, batch, c, w')
    requires KeepsTogether(w.journal, KeySet(batch))
    ensures Shared(w')
  {
    hide *;
    forall k ensures SharedEntry(w', k) {
      SharedEntryAfter(options, w, batch, c, w', k);
    }
    SharedIf(w');
  }

  lemma SharedIf(w: World)
    requires forall k :: SharedEntry(w, k)
    ensures Shared(w)
  {
  }

  /** The operation `id` awaited by `k` is awaited with the same others by its true owner. */
  ghost predicate SharedWithOwner(w: World, k: Key, id: OpId)
    requires Awaits(w.journal, k) && id in w.owner
  {
    Awaits(w.journal, w.owner[id]) && SameOps(GroupOf(w.journal, w.owner[id]), GroupOf(w.journal, k))
  }

  lemma SharedEntryIf(w: World, k: Key)
    requires Awaits(w.journal, k) ==>
      forall id :: id in GroupOf(w.journal, k).ops && id in w.owner ==> SharedWithOwner(w, k, id)
    ensures SharedEntry(w, k)
  {
  }

  lemma SharedEntryAfter(options: PollOptions, w: World, batch: seq<Resource>, c: Choice, w': World, k: Key)
    requires TrueJournal(w) && Shared(w) && Run(options, w, batch, c, w')
    requires KeepsTogether(w.journal, KeySet(batch))
    ensures SharedEntry(w', k)
  {
    hide *;
    if Awaits(w'.journal, k) {
      forall id | id in GroupOf(w'.journal, k).ops && id in w'.owner ensures SharedWithOwner(w', k, id) {
        SharedWithOwnerAfter(options, w, batch, c, w', k, id);
      }
    }
    SharedEntryIf(w', k);
  }

  lemma SharedWithOwnerAfter(
    options: PollOptions, w: World, batch: seq<Resource>, c: Choice, w': World, k: Key, id: OpId)
    requires TrueJournal(w) && Shared(w) && Run(options, w, batch, c, w')
    requires KeepsTogether(w.journal, KeySet(batch))
    requires Awaits(w'.journal, k) && id in GroupOf(w'.journal, k).ops && id in w'.owner
    ensures SharedWithOwner(w', k, id)
  {
    RunPhases(options, w, batch, c, w');
    SubmittedKeys(options, w, batch, c, k);
    BatchKinds(w, batch, k);
    hide *;
    if k in KeySet(batch) && Awaits(w.journal, k) {
      SharedAwaited(options, w, batch, c, w', k, id);
    } else if k in c.sub.q.keys {
      SharedAccepted(options, w, batch, c, w', k, id);
    } else if k in c.sub.failed {
      FailedAwaitsNothing(options, w, batch, c, w', k);
      assert false;
    } else {
      SharedUntouched(options, w, batch, c, w', k, id);
    }
  }

  lemma FailedAwaitsNothing(options: PollOptions, w: World, batch: seq<Resource>, c: Choice, w': World, k: Key)
    requires TrueJournal(w) && Run(options, w, batch, c, w') && k in c.sub.failed
    ensures !Awaits(w'.journal, k)
  {
    RunPhases(options, w, batch, c, w');
    EntryAfter(options, w, batch, c, w', k);
    SubmittedKeys(options, w, batch, c, k);
    DoubtsOf(options, w, batch, c, k);
    FailureDecision(options, k, c.sub.failed[k]);
    hide Run, AwaitPhase, SubmitPhase, TrueJournal, Decision, DecisionOn, FailureOf, KeySet;
  }

  lemma SharedAwaited(options: PollOptions, w: World, batch: seq<Resource>, c: Choice, w': World, k: Key, id: OpId)
    requires TrueJournal(w) && Shared(w) && Run(options, w, batch, c, w')
    requires KeepsTogether(w.journal, KeySet(batch)) && k in KeySet(batch) && Awaits(w.journal, k)
    requires Awaits(w'.journal, k) && id in GroupOf(w'.journal, k).ops && id in w'.owner
    ensures SharedWithOwner(w', k, id)
  {
    hide *;
    var q := AwaitQuery(options, AwaitGroups(w.journal, batch));
    var ops := GroupOf(w.journal, k).ops;
    OwnOfAwaiting(w, k);
    var own :| OwnIn(w.owner, ops, k, own);
    AwaitedOwn(options, w, batch, c, w', k, own);
    RunPhases(options, w, batch, c, w');
    SeenIsFinished(options, w, batch, c, own);
    OldOps(w', q, w.owner, c.seen, k, ops, own, id);
    SharedOwner(w, k, id);
    var o := w.owner[id];
    OwnerIsTogether(w, KeySet(batch), k, o, id);
    AwaitedOwn(options, w, batch, c, w', o, id);
    OwnerKept(options, w, batch, c, w', id);
    SameGroupElements(GroupOf(w.journal, o), GroupOf(w.journal, k));
    SameAfter(w', q, w.owner, c.seen, k, ops, own, o, GroupOf(w.journal, o).ops, id);
    SharedWithOwnerIf(w', k, id);
  }

  lemma SharedWithOwnerIf(w: World, k: Key, id: OpId)
    requires Awaits(w.journal, k) && id in w.owner && Awaits(w.journal, w.owner[id])
    requires SameOps(GroupOf(w.journal, w.owner[id]), GroupOf(w.journal, k))
    ensures SharedWithOwner(w, k, id)
  {
  }

  lemma OwnerIsTogether(w: World, keys: set<Key>, k: Key, o: Key, id: OpId)
    requires KeepsTogether(w.journal, keys) && k in keys && Awaits(w.journal, k) && Awaits(w.journal, o)
    requires id in GroupOf(w.journal, k).ops && SameOps(GroupOf(w.journal, o), GroupOf(w.journal, k))
    ensures o in keys
  {
    assert ShareOperation(GroupOf(w.journal, k), GroupOf(w.journal, o));
  }

  lemma OwnerKept(options: PollOptions, w: World, batch: seq<Resource>, c: Choice, w': World, id: OpId)
    requires TrueJournal(w) && Run(options, w, batch, c, w')
    ensures id in w.owner ==> id in w'.owner && w'.owner[id] == w.owner[id]
    ensures id in c.created ==> id in w'.owner && w'.owner[id] == c.created[id]
  {
    RunPhases(options, w, batch, c, w');
  }

  /** A key awaits after the run only operations it was polled with. */
  lemma OldOps(w': World, q: PollQuery, owner: map<OpId, Key>, seen: map<OpId, Operation>,
               k: Key, ops: seq<OpId>, own: OpId, id: OpId)
    requires LeftWithOwn(w', q, owner, seen, k, ops, own)
    requires own in seen ==> seen[own].id == own
    requires Awaits(w'.journal, k) && id in GroupOf(w'.journal, k).ops
    ensures id in ops
  {
    hide TimeoutGroup, AllowedKeys, IsExact;
  }

  lemma SharedAccepted(options: PollOptions, w: World, batch: seq<Resource>, c: Choice, w': World, k: Key, id: OpId)
    requires TrueJournal(w) && Run(options, w, batch, c, w') && k in c.sub.q.keys
    requires Awaits(w'.journal, k) && id in GroupOf(w'.journal, k).ops && id in w'.owner
    ensures SharedWithOwner(w', k, id)
  {
    hide *;
    RunPhases(options, w, batch, c, w');
    AcceptedHasOwn(options, w, batch, c, k);
    var g, own :| g in c.sub.groups && k in g.keys && OwnIn(c.created, g.ids, k, own);
    SubmittedOwn(options, w, batch, c, w', g, k, own);
    SubmittedIsFinished(options, w, batch, c, own);
    OldOps(w', c.sub.q, c.created, c.sub.ops, k, g.ids, own, id);
    var o := CreatedOwner(options, w, batch, c, g, id);
    SubmittedOwn(options, w, batch, c, w', g, o, id);
    OwnerKept(options, w, batch, c, w', id);
    SameAsSelf(g.ids);
    SameAfter(w', c.sub.q, c.created, c.sub.ops, k, g.ids, own, o, g.ids, id);
    SharedWithOwnerIf(w', k, id);
  }

  lemma SameAsSelf(ops: seq<OpId>)
    ensures SameElements(ops, ops)
  {
  }

  /** The key a new operation of the chunk belongs to. */
  lemma CreatedOwner(options: PollOptions, w: World, batch: seq<Resource>, c: Choice, g: ChunkGroup, id: OpId)
    returns (o: Key)
    requires SubmitPhase(options, w, batch, c) && g in c.sub.groups && id in g.ids
    ensures id in c.created && c.created[id] == o && o in g.keys && OwnIn(c.created, g.ids, o, id)
  {
    hide *;
    SubmitFacts(options, w, batch, c);
    GroupIsCreated(w.owner, c.sub.groups, c.created, g, id);
    OwnOfCreated(w.owner, c.sub.groups, c.created, g, id);
    o := c.created[id];
  }

  lemma GroupIsCreated(owner: map<OpId, Key>, groups: set<ChunkGroup>, created: map<OpId, Key>, g: ChunkGroup, id: OpId)
    requires Creates(owner, groups, created) && g in groups && id in g.ids
    ensures id in created && created[id] in g.keys
  {
    assert SomeId(groups, id);
  }

  lemma SharedUntouched(options: PollOptions, w: World, batch: seq<Resource>, c: Choice, w': World, k: Key, id: OpId)
    requires TrueJournal(w) && Shared(w) && Run(options, w, batch, c, w')
    requires KeepsTogether(w.journal, KeySet(batch))
    requires k !in c.sub.q.keys && k !in c.sub.failed && !(k in KeySet(batch) && Awaits(w.journal, k))
    requires Awaits(w'.journal, k) && id in GroupOf(w'.journal, k).ops && id in w'.owner
    ensures SharedWithOwner(w', k, id)
  {
    UntouchedDecision(options, w, batch, c, w', k);
    SameDecision(w, w', k);
    SharedOwner(w, k, id);
    var o := w.owner[id];
    OwnerKept(options, w, batch, c, w', id);
    RunPhases(options, w, batch, c, w');
    AwaitingIsNotSubmitted(options, w, batch, c, o);
    hide *;
    NotTogether(w, KeySet(batch), k, o, id);
    UntouchedDecision(options, w, batch, c, w', o);
    SameDecision(w, w', o);
    SharedWithOwnerIf(w', k, id);
  }

  lemma NotTogether(w: World, keys: set<Key>, k: Key, o: Key, id: OpId)
    requires KeepsTogether(w.journal, keys) && !(k in keys && Awaits(w.journal, k))
    requires Awaits(w.journal, k) && Awaits(w.journal, o)
    requires id in GroupOf(w.journal, k).ops && SameOps(GroupOf(w.journal, o), GroupOf(w.journal, k))
    ensures !(o in keys && Awaits(w.journal, o))
  {
    assert ShareOperation(GroupOf(w.journal, o), GroupOf(w.journal, k));
  }

  lemma SameDecision(w: World, w': World, k: Key)
    requires Decision(w'.journal, k) == Decision(w.journal, k)
    ensures Awaits(w.journal, k) <==> Awaits(w'.journal, k)
    ensures Awaits(w.journal, k) ==> GroupOf(w'.journal, k) == GroupOf(w.journal, k)
  {
    hide Decision;
  }

  lemma AwaitingIsNotSubmitted(options: PollOptions, w: World, batch: seq<Resource>, c: Choice, k: Key)
    requires SubmitPhase(options, w, batch, c) && Awaits(w.journal, k)
    ensures k !in c.sub.q.keys && k !in c.sub.failed
  {
    SubmittedKeys(options, w, batch, c, k);
    BatchKinds(w, batch, k);
    hide SubmitPhase, Decision;
  }
}
