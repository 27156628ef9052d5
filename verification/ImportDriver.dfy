/** The driver against a provider that tells the truth: which of its runs there are, and when they fail. */
module ImportDriver {
  import opened Basics
  import opened Chunking
  import opened ImportOutcomes
  import opened ImportPolling
  import opened ImportSubmission
  import opened ImportAwait
  import opened ImportRuns
  import opened ImportBatch

  // ---------- A provider that tells the truth ----------

  /** Every polled operation is answered with its true key, and settled only when it has finished. */
  ghost predicate TruthfulPolls(q: PollQuery, poll: Poll, owner: map<OpId, Key>, finished: set<OpId>) {
    forall n: nat, id :: id in q.ids && poll(n, id).PollSuccess? ==>
      Truthful(owner, finished, q.container, map[id := poll(n, id).operation])
  }

  predicate Names(statuses: seq<Status>, id: OpId) {
    exists i :: 0 <= i < |statuses| && statuses[i].operationId == Some(id)
  }

  ghost predicate ServesChunk(chunk: seq<Resource>, statuses: seq<Status>, created: map<OpId, Key>) {
    exists ids :: ResponseNames(statuses, |chunk|, {}, ids) && forall id :: id in ids ==>
      id in created && created[id] in KeySet(chunk)
  }

  /** Each accepted chunk creates one new operation per key, and names them; nothing else is created. */
  ghost predicate Serves(
    owner: map<OpId, Key>, chunks: seq<seq<Resource>>, submit: nat -> SubmitResult, created: map<OpId, Key>)
  {
    && owner.Keys !! created.Keys
    && (forall a, b :: a in created && b in created && a != b ==> created[a] != created[b])
    && (forall j :: 0 <= j < |chunks| && submit(j).Response? ==> ServesChunk(chunks[j], submit(j).statuses, created))
    && (forall id :: id in created ==> exists j :: NamedIn(chunks, submit, j, id))
  }

  predicate NamedIn(chunks: seq<seq<Resource>>, submit: nat -> SubmitResult, j: nat, id: OpId) {
    j < |chunks| && submit(j).Response? && Names(submit(j).statuses, id)
  }

  /**
   * A run of the driver that settles its batch, against such a provider. What may have been accepted
   * without an answer is what the provider's answers leave in doubt, whatever is journaled.
   */
  ghost predicate DriverRun(
    options: PollOptions, w: World, batch: seq<Resource>, e: Environment, c: Choice, w': World)
  {
    && Distinct(KeysOf(batch))
    && w.finished <= c.finished <= w.owner.Keys + c.created.Keys
    && ClockAdvances(options.Interval(), options.Timeout(), e.awaitClock)
    && ClockAdvances(options.Interval(), options.Timeout(), e.submitClock)
    && Drives(options, w.journal, batch, e, c)
    && TruthfulPolls(AwaitQuery(options, AwaitGroups(w.journal, batch)), e.awaitPoll, w.owner, c.finished)
    && Serves(w.owner, c.sub.chunks, e.submit, c.created)
    && TruthfulPolls(c.sub.q, e.submitPoll, c.created, c.finished)
    && w' == AfterRun(w, batch, c)
  }

  /** The batch and the options pass the checks the driver makes of what it awaits and submits. */
  ghost predicate BatchAccepted(options: PollOptions, journal: map<Key, JournalValue>, batch: seq<Resource>) {
    var groups, drafts := AwaitGroups(journal, batch), FreshResources(journal, batch);
    && (groups != [] ==> ValidAwaitInput(options, groups))
    && (drafts != [] ==> ValidImportInput(ImportInput(options, drafts, None, None)))
  }

  // ---------- The environment decides how a run ends ----------

  lemma AnswersOnce(
    q: PollQuery, ops: map<OpId, Operation>, errors: set<OpId>, a: map<Key, Outcome>, b: map<Key, Outcome>)
    requires Answers(q, ops, errors, a) && Answers(q, ops, errors, b)
    ensures a == b
  {
    hide TimeoutOutcome, OutcomeFromOperation;
    assert a.Keys == b.Keys;
    forall k | k in a ensures a[k] == b[k] {
      assert k in Elements(q.keys) && k in q.keys;
      if k in KnownKeys(ops) {
        var id :| id in ops && ops[id].key == k;
      }
    }
  }

  lemma PolledOutOnce(
    q: PollQuery, poll: Poll, clock: nat -> real, m: nat, n: nat, ops: map<OpId, Operation>, errors: set<OpId>,
    answer: map<Key, Outcome>, ops': map<OpId, Operation>, errors': set<OpId>, answer': map<Key, Outcome>)
    requires PolledOut(q, poll, clock, m, ops, errors, answer)
    requires PolledOut(q, poll, clock, n, ops', errors', answer')
    ensures ops == ops' && errors == errors' && answer == answer'
  {
    PollingEndsOnce(q, poll, clock, m, Ok(answer), n, Ok(answer'));
    hide KnownAfter, ErrorsAfter, RoundSucceeds, AllSettled, Covered, StillPolling, BeforeTimeout, Answers;
    AnswersOnce(q, ops, errors, answer, answer');
  }

  lemma AwaitDrivesOnce(
    options: PollOptions, journal: map<Key, JournalValue>, batch: seq<Resource>, poll: Poll, clock: nat -> real,
    c: Choice, c': Choice)
    requires AwaitDrives(options, journal, batch, poll, clock, c.seen, c.errors, c.awaited)
    requires AwaitDrives(options, journal, batch, poll, clock, c'.seen, c'.errors, c'.awaited)
    ensures c.seen == c'.seen && c.errors == c'.errors && c.awaited == c'.awaited
    ensures forall error :: !AwaitFails(options, AwaitGroups(journal, batch), poll, clock, error)
  {
    hide AwaitGroups, ValidAwaitInput, PolledOut, PollFails;
    if AwaitGroups(journal, batch) != [] {
      var q := AwaitQuery(options, AwaitGroups(journal, batch));
      var m: nat :| PolledOut(q, poll, clock, m, c.seen, c.errors, c.awaited);
      var n: nat :| PolledOut(q, poll, clock, n, c'.seen, c'.errors, c'.awaited);
      hide AwaitQuery;
      PolledOutOnce(q, poll, clock, m, n, c.seen, c.errors, c.awaited, c'.seen, c'.errors, c'.awaited);
      PolledOutNeverFails(q, poll, clock, m, c.seen, c.errors, c.awaited);
    }
  }

  lemma PolledOutNeverFails(
    q: PollQuery, poll: Poll, clock: nat -> real, rounds: nat, ops: map<OpId, Operation>, errors: set<OpId>,
    answer: map<Key, Outcome>)
    requires PolledOut(q, poll, clock, rounds, ops, errors, answer)
    ensures forall error :: !PollFails(q, poll, clock, error)
  {
    hide PollEnds, PollFails;
    PollFailsExactly(q, poll, clock, rounds, Ok(answer));
  }

  /** The failures of a submission are those of its chunks. */
  lemma FailedOnce(
    container: Name, chunks: seq<seq<Resource>>, submit: nat -> SubmitResult, q: PollQuery,
    groups: set<ChunkGroup>, failed: map<Key, Outcome>, groups': set<ChunkGroup>, failed': map<Key, Outcome>)
    requires ChunksTaken(container, chunks, |chunks|, submit, groups, q, failed)
    requires ChunksTaken(container, chunks, |chunks|, submit, groups', q, failed')
    ensures failed == failed'
  {
    assert chunks[..|chunks|] == chunks;
    assert failed.Keys == failed'.Keys by {
      assert failed.Keys == TakenKeys(chunks) - Elements(q.keys) && failed'.Keys == TakenKeys(chunks) - Elements(q.keys);
    }
    forall k | k in failed ensures failed[k] == failed'[k] {
      FailureIsOfChunk(container, chunks, submit, q, groups, failed, groups', failed', k);
    }
  }

  lemma FailureIsOfChunk(
    container: Name, chunks: seq<seq<Resource>>, submit: nat -> SubmitResult, q: PollQuery,
    groups: set<ChunkGroup>, failed: map<Key, Outcome>, groups': set<ChunkGroup>, failed': map<Key, Outcome>, k: Key)
    requires ChunksTaken(container, chunks, |chunks|, submit, groups, q, failed) && k in failed
    requires ChunksTaken(container, chunks, |chunks|, submit, groups', q, failed') && k in failed'
    ensures failed[k] == failed'[k]
  {
    assert chunks[..|chunks|] == chunks;
    hide AsksFor, ValidGroups, KeySet, SubmissionFailureOutcome, TakenKeys;
    assert k in TakenKeys(chunks) && k !in q.keys;
    TakenKeyIsInChunk(chunks, k);
    var j :| 0 <= j < |chunks| && k in KeySet(chunks[j]);
    assert ChunkTaken(container, chunks[j], submit(j), groups, failed);
    assert ChunkTaken(container, chunks[j], submit(j), groups', failed');
    if submit(j).Response? {
      ResponseIsAsked(container, q, groups, chunks[j], submit(j), failed, k);
    }
  }

  lemma PolledForOnce(
    q: PollQuery, poll: Poll, clock: nat -> real, m: nat, n: nat, ops: map<OpId, Operation>, errors: set<OpId>,
    ops': map<OpId, Operation>, errors': set<OpId>)
    requires q.interval > 0.0 && q.timeout >= 0.0
    requires PolledFor(q, poll, clock, m, ops, errors) && PolledFor(q, poll, clock, n, ops', errors')
    ensures ops == ops' && errors == errors'
    ensures q.ids != [] ==> forall error :: !PollFails(q, poll, clock, error)
  {
    hide PollEnds, KnownAfter, ErrorsAfter, RoundBound, PollFails;
    if q.ids != [] {
      var answer :| PollEnds(q, poll, clock, m, Ok(answer));
      var answer' :| PollEnds(q, poll, clock, n, Ok(answer'));
      PollingEndsOnce(q, poll, clock, m, Ok(answer), n, Ok(answer'));
      PollFailsExactly(q, poll, clock, m, Ok(answer));
    }
  }

  lemma SubmissionOnce(
    input: ImportInput, submit: nat -> SubmitResult, s: Submission, submitted: map<Key, Outcome>,
    s': Submission, submitted': map<Key, Outcome>)
    requires ValidSubmission(input, submit, s) && SubmissionAnswers(s, submitted)
    requires ValidSubmission(input, submit, s') && SubmissionAnswers(s', submitted')
    requires s.chunks == s'.chunks && s.q == s'.q && s.ops == s'.ops && s.errors == s'.errors
    ensures s.failed == s'.failed && submitted == submitted'
  {
    hide ChunksTaken, Correlated, Consistent, IsGreedySplit, ValidImportInput, Answers;
    FailedOnce(s.q.container, s.chunks, submit, s.q, s.groups, s.failed, s'.groups, s'.failed);
    var polled :| submitted == polled + s.failed && Answers(s.q, s.ops, s.errors, polled);
    var polled' :| submitted' == polled' + s'.failed && Answers(s'.q, s'.ops, s'.errors, polled');
    AnswersOnce(s.q, s.ops, s.errors, polled, polled');
  }

  lemma SameChunks(input: ImportInput, submit: nat -> SubmitResult, s: Submission, s': Submission)
    requires ValidSubmission(input, submit, s) && ValidSubmission(input, submit, s')
    ensures s.chunks == s'.chunks && ValidImportInput(input)
  {
    GreedySplitIsUnique(s.chunks, s'.chunks, input.resources, input.MaxBytes());
    hide ValidImportInput, IsGreedySplit, ChunksTaken, Correlated, Consistent;
  }

  lemma SubmitDrivesOnce(
    options: PollOptions, concurrency: Option<int>, journal: map<Key, JournalValue>, batch: seq<Resource>,
    submit: nat -> SubmitResult, poll: Poll, clock: nat -> real, c: Choice, c': Choice)
    requires SubmitDrives(options, concurrency, journal, batch, submit, poll, clock, c.sub, c.submitted)
    requires SubmitDrives(options, concurrency, journal, batch, submit, poll, clock, c'.sub, c'.submitted)
    ensures c.submitted == c'.submitted && c.sub.chunks == c'.sub.chunks && c.sub.ops == c'.sub.ops
    ensures !SubmitFails(
      options, concurrency, FreshResources(journal, batch), c.sub.chunks, submit, poll, clock)
  {
    hide FreshResources, ValidSubmission, SubmissionAnswers, QueryAfter, PolledFor, SubmissionFails;
    var drafts := FreshResources(journal, batch);
    if drafts != [] {
      var input := ImportInput(options, drafts, None, concurrency);
      SameChunks(input, submit, c.sub, c'.sub);
      var m: nat :| PolledFor(c.sub.q, poll, clock, m, c.sub.ops, c.sub.errors);
      var n: nat :| PolledFor(c'.sub.q, poll, clock, n, c'.sub.ops, c'.sub.errors);
      PolledForOnce(c.sub.q, poll, clock, m, n, c.sub.ops, c.sub.errors, c'.sub.ops, c'.sub.errors);
      SubmissionOnce(input, submit, c.sub, c.submitted, c'.sub, c'.submitted);
      TakingSucceeded(options, c.sub.chunks, submit, c.sub.q, poll, clock);
      FailsIf(input, submit, poll, clock, c.sub.chunks);
      hide PollFails, ValidImportInput, TakingFails, AwaitingFails;
    }
  }

  /**
   * The answers and the clocks decide how the driver's run of a batch ends: when it can end well it
   * does not fail, and it ends with the same answers and so with the same journal.
   */
  lemma DrivesOnce(
    options: PollOptions, journal: map<Key, JournalValue>, batch: seq<Resource>, e: Environment, c: Choice, c': Choice)
    requires Drives(options, journal, batch, e, c) && Drives(options, journal, batch, e, c')
    ensures c.seen == c'.seen && c.awaited == c'.awaited && c.submitted == c'.submitted && c.doubted == c'.doubted
    ensures Settled(journal, batch, c) == Settled(journal, batch, c')
    ensures forall error :: !AwaitFails(options, AwaitGroups(journal, batch), e.awaitPoll, e.awaitClock, error)
    ensures !SubmitFails(options, e.concurrency, FreshResources(journal, batch), c.sub.chunks, e.submit, e.submitPoll,
                         e.submitClock)
  {
    hide AwaitDrives, SubmitDrives, AwaitFails, SubmitFails, AwaitGroups, FreshResources, BlockedOutcomes, Doubted;
    AwaitDrivesOnce(options, journal, batch, e.awaitPoll, e.awaitClock, c, c');
    SubmitDrivesOnce(options, e.concurrency, journal, batch, e.submit, e.submitPoll, e.submitClock, c, c');
  }

  // ---------- Such runs are runs of the machine ----------

  lemma TruthfulKnown(q: PollQuery, poll: Poll, n: nat, owner: map<OpId, Key>, finished: set<OpId>)
    requires TruthfulPolls(q, poll, owner, finished)
    ensures Truthful(owner, finished, q.container, KnownAfter(q, poll, n))
  {
    hide Truthful, KnownAfter;
    TruthfulPollsAreKnown(q, poll, n, owner, finished);
  }

  lemma NothingIsTruthful(owner: map<OpId, Key>, finished: set<OpId>, container: Name)
    ensures Truthful(owner, finished, container, map[])
  {
  }

  lemma AwaitIsTruthful(
    options: PollOptions, journal: map<Key, JournalValue>, batch: seq<Resource>, poll: Poll, clock: nat -> real,
    c: Choice, owner: map<OpId, Key>)
    requires AwaitDrives(options, journal, batch, poll, clock, c.seen, c.errors, c.awaited)
    requires TruthfulPolls(AwaitQuery(options, AwaitGroups(journal, batch)), poll, owner, c.finished)
    ensures Truthful(owner, c.finished, options.container, c.seen)
  {
    hide AwaitGroups, PollEnds, KnownAfter, ErrorsAfter, Truthful, TruthfulPolls, ValidAwaitInput;
    var q := AwaitQuery(options, AwaitGroups(journal, batch));
    if AwaitGroups(journal, batch) == [] {
      NothingIsTruthful(owner, c.finished, options.container);
    } else {
      var rounds: nat :| PolledOut(q, poll, clock, rounds, c.seen, c.errors, c.awaited);
      TruthfulKnown(q, poll, rounds, owner, c.finished);
    }
  }

  lemma SubmissionIsTruthful(
    options: PollOptions, concurrency: Option<int>, journal: map<Key, JournalValue>, batch: seq<Resource>,
    submit: nat -> SubmitResult, poll: Poll, clock: nat -> real, c: Choice)
    requires SubmitDrives(options, concurrency, journal, batch, submit, poll, clock, c.sub, c.submitted)
    requires TruthfulPolls(c.sub.q, poll, c.created, c.finished)
    ensures Truthful(c.created, c.finished, options.container, c.sub.ops)
  {
    hide FreshResources, PollEnds, KnownAfter, ErrorsAfter, Truthful, TruthfulPolls, ValidImportInput, ChunksTaken,
         SubmissionAnswers, QueryAfter, RoundBound, Correlated, Consistent, IsGreedySplit;
    if FreshResources(journal, batch) == [] {
      NothingIsTruthful(c.created, c.finished, options.container);
    } else {
      var rounds: nat :| PolledFor(c.sub.q, poll, clock, rounds, c.sub.ops, c.sub.errors);
      TruthfulKnown(c.sub.q, poll, rounds, c.created, c.finished);
    }
  }

  /** A candidate group was made by the response to the chunk with its keys. */
  lemma GroupIsOfChunk(
    container: Name, chunks: seq<seq<Resource>>, submit: nat -> SubmitResult, groups: set<ChunkGroup>, q: PollQuery,
    failed: map<Key, Outcome>, g: ChunkGroup)
    returns (j: nat)
    requires ChunksTaken(container, chunks, |chunks|, submit, groups, q, failed) && g in groups
    ensures j < |chunks| && submit(j).Response? && g.keys == KeysOf(chunks[j])
    ensures ResponseNames(submit(j).statuses, |chunks[j]|, {}, g.ids)
  {
    var k := g.keys[0];
    assert chunks[..|chunks|] == chunks;
    assert SomeKey(groups, k) && k in Elements(q.keys);
    hide AsksFor, ResponseNames, KeySet, SubmissionFailureOutcome;
    TakenKeyIsInChunk(chunks, k);
    j :| 0 <= j < |chunks| && k in KeySet(chunks[j]);
    assert ChunkTaken(container, chunks[j], submit(j), groups, failed);
    KeySetIsElements(chunks[j]);
    var a :| a in groups && a.keys == KeysOf(chunks[j]) && ResponseNames(submit(j).statuses, |chunks[j]|, {}, a.ids);
    assert k in Elements(a.keys) && k in Elements(g.keys);
    assert a != g ==> DisjointGroups(a, g);
  }

  lemma ServedGroup(
    owner: map<OpId, Key>, chunks: seq<seq<Resource>>, submit: nat -> SubmitResult, created: map<OpId, Key>,
    g: ChunkGroup, j: nat, id: OpId)
    requires Serves(owner, chunks, submit, created) && j < |chunks| && submit(j).Response?
    requires g.keys == KeysOf(chunks[j]) && ResponseNames(submit(j).statuses, |chunks[j]|, {}, g.ids) && id in g.ids
    ensures id in created && created[id] in g.keys
  {
    KeySetIsElements(chunks[j]);
    assert ServesChunk(chunks[j], submit(j).statuses, created);
    var ids :| ResponseNames(submit(j).statuses, |chunks[j]|, {}, ids) && forall a :: a in ids ==>
      a in created && created[a] in KeySet(chunks[j]);
    NamesAreNamed(submit(j).statuses, |chunks[j]|, {}, ids);
    NamesAreNamed(submit(j).statuses, |chunks[j]|, {}, g.ids);
  }

  lemma CreatedIsListed(
    container: Name, chunks: seq<seq<Resource>>, submit: nat -> SubmitResult, groups: set<ChunkGroup>, q: PollQuery,
    failed: map<Key, Outcome>, j: nat, id: OpId)
    requires ChunksTaken(container, chunks, |chunks|, submit, groups, q, failed) && NamedIn(chunks, submit, j, id)
    ensures SomeId(groups, id)
  {
    hide ValidGroups, AsksFor, TakenKeys, KeysOf;
    assert ChunkTaken(container, chunks[j], submit(j), groups, failed);
    var g :| g in groups && g.keys == KeysOf(chunks[j]) && ResponseNames(submit(j).statuses, |chunks[j]|, {}, g.ids);
    var i :| 0 <= i < |submit(j).statuses| && submit(j).statuses[i].operationId == Some(id);
    assert g.ids[i] == id;
  }

  /** What such a provider creates is one operation per key of each accepted chunk. */
  lemma ServedIsCreated(
    owner: map<OpId, Key>, container: Name, chunks: seq<seq<Resource>>, submit: nat -> SubmitResult,
    groups: set<ChunkGroup>, q: PollQuery, failed: map<Key, Outcome>, created: map<OpId, Key>)
    requires Serves(owner, chunks, submit, created)
    requires ChunksTaken(container, chunks, |chunks|, submit, groups, q, failed)
    ensures Creates(owner, groups, created)
  {
    hide ChunksTaken, ServesChunk, NamedIn;
    forall g, id | g in groups && id in g.ids ensures id in created && created[id] in g.keys {
      var j := GroupIsOfChunk(container, chunks, submit, groups, q, failed, g);
      ServedGroup(owner, chunks, submit, created, g, j, id);
    }
    forall id | id in created ensures SomeId(groups, id) {
      var j :| NamedIn(chunks, submit, j, id);
      CreatedIsListed(container, chunks, submit, groups, q, failed, j, id);
    }
  }

  lemma SubmissionCreates(
    options: PollOptions, concurrency: Option<int>, w: World, batch: seq<Resource>, submit: nat -> SubmitResult,
    poll: Poll, clock: nat -> real, c: Choice)
    requires SubmitDrives(options, concurrency, w.journal, batch, submit, poll, clock, c.sub, c.submitted)
    requires Serves(w.owner, c.sub.chunks, submit, c.created)
    ensures Creates(w.owner, c.sub.groups, c.created)
  {
    hide FreshResources, SubmissionAnswers, QueryAfter, PolledFor, ServesChunk, ValidImportInput, ChunksTaken,
         Correlated, Consistent, IsGreedySplit;
    if FreshResources(w.journal, batch) == [] {
      NothingServed(w.owner, submit, c.created);
    } else {
      ServedIsCreated(
        w.owner, c.sub.q.container, c.sub.chunks, submit, c.sub.groups, c.sub.q, c.sub.failed, c.created);
    }
  }

  lemma NothingServed(owner: map<OpId, Key>, submit: nat -> SubmitResult, created: map<OpId, Key>)
    requires Serves(owner, [], submit, created)
    ensures created == map[] && Creates(owner, {}, created)
  {
    forall id ensures id !in created {
      assert forall j :: !NamedIn([], submit, j, id);
    }
    assert created.Keys == {};
  }

  /** So whatever holds of every run of the machine holds of every such run of the driver. */
  lemma DriverRunIsRun(options: PollOptions, w: World, batch: seq<Resource>, e: Environment, c: Choice, w': World)
    requires DriverRun(options, w, batch, e, c, w')
    ensures Run(options, w, batch, c, w')
  {
    hide Drives, AwaitDrives, SubmitDrives, TruthfulPolls, Serves, ClockAdvances, AfterRun, Doubted, RecordsDoubts, AwaitQuery, AwaitGroups,
         Distinct, KeysOf, Run;
    DrivesBoth(options, w.journal, batch, e, c);
    AwaitDrivesSettles(options, w.journal, batch, e.awaitPoll, e.awaitClock, c);
    SubmitDrivesSettles(options, e.concurrency, w.journal, batch, e.submit, e.submitPoll, e.submitClock, c);
    AwaitIsTruthful(options, w.journal, batch, e.awaitPoll, e.awaitClock, c, w.owner);
    SubmissionIsTruthful(options, e.concurrency, w.journal, batch, e.submit, e.submitPoll, e.submitClock, c);
    SubmissionCreates(options, e.concurrency, w, batch, e.submit, e.submitPoll, e.submitClock, c);
    SubmitRecordsDoubts(options, e.concurrency, w.journal, batch, e.submit, e.submitPoll, e.submitClock, c);
    SettledBatchIsRun(options, w, batch, c);
  }

  lemma DrivesBoth(
    options: PollOptions, journal: map<Key, JournalValue>, batch: seq<Resource>, e: Environment, c: Choice)
    requires Drives(options, journal, batch, e, c)
    ensures AwaitDrives(options, journal, batch, e.awaitPoll, e.awaitClock, c.seen, c.errors, c.awaited)
    ensures SubmitDrives(
      options, e.concurrency, journal, batch, e.submit, e.submitPoll, e.submitClock, c.sub, c.submitted)
    ensures c.doubted == Doubted(c.sub.chunks, e.submit)
  {
    hide AwaitDrives, SubmitDrives, Doubted;
  }

  /** Only accepted batches are run. */
  lemma DriverRunIsAccepted(options: PollOptions, w: World, batch: seq<Resource>, e: Environment, c: Choice, w': World)
    requires DriverRun(options, w, batch, e, c, w')
    ensures BatchAccepted(options, w.journal, batch)
  {
    hide AwaitGroups, FreshResources, ValidAwaitInput, PollEnds, ChunksTaken, SubmissionAnswers, PolledFor, QueryAfter,
         TruthfulPolls, Serves, ClockAdvances, AfterRun, Correlated, Consistent, IsGreedySplit, AwaitQuery,
         ValidResources, SomeResourceTooLarge;
  }

  // ---------- When polling succeeds ----------

  /** When any truthful knowledge answers a request, truthful polling never fails it. */
  lemma TruthfulPollingSucceeds(
    q: PollQuery, poll: Poll, clock: nat -> real, owner: map<OpId, Key>, finished: set<OpId>, error: ContractError)
    requires AlwaysAnswered(q, owner) && TruthfulPolls(q, poll, owner, finished)
    ensures !PollFails(q, poll, clock, error)
  {
    hide AlwaysAnswered, TruthfulPolls, PollEnds;
    if PollFails(q, poll, clock, error) {
      var rounds: nat :| rounds >= 1 && PollEnds(q, poll, clock, rounds, Err(error));
      KnownIsAnswered(q, poll, rounds, owner, finished);
      AnsweredRoundSucceeds(q, poll, rounds);
      SuccessIsNoError(q, poll, clock, rounds, Err(error));
      assert false;
    }
  }

  lemma KnownIsAnswered(q: PollQuery, poll: Poll, n: nat, owner: map<OpId, Key>, finished: set<OpId>)
    requires AlwaysAnswered(q, owner) && TruthfulPolls(q, poll, owner, finished)
    ensures AwaitEnds(q, KnownAfter(q, poll, n))
  {
    TruthfulKnown(q, poll, n, owner, finished);
    KnownIsAsked(q, poll, n);
    hide KnownAfter, Truthful, AwaitEnds, TruthfulPolls;
  }

  lemma {:induction false} KnownIsAsked(q: PollQuery, poll: Poll, n: nat)
    ensures forall id :: id in KnownAfter(q, poll, n) ==> id in q.ids
  {
    if n > 0 {
      KnownIsAsked(q, poll, n - 1);
    }
  }

  lemma AnsweredRoundSucceeds(q: PollQuery, poll: Poll, n: nat)
    requires n >= 1 && AwaitEnds(q, KnownAfter(q, poll, n))
    ensures RoundSucceeds(q, poll, n - 1)
  {
    var known := KnownAfter(q, poll, n);
    forall id | id in q.ids && Unsettled(KnownAfter(q, poll, n - 1), id) && poll(n - 1, id).PollSuccess?
      ensures ValidPolledOperation(q, id, poll(n - 1, id).operation)
    {
      assert id in known && known[id] == poll(n - 1, id).operation;
    }
    hide ValidPolledOperation, Unsettled, AllSettled, Covered, Readable;
  }

  lemma SuccessIsNoError(
    q: PollQuery, poll: Poll, clock: nat -> real, rounds: nat, r: Result<map<Key, Outcome>, ContractError>)
    requires rounds >= 1 && PollEnds(q, poll, clock, rounds, r)
    requires RoundSucceeds(q, poll, rounds - 1) && AwaitEnds(q, KnownAfter(q, poll, rounds))
    ensures r.Ok?
  {
    hide RoundSucceeds, KnownAfter, Answers, StillPolling, BeforeTimeout, Correlated, Consistent;
  }

  /** Truthful polling of the batch in this environment fails. */
  ghost predicate AwaitFailsIn(
    options: PollOptions, w: World, batch: seq<Resource>, poll: Poll, clock: nat -> real, finished: set<OpId>)
  {
    && ClockAdvances(options.Interval(), options.Timeout(), clock)
    && TruthfulPolls(AwaitQuery(options, AwaitGroups(w.journal, batch)), poll, w.owner, finished)
    && exists error :: AwaitFails(options, AwaitGroups(w.journal, batch), poll, clock, error)
  }

  /** However long it polls and whatever is truthfully answered, awaiting the batch never fails. */
  ghost predicate AwaitSucceeds(options: PollOptions, w: World, batch: seq<Resource>) {
    forall poll, clock, finished :: !AwaitFailsIn(options, w, batch, poll, clock, finished)
  }

  lemma EndingAwaitSucceeds(options: PollOptions, w: World, batch: seq<Resource>)
    requires TrueJournal(w) && Distinct(KeysOf(batch)) && options.Valid() && AlwaysEnds(options, w, batch)
    ensures AwaitSucceeds(options, w, batch)
  {
    AwaitGroupsAreAwaitable(w, batch);
    hide AwaitGroups, AwaitableGroups, AwaitQuery, AlwaysAnswered, TruthfulPolls, PollFails, ClockAdvances, TrueJournal,
         Distinct;
    var groups := AwaitGroups(w.journal, batch);
    forall poll, clock, finished ensures !AwaitFailsIn(options, w, batch, poll, clock, finished) {
      if TruthfulPolls(AwaitQuery(options, groups), poll, w.owner, finished) {
        forall error ensures !PollFails(AwaitQuery(options, groups), poll, clock, error) {
          TruthfulPollingSucceeds(AwaitQuery(options, groups), poll, clock, w.owner, finished, error);
        }
      }
    }
  }

  // ---------- Submitting to a provider that tells the truth never fails ----------

  lemma OperationsAreAnswered(q: PollQuery, groups: set<ChunkGroup>, owner: map<OpId, Key>, created: map<OpId, Key>)
    requires ValidGroups(groups) && AsksFor(q, groups) && Creates(owner, groups, created)
    ensures AlwaysAnswered(q, created)
  {
    CreatedIsOwned(q, groups, owner, created);
    forall finished, seen |
      Truthful(created, finished, q.container, seen) && (forall id :: id in seen ==> id in q.ids)
      ensures AwaitEnds(q, seen)
    {
      CreatedIsCorrelated(q, owner, groups, created, finished, seen);
      hide ValidGroups, AsksFor, Creates, Correlated, Consistent, Truthful, AllSettled, Covered;
      if AllSettled(q, seen) {
        SettledIsCovered(q, groups, seen);
      }
    }
  }

  lemma CreatedIsCorrelated(
    q: PollQuery, owner: map<OpId, Key>, groups: set<ChunkGroup>, created: map<OpId, Key>, finished: set<OpId>,
    seen: map<OpId, Operation>)
    requires OwnedQuery(q, created) && Creates(owner, groups, created)
    requires Truthful(created, finished, q.container, seen) && forall id :: id in seen ==> id in q.ids
    ensures Correlated(q, seen) && Consistent(seen)
  {
    hide SomeId, Readable, IsPending, Distinct;
  }

  /** What the answers to the first `n` chunks left, with operations of those chunks' keys. */
  ghost predicate TakenFrom(
    options: PollOptions, chunks: seq<seq<Resource>>, n: nat, submit: nat -> SubmitResult, created: map<OpId, Key>,
    groups: set<ChunkGroup>, q: PollQuery, failed: map<Key, Outcome>)
    requires n <= |chunks|
  {
    && QueryAfter(options, chunks, submit, n) == Some(q)
    && ChunksTaken(options.container, chunks, n, submit, groups, q, failed)
    && forall id :: id in q.ids ==> id in created && created[id] in TakenKeys(chunks[..n])
  }

  lemma {:induction false} ServedIsTaken(
    options: PollOptions, chunks: seq<seq<Resource>>, n: nat, submit: nat -> SubmitResult, owner: map<OpId, Key>,
    created: map<OpId, Key>)
    returns (groups: set<ChunkGroup>, q: PollQuery, failed: map<Key, Outcome>)
    requires ValidChunks(chunks) && n <= |chunks| && Serves(owner, chunks, submit, created)
    ensures TakenFrom(options, chunks, n, submit, created, groups, q, failed)
  {
    hide ValidChunks, Serves, ChunksTaken, QueryAfter, TakenKeys, TakenFrom;
    if n == 0 {
      groups, q, failed := {}, EmptyQuery(options), map[];
      NothingTakenYet(options, chunks, submit, created);
    } else {
      groups, q, failed := ServedIsTaken(options, chunks, n - 1, submit, owner, created);
      groups, q, failed := TakeServed(options, chunks, n - 1, submit, owner, created, groups, q, failed);
    }
  }

  lemma NothingTakenYet(
    options: PollOptions, chunks: seq<seq<Resource>>, submit: nat -> SubmitResult, created: map<OpId, Key>)
    ensures TakenFrom(options, chunks, 0, submit, created, {}, EmptyQuery(options), map[])
  {
    NothingTaken(options, chunks, submit);
    hide ChunksTaken;
  }

  lemma TakeServed(
    options: PollOptions, chunks: seq<seq<Resource>>, n: nat, submit: nat -> SubmitResult, owner: map<OpId, Key>,
    created: map<OpId, Key>, groups: set<ChunkGroup>, q: PollQuery, failed: map<Key, Outcome>)
    returns (groups': set<ChunkGroup>, q': PollQuery, failed': map<Key, Outcome>)
    requires ValidChunks(chunks) && n < |chunks| && Serves(owner, chunks, submit, created)
    requires TakenFrom(options, chunks, n, submit, created, groups, q, failed)
    ensures TakenFrom(options, chunks, n + 1, submit, created, groups', q', failed')
  {
    hide *;
    groups', q', failed' := groups, q, failed;
    if submit(n).SdkFailure? {
      failed' := failed + map k | k in KeySet(chunks[n])
        :: SubmissionFailureOutcome(options.container, chunks[n], k, submit(n).Acceptance(), submit(n).message);
      TakeFailedServed(options, chunks, n, submit, created, groups, q, failed, failed');
    } else {
      var ids := ServedIds(chunks, n, submit, owner, created);
      ServedIsNew(options, chunks, n, submit, created, groups, q, failed, ids);
      var g := ChunkGroup(KeysOf(chunks[n]), ids);
      groups', q' := groups + {g}, AddGroup(q, g);
      TakeAcceptedServed(options, chunks, n, submit, created, groups, q, failed, ids);
    }
  }

  lemma TakeFailedServed(
    options: PollOptions, chunks: seq<seq<Resource>>, n: nat, submit: nat -> SubmitResult, created: map<OpId, Key>,
    groups: set<ChunkGroup>, q: PollQuery, failed: map<Key, Outcome>, failed': map<Key, Outcome>)
    requires ValidChunks(chunks) && n < |chunks| && submit(n).SdkFailure?
    requires TakenFrom(options, chunks, n, submit, created, groups, q, failed)
    requires failed' == failed + map k | k in KeySet(chunks[n])
      :: SubmissionFailureOutcome(options.container, chunks[n], k, submit(n).Acceptance(), submit(n).message)
    ensures TakenFrom(options, chunks, n + 1, submit, created, groups, q, failed')
  {
    hide ValidChunks, ChunksTaken, KeySet, SubmissionFailureOutcome;
    TakeFailed(options.container, chunks, n, submit, groups, q, failed, failed');
    MoreTaken(chunks, n);
  }

  lemma MoreTaken(chunks: seq<seq<Resource>>, n: nat)
    requires n < |chunks|
    ensures TakenKeys(chunks[..n + 1]) == TakenKeys(chunks[..n]) + KeySet(chunks[n])
  {
    assert chunks[..n + 1][..n] == chunks[..n];
    hide KeySet;
  }

  lemma ServedIds(
    chunks: seq<seq<Resource>>, n: nat, submit: nat -> SubmitResult, owner: map<OpId, Key>, created: map<OpId, Key>)
    returns (ids: seq<OpId>)
    requires n < |chunks| && submit(n).Response? && Serves(owner, chunks, submit, created)
    ensures ResponseNames(submit(n).statuses, |chunks[n]|, {}, ids)
    ensures forall id :: id in ids ==> id in created && created[id] in KeySet(chunks[n])
  {
    hide ResponseNames, KeySet;
    assert ServesChunk(chunks[n], submit(n).statuses, created);
    ids :| ResponseNames(submit(n).statuses, |chunks[n]|, {}, ids) && forall id :: id in ids ==>
      id in created && created[id] in KeySet(chunks[n]);
  }

  /** Operations of this chunk's keys are none of the earlier chunks'. */
  lemma ServedIsNew(
    options: PollOptions, chunks: seq<seq<Resource>>, n: nat, submit: nat -> SubmitResult, created: map<OpId, Key>,
    groups: set<ChunkGroup>, q: PollQuery, failed: map<Key, Outcome>, ids: seq<OpId>)
    requires ValidChunks(chunks) && n < |chunks| && submit(n).Response?
    requires TakenFrom(options, chunks, n, submit, created, groups, q, failed)
    requires ResponseNames(submit(n).statuses, |chunks[n]|, {}, ids)
    requires forall id :: id in ids ==> id in created && created[id] in KeySet(chunks[n])
    ensures ResponseNames(submit(n).statuses, |chunks[n]|, Elements(q.ids), ids)
  {
    TakenIsEarlier(chunks, n, n);
    hide ValidChunks, ChunksTaken, QueryAfter, TakenKeys, KeySet, UsableStatus;
  }

  lemma TakeAcceptedServed(
    options: PollOptions, chunks: seq<seq<Resource>>, n: nat, submit: nat -> SubmitResult, created: map<OpId, Key>,
    groups: set<ChunkGroup>, q: PollQuery, failed: map<Key, Outcome>, ids: seq<OpId>)
    requires ValidChunks(chunks) && n < |chunks| && submit(n).Response?
    requires TakenFrom(options, chunks, n, submit, created, groups, q, failed)
    requires ResponseNames(submit(n).statuses, |chunks[n]|, Elements(q.ids), ids)
    requires forall id :: id in ids ==> id in created && created[id] in KeySet(chunks[n])
    ensures var g := ChunkGroup(KeysOf(chunks[n]), ids);
      TakenFrom(options, chunks, n + 1, submit, created, groups + {g}, AddGroup(q, g), failed)
  {
    hide ValidChunks, ChunksTaken, KeySet, KeysOf, ResponseNames, Refused, QueryNext;
    TakeAccepted(options.container, chunks, n, submit, groups, q, failed, ids);
    AcceptedNext(q, chunks[n], submit(n), ids);
    MoreTaken(chunks, n);
  }

  /**
   * A valid submission to a provider that serves it and tells the truth never fails, whichever of its
   * requests get through: the runs that fail have failed before submitting anything.
   */
  lemma ServedSubmissionSucceeds(
    input: ImportInput, submit: nat -> SubmitResult, poll: Poll, clock: nat -> real, chunks: seq<seq<Resource>>,
    owner: map<OpId, Key>, created: map<OpId, Key>, finished: set<OpId>)
    requires ValidImportInput(input) && IsGreedySplit(chunks, input.resources, input.MaxBytes())
    requires Serves(owner, chunks, submit, created)
    requires forall q :: QueryAfter(input.options, chunks, submit, |chunks|) == Some(q) ==>
      TruthfulPolls(q, poll, created, finished)
    ensures !SubmissionFails(input, submit, poll, clock, chunks)
  {
    ValidInput(input, chunks);
    hide *;
    SplitIsValid(chunks, input.resources);
    var groups, q, failed := ServedIsTaken(input.options, chunks, |chunks|, submit, owner, created);
    AllTakenFrom(input.options, chunks, submit, created, groups, q, failed);
    TakenAll(input.options.container, chunks, submit, groups, q, failed);
    ServedIsCreated(owner, input.options.container, chunks, submit, groups, q, failed, created);
    OperationsAreAnswered(q, groups, owner, created);
    forall error ensures !PollFails(q, poll, clock, error) {
      TruthfulPollingSucceeds(q, poll, clock, created, finished, error);
    }
    TakingSucceeded(input.options, chunks, submit, q, poll, clock);
    FailsIf(input, submit, poll, clock, chunks);
  }

  lemma AllTakenFrom(
    options: PollOptions, chunks: seq<seq<Resource>>, submit: nat -> SubmitResult, created: map<OpId, Key>,
    groups: set<ChunkGroup>, q: PollQuery, failed: map<Key, Outcome>)
    requires TakenFrom(options, chunks, |chunks|, submit, created, groups, q, failed)
    ensures QueryAfter(options, chunks, submit, |chunks|) == Some(q)
    ensures ChunksTaken(options.container, chunks, |chunks|, submit, groups, q, failed)
  {
    hide QueryAfter, ChunksTaken;
  }
}
