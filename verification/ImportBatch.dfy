/** One batch of the example migration: resume every item, await, submit, settle. */
module ImportBatch {
  import opened Basics
  import opened Chunking
  import opened ImportOutcomes
  import opened ImportPolling
  import opened ImportSubmission
  import opened ImportAwait
  import opened ImportRuns

  /** `Missing` stands for the driver's own defect check; the contract below rules it out. */
  datatype Settlement = Undecodable | SettledWith(outcome: Outcome) | Missing

  function Candidates(groups: seq<CandidateGroup>): (candidates: seq<Candidate>)
    ensures Groups(candidates) == groups
  {
    var candidates := seq(|groups|, i requires 0 <= i < |groups| =>
      Candidate(groups[i].ops, Some(groups[i].keys), groups[i].key));
    assert Groups(candidates) == groups;
    candidates
  }

  /** An item is settled with its blocked outcome, or with the answer of its await or submission. */
  ghost predicate SettledAs(
    journal: map<Key, JournalValue>, batch: seq<Resource>, c: Choice, k: Key, settlement: Settlement)
  {
    if Decision(journal, k).None? then settlement == Undecodable
    else k in Settled(journal, batch, c) && settlement == SettledWith(Settled(journal, batch, c)[k])
  }

  // ---------- Awaiting ----------

  lemma PollingAwaitEnds(q: PollQuery, poll: Poll, clock: nat -> real, rounds: nat,
                         r: Result<map<Key, Outcome>, ContractError>)
    requires rounds >= 1 && PollEnds(q, poll, clock, rounds, r) && r.Ok?
    ensures AwaitEnds(q, KnownAfter(q, poll, rounds))
    ensures Answers(q, KnownAfter(q, poll, rounds), ErrorsAfter(q, poll, rounds), r.value)
    ensures forall id :: id in KnownAfter(q, poll, rounds) ==> id in q.ids
  {
    hide StillPolling, RoundSucceeds, Answers, AllSettled, Covered, Consistent, ErrorsAfter, ValidPolledOperation,
         KnownAfter;
    PolledIsCorrelated(q, poll, rounds);
  }

  lemma NothingAwaitedSettles(options: PollOptions, journal: map<Key, JournalValue>, batch: seq<Resource>, c: Choice)
    requires AwaitGroups(journal, batch) == [] && c.seen == map[] && c.errors == {} && c.awaited == map[]
    ensures AwaitSettles(options, journal, batch, c)
  {
  }

  /** Awaiting fails on its request or on polling, with this error. */
  ghost predicate AwaitFails(
    options: PollOptions, groups: seq<CandidateGroup>, poll: Poll, clock: nat -> real, error: ContractError)
  {
    groups != [] && (!ValidAwaitInput(options, groups) || PollFails(AwaitQuery(options, groups), poll, clock, error))
  }

  /** Polling ended well after `rounds` rounds, knowing these operations. */
  ghost predicate PolledOut(
    q: PollQuery, poll: Poll, clock: nat -> real, rounds: nat, ops: map<OpId, Operation>, errors: set<OpId>,
    answer: map<Key, Outcome>)
  {
    && rounds >= 1 && PollEnds(q, poll, clock, rounds, Ok(answer))
    && ops == KnownAfter(q, poll, rounds) && errors == ErrorsAfter(q, poll, rounds)
  }

  /** Awaiting the batch ends well: nothing is awaited, or these operations were polled and so answered. */
  ghost predicate AwaitDrives(
    options: PollOptions, journal: map<Key, JournalValue>, batch: seq<Resource>, poll: Poll, clock: nat -> real,
    seen: map<OpId, Operation>, errors: set<OpId>, awaited: map<Key, Outcome>)
  {
    var groups := AwaitGroups(journal, batch);
    if groups == [] then seen == map[] && errors == {} && awaited == map[]
    else
      && ValidAwaitInput(options, groups)
      && exists rounds: nat :: PolledOut(AwaitQuery(options, groups), poll, clock, rounds, seen, errors, awaited)
  }

  lemma AwaitDrivesSettles(
    options: PollOptions, journal: map<Key, JournalValue>, batch: seq<Resource>, poll: Poll, clock: nat -> real, c: Choice)
    requires AwaitDrives(options, journal, batch, poll, clock, c.seen, c.errors, c.awaited)
    ensures AwaitSettles(options, journal, batch, c)
  {
    if AwaitGroups(journal, batch) == [] {
      NothingAwaitedSettles(options, journal, batch, c);
    } else {
      var q := AwaitQuery(options, AwaitGroups(journal, batch));
      var rounds: nat :| PolledOut(q, poll, clock, rounds, c.seen, c.errors, c.awaited);
      PollingAwaitEnds(q, poll, clock, rounds, Ok(c.awaited));
    }
    hide AwaitEnds, Answers, PollEnds, KnownAfter, ErrorsAfter, AwaitQuery, AwaitGroups, ValidAwaitInput;
  }

  method AwaitBatch(
    options: PollOptions, journal: map<Key, JournalValue>, batch: seq<Resource>, poll: Poll, clock: nat -> real)
    returns (r: Result<map<Key, Outcome>, ContractError>, ghost seen: map<OpId, Operation>, ghost errors: set<OpId>)
    requires ClockAdvances(options.Interval(), options.Timeout(), clock)
    ensures r.Ok? ==> AwaitDrives(options, journal, batch, poll, clock, seen, errors, r.value)
    ensures r.Err? ==> AwaitFails(options, AwaitGroups(journal, batch), poll, clock, r.error)
    ensures r.Ok? ==> forall error :: !AwaitFails(options, AwaitGroups(journal, batch), poll, clock, error)
  {
    hide AwaitGroups, PollEnds, PollFails, ClockAdvances, ValidAwaitInput, AwaitQuery, Answers, AwaitEnds, Requested,
         KnownAfter, ErrorsAfter;
    var groups := AwaitGroups(journal, batch);
    r, seen, errors := Ok(map[]), map[], {};
    if |groups| > 0 {
      ghost var rounds;
      r, rounds := AwaitOperations(options, Candidates(groups), poll, clock);
      if ValidAwaitInput(options, groups) {
        PollFailsExactly(AwaitQuery(options, groups), poll, clock, rounds, r);
      }
      if r.Ok? {
        ghost var q := AwaitQuery(options, groups);
        seen, errors := KnownAfter(q, poll, rounds), ErrorsAfter(q, poll, rounds);
        assert PolledOut(q, poll, clock, rounds, seen, errors, r.value);
      }
    }
  }

  // ---------- Submitting ----------

  lemma NothingSubmittedSettles(options: PollOptions, journal: map<Key, JournalValue>, batch: seq<Resource>, c: Choice)
    requires FreshResources(journal, batch) == [] && c.submitted == map[]
    requires c.sub == NoSubmission(options)
    ensures SubmitSettles(options, journal, batch, c)
  {
    assert PolledPart(c) == map[];
  }

  lemma {:induction false} TakenKeyIsInChunk(chunks: seq<seq<Resource>>, k: Key)
    requires k in TakenKeys(chunks)
    ensures exists i :: 0 <= i < |chunks| && k in KeySet(chunks[i])
  {
    var n := |chunks| - 1;
    if k !in KeySet(chunks[n]) {
      TakenKeyIsInChunk(chunks[..n], k);
      var i :| 0 <= i < n && k in KeySet(chunks[..n][i]);
      assert k in KeySet(chunks[i]);
    }
  }

  /** Every failed key got the failure of the chunk it was in. */
  lemma FailedIsFailure(options: PollOptions, chunks: seq<seq<Resource>>, submit: nat -> SubmitResult,
                        groups: set<ChunkGroup>, q: PollQuery, failed: map<Key, Outcome>, k: Key)
    requires ChunksTaken(options.container, chunks, |chunks|, submit, groups, q, failed) && k in failed
    ensures FailureOf(options, k, failed[k])
  {
    assert chunks[..|chunks|] == chunks;
    hide TakenKeys, AsksFor, ValidGroups, KeySet;
    assert k in TakenKeys(chunks) && k !in q.keys;
    TakenKeyIsInChunk(chunks, k);
    var i :| 0 <= i < |chunks| && k in KeySet(chunks[i]);
    assert ChunkTaken(options.container, chunks[i], submit(i), groups, failed);
    if submit(i).Response? {
      ResponseIsAsked(options.container, q, groups, chunks[i], submit(i), failed, k);
    }
  }

  lemma ResponseIsAsked(container: Name, q: PollQuery, groups: set<ChunkGroup>, chunk: seq<Resource>,
                        answer: SubmitResult, failed: map<Key, Outcome>, k: Key)
    requires ChunkTaken(container, chunk, answer, groups, failed) && answer.Response?
    requires AsksFor(q, groups) && k in KeySet(chunk)
    ensures k in q.keys
  {
    KeySetIsElements(chunk);
    var g :| g in groups && g.keys == KeysOf(chunk);
    assert SomeKey(groups, k);
  }

  lemma SubmissionTakesAll(input: ImportInput, submit: nat -> SubmitResult, s: Submission)
    requires ValidSubmission(input, submit, s)
    ensures ValidGroups(s.groups) && AsksFor(s.q, s.groups) && s.q.container == input.options.container
    ensures Elements(s.q.keys) !! s.failed.Keys
    ensures Elements(s.q.keys) + s.failed.Keys == KeySet(input.resources)
    ensures ChunksTaken(input.options.container, s.chunks, |s.chunks|, submit, s.groups, s.q, s.failed)
  {
    SplitIsValid(s.chunks, input.resources);
    assert s.chunks[..|s.chunks|] == s.chunks;
    hide ValidGroups, AsksFor, KeySet, TakenKeys, Correlated, Consistent, ValidResources, ChunkTaken;
  }

  lemma PolledIsPolledPart(c: Choice, polled: map<Key, Outcome>)
    requires c.submitted == polled + c.sub.failed && polled.Keys == Elements(c.sub.q.keys)
    requires Elements(c.sub.q.keys) !! c.sub.failed.Keys
    ensures PolledPart(c) == polled
  {
  }

  lemma SubmissionSettles(input: ImportInput, submit: nat -> SubmitResult, journal: map<Key, JournalValue>,
                          batch: seq<Resource>, c: Choice)
    requires ValidSubmission(input, submit, c.sub) && SubmissionAnswers(c.sub, c.submitted)
    requires input.resources == FreshResources(journal, batch)
    ensures SubmitSettles(input.options, journal, batch, c)
  {
    SubmissionTakesAll(input, submit, c.sub);
    forall k | k in c.sub.failed ensures FailureOf(input.options, k, c.sub.failed[k]) {
      FailedIsFailure(input.options, c.sub.chunks, submit, c.sub.groups, c.sub.q, c.sub.failed, k);
    }
    var polled :| c.submitted == polled + c.sub.failed && Answers(c.sub.q, c.sub.ops, c.sub.errors, polled);
    assert polled.Keys == Elements(c.sub.q.keys);
    hide ValidGroups, AsksFor, KeySet, ChunksTaken, FailureOf, Answers, FreshResources, ValidSubmission, PolledPart,
         SubmissionAnswers;
    PolledIsPolledPart(c, polled);
  }

  /** Submitting fails on its drafts, on a response to one of these chunks, or on polling. */
  ghost predicate SubmitFails(
    options: PollOptions, concurrency: Option<int>, drafts: seq<Resource>, chunks: seq<seq<Resource>>,
    submit: nat -> SubmitResult, poll: Poll, clock: nat -> real)
  {
    drafts != [] && SubmissionFails(ImportInput(options, drafts, None, concurrency), submit, poll, clock, chunks)
  }

  ghost predicate SplitsDrafts(
    options: PollOptions, concurrency: Option<int>, drafts: seq<Resource>, chunks: seq<seq<Resource>>)
  {
    var input := ImportInput(options, drafts, None, concurrency);
    ValidImportInput(input) ==> IsGreedySplit(chunks, drafts, input.MaxBytes())
  }

  /** Submitting the batch ends well: nothing is submitted, or this submission was made, polled and so answered. */
  ghost predicate SubmitDrives(
    options: PollOptions, concurrency: Option<int>, journal: map<Key, JournalValue>, batch: seq<Resource>,
    submit: nat -> SubmitResult, poll: Poll, clock: nat -> real, sub: Submission, submitted: map<Key, Outcome>)
  {
    var drafts := FreshResources(journal, batch);
    if drafts == [] then sub == NoSubmission(options) && submitted == map[]
    else
      && ValidSubmission(ImportInput(options, drafts, None, concurrency), submit, sub)
      && SubmissionAnswers(sub, submitted)
      && QueryAfter(options, sub.chunks, submit, |sub.chunks|) == Some(sub.q)
      && sub.q.interval > 0.0 && sub.q.timeout >= 0.0
      && exists rounds: nat :: PolledFor(sub.q, poll, clock, rounds, sub.ops, sub.errors)
  }

  function NoSubmission(options: PollOptions): Submission {
    Submission([], {}, EmptyQuery(options), map[], map[], {})
  }

  lemma SubmitDrivesSettles(
    options: PollOptions, concurrency: Option<int>, journal: map<Key, JournalValue>, batch: seq<Resource>,
    submit: nat -> SubmitResult, poll: Poll, clock: nat -> real, c: Choice)
    requires SubmitDrives(options, concurrency, journal, batch, submit, poll, clock, c.sub, c.submitted)
    ensures SubmitSettles(options, journal, batch, c)
  {
    hide FreshResources, ValidSubmission, SubmissionAnswers, SubmitSettles, PolledFor, QueryAfter;
    if FreshResources(journal, batch) == [] {
      NothingSubmittedSettles(options, journal, batch, c);
    } else {
      var input := ImportInput(options, FreshResources(journal, batch), None, concurrency);
      SubmissionSettles(input, submit, journal, batch, c);
    }
  }

  /** The outcomes of a submission record which of its keys the provider may have accepted. */
  lemma SubmitRecordsDoubts(
    options: PollOptions, concurrency: Option<int>, journal: map<Key, JournalValue>, batch: seq<Resource>,
    submit: nat -> SubmitResult, poll: Poll, clock: nat -> real, c: Choice)
    requires SubmitDrives(options, concurrency, journal, batch, submit, poll, clock, c.sub, c.submitted)
    requires c.doubted == Doubted(c.sub.chunks, submit)
    ensures RecordsDoubts(c)
  {
    hide FreshResources, ValidSubmission, SubmissionAnswers, PolledFor, QueryAfter;
    if FreshResources(journal, batch) != [] {
      var input := ImportInput(options, FreshResources(journal, batch), None, concurrency);
      SubmissionTakesAll(input, submit, c.sub);
      FailuresRecordDoubts(options.container, submit, c);
    }
  }

  lemma FailuresRecordDoubts(container: Name, submit: nat -> SubmitResult, c: Choice)
    requires ChunksTaken(container, c.sub.chunks, |c.sub.chunks|, submit, c.sub.groups, c.sub.q, c.sub.failed)
    requires c.doubted == Doubted(c.sub.chunks, submit)
    ensures RecordsDoubts(c)
  {
    FailuresAreRecorded(container, c.sub.chunks, submit, c.sub.groups, c.sub.q, c.sub.failed);
    hide ChunksTaken, KeySet;
    forall k | k in c.sub.failed
      ensures c.sub.failed[k].Indeterminate?
      ensures k in c.doubted <==> c.sub.failed[k].acceptance.UnknownAcceptance?
    {
      var j := FailedInChunk(container, c.sub.chunks, submit, c.sub.groups, c.sub.q, c.sub.failed, k);
      assert FailureRecorded(container, c.sub.chunks[j], submit(j), c.sub.failed, k);
    }
    forall k | k in c.doubted ensures k in c.sub.failed {
      var j: nat :| j < |c.sub.chunks| && k in KeySet(c.sub.chunks[j]) && submit(j).SdkFailure?;
      assert FailureRecorded(container, c.sub.chunks[j], submit(j), c.sub.failed, k);
    }
  }

  /** A failed key is in a chunk that failed. */
  lemma FailedInChunk(container: Name, chunks: seq<seq<Resource>>, submit: nat -> SubmitResult,
                      groups: set<ChunkGroup>, q: PollQuery, failed: map<Key, Outcome>, k: Key)
    returns (j: nat)
    requires ChunksTaken(container, chunks, |chunks|, submit, groups, q, failed) && k in failed
    ensures j < |chunks| && k in KeySet(chunks[j]) && submit(j).SdkFailure?
  {
    assert chunks[..|chunks|] == chunks;
    hide TakenKeys, AsksFor, ValidGroups, KeySet, SubmissionFailureOutcome;
    assert k in TakenKeys(chunks) && k !in q.keys;
    TakenKeyIsInChunk(chunks, k);
    j :| 0 <= j < |chunks| && k in KeySet(chunks[j]);
    assert ChunkTaken(container, chunks[j], submit(j), groups, failed);
    if submit(j).Response? {
      ResponseIsAsked(container, q, groups, chunks[j], submit(j), failed, k);
    }
  }

  method SubmitBatch(
    options: PollOptions, concurrency: Option<int>, journal: map<Key, JournalValue>, batch: seq<Resource>,
    submit: nat -> SubmitResult, poll: Poll, clock: nat -> real)
    returns (r: Result<map<Key, Outcome>, ContractError>, ghost sub: Submission)
    requires ClockAdvances(options.Interval(), options.Timeout(), clock)
    ensures r.Ok? ==> SubmitDrives(options, concurrency, journal, batch, submit, poll, clock, sub, r.value)
    ensures r.Err? <==>
      SubmitFails(options, concurrency, FreshResources(journal, batch), sub.chunks, submit, poll, clock)
    ensures SplitsDrafts(options, concurrency, FreshResources(journal, batch), sub.chunks)
    ensures r.Err? ==> !r.error.Uncovered?
  {
    hide FreshResources, ClockAdvances, ValidSubmission, SubmissionAnswers, KeySet, PolledFor, SubmissionFails,
         IsGreedySplit, RoundBound, QueryAfter;
    var drafts := FreshResources(journal, batch);
    r, sub := Ok(map[]), NoSubmission(options);
    if |drafts| > 0 {
      ghost var rounds;
      var input := ImportInput(options, drafts, None, concurrency);
      r, sub, rounds := SubmitAndAwait(input, submit, poll, clock);
    }
  }

  // ---------- The whole batch ----------

  method CollectBlocked(journal: map<Key, JournalValue>, batch: seq<Resource>) returns (outcomes: map<Key, Outcome>)
    ensures outcomes == BlockedOutcomes(journal, KeySet(batch))
  {
    hide Decision;
    outcomes := map[];
    for i := 0 to |batch|
      invariant outcomes == BlockedOutcomes(journal, KeySet(batch[..i]))
    {
      var k := batch[i].key;
      assert KeySet(batch[..i + 1]) == KeySet(batch[..i]) + {k} by {
        assert batch[..i + 1] == batch[..i] + [batch[i]];
      }
      var resume := Decision(journal, k);
      if resume.Some? && resume.value.Blocked? {
        outcomes := outcomes[k := resume.value.outcome];
      }
    }
    assert batch[..|batch|] == batch;
  }

  lemma {:induction false} QueryAsksEach(options: PollOptions, groups: seq<CandidateGroup>, k: Key)
    ensures k in AwaitQuery(options, groups).keys <==> Requested(groups, k)
  {
    if groups != [] {
      var n := |groups| - 1;
      QueryAsksEach(options, groups[..n], k);
      assert groups == groups[..n] + [groups[n]];
    }
  }

  lemma AwaitedIsRequested(journal: map<Key, JournalValue>, batch: seq<Resource>, k: Key)
    requires k in KeySet(batch) && Awaits(journal, k)
    ensures Requested(AwaitGroups(journal, batch), k)
  {
    assert GroupOf(journal, k).key == k;
    InAwaitGroups(journal, batch, GroupOf(journal, k));
  }

  lemma SubmitIsFresh(journal: map<Key, JournalValue>, batch: seq<Resource>, k: Key)
    requires k in KeySet(batch) && Decision(journal, k) == Some(Submit)
    ensures k in KeySet(FreshResources(journal, batch))
  {
    BatchKinds(World(map[], {}, multiset{}, journal), batch, k);
  }

  lemma SubmittedIsSettled(options: PollOptions, journal: map<Key, JournalValue>, batch: seq<Resource>, c: Choice, k: Key)
    requires SubmitSettles(options, journal, batch, c) && k in KeySet(FreshResources(journal, batch))
    ensures k in c.submitted
  {
    hide ValidGroups, AsksFor, KeySet, FreshResources, FailureOf;
    assert PolledPart(c).Keys == Elements(c.sub.q.keys);
  }

  lemma AwaitedIsSettled(options: PollOptions, journal: map<Key, JournalValue>, batch: seq<Resource>, c: Choice, k: Key)
    requires AwaitSettles(options, journal, batch, c) && Requested(AwaitGroups(journal, batch), k)
    ensures k in c.awaited
  {
    hide AwaitEnds, AwaitGroups, AwaitQuery, Requested;
    QueryAsksEach(options, AwaitGroups(journal, batch), k);
    assert k in Elements(AwaitQuery(options, AwaitGroups(journal, batch)).keys);
  }

  /** Every decodable item of the batch has an outcome. */
  lemma SettlesEvery(options: PollOptions, journal: map<Key, JournalValue>, batch: seq<Resource>, c: Choice, k: Key)
    requires AwaitSettles(options, journal, batch, c) && SubmitSettles(options, journal, batch, c)
    requires k in KeySet(batch) && Decision(journal, k).Some?
    ensures k in Settled(journal, batch, c)
  {
    hide AwaitSettles, SubmitSettles, Decision, AwaitGroups, FreshResources, KeySet, Requested;
    match Decision(journal, k).value
    case Await(_) =>
      AwaitedIsRequested(journal, batch, k);
      AwaitedIsSettled(options, journal, batch, c, k);
    case Submit =>
      SubmitIsFresh(journal, batch, k);
      SubmittedIsSettled(options, journal, batch, c, k);
    case Blocked(_) =>
  }

  lemma InKeySet(batch: seq<Resource>, i: nat)
    requires i < |batch|
    ensures batch[i].key in KeySet(batch)
  {
  }

  /** How the provider and the clock answer one run of the driver. */
  datatype Environment = Environment(
    concurrency: Option<int>, submit: nat -> SubmitResult, awaitPoll: Poll, awaitClock: nat -> real,
    submitPoll: Poll, submitClock: nat -> real)

  /** The driver's run of the batch in this environment ends well, with these answers. */
  ghost predicate Drives(
    options: PollOptions, journal: map<Key, JournalValue>, batch: seq<Resource>, e: Environment, c: Choice)
  {
    && AwaitDrives(options, journal, batch, e.awaitPoll, e.awaitClock, c.seen, c.errors, c.awaited)
    && SubmitDrives(options, e.concurrency, journal, batch, e.submit, e.submitPoll, e.submitClock, c.sub, c.submitted)
    && c.doubted == Doubted(c.sub.chunks, e.submit)
  }

  /**
   * Whatever the provider answers, a batch that ends without a contract error settles every item it
   * could decode: the outcome its driver would miss is always there.
   */
  method ProcessBatch(
    options: PollOptions, concurrency: Option<int>, journal: map<Key, JournalValue>, batch: seq<Resource>,
    submit: nat -> SubmitResult, awaitPoll: Poll, awaitClock: nat -> real, submitPoll: Poll, submitClock: nat -> real)
    returns (r: Result<seq<Settlement>, ContractError>, ghost c: Choice)
    requires ClockAdvances(options.Interval(), options.Timeout(), awaitClock)
    requires ClockAdvances(options.Interval(), options.Timeout(), submitClock)
    ensures r.Ok? ==>
      Drives(options, journal, batch,
             Environment(concurrency, submit, awaitPoll, awaitClock, submitPoll, submitClock), c)
    ensures r.Ok? ==> AwaitSettles(options, journal, batch, c) && SubmitSettles(options, journal, batch, c)
    ensures r.Ok? ==> RecordsDoubts(c)
    ensures r.Ok? ==> |r.value| == |batch|
    ensures r.Ok? ==> forall i :: 0 <= i < |batch| ==>
      SettledAs(journal, batch, c, batch[i].key, r.value[i]) && r.value[i] != Missing
    ensures r.Err? <==>
      || (exists error :: AwaitFails(options, AwaitGroups(journal, batch), awaitPoll, awaitClock, error))
      || SubmitFails(options, concurrency, FreshResources(journal, batch), c.sub.chunks, submit, submitPoll, submitClock)
    ensures r.Err? ==>
      || AwaitFails(options, AwaitGroups(journal, batch), awaitPoll, awaitClock, r.error)
      || (SplitsDrafts(options, concurrency, FreshResources(journal, batch), c.sub.chunks) && !r.error.Uncovered?)
  {
    hide AwaitSettles, SubmitSettles, ClockAdvances, Decision, KeySet, BlockedOutcomes, SettledAs, AwaitFails,
         SubmitFails, SplitsDrafts, AwaitDrives, SubmitDrives, RecordsDoubts, Doubted;
    c := Choice(map[], {}, map[], NoSubmission(options), map[], {}, map[], {});
    var outcomes := CollectBlocked(journal, batch);
    ghost var seen, errors, sub;
    var awaited, submitted;
    awaited, seen, errors := AwaitBatch(options, journal, batch, awaitPoll, awaitClock);
    if awaited.Err? {
      return Err(awaited.error), c;
    }
    outcomes := outcomes + awaited.value;
    submitted, sub := SubmitBatch(options, concurrency, journal, batch, submit, submitPoll, submitClock);
    c := c.(sub := sub);
    if submitted.Err? {
      return Err(submitted.error), c;
    }
    outcomes := outcomes + submitted.value;
    c := Choice(seen, errors, awaited.value, sub, submitted.value, Doubted(sub.chunks, submit), map[], {});
    AwaitDrivesSettles(options, journal, batch, awaitPoll, awaitClock, c);
    SubmitDrivesSettles(options, concurrency, journal, batch, submit, submitPoll, submitClock, c);
    SubmitRecordsDoubts(options, concurrency, journal, batch, submit, submitPoll, submitClock, c);
    var settlements := SettleAll(options, journal, batch, outcomes, c);
    r := Ok(settlements);
  }

  method SettleAll(options: PollOptions, journal: map<Key, JournalValue>, batch: seq<Resource>,
                   outcomes: map<Key, Outcome>, ghost c: Choice)
    returns (settlements: seq<Settlement>)
    requires AwaitSettles(options, journal, batch, c) && SubmitSettles(options, journal, batch, c)
    requires outcomes == Settled(journal, batch, c)
    ensures |settlements| == |batch|
    ensures forall i :: 0 <= i < |batch| ==>
      SettledAs(journal, batch, c, batch[i].key, settlements[i]) && settlements[i] != Missing
  {
    hide AwaitSettles, SubmitSettles, Decision, KeySet, Settled;
    settlements := [];
    for i := 0 to |batch|
      invariant |settlements| == i
      invariant forall j :: 0 <= j < i ==>
        SettledAs(journal, batch, c, batch[j].key, settlements[j]) && settlements[j] != Missing
    {
      var k := batch[i].key;
      var settlement :=
        if Decision(journal, k).None? then Undecodable
        else if k in outcomes then SettledWith(outcomes[k])
        else Missing;
      InKeySet(batch, i);
      if Decision(journal, k).Some? {
        SettlesEvery(options, journal, batch, c, k);
      }
      settlements := settlements + [settlement];
    }
  }

  // ---------- Resuming what a submission left open ----------

  predicate LeftOpen(outcome: Outcome) {
    outcome.PendingOutcome? || (outcome.Indeterminate? && outcome.acceptance.Accepted?)
  }

  /** Whatever the provider answered, each open outcome resumes as an await of a group with its key. */
  lemma OpenOutcomeResumes(
    input: ImportInput, submit: nat -> SubmitResult, s: Submission, outcomes: map<Key, Outcome>, k: Key)
    requires ValidSubmission(input, submit, s) && SubmissionAnswers(s, outcomes)
    requires k in outcomes && LeftOpen(outcomes[k])
    ensures DecisionOn(outcomes[k], k).Some? && DecisionOn(outcomes[k], k).value.Await?
    ensures DecisionOn(outcomes[k], k).value.group.key == k && Awaitable(DecisionOn(outcomes[k], k).value.group)
  {
    SubmissionTakesAll(input, submit, s);
    var polled :| outcomes == polled + s.failed && Answers(s.q, s.ops, s.errors, polled);
    assert polled.Keys == Elements(s.q.keys);
    if k in s.failed {
      FailedIsFailure(input.options, s.chunks, submit, s.groups, s.q, s.failed, k);
      assert false;
    }
    hide ValidSubmission, ChunksTaken, SubmissionAnswers, KeySet, ValidGroups, AsksFor;
    PolledOpenResumes(s.q, s.groups, s.ops, s.errors, polled, k);
  }

  lemma PolledOpenResumes(q: PollQuery, groups: set<ChunkGroup>, ops: map<OpId, Operation>, errors: set<OpId>,
                          polled: map<Key, Outcome>, k: Key)
    requires ValidGroups(groups) && AsksFor(q, groups) && Correlated(q, ops) && Consistent(ops)
    requires Answers(q, ops, errors, polled) && k in q.keys && k in polled && LeftOpen(polled[k])
    ensures DecisionOn(polled[k], k).Some? && DecisionOn(polled[k], k).value.Await?
    ensures DecisionOn(polled[k], k).value.group.key == k && Awaitable(DecisionOn(polled[k], k).value.group)
  {
    hide AsksFor, ValidGroups, Correlated, TimeoutGroup, DecisionOn, TimeoutOutcome;
    if k in KnownKeys(ops) {
      var id :| id in ops && ops[id].key == k;
      PendingResumes(q, groups, ops, polled[k], k, id);
    } else {
      TimeoutIsAwaitable(q, groups, ops, k);
      TimeoutHasOperations(q, ops, k);
      TimeoutDecision(q, ops, errors, k);
    }
  }

  lemma TimeoutHasOperations(q: PollQuery, ops: map<OpId, Operation>, k: Key)
    requires Awaitable(TimeoutGroup(q, ops, k))
    ensures TimeoutGroup(q, ops, k).ops != []
  {
  }

  lemma PendingResumes(q: PollQuery, groups: set<ChunkGroup>, ops: map<OpId, Operation>, outcome: Outcome, k: Key,
                       id: OpId)
    requires ValidGroups(groups) && AsksFor(q, groups) && Correlated(q, ops) && k in q.keys
    requires id in ops && ops[id].key == k && OutcomeFromOperation(ops[id], q.container) == Ok(outcome)
    requires LeftOpen(outcome)
    ensures DecisionOn(outcome, k).Some? && DecisionOn(outcome, k).value.Await?
    ensures DecisionOn(outcome, k).value.group.key == k && Awaitable(DecisionOn(outcome, k).value.group)
  {
    assert id in q.ids && ops[id].id == id;
    assert SomeId(groups, id) && SomeKey(groups, k);
    hide Correlated, AsksFor, SomeId, SomeKey;
    NamedByGroups(groups, id, k);
  }

  lemma NamedByGroups(groups: set<ChunkGroup>, id: OpId, k: Key)
    requires ValidGroups(groups) && SomeId(groups, id) && SomeKey(groups, k)
    ensures !id.blank && !k.blank
  {
  }

  function ResumedGroups(outcomes: map<Key, Outcome>, keys: seq<Key>): (groups: seq<CandidateGroup>)
    requires forall k :: k in keys ==> k in outcomes
    requires forall k :: k in keys ==> DecisionOn(outcomes[k], k).Some? && DecisionOn(outcomes[k], k).value.Await?
  {
    seq(|keys|, i requires 0 <= i < |keys| => DecisionOn(outcomes[keys[i]], keys[i]).value.group)
  }

  /** So the open outcomes of any submission, once journaled, are together a valid await. */
  lemma OpenOutcomesAreAwaited(
    input: ImportInput, submit: nat -> SubmitResult, s: Submission, outcomes: map<Key, Outcome>, keys: seq<Key>)
    requires ValidSubmission(input, submit, s) && SubmissionAnswers(s, outcomes)
    requires keys != [] && Distinct(keys) && forall k :: k in keys ==> k in outcomes && LeftOpen(outcomes[k])
    ensures forall k :: k in keys ==> DecisionOn(outcomes[k], k).Some? && DecisionOn(outcomes[k], k).value.Await?
    ensures ValidAwaitInput(input.options, ResumedGroups(outcomes, keys))
  {
    assert input.options.Valid();
    hide ValidSubmission, SubmissionAnswers, DecisionOn, LeftOpen, Awaitable, AwaitableGroups, ResumedGroups, Distinct;
    forall k | k in keys
      ensures DecisionOn(outcomes[k], k).Some? && DecisionOn(outcomes[k], k).value.Await?
      ensures DecisionOn(outcomes[k], k).value.group.key == k && Awaitable(DecisionOn(outcomes[k], k).value.group)
    {
      OpenOutcomeResumes(input, submit, s, outcomes, k);
    }
    GroupsAreAwaitable(outcomes, keys);
  }

  lemma GroupsAreAwaitable(outcomes: map<Key, Outcome>, keys: seq<Key>)
    requires Distinct(keys) && forall k :: k in keys ==> k in outcomes
    requires forall k :: k in keys ==> DecisionOn(outcomes[k], k).Some? && DecisionOn(outcomes[k], k).value.Await?
    requires forall k :: k in keys ==>
      DecisionOn(outcomes[k], k).value.group.key == k && Awaitable(DecisionOn(outcomes[k], k).value.group)
    ensures AwaitableGroups(ResumedGroups(outcomes, keys)) && |ResumedGroups(outcomes, keys)| == |keys|
  {
    hide DecisionOn, Awaitable;
    var groups := ResumedGroups(outcomes, keys);
    assert forall i :: 0 <= i < |groups| ==> keys[i] in keys && groups[i].key == keys[i] && Awaitable(groups[i]);
  }

  // ---------- With a conforming provider ----------

  /**
   * When the provider names true keys and each accepted chunk creates one operation per key, a
   * settled batch is one run of the machine whose histories are proved safe.
   */
  lemma SettledBatchIsRun(options: PollOptions, w: World, batch: seq<Resource>, c: Choice)
    requires AwaitSettles(options, w.journal, batch, c) && SubmitSettles(options, w.journal, batch, c) && RecordsDoubts(c)
    requires Distinct(KeysOf(batch)) && w.finished <= c.finished <= w.owner.Keys + c.created.Keys
    requires Truthful(w.owner, c.finished, options.container, c.seen)
    requires Creates(w.owner, c.sub.groups, c.created) && Truthful(c.created, c.finished, options.container, c.sub.ops)
    ensures Run(options, w, batch, c, AfterRun(w, batch, c))
  {
    hide AwaitSettles, SubmitSettles, Truthful, Creates, Distinct, KeysOf, Settled, RecordsDoubts;
  }

  /** Operations answered truthfully in every polling round are truthfully known. */
  lemma {:induction false} TruthfulPollsAreKnown(
    q: PollQuery, poll: Poll, n: nat, owner: map<OpId, Key>, finished: set<OpId>)
    requires forall m, id :: 0 <= m < n && id in q.ids && poll(m, id).PollSuccess? ==>
      Truthful(owner, finished, q.container, map[id := poll(m, id).operation])
    ensures Truthful(owner, finished, q.container, KnownAfter(q, poll, n))
  {
    if n > 0 {
      TruthfulPollsAreKnown(q, poll, n - 1, owner, finished);
      TruthfulOneMore(q, poll, n, owner, finished);
    }
  }

  lemma TruthfulOneMore(q: PollQuery, poll: Poll, n: nat, owner: map<OpId, Key>, finished: set<OpId>)
    requires n > 0 && Truthful(owner, finished, q.container, KnownAfter(q, poll, n - 1))
    requires forall id :: id in q.ids && poll(n - 1, id).PollSuccess? ==>
      Truthful(owner, finished, q.container, map[id := poll(n - 1, id).operation])
    ensures Truthful(owner, finished, q.container, KnownAfter(q, poll, n))
  {
    hide *;
    var before, after := KnownAfter(q, poll, n - 1), KnownAfter(q, poll, n);
    forall id | id in after ensures Truthful(owner, finished, q.container, map[id := after[id]]) {
      KnownFromPoll(q, poll, n, id);
      if id in before && after[id] == before[id] {
        TruthfulPart(owner, finished, q.container, before, id);
      }
    }
    TruthfulWhole(owner, finished, q.container, after);
  }

  lemma KnownFromPoll(q: PollQuery, poll: Poll, n: nat, id: OpId)
    requires n > 0 && id in KnownAfter(q, poll, n)
    ensures
      || (id in KnownAfter(q, poll, n - 1) && KnownAfter(q, poll, n)[id] == KnownAfter(q, poll, n - 1)[id])
      || (id in q.ids && poll(n - 1, id).PollSuccess? && KnownAfter(q, poll, n)[id] == poll(n - 1, id).operation)
  {
  }

  lemma TruthfulPart(
    owner: map<OpId, Key>, finished: set<OpId>, container: Name, seen: map<OpId, Operation>, id: OpId)
    requires Truthful(owner, finished, container, seen) && id in seen
    ensures Truthful(owner, finished, container, map[id := seen[id]])
  {
    hide Readable, IsPending;
  }

  lemma TruthfulWhole(owner: map<OpId, Key>, finished: set<OpId>, container: Name, seen: map<OpId, Operation>)
    requires forall id :: id in seen ==> Truthful(owner, finished, container, map[id := seen[id]])
    ensures Truthful(owner, finished, container, seen)
  {
    hide Readable, IsPending;
    forall id | id in seen
      ensures id in owner && seen[id].id == id && seen[id].container == container && seen[id].key == owner[id]
      ensures Readable(seen[id]) && (!IsPending(seen[id].state) ==> id in finished)
    {
      var one := map[id := seen[id]];
      assert Truthful(owner, finished, container, one) && id in one;
    }
  }
}
