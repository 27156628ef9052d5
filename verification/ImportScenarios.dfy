/** Runs the driver can make: one round of polling before the deadline, and the answers it leaves. */
module ImportScenarios {
  import opened Basics
  import opened Chunking
  import opened ImportOutcomes
  import opened ImportPolling
  import opened ImportSubmission
  import opened ImportAwait
  import opened ImportRuns
  import opened ImportTogether
  import opened ImportBatch
  import opened ImportDriver

  // ---------- One round before the deadline ----------

  /** Every poll of these operations gets through, and no other. */
  function OncePoll(seen: map<OpId, Operation>): Poll {
    (n: nat, id: OpId) => if id in seen then PollSuccess(seen[id]) else PollFailure
  }

  /** The deadline has passed after the first round. */
  function DeadlineClock(timeout: real): nat -> real {
    (n: nat) => if n == 0 then 0.0 else timeout
  }

  lemma DeadlineClockAdvances(interval: real, timeout: real)
    requires interval > 0.0 && timeout >= 0.0
    ensures ClockAdvances(interval, timeout, DeadlineClock(timeout))
  {
    var clock := DeadlineClock(timeout);
    forall n: nat | n >= 1 ensures SleepTakesTime(interval, timeout, clock, n) {
      assert clock(n) == timeout && clock(n + 1) == timeout && clock(0) == 0.0;
    }
  }

  ghost function SeenBy(seen: map<OpId, Operation>, k: Key): OpId
    requires k in KnownKeys(seen)
  {
    var id :| id in seen && seen[id].key == k;
    id
  }

  /** The answer to a request of which these operations are seen. */
  ghost function AnswerTo(q: PollQuery, seen: map<OpId, Operation>, errors: set<OpId>): map<Key, Outcome>
    requires Consistent(seen)
  {
    map k | k in q.keys ::
      if k in KnownKeys(seen) then OutcomeFromOperation(seen[SeenBy(seen, k)], q.container).value
      else TimeoutOutcome(q, seen, errors, k)
  }

  lemma AnswerAnswers(q: PollQuery, seen: map<OpId, Operation>, errors: set<OpId>)
    requires Consistent(seen)
    ensures Answers(q, seen, errors, AnswerTo(q, seen, errors))
  {
    hide TimeoutOutcome, OutcomeFromOperation;
    var answer := AnswerTo(q, seen, errors);
    assert answer.Keys == Elements(q.keys);
    forall id | id in seen && seen[id].key in q.keys
      ensures OutcomeFromOperation(seen[id], q.container) == Ok(answer[seen[id].key])
    {
      assert seen[id].key in KnownKeys(seen);
      assert SeenBy(seen, seen[id].key) == id;
    }
  }

  lemma OnceKnown(q: PollQuery, seen: map<OpId, Operation>)
    requires forall id :: id in seen ==> id in q.ids
    ensures KnownAfter(q, OncePoll(seen), 1) == seen
    ensures ErrorsAfter(q, OncePoll(seen), 1) == Elements(q.ids) - seen.Keys
    ensures RoundSucceeds(q, OncePoll(seen), 0) <==> Correlated(q, seen) && Consistent(seen)
  {
    hide Consistent, ValidPolledOperation;
    var poll := OncePoll(seen);
    assert KnownAfter(q, poll, 0) == map[];
    assert KnownAfter(q, poll, 1) == seen;
  }

  /** One round, in which `seen` is seen and the deadline passes, ends polling one way or the other. */
  lemma OnceEnds(q: PollQuery, seen: map<OpId, Operation>)
    requires forall id :: id in seen ==> id in q.ids
    ensures AwaitEnds(q, seen) ==>
      var errors := Elements(q.ids) - seen.Keys;
      PolledOut(q, OncePoll(seen), DeadlineClock(q.timeout), 1, seen, errors, AnswerTo(q, seen, errors))
    ensures !AwaitEnds(q, seen) ==> exists error :: PollFails(q, OncePoll(seen), DeadlineClock(q.timeout), error)
  {
    OnceKnown(q, seen);
    hide RoundSucceeds, KnownAfter, ErrorsAfter, Answers, Correlated, Consistent, AllSettled, Covered, AnswerTo;
    var poll, clock, errors := OncePoll(seen), DeadlineClock(q.timeout), Elements(q.ids) - seen.Keys;
    if AwaitEnds(q, seen) {
      AnswerAnswers(q, seen, errors);
      assert clock(1) - clock(0) >= q.timeout;
      assert PollEnds(q, poll, clock, 1, Ok(AnswerTo(q, seen, errors)));
    } else {
      assert PollEnds(q, poll, clock, 1, Err(EmptyInput));
      assert PollFails(q, poll, clock, EmptyInput);
    }
  }

  lemma OnceIsTruthful(q: PollQuery, seen: map<OpId, Operation>, owner: map<OpId, Key>, finished: set<OpId>)
    requires Truthful(owner, finished, q.container, seen)
    ensures TruthfulPolls(q, OncePoll(seen), owner, finished)
  {
    hide Truthful;
    var poll := OncePoll(seen);
    forall n: nat, id | id in q.ids && poll(n, id).PollSuccess?
      ensures Truthful(owner, finished, q.container, map[id := poll(n, id).operation])
    {
      TruthfulPart(owner, finished, q.container, seen, id);
    }
  }

  // ---------- When awaiting fails, in the driver's terms ----------

  lemma SomeClockAdvances(interval: real, timeout: real) returns (clock: nat -> real)
    ensures ClockAdvances(interval, timeout, clock)
  {
    if interval > 0.0 && timeout >= 0.0 {
      clock := DeadlineClock(timeout);
      DeadlineClockAdvances(interval, timeout);
    } else {
      clock := (n: nat) => 0.0;
      forall n: nat | n >= 1 ensures SleepTakesTime(interval, timeout, clock, n) {
        assert clock(n) == 0.0 && clock(n + 1) == 0.0 && clock(0) == 0.0;
      }
    }
  }

  lemma RefusedAwaitFails(options: PollOptions, w: World, batch: seq<Resource>)
    requires AwaitGroups(w.journal, batch) != [] && !options.Valid()
    ensures !AwaitSucceeds(options, w, batch)
  {
    var q := AwaitQuery(options, AwaitGroups(w.journal, batch));
    var clock := SomeClockAdvances(options.Interval(), options.Timeout());
    NothingIsTruthful(w.owner, {}, q.container);
    OnceIsTruthful(q, map[], w.owner, {});
    hide ClockAdvances, AwaitGroups, AwaitQuery, TruthfulPolls, PollFails;
    assert AwaitFails(options, AwaitGroups(w.journal, batch), OncePoll(map[]), clock, EmptyInput);
    assert AwaitFailsIn(options, w, batch, OncePoll(map[]), clock, {});
  }

  lemma EndlessAwaitFails(options: PollOptions, w: World, batch: seq<Resource>)
    requires AwaitGroups(w.journal, batch) != [] && options.Valid() && !AlwaysEnds(options, w, batch)
    ensures !AwaitSucceeds(options, w, batch)
  {
    var groups := AwaitGroups(w.journal, batch);
    var q := AwaitQuery(options, groups);
    hide ClockAdvances, AwaitGroups, AwaitQuery, TruthfulPolls, PollFails, Truthful, AwaitEnds, ValidAwaitInput;
    var finished, seen :| Truthful(w.owner, finished, q.container, seen) && (forall id :: id in seen ==> id in q.ids)
      && !AwaitEnds(q, seen);
    OnceEnds(q, seen);
    OnceIsTruthful(q, seen, w.owner, finished);
    DeadlineClockAdvances(options.Interval(), options.Timeout());
    var error :| PollFails(q, OncePoll(seen), DeadlineClock(q.timeout), error);
    assert AwaitFails(options, groups, OncePoll(seen), DeadlineClock(q.timeout), error);
    assert AwaitFailsIn(options, w, batch, OncePoll(seen), DeadlineClock(q.timeout), finished);
  }

  lemma NothingToAwait(options: PollOptions, w: World, batch: seq<Resource>)
    requires AwaitGroups(w.journal, batch) == []
    ensures AwaitSucceeds(options, w, batch)
  {
  }

  /**
   * Awaiting a batch never fails, however long it polls and whatever is truthfully answered, exactly
   * when it awaits nothing, or the options are valid and no two awaited operations belong to one key.
   */
  lemma AwaitSucceedsExactly(options: PollOptions, w: World, batch: seq<Resource>)
    requires TrueJournal(w) && Distinct(KeysOf(batch))
    ensures AwaitSucceeds(options, w, batch) <==>
      AwaitGroups(w.journal, batch) == [] || (options.Valid() && NoSharedOwner(w, batch))
  {
    AwaitFailsExactlyOnSharedOwner(options, w, batch);
    hide TrueJournal, Distinct, AwaitSucceeds, NoSharedOwner, AlwaysEnds, AwaitGroups;
    if AwaitGroups(w.journal, batch) == [] {
      NothingToAwait(options, w, batch);
    } else if !options.Valid() {
      RefusedAwaitFails(options, w, batch);
    } else if NoSharedOwner(w, batch) {
      EndingAwaitSucceeds(options, w, batch);
    } else {
      EndlessAwaitFails(options, w, batch);
    }
  }

  // ---------- A run in which one operation is seen cancelled and every submission is rejected ----------

  function CancelledOperation(options: PollOptions, k: Key, id: OpId): Operation {
    Operation(id, options.container, k, Canceled, None)
  }

  function RejectAll(): nat -> SubmitResult {
    (n: nat) => SdkFailure(true, SdkMessage(400))
  }

  /** The environment of that run. */
  ghost function Cancelling(options: PollOptions, k: Key, id: OpId): Environment {
    var clock := DeadlineClock(options.Timeout());
    Environment(None, RejectAll(), OncePoll(map[id := CancelledOperation(options, k, id)]), clock, OncePoll(map[]), clock)
  }

  lemma CancelledIsTruthful(options: PollOptions, owner: map<OpId, Key>, finished: set<OpId>, k: Key, id: OpId)
    requires id in owner && owner[id] == k && id in finished
    ensures Truthful(owner, finished, options.container, map[id := CancelledOperation(options, k, id)])
    ensures Readable(CancelledOperation(options, k, id))
  {
  }

  lemma CancelledEnds(options: PollOptions, w: World, batch: seq<Resource>, k: Key, id: OpId)
    requires TrueJournal(w) && Distinct(KeysOf(batch)) && id in w.owner && w.owner[id] == k
    requires Listed(AwaitGroups(w.journal, batch), id)
    ensures var q, seen := AwaitQuery(options, AwaitGroups(w.journal, batch)), map[id := CancelledOperation(options, k, id)];
      id in q.ids && AwaitEnds(q, seen)
  {
    hide *;
    var q, operation := AwaitQuery(options, AwaitGroups(w.journal, batch)), CancelledOperation(options, k, id);
    AwaitQueryOf(options, w, batch);
    ListedIsAsked(q, AwaitGroups(w.journal, batch), id);
    CancelledIsTruthful(options, w.owner, w.finished + {id}, k, id);
    AwaitIsCorrelatedAndCovered(options, w, batch, w.finished + {id}, map[id := operation]);
    SeenAloneEnds(q, id, operation);
  }

  lemma ListedIsAsked(q: PollQuery, groups: seq<CandidateGroup>, id: OpId)
    requires AsksForGroups(q, groups) && Listed(groups, id)
    ensures id in q.ids
  {
    hide Listed, Requested, Allowed, Distinct;
  }

  lemma SeenAloneEnds(q: PollQuery, id: OpId, operation: Operation)
    requires Correlated(q, map[id := operation]) && Readable(operation)
    requires AllSettled(q, map[id := operation]) ==> Covered(q, map[id := operation])
    ensures AwaitEnds(q, map[id := operation])
  {
    hide Correlated, AllSettled, Covered, Readable;
  }

  /** Awaiting ends well, and the key of the cancelled operation may be submitted again. */
  lemma CancelledAwait(options: PollOptions, w: World, batch: seq<Resource>, k: Key, id: OpId)
    returns (errors: set<OpId>, awaited: map<Key, Outcome>)
    requires TrueJournal(w) && Distinct(KeysOf(batch)) && id in w.owner && w.owner[id] == k
    requires Listed(AwaitGroups(w.journal, batch), id) && BatchAccepted(options, w.journal, batch)
    ensures var e, seen := Cancelling(options, k, id), map[id := CancelledOperation(options, k, id)];
      && AwaitDrives(options, w.journal, batch, e.awaitPoll, e.awaitClock, seen, errors, awaited)
      && TruthfulPolls(AwaitQuery(options, AwaitGroups(w.journal, batch)), e.awaitPoll, w.owner, w.finished + {id})
    ensures k in awaited ==> DecisionOn(awaited[k], k) == Some(Submit)
  {
    var groups := AwaitGroups(w.journal, batch);
    var q, seen := AwaitQuery(options, groups), map[id := CancelledOperation(options, k, id)];
    CancelledEnds(options, w, batch, k, id);
    CancelledIsTruthful(options, w.owner, w.finished + {id}, k, id);
    assert groups != [] && ValidAwaitInput(options, groups);
    hide AwaitGroups, AwaitQuery, AwaitEnds, Truthful, TruthfulPolls, ValidAwaitInput, AnswerTo, PolledOut, TrueJournal,
         Listed, CancelledOperation, BatchAccepted;
    OnceEnds(q, seen);
    OnceIsTruthful(q, seen, w.owner, w.finished + {id});
    errors := Elements(q.ids) - seen.Keys;
    awaited := AnswerTo(q, seen, errors);
    CancelledAnswer(options, q, seen, errors, k, id);
  }

  lemma CancelledAnswer(
    options: PollOptions, q: PollQuery, seen: map<OpId, Operation>, errors: set<OpId>, k: Key, id: OpId)
    requires seen == map[id := CancelledOperation(options, k, id)]
    ensures Consistent(seen)
    ensures k in AnswerTo(q, seen, errors) ==> DecisionOn(AnswerTo(q, seen, errors)[k], k) == Some(Submit)
  {
    hide TimeoutOutcome;
    assert seen[id].key == k;
    assert k in KnownKeys(seen) && SeenBy(seen, k) == id;
  }

  /** A valid submission of which every chunk is rejected. */
  lemma RejectedSubmission(
    options: PollOptions, journal: map<Key, JournalValue>, batch: seq<Resource>, owner: map<OpId, Key>,
    poll: Poll, clock: nat -> real)
    returns (sub: Submission, submitted: map<Key, Outcome>)
    requires BatchAccepted(options, journal, batch)
    ensures SubmitDrives(options, None, journal, batch, RejectAll(), poll, clock, sub, submitted)
    ensures Serves(owner, sub.chunks, RejectAll(), map[]) && sub.q.ids == []
  {
    var drafts := FreshResources(journal, batch);
    if drafts == [] {
      sub, submitted := NoSubmission(options), map[];
      NoneServed(owner, sub.chunks);
    } else {
      var input := ImportInput(options, drafts, None, None);
      assert ValidImportInput(input);
      hide *;
      sub, submitted := RejectedDrafts(input, owner, poll, clock);
      SubmitDrivesIf(options, None, journal, batch, RejectAll(), poll, clock, sub, submitted, 0);
    }
  }

  lemma NoneServed(owner: map<OpId, Key>, chunks: seq<seq<Resource>>)
    ensures Serves(owner, chunks, RejectAll(), map[])
  {
  }

  lemma SubmitDrivesIf(
    options: PollOptions, concurrency: Option<int>, journal: map<Key, JournalValue>, batch: seq<Resource>,
    submit: nat -> SubmitResult, poll: Poll, clock: nat -> real, sub: Submission, submitted: map<Key, Outcome>,
    rounds: nat)
    requires FreshResources(journal, batch) != []
    requires ValidSubmission(ImportInput(options, FreshResources(journal, batch), None, concurrency), submit, sub)
    requires SubmissionAnswers(sub, submitted)
    requires QueryAfter(options, sub.chunks, submit, |sub.chunks|) == Some(sub.q)
    requires sub.q.interval > 0.0 && sub.q.timeout >= 0.0
    requires PolledFor(sub.q, poll, clock, rounds, sub.ops, sub.errors)
    ensures SubmitDrives(options, concurrency, journal, batch, submit, poll, clock, sub, submitted)
  {
    hide FreshResources, ValidSubmission, SubmissionAnswers, QueryAfter, PolledFor;
  }

  lemma RejectedDrafts(input: ImportInput, owner: map<OpId, Key>, poll: Poll, clock: nat -> real)
    returns (sub: Submission, submitted: map<Key, Outcome>)
    requires ValidImportInput(input)
    ensures ValidSubmission(input, RejectAll(), sub) && SubmissionAnswers(sub, submitted)
    ensures QueryAfter(input.options, sub.chunks, RejectAll(), |sub.chunks|) == Some(sub.q)
    ensures sub.q.interval > 0.0 && sub.q.timeout >= 0.0 && sub.q.ids == []
    ensures PolledFor(sub.q, poll, clock, 0, sub.ops, sub.errors)
    ensures Serves(owner, sub.chunks, RejectAll(), map[])
  {
    NoLargeResource(input);
    hide *;
    var chunks := SomeGreedySplit(input.resources, input.MaxBytes());
    ValidInput(input, chunks);
    SplitIsValid(chunks, input.resources);
    NoneServed(owner, chunks);
    var groups, q, failed := ServedIsTaken(input.options, chunks, |chunks|, RejectAll(), owner, map[]);
    AllTakenFrom(input.options, chunks, RejectAll(), map[], groups, q, failed);
    NoOperations(input.options, chunks, RejectAll(), groups, q, failed);
    QueryKeepsOptions(input.options, chunks, RejectAll(), |chunks|, q);
    TakenAll(input.options.container, chunks, RejectAll(), groups, q, failed);
    NothingAccepted(q, groups);
    NotPolledYet(q, poll);
    UnpolledFor(q, poll, clock);
    sub := Submission(chunks, groups, q, failed, map[], {});
    SubmissionIs(input, RejectAll(), sub, map[]);
    submitted := map[] + failed;
  }

  lemma NoLargeResource(input: ImportInput)
    requires ValidImportInput(input)
    ensures !SomeResourceTooLarge(input.resources, input.MaxBytes())
  {
    hide SomeResourceTooLarge, ValidResources;
  }

  lemma NoOperations(
    options: PollOptions, chunks: seq<seq<Resource>>, submit: nat -> SubmitResult, groups: set<ChunkGroup>, q: PollQuery,
    failed: map<Key, Outcome>)
    requires TakenFrom(options, chunks, |chunks|, submit, map[], groups, q, failed)
    ensures q.ids == []
  {
    hide QueryAfter, ChunksTaken, TakenKeys;
    if q.ids != [] {
      SomeElement(q.ids);
      assert false;
    }
  }

  lemma SomeElement<T>(s: seq<T>)
    requires s != []
    ensures exists x :: x in s
  {
    assert s[0] in s;
  }

  lemma {:induction false} QueryKeepsOptions(
    options: PollOptions, chunks: seq<seq<Resource>>, submit: nat -> SubmitResult, n: nat, q: PollQuery)
    requires n <= |chunks| && QueryAfter(options, chunks, submit, n) == Some(q)
    ensures q.container == options.container && q.interval == options.Interval() && q.timeout == options.Timeout()
  {
    hide Refused, NamedBy, AllName;
    if n > 0 {
      QueryKeepsOptions(options, chunks, submit, n - 1, QueryAfter(options, chunks, submit, n - 1).value);
    }
  }

  lemma UnpolledFor(q: PollQuery, poll: Poll, clock: nat -> real)
    requires q.ids == [] && q.interval > 0.0 && q.timeout >= 0.0
    ensures PolledFor(q, poll, clock, 0, map[], {})
  {
  }

  /**
   * The driver can make a run that sees the listed operation `id` cancelled and nothing else, and has
   * every submission rejected; its key, when awaited, may then be submitted again.
   */
  lemma CancellingRun(options: PollOptions, w: World, batch: seq<Resource>, k: Key, id: OpId)
    returns (e: Environment, c: Choice, w': World)
    requires TrueJournal(w) && Distinct(KeysOf(batch)) && id in w.owner && w.owner[id] == k
    requires Listed(AwaitGroups(w.journal, batch), id) && BatchAccepted(options, w.journal, batch)
    ensures DriverRun(options, w, batch, e, c, w') && Run(options, w, batch, c, w')
    ensures w'.owner == w.owner && w'.finished == w.finished + {id}
    ensures k in KeySet(batch) && Awaits(w.journal, k) ==> Decision(w'.journal, k) == Some(Submit)
  {
    var none: map<OpId, Key> := map[];
    assert w.owner + none == w.owner && w.finished + {id} <= w.owner.Keys + none.Keys;
    ListedIsAccepted(options, w.journal, batch, id);
    hide *;
    e := Cancelling(options, k, id);
    CancellingParts(options, k, id);
    DeadlineClockAdvances(options.Interval(), options.Timeout());
    var errors, awaited := CancelledAwait(options, w, batch, k, id);
    var sub, submitted := RejectedSubmission(options, w.journal, batch, w.owner, e.submitPoll, e.submitClock);
    NothingToPoll(sub.q, e.submitPoll, map[], w.finished + {id});
    c := Choice(map[id := CancelledOperation(options, k, id)], errors, awaited, sub, submitted, {}, map[], w.finished + {id});
    NoDoubt(sub.chunks, []);
    w' := AfterRun(w, batch, c);
    AfterRunIs(w, batch, c);
    DriverRunIf(options, w, batch, e, c);
    DriverRunIsRun(options, w, batch, e, c, w');
    if k in KeySet(batch) && Awaits(w.journal, k) {
      EntryAfter(options, w, batch, c, w', k);
    }
  }

  lemma ListedIsAccepted(options: PollOptions, journal: map<Key, JournalValue>, batch: seq<Resource>, id: OpId)
    requires Listed(AwaitGroups(journal, batch), id) && BatchAccepted(options, journal, batch)
    ensures options.Valid() && options.Interval() > 0.0 && options.Timeout() >= 0.0
  {
    hide AwaitGroups, FreshResources, AwaitableGroups, ValidImportInput;
  }

  lemma CancellingParts(options: PollOptions, k: Key, id: OpId)
    ensures var e := Cancelling(options, k, id);
      && e.concurrency == None && e.submit == RejectAll()
      && e.awaitClock == DeadlineClock(options.Timeout()) && e.submitClock == DeadlineClock(options.Timeout())
  {
  }

  lemma NothingToPoll(q: PollQuery, poll: Poll, owner: map<OpId, Key>, finished: set<OpId>)
    requires q.ids == []
    ensures TruthfulPolls(q, poll, owner, finished)
  {
  }

  lemma AfterRunIs(w: World, batch: seq<Resource>, c: Choice)
    ensures AfterRun(w, batch, c).owner == w.owner + c.created && AfterRun(w, batch, c).finished == c.finished
  {
    hide Settled;
  }

  lemma DriverRunIf(options: PollOptions, w: World, batch: seq<Resource>, e: Environment, c: Choice)
    requires Distinct(KeysOf(batch)) && w.finished <= c.finished <= w.owner.Keys + c.created.Keys
    requires ClockAdvances(options.Interval(), options.Timeout(), e.awaitClock)
    requires ClockAdvances(options.Interval(), options.Timeout(), e.submitClock)
    requires AwaitDrives(options, w.journal, batch, e.awaitPoll, e.awaitClock, c.seen, c.errors, c.awaited)
    requires SubmitDrives(
      options, e.concurrency, w.journal, batch, e.submit, e.submitPoll, e.submitClock, c.sub, c.submitted)
    requires TruthfulPolls(AwaitQuery(options, AwaitGroups(w.journal, batch)), e.awaitPoll, w.owner, c.finished)
    requires Serves(w.owner, c.sub.chunks, e.submit, c.created)
    requires TruthfulPolls(c.sub.q, e.submitPoll, c.created, c.finished)
    requires c.doubted == Doubted(c.sub.chunks, e.submit)
    ensures DriverRun(options, w, batch, e, c, AfterRun(w, batch, c))
  {
    hide AwaitDrives, SubmitDrives, TruthfulPolls, Serves, ClockAdvances, AfterRun, AwaitQuery, AwaitGroups, Distinct,
         KeysOf, Doubted;
  }

  /** Neither environment leaves a key in doubt. */
  lemma NoDoubt(chunks: seq<seq<Resource>>, ids: seq<OpId>)
    ensures Doubted(chunks, RejectAll()) == {} && Doubted(chunks, AcceptChunk(ids)) == {}
  {
    hide KeySet, StatusesOf;
  }

  // ---------- A run that submits one accepted chunk and sees none of its operations ----------

  ghost function ChunkQuery(options: PollOptions, g: ChunkGroup): PollQuery {
    AddGroup(EmptyQuery(options), g)
  }

  function StatusesOf(ids: seq<OpId>): seq<Status> {
    seq(|ids|, i requires 0 <= i < |ids| => Status(Processing, Some(ids[i])))
  }

  function AcceptChunk(ids: seq<OpId>): nat -> SubmitResult {
    (n: nat) => Response(StatusesOf(ids))
  }

  /** The environment of that run. */
  ghost function Accepting(options: PollOptions, g: ChunkGroup): Environment {
    var clock := DeadlineClock(options.Timeout());
    Environment(None, AcceptChunk(g.ids), OncePoll(map[]), clock, OncePoll(map[]), clock)
  }

  /** All resources of the batch are new or may be submitted again, and fit one chunk. */
  ghost predicate OneChunk(w: World, batch: seq<Resource>, g: ChunkGroup, created: map<OpId, Key>) {
    && Distinct(KeysOf(batch)) && ValidGroup(g) && g.keys == KeysOf(batch) && Creates(w.owner, {g}, created)
    && Fits(batch, BODY_LIMIT)
    && forall k :: k in KeySet(batch) ==> Decision(w.journal, k) == Some(Submit)
  }

  lemma {:induction false} NothingAwaited(journal: map<Key, JournalValue>, batch: seq<Resource>)
    requires forall k :: k in KeySet(batch) ==> Decision(journal, k) == Some(Submit)
    ensures AwaitGroups(journal, batch) == []
  {
    if batch != [] {
      var n := |batch| - 1;
      NothingAwaited(journal, batch[..n]);
      assert batch[n].key in KeySet(batch);
    }
  }

  lemma {:induction false} KeepAll<T(!new)>(s: seq<T>, test: T -> bool)
    requires forall x :: x in s ==> test(x)
    ensures Keep(s, test) == s
  {
    if s != [] {
      KeepAll(s[1..], test);
      assert s[0] in s && s == [s[0]] + s[1..];
    }
  }

  lemma AllAreFresh(journal: map<Key, JournalValue>, batch: seq<Resource>)
    requires forall k :: k in KeySet(batch) ==> Decision(journal, k) == Some(Submit)
    ensures FreshResources(journal, batch) == batch
  {
    var test := (r: Resource) => Decision(journal, r.key) == Some(Submit);
    forall r | r in batch ensures test(r) {
      assert r.key in KeySet(batch);
    }
    hide Decision, KeySet;
    KeepAll(batch, test);
  }

  lemma OneChunkFacts(w: World, batch: seq<Resource>, g: ChunkGroup, created: map<OpId, Key>)
    requires OneChunk(w, batch, g, created)
    ensures Distinct(KeysOf(batch)) && ValidGroup(g) && g.keys == KeysOf(batch) && Creates(w.owner, {g}, created)
    ensures forall k :: k in KeySet(batch) ==> Decision(w.journal, k) == Some(Submit)
    ensures Elements(g.keys) == KeySet(batch) && batch != [] && Fits(batch, BODY_LIMIT)
  {
    KeySetIsElements(batch);
    hide Decision, Creates, Fits;
  }

  lemma OneChunkIsValid(options: PollOptions, w: World, batch: seq<Resource>, g: ChunkGroup, created: map<OpId, Key>)
    requires OneChunk(w, batch, g, created) && options.Valid()
    ensures ValidImportInput(ImportInput(options, batch, None, None))
    ensures IsGreedySplit([batch], batch, BODY_LIMIT)
  {
    OneChunkFacts(w, batch, g, created);
    OneChunkResources(w, batch, g, created);
    hide Decision, Creates, OneChunk, Fits, SomeResourceTooLarge, ValidResources, IsGreedySplit, PollOptions.Valid;
    NoneIsTooLarge(batch);
    OneChunkSplits(batch);
  }

  lemma OneChunkResources(w: World, batch: seq<Resource>, g: ChunkGroup, created: map<OpId, Key>)
    requires OneChunk(w, batch, g, created)
    ensures ValidResources(batch)
  {
    OneChunkFacts(w, batch, g, created);
    hide Decision, Creates, OneChunk, Fits, Distinct;
  }

  lemma NoneIsTooLarge(batch: seq<Resource>)
    requires Fits(batch, BODY_LIMIT)
    ensures !SomeResourceTooLarge(batch, BODY_LIMIT)
  {
    forall i | 0 <= i < |batch| ensures RequestBodyBytes([batch[i]]) <= BODY_LIMIT {
      SliceFits(batch, 0, i, i + 1, |batch|, BODY_LIMIT);
      assert batch[0..|batch|] == batch && batch[i..i + 1] == [batch[i]];
    }
    hide RequestBodyBytes;
  }

  lemma OneChunkSplits(batch: seq<Resource>)
    requires Fits(batch, BODY_LIMIT) && batch != []
    ensures IsGreedySplit([batch], batch, BODY_LIMIT)
  {
    hide Fits;
    assert [batch][..0] == [];
    assert Flatten([batch]) == batch;
  }

  lemma StatusesName(g: ChunkGroup, known: set<OpId>)
    requires ValidGroup(g) && Elements(g.ids) !! known
    ensures ResponseNames(StatusesOf(g.ids), |g.keys|, known, g.ids)
  {
    forall i | 0 <= i < |g.ids| ensures UsableStatus(StatusesOf(g.ids)[i]) {
      assert g.ids[i] in g.ids;
    }
  }

  lemma OneChunkIsServed(w: World, batch: seq<Resource>, g: ChunkGroup, created: map<OpId, Key>)
    requires OneChunk(w, batch, g, created)
    ensures Serves(w.owner, [batch], AcceptChunk(g.ids), created)
  {
    OneChunkFacts(w, batch, g, created);
    StatusesName(g, {});
    hide OneChunk, Decision, ValidGroup, Distinct, ResponseNames;
    assert g in {g};
    forall id | id in g.ids ensures id in created && created[id] in KeySet(batch) {
      assert SomeId({g}, id);
      assert created[id] in g.keys;
    }
    assert ServesChunk(batch, StatusesOf(g.ids), created);
    forall id | id in created ensures NamedIn([batch], AcceptChunk(g.ids), 0, id) {
      assert SomeId({g}, id) && id in g.ids;
      var i :| 0 <= i < |g.ids| && g.ids[i] == id;
      assert StatusesOf(g.ids)[i].operationId == Some(id);
    }
  }

  lemma OneChunkIsTaken(options: PollOptions, w: World, batch: seq<Resource>, g: ChunkGroup, created: map<OpId, Key>)
    requires OneChunk(w, batch, g, created) && ValidChunks([batch])
    ensures QueryAfter(options, [batch], AcceptChunk(g.ids), 1) == Some(ChunkQuery(options, g))
    ensures ChunksTaken(options.container, [batch], 1, AcceptChunk(g.ids), {g}, ChunkQuery(options, g), map[])
  {
    OneChunkFacts(w, batch, g, created);
    var submit, q := AcceptChunk(g.ids), EmptyQuery(options);
    StatusesName(g, {});
    assert Elements(q.ids) == {};
    assert |batch| == |g.keys|;
    hide OneChunk, Decision, ValidGroup, Distinct, ResponseNames, AddGroup, ChunksTaken, KeysOf, Creates, Refused, QueryNext,
         StatusesOf, ValidChunks, Fits;
    NothingTaken(options, [batch], submit);
    AcceptedNext(q, batch, submit(0), g.ids);
    TakeAccepted(options.container, [batch], 0, submit, {}, q, map[], g.ids);
    assert {} + {g} == {g};
    assert QueryAfter(options, [batch], submit, 0) == Some(q);
  }

  lemma NothingSeenEnds(q: PollQuery)
    requires q.ids != []
    ensures AwaitEnds(q, map[])
  {
    assert Unsettled(map[], q.ids[0]) && q.ids[0] in q.ids;
  }

  lemma PolledOnce(q: PollQuery, seen: map<OpId, Operation>, errors: set<OpId>, answer: map<Key, Outcome>)
    requires PolledOut(q, OncePoll(seen), DeadlineClock(q.timeout), 1, seen, errors, answer)
    requires q.interval > 0.0 && q.timeout >= 0.0 && q.ids != []
    ensures PolledFor(q, OncePoll(seen), DeadlineClock(q.timeout), 1, seen, errors)
  {
    hide PollEnds, KnownAfter, ErrorsAfter;
  }

  lemma ChunkQueryIs(options: PollOptions, g: ChunkGroup)
    requires ValidGroup(g)
    ensures var q := ChunkQuery(options, g);
      && q.container == options.container && q.interval == options.Interval() && q.timeout == options.Timeout()
      && q.ids == g.ids && q.keys == g.keys && q.ids != []
  {
    assert [] + g.ids == g.ids && [] + g.keys == g.keys;
  }

  /** What the accepted chunk leaves submitted: its one group, and a timeout for each key. */
  ghost predicate SubmitsChunk(options: PollOptions, batch: seq<Resource>, g: ChunkGroup, sub: Submission) {
    && sub.chunks == [batch] && sub.groups == {g} && sub.q == ChunkQuery(options, g)
    && sub.ops == map[] && sub.failed == map[]
  }

  lemma AcceptedSubmission(options: PollOptions, w: World, batch: seq<Resource>, g: ChunkGroup, created: map<OpId, Key>)
    returns (sub: Submission, submitted: map<Key, Outcome>)
    requires OneChunk(w, batch, g, created) && options.Valid()
    ensures var e := Accepting(options, g);
      SubmitDrives(options, None, w.journal, batch, e.submit, e.submitPoll, e.submitClock, sub, submitted)
    ensures SubmitsChunk(options, batch, g, sub)
  {
    OneChunkFacts(w, batch, g, created);
    var e, q, input := Accepting(options, g), ChunkQuery(options, g), ImportInput(options, batch, None, None);
    assert input.MaxBytes() == BODY_LIMIT && e.submit == AcceptChunk(g.ids) && e.submitPoll == OncePoll(map[]);
    assert e.submitClock == DeadlineClock(options.Timeout());
    assert input.resources == batch && input.options == options;
    hide *;
    OneChunkIsValid(options, w, batch, g, created);
    ValidInput(input, [batch]);
    SplitIsValid([batch], batch);
    OneChunkIsTaken(options, w, batch, g, created);
    ChunkQueryIs(options, g);
    NothingSeenEnds(q);
    OnceEnds(q, map[]);
    var none: map<OpId, Operation> := map[];
    var errors := Elements(q.ids) - none.Keys;
    NothingIsKnown(q);
    var polled := AnswerTo(q, map[], errors);
    AnswerAnswers(q, map[], errors);
    PolledOnce(q, map[], errors, polled);
    sub := Submission([batch], {g}, q, map[], map[], errors);
    SubmissionIs(input, e.submit, sub, polled);
    submitted := polled + sub.failed;
    AllAreFresh(w.journal, batch);
    SubmitDrivesIf(options, None, w.journal, batch, e.submit, e.submitPoll, e.submitClock, sub, submitted, 1);
    ChunkIsSubmitted(options, batch, g, sub);
  }

  lemma NothingIsKnown(q: PollQuery)
    ensures Correlated(q, map[]) && Consistent(map[])
  {
  }

  lemma ChunkIsSubmitted(options: PollOptions, batch: seq<Resource>, g: ChunkGroup, sub: Submission)
    requires sub.chunks == [batch] && sub.groups == {g} && sub.q == ChunkQuery(options, g)
    requires sub.ops == map[] && sub.failed == map[]
    ensures SubmitsChunk(options, batch, g, sub)
  {
  }

  /** The driver can make a run that submits the batch as one accepted chunk and sees nothing of it. */
  lemma AcceptingRun(options: PollOptions, w: World, batch: seq<Resource>, g: ChunkGroup, created: map<OpId, Key>)
    returns (e: Environment, c: Choice, w': World)
    requires TrueJournal(w) && OneChunk(w, batch, g, created) && options.Valid()
    ensures DriverRun(options, w, batch, e, c, w') && Run(options, w, batch, c, w')
    ensures w'.owner == w.owner + created && w'.finished == w.finished
    ensures c.created == created && SubmitsChunk(options, batch, g, c.sub)
  {
    assert w.finished <= w.owner.Keys;
    OneChunkFacts(w, batch, g, created);
    hide *;
    e := Accepting(options, g);
    AcceptingParts(options, g);
    DeadlineClockAdvances(options.Interval(), options.Timeout());
    NothingAwaited(w.journal, batch);
    NothingAwaitedDrives(options, w.journal, batch, e.awaitPoll, e.awaitClock);
    NoneIsAwaited(options, w, batch, e.awaitPoll);
    var sub, submitted := AcceptedSubmission(options, w, batch, g, created);
    SubmitsChunkFacts(options, batch, g, sub);
    OneChunkIsServed(w, batch, g, created);
    NothingIsTruthful(created, w.finished, sub.q.container);
    OnceIsTruthful(sub.q, map[], created, w.finished);
    c := Choice(map[], {}, map[], sub, submitted, {}, created, w.finished);
    NoDoubt(sub.chunks, g.ids);
    w' := AfterRun(w, batch, c);
    AfterRunIs(w, batch, c);
    DriverRunIf(options, w, batch, e, c);
    DriverRunIsRun(options, w, batch, e, c, w');
  }

  lemma AcceptingParts(options: PollOptions, g: ChunkGroup)
    requires options.Valid()
    ensures options.Interval() > 0.0 && options.Timeout() >= 0.0
    ensures var e := Accepting(options, g);
      && e.concurrency == None && e.submit == AcceptChunk(g.ids) && e.submitPoll == OncePoll(map[])
      && e.awaitClock == DeadlineClock(options.Timeout()) && e.submitClock == DeadlineClock(options.Timeout())
  {
  }

  lemma NothingAwaitedDrives(
    options: PollOptions, journal: map<Key, JournalValue>, batch: seq<Resource>, poll: Poll, clock: nat -> real)
    requires AwaitGroups(journal, batch) == []
    ensures AwaitDrives(options, journal, batch, poll, clock, map[], {}, map[])
  {
  }

  lemma NoneIsAwaited(options: PollOptions, w: World, batch: seq<Resource>, poll: Poll)
    requires AwaitGroups(w.journal, batch) == []
    ensures TruthfulPolls(AwaitQuery(options, AwaitGroups(w.journal, batch)), poll, w.owner, w.finished)
  {
  }

  lemma SubmitsChunkFacts(options: PollOptions, batch: seq<Resource>, g: ChunkGroup, sub: Submission)
    requires SubmitsChunk(options, batch, g, sub)
    ensures sub.chunks == [batch] && sub.groups == {g} && sub.q == ChunkQuery(options, g)
    ensures sub.ops == map[] && sub.failed == map[]
  {
    hide ChunkQuery;
  }
}
