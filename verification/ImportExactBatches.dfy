/** Which batches are safe: keeping candidate groups together is exactly what rules out both failures. */
module ImportExactBatches {
  import opened Basics
  import opened Chunking
  import opened ImportOutcomes
  import opened ImportPolling
  import opened ImportSubmission
  import opened ImportAwait
  import opened ImportRuns
  import opened ImportTogether
  import opened ImportBatch
  import opened ImportDriver
  import opened ImportHistories
  import opened ImportScenarios
  import opened ImportDoubleSubmission

  /** `w'` is reached by a run of the batch, and then any runs that keep candidate groups together. */
  ghost predicate RunsOnTo(options: PollOptions, w: World, batch: seq<Resource>, w': World) {
    exists e, c, ws :: TogetherHistory(ws) && ws[|ws| - 1] == w' && DriverRun(options, w, batch, e, c, ws[0])
  }

  /** With valid options awaiting any batch never fails, whatever is truthfully answered. */
  ghost predicate EveryAwaitSucceeds(w: World) {
    forall options: PollOptions, batch ::
      options.Valid() && Distinct(KeysOf(batch)) ==> AwaitSucceeds(options, w, batch)
  }

  /** The batch is safe to run: it keeps candidate groups together, or the driver's checks refuse it. */
  ghost predicate SafeBatch(options: PollOptions, journal: map<Key, JournalValue>, batch: seq<Resource>) {
    KeepsTogether(journal, KeySet(batch)) || !BatchAccepted(options, journal, batch)
  }

  // ---------- The main results ----------

  /**
   * After any runs that kept candidate groups together: the next batch is safe, which its caller sees
   * in the journal, exactly when no key can ever come to have two operations that are unfinished or
   * possibly accepted, and exactly when no later await can fail on a contract error.
   */
  lemma BatchingIsExact(options: PollOptions, past: seq<World>, batch: seq<Resource>)
    requires TogetherHistory(past) && past[0] == EMPTY && Distinct(KeysOf(batch))
    ensures var w := past[|past| - 1];
      && (SafeBatch(options, w.journal, batch) <==> forall w' :: RunsOnTo(options, w, batch, w') ==> AtMostOne(w'))
      && (SafeBatch(options, w.journal, batch) <==>
            forall w' :: RunsOnTo(options, w, batch, w') ==> EveryAwaitSucceeds(w'))
  {
    TogetherHistoryStaysShared(past);
    hide *;
    AtMostOneExactly(options, past[|past| - 1], batch);
    EveryAwaitSucceedsExactly(options, past[|past| - 1], batch);
  }

  /** From any safe world with a shared journal: at most one operation per key, exactly for such batches. */
  lemma AtMostOneExactly(options: PollOptions, w: World, batch: seq<Resource>)
    requires TrueJournal(w) && Safe(w) && Shared(w) && Distinct(KeysOf(batch))
    ensures SafeBatch(options, w.journal, batch) <==>
      forall w' :: RunsOnTo(options, w, batch, w') ==> AtMostOne(w')
  {
    hide *;
    if SafeBatch(options, w.journal, batch) {
      forall w' | RunsOnTo(options, w, batch, w') ensures AtMostOne(w') {
        RunningOnKeepsShared(options, w, batch, w');
        SafeIsAtMostOne(w');
      }
    } else {
      var k, k' := UnsafeBatchSplits(options, w.journal, batch);
      SplitBatchLeadsToTwo(options, w, batch, k, k');
    }
  }

  /** And likewise awaiting without a contract error. */
  lemma EveryAwaitSucceedsExactly(options: PollOptions, w: World, batch: seq<Resource>)
    requires TrueJournal(w) && Safe(w) && Shared(w) && Distinct(KeysOf(batch))
    ensures SafeBatch(options, w.journal, batch) <==>
      forall w' :: RunsOnTo(options, w, batch, w') ==> EveryAwaitSucceeds(w')
  {
    hide *;
    if SafeBatch(options, w.journal, batch) {
      forall w' | RunsOnTo(options, w, batch, w') ensures EveryAwaitSucceeds(w') {
        RunningOnKeepsShared(options, w, batch, w');
        SharedAwaitsSucceed(w');
      }
    } else {
      var k, k' := UnsafeBatchSplits(options, w.journal, batch);
      SplitBatchLeadsToFailure(options, w, batch, k, k');
    }
  }

  /** A single run keeps the journal shared, whatever the provider answers, for just the same batches. */
  lemma KeepingTogetherIsExact(options: PollOptions, w: World, batch: seq<Resource>)
    requires TrueJournal(w) && Shared(w) && Distinct(KeysOf(batch))
    ensures SafeBatch(options, w.journal, batch) <==>
      forall e, c, w' :: DriverRun(options, w, batch, e, c, w') ==> Shared(w')
  {
    hide *;
    if SafeBatch(options, w.journal, batch) {
      forall e, c, w' | DriverRun(options, w, batch, e, c, w') ensures Shared(w') {
        SafeRunKeepsTogether(options, w, batch, e, c, w');
        DriverRunIsRun(options, w, batch, e, c, w');
        RunKeepsShared(options, w, batch, c, w');
      }
    } else {
      var k, k' := UnsafeBatchSplits(options, w.journal, batch);
      UnsafeBatchUnshares(options, w, batch, k, k');
    }
  }

  // ---------- Batches that keep groups together ----------

  lemma SafeRunKeepsTogether(options: PollOptions, w: World, batch: seq<Resource>, e: Environment, c: Choice, w': World)
    requires SafeBatch(options, w.journal, batch) && DriverRun(options, w, batch, e, c, w')
    ensures KeepsTogether(w.journal, KeySet(batch))
  {
    hide DriverRun, KeepsTogether, BatchAccepted;
    DriverRunIsAccepted(options, w, batch, e, c, w');
  }

  lemma RunningOnKeepsShared(options: PollOptions, w: World, batch: seq<Resource>, w': World)
    requires TrueJournal(w) && Safe(w) && Shared(w) && SafeBatch(options, w.journal, batch)
    requires RunsOnTo(options, w, batch, w')
    ensures TrueJournal(w') && Safe(w') && Shared(w')
  {
    hide Run, DriverRun, TrueJournal, Safe, Shared, SafeBatch, SomeTogetherRun, Progresses;
    var e, c, ws :| TogetherHistory(ws) && ws[|ws| - 1] == w' && DriverRun(options, w, batch, e, c, ws[0]);
    SafeRunKeepsTogether(options, w, batch, e, c, ws[0]);
    DriverRunIsRun(options, w, batch, e, c, ws[0]);
    RunKeepsJournalTrue(options, w, batch, c, ws[0]);
    RunFromSharedIsSafe(options, w, batch, c, ws[0]);
    RunKeepsShared(options, w, batch, c, ws[0]);
    TogetherHistoryKeepsShared(ws);
  }

  lemma SharedAwaitsSucceed(w: World)
    requires TrueJournal(w) && Shared(w)
    ensures EveryAwaitSucceeds(w)
  {
    hide TrueJournal, Shared, NoSharedOwner, AwaitSucceeds, Distinct, KeysOf;
    forall options: PollOptions, batch | options.Valid() && Distinct(KeysOf(batch))
      ensures AwaitSucceeds(options, w, batch)
    {
      SharedHasNoSharedOwner(w, batch);
      AwaitSucceedsExactly(options, w, batch);
    }
  }

  // ---------- Batches that split a group ----------

  /** A key of the batch that awaits, and one outside it that awaits the same operation. */
  ghost predicate Splits(journal: map<Key, JournalValue>, keys: set<Key>, k: Key, k': Key) {
    && k in keys && Awaits(journal, k) && Awaits(journal, k') && k' !in keys
    && ShareOperation(GroupOf(journal, k), GroupOf(journal, k'))
  }

  lemma UnsafeBatchSplits(options: PollOptions, journal: map<Key, JournalValue>, batch: seq<Resource>)
    returns (k: Key, k': Key)
    requires !SafeBatch(options, journal, batch)
    ensures Splits(journal, KeySet(batch), k, k') && BatchAccepted(options, journal, batch)
  {
    hide KeepsTogether, Splits, BatchAccepted;
    k, k' := SplitKeys(journal, KeySet(batch));
  }

  lemma SplitKeys(journal: map<Key, JournalValue>, keys: set<Key>) returns (k: Key, k': Key)
    requires !KeepsTogether(journal, keys)
    ensures Splits(journal, keys, k, k')
  {
    hide Awaits, GroupOf, ShareOperation;
    k, k' :| k in keys && Awaits(journal, k) && Awaits(journal, k')
      && ShareOperation(GroupOf(journal, k), GroupOf(journal, k')) && k' !in keys;
  }

  /** Resubmitting the key left behind leaves another key awaiting both of its operations' owner. */
  ghost predicate Collides(w: World, k: Key, k': Key, own: OpId, n: OpId) {
    && k != k' && own != n && own in w.owner && w.owner[own] == k && n in w.owner && w.owner[n] == k
    && Awaits(w.journal, k) && n in GroupOf(w.journal, k).ops
    && Awaits(w.journal, k') && own in GroupOf(w.journal, k').ops
  }

  /** The run of the batch that sees the shared operation cancelled: its key resubmits, the other awaits it. */
  ghost predicate LeftBehind(w: World, k: Key, k': Key, own: OpId) {
    && Decision(w.journal, k) == Some(Submit) && Awaits(w.journal, k') && own in GroupOf(w.journal, k').ops
    && own in w.owner && w.owner[own] == k
  }

  /** The driver can make a run of the batch that sees an operation shared with the other key cancelled. */
  lemma SplitBatchRun(options: PollOptions, w: World, batch: seq<Resource>, k: Key, k': Key)
    returns (e: Environment, c: Choice, w': World, own: OpId)
    requires TrueJournal(w) && Shared(w) && Distinct(KeysOf(batch)) && Splits(w.journal, KeySet(batch), k, k')
    requires BatchAccepted(options, w.journal, batch)
    ensures DriverRun(options, w, batch, e, c, w') && Run(options, w, batch, c, w') && LeftBehind(w', k, k', own)
  {
    SplitsMeans(w.journal, KeySet(batch), k, k');
    hide *;
    OwnOfAwaiting(w, k);
    own :| OwnIn(w.owner, GroupOf(w.journal, k).ops, k, own);
    OwnIsShared(w, k, k', own);
    OwnIsNew(w.owner, GroupOf(w.journal, k).ops, k, own);
    OwnIsListed(w, batch, k, own);
    e, c, w' := CancellingRun(options, w, batch, k, own);
    EntryAfter(options, w, batch, c, w', k');
    SameDecision(w, w', k');
    IsLeftBehind(w', k, k', own);
  }

  lemma IsLeftBehind(w: World, k: Key, k': Key, own: OpId)
    requires Decision(w.journal, k) == Some(Submit) && Awaits(w.journal, k') && own in GroupOf(w.journal, k').ops
    requires own in w.owner && w.owner[own] == k
    ensures LeftBehind(w, k, k', own)
  {
  }

  lemma OwnIsShared(w: World, k: Key, k': Key, own: OpId)
    requires TrueJournal(w) && Shared(w) && Awaits(w.journal, k) && Awaits(w.journal, k')
    requires OwnIn(w.owner, GroupOf(w.journal, k).ops, k, own)
    requires ShareOperation(GroupOf(w.journal, k), GroupOf(w.journal, k'))
    ensures own in GroupOf(w.journal, k').ops
  {
    var id :| id in GroupOf(w.journal, k).ops && id in GroupOf(w.journal, k').ops;
    SharedOwner(w, k, id);
    SharedOwner(w, k', id);
  }

  lemma NotShared(w: World, k: Key, k': Key, own: OpId)
    requires LeftBehind(w, k, k', own)
    ensures !Shared(w)
  {
    assert !SharedEntry(w, k');
  }

  lemma UnsafeBatchUnshares(options: PollOptions, w: World, batch: seq<Resource>, k: Key, k': Key)
    requires TrueJournal(w) && Shared(w) && Distinct(KeysOf(batch)) && Splits(w.journal, KeySet(batch), k, k')
    requires BatchAccepted(options, w.journal, batch)
    ensures exists e, c, w' :: DriverRun(options, w, batch, e, c, w') && !Shared(w')
  {
    hide *;
    var e, c, w', own := SplitBatchRun(options, w, batch, k, k');
    NotShared(w', k, k', own);
  }

  /** The run of the batch and a resubmission, after which two awaited operations belong to one key. */
  lemma SplitBatchCollides(options: PollOptions, w: World, batch: seq<Resource>, k: Key, k': Key)
    returns (e: Environment, c: Choice, wa: World, wb: World, own: OpId, n: OpId)
    requires TrueJournal(w) && Shared(w) && Distinct(KeysOf(batch)) && Splits(w.journal, KeySet(batch), k, k')
    requires BatchAccepted(options, w.journal, batch)
    ensures DriverRun(options, w, batch, e, c, wa) && SomeTogetherRun(wa, wb) && options.Valid()
    ensures TrueJournal(wb) && Collides(wb, k, k', own, n) && n !in wb.finished && !k.blank
  {
    SplitsMeans(w.journal, KeySet(batch), k, k');
    hide *;
    AwaitingIsNamed(w, k);
    AwaitedIsValid(options, w, batch, k);
    e, c, wa, own := SplitBatchRun(options, w, batch, k, k');
    RunKeepsJournalTrue(options, w, batch, c, wa);
    n := FreshName(wa.owner.Keys);
    LeftBehindMeans(wa, k, k', own);
    EmptyDraftFits(k);
    wb := ResubmitAlone(options, wa, Resource(k, 0), n);
    FinishedIsOwned(wa, n);
    CollidesAfter(wa, wb, k, k', own, n);
  }

  lemma EmptyDraftFits(k: Key)
    ensures Fits([Resource(k, 0)], BODY_LIMIT)
  {
    assert [Resource(k, 0)][..0] == [];
    assert SumBytes([]) == 0 && SumBytes([Resource(k, 0)]) == 0;
  }

  lemma AwaitedIsValid(options: PollOptions, w: World, batch: seq<Resource>, k: Key)
    requires TrueJournal(w) && k in KeySet(batch) && Awaits(w.journal, k) && BatchAccepted(options, w.journal, batch)
    ensures options.Valid()
  {
    AwaitedGroup(w, batch, k);
    hide AwaitGroups, FreshResources, AwaitableGroups, ValidImportInput, TrueJournal, Awaits, GroupOf, KeySet;
  }

  lemma SplitsMeans(journal: map<Key, JournalValue>, keys: set<Key>, k: Key, k': Key)
    requires Splits(journal, keys, k, k')
    ensures k in keys && Awaits(journal, k) && Awaits(journal, k') && k' !in keys && k != k'
    ensures ShareOperation(GroupOf(journal, k), GroupOf(journal, k'))
  {
    hide Awaits, GroupOf, ShareOperation;
  }

  lemma LeftBehindMeans(w: World, k: Key, k': Key, own: OpId)
    requires LeftBehind(w, k, k', own)
    ensures Decision(w.journal, k) == Some(Submit)
  {
    hide Decision;
  }

  lemma AwaitingIsNamed(w: World, k: Key)
    requires TrueJournal(w) && Awaits(w.journal, k)
    ensures !k.blank
  {
    assert TrueEntry(w.owner, w.journal, k);
    hide Awaits, GroupOf, Decision;
  }

  lemma FinishedIsOwned(w: World, n: OpId)
    requires TrueJournal(w) && n !in w.owner
    ensures n !in w.finished
  {
  }

  lemma CollidesAfter(w: World, w': World, k: Key, k': Key, own: OpId, n: OpId)
    requires LeftBehind(w, k, k', own) && k != k' && n !in w.owner && w'.owner == w.owner[n := k]
    requires SameElsewhere(w, w', {k}) && Awaits(w'.journal, k) && n in GroupOf(w'.journal, k).ops
    ensures Collides(w', k, k', own, n)
  {
    SameDecision(w, w', k');
    hide Decision, Awaits, GroupOf;
  }

  lemma FreshName(names: set<Name>) returns (n: Name)
    ensures n !in names && !n.blank
  {
    var bound := CodeBound(names);
    n := Name(bound, false);
  }

  lemma {:induction false} CodeBound(names: set<Name>) returns (bound: nat)
    ensures forall n :: n in names ==> n.code < bound
    decreases |names|
  {
    bound := 0;
    if names != {} {
      var n :| n in names;
      bound := CodeBound(names - {n});
      bound := if n.code < bound then bound else n.code + 1;
    }
  }

  // ---------- A later await fails ----------

  lemma SplitBatchLeadsToFailure(options: PollOptions, w: World, batch: seq<Resource>, k: Key, k': Key)
    requires TrueJournal(w) && Shared(w) && Distinct(KeysOf(batch)) && Splits(w.journal, KeySet(batch), k, k')
    requires BatchAccepted(options, w.journal, batch)
    ensures exists w' :: RunsOnTo(options, w, batch, w') && !EveryAwaitSucceeds(w')
  {
    hide *;
    var e, c, wa, wb, own, n := SplitBatchCollides(options, w, batch, k, k');
    RunsOnOnce(options, w, batch, e, c, wa, wb);
    CollisionFailsAwait(options, wb, k, k', own, n);
  }

  lemma RunsOnOnce(
    options: PollOptions, w: World, batch: seq<Resource>, e: Environment, c: Choice, wa: World, wb: World)
    requires DriverRun(options, w, batch, e, c, wa) && SomeTogetherRun(wa, wb)
    ensures RunsOnTo(options, w, batch, wb)
  {
    hide DriverRun, SomeTogetherRun, Progresses;
    var ws := [wa, wb];
    assert TogetherHistory(ws) && ws[0] == wa && ws[|ws| - 1] == wb;
  }

  lemma CollisionFailsAwait(options: PollOptions, w: World, k: Key, k': Key, own: OpId, n: OpId)
    requires TrueJournal(w) && Collides(w, k, k', own, n) && options.Valid()
    ensures !EveryAwaitSucceeds(w)
  {
    CollidesMeans(w, k, k', own, n);
    hide *;
    var r, r' := Resource(k, 0), Resource(k', 0);
    BatchOfTwo(r, r');
    GroupIsListed(w, [r, r'], k, n);
    GroupIsListed(w, [r, r'], k', own);
    SharesOwner(w, [r, r'], own, n);
    SomethingIsAwaited(w, [r, r'], n);
    AwaitSucceedsExactly(options, w, [r, r']);
    SomeAwaitFails(options, w, [r, r']);
  }

  lemma SomethingIsAwaited(w: World, batch: seq<Resource>, id: OpId)
    requires Listed(AwaitGroups(w.journal, batch), id)
    ensures AwaitGroups(w.journal, batch) != []
  {
    hide AwaitGroups;
  }

  lemma CollidesMeans(w: World, k: Key, k': Key, own: OpId, n: OpId)
    requires Collides(w, k, k', own, n)
    ensures k != k' && own != n && own in w.owner && n in w.owner && w.owner[own] == k && w.owner[n] == k
    ensures Awaits(w.journal, k) && n in GroupOf(w.journal, k).ops
    ensures Awaits(w.journal, k') && own in GroupOf(w.journal, k').ops
  {
    hide Awaits, GroupOf;
  }

  lemma SharesOwner(w: World, batch: seq<Resource>, a: OpId, b: OpId)
    requires a != b && a in w.owner && b in w.owner && w.owner[a] == w.owner[b]
    requires Listed(AwaitGroups(w.journal, batch), a) && Listed(AwaitGroups(w.journal, batch), b)
    ensures !NoSharedOwner(w, batch)
  {
    hide Listed, AwaitGroups;
  }

  lemma SomeAwaitFails(options: PollOptions, w: World, batch: seq<Resource>)
    requires options.Valid() && Distinct(KeysOf(batch)) && !AwaitSucceeds(options, w, batch)
    ensures !EveryAwaitSucceeds(w)
  {
    hide AwaitSucceeds, Distinct, KeysOf;
  }

  // ---------- A key is submitted twice ----------

  lemma SplitBatchLeadsToTwo(options: PollOptions, w: World, batch: seq<Resource>, k: Key, k': Key)
    requires TrueJournal(w) && Shared(w) && Distinct(KeysOf(batch)) && Splits(w.journal, KeySet(batch), k, k')
    requires BatchAccepted(options, w.journal, batch)
    ensures exists w' :: RunsOnTo(options, w, batch, w') && !AtMostOne(w')
  {
    hide *;
    var e, c, wa, wb, own, n := SplitBatchCollides(options, w, batch, k, k');
    var wc, wd := CollisionSubmitsTwice(options, wb, k, k', own, n);
    RunsOnThrice(options, w, batch, e, c, wa, wb, wc, wd);
  }

  lemma RunsOnThrice(
    options: PollOptions, w: World, batch: seq<Resource>, e: Environment, c: Choice,
    wa: World, wb: World, wc: World, wd: World)
    requires DriverRun(options, w, batch, e, c, wa)
    requires SomeTogetherRun(wa, wb) && SomeTogetherRun(wb, wc) && SomeTogetherRun(wc, wd)
    ensures RunsOnTo(options, w, batch, wd)
  {
    hide DriverRun, SomeTogetherRun, Progresses;
    var ws := [wa, wb, wc, wd];
    assert TogetherHistory(ws) && ws[0] == wa && ws[|ws| - 1] == wd;
  }

  /** A batch of all awaiting keys sees the old operation cancelled, so the key is submitted once more. */
  lemma CollisionSubmitsTwice(options: PollOptions, w: World, k: Key, k': Key, own: OpId, n: OpId)
    returns (wc: World, wd: World)
    requires TrueJournal(w) && Collides(w, k, k', own, n) && n !in w.finished && !k.blank && options.Valid()
    ensures SomeTogetherRun(w, wc) && SomeTogetherRun(wc, wd) && !AtMostOne(wd)
  {
    CollidesMeans(w, k, k', own, n);
    hide *;
    var all := AwaitingKeys(w.journal);
    var batch := BatchOfKeys(all);
    WholeBatchKeepsTogether(w.journal, KeySet(batch));
    WholeBatchAwaits(w.journal, KeySet(batch));
    GroupIsListed(w, batch, k', own);
    wc := SeeCancelled(options, w, batch, k, own);
    var n2 := FreshName(wc.owner.Keys);
    EmptyDraftFits(k);
    wd := ResubmitAlone(options, wc, Resource(k, 0), n2);
    FinishedIsOwned(wc, n2);
    BothOutstanding(w, wd, k, own, n, n2);
    NotAtMostOne(wd, k);
  }

  lemma WholeBatchAwaits(journal: map<Key, JournalValue>, keys: set<Key>)
    requires forall k :: Awaits(journal, k) <==> k in keys
    ensures AllAwait(journal, keys)
  {
    hide Awaits;
  }

  lemma AwaitingKeys(journal: map<Key, JournalValue>) returns (keys: set<Key>)
    ensures forall k :: Awaits(journal, k) <==> k in keys
  {
    keys := set k | k in journal && Awaits(journal, k);
  }

  lemma {:induction false} BatchOfKeys(keys: set<Key>) returns (batch: seq<Resource>)
    ensures Distinct(KeysOf(batch)) && KeySet(batch) == keys
    decreases |keys|
  {
    batch := [];
    if keys != {} {
      var k :| k in keys;
      var rest := BatchOfKeys(keys - {k});
      batch := rest + [Resource(k, 0)];
      KeySetIsElements(rest);
      KeySetIsElements(batch);
      assert KeysOf(batch) == KeysOf(rest) + [k];
      assert k !in KeySet(rest);
      DistinctConcat(KeysOf(rest), [k]);
      assert keys == (keys - {k}) + {k};
    }
  }

  lemma BothOutstanding(w: World, w': World, k: Key, own: OpId, n: OpId, n2: OpId)
    requires own in w.owner && own != n && n in w.owner && w.owner[n] == k && n !in w.finished
    requires n2 !in w.owner && w'.owner == w.owner[n2 := k] && w'.finished == w.finished + {own}
    requires n2 !in w'.finished
    ensures |Outstanding(w', k)| >= 2
  {
    assert n in Outstanding(w', k) && n2 in Outstanding(w', k);
    SubsetSize({n, n2}, Outstanding(w', k));
    assert |{n, n2}| == 2;
  }
}
