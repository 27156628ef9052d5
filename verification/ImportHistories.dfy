/** Whole histories of runs: what always holds, and what batches that keep candidate groups together add. */
module ImportHistories {
  import opened Basics
  import opened Chunking
  import opened ImportOutcomes
  import opened ImportPolling
  import opened ImportSubmission
  import opened ImportAwait
  import opened ImportRuns
  import opened ImportTogether
  import opened ImportBatch
  import opened ImportDriver

  // ---------- Histories ----------

  const EMPTY: World := World(map[], {}, multiset{}, map[])

  ghost predicate SomeRun(w: World, w': World) {
    exists options, batch, e, c :: DriverRun(options, w, batch, e, c, w')
  }

  ghost predicate SomeTogetherRun(w: World, w': World) {
    exists options, batch, e, c ::
      DriverRun(options, w, batch, e, c, w') && KeepsTogether(w.journal, KeySet(batch))
  }

  /** The worlds of any number of runs of the driver, with progress of the provider in between. */
  ghost predicate History(ws: seq<World>) {
    && |ws| > 0
    && forall i :: 0 <= i < |ws| - 1 ==> Progresses(ws[i], ws[i + 1]) || SomeRun(ws[i], ws[i + 1])
  }

  /** A history in which every batch keeps candidate groups together. */
  ghost predicate TogetherHistory(ws: seq<World>) {
    && |ws| > 0
    && forall i :: 0 <= i < |ws| - 1 ==> Progresses(ws[i], ws[i + 1]) || SomeTogetherRun(ws[i], ws[i + 1])
  }

  lemma ProgressKeepsAll(w: World, w': World)
    requires Progresses(w, w') && TrueJournal(w)
    ensures TrueJournal(w')
    ensures Shared(w) ==> Shared(w')
    ensures Safe(w) ==> Safe(w')
  {
    forall k ensures TrueEntry(w'.owner, w'.journal, k) {
      assert TrueEntry(w.owner, w.journal, k);
    }
    if Shared(w) {
      forall k ensures SharedEntry(w', k) {
        assert SharedEntry(w, k);
      }
    }
    if Safe(w) {
      forall k ensures SafeEntry(w', k) {
        assert SafeEntry(w, k);
        ProgressOnlyFinishes(w, w', k);
        hide Decision, Outstanding;
      }
    }
  }

  lemma ProgressOnlyFinishes(w: World, w': World, k: Key)
    requires Progresses(w, w')
    ensures Outstanding(w', k) <= Outstanding(w, k)
  {
  }

  lemma EmptyIsTrueSafeShared()
    ensures TrueJournal(EMPTY) && Safe(EMPTY) && Shared(EMPTY)
  {
  }

  /** Over any runs, every awaiting entry lists its true operation and only operations of its keys. */
  lemma {:induction false} AnyHistoryKeepsJournalTrue(ws: seq<World>)
    requires History(ws) && ws[0] == EMPTY
    ensures TrueJournal(ws[|ws| - 1])
  {
    var n := |ws| - 1;
    if n == 0 {
      EmptyIsTrueSafeShared();
    } else {
      AnyHistoryKeepsJournalTrue(ws[..n]);
      StepKeepsJournalTrue(ws[n - 1], ws[n]);
    }
  }

  lemma StepKeepsJournalTrue(w: World, w': World)
    requires TrueJournal(w) && (Progresses(w, w') || SomeRun(w, w'))
    ensures TrueJournal(w')
  {
    if Progresses(w, w') {
      ProgressKeepsAll(w, w');
    } else {
      hide DriverRun, Run, TrueJournal;
      var options, batch, e, c :| DriverRun(options, w, batch, e, c, w');
      DriverRunIsRun(options, w, batch, e, c, w');
      RunKeepsJournalTrue(options, w, batch, c, w');
    }
  }

  /**
   * Over any runs whose batches keep candidate groups together, each key has at most one operation
   * that is unfinished or possibly accepted.
   */
  lemma TogetherHistoryIsSafe(ws: seq<World>)
    requires TogetherHistory(ws) && ws[0] == EMPTY
    ensures AtMostOne(ws[|ws| - 1])
  {
    TogetherHistoryStaysShared(ws);
    hide *;
    SafeIsAtMostOne(ws[|ws| - 1]);
  }

  /**
   * After such runs, awaiting any batch ends without a contract error: whatever is truthfully seen at
   * any time, and so, with valid options, whatever the provider truthfully answers in each round.
   */
  lemma TogetherHistoryAwaitEnds(ws: seq<World>, options: PollOptions, batch: seq<Resource>)
    requires TogetherHistory(ws) && ws[0] == EMPTY && Distinct(KeysOf(batch))
    ensures AlwaysEnds(options, ws[|ws| - 1], batch)
    ensures options.Valid() ==> AwaitSucceeds(options, ws[|ws| - 1], batch)
  {
    TogetherHistoryStaysShared(ws);
    hide *;
    SharedHasNoSharedOwner(ws[|ws| - 1], batch);
    AwaitFailsExactlyOnSharedOwner(options, ws[|ws| - 1], batch);
    if options.Valid() {
      EndingAwaitSucceeds(options, ws[|ws| - 1], batch);
    }
  }

  /** From any safe world with a shared journal, such runs keep it so. */
  lemma {:induction false} TogetherHistoryKeepsShared(ws: seq<World>)
    requires TogetherHistory(ws) && TrueJournal(ws[0]) && Safe(ws[0]) && Shared(ws[0])
    ensures TrueJournal(ws[|ws| - 1]) && Safe(ws[|ws| - 1]) && Shared(ws[|ws| - 1])
  {
    var n := |ws| - 1;
    if n > 0 {
      hide TrueJournal, Safe, Shared, SomeTogetherRun, Progresses;
      TogetherHistoryKeepsShared(ws[..n]);
      TogetherStepIsSafe(ws[n - 1], ws[n]);
    }
  }

  lemma TogetherHistoryStaysShared(ws: seq<World>)
    requires TogetherHistory(ws) && ws[0] == EMPTY
    ensures TrueJournal(ws[|ws| - 1]) && Safe(ws[|ws| - 1]) && Shared(ws[|ws| - 1])
  {
    EmptyIsTrueSafeShared();
    hide *;
    TogetherHistoryKeepsShared(ws);
  }

  lemma TogetherStepIsSafe(w: World, w': World)
    requires TrueJournal(w) && Safe(w) && Shared(w) && (Progresses(w, w') || SomeTogetherRun(w, w'))
    ensures TrueJournal(w') && Safe(w') && Shared(w')
  {
    if Progresses(w, w') {
      ProgressKeepsAll(w, w');
    } else {
      hide DriverRun, Run, TrueJournal, Safe, Shared, KeepsTogether;
      var options, batch, e, c :|
        DriverRun(options, w, batch, e, c, w') && KeepsTogether(w.journal, KeySet(batch));
      DriverRunIsRun(options, w, batch, e, c, w');
      RunKeepsJournalTrue(options, w, batch, c, w');
      RunFromSharedIsSafe(options, w, batch, c, w');
      RunKeepsShared(options, w, batch, c, w');
    }
  }

  /** A batch with every awaiting key keeps all candidate groups together. */
  lemma WholeBatchKeepsTogether(journal: map<Key, JournalValue>, keys: set<Key>)
    requires forall k :: Awaits(journal, k) ==> k in keys
    ensures KeepsTogether(journal, keys)
  {
  }
}
