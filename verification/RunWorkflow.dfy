/** The durable run workflow: scan every definition, reconcile orphans in reverse, finalize once. */
module RunWorkflow {
  import opened Basics

  type DefinitionId = Name

  datatype SummaryStatus = Succeeded | Failed | Skipped

  datatype OrphanCounts = OrphanCounts(orphaned: nat, rollbackFailed: nat, rolledBack: nat)

  /** `scanned` stands for the counts of the scan, which the workflow only passes on. */
  datatype Summary = Summary(
    definitionId: DefinitionId, status: SummaryStatus, scanned: nat, orphans: Option<OrphanCounts>)

  function MergeRollbackOrphansCounts(summary: Summary, counts: OrphanCounts): Summary {
    summary.(orphans := Some(counts), status := if counts.rollbackFailed > 0 then Failed else summary.status)
  }

  datatype WindowResult = WindowThrows | WindowContinues | WindowCancelled | WindowCompleted(summary: Summary)

  datatype PageResult = PageThrows | PageContinues | PageCancelled | PageCompleted(counts: OrphanCounts)

  /**
   * How the durable steps answer: `window(d, k)` is the `k`th cursor window of definition `d` and
   * `page(d, k)` its `k`th orphan page. `begin` says whether orphans are rolled back; None throws.
   */
  datatype Steps = Steps(
    begin: Option<bool>, window: (DefinitionId, nat) -> WindowResult, page: (DefinitionId, nat) -> PageResult,
    cancelThrows: bool)

  datatype Call =
    | BeginCall
    | WindowCall(id: DefinitionId, number: nat)
    | PageCall(id: DefinitionId, number: nat)
    | Cancel(definitions: seq<Summary>)
    | Complete(definitions: seq<Summary>)
    | Fail(definitions: seq<Summary>, failedId: Option<DefinitionId>)
  {
    predicate Finalizes() { Cancel? || Complete? || Fail? }
  }

  /** The first window and page that end a definition: every trace considered is finite. */
  datatype Ends = Ends(windows: DefinitionId -> nat, pages: DefinitionId -> nat)

  ghost predicate EndsAt(steps: Steps, ends: Ends) {
    && (forall d, k: nat :: k < ends.windows(d) ==> steps.window(d, k).WindowContinues?)
    && (forall d :: !steps.window(d, ends.windows(d)).WindowContinues?)
    && (forall d, k: nat :: k < ends.pages(d) ==> steps.page(d, k).PageContinues?)
    && (forall d :: !steps.page(d, ends.pages(d)).PageContinues?)
  }

  /** A completed scan returns the summary of the definition it was asked for. */
  ghost predicate Faithful(steps: Steps) {
    forall d, k: nat :: steps.window(d, k).WindowCompleted? ==> steps.window(d, k).summary.definitionId == d
  }

  ghost function ScanResult(steps: Steps, ends: Ends, d: DefinitionId): WindowResult {
    steps.window(d, ends.windows(d))
  }

  ghost function OrphanResult(steps: Steps, ends: Ends, d: DefinitionId): PageResult {
    steps.page(d, ends.pages(d))
  }

  // ---------- Expected calls ----------

  ghost function WindowCalls(d: DefinitionId, count: nat): seq<Call> {
    seq(count, k requires 0 <= k < count => WindowCall(d, k))
  }

  ghost function PageCalls(d: DefinitionId, count: nat): seq<Call> {
    seq(count, k requires 0 <= k < count => PageCall(d, k))
  }

  ghost function ScanCalls(ids: seq<DefinitionId>, ends: Ends): seq<Call> {
    if ids == [] then []
    else ScanCalls(ids[..|ids| - 1], ends) + WindowCalls(ids[|ids| - 1], ends.windows(ids[|ids| - 1]) + 1)
  }

  /** Orphan pages of the last `m` definitions, from the last one back. */
  ghost function OrphanCalls(ids: seq<DefinitionId>, ends: Ends, m: nat): seq<Call>
    requires m <= |ids|
  {
    if m == 0 then []
    else OrphanCalls(ids, ends, m - 1) + PageCalls(ids[|ids| - m], ends.pages(ids[|ids| - m]) + 1)
  }

  // ---------- Scanning ----------

  datatype Stop = Finished | CancelledAt(id: DefinitionId) | ThrewAt(id: DefinitionId)

  function StopOf(d: DefinitionId, cancelled: bool): Stop {
    if cancelled then CancelledAt(d) else ThrewAt(d)
  }

  ghost predicate AllCompleted(ids: seq<DefinitionId>, steps: Steps, ends: Ends, n: nat)
    requires n <= |ids|
  {
    forall j :: 0 <= j < n ==> ScanResult(steps, ends, ids[j]).WindowCompleted?
  }

  /** The summaries of the first `n` scans, in execution order. */
  ghost predicate Summarizes(definitions: seq<Summary>, ids: seq<DefinitionId>, steps: Steps, ends: Ends, n: nat)
    requires n <= |ids|
  {
    && AllCompleted(ids, steps, ends, n)
    && |definitions| == n
    && forall j :: 0 <= j < n ==> definitions[j] == ScanResult(steps, ends, ids[j]).summary
  }

  /** One definition's windows, up to the one that ends it. */
  method ScanDefinition(d: DefinitionId, steps: Steps, ghost ends: Ends)
    returns (result: WindowResult, log: seq<Call>)
    requires EndsAt(steps, ends)
    ensures result == ScanResult(steps, ends, d) && log == WindowCalls(d, ends.windows(d) + 1)
  {
    var k := 0;
    log := [];
    while true
      invariant k <= ends.windows(d) && log == WindowCalls(d, k)
      decreases ends.windows(d) - k
    {
      result := steps.window(d, k);
      log := log + [WindowCall(d, k)];
      k := k + 1;
      if !result.WindowContinues? {
        break;
      }
    }
  }

  method ScanAll(ids: seq<DefinitionId>, steps: Steps, rollbackOrphans: bool, ghost ends: Ends)
    returns (stop: Stop, definitions: seq<Summary>, completed: seq<Summary>, log: seq<Call>, n: nat)
    requires EndsAt(steps, ends)
    ensures n <= |ids| && Summarizes(definitions, ids, steps, ends, n)
    ensures completed == if rollbackOrphans then [] else definitions
    ensures stop.Finished? <==> n == |ids|
    ensures n < |ids| ==> !ScanResult(steps, ends, ids[n]).WindowCompleted?
    ensures n < |ids| ==> stop == StopOf(ids[n], ScanResult(steps, ends, ids[n]).WindowCancelled?)
    ensures log == ScanCalls(ids[..if n < |ids| then n + 1 else n], ends)
  {
    definitions, completed, log, n := [], [], [], 0;
    for i := 0 to |ids|
      invariant n == i && Summarizes(definitions, ids, steps, ends, i)
      invariant completed == if rollbackOrphans then [] else definitions
      invariant log == ScanCalls(ids[..i], ends)
    {
      var d := ids[i];
      var result;
      var calls;
      result, calls := ScanDefinition(d, steps, ends);
      assert ids[..i + 1][..i] == ids[..i];
      log := log + calls;
      match result {
        case WindowCompleted(summary) =>
          definitions := definitions + [summary];
          completed := if rollbackOrphans then completed else completed + [summary];
        case WindowCancelled =>
          return CancelledAt(d), definitions, completed, log, n;
        case _ =>
          return ThrewAt(d), definitions, completed, log, n;
      }
      n := n + 1;
    }
    stop := Finished;
  }

  // ---------- Reconciling orphans ----------

  method ReconcileDefinition(d: DefinitionId, steps: Steps, ghost ends: Ends)
    returns (result: PageResult, log: seq<Call>)
    requires EndsAt(steps, ends)
    ensures result == OrphanResult(steps, ends, d) && log == PageCalls(d, ends.pages(d) + 1)
  {
    var k := 0;
    log := [];
    while true
      invariant k <= ends.pages(d) && log == PageCalls(d, k)
      decreases ends.pages(d) - k
    {
      result := steps.page(d, k);
      log := log + [PageCall(d, k)];
      k := k + 1;
      if !result.PageContinues? {
        break;
      }
    }
  }

  /** The position of the definition's summary; the number of summaries when there is none. */
  method FindDefinition(definitions: seq<Summary>, d: DefinitionId) returns (index: nat)
    ensures index <= |definitions|
    ensures index < |definitions| ==> definitions[index].definitionId == d
    ensures forall j :: 0 <= j < index ==> definitions[j].definitionId != d
  {
    index := 0;
    while index < |definitions| && definitions[index].definitionId != d
      invariant index <= |definitions| && forall j :: 0 <= j < index ==> definitions[j].definitionId != d
    {
      index := index + 1;
    }
  }

  /** What definition `j` ends with once its orphans are reconciled. */
  ghost function Merged(scans: seq<Summary>, steps: Steps, ends: Ends, j: nat): Summary
    requires j < |scans|
  {
    var result := OrphanResult(steps, ends, scans[j].definitionId);
    if result.PageCompleted? then MergeRollbackOrphansCounts(scans[j], result.counts) else scans[j]
  }

  /** The last `m` definitions are reconciled: replaced in place, and listed as completed from the last back. */
  ghost predicate Reconciled(
    scans: seq<Summary>, definitions: seq<Summary>, completed: seq<Summary>, steps: Steps, ends: Ends, m: nat)
    requires m <= |scans|
  {
    && |definitions| == |scans| && |completed| == m
    && (forall j :: 0 <= j < |scans| - m ==> definitions[j] == scans[j])
    && (forall j :: |scans| - m <= j < |scans| ==>
          OrphanResult(steps, ends, scans[j].definitionId).PageCompleted? && definitions[j] == Merged(scans, steps, ends, j))
    && (forall j :: 0 <= j < m ==> completed[j] == Merged(scans, steps, ends, |scans| - 1 - j))
  }

  ghost predicate AreOf(scans: seq<Summary>, ids: seq<DefinitionId>) {
    |scans| == |ids| && forall j :: 0 <= j < |ids| ==> scans[j].definitionId == ids[j]
  }

  /** Reconcile the definition `i` places from the end, replacing its summary when its orphans complete. */
  method ReconcileNext(
    ids: seq<DefinitionId>, ghost scans: seq<Summary>, before: seq<Summary>, completedBefore: seq<Summary>,
    steps: Steps, ghost ends: Ends, i: nat)
    returns (result: PageResult, definitions: seq<Summary>, completed: seq<Summary>, calls: seq<Call>)
    requires EndsAt(steps, ends) && Distinct(ids) && AreOf(scans, ids) && i < |ids|
    requires Reconciled(scans, before, completedBefore, steps, ends, i)
    ensures var d := ids[|ids| - 1 - i];
      result == OrphanResult(steps, ends, d) && calls == PageCalls(d, ends.pages(d) + 1)
    ensures Reconciled(scans, definitions, completed, steps, ends, if result.PageCompleted? then i + 1 else i)
  {
    hide Reconciled, EndsAt, Distinct, AreOf, MergeRollbackOrphansCounts, PageCalls, OrphanResult;
    definitions, completed := before, completedBefore;
    var d := ids[|ids| - 1 - i];
    result, calls := ReconcileDefinition(d, steps, ends);
    if result.PageCompleted? {
      var index := FindDefinition(definitions, d);
      OnlyPosition(ids, scans, definitions, completed, steps, ends, i, index);
      if index < |definitions| {
        ReconcileOneMore(ids, scans, definitions, completed, steps, ends, i);
        var merged := MergeRollbackOrphansCounts(definitions[index], result.counts);
        definitions := definitions[index := merged];
        completed := completed + [merged];
      }
    }
  }

  lemma NothingReconciled(scans: seq<Summary>, steps: Steps, ends: Ends)
    ensures Reconciled(scans, scans, [], steps, ends, 0)
  {
  }

  lemma OrphanCallsOneMore(ids: seq<DefinitionId>, ends: Ends, i: nat)
    requires i < |ids|
    ensures var d := ids[|ids| - 1 - i];
      OrphanCalls(ids, ends, i + 1) == OrphanCalls(ids, ends, i) + PageCalls(d, ends.pages(d) + 1)
  {
    hide PageCalls;
  }

  method ReconcileAll(ids: seq<DefinitionId>, scans: seq<Summary>, steps: Steps, ghost ends: Ends)
    returns (stop: Stop, definitions: seq<Summary>, completed: seq<Summary>, log: seq<Call>, m: nat)
    requires EndsAt(steps, ends) && Distinct(ids) && AreOf(scans, ids)
    ensures m <= |ids| && m <= |scans| && Reconciled(scans, definitions, completed, steps, ends, m)
    ensures stop.Finished? <==> m == |ids|
    ensures m < |ids| ==> !OrphanResult(steps, ends, ids[|ids| - 1 - m]).PageCompleted?
    ensures m < |ids| ==>
      stop == StopOf(ids[|ids| - 1 - m], OrphanResult(steps, ends, ids[|ids| - 1 - m]).PageCancelled?)
    ensures log == OrphanCalls(ids, ends, if m < |ids| then m + 1 else m)
  {
    assert |scans| == |ids|;
    hide Reconciled, EndsAt, Distinct, AreOf, PageCalls, OrphanResult, OrphanCalls;
    definitions, completed, log, m := scans, [], [], 0;
    NothingReconciled(scans, steps, ends);
    NoOrphanCalls(ids, ends);
    for i := 0 to |ids|
      invariant m == i && Reconciled(scans, definitions, completed, steps, ends, i)
      invariant log == OrphanCalls(ids, ends, i)
    {
      var result, calls;
      result, definitions, completed, calls := ReconcileNext(ids, scans, definitions, completed, steps, ends, i);
      OrphanCallsOneMore(ids, ends, i);
      log := log + calls;
      if !result.PageCompleted? {
        stop := StopOf(ids[|ids| - 1 - i], result.PageCancelled?);
        return;
      }
      m := m + 1;
    }
    stop := Finished;
  }

  lemma NoOrphanCalls(ids: seq<DefinitionId>, ends: Ends)
    ensures OrphanCalls(ids, ends, 0) == []
  {
  }

  lemma OnlyPosition(ids: seq<DefinitionId>, scans: seq<Summary>, definitions: seq<Summary>, completed: seq<Summary>,
                     steps: Steps, ends: Ends, i: nat, index: nat)
    requires Distinct(ids) && AreOf(scans, ids) && i < |ids| && Reconciled(scans, definitions, completed, steps, ends, i)
    requires index <= |definitions|
    requires index < |definitions| ==> definitions[index].definitionId == ids[|ids| - 1 - i]
    requires forall j :: 0 <= j < index ==> definitions[j].definitionId != ids[|ids| - 1 - i]
    ensures |definitions| == |ids| && index == |ids| - 1 - i
  {
    assert definitions[|ids| - 1 - i].definitionId == ids[|ids| - 1 - i];
    assert index < |definitions|;
    assert definitions[index].definitionId == ids[index];
  }

  lemma ReconcileOneMore(ids: seq<DefinitionId>, scans: seq<Summary>, definitions: seq<Summary>,
                         completed: seq<Summary>, steps: Steps, ends: Ends, i: nat)
    requires AreOf(scans, ids) && i < |ids| && Reconciled(scans, definitions, completed, steps, ends, i)
    requires OrphanResult(steps, ends, ids[|ids| - 1 - i]).PageCompleted?
    ensures |definitions| == |ids|
    ensures var index := |ids| - 1 - i;
      var merged := MergeRollbackOrphansCounts(definitions[index], OrphanResult(steps, ends, ids[index]).counts);
      Reconciled(scans, definitions[index := merged], completed + [merged], steps, ends, i + 1)
  {
    hide MergeRollbackOrphansCounts, OrphanResult;
  }

  // ---------- The workflow ----------

  const NO_ORPHANS: OrphanCounts := OrphanCounts(0, 0, 0)

  /** A run with orphan rollback reports zero counts for every scan until its orphans are reconciled. */
  method WithoutOrphans(definitions: seq<Summary>) returns (merged: seq<Summary>)
    ensures merged == Unreconciled(definitions)
  {
    merged := definitions;
    for i := 0 to |definitions|
      invariant |merged| == |definitions|
      invariant forall j :: 0 <= j < i ==> merged[j] == definitions[j].(orphans := Some(NO_ORPHANS))
      invariant forall j :: i <= j < |merged| ==> merged[j] == definitions[j]
    {
      merged := merged[i := MergeRollbackOrphansCounts(merged[i], NO_ORPHANS)];
    }
  }

  predicate AllSucceeded(definitions: seq<Summary>) {
    forall j :: 0 <= j < |definitions| ==> definitions[j].status.Succeeded?
  }

  /** Where the body of the workflow ended, before any finalizer. */
  datatype Ending =
    | BeginThrew
    | ScanStopped(n: nat, stop: Stop)
    | Scanned
    | OrphansStopped(m: nat, stop: Stop)
    | AllReconciled

  ghost predicate OrphansCompleted(ids: seq<DefinitionId>, steps: Steps, ends: Ends, m: nat) {
    forall j :: 0 <= j < |ids| && |ids| - m <= j ==> OrphanResult(steps, ends, ids[j]).PageCompleted?
  }

  ghost predicate AllScansSucceeded(ids: seq<DefinitionId>, steps: Steps, ends: Ends) {
    forall j :: 0 <= j < |ids| ==>
      ScanResult(steps, ends, ids[j]).WindowCompleted? && ScanResult(steps, ends, ids[j]).summary.status.Succeeded?
  }

  /** The workflow ends where the steps say it does. */
  ghost predicate EndsThere(ids: seq<DefinitionId>, steps: Steps, ends: Ends, ending: Ending) {
    match ending
    case BeginThrew => steps.begin.None?
    case ScanStopped(n, stop) =>
      && steps.begin.Some? && n < |ids| && AllCompleted(ids, steps, ends, n)
      && !ScanResult(steps, ends, ids[n]).WindowCompleted?
      && stop == StopOf(ids[n], ScanResult(steps, ends, ids[n]).WindowCancelled?)
    case Scanned =>
      && steps.begin.Some? && AllCompleted(ids, steps, ends, |ids|)
      && (steps.begin.value ==> !AllScansSucceeded(ids, steps, ends))
    case OrphansStopped(m, stop) =>
      && steps.begin == Some(true) && m < |ids| && AllScansSucceeded(ids, steps, ends)
      && OrphansCompleted(ids, steps, ends, m)
      && !OrphanResult(steps, ends, ids[|ids| - 1 - m]).PageCompleted?
      && stop == StopOf(ids[|ids| - 1 - m], OrphanResult(steps, ends, ids[|ids| - 1 - m]).PageCancelled?)
    case AllReconciled =>
      && steps.begin == Some(true) && AllScansSucceeded(ids, steps, ends) && OrphansCompleted(ids, steps, ends, |ids|)
  }

  /** The calls made before the first finalizer. */
  ghost function BodyCalls(ids: seq<DefinitionId>, ends: Ends, ending: Ending): seq<Call>
    requires ending.ScanStopped? ==> ending.n < |ids|
    requires ending.OrphansStopped? ==> ending.m < |ids|
  {
    match ending
    case BeginThrew => [BeginCall]
    case ScanStopped(n, _) => [BeginCall] + ScanCalls(ids[..n + 1], ends)
    case Scanned => [BeginCall] + ScanCalls(ids, ends)
    case OrphansStopped(m, _) => [BeginCall] + ScanCalls(ids, ends) + OrphanCalls(ids, ends, m + 1)
    case AllReconciled => [BeginCall] + ScanCalls(ids, ends) + OrphanCalls(ids, ends, |ids|)
  }

  // ---------- What the finalizers are given ----------

  ghost function ScanSummaries(ids: seq<DefinitionId>, steps: Steps, ends: Ends, n: nat): seq<Summary>
    requires n <= |ids| && AllCompleted(ids, steps, ends, n)
  {
    seq(n, j requires 0 <= j < n => ScanResult(steps, ends, ids[j]).summary)
  }

  function Unreconciled(definitions: seq<Summary>): seq<Summary> {
    seq(|definitions|, j requires 0 <= j < |definitions| => definitions[j].(orphans := Some(NO_ORPHANS)))
  }

  ghost function Scans(ids: seq<DefinitionId>, steps: Steps, ends: Ends): seq<Summary>
    requires AllScansSucceeded(ids, steps, ends)
  {
    Unreconciled(ScanSummaries(ids, steps, ends, |ids|))
  }

  /** The definitions finished when the workflow ended: those whose last phase is complete. */
  ghost function FinishedDefinitions(ids: seq<DefinitionId>, steps: Steps, ends: Ends, ending: Ending): seq<Summary>
    requires EndsThere(ids, steps, ends, ending)
  {
    match ending
    case BeginThrew => []
    case ScanStopped(n, _) => if steps.begin.value then [] else ScanSummaries(ids, steps, ends, n)
    case Scanned => if steps.begin.value then [] else ScanSummaries(ids, steps, ends, |ids|)
    case OrphansStopped(m, _) =>
      var scans := Scans(ids, steps, ends);
      seq(m, j requires 0 <= j < m => Merged(scans, steps, ends, |ids| - 1 - j))
    case AllReconciled =>
      var scans := Scans(ids, steps, ends);
      seq(|ids|, j requires 0 <= j < |ids| => Merged(scans, steps, ends, |ids| - 1 - j))
  }

  /** The definitions a completed run reports, in execution order. */
  ghost function CompleteDefinitions(ids: seq<DefinitionId>, steps: Steps, ends: Ends, ending: Ending): seq<Summary>
    requires EndsThere(ids, steps, ends, ending) && (ending.Scanned? || ending.AllReconciled?)
  {
    if ending.AllReconciled? then
      var scans := Scans(ids, steps, ends);
      seq(|ids|, j requires 0 <= j < |ids| => Merged(scans, steps, ends, j))
    else
      var scans := ScanSummaries(ids, steps, ends, |ids|);
      if steps.begin.value then Unreconciled(scans) else scans
  }

  /** The finalizer calls: one, and a failure as well when cancelling throws. */
  ghost function Finalizers(ids: seq<DefinitionId>, steps: Steps, ends: Ends, ending: Ending): seq<Call>
    requires EndsThere(ids, steps, ends, ending)
  {
    match ending
    case BeginThrew => [Fail([], None)]
    case Scanned => [Complete(CompleteDefinitions(ids, steps, ends, ending))]
    case AllReconciled => [Complete(CompleteDefinitions(ids, steps, ends, ending))]
    case ScanStopped(_, stop) => StopCalls(stop, steps, FinishedDefinitions(ids, steps, ends, ending))
    case OrphansStopped(_, stop) => StopCalls(stop, steps, FinishedDefinitions(ids, steps, ends, ending))
  }

  ghost function StopCalls(stop: Stop, steps: Steps, finished: seq<Summary>): seq<Call>
    requires !stop.Finished?
  {
    if stop.ThrewAt? then [Fail(finished, Some(stop.id))]
    else if steps.cancelThrows then [Cancel(finished), Fail(finished, Some(stop.id))]
    else [Cancel(finished)]
  }

  /** Finalizing after a stop: cancel, or fail; a cancel that throws is caught and fails the run. */
  method FinalizeStop(stop: Stop, steps: Steps, completed: seq<Summary>) returns (calls: seq<Call>)
    requires !stop.Finished?
    ensures calls == StopCalls(stop, steps, completed)
  {
    calls := [];
    if stop.CancelledAt? {
      calls := [Cancel(completed)];
      if !steps.cancelThrows {
        return;
      }
    }
    calls := calls + [Fail(completed, Some(stop.id))];
  }

  // ---------- What is reported ----------

  /** A scan as a completed run reports it: unchanged, or with zero orphan counts when orphans are rolled back. */
  predicate IsScan(s: Summary, scan: Summary, rollbackOrphans: bool) {
    && s.definitionId == scan.definitionId && s.status == scan.status && s.scanned == scan.scanned
    && s.orphans == if rollbackOrphans then Some(OrphanCounts(0, 0, 0)) else scan.orphans
  }

  /** A scan with the counts of its reconciled orphans, failed when one could not be rolled back. */
  predicate IsReconciled(s: Summary, scan: Summary, counts: OrphanCounts) {
    && s.definitionId == scan.definitionId && s.scanned == scan.scanned && s.orphans == Some(counts)
    && s.status == if counts.rollbackFailed > 0 then Failed else scan.status
  }

  /** A cancel, a cancel that throws and is then failed, or a failure: of definition `d`, with the same summaries. */
  predicate StopsAt(calls: seq<Call>, d: DefinitionId, cancelled: bool, cancelThrows: bool) {
    if !cancelled then |calls| == 1 && calls[0].Fail? && calls[0].failedId == Some(d)
    else if !cancelThrows then |calls| == 1 && calls[0].Cancel?
    else |calls| == 2 && calls[0].Cancel? && calls[1] == Fail(calls[0].definitions, Some(d))
  }

  /** The summaries of the first `n` scans, in execution order. */
  ghost predicate ListsScans(definitions: seq<Summary>, ids: seq<DefinitionId>, steps: Steps, ends: Ends, n: nat) {
    && n <= |ids| && |definitions| == n
    && forall j :: 0 <= j < n ==>
         && ScanResult(steps, ends, ids[j]).WindowCompleted?
         && definitions[j] == ScanResult(steps, ends, ids[j]).summary
  }

  /** The last `m` definitions with their orphans reconciled, from the last one back. */
  ghost predicate ListsReconciled(definitions: seq<Summary>, ids: seq<DefinitionId>, steps: Steps, ends: Ends, m: nat) {
    && m <= |ids| && |definitions| == m
    && forall j :: 0 <= j < m ==> ReconciledAt(definitions[j], steps, ends, ids[|ids| - 1 - j])
  }

  ghost predicate ReconciledAt(s: Summary, steps: Steps, ends: Ends, d: DefinitionId) {
    && ScanResult(steps, ends, d).WindowCompleted? && OrphanResult(steps, ends, d).PageCompleted?
    && IsReconciled(s, ScanResult(steps, ends, d).summary, OrphanResult(steps, ends, d).counts)
  }

  /**
   * What the finalizers of a run report. Stopped while scanning: the scans before it, or nothing when
   * orphans are to be rolled back, as no definition has then ended its last phase. Stopped while
   * reconciling: the definitions reconciled so far, from the last one back. Completed: every
   * definition in execution order.
   */
  ghost predicate Reported(calls: seq<Call>, ids: seq<DefinitionId>, steps: Steps, ends: Ends, ending: Ending) {
    match ending
    case BeginThrew => calls == [Fail([], None)]
    case ScanStopped(n, _) =>
      && steps.begin.Some? && n < |ids|
      && StopsAt(calls, ids[n], ScanResult(steps, ends, ids[n]).WindowCancelled?, steps.cancelThrows)
      && (if steps.begin.value then calls[0].definitions == [] else ListsScans(calls[0].definitions, ids, steps, ends, n))
    case Scanned =>
      && steps.begin.Some? && |calls| == 1 && calls[0].Complete? && |calls[0].definitions| == |ids|
      && forall j :: 0 <= j < |ids| ==>
           && ScanResult(steps, ends, ids[j]).WindowCompleted?
           && IsScan(calls[0].definitions[j], ScanResult(steps, ends, ids[j]).summary, steps.begin.value)
    case OrphansStopped(m, _) =>
      && m < |ids|
      && StopsAt(calls, ids[|ids| - 1 - m], OrphanResult(steps, ends, ids[|ids| - 1 - m]).PageCancelled?, steps.cancelThrows)
      && ListsReconciled(calls[0].definitions, ids, steps, ends, m)
    case AllReconciled =>
      && |calls| == 1 && calls[0].Complete? && |calls[0].definitions| == |ids|
      && forall j :: 0 <= j < |ids| ==> ReconciledAt(calls[0].definitions[j], steps, ends, ids[j])
  }

  lemma StopIsReported(stop: Stop, steps: Steps, finished: seq<Summary>)
    requires !stop.Finished?
    ensures StopsAt(StopCalls(stop, steps, finished), stop.id, stop.CancelledAt?, steps.cancelThrows)
    ensures StopCalls(stop, steps, finished)[0].definitions == finished
  {
  }

  lemma MergedIsReconciled(ids: seq<DefinitionId>, steps: Steps, ends: Ends, j: nat)
    requires Faithful(steps) && AllScansSucceeded(ids, steps, ends) && j < |ids|
    requires OrphanResult(steps, ends, ids[j]).PageCompleted?
    ensures ReconciledAt(Merged(Scans(ids, steps, ends), steps, ends, j), steps, ends, ids[j])
  {
    var scan := ScanResult(steps, ends, ids[j]).summary;
    assert scan.definitionId == ids[j];
    hide OrphanResult, ScanResult;
    assert Scans(ids, steps, ends)[j] == scan.(orphans := Some(NO_ORPHANS));
  }

  lemma ScanStopIsReported(ids: seq<DefinitionId>, steps: Steps, ends: Ends, n: nat, stop: Stop)
    requires EndsThere(ids, steps, ends, ScanStopped(n, stop))
    ensures Reported(Finalizers(ids, steps, ends, ScanStopped(n, stop)), ids, steps, ends, ScanStopped(n, stop))
  {
    StopIsReported(stop, steps, FinishedDefinitions(ids, steps, ends, ScanStopped(n, stop)));
    hide StopCalls, ScanResult, OrphanResult;
  }

  lemma OrphansStopIsReported(ids: seq<DefinitionId>, steps: Steps, ends: Ends, m: nat, stop: Stop)
    requires Faithful(steps) && EndsThere(ids, steps, ends, OrphansStopped(m, stop))
    ensures Reported(Finalizers(ids, steps, ends, OrphansStopped(m, stop)), ids, steps, ends, OrphansStopped(m, stop))
  {
    var finished := FinishedDefinitions(ids, steps, ends, OrphansStopped(m, stop));
    StopIsReported(stop, steps, finished);
    hide StopCalls, ScanResult, OrphanResult, Faithful, AllScansSucceeded;
    forall j | 0 <= j < m ensures ReconciledAt(finished[j], steps, ends, ids[|ids| - 1 - j]) {
      MergedIsReconciled(ids, steps, ends, |ids| - 1 - j);
    }
    hide ReconciledAt, FinishedDefinitions;
  }

  lemma CompletionIsReported(ids: seq<DefinitionId>, steps: Steps, ends: Ends, ending: Ending)
    requires Faithful(steps) && EndsThere(ids, steps, ends, ending) && (ending.Scanned? || ending.AllReconciled?)
    ensures Reported(Finalizers(ids, steps, ends, ending), ids, steps, ends, ending)
  {
    hide OrphanResult, Faithful;
    if ending.AllReconciled? {
      forall j | 0 <= j < |ids|
        ensures ReconciledAt(CompleteDefinitions(ids, steps, ends, ending)[j], steps, ends, ids[j])
      {
        MergedIsReconciled(ids, steps, ends, j);
      }
    }
    hide ReconciledAt;
  }

  /** Every run reports exactly what its steps left finished, however it ends. */
  lemma EndingIsReported(ids: seq<DefinitionId>, steps: Steps, ends: Ends, ending: Ending)
    requires Faithful(steps) && EndsThere(ids, steps, ends, ending)
    ensures Reported(Finalizers(ids, steps, ends, ending), ids, steps, ends, ending)
  {
    hide Faithful, EndsThere, Reported, Finalizers;
    match ending
    case BeginThrew => BeginIsReported(ids, steps, ends);
    case ScanStopped(n, stop) => ScanStopIsReported(ids, steps, ends, n, stop);
    case OrphansStopped(m, stop) => OrphansStopIsReported(ids, steps, ends, m, stop);
    case _ => CompletionIsReported(ids, steps, ends, ending);
  }

  lemma BeginIsReported(ids: seq<DefinitionId>, steps: Steps, ends: Ends)
    requires EndsThere(ids, steps, ends, BeginThrew)
    ensures Reported(Finalizers(ids, steps, ends, BeginThrew), ids, steps, ends, BeginThrew)
  {
  }

  // ---------- What is asked ----------

  /** How many windows the first `a` definitions take. */
  ghost function WindowsBefore(ids: seq<DefinitionId>, ends: Ends, a: nat): nat
    requires a <= |ids|
  {
    if a == 0 then 0 else WindowsBefore(ids, ends, a - 1) + ends.windows(ids[a - 1]) + 1
  }

  /** How many orphan pages the last `a` definitions take. */
  ghost function PagesBefore(ids: seq<DefinitionId>, ends: Ends, a: nat): nat
    requires a <= |ids|
  {
    if a == 0 then 0 else PagesBefore(ids, ends, a - 1) + ends.pages(ids[|ids| - a]) + 1
  }

  lemma {:induction false} WindowsOfPrefix(ids: seq<DefinitionId>, ends: Ends, a: nat)
    requires a < |ids|
    ensures WindowsBefore(ids[..|ids| - 1], ends, a) == WindowsBefore(ids, ends, a)
  {
    if a > 0 {
      WindowsOfPrefix(ids, ends, a - 1);
    }
  }

  /** Scanning asks for the windows of each definition in turn, from the first to the one that ends it. */
  lemma {:induction false} ScanAsksInOrder(ids: seq<DefinitionId>, ends: Ends, a: nat, k: nat)
    requires a < |ids| && k <= ends.windows(ids[a])
    ensures |ScanCalls(ids, ends)| == WindowsBefore(ids, ends, |ids|)
    ensures WindowsBefore(ids, ends, a) + k < |ScanCalls(ids, ends)|
    ensures ScanCalls(ids, ends)[WindowsBefore(ids, ends, a) + k] == WindowCall(ids[a], k)
  {
    var n := |ids| - 1;
    var before := ScanCalls(ids[..n], ends);
    WindowsOfPrefix(ids, ends, n);
    if a < n {
      WindowsOfPrefix(ids, ends, a);
      ScanAsksInOrder(ids[..n], ends, a, k);
    } else if n > 0 {
      ScanAsksInOrder(ids[..n], ends, 0, 0);
    }
    assert |before| == WindowsBefore(ids, ends, n);
  }

  /** Reconciling asks for the pages of each definition in turn, from the last one back. */
  lemma {:induction false} OrphansAskInOrder(ids: seq<DefinitionId>, ends: Ends, m: nat, a: nat, k: nat)
    requires a < m <= |ids| && k <= ends.pages(ids[|ids| - 1 - a])
    ensures |OrphanCalls(ids, ends, m)| == PagesBefore(ids, ends, m)
    ensures PagesBefore(ids, ends, a) + k < |OrphanCalls(ids, ends, m)|
    ensures OrphanCalls(ids, ends, m)[PagesBefore(ids, ends, a) + k] == PageCall(ids[|ids| - 1 - a], k)
  {
    if a < m - 1 {
      OrphansAskInOrder(ids, ends, m - 1, a, k);
    } else if m > 1 {
      OrphansAskInOrder(ids, ends, m - 1, 0, 0);
    }
  }

  lemma SummariesAre(definitions: seq<Summary>, ids: seq<DefinitionId>, steps: Steps, ends: Ends, n: nat)
    requires n <= |ids| && Summarizes(definitions, ids, steps, ends, n)
    ensures definitions == ScanSummaries(ids, steps, ends, n)
  {
  }

  lemma ReconciledIs(ids: seq<DefinitionId>, scans: seq<Summary>, definitions: seq<Summary>, completed: seq<Summary>,
                     steps: Steps, ends: Ends, m: nat)
    requires m <= |scans| && AreOf(scans, ids) && Reconciled(scans, definitions, completed, steps, ends, m)
    ensures OrphansCompleted(ids, steps, ends, m)
    ensures completed == seq(m, j requires 0 <= j < m => Merged(scans, steps, ends, |ids| - 1 - j))
    ensures m == |ids| ==> definitions == seq(|ids|, j requires 0 <= j < |ids| => Merged(scans, steps, ends, j))
  {
    forall j | 0 <= j < |ids| && |ids| - m <= j ensures OrphanResult(steps, ends, ids[j]).PageCompleted? {
      assert scans[j].definitionId == ids[j];
    }
  }

  lemma ScansAreOf(ids: seq<DefinitionId>, steps: Steps, ends: Ends)
    requires Faithful(steps) && AllCompleted(ids, steps, ends, |ids|)
    ensures AreOf(ScanSummaries(ids, steps, ends, |ids|), ids)
    ensures AreOf(Unreconciled(ScanSummaries(ids, steps, ends, |ids|)), ids)
  {
  }

  lemma SucceededScans(ids: seq<DefinitionId>, steps: Steps, ends: Ends)
    requires AllCompleted(ids, steps, ends, |ids|)
    ensures AllSucceeded(Unreconciled(ScanSummaries(ids, steps, ends, |ids|))) <==> AllScansSucceeded(ids, steps, ends)
  {
    var scans := Unreconciled(ScanSummaries(ids, steps, ends, |ids|));
    forall j | 0 <= j < |ids| ensures scans[j].status == ScanResult(steps, ends, ids[j]).summary.status {
    }
  }

  lemma ScanStopIs(ids: seq<DefinitionId>, steps: Steps, ends: Ends, n: nat, stop: Stop, definitions: seq<Summary>)
    requires steps.begin.Some? && n < |ids| && Summarizes(definitions, ids, steps, ends, n)
    requires !ScanResult(steps, ends, ids[n]).WindowCompleted?
    requires stop == StopOf(ids[n], ScanResult(steps, ends, ids[n]).WindowCancelled?)
    ensures EndsThere(ids, steps, ends, ScanStopped(n, stop))
    ensures FinishedDefinitions(ids, steps, ends, ScanStopped(n, stop)) == if steps.begin.value then [] else definitions
  {
    SummariesAre(definitions, ids, steps, ends, n);
  }

  lemma ScannedIs(ids: seq<DefinitionId>, steps: Steps, ends: Ends, scans: seq<Summary>, definitions: seq<Summary>)
    requires steps.begin.Some? && Summarizes(scans, ids, steps, ends, |ids|)
    requires definitions == if steps.begin.value then Unreconciled(scans) else scans
    requires steps.begin.value ==> !AllSucceeded(definitions)
    ensures EndsThere(ids, steps, ends, Scanned)
    ensures CompleteDefinitions(ids, steps, ends, Scanned) == definitions
  {
    SummariesAre(scans, ids, steps, ends, |ids|);
    SucceededScans(ids, steps, ends);
  }

  lemma OrphanStopIs(ids: seq<DefinitionId>, steps: Steps, ends: Ends, scans: seq<Summary>, definitions: seq<Summary>,
                     completed: seq<Summary>, m: nat, stop: Stop)
    requires steps.begin == Some(true) && AllScansSucceeded(ids, steps, ends) && scans == Scans(ids, steps, ends)
    requires m < |ids| && AreOf(scans, ids) && Reconciled(scans, definitions, completed, steps, ends, m)
    requires !OrphanResult(steps, ends, ids[|ids| - 1 - m]).PageCompleted?
    requires stop == StopOf(ids[|ids| - 1 - m], OrphanResult(steps, ends, ids[|ids| - 1 - m]).PageCancelled?)
    ensures EndsThere(ids, steps, ends, OrphansStopped(m, stop))
    ensures FinishedDefinitions(ids, steps, ends, OrphansStopped(m, stop)) == completed
  {
    ReconciledIs(ids, scans, definitions, completed, steps, ends, m);
  }

  lemma AllReconciledIs(ids: seq<DefinitionId>, steps: Steps, ends: Ends, scans: seq<Summary>,
                        definitions: seq<Summary>, completed: seq<Summary>)
    requires steps.begin == Some(true) && AllScansSucceeded(ids, steps, ends) && scans == Scans(ids, steps, ends)
    requires AreOf(scans, ids) && Reconciled(scans, definitions, completed, steps, ends, |ids|)
    ensures EndsThere(ids, steps, ends, AllReconciled)
    ensures CompleteDefinitions(ids, steps, ends, AllReconciled) == definitions
  {
    ReconciledIs(ids, scans, definitions, completed, steps, ends, |ids|);
  }

  /** The scans a rollback run goes on with. */
  lemma RollbackScans(ids: seq<DefinitionId>, steps: Steps, ends: Ends, scans: seq<Summary>)
    requires Faithful(steps) && Summarizes(scans, ids, steps, ends, |ids|)
    ensures AreOf(Unreconciled(scans), ids)
    ensures AllSucceeded(Unreconciled(scans)) ==>
      AllScansSucceeded(ids, steps, ends) && Unreconciled(scans) == Scans(ids, steps, ends)
  {
    SummariesAre(scans, ids, steps, ends, |ids|);
    SucceededScans(ids, steps, ends);
    ScansAreOf(ids, steps, ends);
  }

  /** The body of the workflow with the finalizers each of its branches ends with. */
  method RunBodyAndFinalize(ids: seq<DefinitionId>, steps: Steps, ghost ends: Ends)
    returns (log: seq<Call>, ending: Ending)
    requires EndsAt(steps, ends) && Faithful(steps) && Distinct(ids)
    ensures EndsThere(ids, steps, ends, ending)
    ensures log == BodyCalls(ids, ends, ending) + Finalizers(ids, steps, ends, ending)
  {
    log := [BeginCall];
    if steps.begin.None? {
      ending := BeginThrew;
      log := log + [Fail([], None)];
      return;
    }
    hide EndsAt, Faithful, Distinct, Summarizes, ScanResult, OrphanResult, EndsThere, FinishedDefinitions, ScanCalls,
         CompleteDefinitions, Reconciled, AreOf, OrphanCalls, AllScansSucceeded, Unreconciled, Scans, StopCalls, AllSucceeded;
    var rollbackOrphans := steps.begin.value;
    var stop, definitions, completed;
    var calls, n;
    stop, definitions, completed, calls, n := ScanAll(ids, steps, rollbackOrphans, ends);
    log := log + calls;
    if !stop.Finished? {
      ScanStopIs(ids, steps, ends, n, stop, definitions);
      ending := ScanStopped(n, stop);
      var finalizers := FinalizeStop(stop, steps, completed);
      log := log + finalizers;
      return;
    }
    assert ids[..n] == ids;
    ghost var scanned := definitions;
    if rollbackOrphans {
      RollbackScans(ids, steps, ends, scanned);
      definitions := WithoutOrphans(definitions);
    }
    if rollbackOrphans && AllSucceeded(definitions) {
      ghost var scans := definitions;
      var m, pages;
      stop, definitions, completed, pages, m := ReconcileAll(ids, definitions, steps, ends);
      log := log + pages;
      if !stop.Finished? {
        OrphanStopIs(ids, steps, ends, scans, definitions, completed, m, stop);
        ending := OrphansStopped(m, stop);
        var finalizers := FinalizeStop(stop, steps, completed);
        log := log + finalizers;
        return;
      }
      AllReconciledIs(ids, steps, ends, scans, definitions, completed);
      ending := AllReconciled;
    } else {
      ScannedIs(ids, steps, ends, scanned, definitions);
      ending := Scanned;
    }
    log := log + [Complete(definitions)];
  }

  lemma LogIsSplit(log: seq<Call>, body: seq<Call>, finalizers: seq<Call>)
    requires log == body + finalizers
    ensures |body| <= |log| && log[|body|..] == finalizers
  {
  }

  /**
   * Run the workflow over any finite trace of its steps: it ends where the steps say, having made
   * exactly the calls of that ending, and then finalizes with exactly what those steps finished.
   */
  method RunMigrationExecutionWorkflow(ids: seq<DefinitionId>, steps: Steps, ghost ends: Ends)
    returns (log: seq<Call>, ending: Ending)
    requires EndsAt(steps, ends) && Faithful(steps) && Distinct(ids)
    ensures EndsThere(ids, steps, ends, ending)
    ensures log == BodyCalls(ids, ends, ending) + Finalizers(ids, steps, ends, ending)
    ensures Reported(log[|BodyCalls(ids, ends, ending)|..], ids, steps, ends, ending)
  {
    log, ending := RunBodyAndFinalize(ids, steps, ends);
    hide *;
    EndingIsReported(ids, steps, ends, ending);
    LogIsSplit(log, BodyCalls(ids, ends, ending), Finalizers(ids, steps, ends, ending));
  }

  // ---------- What every run guarantees ----------

  lemma {:induction false} ScanCallsDoNotFinalize(ids: seq<DefinitionId>, ends: Ends)
    ensures forall c :: c in ScanCalls(ids, ends) ==> c.WindowCall?
  {
    if ids != [] {
      ScanCallsDoNotFinalize(ids[..|ids| - 1], ends);
    }
  }

  lemma {:induction false} OrphanCallsDoNotFinalize(ids: seq<DefinitionId>, ends: Ends, m: nat)
    requires m <= |ids|
    ensures forall c :: c in OrphanCalls(ids, ends, m) ==> c.PageCall?
  {
    if m > 0 {
      OrphanCallsDoNotFinalize(ids, ends, m - 1);
    }
  }

  /** Nothing is finalized before the body has ended. */
  lemma BodyDoesNotFinalize(ids: seq<DefinitionId>, steps: Steps, ends: Ends, ending: Ending)
    requires EndsThere(ids, steps, ends, ending)
    ensures forall c :: c in BodyCalls(ids, ends, ending) ==> !c.Finalizes()
  {
    hide AllScansSucceeded, OrphansCompleted, AllCompleted, ScanResult, OrphanResult;
    ScanCallsDoNotFinalize(ids, ends);
    match ending {
      case ScanStopped(n, _) => ScanCallsDoNotFinalize(ids[..n + 1], ends);
      case OrphansStopped(m, _) => OrphanCallsDoNotFinalize(ids, ends, m + 1);
      case AllReconciled => OrphanCallsDoNotFinalize(ids, ends, |ids|);
      case _ =>
    }
  }

  lemma StopFinalizes(stop: Stop, steps: Steps, finished: seq<Summary>)
    requires !stop.Finished?
    ensures var calls := StopCalls(stop, steps, finished);
      && 1 <= |calls| <= 2 && (forall c :: c in calls ==> c.Finalizes())
      && (|calls| == 1 <==> !(calls[0].Cancel? && steps.cancelThrows))
  {
  }

  /**
   * The run is finalized after everything else, by exactly one of complete, cancel and fail, unless
   * cancelling throws: then, and only then, both cancel and fail are called.
   */
  lemma FinalizesOnce(ids: seq<DefinitionId>, steps: Steps, ends: Ends, ending: Ending)
    requires EndsThere(ids, steps, ends, ending)
    ensures forall c :: c in BodyCalls(ids, ends, ending) ==> !c.Finalizes()
    ensures forall c :: c in Finalizers(ids, steps, ends, ending) ==> c.Finalizes()
    ensures |Finalizers(ids, steps, ends, ending)| == 1 <==>
      !(Finalizers(ids, steps, ends, ending)[0].Cancel? && steps.cancelThrows)
    ensures 1 <= |Finalizers(ids, steps, ends, ending)| <= 2
  {
    BodyDoesNotFinalize(ids, steps, ends, ending);
    hide FinishedDefinitions, CompleteDefinitions, AllScansSucceeded, OrphansCompleted, AllCompleted, BodyCalls,
         ScanResult, OrphanResult, StopCalls;
    match ending {
      case ScanStopped(_, stop) => StopFinalizes(stop, steps, FinishedDefinitions(ids, steps, ends, ending));
      case OrphansStopped(_, stop) => StopFinalizes(stop, steps, FinishedDefinitions(ids, steps, ends, ending));
      case _ =>
    }
  }

  /** Orphans are only reconciled in a rollback run, after every scan, and only if all succeeded. */
  lemma OrphansFollowSucceededScans(ids: seq<DefinitionId>, steps: Steps, ends: Ends, ending: Ending, i: nat)
    requires EndsThere(ids, steps, ends, ending)
    requires i < |BodyCalls(ids, ends, ending)| && BodyCalls(ids, ends, ending)[i].PageCall?
    ensures steps.begin == Some(true) && AllScansSucceeded(ids, steps, ends)
    ensures i >= |[BeginCall] + ScanCalls(ids, ends)|
    ensures BodyCalls(ids, ends, ending)[..|[BeginCall] + ScanCalls(ids, ends)|] == [BeginCall] + ScanCalls(ids, ends)
  {
    hide AllScansSucceeded, ScanResult, OrphanResult;
    var scans := [BeginCall] + ScanCalls(ids, ends);
    ScansHaveNoPages(ids, ends);
    match ending {
      case ScanStopped(n, _) => ScansHaveNoPages(ids[..n + 1], ends);
      case _ =>
    }
  }

  ghost predicate NoPages(calls: seq<Call>) {
    forall i :: 0 <= i < |calls| ==> !calls[i].PageCall?
  }

  lemma ScansHaveNoPages(ids: seq<DefinitionId>, ends: Ends)
    ensures NoPages([BeginCall] + ScanCalls(ids, ends))
  {
    var calls := [BeginCall] + ScanCalls(ids, ends);
    ScanCallsDoNotFinalize(ids, ends);
    forall i | 0 <= i < |calls| ensures !calls[i].PageCall? {
      assert i > 0 ==> calls[i] in ScanCalls(ids, ends);
    }
  }

  /** A completed run reports one summary per definition, in execution order. */
  lemma CompleteReportsEvery(ids: seq<DefinitionId>, steps: Steps, ends: Ends, ending: Ending)
    requires EndsThere(ids, steps, ends, ending) && Faithful(steps) && (ending.Scanned? || ending.AllReconciled?)
    ensures AreOf(CompleteDefinitions(ids, steps, ends, ending), ids)
    ensures forall j :: 0 <= j < |ids| ==>
      CompleteDefinitions(ids, steps, ends, ending)[j].status ==
      if ending.AllReconciled? then
        if OrphanResult(steps, ends, ids[j]).counts.rollbackFailed > 0 then Failed else Succeeded
      else ScanResult(steps, ends, ids[j]).summary.status
  {
    var definitions := CompleteDefinitions(ids, steps, ends, ending);
    ScansAreOf(ids, steps, ends);
    forall j | 0 <= j < |ids|
      ensures definitions[j].definitionId == ids[j]
      ensures definitions[j].status ==
        if ending.AllReconciled? then
          if OrphanResult(steps, ends, ids[j]).counts.rollbackFailed > 0 then Failed else Succeeded
        else ScanResult(steps, ends, ids[j]).summary.status
    {
      if ending.AllReconciled? {
        assert Scans(ids, steps, ends)[j].definitionId == ids[j];
      }
    }
  }

  // ---------- The outcomes of a failed run ----------

  function FindSummary(definitions: seq<Summary>, d: DefinitionId): Option<Summary> {
    if definitions == [] then None
    else if definitions[0].definitionId == d then Some(definitions[0])
    else FindSummary(definitions[1..], d)
  }

  /** One outcome per definition: the failed one, the finished ones' status, otherwise skipped. */
  function OutcomeOf(definitions: seq<Summary>, failedId: Option<DefinitionId>, d: DefinitionId): SummaryStatus {
    if failedId == Some(d) then Failed
    else
      match FindSummary(definitions, d)
      case Some(summary) => summary.status
      case None => Skipped
  }

  lemma {:induction false} FindsOnly(definitions: seq<Summary>, d: DefinitionId, i: nat)
    requires i < |definitions| && definitions[i].definitionId == d
    requires forall j :: 0 <= j < |definitions| && j != i ==> definitions[j].definitionId != d
    ensures FindSummary(definitions, d) == Some(definitions[i])
  {
    if i > 0 {
      FindsOnly(definitions[1..], d, i - 1);
    }
  }

  lemma {:induction false} FindsNone(definitions: seq<Summary>, d: DefinitionId)
    requires forall j :: 0 <= j < |definitions| ==> definitions[j].definitionId != d
    ensures FindSummary(definitions, d) == None
  {
    if definitions != [] {
      FindsNone(definitions[1..], d);
    }
  }

  /** A stop that threw, or whose cancel throws, fails the run with what had finished. */
  lemma FailureIs(stop: Stop, steps: Steps, finished: seq<Summary>)
    requires stop.ThrewAt? || (stop.CancelledAt? && steps.cancelThrows)
    ensures StopCalls(stop, steps, finished) != []
    ensures StopCalls(stop, steps, finished)[|StopCalls(stop, steps, finished)| - 1] == Fail(finished, Some(stop.id))
  {
  }

  /** The run ends by failing. */
  ghost predicate FailsWith(
    ids: seq<DefinitionId>, steps: Steps, ends: Ends, ending: Ending, finished: seq<Summary>, d: DefinitionId)
    requires EndsThere(ids, steps, ends, ending)
  {
    var calls := Finalizers(ids, steps, ends, ending);
    calls != [] && calls[|calls| - 1] == Fail(finished, Some(d))
  }

  /**
   * A run that fails while scanning definition `n`, because the scan or the cancel that follows it
   * throws: it is failed, later ones are skipped, and earlier ones have their status only when no
   * orphans were to be rolled back.
   */
  lemma ScanFailureOutcomes(ids: seq<DefinitionId>, steps: Steps, ends: Ends, n: nat, stop: Stop, j: nat)
    requires Faithful(steps) && Distinct(ids) && n < |ids| && j < |ids|
    requires EndsThere(ids, steps, ends, ScanStopped(n, stop)) && (stop.ThrewAt? || steps.cancelThrows)
    ensures var finished := FinishedDefinitions(ids, steps, ends, ScanStopped(n, stop));
      && FailsWith(ids, steps, ends, ScanStopped(n, stop), finished, ids[n])
      && OutcomeOf(finished, Some(ids[n]), ids[j]) ==
         if j == n then Failed
         else if j < n && !steps.begin.value then ScanResult(steps, ends, ids[j]).summary.status
         else Skipped
  {
    var finished := FinishedDefinitions(ids, steps, ends, ScanStopped(n, stop));
    FailureIs(stop, steps, finished);
    forall i | 0 <= i < |finished| ensures finished[i].definitionId == ids[i] {
    }
    if j != n {
      if j < |finished| {
        FindsOnly(finished, ids[j], j);
      } else {
        FindsNone(finished, ids[j]);
      }
    }
  }

  /** The summary a reconciled definition is finished with. */
  lemma ReconciledSummary(ids: seq<DefinitionId>, steps: Steps, ends: Ends, m: nat, stop: Stop, i: nat)
    requires Faithful(steps) && m < |ids| && i < m
    requires EndsThere(ids, steps, ends, OrphansStopped(m, stop))
    ensures var finished := FinishedDefinitions(ids, steps, ends, OrphansStopped(m, stop));
      && |finished| == m && finished[i].definitionId == ids[|ids| - 1 - i]
      && OrphanResult(steps, ends, ids[|ids| - 1 - i]).PageCompleted?
      && finished[i].status ==
         if OrphanResult(steps, ends, ids[|ids| - 1 - i]).counts.rollbackFailed > 0 then Failed else Succeeded
  {
    hide ScanResult, OrphanResult;
    ScansAreOf(ids, steps, ends);
    var scans, j := Scans(ids, steps, ends), |ids| - 1 - i;
    assert scans[j].definitionId == ids[j] && scans[j].status.Succeeded?;
    assert FinishedDefinitions(ids, steps, ends, OrphansStopped(m, stop))[i] == Merged(scans, steps, ends, j);
  }

  /**
   * A run that fails while reconciling, because the page or the cancel that follows it throws: that
   * definition is failed, those reconciled before it, which come after it in execution order, keep
   * their status, and the others are skipped.
   */
  lemma OrphanFailureOutcomes(ids: seq<DefinitionId>, steps: Steps, ends: Ends, m: nat, stop: Stop, j: nat)
    requires Faithful(steps) && Distinct(ids) && m < |ids| && j < |ids|
    requires EndsThere(ids, steps, ends, OrphansStopped(m, stop)) && (stop.ThrewAt? || steps.cancelThrows)
    ensures var active := |ids| - 1 - m;
      var finished := FinishedDefinitions(ids, steps, ends, OrphansStopped(m, stop));
      && FailsWith(ids, steps, ends, OrphansStopped(m, stop), finished, ids[active])
      && OutcomeOf(finished, Some(ids[active]), ids[j]) ==
         if j == active then Failed
         else if j > active then
           if OrphanResult(steps, ends, ids[j]).counts.rollbackFailed > 0 then Failed else Succeeded
         else Skipped
  {
    var active := |ids| - 1 - m;
    var finished := FinishedDefinitions(ids, steps, ends, OrphansStopped(m, stop));
    FailureIs(stop, steps, finished);
    assert |finished| == m;
    hide AllScansSucceeded, OrphansCompleted, ScanResult, OrphanResult, FinishedDefinitions, StopCalls;
    forall i | 0 <= i < m ensures finished[i].definitionId == ids[|ids| - 1 - i] {
      ReconciledSummary(ids, steps, ends, m, stop, i);
    }
    if j > active {
      ReconciledSummary(ids, steps, ends, m, stop, |ids| - 1 - j);
      FindsOnly(finished, ids[j], |ids| - 1 - j);
    } else if j < active {
      FindsNone(finished, ids[j]);
    }
  }
}
