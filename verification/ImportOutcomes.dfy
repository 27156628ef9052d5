/** Import outcomes, the journal value each one becomes, and what the next run does with it. */
module ImportOutcomes {
  import opened Basics

  type Key = Name
  type OpId = Name

  datatype Message = NotCorrelated | PollsFailed(ids: seq<OpId>) | SdkMessage(code: nat)

  datatype ProcessingState =
    | Processing | Unresolved | WaitForMasterVariant
    | Imported
    | Canceled | PartiallyImported | Rejected | ValidationFailed
    | OtherState(code: nat)

  predicate IsPending(state: ProcessingState) {
    state.Processing? || state.Unresolved? || state.WaitForMasterVariant?
  }

  predicate IsFailed(state: ProcessingState) {
    state.Canceled? || state.PartiallyImported? || state.Rejected? || state.ValidationFailed?
  }

  /** An Import Operation as the provider reports it. */
  datatype Operation = Operation(
    id: OpId, container: Name, key: Key, state: ProcessingState, version: Option<int>)

  datatype Acceptance = Accepted | NotAccepted | UnknownAcceptance

  /** A candidate group that a later await accepts. */
  ghost predicate Awaitable(g: CandidateGroup) {
    && g.ops != [] && Distinct(g.ops) && (forall id :: id in g.ops ==> !id.blank)
    && g.key in g.keys && Distinct(g.keys) && (forall k :: k in g.keys ==> !k.blank)
  }

  datatype Phase = PollFailed | SubmissionFailed

  datatype CandidateGroup = CandidateGroup(ops: seq<OpId>, keys: seq<Key>, key: Key)

  datatype Outcome =
    | ImportedOutcome(container: Name, operationId: OpId, key: Key, version: int)
    | FailedOutcome(container: Name, operationId: OpId, key: Key, state: ProcessingState,
                    resourceVersion: Option<int>)
    | PendingOutcome(container: Name, operationId: OpId, key: Key, state: ProcessingState)
    | Indeterminate(acceptance: Acceptance, group: CandidateGroup, container: Name,
                    message: Message, phase: Phase)

  datatype ContractError =
    | EmptyInput | BlankContainer | BlankKey | BlankOperationId | NoOperationIds
    | DuplicateKey(key: Key) | DuplicateOperationId(id: OpId)
    | GroupLacksKey(key: Key) | DuplicateGroupKey(key: Key)
    | BadDuration | BadBodyLimit | BadConcurrency | ResourceTooLarge(key: Key)
    | UnexpectedCount | UnknownInitialState | MissingOperationId
    | ForeignOperation(id: OpId) | MultipleOperations(key: Key) | UnreadableOperation(id: OpId)
    | Uncovered

  /** The state of an operation is one the adapter understands, with its version when imported. */
  predicate Readable(operation: Operation) {
    || (operation.state.Imported? && operation.version.Some?)
    || IsFailed(operation.state)
    || IsPending(operation.state)
  }

  function OutcomeFromOperation(operation: Operation, container: Name): (r: Result<Outcome, ContractError>)
    ensures r.Ok? <==> Readable(operation)
    ensures r.Ok? ==>
      && (r.value.ImportedOutcome? <==> operation.state.Imported?)
      && (r.value.FailedOutcome? <==> IsFailed(operation.state))
      && (r.value.PendingOutcome? <==> IsPending(operation.state))
      && !r.value.Indeterminate?
  {
    if operation.state.Imported? then
      match operation.version
      case Some(v) => Ok(ImportedOutcome(container, operation.id, operation.key, v))
      case None => Err(UnreadableOperation(operation.id))
    else if IsFailed(operation.state) then
      Ok(FailedOutcome(container, operation.id, operation.key, operation.state, operation.version))
    else if IsPending(operation.state) then
      Ok(PendingOutcome(container, operation.id, operation.key, operation.state))
    else
      Err(UnreadableOperation(operation.id))
  }

  /** An outcome says which operation it came from: only a pending one forgets the resource version. */
  lemma OutcomeKeepsOperation(a: Operation, b: Operation, container: Name, container': Name)
    requires OutcomeFromOperation(a, container).Ok?
    requires OutcomeFromOperation(a, container) == OutcomeFromOperation(b, container')
    ensures container == container' && a.id == b.id && a.key == b.key && a.state == b.state
    ensures !IsPending(a.state) ==> a.version == b.version
  {
    var outcome := OutcomeFromOperation(a, container).value;
    assert outcome == OutcomeFromOperation(b, container').value;
  }

  datatype JournalValue =
    | JournalImported(container: Name, operationId: OpId, key: Key, version: int)
    | JournalFailed(container: Name, operationId: OpId, key: Key, state: ProcessingState,
                    resourceVersion: Option<int>)
    | JournalPending(container: Name, operationId: OpId, key: Key, state: ProcessingState)
    | JournalIndeterminate(acceptance: Acceptance, group: CandidateGroup, container: Name,
                           message: Message, phase: Phase)
  {
    function ResourceKey(): Key {
      if JournalIndeterminate? then group.key else key
    }
  }

  function JournalValueFromOutcome(outcome: Outcome): JournalValue {
    match outcome
    case ImportedOutcome(c, o, k, v) => JournalImported(c, o, k, v)
    case FailedOutcome(c, o, k, s, v) => JournalFailed(c, o, k, s, v)
    case PendingOutcome(c, o, k, s) => JournalPending(c, o, k, s)
    case Indeterminate(a, g, c, m, p) => JournalIndeterminate(a, g, c, m, p)
  }

  datatype Resume = Await(group: CandidateGroup) | Submit | Blocked(outcome: Outcome)

  function ResumeFromExtensionValue(value: JournalValue, key: Key): Resume {
    if value.JournalPending? then
      Await(CandidateGroup([value.operationId], [key], key))
    else if !value.JournalIndeterminate? then
      Submit
    else if value.acceptance.Accepted? && |value.group.ops| > 0 then
      Await(value.group)
    else if value.acceptance.NotAccepted? then
      Submit
    else
      Blocked(Indeterminate(value.acceptance, value.group, value.container, value.message, value.phase))
  }

  /** None when the saved extension belongs to another resource key: the item fails to decode. */
  function ResumeFromJournal(journal: Option<JournalValue>, key: Key): Option<Resume> {
    match journal
    case None => Some(Submit)
    case Some(value) => if value.ResourceKey() == key then Some(ResumeFromExtensionValue(value, key)) else None
  }

  function OutcomeKey(outcome: Outcome): Key {
    if outcome.Indeterminate? then outcome.group.key else outcome.key
  }

  /**
   * What a journaled outcome lets the next run do: a new submission only after a finished
   * operation or a definite rejection, and a blocked outcome comes back unchanged.
   */
  lemma JournaledOutcomeResumes(outcome: Outcome, key: Key)
    requires outcome.PendingOutcome? ==> IsPending(outcome.state)
    requires outcome.FailedOutcome? ==> IsFailed(outcome.state)
    ensures
      var resume := ResumeFromJournal(Some(JournalValueFromOutcome(outcome)), key);
      && (resume.Some? <==> OutcomeKey(outcome) == key)
      && (resume.Some? ==>
            && (resume.value.Submit? <==>
                  || outcome.ImportedOutcome?
                  || outcome.FailedOutcome?
                  || (outcome.Indeterminate? && outcome.acceptance.NotAccepted?))
            && (resume.value.Blocked? ==> resume.value.outcome == outcome)
            && (resume.value.Await? ==>
                  && resume.value.group.key == key
                  && |resume.value.group.ops| > 0
                  && (outcome.PendingOutcome? ==> resume.value.group.ops == [outcome.operationId])
                  && (outcome.Indeterminate? ==> resume.value.group == outcome.group)))
  {
  }
}
