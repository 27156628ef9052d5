/** Any number of runs over one import container: what the journal and the provider keep in step. */
module ImportRuns {
  import opened Basics
  import opened Chunking
  import opened ImportOutcomes
  import opened ImportPolling
  import opened ImportSubmission
  import opened ImportAwait

  /**
   * The provider and the journal between runs. `owner` is the resource key each created operation
   * really belongs to, `finished` the operations in a terminal state, `doubtful` the keys of
   * submissions whose acceptance is unknown, once per submission.
   */
  datatype World = World(
    owner: map<OpId, Key>, finished: set<OpId>, doubtful: multiset<Key>, journal: map<Key, JournalValue>)

  ghost function Outstanding(w: World, k: Key): set<OpId> {
    set id | id in w.owner && w.owner[id] == k && id !in w.finished
  }

  /** At most one import operation of each key is unfinished or possibly accepted. */
  ghost predicate AtMostOne(w: World) {
    forall k :: |Outstanding(w, k)| + w.doubtful[k] <= 1
  }

  function Saved(journal: map<Key, JournalValue>, k: Key): Option<JournalValue> {
    if k in journal then Some(journal[k]) else None
  }

  function Decision(journal: map<Key, JournalValue>, k: Key): Option<Resume> {
    ResumeFromJournal(Saved(journal, k), k)
  }

  predicate Awaits(journal: map<Key, JournalValue>, k: Key) {
    Decision(journal, k).Some? && Decision(journal, k).value.Await?
  }

  function GroupOf(journal: map<Key, JournalValue>, k: Key): CandidateGroup
    requires Awaits(journal, k)
  {
    Decision(journal, k).value.group
  }

  // ---------- What holds after any runs whatever ----------

  /** `own` is the one listed operation that really belongs to `k`. */
  ghost predicate OwnIn(owner: map<OpId, Key>, ops: seq<OpId>, k: Key, own: OpId) {
    && own in ops && own in owner && owner[own] == k
    && forall id :: id in ops && id in owner && owner[id] == k ==> id == own
  }

  /** The group lists its key's true operation, and the true key of every operation it lists. */
  ghost predicate GroupIsTrue(owner: map<OpId, Key>, g: CandidateGroup) {
    && Awaitable(g)
    && (forall id :: id in g.ops ==> id in owner && owner[id] in g.keys)
    && exists own :: OwnIn(owner, g.ops, g.key, own)
  }

  ghost predicate TrueEntry(owner: map<OpId, Key>, journal: map<Key, JournalValue>, k: Key) {
    && Decision(journal, k).Some?
    && (Awaits(journal, k) ==> GroupOf(journal, k).key == k && GroupIsTrue(owner, GroupOf(journal, k)))
  }

  ghost predicate TrueJournal(w: World) {
    && w.finished <= w.owner.Keys
    && forall k :: TrueEntry(w.owner, w.journal, k)
  }

  // ---------- What holds while candidate groups stay together ----------

  /** Resuming `k` is safe: a new submission only when nothing of `k` can still be running. */
  ghost predicate SafeEntry(w: World, k: Key) {
    match Decision(w.journal, k)
    case None => true
    case Some(Submit) => Outstanding(w, k) == {} && w.doubtful[k] == 0
    case Some(Blocked(_)) => Outstanding(w, k) == {} && w.doubtful[k] <= 1
    case Some(Await(g)) => w.doubtful[k] == 0 && forall id :: id in Outstanding(w, k) ==> id in g.ops
  }

  ghost predicate Safe(w: World) {
    forall k :: SafeEntry(w, k)
  }

  ghost predicate SameOps(a: CandidateGroup, b: CandidateGroup) {
    forall id :: id in a.ops <==> id in b.ops
  }

  /** The true owner of every operation that `k` awaits is awaiting the same operations. */
  ghost predicate SharedEntry(w: World, k: Key) {
    Awaits(w.journal, k) ==> forall id :: id in GroupOf(w.journal, k).ops && id in w.owner ==>
      Awaits(w.journal, w.owner[id]) && SameOps(GroupOf(w.journal, w.owner[id]), GroupOf(w.journal, k))
  }

  ghost predicate Shared(w: World) {
    forall k :: SharedEntry(w, k)
  }

  lemma SafeIsAtMostOne(w: World)
    requires TrueJournal(w) && Safe(w)
    ensures AtMostOne(w)
  {
    forall k ensures |Outstanding(w, k)| + w.doubtful[k] <= 1 {
      assert SafeEntry(w, k) && TrueEntry(w.owner, w.journal, k);
      if Awaits(w.journal, k) {
        var g := GroupOf(w.journal, k);
        var own :| OwnIn(w.owner, g.ops, k, own);
        SubsetSize(Outstanding(w, k), {own});
      }
    }
  }

  // ---------- One run ----------

  function AwaitGroups(journal: map<Key, JournalValue>, batch: seq<Resource>): seq<CandidateGroup> {
    if batch == [] then []
    else
      var n := |batch| - 1;
      AwaitGroups(journal, batch[..n]) +
      if Awaits(journal, batch[n].key) then [GroupOf(journal, batch[n].key)] else []
  }

  function FreshResources(journal: map<Key, JournalValue>, batch: seq<Resource>): seq<Resource> {
    Keep(batch, (r: Resource) => Decision(journal, r.key) == Some(Submit))
  }

  function BlockedOutcomes(journal: map<Key, JournalValue>, keys: set<Key>): map<Key, Outcome> {
    map k | k in keys && Decision(journal, k).Some? && Decision(journal, k).value.Blocked?
      :: Decision(journal, k).value.outcome
  }

  /** What polling saw agrees with the provider: true keys, and settled only when finished. */
  ghost predicate Truthful(owner: map<OpId, Key>, finished: set<OpId>, container: Name, seen: map<OpId, Operation>) {
    forall id :: id in seen ==>
      && id in owner && seen[id].id == id && seen[id].container == container && seen[id].key == owner[id]
      && Readable(seen[id]) && (!IsPending(seen[id].state) ==> id in finished)
  }

  /** Awaiting ends without a contract error. */
  ghost predicate AwaitEnds(q: PollQuery, seen: map<OpId, Operation>) {
    Correlated(q, seen) && Consistent(seen) && (AllSettled(q, seen) ==> Covered(q, seen))
  }

  /**
   * The choices the provider and the network make during one run; `doubted` are the keys it may have
   * accepted without naming an operation.
   */
  datatype Choice = Choice(
    seen: map<OpId, Operation>, errors: set<OpId>, awaited: map<Key, Outcome>,
    sub: Submission, submitted: map<Key, Outcome>, doubted: set<Key>,
    created: map<OpId, Key>, finished: set<OpId>)

  /** What awaiting guarantees when it ends without a contract error, whatever the provider. */
  ghost predicate AwaitSettles(options: PollOptions, journal: map<Key, JournalValue>, batch: seq<Resource>, c: Choice) {
    var q := AwaitQuery(options, AwaitGroups(journal, batch));
    && (forall id :: id in c.seen ==> id in q.ids)
    && AwaitEnds(q, c.seen)
    && Answers(q, c.seen, c.errors, c.awaited)
  }

  ghost predicate AwaitPhase(options: PollOptions, w: World, batch: seq<Resource>, c: Choice) {
    Truthful(w.owner, c.finished, options.container, c.seen) && AwaitSettles(options, w.journal, batch, c)
  }

  /** Each accepted chunk creates one operation per key; nothing already created is reused. */
  ghost predicate Creates(owner: map<OpId, Key>, groups: set<ChunkGroup>, created: map<OpId, Key>) {
    && owner.Keys !! created.Keys
    && (forall id :: id in created <==> SomeId(groups, id))
    && (forall g, id :: g in groups && id in g.ids && id in created ==> created[id] in g.keys)
    && (forall a, b :: a in created && b in created && a != b ==> created[a] != created[b])
  }

  ghost predicate FailureOf(options: PollOptions, k: Key, outcome: Outcome) {
    && outcome.Indeterminate? && outcome.group.key == k && outcome.group.ops == []
    && outcome.phase.SubmissionFailed? && !outcome.acceptance.Accepted? && outcome.container == options.container
  }

  /** What submitting guarantees when it ends without a contract error, whatever the provider. */
  ghost predicate SubmitSettles(options: PollOptions, journal: map<Key, JournalValue>, batch: seq<Resource>, c: Choice)
  {
    && ValidGroups(c.sub.groups) && AsksFor(c.sub.q, c.sub.groups) && c.sub.q.container == options.container
    && Elements(c.sub.q.keys) !! c.sub.failed.Keys
    && Elements(c.sub.q.keys) + c.sub.failed.Keys == KeySet(FreshResources(journal, batch))
    && (forall k :: k in c.sub.failed ==> FailureOf(options, k, c.sub.failed[k]))
    && Answers(c.sub.q, c.sub.ops, c.sub.errors, PolledPart(c))
    && c.submitted == PolledPart(c) + c.sub.failed
  }

  ghost predicate SubmitPhase(options: PollOptions, w: World, batch: seq<Resource>, c: Choice) {
    && SubmitSettles(options, w.journal, batch, c) && RecordsDoubts(c)
    && Creates(w.owner, c.sub.groups, c.created)
    && Truthful(c.created, c.finished, options.container, c.sub.ops)
  }

  ghost function PolledPart(c: Choice): map<Key, Outcome> {
    map k | k in c.submitted && k in c.sub.q.keys :: c.submitted[k]
  }

  /** The outcomes of unknown acceptance are those of the doubted keys. */
  ghost predicate RecordsDoubts(c: Choice) {
    && c.doubted <= c.sub.failed.Keys
    && forall k :: k in c.sub.failed ==>
         c.sub.failed[k].Indeterminate? && (k in c.doubted <==> c.sub.failed[k].acceptance.UnknownAcceptance?)
  }

  function JournalAll(outcomes: map<Key, Outcome>): map<Key, JournalValue> {
    map k | k in outcomes :: JournalValueFromOutcome(outcomes[k])
  }

  ghost function Settled(journal: map<Key, JournalValue>, batch: seq<Resource>, c: Choice): map<Key, Outcome> {
    BlockedOutcomes(journal, KeySet(batch)) + c.awaited + c.submitted
  }

  /** A run that settles: every outcome of the batch is journaled. */
  ghost predicate Run(options: PollOptions, w: World, batch: seq<Resource>, c: Choice, w': World) {
    && Distinct(KeysOf(batch))
    && w.finished <= c.finished <= w.owner.Keys + c.created.Keys
    && AwaitPhase(options, w, batch, c)
    && SubmitPhase(options, w, batch, c)
    && w' == AfterRun(w, batch, c)
  }

  ghost function AfterRun(w: World, batch: seq<Resource>, c: Choice): World {
    World(w.owner + c.created, c.finished, w.doubtful + multiset(c.doubted),
          w.journal + JournalAll(Settled(w.journal, batch, c)))
  }

  /** Between runs, and in a run that fails before submitting, operations only progress. */
  ghost predicate Progresses(w: World, w': World) {
    w.finished <= w'.finished <= w.owner.Keys && w' == w.(finished := w'.finished)
  }

  // ---------- Batches and decisions ----------

  lemma {:induction false} InAwaitGroups(journal: map<Key, JournalValue>, batch: seq<Resource>, g: CandidateGroup)
    ensures g in AwaitGroups(journal, batch) <==>
      exists r :: r in batch && Awaits(journal, r.key) && GroupOf(journal, r.key) == g
  {
    if batch != [] {
      var n := |batch| - 1;
      InAwaitGroups(journal, batch[..n], g);
      assert batch == batch[..n] + [batch[n]];
      if exists r :: r in batch && Awaits(journal, r.key) && GroupOf(journal, r.key) == g {
        var r :| r in batch && Awaits(journal, r.key) && GroupOf(journal, r.key) == g;
        assert r in batch[..n] || r == batch[n];
      }
    }
  }

  /** The group of `k` is awaited exactly when `k` is in the batch and awaits. */
  lemma AwaitedGroup(w: World, batch: seq<Resource>, k: Key)
    requires TrueJournal(w)
    ensures Requested(AwaitGroups(w.journal, batch), k) <==> k in KeySet(batch) && Awaits(w.journal, k)
    ensures k in KeySet(batch) && Awaits(w.journal, k) ==> GroupOf(w.journal, k) in AwaitGroups(w.journal, batch)
    ensures forall g :: g in AwaitGroups(w.journal, batch) && g.key == k ==>
      Awaits(w.journal, k) && g == GroupOf(w.journal, k)
  {
    var groups := AwaitGroups(w.journal, batch);
    if k in KeySet(batch) && Awaits(w.journal, k) {
      assert TrueEntry(w.owner, w.journal, k);
      InAwaitGroups(w.journal, batch, GroupOf(w.journal, k));
    }
    forall g | g in groups && g.key == k
      ensures k in KeySet(batch) && Awaits(w.journal, k) && g == GroupOf(w.journal, k)
    {
      InAwaitGroups(w.journal, batch, g);
      var r :| r in batch && Awaits(w.journal, r.key) && GroupOf(w.journal, r.key) == g;
      assert TrueEntry(w.owner, w.journal, r.key);
    }
  }

  lemma {:induction false} AwaitGroupsAreAwaitable(w: World, batch: seq<Resource>)
    requires TrueJournal(w) && Distinct(KeysOf(batch))
    ensures AwaitableGroups(AwaitGroups(w.journal, batch))
  {
    if batch != [] {
      var n := |batch| - 1;
      assert KeysOf(batch[..n]) == KeysOf(batch)[..n];
      AwaitGroupsAreAwaitable(w, batch[..n]);
      var k := batch[n].key;
      if Awaits(w.journal, k) {
        assert TrueEntry(w.owner, w.journal, k);
        AwaitedGroup(w, batch[..n], k);
        KeySetIsElements(batch[..n]);
        assert KeysOf(batch)[n] == k;
        NewKey(AwaitGroups(w.journal, batch[..n]), GroupOf(w.journal, k));
      }
    }
  }

  lemma AwaitQueryOf(options: PollOptions, w: World, batch: seq<Resource>)
    requires TrueJournal(w) && Distinct(KeysOf(batch))
    ensures AsksForGroups(AwaitQuery(options, AwaitGroups(w.journal, batch)), AwaitGroups(w.journal, batch))
  {
    AwaitGroupsAreAwaitable(w, batch);
    AwaitQueryAsks(options, AwaitGroups(w.journal, batch));
  }

  // ---------- What a polled key is left with ----------

  /** `k` may be any of `ops`, and exactly one of them, `own`, really is `k`'s. */
  ghost predicate OwnedKey(q: PollQuery, owner: map<OpId, Key>, k: Key, ops: seq<OpId>, own: OpId) {
    && k in q.opsByKey && q.opsByKey[k] == ops && Distinct(ops)
    && (forall id :: id in ops ==> id in q.ids)
    && OwnIn(owner, ops, k, own)
    && (forall id :: id in ops ==> k in AllowedKeys(q, id))
    && (forall id :: id in q.ids && IsExact(q, id, k) ==> id in ops)
  }

  /** Every polled operation is allowed its true key, and only non-blank keys. */
  ghost predicate OwnedQuery(q: PollQuery, owner: map<OpId, Key>) {
    && Distinct(q.ids)
    && (forall id :: id in q.ids ==> !id.blank && id in owner && id in q.keysByOp && owner[id] in q.keysByOp[id])
    && (forall id, k :: id in q.keysByOp && k in q.keysByOp[id] ==> !k.blank)
  }

  ghost predicate SeenFrom(q: PollQuery, owner: map<OpId, Key>, seen: map<OpId, Operation>) {
    forall id :: id in seen ==> id in q.ids && id in owner && seen[id].key == owner[id]
  }

  lemma MissingIsUnseen(q: PollQuery, seen: map<OpId, Operation>, id: OpId)
    ensures id in MissingOps(q, seen) <==> id in q.ids && id !in seen
  {
    assert id in PendingOps(q, seen) <==> id in q.ids && Unsettled(seen, id);
  }

  /** The candidates a timeout leaves: unseen operations of the old list, among them the true one. */
  lemma TimeoutCandidates(
    q: PollQuery, owner: map<OpId, Key>, seen: map<OpId, Operation>, k: Key, ops: seq<OpId>, own: OpId)
    requires OwnedKey(q, owner, k, ops, own) && OwnedQuery(q, owner) && SeenFrom(q, owner, seen)
    requires k !in KnownKeys(seen)
    ensures var cs := CandidateOps(q, MissingOps(q, seen), k);
      && Distinct(cs) && own in cs
      && (forall id :: id in cs ==> id in ops && id in q.ids && id !in seen)
  {
    var missing := MissingOps(q, seen);
    assert own !in seen;
    MissingIsUnseen(q, seen, own);
    forall id | id in missing ensures id in q.ids && id !in seen {
      MissingIsUnseen(q, seen, id);
    }
    KeepDistinct(ops, id => id in missing);
    match ExactOperation(q, missing, k)
    case Some(id) =>
      assert owner[id] in q.keysByOp[id] && owner[id] == k && id == own;
    case None =>
  }

  lemma AllowedUnion(q: PollQuery, owner: map<OpId, Key>, cs: seq<OpId>, k: Key, own: OpId)
    requires OwnedQuery(q, owner) && own in cs && k in AllowedKeys(q, own)
    requires forall id :: id in cs ==> id in q.ids
    ensures var keys := UnionKeys(cs, q.keysByOp);
      && k in keys && Distinct(keys) && (forall k' :: k' in keys ==> !k'.blank)
      && forall id :: id in cs ==> !id.blank && id in owner && owner[id] in keys
  {
    hide Distinct, UnionKeys;
    var keys := UnionKeys(cs, q.keysByOp);
    assert own in q.keysByOp && k in q.keysByOp[own];
    forall id | id in cs ensures !id.blank && id in owner && owner[id] in keys {
      assert id in q.keysByOp && owner[id] in q.keysByOp[id];
    }
    forall k' | k' in keys ensures !k'.blank {
      var id :| id in cs && id in q.keysByOp && k' in q.keysByOp[id];
    }
  }

  lemma CandidatesAreTrue(
    q: PollQuery, owner: map<OpId, Key>, cs: seq<OpId>, fallback: seq<Key>, k: Key, own: OpId)
    requires OwnedQuery(q, owner) && Distinct(cs) && OwnIn(owner, cs, k, own)
    requires k in AllowedKeys(q, own) && forall id :: id in cs ==> id in q.ids
    ensures GroupIsTrue(owner, CandidateGroup(cs, CandidateKeys(cs, q.keysByOp, fallback), k))
  {
    AllowedUnion(q, owner, cs, k, own);
    GroupIsTrueIf(owner, cs, UnionKeys(cs, q.keysByOp), k, own);
  }

  lemma GroupIsTrueIf(owner: map<OpId, Key>, cs: seq<OpId>, keys: seq<Key>, k: Key, own: OpId)
    requires Distinct(cs) && OwnIn(owner, cs, k, own)
    requires k in keys && Distinct(keys) && forall k' :: k' in keys ==> !k'.blank
    requires forall id :: id in cs ==> !id.blank && id in owner && owner[id] in keys
    ensures GroupIsTrue(owner, CandidateGroup(cs, keys, k))
  {
    hide Distinct;
  }

  lemma TimeoutIsTrue(
    q: PollQuery, owner: map<OpId, Key>, seen: map<OpId, Operation>, k: Key, ops: seq<OpId>, own: OpId)
    requires OwnedKey(q, owner, k, ops, own) && OwnedQuery(q, owner) && SeenFrom(q, owner, seen)
    requires k !in KnownKeys(seen)
    ensures GroupIsTrue(owner, TimeoutGroup(q, seen, k)) && TimeoutGroup(q, seen, k).key == k
    ensures own in TimeoutGroup(q, seen, k).ops
    ensures forall id :: id in TimeoutGroup(q, seen, k).ops ==> id in ops && id !in seen
  {
    TimeoutCandidates(q, owner, seen, k, ops, own);
    hide CandidateOps, MissingOps, Distinct, OwnedQuery, SeenFrom, CandidateKeys, GroupIsTrue;
    var cs := CandidateOps(q, MissingOps(q, seen), k);
    CandidatesAreTrue(q, owner, cs, MissingKeys(q, KnownKeys(seen)), k, own);
  }

  /** `outcome` reports an operation of `k` that was seen. */
  ghost predicate SeenAnswer(
    q: PollQuery, owner: map<OpId, Key>, seen: map<OpId, Operation>, k: Key, outcome: Outcome, id: OpId)
  {
    id in seen && id in owner && owner[id] == k && OutcomeFromOperation(seen[id], q.container) == Ok(outcome)
  }

  /** An answer for `k`: from an operation of `k` that was seen, or a timeout. */
  lemma AnswerOf(q: PollQuery, owner: map<OpId, Key>, seen: map<OpId, Operation>, errors: set<OpId>,
                 outcomes: map<Key, Outcome>, k: Key)
    requires Answers(q, seen, errors, outcomes) && k in q.keys && SeenFrom(q, owner, seen)
    ensures k in outcomes
    ensures k in KnownKeys(seen) ==> exists id :: SeenAnswer(q, owner, seen, k, outcomes[k], id)
    ensures k !in KnownKeys(seen) ==> outcomes[k] == TimeoutOutcome(q, seen, errors, k)
  {
    hide TimeoutOutcome, OutcomeFromOperation;
    assert k in Elements(q.keys);
    if k in KnownKeys(seen) {
      var id :| id in seen && seen[id].key == k;
      assert SeenAnswer(q, owner, seen, k, outcomes[k], id);
    }
  }

  /** The decision the next run takes on one journaled outcome. */
  function DecisionOn(outcome: Outcome, k: Key): Option<Resume> {
    ResumeFromJournal(Some(JournalValueFromOutcome(outcome)), k)
  }

  /** A seen operation is awaited alone while pending and lets `k` be submitted again once settled. */
  lemma SeenDecision(q: PollQuery, owner: map<OpId, Key>, seen: map<OpId, Operation>, k: Key, outcome: Outcome,
                     id: OpId)
    requires SeenAnswer(q, owner, seen, k, outcome, id) && SeenFrom(q, owner, seen) && seen[id].id == id
    ensures DecisionOn(outcome, k) ==
      Some(if IsPending(seen[id].state) then Await(CandidateGroup([id], [k], k)) else Submit)
  {
  }

  lemma SingleIsTrue(owner: map<OpId, Key>, k: Key, id: OpId)
    requires id in owner && owner[id] == k && !id.blank && !k.blank
    ensures GroupIsTrue(owner, CandidateGroup([id], [k], k))
  {
    assert OwnIn(owner, [id], k, id);
  }

  lemma TimeoutDecision(q: PollQuery, seen: map<OpId, Operation>, errors: set<OpId>, k: Key)
    requires TimeoutGroup(q, seen, k).ops != []
    ensures DecisionOn(TimeoutOutcome(q, seen, errors, k), k) == Some(Await(TimeoutGroup(q, seen, k)))
  {
    hide CandidateOps, MissingOps, CandidateKeys, PollingFailureMessage;
  }

  /** Any answer for an owned key keeps the journal entry true. */
  lemma AnswerIsTrue(q: PollQuery, owner: map<OpId, Key>, seen: map<OpId, Operation>, errors: set<OpId>,
                     outcomes: map<Key, Outcome>, k: Key, ops: seq<OpId>, own: OpId)
    requires OwnedKey(q, owner, k, ops, own) && OwnedQuery(q, owner) && SeenFrom(q, owner, seen)
    requires Answers(q, seen, errors, outcomes) && k in q.keys
    requires forall id :: id in seen ==> seen[id].id == id
    ensures k in outcomes && DecisionOn(outcomes[k], k).Some?
    ensures var d := DecisionOn(outcomes[k], k).value;
      d.Submit? || (d.Await? && d.group.key == k && GroupIsTrue(owner, d.group))
  {
    AnswerOf(q, owner, seen, errors, outcomes, k);
    OwnedKeyIsNamed(q, owner, k, ops, own);
    if k in KnownKeys(seen) {
      var id :| SeenAnswer(q, owner, seen, k, outcomes[k], id);
      SeenDecision(q, owner, seen, k, outcomes[k], id);
      SeenIsNamed(q, owner, seen, id);
      hide DecisionOn, SeenAnswer, Answers, OwnedQuery, OwnedKey, GroupIsTrue;
      SingleIsTrue(owner, k, id);
    } else {
      TimeoutIsTrue(q, owner, seen, k, ops, own);
      hide TimeoutGroup, DecisionOn, Answers, OwnedQuery, OwnedKey, TimeoutOutcome;
      TimeoutDecision(q, seen, errors, k);
    }
  }

  lemma OwnedKeyIsNamed(q: PollQuery, owner: map<OpId, Key>, k: Key, ops: seq<OpId>, own: OpId)
    requires OwnedKey(q, owner, k, ops, own) && OwnedQuery(q, owner)
    ensures !k.blank
  {
    assert own in q.ids && own in q.keysByOp;
  }

  lemma SeenIsNamed(q: PollQuery, owner: map<OpId, Key>, seen: map<OpId, Operation>, id: OpId)
    requires OwnedQuery(q, owner) && SeenFrom(q, owner, seen) && id in seen
    ensures !id.blank
  {
  }

  // ---------- The queries of a run are owned ----------

  lemma AwaitQueryIsOwned(q: PollQuery, w: World, batch: seq<Resource>)
    requires TrueJournal(w) && AsksForGroups(q, AwaitGroups(w.journal, batch))
    ensures OwnedQuery(q, w.owner)
  {
    var groups := AwaitGroups(w.journal, batch);
    forall id | id in q.ids
      ensures !id.blank && id in w.owner && id in q.keysByOp && w.owner[id] in q.keysByOp[id]
    {
      assert Listed(groups, id);
      var g :| g in groups && id in g.ops;
      AwaitedIsTrue(w, batch, g);
      assert id in Elements(q.ids);
      assert Allowed(groups, id, w.owner[id]);
    }
    forall id, k | id in q.keysByOp && k in q.keysByOp[id] ensures !k.blank {
      assert Allowed(groups, id, k);
      var g :| g in groups && id in g.ops && k in g.keys;
      AwaitedIsTrue(w, batch, g);
    }
  }

  lemma AwaitedIsTrue(w: World, batch: seq<Resource>, g: CandidateGroup)
    requires TrueJournal(w) && g in AwaitGroups(w.journal, batch)
    ensures GroupIsTrue(w.owner, g) && g.key in KeySet(batch)
    ensures Awaits(w.journal, g.key) && g == GroupOf(w.journal, g.key)
  {
    InAwaitGroups(w.journal, batch, g);
    var r :| r in batch && Awaits(w.journal, r.key) && GroupOf(w.journal, r.key) == g;
    assert TrueEntry(w.owner, w.journal, r.key);
  }

  lemma AwaitedKeyIsOwned(q: PollQuery, w: World, batch: seq<Resource>, k: Key, own: OpId)
    requires TrueJournal(w) && AsksForGroups(q, AwaitGroups(w.journal, batch))
    requires k in KeySet(batch) && Awaits(w.journal, k) && OwnIn(w.owner, GroupOf(w.journal, k).ops, k, own)
    ensures k in q.keys && OwnedKey(q, w.owner, k, GroupOf(w.journal, k).ops, own)
  {
    var groups, g := AwaitGroups(w.journal, batch), GroupOf(w.journal, k);
    assert TrueEntry(w.owner, w.journal, k);
    AwaitedGroup(w, batch, k);
    forall id | id in g.ops ensures id in q.ids {
      assert Listed(groups, id);
    }
    forall id | id in g.ops ensures id in q.keysByOp && k in q.keysByOp[id] {
      assert Listed(groups, id);
      assert id in Elements(q.ids) && Allowed(groups, id, k);
    }
    forall id | id in q.ids && IsExact(q, id, k) ensures id in g.ops {
      assert Listed(groups, id);
      var a :| a in groups && id in a.ops;
      AwaitedIsTrue(w, batch, a);
      assert Allowed(groups, id, a.key);
      assert a.key in [k];
    }
  }

  lemma CreatedIsOwned(q: PollQuery, groups: set<ChunkGroup>, owner: map<OpId, Key>, created: map<OpId, Key>)
    requires ValidGroups(groups) && AsksFor(q, groups) && Creates(owner, groups, created)
    ensures OwnedQuery(q, created)
  {
    forall id | id in q.ids
      ensures !id.blank && id in created && id in q.keysByOp && created[id] in q.keysByOp[id]
    {
      assert SomeId(groups, id);
      var g :| g in groups && id in g.ids;
      assert id in g.ids ==> id in q.keysByOp && q.keysByOp[id] == g.keys;
    }
    forall id, k | id in q.keysByOp && k in q.keysByOp[id] ensures !k.blank {
      assert id in q.ids;
      assert SomeId(groups, id);
      var g :| g in groups && id in g.ids;
    }
  }

  /** Every key of an accepted chunk gets one of the chunk's operations. */
  lemma ChunkCreatesEachKey(
    groups: set<ChunkGroup>, owner: map<OpId, Key>, created: map<OpId, Key>, g: ChunkGroup, k: Key)
    requires ValidGroups(groups) && Creates(owner, groups, created) && g in groups && k in g.keys
    ensures exists own :: OwnIn(created, g.ids, k, own)
  {
    forall id | id in g.ids ensures id in created {
      assert SomeId(groups, id);
    }
    if forall id :: id in g.ids ==> created[id] != k {
      var operations := map id | id in g.ids :: Operation(id, id, created[id], Processing, None);
      GroupPigeonhole(g, operations, k);
      assert false;
    }
    var own :| own in g.ids && created[own] == k;
    assert OwnIn(created, g.ids, k, own);
  }

  lemma SubmittedKeyIsOwned(
    q: PollQuery, groups: set<ChunkGroup>, owner: map<OpId, Key>, created: map<OpId, Key>,
    g: ChunkGroup, k: Key, own: OpId)
    requires ValidGroups(groups) && AsksFor(q, groups) && Creates(owner, groups, created)
    requires g in groups && k in g.keys && OwnIn(created, g.ids, k, own)
    ensures k in q.keys && OwnedKey(q, created, k, g.ids, own)
  {
    hide *;
    ChunkIsAskedFor(q, groups, g, k);
    forall id | id in q.ids && IsExact(q, id, k) ensures id in g.ids {
      ExactIsInChunk(q, groups, g, k, id);
    }
    OwnedKeyIf(q, created, k, g.ids, own);
  }

  lemma OwnedKeyIf(q: PollQuery, owner: map<OpId, Key>, k: Key, ops: seq<OpId>, own: OpId)
    requires k in q.opsByKey && q.opsByKey[k] == ops && Distinct(ops) && OwnIn(owner, ops, k, own)
    requires forall id :: id in ops ==> id in q.ids && k in AllowedKeys(q, id)
    requires forall id :: id in q.ids && IsExact(q, id, k) ==> id in ops
    ensures OwnedKey(q, owner, k, ops, own)
  {
    hide AllowedKeys, IsExact, OwnIn, Distinct;
  }

  /** The request asks for the chunk's keys and operations, and lets each be any of the others. */
  lemma ChunkIsAskedFor(q: PollQuery, groups: set<ChunkGroup>, g: ChunkGroup, k: Key)
    requires ValidGroups(groups) && AsksFor(q, groups) && g in groups && k in g.keys
    ensures k in q.keys && k in q.opsByKey && q.opsByKey[k] == g.ids && Distinct(g.ids)
    ensures forall id :: id in g.ids ==> id in q.ids && k in AllowedKeys(q, id)
  {
    assert SomeKey(groups, k);
    hide Distinct;
    forall id | id in g.ids ensures id in q.ids && k in AllowedKeys(q, id) {
      assert SomeId(groups, id);
      assert id in q.keysByOp && q.keysByOp[id] == g.keys;
    }
  }

  /** An operation that can only be `k`'s is of the chunk of `k`. */
  lemma ExactIsInChunk(q: PollQuery, groups: set<ChunkGroup>, g: ChunkGroup, k: Key, id: OpId)
    requires ValidGroups(groups) && AsksFor(q, groups) && g in groups && k in g.keys
    requires id in q.ids && IsExact(q, id, k)
    ensures id in g.ids
  {
    assert SomeId(groups, id);
    var a :| a in groups && id in a.ids;
    assert id in q.keysByOp && q.keysByOp[id] == a.keys;
    hide Distinct;
    assert a.keys == [k];
    assert k in Elements(a.keys) && k in Elements(g.keys);
    assert a != g ==> DisjointGroups(a, g);
  }

  // ---------- What a run does to one journal entry ----------

  lemma BatchKinds(w: World, batch: seq<Resource>, k: Key)
    ensures k in KeySet(FreshResources(w.journal, batch)) <==>
      k in KeySet(batch) && Decision(w.journal, k) == Some(Submit)
  {
    var drafts := FreshResources(w.journal, batch);
    if k in KeySet(drafts) {
      var r :| r in drafts && r.key == k;
    }
    if k in KeySet(batch) && Decision(w.journal, k) == Some(Submit) {
      var r :| r in batch && r.key == k;
      assert r in drafts;
    }
  }

  /** The outcome journaled for each kind of key, and nothing else changes. */
  lemma EntryAfter(options: PollOptions, w: World, batch: seq<Resource>, c: Choice, w': World, k: Key)
    requires TrueJournal(w) && Run(options, w, batch, c, w')
    ensures k !in KeySet(batch) ==> Decision(w'.journal, k) == Decision(w.journal, k)
    ensures k in KeySet(batch) && Awaits(w.journal, k) ==>
      k in c.awaited && Decision(w'.journal, k) == DecisionOn(c.awaited[k], k)
    ensures k in KeySet(batch) && Decision(w.journal, k) == Some(Submit) ==>
      k in c.submitted && Decision(w'.journal, k) == DecisionOn(c.submitted[k], k)
    ensures k in KeySet(batch) && Decision(w.journal, k).Some? && Decision(w.journal, k).value.Blocked? ==>
      Decision(w'.journal, k) == Decision(w.journal, k)
  {
    AwaitedKeys(options, w, batch, c, k);
    SubmittedKeys(options, w, batch, c, k);
    BatchKinds(w, batch, k);
    BlockedStays(w, KeySet(batch), k);
    JournaledDecision(w.journal, Settled(w.journal, batch, c), k);
    hide AwaitPhase, SubmitPhase, TrueJournal, FreshResources, AwaitGroups, KeySet, Decision, DecisionOn,
         JournalAll;
  }

  lemma JournaledDecision(journal: map<Key, JournalValue>, outcomes: map<Key, Outcome>, k: Key)
    ensures Decision(journal + JournalAll(outcomes), k) ==
      if k in outcomes then DecisionOn(outcomes[k], k) else Decision(journal, k)
  {
    hide ResumeFromJournal, JournalValueFromOutcome;
  }

  lemma BlockedStays(w: World, keys: set<Key>, k: Key)
    requires TrueJournal(w)
    ensures var blocked := BlockedOutcomes(w.journal, keys);
      && (k in blocked <==> k in keys && Decision(w.journal, k).Some? && Decision(w.journal, k).value.Blocked?)
      && (k in blocked ==> DecisionOn(blocked[k], k) == Decision(w.journal, k))
  {
    assert TrueEntry(w.owner, w.journal, k);
  }

  lemma AwaitedKeys(options: PollOptions, w: World, batch: seq<Resource>, c: Choice, k: Key)
    requires TrueJournal(w) && Distinct(KeysOf(batch)) && AwaitPhase(options, w, batch, c)
    ensures k in c.awaited <==> k in KeySet(batch) && Awaits(w.journal, k)
  {
    AwaitQueryOf(options, w, batch);
    AwaitedGroup(w, batch, k);
    hide AwaitEnds, Truthful, AwaitQuery, AwaitGroups, Requested;
    assert k in c.awaited <==> k in Elements(AwaitQuery(options, AwaitGroups(w.journal, batch)).keys);
  }

  lemma SubmittedKeys(options: PollOptions, w: World, batch: seq<Resource>, c: Choice, k: Key)
    requires SubmitPhase(options, w, batch, c)
    ensures k in c.submitted <==> k in KeySet(FreshResources(w.journal, batch))
    ensures k in c.submitted <==> k in c.sub.q.keys || k in c.sub.failed
    ensures k in c.sub.q.keys ==> k !in c.sub.failed
    ensures k in c.sub.q.keys ==> k in PolledPart(c) && c.submitted[k] == PolledPart(c)[k]
    ensures k in c.sub.failed ==> c.submitted[k] == c.sub.failed[k]
  {
    hide AsksFor, ValidGroups, Creates, Truthful, FailureOf;
    assert PolledPart(c).Keys == Elements(c.sub.q.keys);
  }

  lemma OwnerGrows(owner: map<OpId, Key>, owner': map<OpId, Key>, g: CandidateGroup)
    requires GroupIsTrue(owner, g)
    requires forall id :: id in owner ==> id in owner' && owner'[id] == owner[id]
    ensures GroupIsTrue(owner', g)
  {
    hide Awaitable;
    var own :| OwnIn(owner, g.ops, g.key, own);
    assert OwnIn(owner', g.ops, g.key, own);
  }

  lemma FailureDecision(options: PollOptions, k: Key, outcome: Outcome)
    requires FailureOf(options, k, outcome)
    ensures DecisionOn(outcome, k) == Some(
      if outcome.acceptance.NotAccepted? then Submit else Blocked(outcome))
  {
  }

  /** A group a decision on journaled outcomes can await. */
  ghost predicate TrueDecision(owner: map<OpId, Key>, d: Option<Resume>, k: Key) {
    d.Some? && (d.value.Await? ==> d.value.group.key == k && GroupIsTrue(owner, d.value.group))
  }

  lemma AwaitedIsTrueAfter(options: PollOptions, w: World, batch: seq<Resource>, c: Choice, k: Key)
    requires TrueJournal(w) && Distinct(KeysOf(batch)) && AwaitPhase(options, w, batch, c)
    requires k in KeySet(batch) && Awaits(w.journal, k)
    ensures k in c.awaited && TrueDecision(w.owner, DecisionOn(c.awaited[k], k), k)
  {
    var q, g := AwaitQuery(options, AwaitGroups(w.journal, batch)), GroupOf(w.journal, k);
    AwaitQueryOf(options, w, batch);
    AwaitQueryIsOwned(q, w, batch);
    OwnOfAwaiting(w, k);
    var own :| OwnIn(w.owner, g.ops, k, own);
    AwaitedKeyIsOwned(q, w, batch, k, own);
    SeenIsAwaited(options, w, batch, c);
    hide AwaitPhase, AwaitQuery, TrueJournal, AsksForGroups, OwnedQuery, OwnedKey, OwnIn, Answers, DecisionOn,
         GroupIsTrue, SeenFrom;
    AnswerIsTrue(q, w.owner, c.seen, c.errors, c.awaited, k, g.ops, own);
  }

  lemma SeenIsAwaited(options: PollOptions, w: World, batch: seq<Resource>, c: Choice)
    requires AwaitPhase(options, w, batch, c)
    ensures var q := AwaitQuery(options, AwaitGroups(w.journal, batch));
      SeenFrom(q, w.owner, c.seen) && Answers(q, c.seen, c.errors, c.awaited)
    ensures forall id :: id in c.seen ==> c.seen[id].id == id
  {
    hide AwaitEnds, AwaitQuery, AwaitGroups, Answers, Readable;
  }

  lemma OwnOfAwaiting(w: World, k: Key)
    requires TrueJournal(w) && Awaits(w.journal, k)
    ensures GroupIsTrue(w.owner, GroupOf(w.journal, k)) && GroupOf(w.journal, k).key == k
    ensures exists own :: OwnIn(w.owner, GroupOf(w.journal, k).ops, k, own)
  {
    assert TrueEntry(w.owner, w.journal, k);
  }

  lemma SubmittedIsTrueAfter(options: PollOptions, w: World, batch: seq<Resource>, c: Choice, k: Key)
    requires SubmitPhase(options, w, batch, c) && k in KeySet(FreshResources(w.journal, batch))
    ensures k in c.submitted && TrueDecision(c.created, DecisionOn(c.submitted[k], k), k)
  {
    SubmittedKeys(options, w, batch, c, k);
    if k in c.sub.failed {
      FailureDecision(options, k, c.sub.failed[k]);
    } else {
      AcceptedIsTrueAfter(options, w, batch, c, k);
    }
  }

  lemma SubmitFacts(options: PollOptions, w: World, batch: seq<Resource>, c: Choice)
    requires SubmitPhase(options, w, batch, c)
    ensures ValidGroups(c.sub.groups) && AsksFor(c.sub.q, c.sub.groups) && Creates(w.owner, c.sub.groups, c.created)
    ensures Answers(c.sub.q, c.sub.ops, c.sub.errors, PolledPart(c))
    ensures Truthful(c.created, c.finished, options.container, c.sub.ops)
  {
    hide ValidGroups, AsksFor, Creates, Answers, Truthful, FailureOf, PolledPart, KeySet, FreshResources;
  }

  lemma AcceptedIsTrueAfter(options: PollOptions, w: World, batch: seq<Resource>, c: Choice, k: Key)
    requires SubmitPhase(options, w, batch, c) && k in c.sub.q.keys
    ensures k in PolledPart(c) && TrueDecision(c.created, DecisionOn(PolledPart(c)[k], k), k)
  {
    hide *;
    var q := c.sub.q;
    SubmitFacts(options, w, batch, c);
    var g := ChunkOf(q, c.sub.groups, k);
    CreatedIsOwned(q, c.sub.groups, w.owner, c.created);
    ChunkCreatesEachKey(c.sub.groups, w.owner, c.created, g, k);
    var own :| OwnIn(c.created, g.ids, k, own);
    SubmittedKeyIsOwned(q, c.sub.groups, w.owner, c.created, g, k, own);
    SeenIsCreated(options, w, batch, c);
    AnswerIsTrue(q, c.created, c.sub.ops, c.sub.errors, PolledPart(c), k, g.ids, own);
    TrueDecisionIf(c.created, DecisionOn(PolledPart(c)[k], k), k);
  }

  lemma TrueDecisionIf(owner: map<OpId, Key>, d: Option<Resume>, k: Key)
    requires d.Some?
    requires d.value.Submit? || (d.value.Await? && d.value.group.key == k && GroupIsTrue(owner, d.value.group))
    ensures TrueDecision(owner, d, k)
  {
    hide GroupIsTrue;
  }

  lemma ChunkOf(q: PollQuery, groups: set<ChunkGroup>, k: Key) returns (g: ChunkGroup)
    requires AsksFor(q, groups) && k in q.keys
    ensures g in groups && k in g.keys
  {
    assert SomeKey(groups, k);
    g :| g in groups && k in g.keys;
  }

  lemma SeenIsCreated(options: PollOptions, w: World, batch: seq<Resource>, c: Choice)
    requires SubmitPhase(options, w, batch, c)
    ensures SeenFrom(c.sub.q, c.created, c.sub.ops)
    ensures forall id :: id in c.sub.ops ==> c.sub.ops[id].id == id
  {
    hide ValidGroups, FailureOf, Answers, PolledPart, KeySet;
    forall id | id in c.sub.ops ensures id in c.sub.q.ids {
      assert SomeId(c.sub.groups, id);
    }
  }

  /** After any run, whatever the batch, every awaiting entry still lists its true operation. */
  lemma RunKeepsJournalTrue(options: PollOptions, w: World, batch: seq<Resource>, c: Choice, w': World)
    requires TrueJournal(w) && Run(options, w, batch, c, w')
    ensures TrueJournal(w')
  {
    forall k ensures TrueEntry(w'.owner, w'.journal, k) {
      EntryIsTrueAfter(options, w, batch, c, w', k);
    }
  }

  lemma EntryIsTrueAfter(options: PollOptions, w: World, batch: seq<Resource>, c: Choice, w': World, k: Key)
    requires TrueJournal(w) && Run(options, w, batch, c, w')
    ensures TrueEntry(w'.owner, w'.journal, k)
  {
    EntryAfter(options, w, batch, c, w', k);
    EntryIsTrueBefore(w, k);
    var d, d' := Decision(w.journal, k), Decision(w'.journal, k);
    RunPhases(options, w, batch, c, w');
    hide Run, TrueJournal, AwaitPhase, SubmitPhase, Decision, DecisionOn, GroupIsTrue;
    if k in KeySet(batch) && Awaits(w.journal, k) {
      AwaitedIsTrueAfter(options, w, batch, c, k);
      GrownDecision(w.owner, w'.owner, d', k);
    } else if k in KeySet(batch) && d == Some(Submit) {
      BatchKinds(w, batch, k);
      SubmittedIsTrueAfter(options, w, batch, c, k);
      GrownDecision(c.created, w'.owner, d', k);
    } else {
      GrownDecision(w.owner, w'.owner, d', k);
    }
  }

  lemma EntryIsTrueBefore(w: World, k: Key)
    requires TrueJournal(w)
    ensures TrueDecision(w.owner, Decision(w.journal, k), k)
    ensures TrueEntry(w.owner, w.journal, k)
  {
    assert TrueEntry(w.owner, w.journal, k);
  }

  lemma RunPhases(options: PollOptions, w: World, batch: seq<Resource>, c: Choice, w': World)
    requires TrueJournal(w) && Run(options, w, batch, c, w')
    ensures Distinct(KeysOf(batch)) && AwaitPhase(options, w, batch, c) && SubmitPhase(options, w, batch, c)
    ensures w'.owner == w.owner + c.created && w.owner.Keys !! c.created.Keys
    ensures w'.finished == c.finished && w.finished <= c.finished
  {
    hide AwaitPhase, TrueJournal, Distinct;
  }

  lemma GrownDecision(owner: map<OpId, Key>, owner': map<OpId, Key>, d: Option<Resume>, k: Key)
    requires TrueDecision(owner, d, k)
    requires forall id :: id in owner ==> id in owner' && owner'[id] == owner[id]
    ensures TrueDecision(owner', d, k)
  {
    if d.value.Await? {
      OwnerGrows(owner, owner', d.value.group);
    }
  }

  // ---------- When awaiting fails ----------

  /** No two operations the batch awaits belong to the same key. */
  ghost predicate NoSharedOwner(w: World, batch: seq<Resource>) {
    var groups := AwaitGroups(w.journal, batch);
    forall a, b :: a in w.owner && b in w.owner && a != b && Listed(groups, a) && Listed(groups, b) ==>
      w.owner[a] != w.owner[b]
  }

  /** After any runs, awaiting never meets a foreign key and never leaves a key uncovered. */
  lemma AwaitIsCorrelatedAndCovered(
    options: PollOptions, w: World, batch: seq<Resource>, finished: set<OpId>, seen: map<OpId, Operation>)
    requires TrueJournal(w) && Distinct(KeysOf(batch))
    requires Truthful(w.owner, finished, options.container, seen)
    ensures var q := AwaitQuery(options, AwaitGroups(w.journal, batch));
      (forall id :: id in seen ==> id in q.ids) ==>
        Correlated(q, seen) && (AllSettled(q, seen) ==> Covered(q, seen))
  {
    var q := AwaitQuery(options, AwaitGroups(w.journal, batch));
    AwaitQueryOf(options, w, batch);
    AwaitQueryIsOwned(q, w, batch);
    if (forall id :: id in seen ==> id in q.ids) && AllSettled(q, seen) {
      forall k | k in q.keys ensures k in KnownKeys(seen) {
        AwaitedKeyIsCovered(q, w, batch, seen, k);
      }
    }
  }

  lemma AwaitedKeyIsCovered(q: PollQuery, w: World, batch: seq<Resource>, seen: map<OpId, Operation>, k: Key)
    requires TrueJournal(w) && AsksForGroups(q, AwaitGroups(w.journal, batch)) && k in q.keys
    requires forall id :: id in seen ==> id in w.owner && seen[id].key == w.owner[id]
    requires AllSettled(q, seen)
    ensures k in KnownKeys(seen)
  {
    AwaitedGroup(w, batch, k);
    OwnOfAwaiting(w, k);
    var own :| OwnIn(w.owner, GroupOf(w.journal, k).ops, k, own);
    AwaitedKeyIsOwned(q, w, batch, k, own);
    assert own in seen && seen[own].key == k;
  }

  /** The request is answered without a contract error whatever is truthfully seen. */
  ghost predicate AlwaysAnswered(q: PollQuery, owner: map<OpId, Key>) {
    forall finished, seen ::
      Truthful(owner, finished, q.container, seen) && (forall id :: id in seen ==> id in q.ids) ==> AwaitEnds(q, seen)
  }

  /** Awaiting the batch ends without a contract error whatever is truthfully seen. */
  ghost predicate AlwaysEnds(options: PollOptions, w: World, batch: seq<Resource>) {
    AlwaysAnswered(AwaitQuery(options, AwaitGroups(w.journal, batch)), w.owner)
  }

  /**
   * Awaiting can fail only because two awaited operations belong to one key, and then it does fail
   * for some truthful answers: it is safe from contract errors exactly when no owner is shared.
   */
  lemma AwaitFailsExactlyOnSharedOwner(options: PollOptions, w: World, batch: seq<Resource>)
    requires TrueJournal(w) && Distinct(KeysOf(batch))
    ensures NoSharedOwner(w, batch) <==> AlwaysEnds(options, w, batch)
  {
    var groups := AwaitGroups(w.journal, batch);
    var q := AwaitQuery(options, groups);
    AwaitQueryOf(options, w, batch);
    if NoSharedOwner(w, batch) {
      forall finished, seen |
        Truthful(w.owner, finished, q.container, seen) && (forall id :: id in seen ==> id in q.ids)
        ensures AwaitEnds(q, seen)
      {
        AwaitIsCorrelatedAndCovered(options, w, batch, finished, seen);
        UnsharedIsConsistent(options, w, batch, q, finished, seen);
      }
    } else {
      var a, b :| a in w.owner && b in w.owner && a != b && Listed(groups, a) && Listed(groups, b)
        && w.owner[a] == w.owner[b];
      CollisionFails(w, q, a, b);
    }
  }

  lemma UnsharedIsConsistent(
    options: PollOptions, w: World, batch: seq<Resource>, q: PollQuery, finished: set<OpId>, seen: map<OpId, Operation>)
    requires NoSharedOwner(w, batch) && AsksForGroups(q, AwaitGroups(w.journal, batch))
    requires Truthful(w.owner, finished, options.container, seen) && forall id :: id in seen ==> id in q.ids
    ensures Consistent(seen)
  {
    hide Listed, Requested, Allowed, Distinct, Readable, IsPending, AwaitGroups;
  }

  lemma CollisionFails(w: World, q: PollQuery, a: OpId, b: OpId)
    requires a in w.owner && b in w.owner && a != b && w.owner[a] == w.owner[b] && a in q.ids && b in q.ids
    ensures !AlwaysAnswered(q, w.owner)
  {
    var k := w.owner[a];
    var seen := map[a := Operation(a, q.container, k, Processing, None),
                    b := Operation(b, q.container, k, Processing, None)];
    assert seen[a].key == seen[b].key;
    assert Truthful(w.owner, {}, q.container, seen) && !AwaitEnds(q, seen);
  }
}
