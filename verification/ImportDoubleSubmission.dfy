/** Splitting the batch of a candidate group: how a key comes to be submitted twice. */
module ImportDoubleSubmission {
  import opened Basics
  import opened Chunking
  import opened ImportOutcomes
  import opened ImportPolling
  import opened ImportSubmission
  import opened ImportAwait
  import opened ImportRuns
  import opened ImportTogether
  import opened ImportBatch
  import opened ImportDriver
  import opened ImportHistories
  import opened ImportScenarios

  // ---------- What an accepted chunk leaves its keys with ----------

  /** Each submitted key then awaits every operation of its chunk. */
  lemma AcceptingAwaitsAll(
    options: PollOptions, w: World, batch: seq<Resource>, g: ChunkGroup, created: map<OpId, Key>, c: Choice, w': World,
    k: Key)
    requires TrueJournal(w) && OneChunk(w, batch, g, created) && k in g.keys
    requires Run(options, w, batch, c, w') && c.created == created && SubmitsChunk(options, batch, g, c.sub)
    ensures Awaits(w'.journal, k) && (forall id :: id in g.ids ==> id in GroupOf(w'.journal, k).ops)
  {
    hide *;
    OneChunkFacts(w, batch, g, created);
    SubmitsChunkFacts(options, batch, g, c.sub);
    SingletonChunkCreates(w.owner, g, created, k);
    var own :| OwnIn(created, g.ids, k, own);
    SubmittedOwn(options, w, batch, c, w', g, k, own);
    NothingIsSeen(c.sub.ops, own);
    UnseenAwaits(w', c.sub.q, created, c.sub.ops, k, g.ids, own);
    OwnIsOf(created, g.ids, k, own);
    AllUnseen(options, g, k, own);
  }

  lemma NothingIsSeen(seen: map<OpId, Operation>, own: OpId)
    requires seen == map[]
    ensures own !in seen
  {
  }

  lemma OwnIsOf(owner: map<OpId, Key>, ops: seq<OpId>, k: Key, own: OpId)
    requires OwnIn(owner, ops, k, own)
    ensures own in ops
  {
  }

  lemma SingletonChunkCreates(owner: map<OpId, Key>, g: ChunkGroup, created: map<OpId, Key>, k: Key)
    requires ValidGroup(g) && Creates(owner, {g}, created) && k in g.keys
    ensures g in {g} && exists own :: OwnIn(created, g.ids, k, own)
  {
    ChunkCreatesEachKey({g}, owner, created, g, k);
  }

  lemma AllUnseen(options: PollOptions, g: ChunkGroup, k: Key, own: OpId)
    requires ValidGroup(g) && k in g.keys && own in g.ids
    requires TimeoutOps(ChunkQuery(options, g), map[], k, g.ids, own)
    ensures forall id :: id in g.ids ==> id in TimeoutGroup(ChunkQuery(options, g), map[], k).ops
  {
    var q := ChunkQuery(options, g);
    assert q.keysByOp[own] == g.keys;
    hide TimeoutGroup;
    if IsExact(q, own, k) {
      assert |g.ids| == 1;
    }
  }

  lemma OwnIsListed(w: World, batch: seq<Resource>, k: Key, own: OpId)
    requires TrueJournal(w) && k in KeySet(batch) && Awaits(w.journal, k)
    requires OwnIn(w.owner, GroupOf(w.journal, k).ops, k, own)
    ensures Listed(AwaitGroups(w.journal, batch), own)
  {
    AwaitedGroup(w, batch, k);
  }

  // ---------- Splitting the batch of a candidate group submits a key twice ----------

  ghost predicate SameElsewhere(w: World, w': World, keys: set<Key>) {
    forall k :: k !in keys ==> Decision(w'.journal, k) == Decision(w.journal, k)
  }

  lemma RunIsElsewhereSame(options: PollOptions, w: World, batch: seq<Resource>, e: Environment, c: Choice, w': World)
    requires TrueJournal(w) && Run(options, w, batch, c, w') && DriverRun(options, w, batch, e, c, w')
    ensures SameElsewhere(w, w', KeySet(batch)) && TrueJournal(w') && SomeRun(w, w')
  {
    hide Run, DriverRun, TrueJournal, Decision, KeySet;
    RunKeepsJournalTrue(options, w, batch, c, w');
    forall k | k !in KeySet(batch) ensures Decision(w'.journal, k) == Decision(w.journal, k) {
      EntryAfter(options, w, batch, c, w', k);
    }
  }

  /** A run that resubmits `r` alone, accepted as `n`, and does not see `n` before the deadline. */
  lemma ResubmitAlone(options: PollOptions, w: World, r: Resource, n: OpId) returns (w': World)
    requires TrueJournal(w) && Decision(w.journal, r.key) == Some(Submit) && options.Valid()
    requires !r.key.blank && !n.blank && n !in w.owner && Fits([r], BODY_LIMIT)
    ensures SomeTogetherRun(w, w') && SomeRun(w, w') && TrueJournal(w') && SameElsewhere(w, w', {r.key})
    ensures w'.owner == w.owner[n := r.key] && w'.finished == w.finished
    ensures Awaits(w'.journal, r.key) && n in GroupOf(w'.journal, r.key).ops
  {
    var g, created := ChunkGroup([r.key], [n]), map[n := r.key];
    AloneIsOneChunk(w, r, n);
    assert r.key in g.keys && n in g.ids;
    hide *;
    var e, c;
    e, c, w' := AcceptingRun(options, w, [r], g, created);
    AcceptingAwaitsAll(options, w, [r], g, created, c, w', r.key);
    RunIsElsewhereSame(options, w, [r], e, c, w');
    NothingToKeep(w.journal, r.key);
    TogetherRunIf(options, w, [r], e, c, w');
  }

  lemma AloneIsOneChunk(w: World, r: Resource, n: OpId)
    requires Decision(w.journal, r.key) == Some(Submit) && !r.key.blank && !n.blank && n !in w.owner
    requires Fits([r], BODY_LIMIT)
    ensures OneChunk(w, [r], ChunkGroup([r.key], [n]), map[n := r.key]) && KeySet([r]) == {r.key}
    ensures w.owner + map[n := r.key] == w.owner[n := r.key]
  {
    hide Decision, Fits;
    var g := ChunkGroup([r.key], [n]);
    assert KeysOf([r]) == [r.key];
    assert forall id :: SomeId({g}, id) <==> id == n by {
      assert n in g.ids;
    }
  }

  /** A run that sees the listed operation `id` cancelled; its key, awaited, may then be submitted again. */
  lemma SeeCancelled(options: PollOptions, w: World, batch: seq<Resource>, k: Key, id: OpId) returns (w': World)
    requires TrueJournal(w) && Distinct(KeysOf(batch)) && id in w.owner && w.owner[id] == k && options.Valid()
    requires Listed(AwaitGroups(w.journal, batch), id) && AllAwait(w.journal, KeySet(batch))
    requires k in KeySet(batch)
    ensures SomeRun(w, w') && TrueJournal(w') && SameElsewhere(w, w', KeySet(batch))
    ensures KeepsTogether(w.journal, KeySet(batch)) ==> SomeTogetherRun(w, w')
    ensures w'.owner == w.owner && w'.finished == w.finished + {id} && Decision(w'.journal, k) == Some(Submit)
  {
    assert Awaits(w.journal, k);
    hide *;
    AwaitingIsAccepted(options, w, batch);
    var e, c;
    e, c, w' := CancellingRun(options, w, batch, k, id);
    RunIsElsewhereSame(options, w, batch, e, c, w');
    if KeepsTogether(w.journal, KeySet(batch)) {
      TogetherRunIf(options, w, batch, e, c, w');
    }
  }

  ghost predicate AllAwait(journal: map<Key, JournalValue>, keys: set<Key>) {
    forall k :: k in keys ==> Awaits(journal, k)
  }

  lemma BothAwait(journal: map<Key, JournalValue>, k1: Key, k2: Key)
    requires Awaits(journal, k1) && Awaits(journal, k2)
    ensures AllAwait(journal, {k1}) && AllAwait(journal, {k1, k2})
  {
    hide Awaits;
  }

  /** A batch of which every key awaits submits nothing, so any valid options will do. */
  lemma AwaitingIsAccepted(options: PollOptions, w: World, batch: seq<Resource>)
    requires TrueJournal(w) && Distinct(KeysOf(batch)) && options.Valid()
    requires AllAwait(w.journal, KeySet(batch))
    ensures BatchAccepted(options, w.journal, batch)
  {
    AwaitGroupsAreAwaitable(w, batch);
    forall r ensures r !in FreshResources(w.journal, batch) {
      assert r in batch ==> r.key in KeySet(batch);
    }
    hide AwaitGroups, AwaitableGroups, TrueJournal, Distinct, KeySet, FreshResources;
    if FreshResources(w.journal, batch) != [] {
      SomeElement(FreshResources(w.journal, batch));
      assert false;
    }
  }

  lemma TogetherRunIf(options: PollOptions, w: World, batch: seq<Resource>, e: Environment, c: Choice, w': World)
    requires DriverRun(options, w, batch, e, c, w') && KeepsTogether(w.journal, KeySet(batch))
    ensures SomeTogetherRun(w, w')
  {
    hide DriverRun, KeepsTogether;
  }

  /** A batch of one key that awaits nothing splits no candidate group. */
  lemma NothingToKeep(journal: map<Key, JournalValue>, k: Key)
    requires Decision(journal, k) == Some(Submit)
    ensures KeepsTogether(journal, {k})
  {
  }

  /**
   * Two keys share an operation that belongs to the first. Running the first key alone, twice, and
   * then both leaves the first key submitted again while a newer operation is still unfinished.
   */
  lemma SplitBatchSubmitsTwice(
    options: PollOptions, w: World, r1: Resource, r2: Resource, own: OpId, n1: OpId, n2: OpId)
    requires TrueJournal(w) && r1.key != r2.key && Awaits(w.journal, r1.key) && Awaits(w.journal, r2.key)
    requires OwnIn(w.owner, GroupOf(w.journal, r1.key).ops, r1.key, own) && own in GroupOf(w.journal, r2.key).ops
    requires !r1.key.blank && !n1.blank && !n2.blank && n1 != n2 && n1 !in w.owner && n2 !in w.owner
    requires options.Valid() && Fits([r1], BODY_LIMIT)
    ensures exists w' :: Reaches(w, w') && |Outstanding(w', r1.key)| >= 2
  {
    assert w.finished <= w.owner.Keys;
    hide *;
    var k1, k2 := r1.key, r2.key;
    BatchOf(r1);
    BatchOfTwo(r1, r2);
    OwnIsNew(w.owner, GroupOf(w.journal, k1).ops, k1, own);
    OwnIsListed(w, [r1], k1, own);
    BothAwait(w.journal, k1, k2);
    var wa := SeeCancelled(options, w, [r1], k1, own);
    var wb := ResubmitAlone(options, wa, r1, n1);
    SameTwice(w, wa, wb, k1, k2);
    GroupIsListed(wb, [r1, r2], k2, own);
    BothAwait(wb.journal, k1, k2);
    var wc := SeeCancelled(options, wb, [r1, r2], k1, own);
    var wd := ResubmitAlone(options, wc, r1, n2);
    TwoOutstanding(w, wd, k1, own, n1, n2);
    FourRunsReach(w, wa, wb, wc, wd);
  }

  lemma FourRunsReach(w: World, wa: World, wb: World, wc: World, wd: World)
    requires SomeRun(w, wa) && SomeRun(wa, wb) && SomeRun(wb, wc) && SomeRun(wc, wd)
    ensures Reaches(w, wd)
  {
    var ws := [w, wa, wb, wc, wd];
    hide SomeRun, Progresses;
    assert History(ws);
  }

  ghost predicate Reaches(w: World, w': World) {
    exists ws :: History(ws) && ws[0] == w && ws[|ws| - 1] == w'
  }

  lemma BatchOf(r: Resource)
    ensures Distinct(KeysOf([r])) && KeySet([r]) == {r.key}
  {
  }

  lemma BatchOfTwo(r1: Resource, r2: Resource)
    requires r1.key != r2.key
    ensures Distinct(KeysOf([r1, r2])) && KeysOf([r1, r2]) == [r1.key, r2.key] && KeySet([r1, r2]) == {r1.key, r2.key}
  {
    KeySetIsElements([r1, r2]);
    assert KeysOf([r1, r2]) == [r1.key, r2.key];
  }

  lemma SameTwice(w: World, wa: World, wb: World, k1: Key, k2: Key)
    requires SameElsewhere(w, wa, {k1}) && SameElsewhere(wa, wb, {k1}) && k1 != k2 && Awaits(w.journal, k2)
    ensures Awaits(wb.journal, k2) && GroupOf(wb.journal, k2) == GroupOf(w.journal, k2)
  {
    hide Decision;
  }

  lemma GroupIsListed(w: World, batch: seq<Resource>, k: Key, id: OpId)
    requires TrueJournal(w) && k in KeySet(batch) && Awaits(w.journal, k) && id in GroupOf(w.journal, k).ops
    ensures Listed(AwaitGroups(w.journal, batch), id)
  {
    AwaitedGroup(w, batch, k);
  }

  lemma TwoOutstanding(w: World, w': World, k: Key, own: OpId, n1: OpId, n2: OpId)
    requires w.finished <= w.owner.Keys && own in w.owner && n1 !in w.owner && n2 !in w.owner && n1 != n2
    requires w'.owner == w.owner[n1 := k][n2 := k] && w'.finished == w.finished + {own} + {own}
    ensures |Outstanding(w', k)| >= 2
  {
    assert n1 in Outstanding(w', k) && n2 in Outstanding(w', k);
    SubsetSize({n1, n2}, Outstanding(w', k));
    assert |{n1, n2}| == 2;
  }

  /** From the empty world, any two resources that fit one request can reach such a double submission. */
  lemma DoubleSubmissionIsReachable(options: PollOptions, r1: Resource, r2: Resource)
    requires r1.key != r2.key && !r1.key.blank && !r2.key.blank && options.Valid() && Fits([r1, r2], BODY_LIMIT)
    ensures exists w :: Reaches(EMPTY, w) && !AtMostOne(w)
  {
    hide *;
    DoubleSubmissionWith(options, r1, r2, Name(1, false), Name(2, false), Name(3, false), Name(4, false));
  }

  lemma DoubleSubmissionWith(
    options: PollOptions, r1: Resource, r2: Resource, o1: OpId, o2: OpId, n1: OpId, n2: OpId)
    requires r1.key != r2.key && !r1.key.blank && !r2.key.blank && options.Valid() && Fits([r1, r2], BODY_LIMIT)
    requires o1 != o2 && n1 != n2 && n1 !in {o1, o2} && n2 !in {o1, o2}
    requires !o1.blank && !o2.blank && !n1.blank && !n2.blank
    ensures exists w :: Reaches(EMPTY, w) && !AtMostOne(w)
  {
    hide *;
    FirstFits(r1, r2);
    var w := FirstRun(options, r1, r2, o1, o2);
    ThenSubmitsTwice(options, w, r1, r2, o1, n1, n2);
  }

  lemma FirstFits(r1: Resource, r2: Resource)
    requires Fits([r1, r2], BODY_LIMIT)
    ensures Fits([r1], BODY_LIMIT)
  {
    SliceFits([r1, r2], 0, 0, 1, 2, BODY_LIMIT);
    assert [r1, r2][0..2] == [r1, r2] && [r1, r2][0..1] == [r1];
  }

  lemma ThenSubmitsTwice(
    options: PollOptions, w: World, r1: Resource, r2: Resource, own: OpId, n1: OpId, n2: OpId)
    requires SomeRun(EMPTY, w)
    requires TrueJournal(w) && r1.key != r2.key && Awaits(w.journal, r1.key) && Awaits(w.journal, r2.key)
    requires OwnIn(w.owner, GroupOf(w.journal, r1.key).ops, r1.key, own) && own in GroupOf(w.journal, r2.key).ops
    requires !r1.key.blank && !n1.blank && !n2.blank && n1 != n2 && n1 !in w.owner && n2 !in w.owner
    requires options.Valid() && Fits([r1], BODY_LIMIT)
    ensures exists w' :: Reaches(EMPTY, w') && !AtMostOne(w')
  {
    hide *;
    SplitBatchSubmitsTwice(options, w, r1, r2, own, n1, n2);
    var w' :| Reaches(w, w') && |Outstanding(w', r1.key)| >= 2;
    StepThenReaches(EMPTY, w, w');
    NotAtMostOne(w', r1.key);
  }

  lemma FirstIsOwn(w: World, k1: Key, k2: Key, o1: OpId, o2: OpId)
    requires w.owner == map[o1 := k1, o2 := k2] && o1 != o2 && k1 != k2 && Awaits(w.journal, k1)
    requires o1 in GroupOf(w.journal, k1).ops
    ensures OwnIn(w.owner, GroupOf(w.journal, k1).ops, k1, o1)
  {
    hide Decision;
  }

  /** Both resources are submitted in one chunk, accepted, and neither operation is seen. */
  lemma FirstRun(options: PollOptions, r1: Resource, r2: Resource, o1: OpId, o2: OpId) returns (w: World)
    requires r1.key != r2.key && !r1.key.blank && !r2.key.blank && o1 != o2 && !o1.blank && !o2.blank
    requires options.Valid() && Fits([r1, r2], BODY_LIMIT)
    ensures SomeRun(EMPTY, w) && TrueJournal(w) && w.owner.Keys == {o1, o2}
    ensures Awaits(w.journal, r1.key) && OwnIn(w.owner, GroupOf(w.journal, r1.key).ops, r1.key, o1)
    ensures Awaits(w.journal, r2.key) && o1 in GroupOf(w.journal, r2.key).ops
  {
    hide *;
    var g, created := ChunkGroup([r1.key, r2.key], [o1, o2]), map[o1 := r1.key, o2 := r2.key];
    TwoAreOneChunk(r1, r2, o1, o2);
    w := OneChunkRun(options, [r1, r2], g, created);
    ChunkIsAwaited(w, g, r1.key, o1);
    ChunkIsAwaited(w, g, r2.key, o1);
    FirstIsOwn(w, r1.key, r2.key, o1, o2);
  }

  ghost predicate AwaitsChunk(w: World, g: ChunkGroup) {
    forall k :: k in g.keys ==> Awaits(w.journal, k) && forall id :: id in g.ids ==> id in GroupOf(w.journal, k).ops
  }

  lemma ChunkIsAwaited(w: World, g: ChunkGroup, k: Key, id: OpId)
    requires AwaitsChunk(w, g) && k in g.keys && id in g.ids
    ensures Awaits(w.journal, k) && id in GroupOf(w.journal, k).ops
  {
  }

  lemma OneChunkRun(options: PollOptions, batch: seq<Resource>, g: ChunkGroup, created: map<OpId, Key>)
    returns (w: World)
    requires OneChunk(EMPTY, batch, g, created) && options.Valid()
    ensures SomeRun(EMPTY, w) && TrueJournal(w) && w.owner == created && AwaitsChunk(w, g)
  {
    EmptyIsTrueSafeShared();
    assert EMPTY.owner + created == created;
    hide *;
    w := ChunkRun(options, EMPTY, batch, g, created);
  }

  lemma ChunkRun(options: PollOptions, w: World, batch: seq<Resource>, g: ChunkGroup, created: map<OpId, Key>)
    returns (w': World)
    requires TrueJournal(w) && OneChunk(w, batch, g, created) && options.Valid()
    ensures SomeRun(w, w') && TrueJournal(w') && w'.owner == w.owner + created && AwaitsChunk(w', g)
  {
    hide *;
    var e, c;
    e, c, w' := AcceptingRun(options, w, batch, g, created);
    RunIsElsewhereSame(options, w, batch, e, c, w');
    AwaitsChunkAfter(options, w, batch, g, created, c, w');
  }

  lemma AwaitsChunkAfter(
    options: PollOptions, w: World, batch: seq<Resource>, g: ChunkGroup, created: map<OpId, Key>, c: Choice, w': World)
    requires TrueJournal(w) && OneChunk(w, batch, g, created)
    requires Run(options, w, batch, c, w') && c.created == created && SubmitsChunk(options, batch, g, c.sub)
    ensures AwaitsChunk(w', g)
  {
    hide TrueJournal, OneChunk, Run, Awaits, GroupOf, SubmitsChunk;
    forall k | k in g.keys
      ensures Awaits(w'.journal, k) && forall id :: id in g.ids ==> id in GroupOf(w'.journal, k).ops
    {
      AcceptingAwaitsAll(options, w, batch, g, created, c, w', k);
    }
  }

  lemma TwoAreOneChunk(r1: Resource, r2: Resource, o1: OpId, o2: OpId)
    requires r1.key != r2.key && !r1.key.blank && !r2.key.blank && o1 != o2 && !o1.blank && !o2.blank
    requires Fits([r1, r2], BODY_LIMIT)
    ensures OneChunk(EMPTY, [r1, r2], ChunkGroup([r1.key, r2.key], [o1, o2]), map[o1 := r1.key, o2 := r2.key])
  {
    var g := ChunkGroup([r1.key, r2.key], [o1, o2]);
    hide Fits;
    BatchOfTwo(r1, r2);
    assert forall id :: SomeId({g}, id) <==> id == o1 || id == o2 by {
      assert o1 in g.ids && o2 in g.ids;
    }
  }

  lemma StepThenReaches(w: World, w': World, w'': World)
    requires SomeRun(w, w') && Reaches(w', w'')
    ensures Reaches(w, w'')
  {
    hide SomeRun, Progresses;
    var ws :| History(ws) && ws[0] == w' && ws[|ws| - 1] == w'';
    var all := [w] + ws;
    assert History(all);
  }

  lemma NotAtMostOne(w: World, k: Key)
    requires |Outstanding(w, k)| >= 2
    ensures !AtMostOne(w)
  {
  }
}
