/** Awaiting operations of an earlier run, named by candidate groups. */
module ImportAwait {
  import opened Basics
  import opened ImportOutcomes
  import opened ImportPolling
  import opened ImportSubmission

  /** A candidate; without candidate keys it can only be its own key. */
  datatype Candidate = Candidate(ops: seq<OpId>, keys: Option<seq<Key>>, key: Key)

  function Normalize(candidate: Candidate): CandidateGroup {
    CandidateGroup(
      candidate.ops,
      if candidate.keys.Some? then candidate.keys.value else [candidate.key],
      candidate.key)
  }

  function Groups(candidates: seq<Candidate>): (groups: seq<CandidateGroup>)
    ensures |groups| == |candidates|
    ensures forall i :: 0 <= i < |groups| ==> groups[i] == Normalize(candidates[i])
  {
    seq(|candidates|, i requires 0 <= i < |candidates| => Normalize(candidates[i]))
  }

  ghost predicate AwaitableGroups(groups: seq<CandidateGroup>) {
    && (forall i :: 0 <= i < |groups| ==> Awaitable(groups[i]))
    && forall i, j :: 0 <= i < j < |groups| ==> groups[i].key != groups[j].key
  }

  ghost predicate ValidAwaitInput(options: PollOptions, groups: seq<CandidateGroup>) {
    groups != [] && AwaitableGroups(groups) && options.Valid()
  }

  // ---------- The polling request candidate groups make ----------

  function AddAllowed(keysByOp: map<OpId, seq<Key>>, id: OpId, keys: seq<Key>): map<OpId, seq<Key>> {
    keysByOp[id := InsertAll(if id in keysByOp then keysByOp[id] else [], keys)]
  }

  function AddAllAllowed(keysByOp: map<OpId, seq<Key>>, ids: seq<OpId>, keys: seq<Key>): map<OpId, seq<Key>> {
    if ids == [] then keysByOp
    else AddAllowed(AddAllAllowed(keysByOp, ids[..|ids| - 1], keys), ids[|ids| - 1], keys)
  }

  function AddCandidate(q: PollQuery, g: CandidateGroup): PollQuery {
    q.(keys := Insert(q.keys, g.key),
       ids := InsertAll(q.ids, g.ops),
       keysByOp := AddAllAllowed(q.keysByOp, g.ops, g.keys),
       opsByKey := q.opsByKey[g.key := g.ops])
  }

  function AwaitQuery(options: PollOptions, groups: seq<CandidateGroup>): (q: PollQuery)
    ensures q.container == options.container
    ensures q.interval == options.Interval() && q.timeout == options.Timeout()
  {
    if groups == [] then PollQuery(options.container, options.Interval(), options.Timeout(), [], [], map[], map[])
    else AddCandidate(AwaitQuery(options, groups[..|groups| - 1]), groups[|groups| - 1])
  }

  ghost predicate Requested(groups: seq<CandidateGroup>, k: Key) {
    exists g :: g in groups && g.key == k
  }

  ghost predicate Listed(groups: seq<CandidateGroup>, id: OpId) {
    exists g :: g in groups && id in g.ops
  }

  ghost predicate Allowed(groups: seq<CandidateGroup>, id: OpId, k: Key) {
    exists g :: g in groups && id in g.ops && k in g.keys
  }

  /** What the request asks for, said without the order it was built in. */
  ghost predicate AsksForGroups(q: PollQuery, groups: seq<CandidateGroup>) {
    && Distinct(q.keys) && Distinct(q.ids)
    && (forall k :: k in q.keys <==> Requested(groups, k))
    && (forall id :: id in q.ids <==> Listed(groups, id))
    && q.keysByOp.Keys == Elements(q.ids)
    && q.opsByKey.Keys == Elements(q.keys)
    && (forall id :: id in q.keysByOp ==> Distinct(q.keysByOp[id]))
    && (forall id, k :: id in q.keysByOp ==> (k in q.keysByOp[id] <==> Allowed(groups, id, k)))
    && (forall g :: g in groups ==> g.key in q.opsByKey && q.opsByKey[g.key] == g.ops)
  }

  /** `m` allows what `keysByOp` did, and each of `keys` for each of `ids`. */
  ghost predicate AllowsMore(m: map<OpId, seq<Key>>, keysByOp: map<OpId, seq<Key>>, ids: seq<OpId>, keys: seq<Key>) {
    && m.Keys == keysByOp.Keys + Elements(ids)
    && forall id :: id in m ==> AllowsMoreFor(m[id], keysByOp, ids, keys, id)
  }

  ghost predicate AllowsMoreFor(
    allowed: seq<Key>, keysByOp: map<OpId, seq<Key>>, ids: seq<OpId>, keys: seq<Key>, id: OpId)
  {
    && Distinct(allowed)
    && forall k :: k in allowed <==> (id in keysByOp && k in keysByOp[id]) || (id in ids && k in keys)
  }

  lemma {:induction false} AddAllAllowedIs(keysByOp: map<OpId, seq<Key>>, ids: seq<OpId>, keys: seq<Key>)
    requires forall id :: id in keysByOp ==> Distinct(keysByOp[id])
    ensures AllowsMore(AddAllAllowed(keysByOp, ids, keys), keysByOp, ids, keys)
  {
    hide AllowsMore, Distinct, InsertAll, AddAllowed;
    if ids == [] {
      AllowsNoMore(keysByOp, keys);
    } else {
      var n := |ids| - 1;
      AddAllAllowedIs(keysByOp, ids[..n], keys);
      AllowsOneMore(AddAllAllowed(keysByOp, ids[..n], keys), keysByOp, ids, keys);
    }
  }

  lemma AllowsNoMore(keysByOp: map<OpId, seq<Key>>, keys: seq<Key>)
    requires forall id :: id in keysByOp ==> Distinct(keysByOp[id])
    ensures AllowsMore(keysByOp, keysByOp, [], keys)
  {
    hide Distinct;
  }

  lemma AllowsOneMore(m: map<OpId, seq<Key>>, keysByOp: map<OpId, seq<Key>>, ids: seq<OpId>, keys: seq<Key>)
    requires ids != [] && AllowsMore(m, keysByOp, ids[..|ids| - 1], keys)
    ensures AllowsMore(AddAllowed(m, ids[|ids| - 1], keys), keysByOp, ids, keys)
  {
    hide *;
    var n := |ids| - 1;
    var m' := AddAllowed(m, ids[n], keys);
    AddedKeys(m, keysByOp, ids, keys);
    forall id | id in m' ensures AllowsMoreFor(m'[id], keysByOp, ids, keys, id) {
      AllowsMoreForNext(m, keysByOp, ids, keys, id);
    }
    AllowsMoreIf(m', keysByOp, ids, keys);
  }

  lemma AllowsMoreIf(m: map<OpId, seq<Key>>, keysByOp: map<OpId, seq<Key>>, ids: seq<OpId>, keys: seq<Key>)
    requires m.Keys == keysByOp.Keys + Elements(ids)
    requires forall id :: id in m ==> AllowsMoreFor(m[id], keysByOp, ids, keys, id)
    ensures AllowsMore(m, keysByOp, ids, keys)
  {
    hide AllowsMoreFor, Elements;
  }

  lemma AddedKeys(m: map<OpId, seq<Key>>, keysByOp: map<OpId, seq<Key>>, ids: seq<OpId>, keys: seq<Key>)
    requires ids != [] && AllowsMore(m, keysByOp, ids[..|ids| - 1], keys)
    ensures AddAllowed(m, ids[|ids| - 1], keys).Keys == keysByOp.Keys + Elements(ids)
  {
    hide AllowsMoreFor, InsertAll;
    var n := |ids| - 1;
    assert Elements(ids) == Elements(ids[..n]) + {ids[n]};
    assert AddAllowed(m, ids[n], keys).Keys == m.Keys + {ids[n]};
  }

  lemma AllowsMoreForNext(
    m: map<OpId, seq<Key>>, keysByOp: map<OpId, seq<Key>>, ids: seq<OpId>, keys: seq<Key>, id: OpId)
    requires ids != [] && AllowsMore(m, keysByOp, ids[..|ids| - 1], keys)
    requires id in AddAllowed(m, ids[|ids| - 1], keys)
    ensures AllowsMoreFor(AddAllowed(m, ids[|ids| - 1], keys)[id], keysByOp, ids, keys, id)
  {
    var n := |ids| - 1;
    var before := ids[..n];
    assert id in ids <==> id in before || id == ids[n];
    assert id in m || id == ids[n];
    assert id in m <==> id in keysByOp || id in before by {
      assert id in m.Keys <==> id in keysByOp.Keys || id in Elements(before);
    }
    hide Distinct, AddAllowed, Elements;
    if id in m {
      assert AllowsMoreFor(m[id], keysByOp, before, keys, id);
    }
    AddAllowedAt(m, ids[n], keys, id);
  }

  lemma AddAllowedAt(m: map<OpId, seq<Key>>, added: OpId, keys: seq<Key>, id: OpId)
    requires id in m ==> Distinct(m[id])
    requires id in m || id == added
    ensures var m' := AddAllowed(m, added, keys);
      && id in m' && Distinct(m'[id])
      && forall k :: k in m'[id] <==> (id in m && k in m[id]) || (id == added && k in keys)
  {
    var none: seq<Key> := [];
    assert Distinct(none);
    hide Distinct, InsertAll;
  }

  lemma {:induction false} AwaitQueryAsks(options: PollOptions, groups: seq<CandidateGroup>)
    requires AwaitableGroups(groups)
    ensures AsksForGroups(AwaitQuery(options, groups), groups)
  {
    if groups == [] {
      AsksForNothing(options);
    } else {
      hide AsksForGroups, AddCandidate, AwaitableGroups;
      var n := |groups| - 1;
      FewerAwaitable(groups);
      AwaitQueryAsks(options, groups[..n]);
      AddCandidateAsks(AwaitQuery(options, groups[..n]), groups[..n], groups[n]);
    }
  }

  lemma FewerAwaitable(groups: seq<CandidateGroup>)
    requires AwaitableGroups(groups) && groups != []
    ensures AwaitableGroups(groups[..|groups| - 1])
    ensures groups == groups[..|groups| - 1] + [groups[|groups| - 1]]
  {
    hide Awaitable;
  }

  lemma AsksForNothing(options: PollOptions)
    ensures AsksForGroups(AwaitQuery(options, []), [])
  {
  }

  lemma AddCandidateAsks(q: PollQuery, groups: seq<CandidateGroup>, g: CandidateGroup)
    requires AsksForGroups(q, groups) && AwaitableGroups(groups + [g])
    ensures AsksForGroups(AddCandidate(q, g), groups + [g])
  {
    AddCandidateSets(q, groups, g);
    AddCandidateAllows(q, groups, g);
    AddCandidateLists(q, groups, g);
    hide AwaitableGroups, Requested, Listed, Allowed, Distinct, AddCandidate;
  }

  lemma AddCandidateSets(q: PollQuery, groups: seq<CandidateGroup>, g: CandidateGroup)
    requires AsksForGroups(q, groups)
    ensures
      var q' := AddCandidate(q, g);
      && Distinct(q'.keys) && Distinct(q'.ids)
      && (forall k :: k in q'.keys <==> Requested(groups + [g], k))
      && (forall id :: id in q'.ids <==> Listed(groups + [g], id))
  {
    InMore(groups, g);
    hide Requested, Listed, Allowed, Distinct, AddAllAllowed;
  }

  lemma AddCandidateAllows(q: PollQuery, groups: seq<CandidateGroup>, g: CandidateGroup)
    requires AsksForGroups(q, groups)
    ensures
      var q' := AddCandidate(q, g);
      && q'.keysByOp.Keys == Elements(q'.ids)
      && (forall id :: id in q'.keysByOp ==> Distinct(q'.keysByOp[id]))
      && (forall id, k :: id in q'.keysByOp ==> (k in q'.keysByOp[id] <==> Allowed(groups + [g], id, k)))
  {
    AddAllAllowedIs(q.keysByOp, g.ops, g.keys);
    var q' := AddCandidate(q, g);
    assert q'.ids == InsertAll(q.ids, g.ops) && q'.keysByOp == AddAllAllowed(q.keysByOp, g.ops, g.keys);
    assert Elements(q'.ids) == Elements(q.ids) + Elements(g.ops);
    hide *;
    AllowsMoreKeys(q, groups, g, q'.keysByOp);
    forall id, k | id in q'.keysByOp ensures k in q'.keysByOp[id] <==> Allowed(groups + [g], id, k) {
      AllowedAt(q, groups, g, q'.keysByOp, id, k);
    }
  }

  lemma AllowsMoreKeys(q: PollQuery, groups: seq<CandidateGroup>, g: CandidateGroup, m: map<OpId, seq<Key>>)
    requires AsksForGroups(q, groups) && AllowsMore(m, q.keysByOp, g.ops, g.keys)
    ensures m.Keys == Elements(q.ids) + Elements(g.ops)
    ensures forall id :: id in m ==> Distinct(m[id])
  {
    hide Requested, Listed, Allowed, Distinct;
  }

  lemma AllowedAt(
    q: PollQuery, groups: seq<CandidateGroup>, g: CandidateGroup, m: map<OpId, seq<Key>>, id: OpId, k: Key)
    requires AsksForGroups(q, groups) && AllowsMore(m, q.keysByOp, g.ops, g.keys) && id in m
    ensures k in m[id] <==> Allowed(groups + [g], id, k)
  {
    AllowedMore(groups, g, id, k);
    NotListedNotAllowed(groups, id, k);
    assert AllowsMoreFor(m[id], q.keysByOp, g.ops, g.keys, id);
    hide Requested, Listed, Allowed, Distinct;
    if id in q.keysByOp {
      assert k in q.keysByOp[id] <==> Allowed(groups, id, k);
    } else {
      assert id !in Elements(q.ids) && id !in q.ids;
    }
  }

  lemma AllowedMore(groups: seq<CandidateGroup>, g: CandidateGroup, id: OpId, k: Key)
    ensures Allowed(groups + [g], id, k) <==> Allowed(groups, id, k) || (id in g.ops && k in g.keys)
  {
    InMore(groups, g);
  }

  lemma AddCandidateLists(q: PollQuery, groups: seq<CandidateGroup>, g: CandidateGroup)
    requires AsksForGroups(q, groups) && AwaitableGroups(groups + [g])
    ensures
      var q' := AddCandidate(q, g);
      && q'.opsByKey.Keys == Elements(q'.keys)
      && (forall a :: a in groups + [g] ==> a.key in q'.opsByKey && q'.opsByKey[a.key] == a.ops)
  {
    KeyIsNew(groups, g);
    hide AwaitableGroups, Requested, Listed, Allowed, Distinct, AddAllAllowed, InsertAll;
    assert forall a :: a in groups + [g] <==> a in groups || a == g;
  }

  lemma NotListedNotAllowed(groups: seq<CandidateGroup>, id: OpId, k: Key)
    ensures Allowed(groups, id, k) ==> Listed(groups, id)
  {
  }

  lemma KeyIsNew(groups: seq<CandidateGroup>, g: CandidateGroup)
    requires AwaitableGroups(groups + [g])
    ensures forall a :: a in groups ==> a.key != g.key
  {
    var groups' := groups + [g];
    forall a | a in groups ensures a.key != g.key {
      var i :| 0 <= i < |groups| && groups[i] == a;
      assert groups'[i] == a && groups'[|groups|] == g;
    }
  }

  lemma InMore(groups: seq<CandidateGroup>, g: CandidateGroup)
    ensures forall k :: Requested(groups + [g], k) <==> Requested(groups, k) || k == g.key
    ensures forall id :: Listed(groups + [g], id) <==> Listed(groups, id) || id in g.ops
    ensures forall id, k :: Allowed(groups + [g], id, k) <==> Allowed(groups, id, k) || (id in g.ops && k in g.keys)
  {
    var groups' := groups + [g];
    assert forall a :: a in groups' <==> a in groups || a == g;
    forall k ensures Requested(groups', k) <==> Requested(groups, k) || k == g.key {
      if k == g.key {
        assert g in groups';
      }
    }
    forall id ensures Listed(groups', id) <==> Listed(groups, id) || id in g.ops {
      if id in g.ops {
        assert g in groups';
      }
    }
    forall id, k ensures Allowed(groups', id, k) <==> Allowed(groups, id, k) || (id in g.ops && k in g.keys) {
      if id in g.ops && k in g.keys {
        assert g in groups';
      }
    }
  }

  /** The checks on one candidate. */
  method ValidateCandidate(g: CandidateGroup) returns (r: Option<ContractError>)
    ensures r.None? <==> Awaitable(g)
    ensures r.Some? ==> !r.value.Uncovered?
  {
    if g.key.blank {
      return Some(BlankKey);
    }
    if |g.ops| == 0 {
      return Some(NoOperationIds);
    }
    var keys: set<Key> := set k | k in g.keys;
    if g.key !in keys {
      return Some(GroupLacksKey(g.key));
    }
    if exists k :: k in keys && k.blank {
      return Some(BlankKey);
    }
    SetSizeDecidesDistinct(g.keys);
    assert keys == Elements(g.keys);
    if |keys| != |g.keys| {
      return Some(DuplicateGroupKey(g.key));
    }
    var seen: set<OpId> := {};
    var i := 0;
    while i < |g.ops|
      invariant 0 <= i <= |g.ops|
      invariant seen == Elements(g.ops[..i])
      invariant Distinct(g.ops[..i]) && forall id :: id in g.ops[..i] ==> !id.blank
    {
      var id := g.ops[i];
      assert g.ops[..i + 1] == g.ops[..i] + [id];
      if id.blank {
        assert id in g.ops;
        return Some(BlankOperationId);
      }
      if id in seen {
        assert id in g.ops[..i];
        return Some(DuplicateOperationId(id));
      }
      seen := seen + {id};
      i := i + 1;
    }
    assert g.ops[..i] == g.ops;
    return None;
  }

  lemma {:induction false} SetSizeDecidesDistinct<T>(s: seq<T>)
    ensures |Elements(s)| == |s| <==> Distinct(s)
    ensures |Elements(s)| <= |s|
  {
    if s != [] {
      var n := |s| - 1;
      SetSizeDecidesDistinct(s[..n]);
      assert s == s[..n] + [s[n]];
      DistinctOneMore(s[..n], s[n]);
    }
  }

  lemma DistinctOneMore<T>(s: seq<T>, x: T)
    ensures Distinct(s + [x]) <==> Distinct(s) && x !in s
    ensures |Elements(s + [x])| == |Elements(s)| + if x in s then 0 else 1
  {
    ElementsOneMore(s, x);
    hide Elements;
    var t := s + [x];
    if Distinct(t) {
      assert forall i :: 0 <= i < |s| ==> t[i] == s[i] && t[i] != t[|s|];
    }
    if Distinct(s) && x !in s {
      DistinctConcat(s, [x]);
    }
  }

  lemma ElementsOneMore<T>(s: seq<T>, x: T)
    ensures |Elements(s + [x])| == |Elements(s)| + if x in s then 0 else 1
  {
    assert Elements(s + [x]) == Elements(s) + {x};
    assert x in s <==> x in Elements(s);
  }

  method ValidateAwaitInput(options: PollOptions, candidates: seq<Candidate>)
    returns (r: Result<PollQuery, ContractError>)
    ensures r.Ok? <==> ValidAwaitInput(options, Groups(candidates))
    ensures r.Ok? ==> r.value == AwaitQuery(options, Groups(candidates))
    ensures r.Ok? ==> AsksForGroups(r.value, Groups(candidates))
    ensures r.Err? ==> !r.error.Uncovered?
  {
    ghost var groups := Groups(candidates);
    if |candidates| == 0 {
      return Err(EmptyInput);
    }
    var q := PollQuery(options.container, options.Interval(), options.Timeout(), [], [], map[], map[]);
    var i := 0;
    assert AwaitQuery(options, groups[..0]) == q;
    assert AwaitableGroups(groups[..0]) && AsksForGroups(q, groups[..0]);
    hide AwaitableGroups, Awaitable, AsksForGroups, Normalize, AwaitQuery, AddCandidate;
    while i < |candidates|
      invariant 0 <= i <= |candidates|
      invariant q == AwaitQuery(options, groups[..i])
      invariant AwaitableGroups(groups[..i])
    {
      var g := Normalize(candidates[i]);
      var bad := ValidateCandidate(g);
      if bad.Some? {
        BadCandidate(groups, i);
        return Err(bad.value);
      }
      KeyIsRequested(options, groups, i);
      if g.key in q.keys {
        return Err(DuplicateKey(g.key));
      }
      q := AddCandidate(q, g);
      i := i + 1;
    }
    assert groups[..i] == groups;
    AwaitQueryAsks(options, groups);
    var poll := ValidatePollOptions(options);
    if poll.Some? {
      return Err(poll.value);
    }
    return Ok(q);
  }

  lemma BadCandidate(groups: seq<CandidateGroup>, i: nat)
    requires i < |groups| && !Awaitable(groups[i])
    ensures !AwaitableGroups(groups)
  {
  }

  lemma AsksForKeys(options: PollOptions, groups: seq<CandidateGroup>, k: Key)
    requires AwaitableGroups(groups)
    ensures k in AwaitQuery(options, groups).keys <==> Requested(groups, k)
  {
    hide Requested, Listed, Allowed, AwaitableGroups, AwaitQuery, Distinct;
    AwaitQueryAsks(options, groups);
  }

  /** The next key has been seen before exactly when the request already asks for it. */
  lemma KeyIsRequested(options: PollOptions, groups: seq<CandidateGroup>, i: nat)
    requires i < |groups| && Awaitable(groups[i]) && AwaitableGroups(groups[..i])
    ensures groups[i].key in AwaitQuery(options, groups[..i]).keys ==> !AwaitableGroups(groups)
    ensures groups[i].key !in AwaitQuery(options, groups[..i]).keys ==> AwaitableGroups(groups[..i + 1])
    ensures AwaitQuery(options, groups[..i + 1]) == AddCandidate(AwaitQuery(options, groups[..i]), groups[i])
  {
    hide Awaitable, AddCandidate;
    AsksForKeys(options, groups[..i], groups[i].key);
    assert groups[..i + 1] == groups[..i] + [groups[i]] && groups[..i + 1][..i] == groups[..i];
    if Requested(groups[..i], groups[i].key) {
      var a :| a in groups[..i] && a.key == groups[i].key;
    } else {
      NewKey(groups[..i], groups[i]);
    }
  }

  lemma NewKey(groups: seq<CandidateGroup>, g: CandidateGroup)
    requires AwaitableGroups(groups) && Awaitable(g) && !Requested(groups, g.key)
    ensures AwaitableGroups(groups + [g])
  {
    var all := groups + [g];
    forall i, j | 0 <= i < j < |all| ensures all[i].key != all[j].key {
      assert all[i] == groups[i];
      assert groups[i] in groups;
    }
  }

  method AwaitOperations(options: PollOptions, candidates: seq<Candidate>, poll: Poll, clock: nat -> real)
    returns (r: Result<map<Key, Outcome>, ContractError>, ghost rounds: nat)
    requires ClockAdvances(options.Interval(), options.Timeout(), clock)
    ensures !ValidAwaitInput(options, Groups(candidates)) ==> r.Err? && rounds == 0
    ensures ValidAwaitInput(options, Groups(candidates)) ==>
      && 1 <= rounds <= RoundBound(AwaitQuery(options, Groups(candidates)))
      && PollEnds(AwaitQuery(options, Groups(candidates)), poll, clock, rounds, r)
    ensures r.Ok? ==> forall k :: k in r.value <==> Requested(Groups(candidates), k)
  {
    rounds := 0;
    var q := ValidateAwaitInput(options, candidates);
    if q.Err? {
      return Err(q.error), 0;
    }
    AwaitQueryAsks(options, Groups(candidates));
    r, rounds := PollOperations(q.value, poll, clock);
  }
}
