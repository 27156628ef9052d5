/** Splitting one import batch into provider requests. */
module Chunking {
  import opened Basics

  /** A Product Draft: its key and the bytes its JSON text takes. */
  datatype Resource = Resource(key: Name, bytes: nat)

  const RESOURCE_LIMIT: nat := 20

  /** Bytes of the request body around the resource array. */
  const ENVELOPE_BYTES: nat := 39

  function SumBytes(resources: seq<Resource>): nat {
    if resources == [] then 0 else SumBytes(resources[..|resources| - 1]) + resources[|resources| - 1].bytes
  }

  function RequestBodyBytes(resources: seq<Resource>): nat {
    ENVELOPE_BYTES + SumBytes(resources) + if |resources| > 1 then |resources| - 1 else 0
  }

  predicate Fits(chunk: seq<Resource>, maxBytes: int) {
    |chunk| <= RESOURCE_LIMIT && RequestBodyBytes(chunk) <= maxBytes
  }

  function Flatten<T>(chunks: seq<seq<T>>): seq<T> {
    if chunks == [] then [] else Flatten(chunks[..|chunks| - 1]) + chunks[|chunks| - 1]
  }

  /** An order-preserving split of the resources into requests the provider takes. */
  ghost predicate IsSplit(chunks: seq<seq<Resource>>, resources: seq<Resource>, maxBytes: int) {
    && Flatten(chunks) == resources
    && forall i :: 0 <= i < |chunks| ==> chunks[i] != [] && Fits(chunks[i], maxBytes)
  }

  /** No chunk could have taken the first resource of the next one. */
  ghost predicate Greedy(chunks: seq<seq<Resource>>, maxBytes: int) {
    && (forall i :: 0 <= i < |chunks| ==> chunks[i] != [])
    && forall i :: 0 <= i < |chunks| - 1 ==> !Fits(chunks[i] + [chunks[i + 1][0]], maxBytes)
  }

  /** The split a greedy pass makes; there is only one. */
  ghost predicate IsGreedySplit(chunks: seq<seq<Resource>>, resources: seq<Resource>, maxBytes: int) {
    IsSplit(chunks, resources, maxBytes) && Greedy(chunks, maxBytes)
  }

  ghost predicate SomeResourceTooLarge(resources: seq<Resource>, maxBytes: int) {
    exists i :: 0 <= i < |resources| && RequestBodyBytes([resources[i]]) > maxBytes
  }

  /** The first `i` resources: chunks that are closed, and the one being filled. */
  ghost predicate Filled(
    resources: seq<Resource>, maxBytes: int, i: nat, chunks: seq<seq<Resource>>, current: seq<Resource>)
  {
    && i <= |resources| && Flatten(chunks) + current == resources[..i]
    && (current == [] ==> i == 0 && chunks == [])
    && (current != [] ==> Fits(current, maxBytes) && Greedy(chunks + [current], maxBytes))
    && (forall j :: 0 <= j < |chunks| ==> chunks[j] != [] && Fits(chunks[j], maxBytes))
    && (forall j :: 0 <= j < i ==> RequestBodyBytes([resources[j]]) <= maxBytes)
  }

  lemma NothingFilled(resources: seq<Resource>, maxBytes: int)
    ensures Filled(resources, maxBytes, 0, [], [])
  {
  }

  lemma FillMore(resources: seq<Resource>, maxBytes: int, i: nat, chunks: seq<seq<Resource>>, current: seq<Resource>)
    requires Filled(resources, maxBytes, i, chunks, current) && i < |resources|
    requires Fits(current + [resources[i]], maxBytes)
    ensures Filled(resources, maxBytes, i + 1, chunks, current + [resources[i]])
  {
    LastAloneFits(current, resources[i], maxBytes);
    GreedyGrow(chunks, current, resources[i], maxBytes);
    hide Greedy, Flatten, Fits, RequestBodyBytes;
    assert resources[..i + 1] == resources[..i] + [resources[i]];
  }

  lemma OpenNext(resources: seq<Resource>, maxBytes: int, i: nat, chunks: seq<seq<Resource>>, current: seq<Resource>)
    requires Filled(resources, maxBytes, i, chunks, current) && i < |resources| && current != []
    requires !Fits(current + [resources[i]], maxBytes) && RequestBodyBytes([resources[i]]) <= maxBytes
    ensures Filled(resources, maxBytes, i + 1, chunks + [current], [resources[i]])
  {
    GreedyStep(chunks, current, resources[i], maxBytes);
    assert (chunks + [current])[..|chunks|] == chunks;
    assert Fits([resources[i]], maxBytes);
    hide Greedy, Fits, RequestBodyBytes;
    assert resources[..i + 1] == resources[..i] + [resources[i]];
  }

  lemma AllFilled(resources: seq<Resource>, maxBytes: int, chunks: seq<seq<Resource>>, current: seq<Resource>)
    requires Filled(resources, maxBytes, |resources|, chunks, current)
    ensures var closed := if current == [] then chunks else chunks + [current];
      && IsGreedySplit(closed, resources, maxBytes) && !SomeResourceTooLarge(resources, maxBytes)
      && forall other :: IsSplit(other, resources, maxBytes) ==> |closed| <= |other|
  {
    hide *;
    ClosedIsSplit(resources, maxBytes, chunks, current);
    ClosedIsGreedy(resources, maxBytes, chunks, current);
    var closed := if current == [] then chunks else chunks + [current];
    GreedySplitIf(closed, resources, maxBytes);
    forall other | IsSplit(other, resources, maxBytes) ensures |closed| <= |other| {
      GreedySplitIsLeast(closed, other, resources, maxBytes);
    }
  }

  lemma ClosedIsSplit(resources: seq<Resource>, maxBytes: int, chunks: seq<seq<Resource>>, current: seq<Resource>)
    requires Filled(resources, maxBytes, |resources|, chunks, current)
    ensures IsSplit(if current == [] then chunks else chunks + [current], resources, maxBytes)
    ensures !SomeResourceTooLarge(resources, maxBytes)
  {
    hide Fits, Greedy, RequestBodyBytes;
    assert resources[..|resources|] == resources;
    assert (chunks + [current])[..|chunks|] == chunks;
  }

  lemma ClosedIsGreedy(resources: seq<Resource>, maxBytes: int, chunks: seq<seq<Resource>>, current: seq<Resource>)
    requires Filled(resources, maxBytes, |resources|, chunks, current)
    ensures Greedy(if current == [] then chunks else chunks + [current], maxBytes)
  {
    hide Fits, RequestBodyBytes, Flatten;
  }

  lemma GreedySplitIf(chunks: seq<seq<Resource>>, resources: seq<Resource>, maxBytes: int)
    requires IsSplit(chunks, resources, maxBytes) && Greedy(chunks, maxBytes)
    ensures IsGreedySplit(chunks, resources, maxBytes)
  {
  }

  lemma GreedySplitIsLeast(
    chunks: seq<seq<Resource>>, other: seq<seq<Resource>>, resources: seq<Resource>, maxBytes: int)
    requires IsGreedySplit(chunks, resources, maxBytes) && IsSplit(other, resources, maxBytes)
    ensures |chunks| <= |other|
  {
    hide Fits, Greedy;
    GreedyIsLeast(chunks, other, resources, maxBytes);
  }

  lemma TooLarge(resources: seq<Resource>, maxBytes: int, i: nat)
    requires i < |resources| && RequestBodyBytes([resources[i]]) > maxBytes
    ensures SomeResourceTooLarge(resources, maxBytes) && resources[i] in resources
  {
  }

  lemma AloneTooLarge(resource: Resource, maxBytes: int)
    requires !Fits([] + [resource], maxBytes)
    ensures RequestBodyBytes([resource]) > maxBytes
  {
    assert [] + [resource] == [resource];
  }

  method ChunkResources(resources: seq<Resource>, maxBytes: int)
    returns (r: Result<seq<seq<Resource>>, Resource>)
    ensures r.Err? <==> SomeResourceTooLarge(resources, maxBytes)
    ensures r.Err? ==> r.error in resources && RequestBodyBytes([r.error]) > maxBytes
    ensures r.Ok? ==> IsGreedySplit(r.value, resources, maxBytes)
    ensures r.Ok? ==> forall other :: IsSplit(other, resources, maxBytes) ==> |r.value| <= |other|
  {
    hide *;
    var chunks: seq<seq<Resource>> := [];
    var current: seq<Resource> := [];
    var i := 0;
    NothingFilled(resources, maxBytes);
    while i < |resources|
      invariant 0 <= i <= |resources| && Filled(resources, maxBytes, i, chunks, current)
    {
      var resource := resources[i];
      var candidate := current + [resource];
      if !Fits(candidate, maxBytes) {
        if current == [] {
          AloneTooLarge(resource, maxBytes);
          TooLarge(resources, maxBytes, i);
          return Err(resource);
        }
        if RequestBodyBytes([resource]) > maxBytes {
          TooLarge(resources, maxBytes, i);
          return Err(resource);
        }
        OpenNext(resources, maxBytes, i, chunks, current);
        chunks := chunks + [current];
        current := [resource];
      } else {
        FillMore(resources, maxBytes, i, chunks, current);
        current := candidate;
      }
      i := i + 1;
    }
    AllFilled(resources, maxBytes, chunks, current);
    if current != [] {
      chunks := chunks + [current];
    }
    r := Ok(chunks);
  }

  lemma GreedyStep(chunks: seq<seq<Resource>>, current: seq<Resource>, next: Resource, maxBytes: int)
    requires current != [] && Greedy(chunks + [current], maxBytes)
    requires !Fits(current + [next], maxBytes)
    ensures Greedy(chunks + [current] + [[next]], maxBytes)
  {
    var old' := chunks + [current];
    var new' := old' + [[next]];
    forall i | 0 <= i < |new'| - 1 ensures !Fits(new'[i] + [new'[i + 1][0]], maxBytes) {
      if i < |old'| - 1 {
        assert new'[i] == old'[i] && new'[i + 1] == old'[i + 1];
      }
    }
  }

  lemma GreedyGrow(chunks: seq<seq<Resource>>, current: seq<Resource>, next: Resource, maxBytes: int)
    requires current == [] ==> chunks == []
    requires current != [] ==> Greedy(chunks + [current], maxBytes)
    ensures Greedy(chunks + [current + [next]], maxBytes)
  {
    if current != [] {
      var old' := chunks + [current];
      var new' := chunks + [current + [next]];
      assert forall i :: 0 <= i < |chunks| ==> new'[i] == old'[i];
      forall i | 0 <= i < |new'| - 1 ensures !Fits(new'[i] + [new'[i + 1][0]], maxBytes) {
        assert old'[i] != [] && old'[i + 1] != [];
        assert new'[i] == old'[i] && new'[i + 1][0] == old'[i + 1][0];
      }
    }
  }

  lemma {:induction false} SumBytesSplit(a: seq<Resource>, b: seq<Resource>)
    ensures SumBytes(a + b) == SumBytes(a) + SumBytes(b)
  {
    if b == [] {
      assert a + b == a;
    } else {
      var n := |b| - 1;
      SumBytesSplit(a, b[..n]);
      assert (a + b)[..|a + b| - 1] == a + b[..n];
    }
  }

  /** A non-empty part of a request that fits is a request that fits. */
  lemma SliceFits(rs: seq<Resource>, a: nat, a': nat, b': nat, b: nat, maxBytes: int)
    requires a <= a' < b' <= b <= |rs|
    ensures Fits(rs[a..b], maxBytes) ==> Fits(rs[a'..b'], maxBytes)
  {
    assert rs[a..b'] == rs[a..a'] + rs[a'..b'];
    assert rs[a..b] == rs[a..b'] + rs[b'..b];
    SumBytesSplit(rs[a..b'], rs[b'..b]);
    SumBytesSplit(rs[a..a'], rs[a'..b']);
  }

  lemma LastAloneFits(current: seq<Resource>, last: Resource, maxBytes: int)
    ensures Fits(current + [last], maxBytes) ==> RequestBodyBytes([last]) <= maxBytes
  {
    var all, n := current + [last], |current|;
    SliceFits(all, 0, n, n + 1, n + 1, maxBytes);
    assert all[0..n + 1] == all && all[n..n + 1] == [last];
  }

  lemma {:induction false} FlattenSlice<T>(chunks: seq<seq<T>>, j: nat)
    requires j < |chunks|
    ensures |Flatten(chunks[..j])| + |chunks[j]| == |Flatten(chunks[..j + 1])| <= |Flatten(chunks)|
    ensures Flatten(chunks)[|Flatten(chunks[..j])|..|Flatten(chunks[..j + 1])|] == chunks[j]
    decreases |chunks|
  {
    var n := |chunks| - 1;
    assert chunks[..j + 1][..j] == chunks[..j];
    if j == n {
      assert chunks[..j + 1] == chunks;
    } else {
      FlattenSlice(chunks[..n], j);
      assert chunks[..n][..j] == chunks[..j] && chunks[..n][..j + 1] == chunks[..j + 1];
    }
  }

  /** A request that starts no later and ends later than a greedy one does not fit. */
  lemma OverreachDoesNotFit(rs: seq<Resource>, oa: nat, ga: nat, gb: nat, ob: nat, maxBytes: int)
    requires oa <= ga <= gb < ob <= |rs|
    requires !Fits(rs[ga..gb] + [rs[gb]], maxBytes)
    ensures !Fits(rs[oa..ob], maxBytes)
  {
    assert rs[ga..gb] + [rs[gb]] == rs[ga..gb + 1];
    SliceFits(rs, oa, ga, gb + 1, ob, maxBytes);
  }

  /** After every chunk the greedy split has consumed at least as much as any other split. */
  lemma {:induction false} GreedyStaysAhead(
    greedy: seq<seq<Resource>>, other: seq<seq<Resource>>, rs: seq<Resource>, maxBytes: int, j: nat)
    requires Flatten(greedy) == rs && Greedy(greedy, maxBytes)
    requires IsSplit(other, rs, maxBytes)
    requires j <= |other| && j < |greedy|
    ensures |Flatten(other[..j])| <= |Flatten(greedy[..j])|
  {
    if j > 0 {
      var i := j - 1;
      GreedyStaysAhead(greedy, other, rs, maxBytes, i);
      FlattenSlice(greedy, i);
      FlattenSlice(greedy, j);
      FlattenSlice(other, i);
      var ga, gb := |Flatten(greedy[..i])|, |Flatten(greedy[..j])|;
      var oa, ob := |Flatten(other[..i])|, |Flatten(other[..j])|;
      var gc := |Flatten(greedy[..j + 1])|;
      assert rs[gb] == rs[gb..gc][0] == greedy[j][0];
      assert !Fits(greedy[i] + [greedy[i + 1][0]], maxBytes);
      if ob > gb {
        OverreachDoesNotFit(rs, oa, ga, gb, ob, maxBytes);
        assert false;
      }
    }
  }

  lemma GreedyIsLeast(
    greedy: seq<seq<Resource>>, other: seq<seq<Resource>>, rs: seq<Resource>, maxBytes: int)
    requires Flatten(greedy) == rs && Greedy(greedy, maxBytes)
    requires IsSplit(other, rs, maxBytes)
    ensures |greedy| <= |other|
  {
    if |other| < |greedy| {
      var n := |other|;
      GreedyStaysAhead(greedy, other, rs, maxBytes, n);
      assert other[..n] == other;
      FlattenSlice(greedy, n);
      assert false;
    }
  }

  /** So the greedy split is determined by the resources and the limit. */
  lemma GreedySplitIsUnique(
    a: seq<seq<Resource>>, b: seq<seq<Resource>>, rs: seq<Resource>, maxBytes: int)
    requires IsGreedySplit(a, rs, maxBytes) && IsGreedySplit(b, rs, maxBytes)
    ensures a == b
  {
    GreedyIsLeast(a, b, rs, maxBytes);
    GreedyIsLeast(b, a, rs, maxBytes);
    forall j | 0 <= j < |a| ensures a[j] == b[j] {
      SameReach(a, b, rs, maxBytes, j);
      SameReach(a, b, rs, maxBytes, j + 1);
      FlattenSlice(a, j);
      FlattenSlice(b, j);
    }
  }

  lemma SameReach(a: seq<seq<Resource>>, b: seq<seq<Resource>>, rs: seq<Resource>, maxBytes: int, j: nat)
    requires IsGreedySplit(a, rs, maxBytes) && IsGreedySplit(b, rs, maxBytes) && j <= |a| == |b|
    ensures |Flatten(a[..j])| == |Flatten(b[..j])|
  {
    if j == |a| {
      assert a[..j] == a && b[..j] == b;
    } else {
      GreedyStaysAhead(a, b, rs, maxBytes, j);
      GreedyStaysAhead(b, a, rs, maxBytes, j);
    }
  }

  /** Unless some resource alone is too large there is one. */
  lemma SomeGreedySplit(resources: seq<Resource>, maxBytes: int) returns (chunks: seq<seq<Resource>>)
    requires !SomeResourceTooLarge(resources, maxBytes)
    ensures IsGreedySplit(chunks, resources, maxBytes)
  {
    hide Filled, Greedy, IsSplit, Fits, SumBytes;
    var closed, current := SomeFilled(resources, maxBytes, |resources|);
    AllFilled(resources, maxBytes, closed, current);
    chunks := if current == [] then closed else closed + [current];
  }

  lemma {:induction false} SomeFilled(resources: seq<Resource>, maxBytes: int, i: nat)
    returns (chunks: seq<seq<Resource>>, current: seq<Resource>)
    requires !SomeResourceTooLarge(resources, maxBytes) && i <= |resources|
    ensures Filled(resources, maxBytes, i, chunks, current)
  {
    hide Filled, Greedy, IsSplit, Fits;
    if i == 0 {
      NothingFilled(resources, maxBytes);
      chunks, current := [], [];
    } else {
      chunks, current := SomeFilled(resources, maxBytes, i - 1);
      var resource := resources[i - 1];
      if Fits(current + [resource], maxBytes) {
        FillMore(resources, maxBytes, i - 1, chunks, current);
        current := current + [resource];
      } else {
        assert RequestBodyBytes([resource]) <= maxBytes;
        if current == [] {
          AloneTooLarge(resource, maxBytes);
          assert false;
        }
        OpenNext(resources, maxBytes, i - 1, chunks, current);
        chunks, current := chunks + [current], [resource];
      }
    }
  }
}
