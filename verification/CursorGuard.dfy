/** Listing cursors that are never followed in a circle, whatever the listing answers. */
module CursorGuard {
  import opened Basics

  type Cursor = Name

  /** Where a page was read from: the start of the listing, or a cursor. */
  type Place = Option<Cursor>

  /** For each place read since the last start, the cursor its page returned; None when it was the last page. */
  type Traversed = map<Place, Option<Cursor>>

  datatype ReadError = ListFailed | RepeatedCursor | InvalidObject

  // ---------- The graph of traversed places ----------

  /** Consecutive places of the path follow a recorded next cursor. */
  ghost predicate Path(t: Traversed, path: seq<Place>) {
    forall i :: 0 <= i < |path| - 1 ==> Follows(t, path[i], path[i + 1])
  }

  predicate Follows(t: Traversed, from: Place, to: Place) {
    from in t && to.Some? && t[from] == to
  }

  ghost predicate Acyclic(t: Traversed) {
    forall path :: Path(t, path) && |path| >= 2 ==> path[0] != path[|path| - 1]
  }

  // ---------- One read ----------

  predicate Repeats(t: Traversed, place: Place, next: Option<Cursor>) {
    next.Some? && (next == place || (next in t && !(place in t && t[place] == next)))
  }

  function Cleared(t: Traversed, place: Place): Traversed {
    if place.None? then map[] else t
  }

  /** What a read leaves recorded, given the listing's answer. */
  function AfterRead(t: Traversed, place: Place, listing: Result<Option<Cursor>, ReadError>): Traversed {
    var cleared := Cleared(t, place);
    if listing.Err? || Repeats(cleared, place, listing.value) then cleared
    else cleared[place := listing.value]
  }

  class Discovery {
    var traversed: Traversed

    constructor ()
      ensures traversed == map[] && Acyclic(traversed)
    {
      traversed := map[];
      new;
      NothingTraversed();
    }

    /**
     * `objectsDecode`: whether the objects of the page have valid metadata. A cursor is repeated when
     * it is the place itself, or a place read since the last start unless this very read returned it.
     */
    method Read(place: Place, listing: Result<Option<Cursor>, ReadError>, objectsDecode: bool)
      returns (r: Result<Option<Cursor>, ReadError>)
      requires Acyclic(traversed)
      modifies this
      ensures Acyclic(traversed) && traversed == AfterRead(old(traversed), place, listing)
      ensures r.Ok? ==> listing == Ok(r.value) && place in traversed && traversed[place] == r.value
      ensures r.Err? <==> listing.Err? || Repeats(Cleared(old(traversed), place), place, listing.value) || !objectsDecode
      ensures var before := if place.None? then map[] else old(traversed);
        var repeated := listing.Ok? && listing.value.Some? && (listing.value == place
          || (listing.value in before && !(place in before && before[place] == listing.value)));
        && traversed == (if listing.Err? || repeated then before else before[place := listing.value])
        && (r.Err? ==> r.error == if listing.Err? then ListFailed else if repeated then RepeatedCursor else InvalidObject)
        && (listing.Ok? && repeated ==> r.Err?)
    {
      ReadKeepsAcyclic(traversed, place, listing);
      if place.None? {
        traversed := map[];
      }
      if listing.Err? {
        return Err(ListFailed);
      }
      var next := listing.value;
      if next.Some? && (next == place || (next in traversed && !(place in traversed && traversed[place] == next))) {
        return Err(RepeatedCursor);
      }
      traversed := traversed[place := next];
      if !objectsDecode {
        return Err(InvalidObject);
      }
      r := Ok(next);
    }
  }

  lemma NothingTraversed()
    ensures Acyclic(map[])
  {
    forall path: seq<Place> ensures Path(map[], path) ==> |path| < 2 {
      if |path| >= 2 {
        assert !Follows(map[], path[0], path[1]);
      }
    }
  }

  /** No read, first or repeated, from the start or from a saved cursor, makes a circle. */
  lemma ReadKeepsAcyclic(t: Traversed, place: Place, listing: Result<Option<Cursor>, ReadError>)
    requires Acyclic(t)
    ensures Acyclic(AfterRead(t, place, listing))
  {
    var t' := AfterRead(t, place, listing);
    forall path | Path(t', path) && |path| >= 2 ensures path[0] != path[|path| - 1] {
      NoCircle(t, place, listing, path);
    }
  }

  /** A new edge leads to a place with no edge of its own, so no circle can use it. */
  lemma NoCircle(t: Traversed, place: Place, listing: Result<Option<Cursor>, ReadError>, path: seq<Place>)
    requires Acyclic(t) && Path(AfterRead(t, place, listing), path) && |path| >= 2
    ensures path[0] != path[|path| - 1]
  {
    var t' := AfterRead(t, place, listing);
    if i :| 0 <= i < |path| - 1 && !Follows(t, path[i], path[i + 1]) {
      assert Follows(t', path[i], path[i + 1]) && path[i + 1] !in t';
      assert i + 1 < |path| - 1 ==> Follows(t', path[i + 1], path[i + 2]);
      assert Follows(t', path[0], path[1]);
    } else {
      assert Path(t, path);
    }
  }

  // ---------- Following returned cursors ----------

  /** One read by a consumer at the last place of its chain; it may go on to the cursor returned. */
  datatype Visit = Visit(listing: Result<Option<Cursor>, ReadError>, advances: bool)

  /** A consumer that starts somewhere and only reads its last place or the cursor that returned. */
  ghost predicate Chains(t: Traversed, chain: seq<Place>) {
    chain != [] && Acyclic(t) && Path(t, chain) && (forall i :: 0 < i < |chain| ==> chain[i].Some?)
  }

  ghost predicate Advances(t: Traversed, chain: seq<Place>, visit: Visit)
    requires chain != []
  {
    var last := chain[|chain| - 1];
    visit.advances && visit.listing.Ok? && visit.listing.value.Some? && !Repeats(Cleared(t, last), last, visit.listing.value)
  }

  ghost function AfterVisit(t: Traversed, chain: seq<Place>, visit: Visit): (Traversed, seq<Place>)
    requires chain != []
  {
    (AfterRead(t, chain[|chain| - 1], visit.listing),
     if Advances(t, chain, visit) then chain + [visit.listing.value] else chain)
  }

  lemma {:induction false} ChainIsDistinct(t: Traversed, chain: seq<Place>)
    requires Chains(t, chain)
    ensures Distinct(chain)
  {
    forall i, j | 0 <= i < j < |chain| ensures chain[i] != chain[j] {
      var part := chain[i..j + 1];
      forall k | 0 <= k < |part| - 1 ensures Follows(t, part[k], part[k + 1]) {
        assert Follows(t, chain[i + k], chain[i + k + 1]);
      }
      assert Path(t, part) && part[0] == chain[i] && part[|part| - 1] == chain[j];
    }
  }

  /** Retries, failures and changed answers keep the chain a path of places never visited twice. */
  lemma VisitKeepsChain(t: Traversed, chain: seq<Place>, visit: Visit)
    requires Chains(t, chain)
    ensures var (t', chain') := AfterVisit(t, chain, visit); Chains(t', chain') && Distinct(chain')
  {
    var last := chain[|chain| - 1];
    var (t', chain') := AfterVisit(t, chain, visit);
    ReadKeepsAcyclic(t, last, visit.listing);
    ChainIsDistinct(t, chain);
    forall i | 0 <= i < |chain| - 1 ensures Follows(t', chain[i], chain[i + 1]) {
      assert Follows(t, chain[i], chain[i + 1]);
    }
    if chain' != chain {
      assert Follows(t', last, visit.listing.value);
      forall i | 0 <= i < |chain'| - 1 ensures Follows(t', chain'[i], chain'[i + 1]) {
      }
    }
    ChainIsDistinct(t', chain');
  }

  ghost function AfterVisits(t: Traversed, chain: seq<Place>, visits: seq<Visit>): (r: (Traversed, seq<Place>))
    requires chain != []
    ensures r.1 != []
    decreases |visits|
  {
    if visits == [] then (t, chain)
    else
      var (t', chain') := AfterVisits(t, chain, visits[..|visits| - 1]);
      AfterVisit(t', chain', visits[|visits| - 1])
  }

  /**
   * From any place, with any retries and whatever the listing answers each time: following returned
   * cursors never visits a place twice, so with finitely many cursors it ends.
   */
  lemma {:induction false} FollowingNeverRepeats(t: Traversed, start: Place, visits: seq<Visit>, cursors: set<Place>)
    requires Acyclic(t)
    requires start in cursors
    requires forall i :: 0 <= i < |visits| && visits[i].listing.Ok? ==> visits[i].listing.value in cursors
    ensures var (t', chain) := AfterVisits(t, [start], visits);
      Chains(t', chain) && Distinct(chain) && |chain| <= |cursors| && forall p :: p in chain ==> p in cursors
  {
    var (t', chain) := AfterVisits(t, [start], visits);
    if visits == [] {
      ChainIsDistinct(t, chain);
    } else {
      var n := |visits| - 1;
      var (before, chain0) := AfterVisits(t, [start], visits[..n]);
      FollowingNeverRepeats(t, start, visits[..n], cursors);
      VisitKeepsChain(before, chain0, visits[n]);
    }
    DistinctSize(chain);
    SubsetSize(Elements(chain), cursors);
  }

  // ---------- Several consumers of one discovery ----------

  /** One read of the shared discovery, by any consumer. */
  datatype CursorRead = CursorRead(place: Place, listing: Result<Option<Cursor>, ReadError>)

  ghost function GraphAfter(log: seq<CursorRead>, n: nat): Traversed
    requires n <= |log|
  {
    if n == 0 then map[] else AfterRead(GraphAfter(log, n - 1), log[n - 1].place, log[n - 1].listing)
  }

  predicate Records(t: Traversed, read: CursorRead) {
    read.listing.Ok? && !Repeats(Cleared(t, read.place), read.place, read.listing.value)
  }

  ghost function AgeNext(age: map<Place, nat>, t: Traversed, read: CursorRead, n: nat): map<Place, nat> {
    var before := if read.place.None? then map[] else age;
    if Records(t, read) && read.place !in before then before[read.place := n] else before
  }

  /** When each traversed place was first read since the last start. */
  ghost function Age(log: seq<CursorRead>, n: nat): map<Place, nat>
    requires n <= |log|
  {
    if n == 0 then map[] else AgeNext(Age(log, n - 1), GraphAfter(log, n - 1), log[n - 1], n - 1)
  }

  /** Every recorded edge leads to a place that was first read later, or not yet. */
  ghost predicate Ages(t: Traversed, age: map<Place, nat>, n: nat) {
    && age.Keys == t.Keys && (forall p :: p in age ==> age[p] < n)
    && forall p, q :: Follows(t, p, q) && q in t ==> p in age && q in age && age[p] < age[q]
  }

  lemma {:induction false} AgeFacts(log: seq<CursorRead>, n: nat)
    requires n <= |log|
    ensures Ages(GraphAfter(log, n), Age(log, n), n)
  {
    hide Ages, AfterRead, AgeNext;
    if n > 0 {
      AgeFacts(log, n - 1);
      AgesNext(GraphAfter(log, n - 1), Age(log, n - 1), log[n - 1], n - 1);
    } else {
      NoAges();
    }
  }

  lemma NoAges()
    ensures Ages(map[], map[], 0)
  {
  }

  lemma AgesNext(t: Traversed, age: map<Place, nat>, read: CursorRead, n: nat)
    requires Ages(t, age, n)
    ensures Ages(AfterRead(t, read.place, read.listing), AgeNext(age, t, read, n), n + 1)
  {
    var cleared, before := Cleared(t, read.place), if read.place.None? then map[] else age;
    assert Ages(cleared, before, n);
    if Records(t, read) {
      hide Ages;
      AgesRecorded(cleared, before, n, read.place, read.listing.value);
    }
  }

  /** A recorded edge leads to a place not read yet, or was recorded before. */
  lemma AgesRecorded(t: Traversed, age: map<Place, nat>, n: nat, place: Place, next: Option<Cursor>)
    requires Ages(t, age, n) && !Repeats(t, place, next)
    ensures Ages(t[place := next], if place in age then age else age[place := n], n + 1)
  {
    var t', age' := t[place := next], if place in age then age else age[place := n];
    forall p, q | Follows(t', p, q) && q in t' ensures p in age' && q in age' && age'[p] < age'[q] {
      if p == place {
        assert q == next && q in t && t[place] == next;
        assert Follows(t, p, q);
      } else {
        assert Follows(t, p, q);
      }
    }
  }

  ghost predicate NoRestart(log: seq<CursorRead>, m: nat, n: nat) {
    forall i :: m <= i < n && i < |log| ==> log[i].place.Some?
  }

  /** Without a restart a place keeps its age, and a place read only later is younger. */
  lemma {:induction false} AgeStays(log: seq<CursorRead>, m: nat, n: nat, p: Place)
    requires m <= n <= |log| && NoRestart(log, m, n)
    ensures p in Age(log, m) ==> p in Age(log, n) && Age(log, n)[p] == Age(log, m)[p]
    ensures p !in Age(log, m) && p in Age(log, n) ==> Age(log, n)[p] >= m
  {
    if m < n {
      AgeStays(log, m, n - 1, p);
    }
  }

  /**
   * The reads of one consumer: each at the cursor its last one returned. Other consumers read
   * anywhere in between, but none starts over.
   */
  ghost predicate Visits(log: seq<CursorRead>, visits: seq<nat>) {
    && visits != []
    && (forall k :: 0 <= k < |visits| ==> visits[k] < |log| && Records(GraphAfter(log, visits[k]), log[visits[k]]))
    && (forall k :: 0 <= k < |visits| - 1 ==> visits[k] < visits[k + 1] && Returned(log, visits[k], visits[k + 1]))
    && NoRestart(log, visits[0] + 1, |log|)
  }

  ghost predicate Returned(log: seq<CursorRead>, i: nat, j: nat)
    requires i < |log| && j < |log| && log[i].listing.Ok?
  {
    log[i].listing.value.Some? && log[j].place == log[i].listing.value
  }

  ghost function PlacesOf(log: seq<CursorRead>, visits: seq<nat>): (places: seq<Place>)
    requires forall k :: 0 <= k < |visits| ==> visits[k] < |log|
    ensures |places| == |visits| && forall k :: 0 <= k < |places| ==> places[k] == log[visits[k]].place
  {
    seq(|visits|, k requires 0 <= k < |visits| => log[visits[k]].place)
  }

  /** What a recorded read returns is older than nothing: it was first read after the place, if at all. */
  lemma ReturnedIsYounger(log: seq<CursorRead>, i: nat, next: Place)
    requires i < |log| && Records(GraphAfter(log, i), log[i]) && NoRestart(log, i + 1, |log|)
    requires log[i].listing.value == next && next.Some?
    ensures var age := Age(log, |log|);
      log[i].place in age && (next in age ==> age[log[i].place] < age[next])
  {
    hide *;
    var p := log[i].place;
    RecordedEdge(log, i);
    AgeFacts(log, i + 1);
    EdgeAges(GraphAfter(log, i + 1), Age(log, i + 1), i + 1, p, next);
    AgeStays(log, i + 1, |log|, p);
    AgeStays(log, i + 1, |log|, next);
  }

  lemma RecordedEdge(log: seq<CursorRead>, i: nat)
    requires i < |log| && Records(GraphAfter(log, i), log[i]) && log[i].listing.value.Some?
    ensures Follows(GraphAfter(log, i + 1), log[i].place, log[i].listing.value)
  {
    hide Repeats;
    assert GraphAfter(log, i + 1) == AfterRead(GraphAfter(log, i), log[i].place, log[i].listing);
  }

  lemma EdgeAges(t: Traversed, age: map<Place, nat>, n: nat, p: Place, next: Place)
    requires Ages(t, age, n) && Follows(t, p, next)
    ensures p in age && age[p] < n && (next in age ==> age[p] < age[next])
  {
    assert p in t;
    assert next in age ==> next in t;
  }

  lemma {:induction false} VisitsGrowYounger(log: seq<CursorRead>, visits: seq<nat>, j: nat, k: nat)
    requires Visits(log, visits) && j < k < |visits|
    ensures var age := Age(log, |log|);
      var a, b := log[visits[j]].place, log[visits[k]].place;
      a in age && b in age && age[a] < age[b]
    decreases k
  {
    var i := visits[k - 1];
    assert Returned(log, i, visits[k]);
    VisitIsAged(log, visits, k);
    LaterVisit(visits, k - 1);
    ReturnedIsYounger(log, i, log[visits[k]].place);
    if j < k - 1 {
      VisitsGrowYounger(log, visits, j, k - 1);
    }
  }

  lemma {:induction false} LaterVisit(visits: seq<nat>, k: nat)
    requires k < |visits| && forall i :: 0 <= i < |visits| - 1 ==> visits[i] < visits[i + 1]
    ensures visits[0] <= visits[k]
  {
    if k > 0 {
      LaterVisit(visits, k - 1);
    }
  }

  lemma VisitIsAged(log: seq<CursorRead>, visits: seq<nat>, k: nat)
    requires Visits(log, visits) && k < |visits|
    ensures log[visits[k]].place in Age(log, |log|)
  {
    LaterVisit(visits, k);
    var i := visits[k];
    assert log[i].place in Age(log, i + 1);
    hide Age, GraphAfter, Records;
    AgeStays(log, i + 1, |log|, log[i].place);
  }

  /**
   * Whatever other consumers read at saved cursors in between, and whatever every listing answers:
   * following returned cursors never visits a place twice, nor returns to one, so it ends.
   */
  lemma SharedFollowingNeverRepeats(log: seq<CursorRead>, visits: seq<nat>, cursors: set<Place>)
    requires Visits(log, visits)
    requires forall p :: p in PlacesOf(log, visits) ==> p in cursors
    ensures Distinct(PlacesOf(log, visits)) && |visits| <= |cursors|
    ensures var next := log[visits[|visits| - 1]].listing.value;
      next.Some? ==> next !in PlacesOf(log, visits)
  {
    var places, last := PlacesOf(log, visits), |visits| - 1;
    forall j, k | 0 <= j < k < |places| ensures places[j] != places[k] {
      VisitsGrowYounger(log, visits, j, k);
    }
    DistinctSize(places);
    SubsetSize(Elements(places), cursors);
    var next := log[visits[last]].listing.value;
    if next.Some? {
      LaterVisit(visits, last);
      ReturnedIsYounger(log, visits[last], next);
      forall k | 0 <= k < |places| ensures places[k] != next {
        if k < last {
          VisitsGrowYounger(log, visits, k, last);
        }
      }
    }
  }

  /**
   * No more holds: after any visits from a cursor, once another consumer has started over, which
   * forgets the graph, the listing can lead the first one back to where it began.
   */
  lemma RestartLeadsBack(log: seq<CursorRead>, visits: seq<nat>)
    requires Visits(log, visits) && log[visits[0]].place.Some?
    requires log[visits[|visits| - 1]].listing.value.Some?
    ensures var n, last, first := |log|, visits[|visits| - 1], log[visits[0]].place;
      var more := log + [CursorRead(None, Err(ListFailed)), CursorRead(log[last].listing.value, Ok(first)),
                         CursorRead(first, Ok(None))];
      && Records(GraphAfter(more, n + 1), more[n + 1]) && Records(GraphAfter(more, n + 2), more[n + 2])
      && Returned(more, last, n + 1) && Returned(more, n + 1, n + 2) && more[n + 2].place == more[visits[0]].place
  {
    var n, last, first := |log|, visits[|visits| - 1], log[visits[0]].place;
    var next := log[last].listing.value;
    SharedFollowingNeverRepeats(log, visits, Elements(PlacesOf(log, visits)));
    assert PlacesOf(log, visits)[0] == first;
    var more := log + [CursorRead(None, Err(ListFailed)), CursorRead(next, Ok(first)), CursorRead(first, Ok(None))];
    assert more[n].place.None? && more[n + 1] == CursorRead(next, Ok(first)) && more[n + 2] == CursorRead(first, Ok(None));
    assert more[last] == log[last] && more[visits[0]] == log[visits[0]];
    hide Visits, PlacesOf, Age;
    assert GraphAfter(more, n + 1) == map[];
    assert GraphAfter(more, n + 2) == map[next := first];
  }

  // ---------- Scanning item states ----------

  datatype ScanError = ScanListFailed | ItemInvalid | CursorRepeated

  /** One page: the item keys it lists, whether they all decode, and the next cursor. */
  datatype Page = Page(items: seq<Name>, decode: bool, next: Option<Cursor>)

  type Listing = (nat, Option<Cursor>) -> Result<Page, ScanError>

  ghost function CursorAt(cursors: seq<Cursor>, i: nat): Option<Cursor>
    requires i <= |cursors|
  {
    if i == 0 then None else Some(cursors[i - 1])
  }

  ghost function ItemsOf(listing: Listing, cursors: seq<Cursor>, n: nat): seq<Name>
    requires n <= |cursors|
  {
    if n == 0 then []
    else
      ItemsOf(listing, cursors, n - 1) +
      match listing(n - 1, CursorAt(cursors, n - 1))
      case Ok(page) => page.items
      case Err(_) => []
  }

  /** Each cursor was returned by the page read from the one before it. */
  ghost predicate Leads(listing: Listing, cursors: seq<Cursor>) {
    forall i :: 0 <= i < |cursors| ==> LeadsTo(listing, i, CursorAt(cursors, i), Some(cursors[i]))
  }

  predicate LeadsTo(listing: Listing, n: nat, place: Option<Cursor>, next: Option<Cursor>) {
    listing(n, place).Ok? && listing(n, place).value.next == next
  }

  ghost predicate CursorsFrom(listing: Listing, universe: set<Cursor>) {
    forall n, place, next :: LeadsTo(listing, n, place, Some(next)) ==> next in universe
  }

  /** Where a scan stands: distinct cursors so far, and the items of all pages before the next one. */
  ghost predicate ScannedTo(
    listing: Listing, universe: set<Cursor>, cursors: seq<Cursor>, cursor: Option<Cursor>, seen: set<Cursor>,
    visited: seq<Name>)
  {
    && cursor == CursorAt(cursors, |cursors|) && seen == Elements(cursors) && Distinct(cursors) && seen <= universe
    && visited == ItemsOf(listing, cursors, |cursors|) && Leads(listing, cursors)
  }

  lemma ScanOnePage(listing: Listing, universe: set<Cursor>, cursors: seq<Cursor>, cursor: Option<Cursor>,
                    seen: set<Cursor>, visited: seq<Name>, next: Cursor)
    requires ScannedTo(listing, universe, cursors, cursor, seen, visited) && CursorsFrom(listing, universe)
    requires LeadsTo(listing, |cursors|, cursor, Some(next)) && next !in seen
    ensures listing(|cursors|, cursor).Ok?
    ensures ScannedTo(listing, universe, cursors + [next], Some(next), seen + {next},
                      visited + listing(|cursors|, cursor).value.items)
  {
    assert listing(|cursors|, cursor).Ok?;
    hide Leads, ItemsOf, LeadsTo, Distinct;
    LeadsFurther(listing, cursors, next);
    ItemsGrow(listing, cursors, next);
    assert next !in cursors;
    DistinctFurther(cursors, next);
    NextIsFrom(listing, universe, |cursors|, cursor, next);
  }

  lemma DistinctFurther(cursors: seq<Cursor>, next: Cursor)
    requires Distinct(cursors) && next !in cursors
    ensures Distinct(cursors + [next]) && Elements(cursors + [next]) == Elements(cursors) + {next}
  {
    DistinctConcat(cursors, [next]);
  }

  lemma LeadsFurther(listing: Listing, cursors: seq<Cursor>, next: Cursor)
    requires Leads(listing, cursors) && LeadsTo(listing, |cursors|, CursorAt(cursors, |cursors|), Some(next))
    ensures Leads(listing, cursors + [next])
  {
    hide LeadsTo;
    var cursors' := cursors + [next];
    forall i | 0 <= i < |cursors'| ensures LeadsTo(listing, i, CursorAt(cursors', i), Some(cursors'[i])) {
      assert CursorAt(cursors', i) == CursorAt(cursors, i);
    }
  }

  lemma ItemsGrow(listing: Listing, cursors: seq<Cursor>, next: Cursor)
    requires LeadsTo(listing, |cursors|, CursorAt(cursors, |cursors|), Some(next))
    ensures ItemsOf(listing, cursors + [next], |cursors| + 1) ==
      ItemsOf(listing, cursors, |cursors|) + listing(|cursors|, CursorAt(cursors, |cursors|)).value.items
  {
    ItemsStay(listing, cursors, next, |cursors|);
    assert CursorAt(cursors + [next], |cursors|) == CursorAt(cursors, |cursors|);
  }

  lemma ScanIsBounded(listing: Listing, universe: set<Cursor>, cursors: seq<Cursor>, cursor: Option<Cursor>,
                      seen: set<Cursor>, visited: seq<Name>)
    requires ScannedTo(listing, universe, cursors, cursor, seen, visited)
    ensures |cursors| <= |universe|
  {
    DistinctSize(cursors);
    SubsetSize(seen, universe);
  }

  /** How a scan may end after following `cursors`. */
  ghost predicate ScanEnds(listing: Listing, cursors: seq<Cursor>, r: Result<seq<Name>, ScanError>) {
    var n, last := |cursors|, CursorAt(cursors, |cursors|);
    match r
    case Ok(items) => LeadsTo(listing, n, last, None) && items == ItemsOf(listing, cursors, n) + listing(n, last).value.items
    case Err(CursorRepeated) => exists next :: LeadsTo(listing, n, last, Some(next)) && next in cursors
    case Err(ItemInvalid) => listing(n, last).Ok? && !listing(n, last).value.decode
    case Err(ScanListFailed) => listing(n, last).Err?
  }

  /**
   * Every scan ends, whatever the listing answers: it follows distinct cursors, fails on the first
   * repeated one, and otherwise visits the items of each page once.
   */
  method ScanItems(listing: Listing, ghost universe: set<Cursor>)
    returns (r: Result<seq<Name>, ScanError>, cursors: seq<Cursor>)
    requires CursorsFrom(listing, universe)
    ensures Distinct(cursors) && |cursors| <= |universe| && Leads(listing, cursors) && ScanEnds(listing, cursors, r)
  {
    var cursor: Option<Cursor> := None;
    var seen: set<Cursor> := {};
    var visited: seq<Name> := [];
    var n := 0;
    cursors := [];
    hide CursorsFrom, Leads, ItemsOf;
    assert ScannedTo(listing, universe, cursors, cursor, seen, visited) by { NothingScanned(listing, universe); }
    while true
      invariant n == |cursors| && ScannedTo(listing, universe, cursors, cursor, seen, visited)
      decreases universe - seen
    {
      ScanIsBounded(listing, universe, cursors, cursor, seen, visited);
      var page := listing(n, cursor);
      if page.Err? {
        return Err(ScanListFailed), cursors;
      }
      if !page.value.decode {
        return Err(ItemInvalid), cursors;
      }
      if page.value.next.None? {
        return Ok(visited + page.value.items), cursors;
      }
      var next := page.value.next.value;
      assert LeadsTo(listing, n, cursor, Some(next));
      if next in seen {
        return Err(CursorRepeated), cursors;
      }
      ScanOnePage(listing, universe, cursors, cursor, seen, visited, next);
      NextIsFrom(listing, universe, n, cursor, next);
      visited := visited + page.value.items;
      seen := seen + {next};
      cursor := Some(next);
      cursors := cursors + [next];
      n := n + 1;
    }
  }

  lemma NothingScanned(listing: Listing, universe: set<Cursor>)
    ensures ScannedTo(listing, universe, [], None, {}, [])
  {
  }

  lemma NextIsFrom(listing: Listing, universe: set<Cursor>, n: nat, place: Option<Cursor>, next: Cursor)
    requires CursorsFrom(listing, universe) && LeadsTo(listing, n, place, Some(next))
    ensures next in universe
  {
  }

  lemma {:induction false} ItemsStay(listing: Listing, cursors: seq<Cursor>, next: Cursor, n: nat)
    requires n <= |cursors|
    ensures ItemsOf(listing, cursors + [next], n) == ItemsOf(listing, cursors, n)
  {
    if n > 0 {
      ItemsStay(listing, cursors, next, n - 1);
    }
  }
}
