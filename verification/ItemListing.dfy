/** Keyset pages of item state records, read while other clients change the store. */
module ItemListing {
  import opened Basics

  /** Keys are only compared; a countable linear order, such as that of strings, embeds in the reals. */
  datatype ItemKey = ItemKey(rank: real)

  predicate Less(a: ItemKey, b: ItemKey) { a.rank < b.rank }

  type RunId = Name

  datatype ItemStatus = Migrated | Failed | Skipped | NeedsUpdate

  /**
   * A stored item record: the status in its index, the status in its state, whether its format is
   * the supported one and whether the record decodes, and the inventory that last saw the item.
   */
  datatype Item = Item(
    indexStatus: Option<ItemStatus>, stateStatus: ItemStatus, supported: bool, decodes: bool,
    lastInventory: Option<RunId>)

  type Contents = map<ItemKey, Item>

  datatype ListError = UndecodableRecord(key: ItemKey)

  const MAX_PAGE_SIZE: nat := 500

  // ---------- Keys in order ----------

  ghost predicate Ascending(keys: seq<ItemKey>) {
    forall i, j :: 0 <= i < j < |keys| ==> Less(keys[i], keys[j])
  }

  predicate IsLeast(k: ItemKey, keys: set<ItemKey>) {
    k in keys && forall x :: x in keys ==> !Less(x, k)
  }

  lemma {:induction false} SomeLeast(keys: set<ItemKey>)
    requires keys != {}
    ensures exists k :: IsLeast(k, keys)
  {
    var k :| k in keys;
    var rest := keys - {k};
    assert forall x :: x in keys ==> x == k || x in rest;
    if rest == {} {
      assert IsLeast(k, keys);
    } else {
      SomeLeast(rest);
      var least :| IsLeast(least, rest);
      assert IsLeast(if Less(k, least) then k else least, keys);
    }
  }

  function Least(keys: set<ItemKey>): (k: ItemKey)
    requires keys != {}
    ensures IsLeast(k, keys)
  {
    SomeLeast(keys);
    var k :| IsLeast(k, keys);
    k
  }

  /** The keys of a set, ascending. */
  function Sorted(keys: set<ItemKey>): (r: seq<ItemKey>)
    ensures forall k :: k in r ==> k in keys
    decreases |keys|
  {
    if keys == {} then [] else [Least(keys)] + Sorted(keys - {Least(keys)})
  }

  lemma {:induction false} SortedFacts(keys: set<ItemKey>)
    ensures var r := Sorted(keys); |r| == |keys| && Elements(r) == keys && Ascending(r)
    decreases |keys|
  {
    if keys != {} {
      var least := Least(keys);
      SortedFacts(keys - {least});
      LeastFirst(least, keys, Sorted(keys - {least}));
    }
  }

  lemma LeastFirst(least: ItemKey, keys: set<ItemKey>, rest: seq<ItemKey>)
    requires IsLeast(least, keys) && Elements(rest) == keys - {least} && Ascending(rest)
    ensures Elements([least] + rest) == keys && Ascending([least] + rest)
  {
    var r := [least] + rest;
    forall k ensures k in r <==> k in keys {
      assert k in Elements(rest) <==> k in rest;
    }
    forall i, j | 0 <= i < j < |r| ensures Less(r[i], r[j]) {
      assert r[j] == rest[j - 1] && rest[j - 1] in Elements(rest);
    }
  }

  /** An ascending sequence is the only one with its elements. */
  lemma {:induction false} AscendingIsSorted(r: seq<ItemKey>)
    requires Ascending(r)
    ensures Sorted(Elements(r)) == r
  {
    if r != [] {
      var keys := Elements(r);
      assert IsLeast(r[0], keys) && Least(keys) == r[0];
      assert Elements(r[1..]) == keys - {r[0]} by {
        assert r == [r[0]] + r[1..];
        assert forall k :: k in r[1..] ==> Less(r[0], k);
      }
      AscendingIsSorted(r[1..]);
    } else {
      assert Elements(r) == {};
    }
  }

  function Above(keys: set<ItemKey>, after: Option<ItemKey>): set<ItemKey> {
    set k | k in keys && (after.None? || Less(after.value, k))
  }

  function Minimum(a: nat, b: nat): nat { if a < b then a else b }

  /** One request: the first `limit` of the keys above `after`. */
  function Page(keys: set<ItemKey>, after: Option<ItemKey>, limit: nat): seq<ItemKey> {
    var sorted := Sorted(Above(keys, after));
    sorted[..Minimum(limit, |sorted|)]
  }

  lemma SortedPrefix(keys: set<ItemKey>, n: nat, k: ItemKey)
    requires n <= |Sorted(keys)|
    ensures k in Sorted(keys)[..n] ==> k in keys
    ensures k in keys && k !in Sorted(keys)[..n] ==> forall i :: 0 <= i < n ==> Less(Sorted(keys)[i], k)
  {
    SortedFacts(keys);
    var r := Sorted(keys);
    hide Sorted;
    assert k in r <==> k in Elements(r);
    if k in keys && k !in r[..n] {
      var j :| 0 <= j < |r| && r[j] == k;
      assert forall i :: 0 <= i < n ==> r[i] == r[..n][i];
    }
  }

  /** After the first `n` keys, the keys above the last of them are the rest. */
  lemma SortedRest(keys: set<ItemKey>, n: nat)
    requires 0 < n <= |Sorted(keys)|
    ensures Sorted(Above(keys, Some(Sorted(keys)[n - 1]))) == Sorted(keys)[n..]
  {
    SortedFacts(keys);
    var r := Sorted(keys);
    var rest := r[n..];
    assert Elements(rest) == Above(keys, Some(r[n - 1])) by {
      forall k ensures k in rest <==> k in Above(keys, Some(r[n - 1])) {
        if k in rest {
          var i :| 0 <= i < |rest| && rest[i] == k;
          assert r[n + i] == k && k in Elements(r);
        }
        if k in Above(keys, Some(r[n - 1])) {
          assert k in Elements(r);
          var i :| 0 <= i < |r| && r[i] == k;
          assert i >= n;
          assert rest[i - n] == k;
        }
      }
    }
    AscendingIsSorted(rest);
  }

  lemma PageFacts(keys: set<ItemKey>, after: Option<ItemKey>, limit: nat)
    ensures var page := Page(keys, after, limit);
      && |page| <= limit && Ascending(page)
      && (forall k :: k in page ==> k in Above(keys, after))
      && (|page| < limit ==> forall k :: k in Above(keys, after) ==> k in page)
      && (page != [] ==> forall k :: k in Above(keys, after) && k !in page ==> Less(page[|page| - 1], k))
  {
    var above := Above(keys, after);
    SortedFacts(above);
    var sorted, page := Sorted(above), Page(keys, after, limit);
    forall k ensures k in page ==> k in above {
      SortedPrefix(above, |page|, k);
    }
    forall k | k in above && k !in page ensures |page| == limit && (page != [] ==> Less(page[|page| - 1], k)) {
      SortedPrefix(above, |page|, k);
      assert k in Elements(sorted);
      assert |page| == |sorted| ==> page == sorted;
    }
  }

  // ---------- Listing every item ----------

  /** What the `n`th query of a scan sees. */
  type Store = nat -> Contents

  datatype Found = Found(key: ItemKey, item: Item)

  ghost function KeysOf(found: seq<Found>): (keys: seq<ItemKey>)
    ensures |keys| == |found| && forall i :: 0 <= i < |keys| ==> keys[i] == found[i].key
  {
    seq(|found|, i requires 0 <= i < |found| => found[i].key)
  }

  function ItemsAt(contents: Contents, keys: seq<ItemKey>): (items: seq<Found>)
    requires forall k :: k in keys ==> k in contents
    ensures |items| == |keys| && forall i :: 0 <= i < |items| ==> items[i] == Found(keys[i], contents[keys[i]])
  {
    seq(|keys|, i requires 0 <= i < |keys| => Found(keys[i], contents[keys[i]]))
  }

  /** The page of one query: its records, in key order, unless one of them does not decode. */
  method QueryItemStatePage(contents: Contents, page: seq<ItemKey>)
    returns (r: Result<seq<Found>, ListError>)
    requires forall k :: k in page ==> k in contents
    ensures r.Ok? <==> forall k :: k in page ==> contents[k].decodes
    ensures r.Ok? ==> r.value == ItemsAt(contents, page)
    ensures r.Err? ==> r.error.key in page && !contents[r.error.key].decodes
  {
    var items: seq<Found> := [];
    for i := 0 to |page|
      invariant |items| == i
      invariant forall j :: 0 <= j < i ==> contents[page[j]].decodes && items[j] == Found(page[j], contents[page[j]])
    {
      if !contents[page[i]].decodes {
        return Err(UndecodableRecord(page[i]));
      }
      items := items + [Found(page[i], contents[page[i]])];
    }
    r := Ok(items);
  }

  /** `found` is what some query of the scan saw. */
  ghost predicate SeenBy(store: Store, queries: nat, found: Found) {
    exists t: nat :: t < queries && SeenAt(store, t, found)
  }

  ghost predicate SeenAt(store: Store, t: nat, found: Found) {
    found.key in store(t) && store(t)[found.key] == found.item
  }

  ghost predicate PresentThroughout(store: Store, queries: nat, k: ItemKey) {
    forall t: nat :: t < queries ==> k in store(t)
  }

  /** A scan: no record twice, every record from some query, and every record that was there throughout. */
  ghost predicate ScansThrough(store: Store, queries: nat, upTo: Option<ItemKey>, items: seq<Found>) {
    && Ascending(KeysOf(items))
    && (forall i :: 0 <= i < |items| ==> SeenBy(store, queries, items[i]))
    && (forall k :: PresentThroughout(store, queries, k) && (upTo.None? || !Less(upTo.value, k)) ==> k in KeysOf(items))
  }

  /** The key a scan has reached after a page. */
  function Reached(page: seq<ItemKey>, lastKey: Option<ItemKey>, limit: nat): Option<ItemKey> {
    if |page| < limit then None else if page == [] then lastKey else Some(page[|page| - 1])
  }

  ghost predicate ScannedTo(store: Store, queries: nat, lastKey: Option<ItemKey>, items: seq<Found>) {
    if lastKey.None? then items == []
    else ScansThrough(store, queries, lastKey, items) && items != [] && items[|items| - 1].key == lastKey.value
  }

  lemma ScanOneMore(
    store: Store, queries: nat, lastKey: Option<ItemKey>, items: seq<Found>, page: seq<ItemKey>, limit: nat)
    requires limit > 0 && ScannedTo(store, queries, lastKey, items) && page == Page(store(queries).Keys, lastKey, limit)
    ensures forall k :: k in page ==> k in store(queries)
    ensures ScansThrough(store, queries + 1, Reached(page, lastKey, limit), items + ItemsAt(store(queries), page))
  {
    var contents := store(queries);
    PageFacts(contents.Keys, lastKey, limit);
    hide Page, SeenBy, PresentThroughout;
    var items' := items + ItemsAt(contents, page);
    assert KeysOf(items') == KeysOf(items) + page;
    AscendingJoin(KeysOf(items), page, lastKey);
    SeenOneMore(store, queries, items, page);
    forall k | PresentThroughout(store, queries + 1, k) && ReachesPast(page, lastKey, limit, k)
      ensures k in KeysOf(items')
    {
      CoveredOneMore(store, queries, lastKey, items, page, limit, k);
    }
  }

  ghost predicate ReachesPast(page: seq<ItemKey>, lastKey: Option<ItemKey>, limit: nat, k: ItemKey) {
    Reached(page, lastKey, limit).None? || !Less(Reached(page, lastKey, limit).value, k)
  }

  lemma SeenOneMore(store: Store, queries: nat, items: seq<Found>, page: seq<ItemKey>)
    requires forall i :: 0 <= i < |items| ==> SeenBy(store, queries, items[i])
    requires forall k :: k in page ==> k in store(queries)
    ensures var items' := items + ItemsAt(store(queries), page);
      forall i :: 0 <= i < |items'| ==> SeenBy(store, queries + 1, items'[i])
  {
    var items' := items + ItemsAt(store(queries), page);
    forall i | 0 <= i < |items'| ensures SeenBy(store, queries + 1, items'[i]) {
      if i < |items| {
        assert SeenBy(store, queries, items[i]);
      } else {
        assert page[i - |items|] in page;
        assert SeenAt(store, queries, items'[i]);
      }
    }
  }

  lemma CoveredOneMore(store: Store, queries: nat, lastKey: Option<ItemKey>, items: seq<Found>, page: seq<ItemKey>,
                       limit: nat, k: ItemKey)
    requires limit > 0 && ScannedTo(store, queries, lastKey, items) && page == Page(store(queries).Keys, lastKey, limit)
    requires PresentThroughout(store, queries + 1, k) && ReachesPast(page, lastKey, limit, k)
    ensures k in KeysOf(items) + page
  {
    assert PresentThroughout(store, queries, k) && k in store(queries);
    PageFacts(store(queries).Keys, lastKey, limit);
    hide Page, SeenBy, PresentThroughout;
    if lastKey.None? || Less(lastKey.value, k) {
      assert k in Above(store(queries).Keys, lastKey);
    } else {
      assert k in KeysOf(items);
    }
  }

  lemma AscendingJoin(a: seq<ItemKey>, b: seq<ItemKey>, last: Option<ItemKey>)
    requires Ascending(a) && Ascending(b)
    requires if last.None? then a == [] else a != [] && a[|a| - 1] == last.value
    requires forall k :: k in b ==> last.None? || Less(last.value, k)
    ensures Ascending(a + b)
  {
    var c := a + b;
    forall i, j | 0 <= i < j < |c| ensures Less(c[i], c[j]) {
      if j >= |a| {
        assert c[j] in b;
      }
    }
  }

  /** Keys of a scan all come from the finite universe, so full pages run out. */
  lemma ScanIsBounded(
    store: Store, queries: nat, upTo: Option<ItemKey>, items: seq<Found>, universe: set<ItemKey>)
    requires ScansThrough(store, queries, upTo, items) && forall t: nat, k :: k in store(t) ==> k in universe
    ensures |items| <= |universe|
  {
    var keys := KeysOf(items);
    forall k | k in keys ensures k in universe {
      var i :| 0 <= i < |keys| && keys[i] == k;
      assert SeenBy(store, queries, items[i]);
    }
    DistinctSize(keys);
    SubsetSize(Elements(keys), universe);
  }

  lemma MovesOn(keys: set<ItemKey>, universe: set<ItemKey>, lastKey: Option<ItemKey>, limit: nat)
    requires keys <= universe && Page(keys, lastKey, limit) != []
    ensures var page := Page(keys, lastKey, limit); var next := Some(page[|page| - 1]);
      next != lastKey && Above(universe, next) < Above(universe, lastKey)
  {
    var page := Page(keys, lastKey, limit);
    PageFacts(keys, lastKey, limit);
    var next := page[|page| - 1];
    assert next in page;
    assert next in Above(universe, lastKey) && next !in Above(universe, Some(next));
  }

  /**
   * List a definition's items while other clients insert, change and delete records between pages.
   * `universe` is any finite set of keys the records ever use.
   */
  method ListItemStates(store: Store, pageSize: nat, ghost universe: set<ItemKey>)
    returns (r: Result<seq<Found>, ListError>, queries: nat)
    requires 1 <= pageSize <= MAX_PAGE_SIZE
    requires forall t: nat, k :: k in store(t) ==> k in universe
    ensures r.Ok? ==> ScansThrough(store, queries, None, r.value)
    ensures r.Err? ==> exists t: nat :: t < queries && r.error.key in store(t) && !store(t)[r.error.key].decodes
    ensures queries > 0 && (queries - 1) * pageSize <= |universe|
  {
    hide ScansThrough, Above, Page;
    var itemStates: seq<Found> := [];
    var lastKey: Option<ItemKey> := None;
    var n := 0;
    while true
      invariant ScannedTo(store, n, lastKey, itemStates)
      invariant |itemStates| == n * pageSize && |itemStates| <= |universe|
      decreases Above(universe, lastKey)
    {
      var contents := store(n);
      var page := Page(contents.Keys, lastKey, pageSize);
      ScanOneMore(store, n, lastKey, itemStates, page, pageSize);
      var queried := QueryItemStatePage(contents, page);
      n := n + 1;
      if queried.Err? {
        return Err(queried.error), n;
      }
      itemStates := itemStates + queried.value;
      if |page| < pageSize || |page| == 0 {
        assert |page| < pageSize;
        break;
      }
      var nextLastKey := page[|page| - 1];
      assert contents.Keys <= universe;
      MovesOn(contents.Keys, universe, lastKey, pageSize);
      PageFacts(contents.Keys, lastKey, pageSize);
      if lastKey == Some(nextLastKey) {
        break;
      }
      lastKey := Some(nextLastKey);
      ScanIsBounded(store, n, lastKey, itemStates, universe);
    }
    return Ok(itemStates), n;
  }

  /** On a store that does not change, a scan is the records in key order. */
  lemma StaticScan(contents: Contents, store: Store, queries: nat, items: seq<Found>)
    requires (forall t: nat :: t < queries ==> store(t) == contents) && ScansThrough(store, queries, None, items)
    ensures items == ItemsAt(contents, Sorted(contents.Keys))
  {
    var keys := KeysOf(items);
    forall i | 0 <= i < |items| ensures SeenAt(store, 0, items[i]) {
      assert SeenBy(store, queries, items[i]);
    }
    forall k ensures k in keys <==> k in contents {
      if k in contents {
        assert PresentThroughout(store, queries, k);
      }
    }
    assert Elements(keys) == contents.Keys;
    AscendingIsSorted(keys);
  }

  // ---------- Pages of orphaned items ----------

  /** The items an inventory run did not see. */
  function Orphans(contents: Contents, run: RunId): set<ItemKey> {
    set k | k in contents && contents[k].lastInventory != Some(run)
  }

  function OrphansAbove(contents: Contents, run: RunId, after: Option<ItemKey>): seq<ItemKey> {
    Sorted(Above(Orphans(contents, run), after))
  }

  datatype OrphanPage = OrphanPage(items: seq<Found>, nextAfter: Option<ItemKey>)

  /** The first `limit` orphans above `after`, and where to go on when there are more. */
  function OrphansPage(contents: Contents, run: RunId, after: Option<ItemKey>, limit: nat): OrphanPage {
    var sorted := OrphansAbove(contents, run, after);
    var keys := sorted[..Minimum(limit, |sorted|)];
    assert forall k :: k in keys ==> k in sorted;
    OrphanPage(ItemsAt(contents, keys), if 0 < limit < |sorted| then Some(sorted[limit - 1]) else None)
  }

  /** In key order, exactly the records above `after` whose last inventory is not this run's. */
  lemma OrphansAboveAre(contents: Contents, run: RunId, after: Option<ItemKey>)
    ensures Ascending(OrphansAbove(contents, run, after))
    ensures forall k :: k in OrphansAbove(contents, run, after) <==>
      k in contents && contents[k].lastInventory != Some(run) && (after.None? || Less(after.value, k))
  {
    SortedFacts(Above(Orphans(contents, run), after));
    hide Sorted, Ascending;
    forall k
      ensures k in OrphansAbove(contents, run, after) <==>
        k in contents && contents[k].lastInventory != Some(run) && (after.None? || Less(after.value, k))
    {
      assert k in OrphansAbove(contents, run, after) <==> k in Elements(OrphansAbove(contents, run, after));
    }
  }

  lemma SplitAt<T>(s: seq<T>, n: nat, x: T)
    requires n <= |s| && x in s
    ensures x in s[..n] || exists i :: n <= i < |s| && s[i] == x
  {
    assert s == s[..n] + s[n..];
  }

  /** The records of the page, in order: each is an orphan above `after`, and none below the last is left out. */
  lemma OrphansPageIs(contents: Contents, run: RunId, after: Option<ItemKey>, limit: nat)
    ensures var page := OrphansPage(contents, run, after, limit);
      && |page.items| <= limit && Ascending(KeysOf(page.items))
      && (forall found :: found in page.items ==>
            && found.key in contents && found.item == contents[found.key]
            && contents[found.key].lastInventory != Some(run) && (after.None? || Less(after.value, found.key)))
      && (page.nextAfter.Some? ==> |page.items| == limit > 0 && page.nextAfter == Some(page.items[limit - 1].key))
      && forall k :: k in contents && contents[k].lastInventory != Some(run) && (after.None? || Less(after.value, k)) ==>
           k in KeysOf(page.items) || limit == 0 || (page.nextAfter.Some? && Less(page.nextAfter.value, k))
  {
    var sorted, page := OrphansAbove(contents, run, after), OrphansPage(contents, run, after, limit);
    var keys := sorted[..Minimum(limit, |sorted|)];
    OrphansAboveAre(contents, run, after);
    assert KeysOf(page.items) == keys;
    hide OrphansAbove;
    forall k | k in sorted && k !in keys && limit > 0 ensures page.nextAfter.Some? && Less(page.nextAfter.value, k) {
      SplitAt(sorted, |keys|, k);
      var i :| |keys| <= i < |sorted| && sorted[i] == k;
    }
  }

  /** The records above `after` are the same in both. */
  ghost predicate SameAbove(a: Contents, b: Contents, after: Option<ItemKey>) {
    forall k :: (after.None? || Less(after.value, k)) ==> (k in a <==> k in b) && (k in a ==> a[k] == b[k])
  }

  function LimitOf(limit: real): nat {
    if limit.Floor > 0 then limit.Floor else 0
  }

  /** Where the next query starts once the first `n` orphans above `after` are collected. */
  ghost function ResumeKey(orphans: seq<ItemKey>, n: nat, after: Option<ItemKey>): Option<ItemKey>
    requires n <= |orphans|
  {
    if n == 0 then after else Some(orphans[n - 1])
  }

  lemma OrphansAreSameAbove(contents: Contents, now: Contents, run: RunId, after: Option<ItemKey>)
    requires SameAbove(now, contents, after)
    ensures Above(Orphans(now, run), after) == Above(Orphans(contents, run), after)
  {
  }

  lemma AboveTwice(keys: set<ItemKey>, after: Option<ItemKey>, further: ItemKey)
    requires further in Above(keys, after)
    ensures Above(Above(keys, after), Some(further)) == Above(keys, Some(further))
  {
  }

  lemma TailTake<T>(s: seq<T>, n: nat, m: nat)
    requires n + m <= |s|
    ensures s[n..][..m] == s[n..n + m]
  {
  }

  /** The next query continues exactly where the collected orphans end. */
  lemma NextOrphans(contents: Contents, now: Contents, run: RunId, after: Option<ItemKey>, n: nat)
    requires SameAbove(now, contents, after) && n <= |OrphansAbove(contents, run, after)|
    ensures var orphans := OrphansAbove(contents, run, after);
      Sorted(Above(Orphans(now, run), ResumeKey(orphans, n, after))) == orphans[n..]
  {
    OrphansAreSameAbove(contents, now, run, after);
    var above := Above(Orphans(contents, run), after);
    var orphans := Sorted(above);
    hide Above, Orphans, SameAbove;
    if n > 0 {
      var last := orphans[n - 1];
      assert last in orphans;
      SortedRest(above, n);
      AboveTwice(Orphans(now, run), after, last);
    }
  }

  lemma NextPage(contents: Contents, now: Contents, run: RunId, after: Option<ItemKey>, n: nat, limit: nat)
    requires SameAbove(now, contents, after) && n <= |OrphansAbove(contents, run, after)|
    ensures var orphans := OrphansAbove(contents, run, after);
      Page(Orphans(now, run), ResumeKey(orphans, n, after), limit) == orphans[n..n + Minimum(limit, |orphans| - n)]
  {
    hide Sorted, Above, Orphans, SameAbove, OrphansAbove, Page, ResumeKey;
    var orphans := OrphansAbove(contents, run, after);
    NextOrphans(contents, now, run, after, n);
    PageOf(Orphans(now, run), ResumeKey(orphans, n, after), limit, orphans[n..]);
    TailTake(orphans, n, Minimum(limit, |orphans| - n));
  }

  lemma PageOf(keys: set<ItemKey>, after: Option<ItemKey>, limit: nat, sorted: seq<ItemKey>)
    requires Sorted(Above(keys, after)) == sorted
    ensures Page(keys, after, limit) == sorted[..Minimum(limit, |sorted|)]
  {
  }

  /** Candidates so far: the first orphans above `after`, and the key reached. */
  ghost predicate Collected(contents: Contents, orphans: seq<ItemKey>, candidates: seq<Found>,
                            lastKey: Option<ItemKey>, after: Option<ItemKey>)
  {
    && (forall k :: k in orphans ==> k in contents)
    && |candidates| <= |orphans|
    && candidates == ItemsAt(contents, orphans[..|candidates|])
    && lastKey == ResumeKey(orphans, |candidates|, after)
  }

  lemma CollectOneMore(contents: Contents, now: Contents, run: RunId, after: Option<ItemKey>, candidates: seq<Found>,
                       lastKey: Option<ItemKey>, page: seq<ItemKey>, limit: nat)
    requires SameAbove(now, contents, after) && limit > 0 && page == Page(Orphans(now, run), lastKey, limit)
    requires Collected(contents, OrphansAbove(contents, run, after), candidates, lastKey, after)
    ensures var orphans := OrphansAbove(contents, run, after);
      && |page| <= limit && |candidates| + |page| <= |orphans|
      && page == orphans[|candidates|..|candidates| + |page|]
      && (forall k :: k in page ==> k in now && k in Orphans(now, run) && k in contents && now[k] == contents[k])
      && Collected(contents, orphans, candidates + ItemsAt(now, page),
                   if page == [] then lastKey else Some(page[|page| - 1]), after)
      && (|page| < limit ==> |candidates| + |page| == |orphans|)
      && (page != [] ==> lastKey != Some(page[|page| - 1]))
  {
    var orphans, c := OrphansAbove(contents, run, after), |candidates|;
    NextPage(contents, now, run, after, c, limit);
    PageMovesOn(Orphans(now, run), lastKey, limit);
    hide SameAbove, Orphans, Above, Page, OrphansAbove, Sorted;
    forall k | k in page ensures k in now && k in Orphans(now, run) && k in contents && now[k] == contents[k] {
      assert k in orphans;
      OrphanIsSame(contents, now, run, after, k);
    }
    CollectedAppends(contents, now, orphans, candidates, lastKey, page, after);
  }

  lemma PageMovesOn(keys: set<ItemKey>, after: Option<ItemKey>, limit: nat)
    ensures var page := Page(keys, after, limit); page != [] ==> after != Some(page[|page| - 1])
  {
    PageFacts(keys, after, limit);
    hide Page;
    var page := Page(keys, after, limit);
    assert page != [] ==> page[|page| - 1] in page;
  }

  lemma OrphanIsSame(contents: Contents, now: Contents, run: RunId, after: Option<ItemKey>, k: ItemKey)
    requires SameAbove(now, contents, after) && k in OrphansAbove(contents, run, after)
    ensures k in now && k in Orphans(now, run) && k in contents && now[k] == contents[k]
  {
    assert k in Above(Orphans(contents, run), after);
  }

  lemma CollectedAppends(contents: Contents, now: Contents, orphans: seq<ItemKey>, candidates: seq<Found>,
                         lastKey: Option<ItemKey>, page: seq<ItemKey>, after: Option<ItemKey>)
    requires Collected(contents, orphans, candidates, lastKey, after)
    requires |candidates| + |page| <= |orphans| && page == orphans[|candidates|..|candidates| + |page|]
    requires forall k :: k in page ==> k in now && k in contents && now[k] == contents[k]
    ensures Collected(contents, orphans, candidates + ItemsAt(now, page),
                      if page == [] then lastKey else Some(page[|page| - 1]), after)
  {
    var c := |candidates|;
    assert orphans[..c] + page == orphans[..c + |page|];
    assert forall k :: k in orphans[..c] ==> k in orphans;
    ItemsJoin(contents, now, orphans[..c], page);
  }

  lemma ItemsJoin(contents: Contents, now: Contents, a: seq<ItemKey>, b: seq<ItemKey>)
    requires forall k :: k in a ==> k in contents
    requires forall k :: k in b ==> k in now && k in contents && now[k] == contents[k]
    ensures forall k :: k in a + b ==> k in contents
    ensures ItemsAt(contents, a) + ItemsAt(now, b) == ItemsAt(contents, a + b)
  {
    forall i | 0 <= i < |b| ensures ItemsAt(now, b)[i] == Found(b[i], contents[b[i]]) {
      assert b[i] in b;
    }
  }

  /** The provider already leaves seen items out of the page. */
  method KeepOrphans(states: seq<Found>, run: RunId) returns (kept: seq<Found>)
    ensures (forall i :: 0 <= i < |states| ==> states[i].item.lastInventory != Some(run)) ==> kept == states
  {
    kept := [];
    for i := 0 to |states|
      invariant (forall j :: 0 <= j < i ==> states[j].item.lastInventory != Some(run)) ==> kept == states[..i]
    {
      if states[i].item.lastInventory != Some(run) {
        kept := kept + [states[i]];
      }
    }
  }

  lemma OrphansAreKept(now: Contents, run: RunId, page: seq<ItemKey>)
    requires forall k :: k in page ==> k in now && k in Orphans(now, run)
    ensures forall i :: 0 <= i < |page| ==> ItemsAt(now, page)[i].item.lastInventory != Some(run)
  {
    forall i | 0 <= i < |page| ensures ItemsAt(now, page)[i].item.lastInventory != Some(run) {
      assert page[i] in page;
    }
  }

  lemma CollectedIsPage(contents: Contents, run: RunId, after: Option<ItemKey>, candidates: seq<Found>,
                        lastKey: Option<ItemKey>, limit: nat)
    requires limit > 0
    requires Collected(contents, OrphansAbove(contents, run, after), candidates, lastKey, after)
    requires |candidates| == Minimum(limit + 1, |OrphansAbove(contents, run, after)|)
    ensures var items := candidates[..Minimum(limit, |candidates|)];
      OrphansPage(contents, run, after, limit) ==
      OrphanPage(items, if |items| > 0 && |candidates| > |items| then Some(items[|items| - 1].key) else None)
  {
    hide Sorted, Above, Orphans, OrphansAbove;
    var orphans := OrphansAbove(contents, run, after);
    var items := candidates[..Minimum(limit, |candidates|)];
    assert orphans[..Minimum(limit, |orphans|)] == orphans[..|candidates|][..|items|];
    assert items == ItemsAt(contents, orphans[..Minimum(limit, |orphans|)]);
  }

  /** The first `n` of the keys have records that decode. */
  ghost predicate Decode(contents: Contents, keys: seq<ItemKey>, n: nat) {
    forall i :: 0 <= i < n && i < |keys| ==> keys[i] in contents && contents[keys[i]].decodes
  }

  lemma DecodeOneMore(contents: Contents, now: Contents, orphans: seq<ItemKey>, c: nat, page: seq<ItemKey>)
    requires Decode(contents, orphans, c) && c + |page| <= |orphans| && page == orphans[c..c + |page|]
    requires forall k :: k in page ==> k in now && k in contents && now[k] == contents[k]
    ensures Decode(contents, orphans, c + |page|) <==> forall k :: k in page ==> now[k].decodes
  {
    assert forall j :: 0 <= j < |page| ==> page[j] == orphans[c + j] && page[j] in page;
  }

  lemma DecodeFewer(contents: Contents, keys: seq<ItemKey>, n: nat, m: nat)
    requires n <= m && !Decode(contents, keys, n)
    ensures !Decode(contents, keys, m)
  {
  }

  lemma DecodeUpTo(contents: Contents, keys: seq<ItemKey>, n: nat)
    ensures Decode(contents, keys, Minimum(n, |keys|)) <==> Decode(contents, keys, n)
  {
  }

  /** One query for orphans: the candidates with its page added, or the record that does not decode. */
  method QueryOrphans(ghost contents: Contents, now: Contents, run: RunId, ghost after: Option<ItemKey>,
                      candidates: seq<Found>, lastKey: Option<ItemKey>, limit: nat)
    returns (r: Result<seq<Found>, ListError>, page: seq<ItemKey>)
    requires SameAbove(now, contents, after) && limit > 0
    requires Collected(contents, OrphansAbove(contents, run, after), candidates, lastKey, after)
    requires Decode(contents, OrphansAbove(contents, run, after), |candidates|)
    ensures var orphans := OrphansAbove(contents, run, after);
      && |page| <= limit && |candidates| + |page| <= |orphans|
      && (|page| < limit ==> |candidates| + |page| == |orphans|)
      && (page != [] ==> lastKey != Some(page[|page| - 1]))
      && (r.Ok? <==> Decode(contents, orphans, |candidates| + |page|))
      && (r.Ok? ==> |r.value| == |candidates| + |page|
                    && Collected(contents, orphans, r.value, if page == [] then lastKey else Some(page[|page| - 1]), after))
    ensures r.Err? ==> r.error.key in now && !now[r.error.key].decodes
  {
    hide Page, SameAbove, Sorted, Orphans, Collected, OrphansAbove, Above, Decode;
    page := Page(Orphans(now, run), lastKey, limit);
    CollectOneMore(contents, now, run, after, candidates, lastKey, page, limit);
    DecodeOneMore(contents, now, OrphansAbove(contents, run, after), |candidates|, page);
    r := QueryItemStatePage(now, page);
    if r.Ok? {
      OrphansAreKept(now, run, page);
      var kept := KeepOrphans(r.value, run);
      r := Ok(candidates + kept);
    }
  }

  lemma NothingCollected(contents: Contents, run: RunId, after: Option<ItemKey>)
    ensures Collected(contents, OrphansAbove(contents, run, after), [], after, after)
    ensures Decode(contents, OrphansAbove(contents, run, after), 0)
  {
  }

  /**
   * One page of orphans. Between queries other clients may change anything at or below `after`,
   * which is where the items of earlier pages are.
   */
  method ListOrphanItemStates(store: Store, run: RunId, after: Option<ItemKey>, limit: real, pageSize: nat)
    returns (r: Result<OrphanPage, ListError>)
    requires 1 <= pageSize <= MAX_PAGE_SIZE
    requires forall t: nat :: SameAbove(store(t), store(0), after)
    ensures r.Ok? <==>
      LimitOf(limit) == 0 || Decode(store(0), OrphansAbove(store(0), run, after), LimitOf(limit) + 1)
    ensures r.Ok? ==> r.value == OrphansPage(store(0), run, after, LimitOf(limit))
    ensures r.Err? ==> exists t: nat :: r.error.key in store(t) && !store(t)[r.error.key].decodes
  {
    var count := LimitOf(limit);
    if count == 0 {
      return Ok(OrphanPage([], None));
    }
    ghost var contents := store(0);
    ghost var orphans := OrphansAbove(contents, run, after);
    NothingCollected(contents, run, after);
    hide SameAbove, Collected, OrphansPage, OrphansAbove, Decode;
    var candidates: seq<Found> := [];
    var lastKey, n := after, 0;
    ghost var reached := after;
    while |candidates| < count + 1
      invariant |candidates| <= Minimum(count + 1, |orphans|)
      invariant Collected(contents, orphans, candidates, reached, after) && reached == lastKey
      invariant Decode(contents, orphans, |candidates|)
      decreases count + 1 - |candidates|
    {
      var queryLimit := Minimum(pageSize, count + 1 - |candidates|);
      var queried, page := QueryOrphans(contents, store(n), run, after, candidates, lastKey, queryLimit);
      n := n + 1;
      if queried.Err? {
        DecodeFewer(contents, orphans, |candidates| + |page|, count + 1);
        return Err(queried.error);
      }
      candidates := queried.value;
      reached := if page == [] then lastKey else Some(page[|page| - 1]);
      if |page| < queryLimit || |page| == 0 || lastKey == Some(page[|page| - 1]) {
        assert |page| < queryLimit;
        break;
      }
      lastKey := Some(page[|page| - 1]);
    }
    var items := candidates[..Minimum(count, |candidates|)];
    CollectedIsPage(contents, run, after, candidates, reached, count);
    DecodeUpTo(contents, orphans, count + 1);
    r := Ok(OrphanPage(items, if |items| > 0 && |candidates| > |items| then Some(items[|items| - 1].key) else None));
  }

  // ---------- A chain of pages ----------

  /**
   * `stores(m)` is what queries see once `m` items have been returned: other clients changed only
   * records at or below the last of them, as reconciling and deleting returned items does.
   */
  ghost predicate OnlyReturnedChanged(contents: Contents, stores: nat -> Store, run: RunId) {
    forall m: nat, t: nat :: m <= |OrphansAbove(contents, run, None)| ==>
      SameAbove(stores(m)(t), contents, ResumeKey(OrphansAbove(contents, run, None), m, None))
  }

  lemma PageOfChain(contents: Contents, now: Contents, run: RunId, m: nat, limit: nat)
    requires m <= |OrphansAbove(contents, run, None)|
    requires SameAbove(now, contents, ResumeKey(OrphansAbove(contents, run, None), m, None))
    requires forall k :: k in OrphansAbove(contents, run, None) ==> k in contents
    ensures var orphans := OrphansAbove(contents, run, None);
      var n := Minimum(limit, |orphans| - m);
      OrphansPage(now, run, ResumeKey(orphans, m, None), limit) ==
      OrphanPage(ItemsAt(contents, orphans[m..m + n]),
                 if 0 < limit < |orphans| - m then ResumeKey(orphans, m + n, None) else None)
  {
    hide OrphansAbove, SameAbove, OrphansPage, Sorted, Above, Orphans;
    var orphans := OrphansAbove(contents, run, None);
    TailOfChain(contents, now, run, m);
    PageOfTail(contents, now, run, ResumeKey(orphans, m, None), orphans, m, limit);
  }

  lemma PageOfTail(contents: Contents, now: Contents, run: RunId, after: Option<ItemKey>, orphans: seq<ItemKey>,
                   m: nat, limit: nat)
    requires m <= |orphans| && OrphansAbove(now, run, after) == orphans[m..]
    requires forall k :: k in orphans ==> k in contents
    requires forall k :: k in orphans[m..] ==> k in now && now[k] == contents[k]
    ensures var n := Minimum(limit, |orphans| - m);
      OrphansPage(now, run, after, limit) ==
      OrphanPage(ItemsAt(contents, orphans[m..m + n]),
                 if 0 < limit < |orphans| - m then ResumeKey(orphans, m + n, None) else None)
  {
    hide OrphansAbove, OrphansPage, ItemsAt;
    var tail, n := orphans[m..], Minimum(limit, |orphans| - m);
    OrphansPageOf(now, run, after, limit, tail);
    SameItems(contents, now, tail, n);
    TailTake(orphans, m, n);
  }

  lemma OrphansPageOf(now: Contents, run: RunId, after: Option<ItemKey>, limit: nat, tail: seq<ItemKey>)
    requires OrphansAbove(now, run, after) == tail && forall k :: k in tail ==> k in now
    ensures forall k :: k in tail[..Minimum(limit, |tail|)] ==> k in now
    ensures OrphansPage(now, run, after, limit) ==
      OrphanPage(ItemsAt(now, tail[..Minimum(limit, |tail|)]), if 0 < limit < |tail| then Some(tail[limit - 1]) else None)
  {
    hide OrphansAbove;
  }

  lemma SameItems(contents: Contents, now: Contents, keys: seq<ItemKey>, n: nat)
    requires n <= |keys| && forall k :: k in keys ==> k in now && k in contents && now[k] == contents[k]
    ensures (forall k :: k in keys[..n] ==> k in keys)
    ensures ItemsAt(now, keys[..n]) == ItemsAt(contents, keys[..n])
  {
    forall i | 0 <= i < n ensures now[keys[..n][i]] == contents[keys[..n][i]] {
      assert keys[i] in keys;
    }
  }

  /** What is still to be returned is unchanged. */
  lemma TailOfChain(contents: Contents, now: Contents, run: RunId, m: nat)
    requires m <= |OrphansAbove(contents, run, None)|
    requires SameAbove(now, contents, ResumeKey(OrphansAbove(contents, run, None), m, None))
    ensures var orphans := OrphansAbove(contents, run, None);
      && OrphansAbove(now, run, ResumeKey(orphans, m, None)) == orphans[m..]
      && forall k :: k in orphans[m..] ==> k in now && k in contents && now[k] == contents[k]
  {
    var orphans := OrphansAbove(contents, run, None);
    var after := ResumeKey(orphans, m, None);
    SameAsItself(contents);
    NextOrphans(contents, contents, run, None, m);
    OrphansAreSameAbove(contents, now, run, after);
    forall k | k in orphans[m..] ensures k in now && k in contents && now[k] == contents[k] {
      OrphanIsSame(contents, now, run, after, k);
    }
  }

  ghost predicate AllDecode(contents: Contents, keys: seq<ItemKey>) {
    forall k :: k in keys ==> k in contents && contents[k].decodes
  }

  lemma DecodeIsAll(contents: Contents, keys: seq<ItemKey>)
    ensures Decode(contents, keys, |keys|) <==> AllDecode(contents, keys)
  {
    assert forall i :: 0 <= i < |keys| ==> keys[i] in keys;
  }

  lemma NotAllDecode(contents: Contents, keys: seq<ItemKey>, n: nat)
    requires !Decode(contents, keys, n)
    ensures !AllDecode(contents, keys)
  {
    assert forall i :: 0 <= i < |keys| ==> keys[i] in keys;
  }

  lemma NoneToDecode(contents: Contents, keys: seq<ItemKey>)
    ensures Decode(contents, keys, 0)
  {
  }

  lemma DecodeFirst(contents: Contents, keys: seq<ItemKey>, m: nat, limit: nat)
    requires Decode(contents, keys, m) && (limit == 0 || Decode(contents, keys, m + limit + 1)) && m <= |keys|
    ensures Decode(contents, keys, m + Minimum(limit, |keys| - m))
  {
  }

  /** A page of the chain decodes exactly when the initial orphans it queries do. */
  lemma PageDecodes(contents: Contents, now: Contents, run: RunId, m: nat, n: nat)
    requires m <= |OrphansAbove(contents, run, None)|
    requires SameAbove(now, contents, ResumeKey(OrphansAbove(contents, run, None), m, None))
    requires Decode(contents, OrphansAbove(contents, run, None), m)
    ensures var orphans := OrphansAbove(contents, run, None);
      Decode(now, OrphansAbove(now, run, ResumeKey(orphans, m, None)), n) <==> Decode(contents, orphans, m + n)
  {
    hide OrphansAbove, SameAbove;
    TailOfChain(contents, now, run, m);
    TailDecodes(contents, now, OrphansAbove(contents, run, None), m, n);
  }

  lemma TailDecodes(contents: Contents, now: Contents, orphans: seq<ItemKey>, m: nat, n: nat)
    requires m <= |orphans| && Decode(contents, orphans, m)
    requires forall k :: k in orphans[m..] ==> k in now && k in contents && now[k] == contents[k]
    ensures Decode(now, orphans[m..], n) <==> Decode(contents, orphans, m + n)
  {
    var tail := orphans[m..];
    assert forall i :: m <= i < |orphans| ==> orphans[i] == tail[i - m] && tail[i - m] in tail;
  }

  lemma ContentsOfOrphans(contents: Contents, run: RunId, after: Option<ItemKey>)
    ensures forall k :: k in OrphansAbove(contents, run, after) ==> k in contents
  {
  }

  lemma SameAsItself(contents: Contents)
    ensures SameAbove(contents, contents, None)
  {
  }

  /** The first orphans of the chain, all of which decode, and where to go on. */
  ghost predicate Chained(contents: Contents, orphans: seq<ItemKey>, all: seq<Found>, after: Option<ItemKey>, limit: nat) {
    && |all| <= |orphans| && after == ResumeKey(orphans, |all|, None)
    && (forall k :: k in orphans ==> k in contents) && all == ItemsAt(contents, orphans[..|all|])
    && (limit == 0 ==> all == []) && Decode(contents, orphans, |all|)
  }

  lemma ChainBegins(contents: Contents, orphans: seq<ItemKey>, limit: nat)
    requires forall k :: k in orphans ==> k in contents
    ensures Chained(contents, orphans, [], None, limit)
  {
    NoneToDecode(contents, orphans);
    hide Decode;
  }

  lemma ChainedFacts(contents: Contents, orphans: seq<ItemKey>, all: seq<Found>, after: Option<ItemKey>, limit: nat)
    requires Chained(contents, orphans, all, after, limit)
    ensures |all| <= |orphans| && after == ResumeKey(orphans, |all|, None) && Decode(contents, orphans, |all|)
  {
    hide ResumeKey, Decode;
  }

  /** The page that `ListChainPage` returns from here goes on with the chain or ends it. */
  lemma ChainGrows(contents: Contents, orphans: seq<ItemKey>, all: seq<Found>, after: Option<ItemKey>, limit: nat,
                   page: OrphanPage)
    requires Chained(contents, orphans, all, after, limit)
    requires var n := Minimum(limit, |orphans| - |all|);
      && Decode(contents, orphans, |all| + n)
      && page == OrphanPage(ItemsAt(contents, orphans[|all|..|all| + n]),
                            if 0 < limit < |orphans| - |all| then ResumeKey(orphans, |all| + n, None) else None)
    ensures |all| + |page.items| <= |orphans|
    ensures page.nextAfter.Some? ==> page.items != [] && Chained(contents, orphans, all + page.items, page.nextAfter, limit)
    ensures page.nextAfter.None? ==>
      && (all + page.items == ItemsAt(contents, orphans) <==> limit > 0 || orphans == [])
      && (limit == 0 || AllDecode(contents, orphans))
  {
    var n := Minimum(limit, |orphans| - |all|);
    ItemsPrefix(contents, orphans, |all|, n);
    DecodeIsAll(contents, orphans);
    assert orphans[..|orphans|] == orphans;
    hide Decode, AllDecode;
  }

  /** One page of the chain: the next orphans after the first `m`, and where to go on. */
  method ListChainPage(contents: Contents, stores: nat -> Store, run: RunId, after: Option<ItemKey>, limit: real,
                       pageSize: nat, m: nat)
    returns (r: Result<OrphanPage, ListError>)
    requires 1 <= pageSize <= MAX_PAGE_SIZE && OnlyReturnedChanged(contents, stores, run)
    requires m <= |OrphansAbove(contents, run, None)| && after == ResumeKey(OrphansAbove(contents, run, None), m, None)
    requires Decode(contents, OrphansAbove(contents, run, None), m)
    requires forall k :: k in OrphansAbove(contents, run, None) ==> k in contents
    ensures r.Ok? <==> LimitOf(limit) == 0 || Decode(contents, OrphansAbove(contents, run, None), m + LimitOf(limit) + 1)
    ensures r.Ok? ==>
      var orphans := OrphansAbove(contents, run, None);
      var n := Minimum(LimitOf(limit), |orphans| - m);
      && Decode(contents, orphans, m + n)
      && r.value == OrphanPage(ItemsAt(contents, orphans[m..m + n]),
                               if 0 < LimitOf(limit) < |orphans| - m then ResumeKey(orphans, m + n, None) else None)
  {
    ghost var orphans := OrphansAbove(contents, run, None);
    hide OrphansAbove, SameAbove, OrphansPage, Decode, ResumeKey, OnlyReturnedChanged;
    ChainIsSteady(contents, stores, run, m);
    PageOfChain(contents, stores(m)(0), run, m, LimitOf(limit));
    PageDecodes(contents, stores(m)(0), run, m, LimitOf(limit) + 1);
    r := ListOrphanItemStates(stores(m), run, after, limit, pageSize);
    if r.Ok? {
      DecodeFirst(contents, orphans, m, LimitOf(limit));
    }
  }

  /**
   * Following page after page returns each initial orphan exactly once, in key order, unless the
   * limit is below one: then the first page is empty and says that there are no more. It fails exactly
   * when some initial orphan does not decode and a page is queried at all.
   */
  method CollectOrphans(contents: Contents, stores: nat -> Store, run: RunId, limit: real, pageSize: nat)
    returns (r: Result<seq<Found>, ListError>)
    requires 1 <= pageSize <= MAX_PAGE_SIZE && OnlyReturnedChanged(contents, stores, run)
    ensures r.Ok? <==> LimitOf(limit) == 0 || AllDecode(contents, OrphansAbove(contents, run, None))
    ensures r.Ok? ==>
      && (forall k :: k in OrphansAbove(contents, run, None) ==> k in contents)
      && (r.value == ItemsAt(contents, OrphansAbove(contents, run, None)) <==>
            LimitOf(limit) > 0 || OrphansAbove(contents, run, None) == [])
  {
    ghost var orphans := OrphansAbove(contents, run, None);
    ContentsOfOrphans(contents, run, None);
    hide *;
    ChainBegins(contents, orphans, LimitOf(limit));
    var all: seq<Found> := [];
    var after: Option<ItemKey> := None;
    while true
      invariant Chained(contents, orphans, all, after, LimitOf(limit)) && |all| <= |orphans|
      decreases |orphans| - |all|
    {
      ChainedFacts(contents, orphans, all, after, LimitOf(limit));
      var listed := ListChainPage(contents, stores, run, after, limit, pageSize, |all|);
      if listed.Err? {
        NotAllDecode(contents, orphans, |all| + LimitOf(limit) + 1);
        return Err(listed.error);
      }
      ChainGrows(contents, orphans, all, after, LimitOf(limit), listed.value);
      all := all + listed.value.items;
      if listed.value.nextAfter.None? {
        break;
      }
      after := listed.value.nextAfter;
    }
    r := Ok(all);
  }

  lemma ChainIsSteady(contents: Contents, stores: nat -> Store, run: RunId, m: nat)
    requires OnlyReturnedChanged(contents, stores, run) && m <= |OrphansAbove(contents, run, None)|
    ensures var after := ResumeKey(OrphansAbove(contents, run, None), m, None);
      SameAbove(stores(m)(0), contents, after) && forall t: nat :: SameAbove(stores(m)(t), stores(m)(0), after)
  {
    hide OrphansAbove;
    var after := ResumeKey(OrphansAbove(contents, run, None), m, None);
    assert SameAbove(stores(m)(0), contents, after);
    forall t: nat ensures SameAbove(stores(m)(t), stores(m)(0), after) {
      assert SameAbove(stores(m)(t), contents, after);
    }
  }

  lemma ItemsPrefix(contents: Contents, orphans: seq<ItemKey>, m: nat, n: nat)
    requires m + n <= |orphans| && forall k :: k in orphans ==> k in contents
    ensures ItemsAt(contents, orphans[..m]) + ItemsAt(contents, orphans[m..m + n]) == ItemsAt(contents, orphans[..m + n])
  {
    assert orphans[..m] + orphans[m..m + n] == orphans[..m + n];
    ItemsJoin(contents, contents, orphans[..m], orphans[m..m + n]);
  }
}
