/** Counting a definition's item records by status, four keyset-paged queries in lock-step. */
module ItemSummary {
  import opened Basics
  import opened ItemListing

  datatype StatusPage = StatusPage(status: ItemStatus, after: Option<ItemKey>)

  /** One status of one response: the count the provider claims and the keys it lists. */
  datatype PageResult = PageResult(count: nat, keys: seq<ItemKey>)

  /** A response without GraphQL errors; `invalid` answers whether some record has bad metadata. */
  datatype Response = Response(pages: map<ItemStatus, PageResult>, invalid: Option<bool>)

  datatype SummaryError =
    | RequestFailed | MissingMetadata | InvalidMetadata
    | InvalidPage(status: ItemStatus) | NonAdvancingPage(status: ItemStatus)

  type Summary = map<ItemStatus, nat>

  /** What the query of round `n` is answered with; None when the request fails. */
  type Provider = (nat, seq<StatusPage>) -> Option<Response>

  function LastOf(keys: seq<ItemKey>, after: Option<ItemKey>): Option<ItemKey> {
    if keys == [] then after else Some(keys[|keys| - 1])
  }

  function PageIn(response: Response, s: ItemStatus): Option<PageResult> {
    if s in response.pages then Some(response.pages[s]) else None
  }

  ghost predicate GoodPage(page: StatusPage, result: Option<PageResult>, limit: nat) {
    && result.Some? && result.value.count == |result.value.keys| <= limit
    && Ascending(result.value.keys)
    && forall k :: k in result.value.keys ==> page.after.None? || Less(page.after.value, k)
  }

  ghost predicate GoodPages(pending: seq<StatusPage>, response: Response, limit: nat) {
    forall i :: 0 <= i < |pending| ==> GoodPage(pending[i], PageIn(response, pending[i].status), limit)
  }

  method ValidatePage(page: StatusPage, result: Option<PageResult>, limit: nat)
    returns (r: Result<(nat, Option<ItemKey>), SummaryError>)
    ensures r.Ok? <==> GoodPage(page, result, limit)
    ensures r.Ok? ==> r.value == (|result.value.keys|, LastOf(result.value.keys, page.after))
  {
    if result.None? || result.value.count != |result.value.keys| || result.value.count > limit {
      return Err(InvalidPage(page.status));
    }
    var keys := result.value.keys;
    var lastKey := page.after;
    for i := 0 to |keys|
      invariant lastKey == LastOf(keys[..i], page.after)
      invariant forall a, b :: 0 <= a < b < i ==> Less(keys[a], keys[b])
      invariant forall a :: 0 <= a < i ==> page.after.None? || Less(page.after.value, keys[a])
    {
      if lastKey.Some? && !Less(lastKey.value, keys[i]) {
        if i > 0 {
          assert !Less(keys[i - 1], keys[i]);
        } else {
          assert keys[0] in keys;
        }
        return Err(NonAdvancingPage(page.status));
      }
      lastKey := Some(keys[i]);
    }
    assert keys[..|keys|] == keys;
    r := Ok((|keys|, lastKey));
  }

  // ---------- What has been counted ----------

  /** `seen` lists, for each status, the keys counted so far. */
  ghost predicate Tallied(summary: Summary, seen: map<ItemStatus, seq<ItemKey>>) {
    forall s: ItemStatus :: s in summary && s in seen && |seen[s]| == summary[s] && Ascending(seen[s])
  }

  /** Each pending status has counted `n` keys and goes on after the last of them. */
  ghost predicate Waiting(pending: seq<StatusPage>, seen: map<ItemStatus, seq<ItemKey>>, n: nat) {
    && (forall i, j :: 0 <= i < j < |pending| ==> pending[i].status != pending[j].status)
    && forall i :: 0 <= i < |pending| ==> WaitsAt(pending[i], seen, n)
  }

  ghost predicate WaitsAt(page: StatusPage, seen: map<ItemStatus, seq<ItemKey>>, n: nat) {
    page.status in seen && |seen[page.status]| == n && page.after == LastOf(seen[page.status], None)
  }

  ghost predicate IsPending(pending: seq<StatusPage>, s: ItemStatus) {
    exists i :: 0 <= i < |pending| && pending[i].status == s
  }

  // ---------- A store that does not change ----------

  predicate ValidItem(item: Item) {
    item.supported && item.indexStatus == Some(item.stateStatus)
  }

  ghost predicate AllValid(contents: Contents) {
    forall k :: k in contents ==> ValidItem(contents[k])
  }

  ghost function WithStatus(contents: Contents, s: ItemStatus): set<ItemKey> {
    set k | k in contents && contents[k].indexStatus == Some(s)
  }

  ghost function KeysWith(contents: Contents, s: ItemStatus): seq<ItemKey> {
    Sorted(WithStatus(contents, s))
  }

  ghost predicate Answers(contents: Contents, pageSize: nat, page: StatusPage, result: PageResult) {
    result.keys == Page(WithStatus(contents, page.status), page.after, pageSize) && result.count == |result.keys|
  }

  /** A query asks for at most one page of each status. */
  ghost predicate OnePageEach(pending: seq<StatusPage>) {
    forall i, j :: 0 <= i < j < |pending| ==> pending[i].status != pending[j].status
  }

  ghost predicate RoundConforms(contents: Contents, pageSize: nat, pending: seq<StatusPage>, response: Response) {
    forall i :: 0 <= i < |pending| ==>
      && pending[i].status in response.pages
      && Answers(contents, pageSize, pending[i], response.pages[pending[i].status])
  }

  ghost predicate AnsweredFrom(contents: Contents, pageSize: nat, pending: seq<StatusPage>, answer: Option<Response>) {
    && answer.Some? && answer.value.invalid == Some(!AllValid(contents))
    && RoundConforms(contents, pageSize, pending, answer.value)
  }

  /** The provider answers every query from the same contents. */
  ghost predicate Conforms(provider: Provider, contents: Contents, pageSize: nat) {
    forall n, pending: seq<StatusPage> :: OnePageEach(pending) ==>
      AnsweredFrom(contents, pageSize, pending, provider(n, pending))
  }

  ghost function PageOfStatus(contents: Contents, pageSize: nat, pending: seq<StatusPage>, s: ItemStatus): PageResult
    requires IsPending(pending, s)
  {
    var i :| 0 <= i < |pending| && pending[i].status == s;
    var keys := Page(WithStatus(contents, s), pending[i].after, pageSize);
    PageResult(|keys|, keys)
  }

  ghost function ResponseFrom(contents: Contents, pageSize: nat, pending: seq<StatusPage>): Response {
    Response(map s: ItemStatus | IsPending(pending, s) :: PageOfStatus(contents, pageSize, pending, s),
             Some(!AllValid(contents)))
  }

  /** Every contents has a provider that answers from it and lists only its keys. */
  lemma SomeProviderConforms(contents: Contents, pageSize: nat) returns (provider: Provider)
    ensures Conforms(provider, contents, pageSize) && ListsFrom(provider, contents.Keys)
  {
    provider := (n, pending) => Some(ResponseFrom(contents, pageSize, pending));
    forall n, pending: seq<StatusPage> | OnePageEach(pending)
      ensures AnsweredFrom(contents, pageSize, pending, provider(n, pending))
    {
      ResponseIsFrom(contents, pageSize, pending);
    }
    forall n, pending: seq<StatusPage> ensures KeysAreFrom(provider(n, pending).value, contents.Keys) {
      ResponseKeys(contents, pageSize, pending);
    }
  }

  lemma ResponseIsFrom(contents: Contents, pageSize: nat, pending: seq<StatusPage>)
    requires OnePageEach(pending)
    ensures AnsweredFrom(contents, pageSize, pending, Some(ResponseFrom(contents, pageSize, pending)))
  {
    hide Page, WithStatus, AllValid;
    forall i | 0 <= i < |pending|
      ensures IsPending(pending, pending[i].status)
      ensures Answers(contents, pageSize, pending[i], PageOfStatus(contents, pageSize, pending, pending[i].status))
    {
    }
  }

  lemma ResponseKeys(contents: Contents, pageSize: nat, pending: seq<StatusPage>)
    ensures KeysAreFrom(ResponseFrom(contents, pageSize, pending), contents.Keys)
  {
    hide Page, AllValid;
    forall s | IsPending(pending, s)
      ensures forall k :: k in PageOfStatus(contents, pageSize, pending, s).keys ==> k in contents
    {
      var i :| 0 <= i < |pending| && pending[i].status == s
        && PageOfStatus(contents, pageSize, pending, s).keys == Page(WithStatus(contents, s), pending[i].after, pageSize);
      PageFacts(WithStatus(contents, s), pending[i].after, pageSize);
    }
  }

  /** One status of an unchanging store: `n` keys counted while pending, otherwise all of them, fewer than `n`. */
  ghost predicate Follows(contents: Contents, keys: seq<ItemKey>, s: ItemStatus, n: nat, pending: bool) {
    if pending then n <= |KeysWith(contents, s)| && keys == KeysWith(contents, s)[..n]
    else keys == KeysWith(contents, s) && |keys| < n
  }

  ghost predicate AllFollow(contents: Contents, seen: map<ItemStatus, seq<ItemKey>>, n: nat, pending: seq<StatusPage>) {
    forall s: ItemStatus :: s in seen && Follows(contents, seen[s], s, n, IsPending(pending, s))
  }

  lemma RestAfter(keys: set<ItemKey>, after: Option<ItemKey>, n: nat)
    requires n <= |Sorted(keys)| && after == LastOf(Sorted(keys)[..n], None)
    ensures Sorted(Above(keys, after)) == Sorted(keys)[n..]
  {
    if n > 0 {
      SortedRest(keys, n);
    } else {
      assert Above(keys, None) == keys;
    }
  }

  /** The page after the first `n` keys. */
  lemma PageAfter(keys: set<ItemKey>, after: Option<ItemKey>, n: nat, limit: nat)
    requires n <= |Sorted(keys)| && after == LastOf(Sorted(keys)[..n], None)
    ensures Page(keys, after, limit) == Sorted(keys)[n..n + Minimum(limit, |Sorted(keys)| - n)]
  {
    hide Sorted, Above, Page, LastOf;
    RestAfter(keys, after, n);
    PageOf(keys, after, limit, Sorted(keys)[n..]);
    TailTake(Sorted(keys), n, Minimum(limit, |Sorted(keys)| - n));
  }

  /** The next page of a conforming provider continues the list and is short only at its end. */
  lemma ConformingPage(contents: Contents, pageSize: nat, page: StatusPage, result: PageResult, keys: seq<ItemKey>, n: nat)
    requires Answers(contents, pageSize, page, result) && pageSize > 0
    requires Follows(contents, keys, page.status, n, true) && page.after == LastOf(keys, None)
    ensures GoodPage(page, Some(result), pageSize)
    ensures Follows(contents, keys + result.keys, page.status, n + pageSize, |result.keys| == pageSize)
  {
    AnswerIsGood(contents, pageSize, page, result);
    assert result.keys == Page(WithStatus(contents, page.status), page.after, pageSize);
    hide Answers, GoodPage, Page, KeysWith, WithStatus;
    PageWithStatus(contents, page.status, page.after, n, pageSize);
    FollowsOneMore(contents, page.status, n, pageSize);
  }

  lemma AnswerIsGood(contents: Contents, pageSize: nat, page: StatusPage, result: PageResult)
    requires Answers(contents, pageSize, page, result)
    ensures GoodPage(page, Some(result), pageSize)
  {
    PageFacts(WithStatus(contents, page.status), page.after, pageSize);
    hide Page, WithStatus;
  }

  lemma PageWithStatus(contents: Contents, s: ItemStatus, after: Option<ItemKey>, n: nat, limit: nat)
    requires n <= |KeysWith(contents, s)| && after == LastOf(KeysWith(contents, s)[..n], None)
    ensures Page(WithStatus(contents, s), after, limit) ==
      KeysWith(contents, s)[n..n + Minimum(limit, |KeysWith(contents, s)| - n)]
  {
    PageAfter(WithStatus(contents, s), after, n, limit);
  }

  lemma FollowsOneMore(contents: Contents, s: ItemStatus, n: nat, pageSize: nat)
    requires n <= |KeysWith(contents, s)| && pageSize > 0
    ensures var all := KeysWith(contents, s);
      var m := Minimum(pageSize, |all| - n);
      Follows(contents, all[..n] + all[n..n + m], s, n + pageSize, m == pageSize)
  {
    hide KeysWith;
    var all := KeysWith(contents, s);
    var m := Minimum(pageSize, |all| - n);
    assert all[..n] + all[n..n + m] == all[..n + m];
    assert all[..|all|] == all;
  }

  // ---------- One round ----------

  /** In the middle of a round: statuses before `i` are advanced, later pending ones are not yet. */
  ghost predicate MidRound(
    contents: Contents, seen: map<ItemStatus, seq<ItemKey>>, n: nat, pageSize: nat,
    pending: seq<StatusPage>, next: seq<StatusPage>)
  {
    forall s: ItemStatus :: s in seen &&
      if IsPending(pending, s) then Follows(contents, seen[s], s, n, true)
      else Follows(contents, seen[s], s, n + pageSize, IsPending(next, s))
  }

  /** Every newly counted key was listed by the response. */
  ghost predicate SeenFrom(seen': map<ItemStatus, seq<ItemKey>>, seen: map<ItemStatus, seq<ItemKey>>, response: Response)
  {
    forall s: ItemStatus :: s in seen' && s in seen ==>
      forall k :: k in seen'[s] ==> k in seen[s] || (s in response.pages && k in response.pages[s].keys)
  }

  /** No status waits both in what is left of this round and in the next one. */
  ghost predicate Apart(next: seq<StatusPage>, rest: seq<StatusPage>) {
    forall a, b :: 0 <= a < |next| && 0 <= b < |rest| ==> next[a].status != rest[b].status
  }

  function NextPages(next: seq<StatusPage>, page: StatusPage, keys: seq<ItemKey>, pageSize: nat): seq<StatusPage> {
    if |keys| == pageSize && LastOf(keys, page.after).Some? then
      next + [StatusPage(page.status, LastOf(keys, page.after))]
    else next
  }

  lemma TallyOneMore(summary: Summary, seen: map<ItemStatus, seq<ItemKey>>, page: StatusPage, result: PageResult,
                     n: nat, pageSize: nat)
    requires Tallied(summary, seen) && WaitsAt(page, seen, n) && GoodPage(page, Some(result), pageSize)
    ensures Tallied(summary[page.status := summary[page.status] + |result.keys|],
                    seen[page.status := seen[page.status] + result.keys])
  {
    AscendingJoin(seen[page.status], result.keys, page.after);
  }

  lemma WaitRest(seen: map<ItemStatus, seq<ItemKey>>, rest: seq<StatusPage>, keys: seq<ItemKey>, n: nat)
    requires rest != [] && Waiting(rest, seen, n)
    ensures rest[0].status in seen
    ensures Waiting(rest[1..], seen[rest[0].status := seen[rest[0].status] + keys], n)
  {
    var seen' := seen[rest[0].status := seen[rest[0].status] + keys];
    forall i | 0 < i < |rest| ensures WaitsAt(rest[i], seen', n) {
      assert WaitsAt(rest[i], seen, n);
    }
  }

  lemma WaitNext(seen: map<ItemStatus, seq<ItemKey>>, page: StatusPage, next: seq<StatusPage>,
                 keys: seq<ItemKey>, n: nat, pageSize: nat)
    requires WaitsAt(page, seen, n) && Waiting(next, seen, n + pageSize)
    requires forall a :: 0 <= a < |next| ==> next[a].status != page.status
    ensures Waiting(NextPages(next, page, keys, pageSize), seen[page.status := seen[page.status] + keys], n + pageSize)
  {
    var seen' := seen[page.status := seen[page.status] + keys];
    forall i | 0 <= i < |next| ensures WaitsAt(next[i], seen', n + pageSize) {
      assert WaitsAt(next[i], seen, n + pageSize);
    }
    var full := StatusPage(page.status, LastOf(keys, page.after));
    assert |keys| == pageSize ==> WaitsAt(full, seen', n + pageSize);
    hide WaitsAt, LastOf;
  }

  lemma StaysApart(rest: seq<StatusPage>, next: seq<StatusPage>, keys: seq<ItemKey>, pageSize: nat)
    requires rest != [] && Apart(next, rest)
    requires forall i, j :: 0 <= i < j < |rest| ==> rest[i].status != rest[j].status
    ensures Apart(NextPages(next, rest[0], keys, pageSize), rest[1..])
  {
    hide LastOf;
  }

  lemma WaitOneMore(seen: map<ItemStatus, seq<ItemKey>>, rest: seq<StatusPage>, next: seq<StatusPage>,
                    keys: seq<ItemKey>, n: nat, pageSize: nat)
    requires rest != [] && Waiting(rest, seen, n) && Waiting(next, seen, n + pageSize) && Apart(next, rest)
    ensures rest[0].status in seen
    ensures var page := rest[0];
      var seen' := seen[page.status := seen[page.status] + keys];
      var next' := NextPages(next, page, keys, pageSize);
      && Waiting(rest[1..], seen', n) && Waiting(next', seen', n + pageSize) && Apart(next', rest[1..])
  {
    assert WaitsAt(rest[0], seen, n);
    assert forall a :: 0 <= a < |next| ==> next[a].status != rest[0].status;
    assert forall i, j :: 0 <= i < j < |rest| ==> rest[i].status != rest[j].status;
    hide *;
    WaitRest(seen, rest, keys, n);
    WaitNext(seen, rest[0], next, keys, n, pageSize);
    StaysApart(rest, next, keys, pageSize);
  }

  lemma MidOneMore(contents: Contents, seen: map<ItemStatus, seq<ItemKey>>, n: nat, pageSize: nat,
                   rest: seq<StatusPage>, next: seq<StatusPage>, result: PageResult)
    requires pageSize > 0 && rest != [] && MidRound(contents, seen, n, pageSize, rest, next)
    requires Waiting(rest, seen, n) && Apart(next, rest) && Answers(contents, pageSize, rest[0], result)
    ensures GoodPage(rest[0], Some(result), pageSize)
    ensures var page := rest[0];
      MidRound(contents, seen[page.status := seen[page.status] + result.keys], n, pageSize, rest[1..],
               NextPages(next, page, result.keys, pageSize))
  {
    var page := rest[0];
    var s0 := page.status;
    assert WaitsAt(page, seen, n) && IsPending(rest, s0);
    hide Follows, GoodPage, Answers, WaitsAt;
    assert page.after == LastOf(seen[s0], None) by { WaitsAfter(page, seen, n); }
    ConformingPage(contents, pageSize, page, result, seen[s0], n);
    var seen', next' := seen[s0 := seen[s0] + result.keys], NextPages(next, page, result.keys, pageSize);
    forall s: ItemStatus
      ensures s in seen' &&
        if IsPending(rest[1..], s) then Follows(contents, seen'[s], s, n, true)
        else Follows(contents, seen'[s], s, n + pageSize, IsPending(next', s))
    {
      PendingShifts(rest, next, page, result.keys, pageSize, s);
    }
  }

  lemma WaitsAfter(page: StatusPage, seen: map<ItemStatus, seq<ItemKey>>, n: nat)
    requires WaitsAt(page, seen, n)
    ensures page.after == LastOf(seen[page.status], None)
  {
  }

  lemma PendingShifts(rest: seq<StatusPage>, next: seq<StatusPage>, page: StatusPage, keys: seq<ItemKey>, pageSize: nat,
                      s: ItemStatus)
    requires pageSize > 0 && rest != [] && page == rest[0] && Apart(next, rest)
    requires forall i, j :: 0 <= i < j < |rest| ==> rest[i].status != rest[j].status
    ensures IsPending(rest[1..], s) <==> IsPending(rest, s) && s != page.status
    ensures IsPending(NextPages(next, page, keys, pageSize), s) <==>
      IsPending(next, s) || (s == page.status && |keys| == pageSize)
  {
    if IsPending(rest, s) && s != page.status {
      var i :| 0 <= i < |rest| && rest[i].status == s;
      assert rest[1..][i - 1].status == s;
    }
    var next' := NextPages(next, page, keys, pageSize);
    if IsPending(next, s) {
      var i :| 0 <= i < |next| && next[i].status == s;
      assert next'[i].status == s;
    }
    if s == page.status && |keys| == pageSize {
      assert next'[|next|].status == s;
    }
  }

  lemma SeenOneMore(seen0: map<ItemStatus, seq<ItemKey>>, seen: map<ItemStatus, seq<ItemKey>>, response: Response,
                    s: ItemStatus)
    requires s in seen && s in response.pages && SeenFrom(seen, seen0, response)
    ensures SeenFrom(seen[s := seen[s] + response.pages[s].keys], seen0, response)
  {
  }

  /** Where a round stands with the pages `rest` still to take in. */
  ghost predicate MidState(
    summary: Summary, seen0: map<ItemStatus, seq<ItemKey>>, seen: map<ItemStatus, seq<ItemKey>>, response: Response,
    rest: seq<StatusPage>, next: seq<StatusPage>, n: nat, pageSize: nat)
  {
    && Tallied(summary, seen) && Waiting(rest, seen, n) && Waiting(next, seen, n + pageSize) && Apart(next, rest)
    && SeenFrom(seen, seen0, response)
  }

  /** Take in the page of one status. */
  method TakePage(
    page: StatusPage, response: Response, summary: Summary, next: seq<StatusPage>, pageSize: nat,
    ghost rest: seq<StatusPage>, ghost n: nat, ghost seen0: map<ItemStatus, seq<ItemKey>>,
    ghost seen: map<ItemStatus, seq<ItemKey>>, ghost contents: Contents, ghost conforms: bool)
    returns (r: Result<(Summary, seq<StatusPage>), SummaryError>, ghost seen': map<ItemStatus, seq<ItemKey>>)
    requires pageSize > 0 && rest != [] && rest[0] == page
    requires MidState(summary, seen0, seen, response, rest, next, n, pageSize)
    requires conforms ==> MidRound(contents, seen, n, pageSize, rest, next)
    requires conforms ==> page.status in response.pages && Answers(contents, pageSize, page, response.pages[page.status])
    ensures r.Ok? <==> GoodPage(page, PageIn(response, page.status), pageSize)
    ensures r.Ok? ==> MidState(r.value.0, seen0, seen', response, rest[1..], r.value.1, n, pageSize)
    ensures r.Ok? && conforms ==> MidRound(contents, seen', n, pageSize, rest[1..], r.value.1)
    ensures r.Err? ==> !conforms
  {
    FirstIsKnown(summary, seen, rest, n);
    hide Follows, GoodPage, MidRound, AllFollow, Answers, SeenFrom, Apart, RoundConforms, WaitsAt, Tallied, Waiting;
    seen' := seen;
    var result := PageIn(response, page.status);
    if conforms {
      MidOneMore(contents, seen, n, pageSize, rest, next, result.value);
    }
    var validated := ValidatePage(page, result, pageSize);
    if validated.Err? {
      return Err(validated.error), seen';
    }
    GoodResult(page, result, pageSize);
    var (count, lastKey) := validated.value;
    TallyOneMore(summary, seen, page, result.value, n, pageSize);
    WaitOneMore(seen, rest, next, result.value.keys, n, pageSize);
    SeenOneMore(seen0, seen, response, page.status);
    seen' := seen[page.status := seen[page.status] + result.value.keys];
    r := Ok((summary[page.status := summary[page.status] + count],
             if count == pageSize && lastKey.Some? then next + [StatusPage(page.status, lastKey)] else next));
  }

  /** Take in one response: count every pending page and keep the full ones. */
  method TakeResponse(pending: seq<StatusPage>, response: Response, summary: Summary, pageSize: nat, ghost n: nat,
                      ghost seen: map<ItemStatus, seq<ItemKey>>, ghost contents: Contents)
    returns (r: Result<(Summary, seq<StatusPage>), SummaryError>, ghost seen': map<ItemStatus, seq<ItemKey>>)
    requires pageSize > 0 && Tallied(summary, seen) && Waiting(pending, seen, n)
    ensures r.Ok? <==> GoodPages(pending, response, pageSize)
    ensures r.Ok? ==> Tallied(r.value.0, seen') && Waiting(r.value.1, seen', n + pageSize)
    ensures r.Ok? && AllFollow(contents, seen, n, pending) && RoundConforms(contents, pageSize, pending, response) ==>
      AllFollow(contents, seen', n + pageSize, r.value.1)
    ensures r.Err? ==> !(AllFollow(contents, seen, n, pending) && RoundConforms(contents, pageSize, pending, response))
    ensures r.Ok? ==> SeenFrom(seen', seen, response)
  {
    var counted, next := summary, [];
    seen' := seen;
    assert pending[0..] == pending;
    ghost var conforms := AllFollow(contents, seen, n, pending) && RoundConforms(contents, pageSize, pending, response);
    if conforms {
      RoundBegins(contents, seen, n, pageSize, pending);
    }
    NothingYet(seen, response, pending, n + pageSize);
    assert MidState(counted, seen, seen', response, pending[0..], next, n, pageSize);
    hide MidRound, AllFollow, Answers, RoundConforms, MidState, GoodPage, PageIn;
    for i := 0 to |pending|
      invariant forall j :: 0 <= j < i ==> GoodPage(pending[j], PageIn(response, pending[j].status), pageSize)
      invariant MidState(counted, seen, seen', response, pending[i..], next, n, pageSize)
      invariant conforms ==> MidRound(contents, seen', n, pageSize, pending[i..], next)
    {
      if conforms {
        PageConforms(contents, pageSize, pending, response, i);
      }
      var taken;
      taken, seen' := TakePage(
        pending[i], response, counted, next, pageSize, pending[i..], n, seen, seen', contents, conforms);
      if taken.Err? {
        return Err(taken.error), seen';
      }
      assert pending[i..][1..] == pending[i + 1..];
      counted, next := taken.value.0, taken.value.1;
    }
    if conforms {
      RoundEnds(contents, seen', n, pageSize, next);
    }
    MidStateEnds(counted, seen, seen', response, next, n, pageSize);
    r := Ok((counted, next));
  }

  lemma MidStateEnds(
    summary: Summary, seen0: map<ItemStatus, seq<ItemKey>>, seen: map<ItemStatus, seq<ItemKey>>, response: Response,
    next: seq<StatusPage>, n: nat, pageSize: nat)
    requires MidState(summary, seen0, seen, response, [], next, n, pageSize)
    ensures Tallied(summary, seen) && Waiting(next, seen, n + pageSize) && SeenFrom(seen, seen0, response)
  {
    hide Tallied, Waiting, SeenFrom;
  }

  lemma FirstIsKnown(summary: Summary, seen: map<ItemStatus, seq<ItemKey>>, rest: seq<StatusPage>, n: nat)
    requires Tallied(summary, seen) && Waiting(rest, seen, n) && rest != []
    ensures rest[0].status in summary && rest[0].status in seen && WaitsAt(rest[0], seen, n)
  {
  }

  lemma GoodResult(page: StatusPage, result: Option<PageResult>, limit: nat)
    requires GoodPage(page, result, limit)
    ensures result.Some?
  {
  }

  lemma RoundBegins(contents: Contents, seen: map<ItemStatus, seq<ItemKey>>, n: nat, pageSize: nat, pending: seq<StatusPage>)
    requires AllFollow(contents, seen, n, pending)
    ensures MidRound(contents, seen, n, pageSize, pending, [])
  {
  }

  lemma RoundEnds(contents: Contents, seen: map<ItemStatus, seq<ItemKey>>, n: nat, pageSize: nat, next: seq<StatusPage>)
    requires MidRound(contents, seen, n, pageSize, [], next)
    ensures AllFollow(contents, seen, n + pageSize, next)
  {
  }

  lemma NothingYet(seen: map<ItemStatus, seq<ItemKey>>, response: Response, pending: seq<StatusPage>, n: nat)
    ensures SeenFrom(seen, seen, response) && Apart([], pending) && Waiting([], seen, n)
  {
  }

  lemma PageConforms(contents: Contents, pageSize: nat, pending: seq<StatusPage>, response: Response, i: nat)
    requires RoundConforms(contents, pageSize, pending, response) && i < |pending|
    ensures pending[i].status in response.pages
    ensures Answers(contents, pageSize, pending[i], response.pages[pending[i].status])
  {
  }

  // ---------- The whole summary ----------

  /** Every key the provider ever lists comes from a finite set. */
  ghost predicate ListsFrom(provider: Provider, universe: set<ItemKey>) {
    forall n, pending: seq<StatusPage> :: provider(n, pending).Some? ==> KeysAreFrom(provider(n, pending).value, universe)
  }

  ghost predicate KeysAreFrom(response: Response, universe: set<ItemKey>) {
    forall s, k :: s in response.pages && k in response.pages[s].keys ==> k in universe
  }

  ghost predicate SeenAreFrom(seen: map<ItemStatus, seq<ItemKey>>, universe: set<ItemKey>) {
    forall s, k :: s in seen && k in seen[s] ==> k in universe
  }

  ghost function Larger(a: nat, b: nat): nat { if a < b then b else a }

  /** The number of records of the status that has most. */
  ghost function Largest(contents: Contents): nat {
    Larger(Larger(|KeysWith(contents, Migrated)|, |KeysWith(contents, Failed)|),
           Larger(|KeysWith(contents, Skipped)|, |KeysWith(contents, NeedsUpdate)|))
  }

  function FirstPages(): seq<StatusPage> {
    [StatusPage(Migrated, None), StatusPage(Failed, None), StatusPage(Skipped, None), StatusPage(NeedsUpdate, None)]
  }

  lemma NothingCounted(contents: Contents, universe: set<ItemKey>)
    ensures var seen: map<ItemStatus, seq<ItemKey>> := map[Migrated := [], Failed := [], Skipped := [], NeedsUpdate := []];
      && Tallied(map[Migrated := 0, Failed := 0, Skipped := 0, NeedsUpdate := 0], seen)
      && Waiting(FirstPages(), seen, 0) && AllFollow(contents, seen, 0, FirstPages()) && SeenAreFrom(seen, universe)
  {
    var pages := FirstPages();
    assert pages[0].status == Migrated && pages[1].status == Failed && pages[2].status == Skipped
      && pages[3].status == NeedsUpdate;
    forall s: ItemStatus
      ensures IsPending(pages, s) && Follows(contents, [], s, 0, true)
      ensures var summary: Summary := map[Migrated := 0, Failed := 0, Skipped := 0, NeedsUpdate := 0];
        s in summary && summary[s] == 0
      ensures var seen: map<ItemStatus, seq<ItemKey>> := map[Migrated := [], Failed := [], Skipped := [], NeedsUpdate := []];
        s in seen && seen[s] == []
    {
      assert KeysWith(contents, s)[..0] == [];
      match s
      case Migrated =>
      case Failed =>
      case Skipped =>
      case NeedsUpdate =>
    }
  }

  lemma PendingIsBounded(
    summary: Summary, seen: map<ItemStatus, seq<ItemKey>>, pending: seq<StatusPage>, n: nat, universe: set<ItemKey>)
    requires Tallied(summary, seen) && Waiting(pending, seen, n) && SeenAreFrom(seen, universe) && pending != []
    ensures n <= |universe|
  {
    var s := pending[0].status;
    assert WaitsAt(pending[0], seen, n);
    assert Ascending(seen[s]);
    DistinctSize(seen[s]);
    SubsetSize(Elements(seen[s]), universe);
  }

  lemma SeenStayFrom(seen: map<ItemStatus, seq<ItemKey>>, seen': map<ItemStatus, seq<ItemKey>>, response: Response,
                     summary: Summary, universe: set<ItemKey>)
    requires Tallied(summary, seen) && SeenFrom(seen', seen, response)
    requires SeenAreFrom(seen, universe) && KeysAreFrom(response, universe)
    ensures SeenAreFrom(seen', universe)
  {
    forall s, k | s in seen' && k in seen'[s] ensures k in universe {
      assert s in summary && s in seen;
    }
  }

  lemma PendingIsWithin(contents: Contents, seen: map<ItemStatus, seq<ItemKey>>, n: nat, pending: seq<StatusPage>)
    requires AllFollow(contents, seen, n, pending) && pending != []
    ensures n <= Largest(contents)
  {
    hide KeysWith;
    var s := pending[0].status;
    assert IsPending(pending, s);
    assert s in seen && Follows(contents, seen[s], s, n, true);
  }

  lemma DoneIsAll(contents: Contents, summary: Summary, seen: map<ItemStatus, seq<ItemKey>>, n: nat)
    requires AllFollow(contents, seen, n, []) && Tallied(summary, seen)
    ensures Largest(contents) < n && forall s: ItemStatus :: s in summary && summary[s] == |KeysWith(contents, s)|
  {
    hide KeysWith;
    forall s: ItemStatus ensures s in seen && seen[s] == KeysWith(contents, s) && |KeysWith(contents, s)| < n {
      assert s in seen && Follows(contents, seen[s], s, n, IsPending([], s));
    }
  }

  lemma RoundCount(rounds: nat, pageSize: nat, largest: nat)
    requires pageSize > 0 && rounds > 0 && (rounds - 1) * pageSize <= largest < rounds * pageSize
    ensures rounds == largest / pageSize + 1
  {
    var q := largest / pageSize;
    assert largest == q * pageSize + largest % pageSize;
    if q < rounds - 1 {
      ProductGrows(q + 1, rounds - 1, pageSize);
    } else if q > rounds - 1 {
      ProductGrows(rounds, q, pageSize);
    }
  }

  lemma ProductGrows(a: nat, b: nat, factor: nat)
    requires a <= b
    ensures a * factor <= b * factor
  {
  }

  lemma ResponseConforms(provider: Provider, contents: Contents, pageSize: nat, n: nat, pending: seq<StatusPage>)
    requires Conforms(provider, contents, pageSize) && OnePageEach(pending)
    ensures provider(n, pending).Some? && provider(n, pending).value.invalid == Some(!AllValid(contents))
    ensures RoundConforms(contents, pageSize, pending, provider(n, pending).value)
  {
    hide RoundConforms, AllValid, OnePageEach;
    assert AnsweredFrom(contents, pageSize, pending, provider(n, pending));
  }

  /** What holds between rounds, of any provider and of one that conforms to `contents`. */
  ghost predicate BetweenRounds(
    summary: Summary, seen: map<ItemStatus, seq<ItemKey>>, pending: seq<StatusPage>, n: nat, universe: set<ItemKey>)
  {
    Tallied(summary, seen) && Waiting(pending, seen, n) && SeenAreFrom(seen, universe)
  }

  ghost predicate OnTrack(
    contents: Contents, seen: map<ItemStatus, seq<ItemKey>>, pending: seq<StatusPage>, round: nat, n: nat, pageSize: nat)
  {
    AllFollow(contents, seen, n, pending) && (round > 0 ==> AllValid(contents) && n - pageSize <= Largest(contents))
  }

  lemma WaitingAsksOnce(pending: seq<StatusPage>, seen: map<ItemStatus, seq<ItemKey>>, n: nat)
    requires Waiting(pending, seen, n)
    ensures OnePageEach(pending)
  {
  }

  /** The request succeeds, the first answer knows of no bad metadata, and every pending page is good. */
  ghost predicate RoundAccepted(answer: Option<Response>, pending: seq<StatusPage>, round: nat, pageSize: nat) {
    && answer.Some? && (round == 0 ==> answer.value.invalid == Some(false))
    && GoodPages(pending, answer.value, pageSize)
  }

  /** One round: the query, the metadata check of the first round, and the counting. */
  method OneRound(
    provider: Provider, pending: seq<StatusPage>, summary: Summary, round: nat, pageSize: nat, ghost n: nat,
    ghost seen: map<ItemStatus, seq<ItemKey>>, ghost contents: Contents, ghost universe: set<ItemKey>)
    returns (r: Result<(Summary, seq<StatusPage>), SummaryError>, ghost seen': map<ItemStatus, seq<ItemKey>>)
    requires pageSize > 0 && ListsFrom(provider, universe) && pending != []
    requires BetweenRounds(summary, seen, pending, n, universe)
    ensures r.Ok? <==> RoundAccepted(provider(round, pending), pending, round, pageSize)
    ensures r.Ok? ==> BetweenRounds(r.value.0, seen', r.value.1, n + pageSize, universe)
    ensures Conforms(provider, contents, pageSize) && OnTrack(contents, seen, pending, round, n, pageSize) ==>
      && (r.Ok? ==> OnTrack(contents, seen', r.value.1, round + 1, n + pageSize, pageSize))
      && (r.Err? ==> r.error == InvalidMetadata && !AllValid(contents))
  {
    hide Tallied, Waiting, AllFollow, SeenAreFrom, AllValid, Largest, KeysAreFrom, RoundConforms, SeenFrom, Conforms,
         GoodPages;
    seen' := seen;
    var response := provider(round, pending);
    ghost var tracked := Conforms(provider, contents, pageSize) && OnTrack(contents, seen, pending, round, n, pageSize);
    if tracked {
      WaitingAsksOnce(pending, seen, n);
      ResponseConforms(provider, contents, pageSize, round, pending);
      PendingIsWithin(contents, seen, n, pending);
    }
    if response.None? {
      return Err(RequestFailed), seen';
    }
    if round == 0 {
      if response.value.invalid.None? {
        return Err(MissingMetadata), seen';
      }
      if response.value.invalid.value {
        return Err(InvalidMetadata), seen';
      }
    }
    r, seen' := TakeResponse(pending, response.value, summary, pageSize, n, seen, contents);
    if r.Ok? {
      SeenStayFrom(seen, seen', response.value, summary, universe);
    }
  }

  /**
   * Summarize the item records of a definition. Against a store that does not change, it succeeds
   * exactly when every record is valid, counts the records of each status, and takes one round more
   * than the full pages of the largest status.
   */
  method SummarizeItemStates(provider: Provider, pageSize: nat, ghost contents: Contents, ghost universe: set<ItemKey>)
    returns (r: Result<Summary, SummaryError>, ghost rounds: nat)
    requires 1 <= pageSize <= MAX_PAGE_SIZE && ListsFrom(provider, universe)
    ensures Conforms(provider, contents, pageSize) ==> (r.Ok? <==> AllValid(contents))
    ensures Conforms(provider, contents, pageSize) && r.Err? ==> r.error == InvalidMetadata
    ensures Conforms(provider, contents, pageSize) && r.Ok? ==>
      && (forall s: ItemStatus :: s in r.value && r.value[s] == |KeysWith(contents, s)|)
      && Tallies(r.value, Listing(contents)) && Total(r.value) == |contents|
      && rounds == Largest(contents) / pageSize + 1
  {
    var summary: Summary := map[Migrated := 0, Failed := 0, Skipped := 0, NeedsUpdate := 0];
    ghost var seen: map<ItemStatus, seq<ItemKey>> := map[Migrated := [], Failed := [], Skipped := [], NeedsUpdate := []];
    NothingCounted(contents, universe);
    ghost var conforms := Conforms(provider, contents, pageSize);
    ghost var n := 0;
    rounds := 0;
    var pending, round := FirstPages(), 0;
    assert BetweenRounds(summary, seen, pending, n, universe) && OnTrack(contents, seen, pending, 0, n, pageSize);
    hide BetweenRounds, OnTrack, FirstPages, Conforms, AllValid, Largest, KeysWith, ListsFrom, Tallies, Listing, Total,
         RoundAccepted;
    while |pending| > 0
      invariant rounds == round && n == rounds * pageSize && n <= |universe| + pageSize
      invariant round == 0 ==> |pending| > 0
      invariant BetweenRounds(summary, seen, pending, n, universe)
      invariant conforms ==> OnTrack(contents, seen, pending, round, n, pageSize)
      decreases |universe| + pageSize - n
    {
      RoundIsBounded(summary, seen, pending, n, universe);
      var taken;
      taken, seen := OneRound(provider, pending, summary, round, pageSize, n, seen, contents, universe);
      if taken.Err? {
        return Err(taken.error), rounds;
      }
      summary, pending := taken.value.0, taken.value.1;
      round, rounds, n := round + 1, rounds + 1, n + pageSize;
    }
    if conforms {
      SummaryIsDone(contents, summary, seen, pending, rounds, n, pageSize, universe);
      CountsTally(contents, summary);
    }
    r := Ok(summary);
  }

  lemma RoundIsBounded(
    summary: Summary, seen: map<ItemStatus, seq<ItemKey>>, pending: seq<StatusPage>, n: nat, universe: set<ItemKey>)
    requires BetweenRounds(summary, seen, pending, n, universe) && pending != []
    ensures n <= |universe|
  {
    PendingIsBounded(summary, seen, pending, n, universe);
  }

  lemma SummaryIsDone(contents: Contents, summary: Summary, seen: map<ItemStatus, seq<ItemKey>>,
                      pending: seq<StatusPage>, rounds: nat, n: nat, pageSize: nat, universe: set<ItemKey>)
    requires pageSize > 0 && rounds > 0 && n == rounds * pageSize && pending == []
    requires BetweenRounds(summary, seen, pending, n, universe)
    requires OnTrack(contents, seen, pending, rounds, n, pageSize)
    ensures AllValid(contents) && forall s: ItemStatus :: s in summary && summary[s] == |KeysWith(contents, s)|
    ensures rounds == Largest(contents) / pageSize + 1
  {
    hide Tallied, Waiting, AllFollow, SeenAreFrom, AllValid, Largest, KeysWith;
    DoneIsAll(contents, summary, seen, n);
    assert n - pageSize == (rounds - 1) * pageSize;
    RoundCount(rounds, pageSize, Largest(contents));
  }

  // ---------- The summary and the listing agree ----------

  function CountOf(items: seq<Found>, s: ItemStatus): nat {
    if items == [] then 0
    else CountOf(items[..|items| - 1], s) + if items[|items| - 1].item.stateStatus == s then 1 else 0
  }

  /** Each count is the number of listed items with that state status. */
  ghost predicate Tallies(summary: Summary, items: seq<Found>) {
    forall s: ItemStatus :: s in summary && summary[s] == CountOf(items, s)
  }

  /** What listing an unchanging store returns. */
  ghost function Listing(contents: Contents): seq<Found> {
    ItemsAt(contents, Sorted(contents.Keys))
  }

  function Total(summary: Summary): nat
    requires forall s: ItemStatus :: s in summary
  {
    summary[Migrated] + summary[Failed] + summary[Skipped] + summary[NeedsUpdate]
  }

  ghost function InState(contents: Contents, keys: seq<ItemKey>, s: ItemStatus): set<ItemKey> {
    set k | k in keys && k in contents && contents[k].stateStatus == s
  }

  lemma InStateOneMore(contents: Contents, keys: seq<ItemKey>, last: ItemKey, s: ItemStatus)
    requires last in contents && last !in keys
    ensures |InState(contents, keys + [last], s)| ==
      |InState(contents, keys, s)| + if contents[last].stateStatus == s then 1 else 0
  {
    var before, after := InState(contents, keys, s), InState(contents, keys + [last], s);
    if contents[last].stateStatus == s {
      assert after == before + {last};
    } else {
      assert after == before;
    }
  }

  lemma {:induction false} CountIsSize(contents: Contents, keys: seq<ItemKey>, s: ItemStatus)
    requires Ascending(keys) && forall k :: k in keys ==> k in contents
    ensures CountOf(ItemsAt(contents, keys), s) == |InState(contents, keys, s)|
  {
    if keys == [] {
      assert InState(contents, keys, s) == {};
    } else {
      var n := |keys| - 1;
      var last := keys[n];
      CountIsSize(contents, keys[..n], s);
      assert ItemsAt(contents, keys)[..n] == ItemsAt(contents, keys[..n]);
      assert last in keys && last !in keys[..n];
      InStateOneMore(contents, keys[..n], last, s);
      assert keys == keys[..n] + [last];
    }
  }

  /** On an unchanging store of valid records: each count is the tally of any listing by state status. */
  lemma SummaryIsTally(contents: Contents, store: Store, queries: nat, items: seq<Found>, s: ItemStatus)
    requires AllValid(contents)
    requires (forall t: nat :: t < queries ==> store(t) == contents) && ScansThrough(store, queries, None, items)
    ensures items == Listing(contents) && |KeysWith(contents, s)| == CountOf(items, s)
  {
    hide Sorted, ScansThrough, KeysWith, AllValid, CountOf;
    StaticScan(contents, store, queries, items);
    ListingIsCounted(contents, s);
  }

  /** A summary of index counts tallies the listing, and leaves no record out. */
  lemma CountsTally(contents: Contents, summary: Summary)
    requires AllValid(contents) && forall s: ItemStatus :: s in summary && summary[s] == |KeysWith(contents, s)|
    ensures Tallies(summary, Listing(contents)) && Total(summary) == |contents|
  {
    hide KeysWith, AllValid, Listing, CountOf;
    forall s: ItemStatus ensures |KeysWith(contents, s)| == CountOf(Listing(contents), s) {
      ListingIsCounted(contents, s);
    }
    CountsAddUp(contents);
  }

  lemma ListingIsCounted(contents: Contents, s: ItemStatus)
    requires AllValid(contents)
    ensures |KeysWith(contents, s)| == CountOf(Listing(contents), s)
  {
    var keys := Sorted(contents.Keys);
    SortedFacts(contents.Keys);
    InStateIsWithStatus(contents, keys, s);
    hide Sorted, KeysWith, InState, WithStatus, AllValid;
    CountIsSize(contents, keys, s);
    KeysAreCounted(contents, s);
  }

  lemma InStateIsWithStatus(contents: Contents, keys: seq<ItemKey>, s: ItemStatus)
    requires AllValid(contents) && Elements(keys) == contents.Keys
    ensures WithStatus(contents, s) == InState(contents, keys, s)
  {
    forall k ensures k in WithStatus(contents, s) <==> k in InState(contents, keys, s) {
      assert k in keys <==> k in Elements(keys);
      assert k in contents ==> ValidItem(contents[k]);
    }
  }

  /** Together the four counts are the number of records. */
  lemma CountsAddUp(contents: Contents)
    requires AllValid(contents)
    ensures |KeysWith(contents, Migrated)| + |KeysWith(contents, Failed)| + |KeysWith(contents, Skipped)|
            + |KeysWith(contents, NeedsUpdate)| == |contents|
  {
    EveryRecordHasOneStatus(contents);
    hide *;
    KeysAreCounted(contents, Migrated);
    KeysAreCounted(contents, Failed);
    KeysAreCounted(contents, Skipped);
    KeysAreCounted(contents, NeedsUpdate);
    FourSizes(WithStatus(contents, Migrated), WithStatus(contents, Failed), WithStatus(contents, Skipped),
              WithStatus(contents, NeedsUpdate));
  }

  lemma KeysAreCounted(contents: Contents, s: ItemStatus)
    ensures |KeysWith(contents, s)| == |WithStatus(contents, s)|
  {
    SortedFacts(WithStatus(contents, s));
  }

  lemma FourSizes<T>(a: set<T>, b: set<T>, c: set<T>, d: set<T>)
    requires a !! b && (a + b) !! c && (a + b + c) !! d
    ensures |a + b + c + d| == |a| + |b| + |c| + |d|
  {
  }

  lemma EveryRecordHasOneStatus(contents: Contents)
    requires AllValid(contents)
    ensures var a, b := WithStatus(contents, Migrated), WithStatus(contents, Failed);
      var c, d := WithStatus(contents, Skipped), WithStatus(contents, NeedsUpdate);
      a !! b && (a + b) !! c && (a + b + c) !! d && contents.Keys == a + b + c + d
  {
    forall k | k in contents
      ensures contents[k].indexStatus in {Some(Migrated), Some(Failed), Some(Skipped), Some(NeedsUpdate)}
    {
      assert ValidItem(contents[k]);
      match contents[k].stateStatus
      case Migrated =>
      case Failed =>
      case Skipped =>
      case NeedsUpdate =>
    }
  }
}
