/**
 * `collectContentWithWeb`: the website fallback. It follows the listing
 * pages from the first listing URL by their "next" links, takes the items of
 * each page whose ids it has not seen before in this call (`seenIds` spans
 * pages), and processes them in batches of the effective concurrency: the
 * detail page of each item is fetched and a web content record is pushed.
 * Unlike the API pipeline the candidates are not cut to the room left under
 * the limit, so the last batch can carry the count past it.
 */
module WebPipeline {
  import opened Wrappers
  import opened Lists
  import opened Params
  import opened Records
  import opened Listing
  import opened Backend
  import opened Batching

  /** The arguments of `collectContentWithWeb` (delays, proxy and headers are left out). */
  datatype WebJob = WebJob(t: ContentType, query: Option<string>, filters: DiscoverFilters, limit: int, concurrency: int)

  /** The first listing page of the call. */
  function FirstUrl(job: WebJob, page: int): Url {
    BuildWebListingUrl(job.t, job.query, job.filters, page)
  }

  function IdSet(items: seq<ListingItem>): set<nat> {
    set i | 0 <= i < |items| :: items[i].id
  }

  lemma IdSetCons(items: seq<ListingItem>)
    requires items != []
    ensures IdSet(items) == {items[0].id} + IdSet(items[1..])
  {
    forall x | x in IdSet(items) ensures x in {items[0].id} + IdSet(items[1..]) {
      var i :| 0 <= i < |items| && items[i].id == x;
      if i > 0 {
        assert items[1..][i - 1] == items[i];
      }
    }
  }

  /**
   * The candidates of a page: its items in order, skipping every id seen
   * before (on an earlier page or earlier on this one); and the seen ids
   * after the page.
   */
  function Fresh(items: seq<ListingItem>, seen: set<nat>): (seq<ListingItem>, set<nat>)
    decreases |items|
  {
    if items == [] then ([], seen)
    else if items[0].id in seen then Fresh(items[1..], seen)
    else
      var rest := Fresh(items[1..], seen + {items[0].id});
      ([items[0]] + rest.0, rest.1)
  }

  /**
   * The candidates are items of the page with pairwise distinct ids, and
   * their ids are exactly the page's ids not seen before; afterwards every
   * id of the page has been seen.
   */
  lemma {:induction false} FreshShape(items: seq<ListingItem>, seen: set<nat>)
    ensures var r := Fresh(items, seen);
      r.1 == seen + IdSet(items) && IdSet(r.0) == IdSet(items) - seen && DistinctIds(r.0) &&
      forall i | 0 <= i < |r.0| :: r.0[i] in items
    decreases |items|
  {
    if items != [] {
      IdSetCons(items);
      var id := items[0].id;
      if id in seen {
        FreshShape(items[1..], seen);
      } else {
        var rest := Fresh(items[1..], seen + {id});
        FreshShape(items[1..], seen + {id});
        var r := [items[0]] + rest.0;
        IdSetCons(r);
        assert r[1..] == rest.0;
        forall i | 1 <= i < |r| ensures r[i].id != id {
          assert r[i] == rest.0[i - 1];
          assert r[i].id in IdSet(rest.0);
        }
        forall i | 0 <= i < |r| ensures r[i] in items {
          if i > 0 {
            assert r[i] == rest.0[i - 1];
          }
        }
      }
    }
  }

  /** One listing item: its detail page, then its web content record; 1 when both succeed, 0 when the page fails. */
  function StoreItem(w: World, t: ContentType, item: ListingItem): (int, World) {
    StoreFetched(WebCall(w, item.href), t, item)
  }

  /** The rest of `StoreItem` once the detail page came back: its record is stored and counted. */
  function StoreFetched(page: (Outcome<(Document, Url)>, World), t: ContentType, item: ListingItem): (int, World) {
    if page.0.Threw? then (0, page.1)
    else
      var pushed := Push(page.1, WebContent(WebContentRecordOf(item, page.0.value.0.data, t)));
      (1, pushed.(contents := pushed.contents + 1))
  }

  function WebItemWorker(t: ContentType): Worker<ListingItem> {
    (w, item) => StoreItem(w, t, item)
  }

  /** The id a web content record is stored under. */
  function WebId(r: Record): int {
    if r.WebContent? then r.web.tmdbId else -1
  }

  /** Web content records, no two of them for the same id. */
  predicate WebRecords(recs: seq<Record>) {
    (forall i | 0 <= i < |recs| :: recs[i].WebContent?)
    && forall i, j | 0 <= i < j < |recs| :: WebId(recs[i]) != WebId(recs[j])
  }

  /** The records pushed between `w` and `w'`. */
  function Added(w: World, w': World): seq<Record> {
    var before := PushedRecords(w.log);
    var after := PushedRecords(w'.log);
    if |before| <= |after| then after[|before|..] else []
  }

  /**
   * From `w` to `w'` the log only grew, `n` records were pushed, all of them
   * web content records for distinct ids, and the content counter counted
   * each of them; no API failure was counted.
   */
  predicate Stored(w: World, w': World, n: int) {
    w.log <= w'.log && |w'.script| <= |w.script|
    && PushedRecords(w'.log) == PushedRecords(w.log) + Added(w, w')
    && |Added(w, w')| == n && w'.contents == w.contents + n && w'.apiFailures == w.apiFailures
    && WebRecords(Added(w, w'))
  }

  /** Every record pushed from `w` to `w'` is for one of `ids`. */
  predicate Within(w: World, w': World, ids: set<nat>) {
    forall i | 0 <= i < |Added(w, w')| :: WebId(Added(w, w')[i]) in ids
  }

  lemma StoredNothing(w: World)
    ensures Stored(w, w, 0) && Within(w, w, {})
  {
    assert PushedRecords(w.log)[|PushedRecords(w.log)|..] == [];
  }

  /** Storing runs of disjoint ids one after the other stores their union. */
  lemma StoredChain(w: World, w1: World, w2: World, a: set<nat>, b: set<nat>, n: int, m: int)
    requires Stored(w, w1, n) && Within(w, w1, a) && Stored(w1, w2, m) && Within(w1, w2, b) && a !! b
    ensures Stored(w, w2, n + m) && Within(w, w2, a + b)
  {
    var p0 := PushedRecords(w.log);
    var a1 := Added(w, w1);
    var a2 := Added(w1, w2);
    assert PushedRecords(w2.log) == p0 + (a1 + a2);
    assert Added(w, w2) == a1 + a2;
    var s := a1 + a2;
    forall i, j | 0 <= i < j < |s| ensures WebId(s[i]) != WebId(s[j]) {
      if j < |a1| {
        assert s[i] == a1[i] && s[j] == a1[j];
      } else if |a1| <= i {
        assert s[i] == a2[i - |a1|] && s[j] == a2[j - |a1|];
      } else {
        assert s[i] == a1[i] && s[j] == a2[j - |a1|];
        assert WebId(s[i]) in a && WebId(s[j]) in b;
      }
    }
    forall i | 0 <= i < |s| ensures s[i].WebContent? && WebId(s[i]) in a + b {
      if i < |a1| {
        assert s[i] == a1[i];
      } else {
        assert s[i] == a2[i - |a1|];
      }
    }
  }

  /** What one item does: it pushes at most one record, a web content record for its own id. */
  predicate ItemStored(w: World, item: ListingItem, r: (int, World)) {
    r.0 <= 1 && Stored(w, r.1, r.0) && Within(w, r.1, {item.id})
  }

  ghost predicate StoresOne(process: Worker<ListingItem>) {
    forall w, item :: ItemStored(w, item, process(w, item))
  }

  lemma StoresOneAt(process: Worker<ListingItem>, w: World, item: ListingItem)
    requires StoresOne(process)
    ensures ItemStored(w, item, process(w, item))
  {
  }

  lemma StoresOneCounts(process: Worker<ListingItem>)
    requires StoresOne(process)
    ensures Counts(process) && Shrinks(process)
  {
    forall w, item ensures 0 <= process(w, item).0 <= 1 && |process(w, item).1.script| <= |w.script| {
      StoresOneAt(process, w, item);
    }
  }

  /** A world that pushed one more web content record, for `id`, and counted it, stored that record. */
  lemma StoredOne(w: World, w': World, rec: Record, id: int)
    requires w.log <= w'.log && |w'.script| <= |w.script|
    requires PushedRecords(w'.log) == PushedRecords(w.log) + [rec]
    requires w'.contents == w.contents + 1 && w'.apiFailures == w.apiFailures
    requires rec.WebContent? && rec.web.tmdbId == id
    ensures Stored(w, w', 1) && Within(w, w', {id})
  {
    assert Added(w, w') == [rec];
  }

  /** An item's record is pushed exactly when its detail page answered, under its own id. */
  lemma StoreItemShape(w: World, t: ContentType, item: ListingItem)
    ensures ItemStored(w, item, StoreItem(w, t, item))
    ensures StoreItem(w, t, item).0 == 1 <==> Next(w.script).Html?
  {
    var page := WebCall(w, item.href);
    AppendOne(w.log, Sent(WebGet(item.href), Next(w.script)));
    if page.0.Ok? {
      var rec := WebContent(WebContentRecordOf(item, page.0.value.0.data, t));
      AppendOne(page.1.log, Pushed(rec));
      var r := StoreItem(w, t, item);
      assert r.1.log == w.log + [Sent(WebGet(item.href), Next(w.script)), Pushed(rec)];
      StoredOne(w, r.1, rec, item.id);
    } else {
      StoredNothing(w);
      assert Added(w, page.1) == Added(w, w);
    }
  }

  lemma WebItemWorkerStores(t: ContentType)
    ensures StoresOne(WebItemWorker(t))
  {
    forall w, item ensures ItemStored(w, item, WebItemWorker(t)(w, item)) {
      StoreItemShape(w, t, item);
    }
  }

  /** A batch of distinct items pushes at most one record per item, for distinct ids among the batch's. */
  lemma {:induction false} BatchStored(w: World, process: Worker<ListingItem>, batch: seq<ListingItem>)
    requires StoresOne(process) && DistinctIds(batch)
    ensures var r := BatchFrom(w, process, batch);
      Stored(w, r.1, r.0) && Within(w, r.1, IdSet(batch))
    decreases |batch|
  {
    if batch == [] {
      StoredNothing(w);
    } else {
      var first := process(w, batch[0]);
      StoresOneAt(process, w, batch[0]);
      var rest := BatchFrom(first.1, process, batch[1..]);
      BatchStored(first.1, process, batch[1..]);
      IdSetCons(batch);
      forall x | x in IdSet(batch[1..]) ensures x != batch[0].id {
        var i :| 0 <= i < |batch[1..]| && batch[1..][i].id == x;
        assert batch[i + 1].id == x;
      }
      StoredChain(w, first.1, rest.1, {batch[0].id}, IdSet(batch[1..]), first.0, rest.0);
    }
  }

  lemma DistinctPrefix(items: seq<ListingItem>, n: nat)
    requires DistinctIds(items) && n <= |items|
    ensures DistinctIds(items[..n]) && IdSet(items[..n]) <= IdSet(items)
  {
    forall x | x in IdSet(items[..n]) ensures x in IdSet(items) {
      var i :| 0 <= i < n && items[..n][i].id == x;
      assert items[i].id == x;
    }
  }

  /** How a listing page ended: the count saved so far, the ids seen, and the next page, if the loop goes on. */
  datatype WebEnd = WebEnd(saved: int, seen: set<nat>, next: Option<Url>)

  /**
   * One turn of the page loop: the listing page at `url`; an empty page ends
   * the loop; otherwise its unseen items are processed in batches and the
   * next page is resolved from the page and its final URL.
   */
  function ListingStep(w: World, job: WebJob, process: Worker<ListingItem>, url: Url, saved: int, seen: set<nat>)
    : (Outcome<WebEnd>, World)
  {
    var fetched := WebCall(w, url);
    if fetched.0.Threw? then (Threw, fetched.1)
    else
      var doc := fetched.0.value.0;
      PageItems(fetched.1, job, process, ListingItems(doc.cards, job.t), ResolveNextUrl(doc.nav, fetched.0.value.1), saved, seen)
  }

  /** The rest of a turn, once the page's items and its next page are known: an empty page ends the loop. */
  function PageItems(w: World, job: WebJob, process: Worker<ListingItem>, items: seq<ListingItem>, next: Option<Url>,
                     saved: int, seen: set<nat>): (Outcome<WebEnd>, World)
  {
    if items == [] then (Ok(WebEnd(saved, seen, None)), w)
    else
      var cands := Fresh(items, seen);
      var b := Batches(w, process, job.concurrency, job.limit, cands.0, saved);
      (Ok(WebEnd(b.0, cands.1, next)), b.1)
  }

  /** A turn of the page loop: the page's URL, the count saved and the ids seen in; how the page ended out. */
  type WebStepper = (World, Url, int, set<nat>) -> (Outcome<WebEnd>, World)

  function WebTurn(job: WebJob, process: Worker<ListingItem>): WebStepper {
    (w, url, saved, seen) => ListingStep(w, job, process, url, saved, seen)
  }

  /** A turn that goes on to a next page has consumed a reply. */
  ghost predicate AdvancesFrom(step: WebStepper, w: World, url: Url, saved: int, seen: set<nat>) {
    step(w, url, saved, seen).0.Ok? && step(w, url, saved, seen).0.value.next.Some? ==>
      |step(w, url, saved, seen).1.script| < |w.script|
  }

  ghost predicate Advances(step: WebStepper) {
    forall w, url, saved, seen :: AdvancesFrom(step, w, url, saved, seen)
  }

  lemma AdvancesAt(step: WebStepper, w: World, url: Url, saved: int, seen: set<nat>)
    requires Advances(step)
    ensures step(w, url, saved, seen).0.Ok? && step(w, url, saved, seen).0.value.next.Some? ==>
      |step(w, url, saved, seen).1.script| < |w.script|
  {
    assert AdvancesFrom(step, w, url, saved, seen);
  }

  /**
   * The page loop from `url` on, as page `page`, with `saved` saved and the
   * ids in `seen` seen: `{collected, lastPage}`, or the exception of a
   * listing page.
   */
  function WebPages(w: World, job: WebJob, step: WebStepper, url: Option<Url>, page: int, saved: int, seen: set<nat>)
    : (Outcome<(int, int)>, World)
    requires Advances(step)
    decreases |w.script|
  {
    if url.Some? && saved < job.limit then
      var r := step(w, url.value, saved, seen);
      AdvancesAt(step, w, url.value, saved, seen);
      if r.0.Threw? then (Threw, r.1)
      else if r.0.value.next.None? then (Ok((r.0.value.saved, page)), r.1)
      else WebPages(r.1, job, step, r.0.value.next, page + 1, r.0.value.saved, r.0.value.seen)
    else (Ok((saved, page - 1)), w)
  }

  /** A turn from `url` that answers goes on to a next page and saves nothing. */
  ghost predicate StallsFrom(step: WebStepper, saved: int, w: World, url: Url, seen: set<nat>) {
    step(w, url, saved, seen).0.Ok? ==>
      step(w, url, saved, seen).0.value.next.Some? && step(w, url, saved, seen).0.value.saved == saved
  }

  ghost predicate Stalls(step: WebStepper, saved: int) {
    forall w, url, seen :: StallsFrom(step, saved, w, url, seen)
  }

  /**
   * The page loop has no page cap: while every page links to a next page and
   * saves nothing (all its ids were seen before), it never ends normally; it
   * stops only at a page that fails, here when the replies run out.
   */
  lemma {:induction false} WebPagesStalled(w: World, job: WebJob, step: WebStepper, url: Option<Url>, page: int,
                                           saved: int, seen: set<nat>)
    requires Advances(step) && Stalls(step, saved)
    requires url.Some? && saved < job.limit
    ensures WebPages(w, job, step, url, page, saved, seen).0.Threw?
    decreases |w.script|
  {
    var r := step(w, url.value, saved, seen);
    AdvancesAt(step, w, url.value, saved, seen);
    assert StallsFrom(step, saved, w, url.value, seen);
    if r.0.Ok? {
      WebPagesStalled(r.1, job, step, r.0.value.next, page + 1, saved, r.0.value.seen);
    }
  }

  /**
   * What one turn of the page loop does: its first request is the listing
   * page; a page that fails pushes nothing; a page that answered widens the
   * seen ids, pushes one web content record per item counted, each for an
   * id it saw for the first time, and, entered below the limit, ends below
   * `limit + concurrency`.
   */
  predicate WebTurnDone(w: World, job: WebJob, url: Url, saved: int, seen: set<nat>, r: (Outcome<WebEnd>, World)) {
    |w.log| < |r.1.log| && r.1.log[|w.log|] == Sent(WebGet(url), Next(w.script))
    && (r.0.Threw? ==> Stored(w, r.1, 0))
    && (r.0.Ok? ==>
          seen <= r.0.value.seen &&
          Stored(w, r.1, r.0.value.saved - saved) && Within(w, r.1, r.0.value.seen - seen) &&
          (saved < job.limit ==> r.0.value.saved < job.limit + Concurrency(job.concurrency)))
  }

  ghost predicate WebTurnDoneFrom(job: WebJob, step: WebStepper, w: World, url: Url, saved: int, seen: set<nat>) {
    WebTurnDone(w, job, url, saved, seen, step(w, url, saved, seen))
  }

  ghost predicate WebTurnsDone(job: WebJob, step: WebStepper) {
    forall w, url, saved, seen :: WebTurnDoneFrom(job, step, w, url, saved, seen)
  }

  lemma WebTurnsDoneAt(job: WebJob, step: WebStepper, w: World, url: Url, saved: int, seen: set<nat>)
    requires WebTurnsDone(job, step)
    ensures WebTurnDone(w, job, url, saved, seen, step(w, url, saved, seen))
  {
    assert WebTurnDoneFrom(job, step, w, url, saved, seen);
  }

  /**
   * The items of a page push one web content record per item counted, each
   * for an id of the page not seen before, and, entered below the limit,
   * end below `limit + concurrency`.
   */
  lemma PageItemsStored(w: World, job: WebJob, process: Worker<ListingItem>, items: seq<ListingItem>, next: Option<Url>,
                        saved: int, seen: set<nat>)
    requires StoresOne(process)
    ensures var r := PageItems(w, job, process, items, next, saved, seen);
      seen <= r.0.value.seen && Stored(w, r.1, r.0.value.saved - saved) && Within(w, r.1, r.0.value.seen - seen) &&
      (saved < job.limit ==> r.0.value.saved < job.limit + Concurrency(job.concurrency)) &&
      (r.0.value.next.Some? ==> |r.1.script| <= |w.script|)
  {
    if items == [] {
      StoredNothing(w);
    } else {
      var cands := Fresh(items, seen);
      FreshShape(items, seen);
      StoresOneCounts(process);
      BatchesPrefix(w, process, job.concurrency, job.limit, cands.0, saved);
      BatchesEnd(w, process, job.concurrency, job.limit, cands.0, saved);
      var n := Taken(w, process, job.concurrency, job.limit, cands.0, saved);
      DistinctPrefix(cands.0, n);
      BatchStored(w, process, cands.0[..n]);
    }
  }

  /** One listing page, when its items store at most their own record each. */
  lemma ListingStepShape(w: World, job: WebJob, process: Worker<ListingItem>, url: Url, saved: int, seen: set<nat>)
    requires StoresOne(process)
    ensures WebTurnDone(w, job, url, saved, seen, ListingStep(w, job, process, url, saved, seen))
    ensures var r := ListingStep(w, job, process, url, saved, seen);
      r.0.Ok? && r.0.value.next.Some? ==> |r.1.script| < |w.script|
  {
    var fetched := WebCall(w, url);
    AppendOne(w.log, Sent(WebGet(url), Next(w.script)));
    StoredNothing(w);
    assert Added(w, fetched.1) == Added(w, w);
    if fetched.0.Ok? {
      var doc := fetched.0.value.0;
      var items := ListingItems(doc.cards, job.t);
      var next := ResolveNextUrl(doc.nav, fetched.0.value.1);
      var r := PageItems(fetched.1, job, process, items, next, saved, seen);
      PageItemsStored(fetched.1, job, process, items, next, saved, seen);
      StoredChain(w, fetched.1, r.1, {}, r.0.value.seen - seen, 0, r.0.value.saved - saved);
      assert r.1.log[|w.log|] == fetched.1.log[|w.log|];
    }
  }

  lemma WebTurnAdvances(job: WebJob, process: Worker<ListingItem>)
    requires StoresOne(process)
    ensures Advances(WebTurn(job, process)) && WebTurnsDone(job, WebTurn(job, process))
  {
    forall w, url, saved, seen
      ensures WebTurnDoneFrom(job, WebTurn(job, process), w, url, saved, seen)
      ensures AdvancesFrom(WebTurn(job, process), w, url, saved, seen)
    {
      ListingStepShape(w, job, process, url, saved, seen);
    }
  }

  /** The turn of `collectContentWithWeb`. */
  lemma PipelineAdvances(job: WebJob)
    ensures Advances(WebTurn(job, WebItemWorker(job.t))) && WebTurnsDone(job, WebTurn(job, WebItemWorker(job.t)))
  {
    WebItemWorkerStores(job.t);
    WebTurnAdvances(job, WebItemWorker(job.t));
  }

  /**
   * The page loop only appends to the log; a loop that ends normally pushed
   * one web content record per item counted, for pairwise distinct ids none
   * of which was seen when it started, and returns a `lastPage` no smaller
   * than the page before its first.
   */
  lemma {:induction false} WebPagesStored(w: World, job: WebJob, step: WebStepper, url: Option<Url>, page: int, saved: int, seen: set<nat>)
    returns (ids: set<nat>)
    requires Advances(step) && WebTurnsDone(job, step)
    ensures var r := WebPages(w, job, step, url, page, saved, seen);
      w.log <= r.1.log
    ensures var r := WebPages(w, job, step, url, page, saved, seen);
      r.0.Ok? ==> Stored(w, r.1, r.0.value.0 - saved) && Within(w, r.1, ids) && ids !! seen && r.0.value.1 >= page - 1
    decreases |w.script|
  {
    if url.Some? && saved < job.limit {
      WebTurnsDoneAt(job, step, w, url.value, saved, seen);
      AdvancesAt(step, w, url.value, saved, seen);
      var r := step(w, url.value, saved, seen);
      if r.0.Ok? && r.0.value.next.Some? {
        var rest := WebPagesStored(r.1, job, step, r.0.value.next, page + 1, r.0.value.saved, r.0.value.seen);
        var done := WebPages(r.1, job, step, r.0.value.next, page + 1, r.0.value.saved, r.0.value.seen);
        ids := (r.0.value.seen - seen) + rest;
        if done.0.Ok? {
          StoredChain(w, r.1, done.1, r.0.value.seen - seen, rest, r.0.value.saved - saved, done.0.value.0 - r.0.value.saved);
        }
      } else {
        ids := if r.0.Ok? then r.0.value.seen - seen else {};
      }
    } else {
      StoredNothing(w);
      ids := {};
    }
  }

  /** A loop entered below `limit + concurrency` ends there: every page was entered below the limit. */
  lemma {:induction false} WebPagesBound(w: World, job: WebJob, step: WebStepper, url: Option<Url>, page: int, saved: int, seen: set<nat>)
    requires Advances(step) && WebTurnsDone(job, step) && saved < job.limit + Concurrency(job.concurrency)
    ensures var r := WebPages(w, job, step, url, page, saved, seen);
      r.0.Ok? ==> saved <= r.0.value.0 < job.limit + Concurrency(job.concurrency)
    decreases |w.script|
  {
    if url.Some? && saved < job.limit {
      WebTurnsDoneAt(job, step, w, url.value, saved, seen);
      AdvancesAt(step, w, url.value, saved, seen);
      var r := step(w, url.value, saved, seen);
      if r.0.Ok? && r.0.value.next.Some? {
        WebPagesBound(r.1, job, step, r.0.value.next, page + 1, r.0.value.saved, r.0.value.seen);
      }
    }
  }

  /**
   * `collectContentWithWeb` from `startPage`: without a positive limit it
   * returns `{collected: 0, lastPage: startPage - 1}` at once; otherwise it
   * runs the page loop from the first listing URL, with nothing seen.
   */
  function CollectWeb(w: World, job: WebJob, startPage: int): (Outcome<(int, int)>, World) {
    if job.limit <= 0 then (Ok((0, startPage - 1)), w)
    else
      PipelineAdvances(job);
      WebPages(w, job, WebTurn(job, WebItemWorker(job.t)), Some(FirstUrl(job, startPage)), startPage, 0, {})
  }

  /**
   * The web pipeline fetches nothing without a positive limit; otherwise
   * its first request is the first listing page. A call that ends normally
   * pushed exactly `collected` records, web content records for pairwise
   * distinct ids (no id is processed twice in one call), and counted each;
   * `collected` stays below `limit + concurrency`.
   */
  lemma CollectWebShape(w: World, job: WebJob, startPage: int)
    ensures job.limit <= 0 ==> CollectWeb(w, job, startPage) == (Ok((0, startPage - 1)), w)
    ensures var r := CollectWeb(w, job, startPage);
      job.limit > 0 ==> |w.log| < |r.1.log| && r.1.log[|w.log|] == Sent(WebGet(FirstUrl(job, startPage)), Next(w.script))
    ensures var r := CollectWeb(w, job, startPage);
      r.0.Ok? ==> Stored(w, r.1, r.0.value.0) &&
                  0 <= r.0.value.0 < Max(job.limit, 0) + Concurrency(job.concurrency) &&
                  r.0.value.1 >= startPage - 1
  {
    if job.limit > 0 {
      var step := WebTurn(job, WebItemWorker(job.t));
      PipelineAdvances(job);
      var url := FirstUrl(job, startPage);
      var _ := WebPagesStored(w, job, step, Some(url), startPage, 0, {});
      WebPagesBound(w, job, step, Some(url), startPage, 0, {});
      WebTurnsDoneAt(job, step, w, url, 0, {});
      var r := step(w, url, 0, {});
      var _ := WebPagesStored(r.1, job, step, if r.0.Ok? then r.0.value.next else None, startPage + 1,
                              if r.0.Ok? then r.0.value.saved else 0, if r.0.Ok? then r.0.value.seen else {});
    } else {
      StoredNothing(w);
    }
  }

  /** The candidates of a page, item by item, adding each new id to the seen set. */
  method FreshCandidates(items: seq<ListingItem>, seen: set<nat>) returns (candidates: seq<ListingItem>, seen': set<nat>)
    ensures (candidates, seen') == Fresh(items, seen)
  {
    candidates := [];
    seen' := seen;
    assert items[0..] == items;
    assert [] + Fresh(items, seen).0 == Fresh(items, seen).0;
    for i := 0 to |items|
      invariant (candidates + Fresh(items[i..], seen').0, Fresh(items[i..], seen').1) == Fresh(items, seen)
    {
      assert items[i..][1..] == items[i + 1..];
      if items[i].id !in seen' {
        seen' := seen' + {items[i].id};
        assert candidates + ([items[i]] + Fresh(items[i + 1..], seen').0) == (candidates + [items[i]]) + Fresh(items[i + 1..], seen').0;
        candidates := candidates + [items[i]];
      }
    }
    assert items[|items|..] == [];
    assert candidates + [] == candidates;
  }

  /** `pushWebContentRecord` after the item's detail page, on the objects. */
  method StoreWebItem(env: Env, stats: Stats, t: ContentType, item: ListingItem) returns (k: int)
    modifies env, stats
    ensures (k, Now(env, stats)) == StoreItem(old(Now(env, stats)), t, item)
  {
    var page := FetchWebPage(env, stats, item.href);
    k := PushWebItem(env, stats, t, item, page);
  }

  /** The record of an item whose detail page came back, stored and counted on the objects. */
  method PushWebItem(env: Env, stats: Stats, t: ContentType, item: ListingItem, page: Outcome<(Document, Url)>) returns (k: int)
    modifies env, stats
    ensures (k, Now(env, stats)) == StoreFetched((page, old(Now(env, stats))), t, item)
  {
    if page.Threw? {
      return 0;
    }
    var rec := WebContentRecordOf(item, page.value.0.data, t);
    env.Push(WebContent(rec));
    stats.contents := stats.contents + 1;
    k := 1;
  }

  /** A batch loop that stores item `i` with `StoreItem` has run the web worker on it. */
  lemma StoreItemStep(w0: World, t: ContentType, batch: seq<ListingItem>, i: int, done: int, w: World, k: int, w': World)
    requires 0 <= i < |batch|
    requires SameSum(w0, WebItemWorker(t), batch, i, done, w)
    requires (k, w') == StoreItem(w, t, batch[i])
    ensures SameSum(w0, WebItemWorker(t), batch, i + 1, done + k, w')
  {
    assert WebItemWorker(t)(w, batch[i]) == StoreItem(w, t, batch[i]);
    BatchLoopStep(w0, WebItemWorker(t), batch, i, done, w, k, w');
  }

  /** One batch of listing items: their results, summed. */
  method RunWebBatch(env: Env, stats: Stats, t: ContentType, batch: seq<ListingItem>) returns (done: int)
    modifies env, stats
    ensures (done, Now(env, stats)) == BatchFrom(old(Now(env, stats)), WebItemWorker(t), batch)
  {
    ghost var w0 := Now(env, stats);
    done := 0;
    for i := 0 to |batch|
      invariant SameSum(w0, WebItemWorker(t), batch, i, done, Now(env, stats))
    {
      ghost var before := Now(env, stats);
      var k := StoreWebItem(env, stats, t, batch[i]);
      StoreItemStep(w0, t, batch, i, done, before, k, Now(env, stats));
      done := done + k;
    }
  }

  /** The batch loop of a page on the objects: batches are spliced off the candidates while the count is under the limit. */
  method RunWebCandidates(env: Env, stats: Stats, job: WebJob, cands: seq<ListingItem>, saved: int) returns (s: int)
    modifies env, stats
    ensures (s, Now(env, stats)) == Batches(old(Now(env, stats)), WebItemWorker(job.t), job.concurrency, job.limit, cands, saved)
  {
    ghost var w0 := Now(env, stats);
    var candidates := cands;
    s := saved;
    while candidates != [] && s < job.limit
      invariant SameEnd(w0, WebItemWorker(job.t), job.concurrency, job.limit, cands, saved, Now(env, stats), candidates, s)
      decreases |candidates|
    {
      var n := Min(Concurrency(job.concurrency), |candidates|);
      var done := RunWebCandidatesTurn(env, stats, job, w0, cands, saved, candidates, s, n);
      candidates := candidates[n..];
      s := s + done;
    }
  }

  /** One turn of the batch loop on the objects: the next batch of candidates, after which the loop still ends as it would have. */
  method RunWebCandidatesTurn(env: Env, stats: Stats, job: WebJob, ghost w0: World, ghost cands: seq<ListingItem>, ghost saved0: int,
                              candidates: seq<ListingItem>, s: int, n: int) returns (done: int)
    requires candidates != [] && s < job.limit && n == Min(Concurrency(job.concurrency), |candidates|)
    requires SameEnd(w0, WebItemWorker(job.t), job.concurrency, job.limit, cands, saved0, Now(env, stats), candidates, s)
    modifies env, stats
    ensures SameEnd(w0, WebItemWorker(job.t), job.concurrency, job.limit, cands, saved0, Now(env, stats), candidates[n..], s + done)
  {
    ghost var before := Now(env, stats);
    done := RunWebBatch(env, stats, job.t, candidates[..n]);
    BatchesLoopStep(w0, WebItemWorker(job.t), job.concurrency, job.limit, cands, saved0, before, candidates, s, n, done, Now(env, stats));
  }

  /** One listing page on the objects. */
  method ScrapeListingPage(env: Env, stats: Stats, job: WebJob, url: Url, saved: int, seen: set<nat>) returns (out: Outcome<WebEnd>)
    modifies env, stats
    ensures (out, Now(env, stats)) == ListingStep(old(Now(env, stats)), job, WebItemWorker(job.t), url, saved, seen)
  {
    var fetched := FetchWebPage(env, stats, url);
    if fetched.Threw? {
      return Threw;
    }
    var items := ExtractListingItems(fetched.value.0.cards, job.t);
    if items == [] {
      return Ok(WebEnd(saved, seen, None));
    }
    var candidates, seen' := FreshCandidates(items, seen);
    var s := RunWebCandidates(env, stats, job, candidates, saved);
    return Ok(WebEnd(s, seen', ResolveNextUrl(fetched.value.0.nav, fetched.value.1)));
  }

  /** `collectContentWithWeb` on the objects, from `startPage`. */
  method CollectContentWithWeb(env: Env, stats: Stats, job: WebJob, startPage: int) returns (out: Outcome<(int, int)>)
    modifies env, stats
    ensures (out, Now(env, stats)) == CollectWeb(old(Now(env, stats)), job, startPage)
  {
    if job.limit <= 0 {
      return Ok((0, startPage - 1));
    }
    ghost var w0 := Now(env, stats);
    PipelineAdvances(job);
    var saved := 0;
    var page := startPage;
    var nextUrl: Option<Url> := Some(FirstUrl(job, startPage));
    var seen: set<nat> := {};
    var lastPage := startPage - 1;
    while nextUrl.Some? && saved < job.limit
      invariant WebPages(Now(env, stats), job, WebTurn(job, WebItemWorker(job.t)), nextUrl, page, saved, seen)
             == WebPages(w0, job, WebTurn(job, WebItemWorker(job.t)), Some(FirstUrl(job, startPage)), startPage, 0, {})
      invariant lastPage == page - 1
      decreases |env.script|
    {
      lastPage := page;
      ghost var before := Now(env, stats);
      AdvancesAt(WebTurn(job, WebItemWorker(job.t)), before, nextUrl.value, saved, seen);
      var step := ScrapeListingPage(env, stats, job, nextUrl.value, saved, seen);
      if step.Threw? {
        return Threw;
      }
      saved := step.value.saved;
      if step.value.next.None? {
        return Ok((saved, lastPage));
      }
      seen := step.value.seen;
      nextUrl := step.value.next;
      page := page + 1;
    }
    return Ok((saved, lastPage));
  }
}
