/**
 * `collectContentWithApi`: page after page of search (with a query) or
 * discover (without one) results, each page's items cut to the room left
 * under the limit and processed in batches of the effective concurrency:
 * the detail of each item is fetched and stored with its extras. An item
 * that fails counts nothing; a listing page that fails throws out of the
 * pipeline. The loop stops at `maxPages`, at the limit, at an empty page
 * and at the last page the API reports.
 */
module ApiPipeline {
  import opened Wrappers
  import opened Lists
  import opened Params
  import opened Records
  import opened Backend
  import opened Extras
  import opened Batching

  /** The arguments of `collectContentWithApi` (the delay range is left out). */
  datatype ApiJob = ApiJob(apiKey: string, t: ContentType, query: Option<string>, filters: DiscoverFilters,
                           limit: int, maxPages: int, cfg: ExtrasConfig, maxConcurrency: int)

  /** The `source` of the records the pipeline stores. */
  const API_SOURCE := "tmdb_api"

  /** Search with a query, discover without one. */
  function ListingEndpoint(job: ApiJob): Endpoint {
    if Truthy(job.query) then SearchContent(job.t) else DiscoverContent(job.t)
  }

  function ListingParams(job: ApiJob, page: int): ApiParams {
    if Truthy(job.query) then SearchQuery(job.query.value, page) else Discover(job.t, job.filters, page)
  }

  /** The request for one listing page. */
  function ListingRequest(job: ApiJob, page: int): Request {
    ApiGet(ListingEndpoint(job), job.apiKey, ListingParams(job, page))
  }

  /** The listing requests for the pages `lo` to `hi`, in order. */
  function PageRequests(job: ApiJob, lo: int, hi: int): seq<Request>
    decreases hi - lo
  {
    if hi < lo then [] else PageRequests(job, lo, hi - 1) + [ListingRequest(job, hi)]
  }

  /** `items.slice(0, room)`: a negative end counts back from the end of the page. */
  function Queue(items: seq<int>, room: int): (q: seq<int>)
    ensures 0 <= room ==> q == items[..Min(|items|, room)]
    ensures |q| <= |items| && q == items[..|q|]
  {
    if 0 <= room then items[..Min(|items|, room)] else items[..Max(0, |items| + room)]
  }

  /**
   * One item: its detail, then `pushContentAndExtras`; 1 when both succeed,
   * 0 when either throws.
   */
  function ProcessItem(w: World, job: ApiJob, id: int): (int, World) {
    var detail := ApiCall(w, job.apiKey, ContentDetail(job.t, id), DetailAppend(job.cfg));
    if detail.0.Threw? then (0, detail.1)
    else
      var pushed := ContentAndExtras(detail.1, DetailOf(detail.0.value), job.t, job.apiKey, job.cfg, API_SOURCE);
      (if pushed.0.Ok? then 1 else 0, pushed.1)
  }

  /** The per-item function of the batches (the function `batch.map` is given). */
  function ItemWorker(job: ApiJob): Worker<int> {
    (w, id) => ProcessItem(w, job, id)
  }

  /** How a page ended: the count saved so far, and whether the loop goes on to the next page. */
  datatype PageEnd = PageEnd(saved: int, more: bool)

  /** One turn of the page loop, with `process` the per-item work. */
  function PageStep(w: World, job: ApiJob, process: Worker<int>, page: int, saved: int): (Outcome<PageEnd>, World)
  {
    AfterListing(ApiCall(w, job.apiKey, ListingEndpoint(job), ListingParams(job, page)), job, process, page, saved)
  }

  /** The rest of a turn once the listing page came back: its items, cut to the room left, run in batches. */
  function AfterListing(response: (Outcome<ApiBody>, World), job: ApiJob, process: Worker<int>, page: int, saved: int)
    : (Outcome<PageEnd>, World)
  {
    if response.0.Threw? then (Threw, response.1)
    else
      var items := ResultIds(response.0.value);
      if items == [] then (Ok(PageEnd(saved, false)), response.1)
      else
        var batches := Batches(response.1, process, job.maxConcurrency, job.limit, Queue(items, job.limit - saved), saved);
        (Ok(PageEnd(batches.0, TotalPages(response.0.value) > page)), batches.1)
  }

  /** A turn of the page loop: the page and the count saved so far in, how the page ended out. */
  type Stepper = (World, int, int) -> (Outcome<PageEnd>, World)

  /** The turn of `collectContentWithApi`'s page loop, with `process` the per-item work. */
  function Turn(job: ApiJob, process: Worker<int>): Stepper {
    (w, page, saved) => PageStep(w, job, process, page, saved)
  }

  /** The page loop from `page` on, with `saved` saved: `{collected, lastPage}`, or the exception of a listing page. */
  function ApiPages(w: World, job: ApiJob, step: Stepper, page: int, saved: int): (Outcome<(int, int)>, World)
    decreases job.maxPages - page
  {
    if page <= job.maxPages && saved < job.limit then
      var r := step(w, page, saved);
      if r.0.Threw? then (Threw, r.1)
      else if r.0.value.more then ApiPages(r.1, job, step, page + 1, r.0.value.saved)
      else (Ok((r.0.value.saved, page)), r.1)
    else (Ok((saved, page - 1)), w)
  }

  /** The reply to a listing page that lets the loop go on: items, and more pages after this one. */
  predicate Continued(reply: Reply, page: int) {
    reply.Json? && ResultIds(reply.body) != [] && TotalPages(reply.body) > page
  }

  /**
   * `w'` is `w` after the details of `ids` were asked for, in this order,
   * with `n` of the items saved; no listing page was asked for.
   */
  predicate ItemsDone(w: World, w': World, ids: seq<int>, n: int) {
    w.log <= w'.log
    && DetailIds(w'.log) == DetailIds(w.log) + ids
    && ListingRequests(w'.log) == ListingRequests(w.log) && ListingReplies(w'.log) == ListingReplies(w.log)
    && 0 <= n <= |ids| && w'.contents >= w.contents + n && w'.apiFailures == w.apiFailures
    && |w'.script| <= |w.script|
  }

  lemma ChainItems(w: World, w1: World, w2: World, a: seq<int>, b: seq<int>, n: int, m: int)
    requires ItemsDone(w, w1, a, n) && ItemsDone(w1, w2, b, m)
    ensures ItemsDone(w, w2, a + b, n + m)
  {
    assert DetailIds(w.log) + a + b == DetailIds(w.log) + (a + b);
  }

  lemma NoItems(w: World)
    ensures ItemsDone(w, w, [], 0)
  {
    assert DetailIds(w.log) + [] == DetailIds(w.log);
  }

  /** An item asks for its own detail and nothing listed, and is saved only once its content record is stored. */
  lemma ProcessItemShape(w: World, job: ApiJob, id: int)
    requires job.apiKey != ""
    ensures ItemsDone(w, ProcessItem(w, job, id).1, [id], ProcessItem(w, job, id).0)
  {
    var ep := ContentDetail(job.t, id);
    var call := ApiCall(w, job.apiKey, ep, DetailAppend(job.cfg));
    AppendOne(w.log, Sent(ApiGet(ep, job.apiKey, DetailAppend(job.cfg)), Next(w.script)));
    if call.0.Ok? {
      var _ := ContentAndExtrasOrder(call.1, DetailOf(call.0.value), job.t, job.apiKey, job.cfg, API_SOURCE);
    }
  }

  /** A worker that asks for the detail of its item and nothing listed, saving it or not. */
  ghost predicate Fetches(process: Worker<int>) {
    forall w, id :: ItemsDone(w, process(w, id).1, [id], process(w, id).0)
  }

  lemma FetchesCounts(process: Worker<int>)
    requires Fetches(process)
    ensures Counts(process)
  {
    forall w, id
      ensures 0 <= process(w, id).0 <= 1
    {
      assert ItemsDone(w, process(w, id).1, [id], process(w, id).0);
    }
  }

  /** With a key, the item work of `collectContentWithApi` asks for each item's detail. */
  lemma ItemWorkerFetches(job: ApiJob)
    requires job.apiKey != ""
    ensures Fetches(ItemWorker(job))
  {
    forall w, id
      ensures ItemsDone(w, ItemWorker(job)(w, id).1, [id], ItemWorker(job)(w, id).0)
    {
      ProcessItemShape(w, job, id);
    }
  }

  lemma FetchesAt(process: Worker<int>, w: World, id: int)
    requires Fetches(process)
    ensures ItemsDone(w, process(w, id).1, [id], process(w, id).0)
  {
  }

  /** A batch asks for the details of its items, in order. */
  lemma {:induction false} BatchFromShape(w: World, process: Worker<int>, batch: seq<int>)
    requires Fetches(process)
    ensures ItemsDone(w, BatchFrom(w, process, batch).1, batch, BatchFrom(w, process, batch).0)
    decreases |batch|
  {
    if batch == [] {
      NoItems(w);
    } else {
      var first := process(w, batch[0]);
      FetchesAt(process, w, batch[0]);
      var rest := BatchFrom(first.1, process, batch[1..]);
      BatchFromShape(first.1, process, batch[1..]);
      ChainItems(w, first.1, rest.1, [batch[0]], batch[1..], first.0, rest.0);
      assert [batch[0]] + batch[1..] == batch;
    }
  }

  /**
   * One page asks for its listing page: the request for `page` and its reply
   * are logged (nothing is sent without a key); a reply that is not JSON
   * throws; otherwise the loop goes on exactly when the page had items and
   * more pages follow it.
   */
  lemma PageStepListing(w: World, job: ApiJob, process: Worker<int>, page: int, saved: int)
    ensures var r := PageStep(w, job, process, page, saved);
      job.apiKey == "" ==> r == (Threw, w)
    ensures var r := PageStep(w, job, process, page, saved);
      job.apiKey != "" && r.0.Threw? ==>
        ListingRequests(r.1.log) == ListingRequests(w.log) + [ListingRequest(job, page)] &&
        ListingReplies(r.1.log) == ListingReplies(w.log) + [Next(w.script)]
    ensures var r := PageStep(w, job, process, page, saved);
      r.0.Threw? <==> job.apiKey == "" || !Next(w.script).Json?
    ensures var r := PageStep(w, job, process, page, saved);
      r.0.Ok? ==> (r.0.value.more <==> Continued(Next(w.script), page))
  {
    if job.apiKey != "" {
      var ep := ListingEndpoint(job);
      AppendOne(w.log, Sent(ApiGet(ep, job.apiKey, ListingParams(job, page)), Next(w.script)));
    }
  }

  /**
   * A page that answered logs its listing request and reply; a turn leaves
   * the failure count alone and only appends to the log.
   */
  lemma PageStepLog(w: World, job: ApiJob, process: Worker<int>, page: int, saved: int)
    requires saved < job.limit && (job.apiKey != "" ==> Fetches(process))
    ensures var r := PageStep(w, job, process, page, saved);
      r.0.Ok? ==>
        ListingRequests(r.1.log) == ListingRequests(w.log) + [ListingRequest(job, page)] &&
        ListingReplies(r.1.log) == ListingReplies(w.log) + [Next(w.script)]
    ensures PageStep(w, job, process, page, saved).1.apiFailures == w.apiFailures
    ensures w.log <= PageStep(w, job, process, page, saved).1.log
  {
    if job.apiKey != "" {
      var ep := ListingEndpoint(job);
      var ps := ListingParams(job, page);
      AppendOne(w.log, Sent(ApiGet(ep, job.apiKey, ps), Next(w.script)));
      ListingAfterDone(ApiCall(w, job.apiKey, ep, ps), job, process, page, saved);
    }
  }

  /**
   * A page that answered asks for the details of its items, cut to the room
   * left under the limit, in order; the count saved grows by at most that
   * many, and every item counted stored its content record.
   */
  lemma PageStepItems(w: World, job: ApiJob, process: Worker<int>, page: int, saved: int)
    requires saved < job.limit && (job.apiKey != "" ==> Fetches(process))
    ensures var r := PageStep(w, job, process, page, saved);
      r.0.Ok? ==>
        var q := Queue(ResultIds(Next(w.script).body), job.limit - saved);
        DetailIds(r.1.log) == DetailIds(w.log) + q &&
        saved <= r.0.value.saved <= saved + |q| && r.1.contents >= w.contents + (r.0.value.saved - saved)
  {
    if job.apiKey != "" {
      var ep := ListingEndpoint(job);
      var ps := ListingParams(job, page);
      AppendOne(w.log, Sent(ApiGet(ep, job.apiKey, ps), Next(w.script)));
      ListingAfterDone(ApiCall(w, job.apiKey, ep, ps), job, process, page, saved);
    }
  }

  /** After the listing page, a turn asks only for the details of the page's items, and keeps what it saved. */
  lemma ListingAfterDone(response: (Outcome<ApiBody>, World), job: ApiJob, process: Worker<int>, page: int, saved: int)
    requires saved < job.limit && Fetches(process)
    ensures var r := AfterListing(response, job, process, page, saved);
      r.0.Threw? ==> r.1 == response.1
    ensures var r := AfterListing(response, job, process, page, saved);
      r.0.Ok? ==>
        response.0.Ok? &&
        ItemsDone(response.1, r.1, Queue(ResultIds(response.0.value), job.limit - saved), r.0.value.saved - saved)
  {
    if response.0.Ok? {
      var items := ResultIds(response.0.value);
      if items == [] {
        NoItems(response.1);
      } else {
        ItemsStep(response.1, job, process, items, saved);
      }
    }
  }

  /** The items of a listing page, cut to the room left, are asked for in order; each one saved stored its record. */
  lemma ItemsStep(w: World, job: ApiJob, process: Worker<int>, items: seq<int>, saved: int)
    requires saved < job.limit && Fetches(process)
    ensures var queue := Queue(items, job.limit - saved);
      var b := Batches(w, process, job.maxConcurrency, job.limit, queue, saved);
      ItemsDone(w, b.1, queue, b.0 - saved)
  {
    var queue := Queue(items, job.limit - saved);
    FetchesCounts(process);
    BatchesWhole(w, process, job.maxConcurrency, job.limit, queue, saved);
    BatchFromShape(w, process, queue);
  }

  lemma {:induction false} PageRequestsCons(job: ApiJob, lo: int, hi: int)
    requires lo <= hi
    ensures PageRequests(job, lo, hi) == [ListingRequest(job, lo)] + PageRequests(job, lo + 1, hi)
    decreases hi - lo
  {
    if lo < hi {
      PageRequestsCons(job, lo, hi - 1);
    }
  }

  /**
   * What one turn of the page loop does, entered with `saved` saved under
   * the limit: it asks for the listing page `page` (nothing without a key),
   * throws exactly when no key is set or the reply is not JSON, goes on
   * exactly when the page continues the listing, and saves at most the room
   * left, every item counted having stored its content record.
   */
  predicate TurnDone(w: World, job: ApiJob, page: int, saved: int, r: (Outcome<PageEnd>, World)) {
    (job.apiKey == "" ==> r == (Threw, w))
    && (job.apiKey != "" ==>
          ListingRequests(r.1.log) == ListingRequests(w.log) + [ListingRequest(job, page)] &&
          ListingReplies(r.1.log) == ListingReplies(w.log) + [Next(w.script)])
    && (r.0.Threw? <==> job.apiKey == "" || !Next(w.script).Json?)
    && (r.0.Ok? ==>
          (r.0.value.more <==> Continued(Next(w.script), page)) &&
          saved <= r.0.value.saved <= job.limit && r.1.contents >= w.contents + (r.0.value.saved - saved))
    && r.1.apiFailures == w.apiFailures && w.log <= r.1.log
  }

  /** A turn, named so that `TurnsDone` is only used where a proof asks for it. */
  function PageTurnAt(step: Stepper, w: World, page: int, saved: int): (Outcome<PageEnd>, World) {
    step(w, page, saved)
  }

  /** A turn that does what a turn of the page loop does, from every world. */
  ghost predicate TurnsDone(job: ApiJob, step: Stepper) {
    forall w, page, saved {:trigger PageTurnAt(step, w, page, saved)} | 0 <= saved < job.limit ::
      TurnDone(w, job, page, saved, PageTurnAt(step, w, page, saved))
  }

  lemma TurnsDoneAt(job: ApiJob, step: Stepper, w: World, page: int, saved: int)
    requires TurnsDone(job, step) && 0 <= saved < job.limit
    ensures TurnDone(w, job, page, saved, step(w, page, saved))
  {
    assert TurnDone(w, job, page, saved, PageTurnAt(step, w, page, saved));
  }

  /** The turn of `collectContentWithApi` is such a turn, when its items fetch their details. */
  lemma TurnTurnsDone(job: ApiJob, process: Worker<int>)
    requires job.apiKey != "" ==> Fetches(process)
    ensures TurnsDone(job, Turn(job, process))
  {
    forall w, page, saved | 0 <= saved < job.limit
      ensures TurnDone(w, job, page, saved, Turn(job, process)(w, page, saved))
    {
      PageStepListing(w, job, process, page, saved);
      PageStepLog(w, job, process, page, saved);
      PageStepItems(w, job, process, page, saved);
    }
  }

  /** With a key, the page loop of `collectContentWithApi` meets `ApiPagesShape`'s requirement. */
  lemma PipelineTurnsDone(job: ApiJob)
    ensures TurnsDone(job, Turn(job, ItemWorker(job)))
  {
    if job.apiKey != "" {
      ItemWorkerFetches(job);
    }
    TurnTurnsDone(job, ItemWorker(job));
  }

  /** The replies to the listing pages the page loop asks for, in order. */
  ghost function PageReplies(w: World, job: ApiJob, step: Stepper, page: int, saved: int): seq<Reply>
    decreases job.maxPages - page
  {
    if page <= job.maxPages && saved < job.limit && job.apiKey != "" then
      var r := step(w, page, saved);
      if r.0.Ok? && r.0.value.more then [Next(w.script)] + PageReplies(r.1, job, step, page + 1, r.0.value.saved)
      else [Next(w.script)]
    else []
  }

  /** The page loop gets one listing reply per page it asks for, never past `maxPages`. */
  lemma {:induction false} ApiPagesReplies(w: World, job: ApiJob, step: Stepper, page: int, saved: int)
    requires 0 <= saved && TurnsDone(job, step)
    ensures var replies := PageReplies(w, job, step, page, saved);
      page - 1 + |replies| <= Max(page - 1, job.maxPages) &&
      ListingReplies(ApiPages(w, job, step, page, saved).1.log) == ListingReplies(w.log) + replies
    decreases job.maxPages - page
  {
    if page <= job.maxPages && saved < job.limit {
      TurnsDoneAt(job, step, w, page, saved);
      var r := step(w, page, saved);
      if job.apiKey == "" {
        assert ListingReplies(w.log) + [] == ListingReplies(w.log);
      } else if r.0.Ok? && r.0.value.more {
        ApiPagesReplies(r.1, job, step, page + 1, r.0.value.saved);
      }
    } else {
      assert ListingReplies(w.log) + [] == ListingReplies(w.log);
    }
  }

  /** The page loop asks for the consecutive pages from `page` on, one per listing reply. */
  lemma {:induction false} ApiPagesRequests(w: World, job: ApiJob, step: Stepper, page: int, saved: int)
    requires 0 <= saved && TurnsDone(job, step)
    ensures var replies := PageReplies(w, job, step, page, saved);
      ListingRequests(ApiPages(w, job, step, page, saved).1.log)
        == ListingRequests(w.log) + PageRequests(job, page, page - 1 + |replies|)
    decreases job.maxPages - page
  {
    if page <= job.maxPages && saved < job.limit {
      TurnsDoneAt(job, step, w, page, saved);
      var r := step(w, page, saved);
      if job.apiKey == "" {
        assert PageRequests(job, page, page - 1) == [];
      } else if r.0.Threw? || !r.0.value.more {
        PageRequestsCons(job, page, page);
      } else {
        var rest := PageReplies(r.1, job, step, page + 1, r.0.value.saved);
        ApiPagesRequests(r.1, job, step, page + 1, r.0.value.saved);
        PageRequestsCons(job, page, page + |rest|);
        Assoc(ListingRequests(w.log), [ListingRequest(job, page)], PageRequests(job, page + 1, page + |rest|));
      }
    } else {
      assert PageRequests(job, page, page - 1) == [];
      assert ListingRequests(w.log) + [] == ListingRequests(w.log);
    }
  }

  /**
   * A page loop that ends normally returns the last page it asked for as
   * `lastPage` and a count within the limit, every item counted having
   * stored its content record; one that asked for nothing was entered at
   * `maxPages` or the limit. No API failure is counted, and the log only grows.
   */
  lemma {:induction false} ApiPagesCount(w: World, job: ApiJob, step: Stepper, page: int, saved: int)
    requires 0 <= saved && TurnsDone(job, step)
    ensures var replies := PageReplies(w, job, step, page, saved);
      var r := ApiPages(w, job, step, page, saved);
      r.0.Ok? ==> r.0.value.1 == page - 1 + |replies| && saved <= r.0.value.0 <= Max(saved, job.limit) &&
                  r.1.contents >= w.contents + (r.0.value.0 - saved) &&
                  (replies == [] ==> page > job.maxPages || saved >= job.limit)
    ensures ApiPages(w, job, step, page, saved).1.apiFailures == w.apiFailures
    ensures w.log <= ApiPages(w, job, step, page, saved).1.log
    decreases job.maxPages - page
  {
    if page <= job.maxPages && saved < job.limit {
      TurnsDoneAt(job, step, w, page, saved);
      var r := step(w, page, saved);
      if job.apiKey != "" && r.0.Ok? && r.0.value.more {
        ApiPagesCount(r.1, job, step, page + 1, r.0.value.saved);
      }
    }
  }

  /** How a turn ends, and nothing else about it: `TurnDone` cut to what the loop's stop depends on. */
  lemma TurnEndsAt(job: ApiJob, step: Stepper, w: World, page: int, saved: int)
    requires TurnsDone(job, step) && 0 <= saved < job.limit
    ensures var r := step(w, page, saved);
      (job.apiKey == "" ==> r == (Threw, w)) &&
      (r.0.Threw? <==> job.apiKey == "" || !Next(w.script).Json?) &&
      (r.0.Ok? ==> (r.0.value.more <==> Continued(Next(w.script), page)) && saved <= r.0.value.saved)
  {
    TurnsDoneAt(job, step, w, page, saved);
  }

  /** Replies each of which but the last let the page loop go on, the first of them for `page`. */
  predicate AllContinued(replies: seq<Reply>, page: int) {
    forall i | 0 <= i < |replies| - 1 :: Continued(replies[i], page + i)
  }

  /** Every listing page before the last one asked for let the page loop go on. */
  lemma {:induction false} ApiPagesContinued(w: World, job: ApiJob, step: Stepper, page: int, saved: int)
    requires 0 <= saved && TurnsDone(job, step)
    ensures AllContinued(PageReplies(w, job, step, page, saved), page)
    decreases job.maxPages - page
  {
    if page <= job.maxPages && saved < job.limit {
      TurnEndsAt(job, step, w, page, saved);
      var r := step(w, page, saved);
      if job.apiKey != "" && r.0.Ok? && r.0.value.more {
        var rest := PageReplies(r.1, job, step, page + 1, r.0.value.saved);
        assert PageReplies(w, job, step, page, saved) == [Next(w.script)] + rest;
        ApiPagesContinued(r.1, job, step, page + 1, r.0.value.saved);
        var replies := [Next(w.script)] + rest;
        forall i | 0 <= i < |replies| - 1
          ensures Continued(replies[i], page + i)
        {
          if i > 0 {
            assert replies[i] == rest[i - 1];
          }
        }
      } else {
        assert |PageReplies(w, job, step, page, saved)| <= 1;
      }
    }
  }

  /** The last listing page asked for decides how the loop ended: it answered when the loop ended normally, and failed when it threw with a key. */
  lemma {:induction false} ApiPagesLast(w: World, job: ApiJob, step: Stepper, page: int, saved: int)
    requires 0 <= saved && TurnsDone(job, step)
    ensures var replies := PageReplies(w, job, step, page, saved);
      var r := ApiPages(w, job, step, page, saved);
      r.0.Ok? && replies != [] ==>
        replies[|replies| - 1].Json? &&
        (!Continued(replies[|replies| - 1], page - 1 + |replies|) || r.0.value.0 >= job.limit ||
         page - 1 + |replies| == job.maxPages)
    ensures var replies := PageReplies(w, job, step, page, saved);
      var r := ApiPages(w, job, step, page, saved);
      r.0.Threw? ==> (job.apiKey == "" && r.1 == w) || (replies != [] && !replies[|replies| - 1].Json?)
    decreases job.maxPages - page
  {
    if page <= job.maxPages && saved < job.limit {
      TurnEndsAt(job, step, w, page, saved);
      var r := step(w, page, saved);
      assert ApiPages(w, job, step, page, saved)
        == if r.0.Threw? then (Threw, r.1)
           else if r.0.value.more then ApiPages(r.1, job, step, page + 1, r.0.value.saved)
           else (Ok((r.0.value.saved, page)), r.1);
      if job.apiKey != "" && r.0.Ok? && r.0.value.more {
        var rest := PageReplies(r.1, job, step, page + 1, r.0.value.saved);
        assert PageReplies(w, job, step, page, saved) == [Next(w.script)] + rest;
        ApiPagesLast(r.1, job, step, page + 1, r.0.value.saved);
        if rest == [] {
          assert r.0.value.saved >= job.limit || page == job.maxPages;
        } else {
          assert ([Next(w.script)] + rest)[|rest|] == rest[|rest| - 1];
        }
      }
    }
  }

  /**
   * Every page before the last let the page loop go on, and it stops after a page only when that page answered and was
   * empty or the last one, or the limit or `maxPages` was reached; it throws
   * only without a key, before asking anything, or when the last listing
   * page asked for did not answer.
   */
  lemma ApiPagesStop(w: World, job: ApiJob, step: Stepper, page: int, saved: int)
    requires 0 <= saved && TurnsDone(job, step)
    ensures var replies := PageReplies(w, job, step, page, saved);
      AllContinued(replies, page)
    ensures var replies := PageReplies(w, job, step, page, saved);
      var r := ApiPages(w, job, step, page, saved);
      r.0.Ok? && replies != [] ==>
        replies[|replies| - 1].Json? &&
        (!Continued(replies[|replies| - 1], page - 1 + |replies|) || r.0.value.0 >= job.limit ||
         page - 1 + |replies| == job.maxPages)
    ensures var replies := PageReplies(w, job, step, page, saved);
      var r := ApiPages(w, job, step, page, saved);
      r.0.Threw? ==> (job.apiKey == "" && r.1 == w) || (replies != [] && !replies[|replies| - 1].Json?)
  {
    ApiPagesContinued(w, job, step, page, saved);
    ApiPagesLast(w, job, step, page, saved);
  }

  /** One item on the objects. */
  method ProcessApiItem(env: Env, stats: Stats, job: ApiJob, id: int) returns (k: int)
    modifies env, stats
    ensures (k, Now(env, stats)) == ProcessItem(old(Now(env, stats)), job, id)
  {
    var detail := ApiRequest(env, stats, job.apiKey, ContentDetail(job.t, id), DetailAppend(job.cfg));
    if detail.Threw? {
      return 0;
    }
    var pushed := PushContentAndExtras(env, stats, DetailOf(detail.value), job.t, job.apiKey, job.cfg, API_SOURCE);
    k := if pushed.Ok? then 1 else 0;
  }

  /** A batch loop that processes item `i` with `ProcessItem` has run the item worker on it. */
  lemma ProcessItemStep(w0: World, job: ApiJob, batch: seq<int>, i: int, done: int, w: World, k: int, w': World)
    requires 0 <= i < |batch|
    requires SameSum(w0, ItemWorker(job), batch, i, done, w)
    requires (k, w') == ProcessItem(w, job, batch[i])
    ensures SameSum(w0, ItemWorker(job), batch, i + 1, done + k, w')
  {
    assert ItemWorker(job)(w, batch[i]) == ProcessItem(w, job, batch[i]);
    BatchLoopStep(w0, ItemWorker(job), batch, i, done, w, k, w');
  }

  /** One batch: its items in order, and the sum of their results. */
  method RunApiBatch(env: Env, stats: Stats, job: ApiJob, batch: seq<int>) returns (done: int)
    modifies env, stats
    ensures (done, Now(env, stats)) == BatchFrom(old(Now(env, stats)), ItemWorker(job), batch)
  {
    ghost var w0 := Now(env, stats);
    done := 0;
    for i := 0 to |batch|
      invariant SameSum(w0, ItemWorker(job), batch, i, done, Now(env, stats))
    {
      ghost var before := Now(env, stats);
      var k := ProcessApiItem(env, stats, job, batch[i]);
      ProcessItemStep(w0, job, batch, i, done, before, k, Now(env, stats));
      done := done + k;
    }
  }

  /** The batch loop of a page on the objects: batches are spliced off the queue while the count is under the limit. */
  method RunApiQueue(env: Env, stats: Stats, job: ApiJob, queue0: seq<int>, saved: int) returns (s: int)
    modifies env, stats
    ensures (s, Now(env, stats)) == Batches(old(Now(env, stats)), ItemWorker(job), job.maxConcurrency, job.limit, queue0, saved)
  {
    ghost var w0 := Now(env, stats);
    var queue := queue0;
    s := saved;
    while queue != [] && s < job.limit
      invariant SameEnd(w0, ItemWorker(job), job.maxConcurrency, job.limit, queue0, saved, Now(env, stats), queue, s)
      decreases |queue|
    {
      var n := Min(Concurrency(job.maxConcurrency), |queue|);
      var done := RunApiQueueTurn(env, stats, job, w0, queue0, saved, queue, s, n);
      queue := queue[n..];
      s := s + done;
    }
  }

  /** One turn of the batch loop on the objects: the next batch of the queue, after which the loop still ends as it would have. */
  method RunApiQueueTurn(env: Env, stats: Stats, job: ApiJob, ghost w0: World, ghost queue0: seq<int>, ghost saved0: int,
                         queue: seq<int>, s: int, n: int) returns (done: int)
    requires queue != [] && s < job.limit && n == Min(Concurrency(job.maxConcurrency), |queue|)
    requires SameEnd(w0, ItemWorker(job), job.maxConcurrency, job.limit, queue0, saved0, Now(env, stats), queue, s)
    modifies env, stats
    ensures SameEnd(w0, ItemWorker(job), job.maxConcurrency, job.limit, queue0, saved0, Now(env, stats), queue[n..], s + done)
  {
    ghost var before := Now(env, stats);
    done := RunApiBatch(env, stats, job, queue[..n]);
    BatchesLoopStep(w0, ItemWorker(job), job.maxConcurrency, job.limit, queue0, saved0, before, queue, s, n, done, Now(env, stats));
  }

  /** One turn of the page loop on the objects. */
  method ApiPageStep(env: Env, stats: Stats, job: ApiJob, page: int, saved: int) returns (out: Outcome<PageEnd>)
    modifies env, stats
    ensures (out, Now(env, stats)) == PageStep(old(Now(env, stats)), job, ItemWorker(job), page, saved)
  {
    var response := ApiRequest(env, stats, job.apiKey, ListingEndpoint(job), ListingParams(job, page));
    out := RunListingItems(env, stats, job, response, page, saved);
  }

  /** The rest of a turn on the objects, once the listing page came back. */
  method RunListingItems(env: Env, stats: Stats, job: ApiJob, response: Outcome<ApiBody>, page: int, saved: int)
    returns (out: Outcome<PageEnd>)
    modifies env, stats
    ensures (out, Now(env, stats)) == AfterListing((response, old(Now(env, stats))), job, ItemWorker(job), page, saved)
  {
    if response.Threw? {
      return Threw;
    }
    var items := ResultIds(response.value);
    if items == [] {
      return Ok(PageEnd(saved, false));
    }
    var s := RunApiQueue(env, stats, job, Queue(items, job.limit - saved), saved);
    return Ok(PageEnd(s, TotalPages(response.value) > page));
  }

  /** `collectContentWithApi` on the objects, from `startPage`. */
  method CollectContentWithApi(env: Env, stats: Stats, job: ApiJob, startPage: int) returns (out: Outcome<(int, int)>)
    modifies env, stats
    ensures (out, Now(env, stats)) == ApiPages(old(Now(env, stats)), job, Turn(job, ItemWorker(job)), startPage, 0)
  {
    ghost var w0 := Now(env, stats);
    var saved := 0;
    var lastPage := startPage - 1;
    var page := startPage;
    while page <= job.maxPages && saved < job.limit
      invariant ApiPages(Now(env, stats), job, Turn(job, ItemWorker(job)), page, saved) == ApiPages(w0, job, Turn(job, ItemWorker(job)), startPage, 0)
      invariant lastPage == page - 1
      decreases job.maxPages - page
    {
      lastPage := page;
      var step := ApiPageStep(env, stats, job, page, saved);
      if step.Threw? {
        return Threw;
      }
      saved := step.value.saved;
      if !step.value.more {
        return Ok((saved, lastPage));
      }
      page := page + 1;
    }
    return Ok((saved, lastPage));
  }
}
