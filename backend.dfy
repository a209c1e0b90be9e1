/**
 * The world the scraper talks to. Every request goes out through one
 * oracle: a script of replies consumed in order (an exhausted script makes
 * every further request fail). What the scraper does to the world is one
 * ordered log: each request sent, each record pushed to the dataset, each
 * state written to the key-value store. The `stats` object of the source
 * holds the counters.
 *
 * `tmdbApiRequest` and `fetchWebPage` are modelled here: a request that
 * fails (transport error, HTTP status of 400 or more, a reply of the wrong
 * kind) throws, and an API request without a key throws before anything is
 * sent.
 */
module Backend {
  import opened Wrappers
  import opened Lists
  import opened Params
  import opened Records
  import opened Listing

  /** The API paths the scraper requests. */
  datatype Endpoint =
    | SearchContent(t: ContentType)
    | DiscoverContent(t: ContentType)
    | ContentDetail(t: ContentType, id: int)
    | ContentReviews(t: ContentType, id: int)
    | CollectionDetail(id: int)
    | SearchPerson
    | PersonDetailPath(id: int)
  {
    function Path(): string {
      match this
      case SearchContent(t) => "/search/" + t.Name()
      case DiscoverContent(t) => "/discover/" + t.Name()
      case ContentDetail(t, id) => "/" + t.Name() + "/" + Text.IntToString(id)
      case ContentReviews(t, id) => "/" + t.Name() + "/" + Text.IntToString(id) + "/reviews"
      case CollectionDetail(id) => "/collection/" + Text.IntToString(id)
      case SearchPerson => "/search/person"
      case PersonDetailPath(id) => "/person/" + Text.IntToString(id)
    }
  }

  /**
   * A request: an API path with the key and the parameter object it is
   * sent with, whose query on the wire is `ApiQuery(apiKey, params.Object())`;
   * or a web page.
   */
  datatype Request =
    | ApiGet(endpoint: Endpoint, apiKey: string, params: ApiParams)
    | WebGet(url: Url)
  {
    /** The URL the request goes to. */
    function Target(): Url {
      match this
      case ApiGet(ep, apiKey, ps) => Url(API_BASE + ep.Path(), Wire(ApiQuery(apiKey, ps.Object())))
      case WebGet(url) => url
    }
  }

  /**
   * A JSON body of the API. A field the body lacks reads as `undefined`, so
   * the accessors below give the source's defaults for a body of another shape.
   */
  datatype ApiBody =
    | ResultsPage(ids: Option<seq<int>>, totalPages: Option<int>)
    | ReviewsPage(reviews: Option<seq<JsValue>>)
    | DetailBody(detail: Detail)
    | CollectionBody(collection: Collection)
    | PersonBody(person: PersonDetail)

  /** A web page as the scraper reads it: its listing cards, its pagination, and what the detail extractor finds. */
  datatype Document = Document(cards: seq<Card>, nav: Navigation, data: WebDetail)

  datatype Reply =
    | Failed
    | Json(body: ApiBody)
    | Html(doc: Document, finalUrl: Option<Url>)

  /** The checkpoint object the run persists (`state`). */
  datatype State = State(
    currentType: Option<ContentType>, currentQuery: Option<string>, currentPage: int,
    collectedForCurrent: int, apiAvailable: bool,
    peopleCurrentQuery: Option<string>, peoplePage: int, peopleCollected: int)

  datatype Event =
    | Sent(request: Request, reply: Reply)
    | Pushed(record: Record)
    | Persisted(state: Option<State>)

  /** How a call ends: with a value, or with an exception. */
  datatype Outcome<T> = Ok(value: T) | Threw

  /** The script of replies still to come, the log so far, and the counters of `stats`. */
  datatype World = World(script: seq<Reply>, log: seq<Event>, contents: int, extraItems: int, apiFailures: int)

  function Min(a: int, b: int): int {
    if a < b then a else b
  }

  function Max(a: int, b: int): int {
    if a < b then b else a
  }

  /**
   * Events that only ask for something: requests, none of them for a page of
   * content results.
   */
  predicate Quiet(events: seq<Event>) {
    forall e | e in events :: e.Sent? && !IsListing(e.request) && !IsDetail(e.request)
  }

  /** `response.results ?? []`, as ids. */
  function ResultIds(b: ApiBody): seq<int> {
    if b.ResultsPage? then b.ids.GetOr([]) else []
  }

  /** `response.total_pages ?? 1` */
  function TotalPages(b: ApiBody): int {
    if b.ResultsPage? then b.totalPages.GetOr(1) else 1
  }

  /** `response.results ?? []`, as reviews. */
  function ReviewResults(b: ApiBody): seq<JsValue> {
    if b.ReviewsPage? then b.reviews.GetOr([]) else []
  }

  /** A body that is not a detail reads as a detail with no field at all. */
  function DetailOf(b: ApiBody): Detail {
    if b.DetailBody? then b.detail
    else Detail(0, None, None, None, None, None, None, None, None, None, None, None, JsNull, JsNull, map[], None, None, None, None, None)
  }

  function CollectionOf(b: ApiBody): Collection {
    if b.CollectionBody? then b.collection else Collection(JsNull, JsNull, JsNull, JsNull, JsNull, None)
  }

  function PersonOf(b: ApiBody): PersonDetail {
    if b.PersonBody? then b.person else PersonDetail(JsNull, map[], None, None)
  }

  /** Whether a request asks for a page of content results (a search or a discover page). */
  predicate IsListing(r: Request) {
    r.ApiGet? && (r.endpoint.SearchContent? || r.endpoint.DiscoverContent?)
  }

  /** Whether a request asks for the detail of one title. */
  predicate IsDetail(r: Request) {
    r.ApiGet? && r.endpoint.ContentDetail?
  }

  /** The ids of the titles whose detail a log asks for, in order. */
  function DetailIds(log: seq<Event>): seq<int> {
    if log == [] then []
    else
      var e := log[|log| - 1];
      DetailIds(log[..|log| - 1]) + if e.Sent? && IsDetail(e.request) then [e.request.endpoint.id] else []
  }

  /** The content listing requests of a log, in order. */
  function ListingRequests(log: seq<Event>): seq<Request> {
    if log == [] then []
    else
      var e := log[|log| - 1];
      ListingRequests(log[..|log| - 1]) + if e.Sent? && IsListing(e.request) then [e.request] else []
  }

  /** The replies to the content listing requests of a log, in order. */
  function ListingReplies(log: seq<Event>): seq<Reply> {
    if log == [] then []
    else
      var e := log[|log| - 1];
      ListingReplies(log[..|log| - 1]) + if e.Sent? && IsListing(e.request) then [e.reply] else []
  }

  /** The requests of a log, in order. */
  function Requests(log: seq<Event>): seq<Request> {
    if log == [] then []
    else
      var e := log[|log| - 1];
      Requests(log[..|log| - 1]) + if e.Sent? then [e.request] else []
  }

  /** The records of a log, in order. */
  function PushedRecords(log: seq<Event>): seq<Record> {
    if log == [] then []
    else
      var e := log[|log| - 1];
      PushedRecords(log[..|log| - 1]) + if e.Pushed? then [e.record] else []
  }

  lemma {:induction false} RequestsAppend(a: seq<Event>, b: seq<Event>)
    ensures Requests(a + b) == Requests(a) + Requests(b)
    decreases |b|
  {
    if b == [] {
      assert a + b == a;
    } else {
      var b' := b[..|b| - 1];
      RequestsAppend(a, b');
      assert (a + b)[..|a + b| - 1] == a + b';
      assert (a + b)[|a + b| - 1] == b[|b| - 1];
    }
  }

  lemma {:induction false} ListingRequestsAppend(a: seq<Event>, b: seq<Event>)
    ensures ListingRequests(a + b) == ListingRequests(a) + ListingRequests(b)
    decreases |b|
  {
    if b == [] {
      assert a + b == a;
    } else {
      var b' := b[..|b| - 1];
      ListingRequestsAppend(a, b');
      assert (a + b)[..|a + b| - 1] == a + b';
      assert (a + b)[|a + b| - 1] == b[|b| - 1];
    }
  }

  lemma {:induction false} PushedRecordsAppend(a: seq<Event>, b: seq<Event>)
    ensures PushedRecords(a + b) == PushedRecords(a) + PushedRecords(b)
    decreases |b|
  {
    if b == [] {
      assert a + b == a;
    } else {
      var b' := b[..|b| - 1];
      PushedRecordsAppend(a, b');
      assert (a + b)[..|a + b| - 1] == a + b';
      assert (a + b)[|a + b| - 1] == b[|b| - 1];
    }
  }

  /** What one more event adds to the projections of a log. */
  lemma AppendOne(log: seq<Event>, e: Event)
    ensures PushedRecords(log + [e]) == PushedRecords(log) + if e.Pushed? then [e.record] else []
    ensures ListingRequests(log + [e]) == ListingRequests(log) + if e.Sent? && IsListing(e.request) then [e.request] else []
    ensures ListingReplies(log + [e]) == ListingReplies(log) + if e.Sent? && IsListing(e.request) then [e.reply] else []
    ensures DetailIds(log + [e]) == DetailIds(log) + if e.Sent? && IsDetail(e.request) then [e.request.endpoint.id] else []
  {
    assert (log + [e])[..|log + [e]| - 1] == log;
  }

  /** Events that only ask for something push no record and ask for no content page and no title. */
  lemma {:induction false} QuietLog(log: seq<Event>, q: seq<Event>)
    requires Quiet(q)
    ensures PushedRecords(log + q) == PushedRecords(log)
    ensures ListingRequests(log + q) == ListingRequests(log)
    ensures ListingReplies(log + q) == ListingReplies(log)
    ensures DetailIds(log + q) == DetailIds(log)
    decreases |q|
  {
    if q == [] {
      assert log + q == log;
    } else {
      var q' := q[..|q| - 1];
      assert q == q' + [q[|q| - 1]];
      assert q[|q| - 1] in q;
      QuietLog(log, q');
      assert log + q == (log + q') + [q[|q| - 1]];
      AppendOne(log + q', q[|q| - 1]);
    }
  }

  /** The reply a script gives next: its first, or a failure once it is exhausted. */
  function Next(script: seq<Reply>): Reply {
    if script == [] then Failed else script[0]
  }

  /** The script after one request. */
  function Rest(script: seq<Reply>): seq<Reply> {
    if script == [] then [] else script[1..]
  }

  /** The next reply of the script; the request and its reply are logged. */
  function Exchange(w: World, req: Request): (r: (Reply, World))
    ensures r.0 == Next(w.script)
    ensures r.1 == w.(script := Rest(w.script), log := w.log + [Sent(req, Next(w.script))])
    ensures |r.1.script| <= |w.script|
    ensures r.0 != Failed ==> |r.1.script| < |w.script|
  {
    (Next(w.script), w.(script := Rest(w.script), log := w.log + [Sent(req, Next(w.script))]))
  }

  /**
   * `tmdbApiRequest`: without a key it throws and sends nothing; otherwise
   * it sends the path with `api_key` and the kept parameters, and gives the
   * JSON body, or throws when the request fails.
   */
  function ApiCall(w: World, apiKey: string, ep: Endpoint, ps: ApiParams): (r: (Outcome<ApiBody>, World))
    ensures apiKey == "" ==> r == (Threw, w)
    ensures apiKey != "" ==> r.1 == w.(script := Rest(w.script), log := w.log + [Sent(ApiGet(ep, apiKey, ps), Next(w.script))])
    ensures |r.1.script| <= |w.script|
    ensures r.0.Ok? ==> |r.1.script| < |w.script|
    ensures r.0.Ok? ==> apiKey != "" && w.script != [] && w.script[0] == Json(r.0.value) && r.1.script == w.script[1..]
  {
    if apiKey == "" then (Threw, w)
    else
      var ex := Exchange(w, ApiGet(ep, apiKey, ps));
      if ex.0.Json? then (Ok(ex.0.body), ex.1) else (Threw, ex.1)
  }

  /** `fetchWebPage`: the page and its final URL (the requested one when the reply names none), or an exception. */
  function WebCall(w: World, url: Url): (r: (Outcome<(Document, Url)>, World))
    ensures r.1 == w.(script := Rest(w.script), log := w.log + [Sent(WebGet(url), Next(w.script))])
    ensures |r.1.script| <= |w.script|
    ensures r.0.Ok? ==> |r.1.script| < |w.script|
  {
    var ex := Exchange(w, WebGet(url));
    if ex.0.Html? then (Ok((ex.0.doc, ex.0.finalUrl.GetOr(url))), ex.1) else (Threw, ex.1)
  }

  /** `Dataset.pushData(record)`: the record is logged. */
  function Push(w: World, rec: Record): (r: World)
    ensures r == w.(log := w.log + [Pushed(rec)])
  {
    w.(log := w.log + [Pushed(rec)])
  }

  /** `Actor.setValue(stateKey, state)`: the state, or `null`, is logged. */
  function Persist(w: World, s: Option<State>): (r: World)
    ensures r == w.(log := w.log + [Persisted(s)])
  {
    w.(log := w.log + [Persisted(s)])
  }

  /** The network, the dataset and the key-value store. */
  class Env {
    var script: seq<Reply>
    var log: seq<Event>

    constructor (script: seq<Reply>)
      ensures this.script == script && log == []
    {
      this.script := script;
      log := [];
    }

    method Exchange(req: Request) returns (reply: Reply)
      modifies this
      ensures reply == Next(old(script)) && script == Rest(old(script))
      ensures log == old(log) + [Sent(req, reply)]
    {
      if script == [] {
        reply := Failed;
      } else {
        reply := script[0];
        script := script[1..];
      }
      log := log + [Sent(req, reply)];
    }

    method Push(rec: Record)
      modifies this
      ensures script == old(script) && log == old(log) + [Pushed(rec)]
    {
      log := log + [Pushed(rec)];
    }

    method Persist(s: Option<State>)
      modifies this
      ensures script == old(script) && log == old(log) + [Persisted(s)]
    {
      log := log + [Persisted(s)];
    }
  }

  /** The run's `stats` object (its `mode` text is left out). */
  class Stats {
    var contents: int
    var extraItems: int
    var apiFailures: int

    constructor ()
      ensures contents == 0 && extraItems == 0 && apiFailures == 0
    {
      contents := 0;
      extraItems := 0;
      apiFailures := 0;
    }
  }

  /** The world as the objects hold it now. */
  function Now(env: Env, stats: Stats): World
    reads env, stats
  {
    World(env.script, env.log, stats.contents, stats.extraItems, stats.apiFailures)
  }

  /** `tmdbApiRequest` on the objects. */
  method ApiRequest(env: Env, stats: Stats, apiKey: string, ep: Endpoint, ps: ApiParams) returns (out: Outcome<ApiBody>)
    modifies env
    ensures (out, Now(env, stats)) == ApiCall(old(Now(env, stats)), apiKey, ep, ps)
  {
    if apiKey == "" {
      return Threw;
    }
    var reply := env.Exchange(ApiGet(ep, apiKey, ps));
    out := if reply.Json? then Ok(reply.body) else Threw;
  }

  /** `fetchWebPage` on the objects. */
  method FetchWebPage(env: Env, stats: Stats, url: Url) returns (out: Outcome<(Document, Url)>)
    modifies env
    ensures (out, Now(env, stats)) == WebCall(old(Now(env, stats)), url)
  {
    var reply := env.Exchange(WebGet(url));
    out := if reply.Html? then Ok((reply.doc, reply.finalUrl.GetOr(url))) else Threw;
  }
}
