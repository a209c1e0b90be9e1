/**
 * The run of the scraper (the body of `Actor.main`): the input is checked
 * and normalised, then every requested content type is walked query by
 * query under one budget of results, with the API pipeline first and the
 * website after an API failure, then people are collected, and the
 * checkpoint `state` is persisted around every pipeline call and cleared
 * at the end.
 *
 * The three pipelines are parameters of the loop functions: the lemmas
 * about the loops need only what `ApiKeeps`, `WebKeeps` and `PeopleKeeps`
 * say about them, and `ApiRunKeeps`, `WebRunKeeps` and `PeopleRunKeeps`
 * prove it for the real ones.
 */
module Coordinator {
  import opened Wrappers
  import opened Text
  import opened Lists
  import opened Params
  import opened Backend
  import opened Records
  import opened Extras
  import opened Batching
  import opened ApiPipeline
  import opened WebPipeline
  import opened People

  /** The `contentType` values the run accepts. */
  datatype Choice = MovieChoice | TvChoice | PersonChoice | BothChoice

  /**
   * A numeric input as the run sees it: absent, `null`, a number, or a
   * value that `Number()` turns into NaN or an infinity.
   */
  datatype NumInput = Absent | Null | Num(n: int) | NotANumber

  /** The input object of the run, as far as the model reads it. */
  datatype Input = Input(
    contentType: Option<string>,
    resultsWanted: NumInput, maxPages: NumInput, maxConcurrency: NumInput,
    apiKey: Option<string>, useApiFirst: Option<bool>,
    searchQueries: JsValue, peopleQuery: JsValue, genreIds: JsValue,
    yearFrom: Option<int>, yearTo: Option<int>, sortBy: Option<string>,
    collectPeople: bool, collectReviews: bool, collectKeywords: bool, collectImages: bool, collectCollections: bool,
    maxReviewsPerContent: NumInput, maxImagesPerContent: NumInput, peopleResultsWanted: NumInput)

  /** The checkpoint a run starts from when none was saved. */
  const DEFAULT_STATE := State(None, None, 1, 0, true, None, 1, 0)

  /** `['movie', 'tv', 'person', 'both']`: which of them a name is. */
  function ChoiceOf(name: string): Option<Choice> {
    if name == "movie" then Some(MovieChoice)
    else if name == "tv" then Some(TvChoice)
    else if name == "person" then Some(PersonChoice)
    else if name == "both" then Some(BothChoice)
    else None
  }

  /** `input.contentType || 'tv'`, checked against the accepted names. */
  function ContentChoice(v: Option<string>): Option<Choice> {
    ChoiceOf(if Truthy(v) then v.value else "tv")
  }

  /** JavaScript truthiness of an input value. */
  predicate JsTruthy(v: JsValue) {
    match v
    case JsString(s) => s != ""
    case JsNumber(n) => n != 0
    case JsArray(_) => true
    case _ => false
  }

  /** The check at the top of the run: a present value that is not a finite number of at least 1 becomes `fallback`. */
  function Checked(x: NumInput, fallback: int): NumInput {
    match x
    case Num(n) => if n >= 1 then x else Num(fallback)
    case NotANumber => Num(fallback)
    case _ => x
  }

  /** A destructuring default: only an absent value takes it (`null` does not). */
  function Defaulted(x: NumInput, default: int): NumInput {
    if x.Absent? then Num(default) else x
  }

  /** `Number(x)` when it is finite: `null` is 0; absent and NaN give nothing. */
  function NumberOf(x: NumInput): Option<int> {
    match x
    case Num(n) => Some(n)
    case Null => Some(0)
    case _ => None
  }

  /** `Number.isFinite(Number(x)) && Number(x) > 0 ? Number(x) : fallback`. */
  function PositiveOr(x: NumInput, fallback: int): int {
    var v := NumberOf(x);
    if v.Some? && v.value > 0 then v.value else fallback
  }

  /**
   * A cap the run only tests and compares (`!x`, `x <= 0`, `n < x`): the
   * destructuring default when absent, the number when given, and for
   * `null` or a non-number a value that lets nothing through, as 0 does.
   */
  function CountOr(x: NumInput, default: int): int {
    match x
    case Absent => default
    case Num(n) => n
    case _ => 0
  }

  /** `Math.max(1, Number(x) || 10)`. */
  function ConcurrencyLimit(x: NumInput): int {
    var v := NumberOf(x);
    Max(1, if v.Some? && v.value != 0 then v.value else 10)
  }

  /** The content types walked for a choice: both gives movies then shows, person gives none. */
  function RequestedTypes(c: Choice): seq<ContentType> {
    match c
    case MovieChoice => [Movie]
    case TvChoice => [Tv]
    case PersonChoice => []
    case BothChoice => [Movie, Tv]
  }

  /** What the run derives from its input before it fetches anything. */
  datatype Settings = Settings(
    choice: Choice, types: seq<ContentType>, apiKey: string, useApiFirst: bool,
    queries: seq<string>, peopleQueries: seq<string>, peopleQueryGiven: bool,
    filters: DiscoverFilters, cfg: ExtrasConfig,
    limit: int, maxResults: int, pages: int, concurrency: int, peopleLimit: int)

  function SettingsOf(input: Input, c: Choice): Settings {
    var resultsWanted := Defaulted(Checked(input.resultsWanted, 5), 5);
    var maxPages := Defaulted(Checked(input.maxPages, 5), 5);
    var maxConcurrency := Defaulted(Checked(input.maxConcurrency, 10), 10);
    Settings(
      c, RequestedTypes(c),
      if input.apiKey.Some? then Trim(input.apiKey.value) else "",
      input.useApiFirst.GetOr(true),
      ParseStringList(input.searchQueries), ParseStringList(input.peopleQuery), JsTruthy(input.peopleQuery),
      DiscoverFilters(ParseNumberList(input.genreIds), input.yearFrom, input.yearTo, input.sortBy.GetOr("popularity.desc")),
      ExtrasConfig(input.collectPeople, input.collectReviews, input.collectKeywords, input.collectImages,
                   input.collectCollections, CountOr(input.maxReviewsPerContent, 25), CountOr(input.maxImagesPerContent, 20)),
      PositiveOr(resultsWanted, 5), Min(PositiveOr(resultsWanted, 5), 100),
      PositiveOr(maxPages, 1), ConcurrencyLimit(maxConcurrency),
      CountOr(input.peopleResultsWanted, 3))
  }

  /**
   * The numbers the run works with: a finite `resultsWanted` of at least 1
   * is the per-query limit and, capped at 100, the budget, and anything
   * else gives 5; `maxPages` is the given count, 1 for `null` and 5
   * otherwise; the concurrency is the given count or 10.
   */
  lemma SettingsNumbers(input: Input, c: Choice)
    ensures var s := SettingsOf(input, c);
      s.limit == (if input.resultsWanted.Num? && input.resultsWanted.n >= 1 then input.resultsWanted.n else 5) &&
      s.maxResults == Min(s.limit, 100) && 1 <= s.maxResults <= 100
    ensures SettingsOf(input, c).pages ==
      (if input.maxPages.Num? && input.maxPages.n >= 1 then input.maxPages.n
       else if input.maxPages.Null? then 1 else 5)
    ensures SettingsOf(input, c).concurrency ==
      (if input.maxConcurrency.Num? && input.maxConcurrency.n >= 1 then input.maxConcurrency.n else 10)
  {
  }

  /**
   * The caps of the extras and of the people loop: 25 reviews, 20 images
   * and 3 people when absent, the given number otherwise, and nothing at
   * all for `null` or a non-number.
   */
  lemma SettingsCounts(input: Input, c: Choice)
    ensures var s := SettingsOf(input, c);
      && s.cfg.maxReviews == (if input.maxReviewsPerContent.Absent? then 25
                              else if input.maxReviewsPerContent.Num? then input.maxReviewsPerContent.n else 0)
      && s.cfg.maxImages == (if input.maxImagesPerContent.Absent? then 20
                             else if input.maxImagesPerContent.Num? then input.maxImagesPerContent.n else 0)
      && s.peopleLimit == (if input.peopleResultsWanted.Absent? then 3
                           else if input.peopleResultsWanted.Num? then input.peopleResultsWanted.n else 0)
  {
  }

  /**
   * A `null` cap is not replaced by its default: with `maxReviewsPerContent`
   * `null` no review is fetched, with `maxImagesPerContent` `null` no images
   * record is built, and with `peopleResultsWanted` `null` the people loop
   * collects nothing and asks for nothing.
   */
  lemma NullCapsCollectNothing(input: Input, c: Choice, w: World, d: Detail, t: ContentType, query: string, startPage: int,
                               source: string)
    requires input.maxReviewsPerContent.Null? && input.maxImagesPerContent.Null? && input.peopleResultsWanted.Null?
    ensures var s := SettingsOf(input, c);
      && AllReviews(w, d, s.apiKey, t, s.cfg.maxReviews) == (Ok([]), w)
      && ImagesRecord(d, t, source, s.cfg.maxImages).None?
      && CollectPeople(w, s.apiKey, query, s.peopleLimit, startPage) == (Ok((0, startPage - 1)), w)
  {
    var s := SettingsOf(input, c);
    assert s.cfg.maxReviews == 0 && s.cfg.maxImages == 0 && s.peopleLimit == 0;
  }

  /** The guard that no content type is set: no choice can trip it. */
  predicate NothingToScrape(s: Settings) {
    |s.types| == 0 && !s.peopleQueryGiven && s.choice != PersonChoice
  }

  /** `effectiveQueries`: the search queries, or one discover pass (`null`) when there are none. */
  function EffectiveQueries(queries: seq<string>): (r: seq<Option<string>>)
    ensures |queries| > 0 ==> |r| == |queries| && forall i | 0 <= i < |r| :: r[i] == Some(queries[i])
    ensures |queries| == 0 ==> r == [None]
  {
    if |queries| > 0 then seq(|queries|, i requires 0 <= i < |queries| => Some(queries[i])) else [None]
  }

  /** The coordinator's own variables: the checkpoint, the budget left (`remainingResults`) and `apiAvailable`. */
  datatype Progress = Progress(state: State, remaining: int, apiAvailable: bool)

  /** A content pipeline: from the world, the type, the query (`null` to discover), the limit and the start page. */
  type ContentRun = (World, ContentType, Option<string>, int, int) -> (Outcome<(int, int)>, World)

  /** The people pipeline: from the world, the query and the start page. */
  type PeopleRun = (World, string, int) -> (Outcome<(int, int)>, World)

  /** `collectContentWithApi` with the run's settings. */
  function ApiRun(s: Settings, w: World, t: ContentType, query: Option<string>, limit: int, startPage: int)
    : (Outcome<(int, int)>, World)
  {
    var job := ApiJob(s.apiKey, t, query, s.filters, limit, s.pages, s.cfg, s.concurrency);
    ApiPages(w, job, Turn(job, ItemWorker(job)), startPage, 0)
  }

  /** `collectContentWithWeb` with the run's settings. */
  function WebRun(s: Settings, w: World, t: ContentType, query: Option<string>, limit: int, startPage: int)
    : (Outcome<(int, int)>, World)
  {
    CollectWeb(w, WebJob(t, query, s.filters, limit, s.concurrency), startPage)
  }

  /** `collectPeopleWithApi` with the run's settings. */
  function PeopleRunFor(s: Settings, w: World, query: string, startPage: int): (Outcome<(int, int)>, World) {
    CollectPeople(w, s.apiKey, query, s.peopleLimit, startPage)
  }

  function ApiRunOf(s: Settings): ContentRun {
    (w: World, t: ContentType, query: Option<string>, limit: int, startPage: int) => ApiRun(s, w, t, query, limit, startPage)
  }

  function WebRunOf(s: Settings): ContentRun {
    (w: World, t: ContentType, query: Option<string>, limit: int, startPage: int) => WebRun(s, w, t, query, limit, startPage)
  }

  function PeopleRunOf(s: Settings): PeopleRun {
    (w: World, query: string, startPage: int) => PeopleRunFor(s, w, query, startPage)
  }

  /**
   * The API attempt of one query: when the API is still used, the pipeline
   * runs; a normal end records the last page and the count in the state,
   * persists it and charges the budget; an exception counts an API failure,
   * switches the API off for the rest of the run and persists that.
   */
  function ApiAttempt(w: World, api: ContentRun, t: ContentType, query: Option<string>, limit: int, startPage: int,
                      p: Progress): (Progress, World)
  {
    if !p.apiAvailable then (p, w) else AfterApi(api(w, t, query, limit, startPage), p)
  }

  /** What follows the API pipeline's end `r`: the page and count recorded and charged, or the API switched off. */
  function AfterApi(r: (Outcome<(int, int)>, World), p: Progress): (Progress, World) {
    if r.0.Ok? then
      var st := p.state.(currentPage := r.0.value.1, collectedForCurrent := p.state.collectedForCurrent + r.0.value.0);
      (p.(state := st, remaining := Max(0, p.remaining - r.0.value.0)), Persist(r.1, Some(st)))
    else
      var st := p.state.(apiAvailable := false);
      (p.(state := st, apiAvailable := false), Persist(r.1.(apiFailures := r.1.apiFailures + 1), Some(st)))
  }

  /** The website attempt of one query, once the API is off: an exception ends the run. */
  function WebAttempt(w: World, web: ContentRun, t: ContentType, query: Option<string>, limit: int, startPage: int,
                      p: Progress): (Outcome<Progress>, World)
  {
    AfterWeb(web(w, t, query, limit, startPage), p)
  }

  /** What follows the web pipeline's end `r`: the page and count recorded and charged, or the run aborted. */
  function AfterWeb(r: (Outcome<(int, int)>, World), p: Progress): (Outcome<Progress>, World) {
    if r.0.Threw? then (Threw, r.1)
    else
      var st := p.state.(currentPage := r.0.value.1, collectedForCurrent := p.state.collectedForCurrent + r.0.value.0);
      (Ok(p.(state := st, remaining := Max(0, p.remaining - r.0.value.0))), Persist(r.1, Some(st)))
  }

  /** A website run that ended normally: its count and last page go into the persisted state. */
  lemma AfterWebOk(r: (Outcome<(int, int)>, World), p: Progress, state: State)
    requires r.0.Ok?
    requires state == p.state.(currentPage := r.0.value.1, collectedForCurrent := p.state.collectedForCurrent + r.0.value.0)
    ensures AfterWeb(r, p) == (Ok(p.(state := state, remaining := Max(0, p.remaining - r.0.value.0))), Persist(r.1, Some(state)))
  {
  }

  /** `limitForQuery`: the budget left, cut to the per-query limit, less what the type already collected. */
  function LimitForQuery(s: Settings, p: Progress): int {
    Min(p.remaining, s.limit) - p.state.collectedForCurrent
  }

  /** A pair with room left: the query is persisted at page 1, then the API is tried and the website used when the API is off. */
  function Attempts(w: World, api: ContentRun, web: ContentRun, t: ContentType, query: Option<string>, limitForQuery: int,
                    p: Progress): (Outcome<Progress>, World)
  {
    var st := p.state.(currentQuery := query, currentPage := 1);
    var startPage := st.currentPage;
    var a := ApiAttempt(Persist(w, Some(st)), api, t, query, limitForQuery, startPage, p.(state := st));
    if a.0.apiAvailable then (Ok(a.0), a.1)
    else WebAttempt(a.1, web, t, query, limitForQuery, startPage, a.0)
  }

  /** One (type, query) pair: with no room left it resets the type's count and fetches nothing. */
  function QueryStep(w: World, s: Settings, api: ContentRun, web: ContentRun, t: ContentType, query: Option<string>,
                     p: Progress): (Outcome<Progress>, World)
  {
    var limitForQuery := LimitForQuery(s, p);
    if limitForQuery <= 0 then (Ok(p.(state := p.state.(collectedForCurrent := 0))), w)
    else Attempts(w, api, web, t, query, limitForQuery, p)
  }

  /**
   * The query loop of a type: it stops once the budget is spent, skips
   * queries other than the saved one while resuming, and an exception
   * ends it.
   */
  function QueryLoop(w: World, s: Settings, api: ContentRun, web: ContentRun, t: ContentType,
                     queries: seq<Option<string>>, resuming: bool, p: Progress): (Outcome<Progress>, World)
    decreases |queries|
  {
    if queries == [] || p.remaining <= 0 then (Ok(p), w)
    else if resuming && queries[0] != p.state.currentQuery then QueryLoop(w, s, api, web, t, queries[1..], resuming, p)
    else
      var r := QueryStep(w, s, api, web, t, queries[0], p);
      if r.0.Threw? then r else QueryLoop(r.1, s, api, web, t, queries[1..], false, r.0.value)
  }

  /** Entering a type: the saved query, page and count of the type are reset. */
  function EnterType(st: State, t: ContentType): State {
    st.(currentType := Some(t), currentQuery := None, currentPage := 1, collectedForCurrent := 0)
  }

  /**
   * The type loop: while resuming, types other than the saved one are
   * skipped; entering a type persists its reset state, then runs its
   * queries, resuming among them when the state names a query.
   */
  function TypeLoop(w: World, s: Settings, api: ContentRun, web: ContentRun, types: seq<ContentType>,
                    resuming: bool, p: Progress): (Outcome<Progress>, World)
    decreases |types|
  {
    if types == [] then (Ok(p), w)
    else if resuming && Some(types[0]) != p.state.currentType then TypeLoop(w, s, api, web, types[1..], resuming, p)
    else
      var st := EnterType(p.state, types[0]);
      var r := QueryLoop(Persist(w, Some(st)), s, api, web, types[0], EffectiveQueries(s.queries),
                         st.currentQuery.Some?, p.(state := st));
      if r.0.Threw? then r else TypeLoop(r.1, s, api, web, types[1..], false, r.0.value)
  }

  /** Entering a people query: it is persisted at page 1 with nothing collected. */
  function EnterPeopleQuery(st: State, query: string): State {
    st.(peopleCurrentQuery := Some(query), peoplePage := 1, peopleCollected := 0)
  }

  /**
   * The people loop: while resuming, queries other than the saved one are
   * skipped; an empty query is skipped; each other query is persisted,
   * collected, and its last page and count persisted; an exception ends
   * the run.
   */
  function PeopleLoop(w: World, people: PeopleRun, queries: seq<string>, resuming: bool, st: State): (Outcome<State>, World)
    decreases |queries|
  {
    if queries == [] then (Ok(st), w)
    else if resuming && Some(queries[0]) != st.peopleCurrentQuery then PeopleLoop(w, people, queries[1..], resuming, st)
    else if queries[0] == "" then PeopleLoop(w, people, queries[1..], false, st)
    else
      var st1 := EnterPeopleQuery(st, queries[0]);
      var r := people(Persist(w, Some(st1)), queries[0], st1.peoplePage);
      if r.0.Threw? then (Threw, r.1)
      else
        var st2 := st1.(peoplePage := r.0.value.1, peopleCollected := st1.peopleCollected + r.0.value.0);
        PeopleLoop(Persist(r.1, Some(st2)), people, queries[1..], false, st2)
  }

  /** The queries of the people part: the search queries for `person` when there are any, `peopleQuery` otherwise. */
  function PeopleQueries(s: Settings): seq<string> {
    if s.choice == PersonChoice && |s.queries| > 0 then s.queries else s.peopleQueries
  }

  /** The people part: run for `person` or a truthy `peopleQuery`, and only with a key. */
  function PeoplePart(w: World, s: Settings, people: PeopleRun, st: State): (Outcome<State>, World) {
    if !(s.choice == PersonChoice || s.peopleQueryGiven) || s.apiKey == "" then (Ok(st), w)
    else PeopleLoop(w, people, PeopleQueries(s), st.peopleCurrentQuery.Some?, st)
  }

  /** The budget and the API switch a run starts with. */
  function Start(s: Settings, st: State): Progress {
    Progress(st, s.maxResults, s.apiKey != "" && s.useApiFirst)
  }

  /** The run after its checks, from the saved checkpoint (or the default one): content, people, then the state cleared. */
  function RunWith(w: World, s: Settings, saved: Option<State>, api: ContentRun, web: ContentRun, people: PeopleRun)
    : (Outcome<()>, World)
  {
    var st := saved.GetOr(DEFAULT_STATE);
    AfterContent(TypeLoop(w, s, api, web, s.types, st.currentType.Some?, Start(s, st)), s, people)
  }

  /** After the content types: the people part, unless the content part threw. */
  function AfterContent(c: (Outcome<Progress>, World), s: Settings, people: PeopleRun): (Outcome<()>, World) {
    if c.0.Threw? then (Threw, c.1) else AfterPeople(PeoplePart(c.1, s, people, c.0.value.state))
  }

  /** After the people part: the state is cleared, unless it threw. */
  function AfterPeople(pp: (Outcome<State>, World)): (Outcome<()>, World) {
    if pp.0.Threw? then (Threw, pp.1) else (Ok(()), Persist(pp.1, None))
  }

  /** The whole run: an unknown content type or nothing to scrape throws before anything happens. */
  function Scrape(w: World, input: Input, saved: Option<State>): (Outcome<()>, World) {
    var c := ContentChoice(input.contentType);
    if c.None? then (Threw, w)
    else
      var s := SettingsOf(input, c.value);
      if NothingToScrape(s) then (Threw, w)
      else RunWith(w, s, saved, ApiRunOf(s), WebRunOf(s), PeopleRunOf(s))
  }

  /** A content pipeline applied; the trigger of `ApiKeeps` and `WebKeeps`. */
  function RunAt(run: ContentRun, w: World, t: ContentType, query: Option<string>, limit: int, startPage: int)
    : (Outcome<(int, int)>, World)
  {
    run(w, t, query, limit, startPage)
  }

  /**
   * What the coordinator needs of the API pipeline: whether it ends
   * normally or not, it only appends to the log and counts no API failure;
   * a normal end counts between 0 and the limit.
   */
  ghost predicate ApiKeeps(api: ContentRun) {
    forall w, t, query, limit, startPage {:trigger RunAt(api, w, t, query, limit, startPage)} ::
      var r := RunAt(api, w, t, query, limit, startPage);
      w.log <= r.1.log && r.1.apiFailures == w.apiFailures && (r.0.Ok? ==> 0 <= r.0.value.0 <= Max(0, limit))
  }

  /**
   * What the coordinator needs of the website pipeline: a normal end only
   * appended to the log, counted no API failure, and counted at least 0 and
   * fewer than the limit plus `concurrency`.
   */
  ghost predicate WebKeeps(web: ContentRun, concurrency: int) {
    forall w, t, query, limit, startPage {:trigger RunAt(web, w, t, query, limit, startPage)} ::
      var r := RunAt(web, w, t, query, limit, startPage);
      r.0.Ok? ==>
        w.log <= r.1.log && r.1.apiFailures == w.apiFailures && 0 <= r.0.value.0 < Max(0, limit) + concurrency
  }

  /** The people pipeline applied; the trigger of `PeopleKeeps`. */
  function PeopleAt(people: PeopleRun, w: World, query: string, startPage: int): (Outcome<(int, int)>, World) {
    people(w, query, startPage)
  }

  /** What the coordinator needs of the people pipeline: a normal end only appended to the log and counted no API failure. */
  ghost predicate PeopleKeeps(people: PeopleRun) {
    forall w, query, startPage {:trigger PeopleAt(people, w, query, startPage)} ::
      var r := PeopleAt(people, w, query, startPage);
      r.0.Ok? ==> w.log <= r.1.log && r.1.apiFailures == w.apiFailures
  }

  lemma ApiKeepsAt(api: ContentRun, w: World, t: ContentType, query: Option<string>, limit: int, startPage: int)
    requires ApiKeeps(api)
    ensures var r := api(w, t, query, limit, startPage);
      w.log <= r.1.log && r.1.apiFailures == w.apiFailures && (r.0.Ok? ==> 0 <= r.0.value.0 <= Max(0, limit))
  {
    assert RunAt(api, w, t, query, limit, startPage) == api(w, t, query, limit, startPage);
  }

  lemma WebKeepsAt(web: ContentRun, concurrency: int, w: World, t: ContentType, query: Option<string>, limit: int,
                   startPage: int)
    requires WebKeeps(web, concurrency)
    ensures var r := web(w, t, query, limit, startPage);
      r.0.Ok? ==>
        w.log <= r.1.log && r.1.apiFailures == w.apiFailures && 0 <= r.0.value.0 < Max(0, limit) + concurrency
  {
    assert RunAt(web, w, t, query, limit, startPage) == web(w, t, query, limit, startPage);
  }

  lemma PeopleKeepsAt(people: PeopleRun, w: World, query: string, startPage: int)
    requires PeopleKeeps(people)
    ensures var r := people(w, query, startPage);
      r.0.Ok? ==> w.log <= r.1.log && r.1.apiFailures == w.apiFailures
  {
    assert PeopleAt(people, w, query, startPage) == people(w, query, startPage);
  }

  /** The real API pipeline keeps to what the coordinator needs. */
  lemma ApiRunKeeps(s: Settings)
    ensures ApiKeeps(ApiRunOf(s))
  {
    forall w, t, query, limit, startPage
      ensures var r := RunAt(ApiRunOf(s), w, t, query, limit, startPage);
        w.log <= r.1.log && r.1.apiFailures == w.apiFailures && (r.0.Ok? ==> 0 <= r.0.value.0 <= Max(0, limit))
    {
      var job := ApiJob(s.apiKey, t, query, s.filters, limit, s.pages, s.cfg, s.concurrency);
      PipelineTurnsDone(job);
      ApiPagesCount(w, job, Turn(job, ItemWorker(job)), startPage, 0);
    }
  }

  /** The real website pipeline keeps to what the coordinator needs, with the run's concurrency of at least 1. */
  lemma WebRunKeeps(s: Settings)
    requires s.concurrency >= 1
    ensures WebKeeps(WebRunOf(s), s.concurrency)
  {
    forall w, t, query, limit, startPage
      ensures var r := RunAt(WebRunOf(s), w, t, query, limit, startPage);
        r.0.Ok? ==>
          w.log <= r.1.log && r.1.apiFailures == w.apiFailures && 0 <= r.0.value.0 < Max(0, limit) + s.concurrency
    {
      CollectWebShape(w, WebJob(t, query, s.filters, limit, s.concurrency), startPage);
    }
  }

  /** The real people pipeline keeps to what the coordinator needs. */
  lemma PeopleRunKeeps(s: Settings)
    ensures PeopleKeeps(PeopleRunOf(s))
  {
    forall w, query, startPage
      ensures var r := PeopleAt(PeopleRunOf(s), w, query, startPage);
        r.0.Ok? ==> w.log <= r.1.log && r.1.apiFailures == w.apiFailures
    {
      var _ := CollectPeopleShape(w, s.apiKey, query, s.peopleLimit, startPage);
    }
  }

  /**
   * From `(w, p)` to `(w', p')` the log only grew, the budget stayed at
   * least 0 and did not grow, the API was at most switched off, and an API
   * failure was counted exactly when it was.
   */
  predicate Advanced(w: World, p: Progress, w': World, p': Progress) {
    w.log <= w'.log && 0 <= p'.remaining <= p.remaining
    && (p'.apiAvailable ==> p.apiAvailable)
    && w'.apiFailures == w.apiFailures + (if p.apiAvailable && !p'.apiAvailable then 1 else 0)
  }

  lemma AdvancedChain(w: World, p: Progress, w1: World, p1: Progress, w2: World, p2: Progress)
    requires Advanced(w, p, w1, p1) && Advanced(w1, p1, w2, p2)
    ensures Advanced(w, p, w2, p2)
  {
  }

  /**
   * One (type, query) pair that ends normally advances the run: the budget
   * is charged what the pipelines counted and never grows or drops below
   * 0, and the API is switched off only by an API exception, which is
   * counted as one API failure.
   */
  lemma QueryStepAdvances(w: World, s: Settings, api: ContentRun, web: ContentRun, t: ContentType, query: Option<string>,
                          p: Progress)
    requires ApiKeeps(api) && WebKeeps(web, s.concurrency) && 0 <= p.remaining
    ensures var r := QueryStep(w, s, api, web, t, query, p);
      r.0.Ok? ==> Advanced(w, p, r.1, r.0.value)
  {
    var limitForQuery := LimitForQuery(s, p);
    if limitForQuery > 0 {
      var st := p.state.(currentQuery := query, currentPage := 1);
      var w1 := Persist(w, Some(st));
      if p.apiAvailable {
        ApiKeepsAt(api, w1, t, query, limitForQuery, 1);
      }
      var a := ApiAttempt(w1, api, t, query, limitForQuery, 1, p.(state := st));
      if !a.0.apiAvailable {
        WebKeepsAt(web, s.concurrency, a.1, t, query, limitForQuery, 1);
      }
    }
  }

  /** A pair with no room left (`limitForQuery <= 0`) fetches and persists nothing and only resets the type's count. */
  lemma QueryStepSkips(w: World, s: Settings, api: ContentRun, web: ContentRun, t: ContentType, query: Option<string>,
                       p: Progress)
    requires LimitForQuery(s, p) <= 0
    ensures QueryStep(w, s, api, web, t, query, p) == (Ok(p.(state := p.state.(collectedForCurrent := 0))), w)
  {
  }

  /**
   * A pair with room left that ends normally first persisted the query at
   * page 1, before any fetch, and last persisted the state it ends with.
   */
  lemma QueryStepPersists(w: World, s: Settings, api: ContentRun, web: ContentRun, t: ContentType, query: Option<string>,
                          p: Progress)
    requires ApiKeeps(api) && WebKeeps(web, s.concurrency)
    ensures var r := QueryStep(w, s, api, web, t, query, p);
      LimitForQuery(s, p) > 0 && r.0.Ok? ==>
        |w.log| < |r.1.log| && r.1.log[|w.log|] == Persisted(Some(p.state.(currentQuery := query, currentPage := 1))) &&
        r.1.log[|r.1.log| - 1] == Persisted(Some(r.0.value.state))
  {
    var limitForQuery := LimitForQuery(s, p);
    if limitForQuery > 0 {
      var st := p.state.(currentQuery := query, currentPage := 1);
      var w1 := Persist(w, Some(st));
      assert w1.log[|w.log|] == Persisted(Some(st));
      if p.apiAvailable {
        ApiKeepsAt(api, w1, t, query, limitForQuery, 1);
      }
      var a := ApiAttempt(w1, api, t, query, limitForQuery, 1, p.(state := st));
      assert w1.log <= a.1.log;
      if !a.0.apiAvailable {
        WebKeepsAt(web, s.concurrency, a.1, t, query, limitForQuery, 1);
      }
    }
  }

  /**
   * A pair with room left that ends normally keeps the type and names the
   * query in the state, and the type's count grew by what was charged to
   * the budget: at most `limitForQuery` while the API is on, and fewer than
   * `limitForQuery + concurrency` once the website took over.
   */
  lemma QueryStepCounts(w: World, s: Settings, api: ContentRun, web: ContentRun, t: ContentType, query: Option<string>,
                        p: Progress)
    requires ApiKeeps(api) && WebKeeps(web, s.concurrency)
    ensures var r := QueryStep(w, s, api, web, t, query, p);
      LimitForQuery(s, p) > 0 && r.0.Ok? ==>
        var n := r.0.value.state.collectedForCurrent - p.state.collectedForCurrent;
        r.0.value.state.currentType == p.state.currentType && r.0.value.state.currentQuery == query &&
        0 <= n && r.0.value.remaining == Max(0, p.remaining - n) &&
        (r.0.value.apiAvailable ==> n <= LimitForQuery(s, p)) &&
        (!r.0.value.apiAvailable ==> n < LimitForQuery(s, p) + s.concurrency)
  {
    var limitForQuery := LimitForQuery(s, p);
    if limitForQuery > 0 {
      var st := p.state.(currentQuery := query, currentPage := 1);
      var w1 := Persist(w, Some(st));
      if p.apiAvailable {
        ApiKeepsAt(api, w1, t, query, limitForQuery, 1);
      }
      var a := ApiAttempt(w1, api, t, query, limitForQuery, 1, p.(state := st));
      if !a.0.apiAvailable {
        WebKeepsAt(web, s.concurrency, a.1, t, query, limitForQuery, 1);
      }
    }
  }

  /** The query loop of a type, when it ends normally, advances the run. */
  lemma {:induction false} QueryLoopAdvances(w: World, s: Settings, api: ContentRun, web: ContentRun, t: ContentType,
                                              queries: seq<Option<string>>, resuming: bool, p: Progress)
    requires ApiKeeps(api) && WebKeeps(web, s.concurrency) && 0 <= p.remaining
    ensures var r := QueryLoop(w, s, api, web, t, queries, resuming, p);
      r.0.Ok? ==> Advanced(w, p, r.1, r.0.value) && r.0.value.state.currentType == p.state.currentType
    decreases |queries|
  {
    if queries != [] && p.remaining > 0 {
      if resuming && queries[0] != p.state.currentQuery {
        QueryLoopAdvances(w, s, api, web, t, queries[1..], resuming, p);
      } else {
        var r := QueryStep(w, s, api, web, t, queries[0], p);
        QueryStepAdvances(w, s, api, web, t, queries[0], p);
        QueryStepCounts(w, s, api, web, t, queries[0], p);
        if r.0.Ok? {
          QueryLoopAdvances(r.1, s, api, web, t, queries[1..], false, r.0.value);
          var e := QueryLoop(r.1, s, api, web, t, queries[1..], false, r.0.value);
          if e.0.Ok? {
            AdvancedChain(w, p, r.1, r.0.value, e.1, e.0.value);
          }
        }
      }
    }
  }

  /** The type loop, when it ends normally, advances the run. */
  lemma {:induction false} TypeLoopAdvances(w: World, s: Settings, api: ContentRun, web: ContentRun, types: seq<ContentType>,
                                             resuming: bool, p: Progress)
    requires ApiKeeps(api) && WebKeeps(web, s.concurrency) && 0 <= p.remaining
    ensures var r := TypeLoop(w, s, api, web, types, resuming, p);
      r.0.Ok? ==> Advanced(w, p, r.1, r.0.value)
    decreases |types|
  {
    if types != [] {
      if resuming && Some(types[0]) != p.state.currentType {
        TypeLoopAdvances(w, s, api, web, types[1..], resuming, p);
      } else {
        var st := EnterType(p.state, types[0]);
        var w1 := Persist(w, Some(st));
        var p1 := p.(state := st);
        var r := QueryLoop(w1, s, api, web, types[0], EffectiveQueries(s.queries), st.currentQuery.Some?, p1);
        QueryLoopAdvances(w1, s, api, web, types[0], EffectiveQueries(s.queries), st.currentQuery.Some?, p1);
        if r.0.Ok? {
          AdvancedChain(w, p, w1, p1, r.1, r.0.value);
          TypeLoopAdvances(r.1, s, api, web, types[1..], false, r.0.value);
          var e := TypeLoop(r.1, s, api, web, types[1..], false, r.0.value);
          if e.0.Ok? {
            AdvancedChain(w, p, r.1, r.0.value, e.1, e.0.value);
          }
        }
      }
    }
  }

  /**
   * Entering a type persists its reset state (the type, no query, page 1,
   * count 0) before anything else happens: a normal end of the type loop
   * has that checkpoint right after the log it started from.
   */
  lemma TypeLoopEnters(w: World, s: Settings, api: ContentRun, web: ContentRun, types: seq<ContentType>,
                       resuming: bool, p: Progress)
    requires ApiKeeps(api) && WebKeeps(web, s.concurrency) && 0 <= p.remaining
    requires types != [] && (!resuming || Some(types[0]) == p.state.currentType)
    ensures var r := TypeLoop(w, s, api, web, types, resuming, p);
      r.0.Ok? ==> |w.log| < |r.1.log| && r.1.log[|w.log|] == Persisted(Some(EnterType(p.state, types[0])))
  {
    var st := EnterType(p.state, types[0]);
    var w1 := Persist(w, Some(st));
    var p1 := p.(state := st);
    var r := QueryLoop(w1, s, api, web, types[0], EffectiveQueries(s.queries), st.currentQuery.Some?, p1);
    QueryLoopAdvances(w1, s, api, web, types[0], EffectiveQueries(s.queries), st.currentQuery.Some?, p1);
    if r.0.Ok? {
      TypeLoopAdvances(r.1, s, api, web, types[1..], false, r.0.value);
    }
  }

  /**
   * Resuming skips every type before the saved one: while no type among
   * the first `k` is the saved type, the loop is the loop on the rest. A
   * saved type that is not requested at all skips every type.
   */
  lemma {:induction false} TypeLoopResumes(w: World, s: Settings, api: ContentRun, web: ContentRun, types: seq<ContentType>,
                                            p: Progress, k: nat)
    requires k <= |types| && forall i | 0 <= i < k :: Some(types[i]) != p.state.currentType
    ensures TypeLoop(w, s, api, web, types, true, p) == TypeLoop(w, s, api, web, types[k..], true, p)
    ensures k == |types| ==> TypeLoop(w, s, api, web, types, true, p) == (Ok(p), w)
    decreases k
  {
    if k > 0 {
      TypeLoopResumes(w, s, api, web, types[1..], p, k - 1);
      assert types[1..][k - 1..] == types[k..];
    }
  }

  /**
   * A saved query, page or count never changes what the content loop
   * does: the world after it is the same whatever the checkpoint held in
   * them, since entering a type resets all three.
   */
  lemma {:induction false} TypeLoopIgnoresSavedQuery(w: World, s: Settings, api: ContentRun, web: ContentRun,
                                                      types: seq<ContentType>, resuming: bool, p: Progress,
                                                      query: Option<string>, page: int, count: int)
    ensures var p' := p.(state := p.state.(currentQuery := query, currentPage := page, collectedForCurrent := count));
      TypeLoop(w, s, api, web, types, resuming, p).1 == TypeLoop(w, s, api, web, types, resuming, p').1
    decreases |types|
  {
    var p' := p.(state := p.state.(currentQuery := query, currentPage := page, collectedForCurrent := count));
    if types != [] {
      if resuming && Some(types[0]) != p.state.currentType {
        TypeLoopIgnoresSavedQuery(w, s, api, web, types[1..], resuming, p, query, page, count);
      } else {
        assert EnterType(p.state, types[0]) == EnterType(p'.state, types[0]);
        assert p.(state := EnterType(p.state, types[0])) == p'.(state := EnterType(p'.state, types[0]));
      }
    }
  }

  /** The people loop, when it ends normally, only appended to the log and counted no API failure. */
  lemma {:induction false} PeopleLoopKeeps(w: World, people: PeopleRun, queries: seq<string>, resuming: bool, st: State)
    requires PeopleKeeps(people)
    ensures var r := PeopleLoop(w, people, queries, resuming, st);
      r.0.Ok? ==> w.log <= r.1.log && r.1.apiFailures == w.apiFailures
    decreases |queries|
  {
    if queries != [] {
      if resuming && Some(queries[0]) != st.peopleCurrentQuery {
        PeopleLoopKeeps(w, people, queries[1..], resuming, st);
      } else if queries[0] == "" {
        PeopleLoopKeeps(w, people, queries[1..], false, st);
      } else {
        var st1 := EnterPeopleQuery(st, queries[0]);
        var w1 := Persist(w, Some(st1));
        var r := people(w1, queries[0], st1.peoplePage);
        PeopleKeepsAt(people, w1, queries[0], st1.peoplePage);
        if r.0.Ok? {
          var st2 := st1.(peoplePage := r.0.value.1, peopleCollected := st1.peopleCollected + r.0.value.0);
          PeopleLoopKeeps(Persist(r.1, Some(st2)), people, queries[1..], false, st2);
        }
      }
    }
  }

  /**
   * Entering a people query persists it, at page 1 with nothing collected,
   * before its search: a normal end has that checkpoint right after the
   * log the loop started from.
   */
  lemma PeopleLoopEnters(w: World, people: PeopleRun, queries: seq<string>, resuming: bool, st: State)
    requires PeopleKeeps(people)
    requires queries != [] && queries[0] != "" && (!resuming || Some(queries[0]) == st.peopleCurrentQuery)
    ensures var r := PeopleLoop(w, people, queries, resuming, st);
      r.0.Ok? ==> |w.log| < |r.1.log| && r.1.log[|w.log|] == Persisted(Some(EnterPeopleQuery(st, queries[0])))
  {
    var st1 := EnterPeopleQuery(st, queries[0]);
    var w1 := Persist(w, Some(st1));
    var r := people(w1, queries[0], st1.peoplePage);
    PeopleKeepsAt(people, w1, queries[0], st1.peoplePage);
    if r.0.Ok? {
      var st2 := st1.(peoplePage := r.0.value.1, peopleCollected := st1.peopleCollected + r.0.value.0);
      PeopleLoopKeeps(Persist(r.1, Some(st2)), people, queries[1..], false, st2);
    }
  }

  /**
   * Resuming people skips every query before the saved one: while no query
   * among the first `k` is the saved one, the loop is the loop on the
   * rest; a saved query that is not in the list skips them all.
   */
  lemma {:induction false} PeopleLoopResumes(w: World, people: PeopleRun, queries: seq<string>, st: State, k: nat)
    requires k <= |queries| && forall i | 0 <= i < k :: Some(queries[i]) != st.peopleCurrentQuery
    ensures PeopleLoop(w, people, queries, true, st) == PeopleLoop(w, people, queries[k..], true, st)
    ensures k == |queries| ==> PeopleLoop(w, people, queries, true, st) == (Ok(st), w)
    decreases k
  {
    if k > 0 {
      PeopleLoopResumes(w, people, queries[1..], st, k - 1);
      assert queries[1..][k - 1..] == queries[k..];
    }
  }

  /** The people part, when it ends normally, only appended to the log and counted no API failure. */
  lemma PeoplePartKeeps(w: World, s: Settings, people: PeopleRun, st: State)
    requires PeopleKeeps(people)
    ensures var r := PeoplePart(w, s, people, st);
      r.0.Ok? ==> w.log <= r.1.log && r.1.apiFailures == w.apiFailures
  {
    if (s.choice == PersonChoice || s.peopleQueryGiven) && s.apiKey != "" {
      PeopleLoopKeeps(w, people, PeopleQueries(s), st.peopleCurrentQuery.Some?, st);
    }
  }

  /**
   * A run that ends normally only appended to the log and its last event
   * clears the checkpoint (`null` persisted); it counted at most one API
   * failure, and none unless it started with a key and `useApiFirst`. A
   * run that starts from no saved type and has types to walk first
   * persists the reset state of the first type.
   */
  lemma RunWithShape(w: World, s: Settings, saved: Option<State>, api: ContentRun, web: ContentRun, people: PeopleRun)
    requires ApiKeeps(api) && WebKeeps(web, s.concurrency) && PeopleKeeps(people) && 0 <= s.maxResults
    ensures var r := RunWith(w, s, saved, api, web, people);
      r.0.Ok? ==> w.log < r.1.log && r.1.log[|r.1.log| - 1] == Persisted(None)
    ensures var r := RunWith(w, s, saved, api, web, people);
      r.0.Ok? ==>
        w.apiFailures <= r.1.apiFailures <= w.apiFailures + 1 &&
        (r.1.apiFailures > w.apiFailures ==> s.apiKey != "" && s.useApiFirst)
    ensures var r := RunWith(w, s, saved, api, web, people);
      var st := saved.GetOr(DEFAULT_STATE);
      r.0.Ok? && st.currentType.None? && s.types != [] ==>
        r.1.log[|w.log|] == Persisted(Some(EnterType(st, s.types[0])))
  {
    var st := saved.GetOr(DEFAULT_STATE);
    var c := TypeLoop(w, s, api, web, s.types, st.currentType.Some?, Start(s, st));
    TypeLoopAdvances(w, s, api, web, s.types, st.currentType.Some?, Start(s, st));
    if st.currentType.None? && s.types != [] {
      TypeLoopEnters(w, s, api, web, s.types, false, Start(s, st));
    }
    if c.0.Ok? {
      PeoplePartKeeps(c.1, s, people, c.0.value.state);
    }
  }

  /**
   * The run: an unknown `contentType` throws before anything happens, and
   * the "no content type" guard never trips for an accepted one; a run that
   * ends normally cleared the checkpoint last, counted at most one API
   * failure and only with a key and `useApiFirst`, and, when the saved
   * state names no type and content is wanted, persisted the reset state
   * of the first type before anything else.
   */
  lemma ScrapeShape(w: World, input: Input, saved: Option<State>)
    ensures ContentChoice(input.contentType).None? ==> Scrape(w, input, saved) == (Threw, w)
    ensures var c := ContentChoice(input.contentType);
      c.Some? ==> !NothingToScrape(SettingsOf(input, c.value))
    ensures var r := Scrape(w, input, saved);
      r.0.Ok? ==> w.log < r.1.log && r.1.log[|r.1.log| - 1] == Persisted(None)
    ensures var r := Scrape(w, input, saved);
      var c := ContentChoice(input.contentType);
      r.0.Ok? ==>
        c.Some? && w.apiFailures <= r.1.apiFailures <= w.apiFailures + 1 &&
        (r.1.apiFailures > w.apiFailures ==> SettingsOf(input, c.value).apiKey != "" && SettingsOf(input, c.value).useApiFirst)
    ensures var r := Scrape(w, input, saved);
      var c := ContentChoice(input.contentType);
      r.0.Ok? && saved.GetOr(DEFAULT_STATE).currentType.None? && c.Some? && c.value != PersonChoice ==>
        r.1.log[|w.log|] == Persisted(Some(EnterType(saved.GetOr(DEFAULT_STATE), RequestedTypes(c.value)[0])))
  {
    var c := ContentChoice(input.contentType);
    if c.Some? {
      var s := SettingsOf(input, c.value);
      SettingsNumbers(input, c.value);
      ApiRunKeeps(s);
      WebRunKeeps(s);
      PeopleRunKeeps(s);
      RunWithShape(w, s, saved, ApiRunOf(s), WebRunOf(s), PeopleRunOf(s));
    }
  }

  /** The API attempt of one query on the objects. */
  method TryApi(env: Env, stats: Stats, s: Settings, t: ContentType, query: Option<string>, limitForQuery: int,
                startPage: int, p: Progress) returns (p': Progress)
    modifies env, stats
    ensures !p.apiAvailable ==> (p', Now(env, stats)) == (p, old(Now(env, stats)))
    ensures p.apiAvailable ==>
      (p', Now(env, stats)) == AfterApi(ApiRun(s, old(Now(env, stats)), t, query, limitForQuery, startPage), p)
  {
    p' := p;
    if !p.apiAvailable {
      return;
    }
    var job := ApiJob(s.apiKey, t, query, s.filters, limitForQuery, s.pages, s.cfg, s.concurrency);
    var result := CollectContentWithApi(env, stats, job, startPage);
    var state := p.state;
    if result.Ok? {
      var collected := result.value.0;
      state := state.(currentPage := result.value.1, collectedForCurrent := state.collectedForCurrent + collected);
      env.Persist(Some(state));
      p' := p.(state := state, remaining := Max(0, p.remaining - collected));
    } else {
      stats.apiFailures := stats.apiFailures + 1;
      state := state.(apiAvailable := false);
      env.Persist(Some(state));
      p' := p.(state := state, apiAvailable := false);
    }
  }

  /** The website attempt of one query on the objects. */
  method UseWeb(env: Env, stats: Stats, s: Settings, t: ContentType, query: Option<string>, limitForQuery: int,
                startPage: int, p: Progress) returns (out: Outcome<Progress>)
    modifies env, stats
    ensures (out, Now(env, stats)) == AfterWeb(WebRun(s, old(Now(env, stats)), t, query, limitForQuery, startPage), p)
  {
    ghost var w0 := Now(env, stats);
    var job := WebJob(t, query, s.filters, limitForQuery, s.concurrency);
    var result := CollectContentWithWeb(env, stats, job, startPage);
    assert (result, Now(env, stats)) == WebRun(s, w0, t, query, limitForQuery, startPage);
    out := RecordWebRun(env, stats, result, p);
  }

  /** The end of a website attempt: a count and last page go into the persisted state, an exception goes up. */
  method RecordWebRun(env: Env, stats: Stats, result: Outcome<(int, int)>, p: Progress) returns (out: Outcome<Progress>)
    modifies env
    ensures (out, Now(env, stats)) == AfterWeb((result, old(Now(env, stats))), p)
  {
    ghost var r := (result, Now(env, stats));
    if result.Threw? {
      return Threw;
    }
    var collected := result.value.0;
    var state := p.state.(currentPage := result.value.1, collectedForCurrent := p.state.collectedForCurrent + collected);
    env.Persist(Some(state));
    AfterWebOk(r, p, state);
    out := Ok(p.(state := state, remaining := Max(0, p.remaining - collected)));
  }

  /** A pair with room left on the objects. */
  method RunAttempts(env: Env, stats: Stats, s: Settings, t: ContentType, query: Option<string>, limitForQuery: int,
                     p: Progress) returns (out: Outcome<Progress>)
    modifies env, stats
    ensures (out, Now(env, stats)) == Attempts(old(Now(env, stats)), ApiRunOf(s), WebRunOf(s), t, query, limitForQuery, p)
  {
    var state := p.state.(currentQuery := query, currentPage := 1);
    env.Persist(Some(state));
    var startPage := state.currentPage;
    ghost var w1 := Now(env, stats);
    var progress := TryApi(env, stats, s, t, query, limitForQuery, startPage, p.(state := state));
    RunsApply(s, w1, t, query, limitForQuery, startPage);
    if progress.apiAvailable {
      return Ok(progress);
    }
    ghost var w2 := Now(env, stats);
    out := UseWeb(env, stats, s, t, query, limitForQuery, startPage, progress);
    RunsApply(s, w2, t, query, limitForQuery, startPage);
  }

  /** The runs the actor hands to the coordination are the pipelines. */
  lemma RunsApply(s: Settings, w: World, t: ContentType, query: Option<string>, limit: int, startPage: int)
    ensures ApiRunOf(s)(w, t, query, limit, startPage) == ApiRun(s, w, t, query, limit, startPage)
    ensures WebRunOf(s)(w, t, query, limit, startPage) == WebRun(s, w, t, query, limit, startPage)
  {
  }

  lemma PeopleRunApplies(s: Settings, w: World, query: string, startPage: int)
    ensures PeopleRunOf(s)(w, query, startPage) == CollectPeople(w, s.apiKey, query, s.peopleLimit, startPage)
  {
  }

  /** A people query that is run: its end `r` either ends the loop or is recorded before the next query. */
  lemma PeopleLoopRuns(w: World, people: PeopleRun, queries: seq<string>, resuming: bool, st: State,
                       r: (Outcome<(int, int)>, World))
    requires queries != [] && queries[0] != "" && !(resuming && Some(queries[0]) != st.peopleCurrentQuery)
    requires r == people(Persist(w, Some(EnterPeopleQuery(st, queries[0]))), queries[0], 1)
    ensures PeopleLoop(w, people, queries, resuming, st) ==
      if r.0.Threw? then (Threw, r.1)
      else
        var st2 := EnterPeopleQuery(st, queries[0]).(peoplePage := r.0.value.1, peopleCollected := r.0.value.0);
        PeopleLoop(Persist(r.1, Some(st2)), people, queries[1..], false, st2)
  {
  }

  /** One (type, query) pair on the objects. */
  method RunQuery(env: Env, stats: Stats, s: Settings, t: ContentType, query: Option<string>, p: Progress)
    returns (out: Outcome<Progress>)
    modifies env, stats
    ensures (out, Now(env, stats)) == QueryStep(old(Now(env, stats)), s, ApiRunOf(s), WebRunOf(s), t, query, p)
  {
    var limitForQuery := Min(p.remaining, s.limit) - p.state.collectedForCurrent;
    assert limitForQuery == LimitForQuery(s, p);
    if limitForQuery <= 0 {
      return Ok(p.(state := p.state.(collectedForCurrent := 0)));
    }
    out := RunAttempts(env, stats, s, t, query, limitForQuery, p);
  }

  /** The query loop of a type on the objects. */
  method CollectQueries(env: Env, stats: Stats, s: Settings, t: ContentType, queries: seq<Option<string>>,
                        resuming: bool, p: Progress) returns (out: Outcome<Progress>)
    modifies env, stats
    ensures (out, Now(env, stats)) == QueryLoop(old(Now(env, stats)), s, ApiRunOf(s), WebRunOf(s), t, queries, resuming, p)
  {
    var queryResuming := resuming;
    var progress := p;
    for i := 0 to |queries|
      invariant QueryLoop(Now(env, stats), s, ApiRunOf(s), WebRunOf(s), t, queries[i..], queryResuming, progress)
             == QueryLoop(old(Now(env, stats)), s, ApiRunOf(s), WebRunOf(s), t, queries, resuming, p)
    {
      assert queries[i..][1..] == queries[i + 1..];
      if progress.remaining <= 0 {
        break;
      }
      if queryResuming && queries[i] != progress.state.currentQuery {
        continue;
      }
      queryResuming := false;
      var r := RunQuery(env, stats, s, t, queries[i], progress);
      if r.Threw? {
        return Threw;
      }
      progress := r.value;
    }
    out := Ok(progress);
  }

  /** The type loop on the objects. */
  method CollectContent(env: Env, stats: Stats, s: Settings, resuming0: bool, p: Progress) returns (out: Outcome<Progress>)
    modifies env, stats
    ensures (out, Now(env, stats)) == TypeLoop(old(Now(env, stats)), s, ApiRunOf(s), WebRunOf(s), s.types, resuming0, p)
  {
    var resuming := resuming0;
    var progress := p;
    for i := 0 to |s.types|
      invariant TypeLoop(Now(env, stats), s, ApiRunOf(s), WebRunOf(s), s.types[i..], resuming, progress)
             == TypeLoop(old(Now(env, stats)), s, ApiRunOf(s), WebRunOf(s), s.types, resuming0, p)
    {
      var t := s.types[i];
      assert s.types[i..][1..] == s.types[i + 1..];
      if resuming && Some(t) != progress.state.currentType {
        continue;
      }
      resuming := false;
      var state := progress.state.(currentType := Some(t), currentQuery := None, currentPage := 1, collectedForCurrent := 0);
      env.Persist(Some(state));
      var queryResuming := state.currentQuery.Some?;
      var r := CollectQueries(env, stats, s, t, EffectiveQueries(s.queries), queryResuming, progress.(state := state));
      if r.Threw? {
        return Threw;
      }
      progress := r.value;
    }
    out := Ok(progress);
  }

  /** The people loop on the objects. */
  method CollectPeopleQueries(env: Env, stats: Stats, s: Settings, queries: seq<string>, resuming0: bool, st0: State)
    returns (out: Outcome<State>)
    modifies env, stats
    ensures (out, Now(env, stats)) == PeopleLoop(old(Now(env, stats)), PeopleRunOf(s), queries, resuming0, st0)
  {
    var peopleResuming := resuming0;
    var state := st0;
    for i := 0 to |queries|
      invariant PeopleLoop(Now(env, stats), PeopleRunOf(s), queries[i..], peopleResuming, state)
             == PeopleLoop(old(Now(env, stats)), PeopleRunOf(s), queries, resuming0, st0)
    {
      var query := queries[i];
      assert queries[i..][1..] == queries[i + 1..];
      if peopleResuming && Some(query) != state.peopleCurrentQuery {
        continue;
      }
      ghost var resuming := peopleResuming;
      peopleResuming := false;
      if query == "" {
        continue;
      }
      var r := RunPeopleQuery(env, stats, s, query, queries[i..], resuming, state);
      if r.Threw? {
        return Threw;
      }
      state := r.value;
    }
    out := Ok(state);
  }

  /** One query of the people loop on the objects: the state is persisted, the query runs, and its end is persisted. */
  method RunPeopleQuery(env: Env, stats: Stats, s: Settings, query: string, ghost queries: seq<string>, ghost resuming: bool,
                        st: State) returns (out: Outcome<State>)
    requires queries != [] && queries[0] == query && query != "" && !(resuming && Some(query) != st.peopleCurrentQuery)
    modifies env, stats
    ensures out.Threw? ==> PeopleLoop(old(Now(env, stats)), PeopleRunOf(s), queries, resuming, st) == (Threw, Now(env, stats))
    ensures out.Ok? ==> PeopleLoop(old(Now(env, stats)), PeopleRunOf(s), queries, resuming, st)
                        == PeopleLoop(Now(env, stats), PeopleRunOf(s), queries[1..], false, out.value)
  {
    ghost var w0 := Now(env, stats);
    var state := st.(peopleCurrentQuery := Some(query), peoplePage := 1, peopleCollected := 0);
    assert state == EnterPeopleQuery(st, query);
    env.Persist(Some(state));
    ghost var w1 := Now(env, stats);
    assert w1 == Persist(w0, Some(state));
    var result := CollectPeopleWithApi(env, stats, s.apiKey, query, s.peopleLimit, state.peoplePage);
    ghost var w2 := Now(env, stats);
    PeopleRunApplies(s, w1, query, 1);
    PeopleLoopRuns(w0, PeopleRunOf(s), queries, resuming, st, (result, w2));
    if result.Threw? {
      return Threw;
    }
    state := state.(peoplePage := result.value.1, peopleCollected := state.peopleCollected + result.value.0);
    env.Persist(Some(state));
    assert Now(env, stats) == Persist(w2, Some(state));
    out := Ok(state);
  }

  /** The run on the objects, from the saved checkpoint (`None` when the store holds none). */
  method RunActor(env: Env, stats: Stats, input: Input, saved: Option<State>) returns (out: Outcome<()>)
    modifies env, stats
    ensures (out, Now(env, stats)) == Scrape(old(Now(env, stats)), input, saved)
  {
    var choice := ContentChoice(input.contentType);
    if choice.None? {
      return Threw;
    }
    var s := SettingsOf(input, choice.value);
    if NothingToScrape(s) {
      return Threw;
    }
    ghost var w0 := Now(env, stats);
    var state := saved.GetOr(DEFAULT_STATE);
    var resuming := state.currentType.Some?;
    var apiAvailable := s.apiKey != "" && s.useApiFirst;
    var remaining := s.maxResults;
    var content := CollectContent(env, stats, s, resuming, Progress(state, remaining, apiAvailable));
    ghost var c := (content, Now(env, stats));
    assert c == TypeLoop(w0, s, ApiRunOf(s), WebRunOf(s), s.types, resuming, Start(s, state));
    assert Scrape(w0, input, saved) == AfterContent(c, s, PeopleRunOf(s));
    if content.Threw? {
      return Threw;
    }
    state := content.value.state;
    if s.choice == PersonChoice || s.peopleQueryGiven {
      if s.apiKey != "" {
        var people := CollectPeopleQueries(env, stats, s, PeopleQueries(s), state.peopleCurrentQuery.Some?, state);
        assert (people, Now(env, stats)) == PeoplePart(c.1, s, PeopleRunOf(s), state);
        if people.Threw? {
          return Threw;
        }
        state := people.value;
      }
    }
    env.Persist(None);
    out := Ok(());
  }
}
