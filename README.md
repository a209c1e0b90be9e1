# TMDb scraper: collection engine

A Dafny model of the collection engine of a scraper that harvests movie, TV and person metadata from The Movie Database (TMDb). The scraper has two ways to get content. The API pipeline calls the TMDb JSON API with a key. The web pipeline scrapes the website's HTML and serves as a fallback. A coordinator walks content types and queries under a global results budget. It switches from the API to the website for good on the first API failure. It persists a checkpoint object to the actor's key-value store.

The model follows the program's structure, one module per concern:

- `Text`, `Lists`, `Params`, `Records`, `Listing` hold the pure helpers. These are the list parsing and formatting functions, the query-parameter builders, the record mappings with their fallback chains, the listing-card id parse and the next-page rule of the web pipeline.
- `Backend` is the outside world.
  - The class `Env` holds a script of replies and one ordered log of events. An event is a request sent with its reply, a record pushed to the dataset, or a checkpoint persisted.
  - The class `Stats` holds the `stats` counters.
  - Every request consumes the next scripted reply. A `Failed` reply, or none left, makes the request throw.
- `Extras` covers the extras fan-out: `pushContentAndExtras` and the review sub-pagination of `collectAllReviews`.
- `Batching` covers the concurrency-sized batch loop shared by both pipelines.
- `ApiPipeline`, `WebPipeline` and `People` cover the three collection loops.
- `Coordinator` covers the main body: settings, the type/query loops, the budget, the failover and the checkpoints.

Each imperative procedure is a method on `Env`/`Stats`. Its `ensures` ties the returned value and the new world (`Now(env, stats)`: script, log and counters) to a specification function of the old world. The properties are proved as lemmas about those functions. `Promise.all` batches are sequential folds over the batch: the source updates its counters only after a whole batch resolves (src/main.js:465, 753).

## Model

| member | source | states |
|---|---|---|
| Text.Trim | src/main.js:32 | `trim()` removes white space from the two ends and nothing else: the result is the input without a leading run of white space and a trailing run of white space, and it has no white space at either end |
| Text.TrimUnique | src/main.js:32 | any removal of white space from the two ends that leaves no white space at either end gives exactly `trim()` |
| Text.TrimBlank | src/main.js:41 | trimming takes away the blank that a `", "` join leaves before an entry |
| Text.TrimFixpoint | src/main.js:41 | trimming leaves a string unchanged exactly when it is already trimmed, so trimming twice is trimming once |
| Text.Split | src/main.js:40 | `split(',')` gives at least one piece, and no piece contains the separator |
| Text.JoinSplit | src/main.js:38-43 | splitting on a character and joining back with it gives the original string |
| Text.SplitJoin | src/main.js:38-43 | joining non-empty lists of separator-free pieces and splitting again gives the pieces back |
| Text.NatToString | src/main.js:33 | `String(n)` of a natural number is a non-empty run of decimal digits |
| Text.IntToStringRoundTrip | src/main.js:50-52 | `Number(String(n)) === n` for every integer |
| Text.IntToStringInjective | src/main.js:33 | distinct integers print as distinct strings |
| Lists.NonEmpty | src/main.js:36 | `.filter(Boolean)` keeps only non-empty strings, each taken from the input |
| Lists.NonEmptyMembers | src/main.js:36 | `.filter(Boolean)` keeps exactly the non-empty strings of its input |
| Lists.NonEmptyAppend | src/main.js:36 | the filter of a concatenation is the concatenation of the filters, so the kept entries stay in input order |
| Lists.NonEmptyEmpty | src/main.js:36 | the filter leaves nothing exactly when every entry is empty |
| Lists.ParseStringList | src/main.js:28-48 | an array gives the filtered texts of its elements, a string its comma-separated pieces trimmed and filtered, a finite number its decimal text, anything else the empty list; every entry is non-empty and trimmed |
| Lists.ParseStringListJoin | src/main.js:38-43 | a comma-joined string of clean entries (non-empty, trimmed, comma-free) parses back to exactly those entries |
| Lists.ParseNumberList | src/main.js:50-52 | a number is in `parseNumberList` exactly when some entry of `parseStringList` parses to it, and there are no more numbers than entries |
| Lists.NumbersMembers | src/main.js:50-52 | the numbers kept are exactly the values of the entries that parse as numbers |
| Lists.NumbersAppend | src/main.js:50-52 | parsing a concatenation of entry lists concatenates the results, so the numbers stay in entry order |
| Lists.ParseNumberListOfNumbers | src/main.js:50-52 | an array of numbers passes through `parseNumberList` unchanged |
| Lists.LimitArray | src/main.js:54-57 | `limitArray` is a prefix: empty for `limit <= 0`, otherwise of length `min(limit, length)` |
| Lists.FormatList | src/main.js:103-113 | `formatList` is `null` exactly for a non-array or an array with no usable element, and otherwise a non-empty string |
| Lists.FormatListJoin | src/main.js:103-113 | a `formatList` string is the usable element texts of the array, trimmed and in order, joined with `", "` |
| Lists.FormatListRoundTrip | src/main.js:103-113 | when no element text holds a comma, `parseStringList` of the `formatList` string gives back exactly the formatted entries |
| Lists.ParseStringListJoinBlank | src/main.js:38-43 | a `", "`-joined string of clean entries (non-empty, trimmed, comma-free) parses back to exactly those entries |
| Lists.FormatStrings | src/main.js:632-635 | `formatList` of a string list is `null` exactly when every entry trims to empty |
| Lists.FormatStringsJoin | src/main.js:632-635 | a `formatList` string of a string list is the trimmed non-empty entries, in order, joined with `", "` |
| Lists.FormatObjectList | src/main.js:115-121 | `formatObjectList` is `null` exactly for a non-array or when the extractor yields nothing truthy, and otherwise a non-empty string |
| Lists.FormatObjectListJoin | src/main.js:115-121 | a `formatObjectList` string is the truthy extractor results, in order, joined with `", "` |
| Lists.ExtractedEmpty | src/main.js:117-119 | the extracted list is empty exactly when no element gives a truthy result |
| Lists.ExtractedAppend | src/main.js:117-119 | extracting from a concatenation concatenates the results, so the extracted entries stay in element order |
| Lists.FirstTruthy | src/main.js:144 | the index of the first truthy candidate of an `\|\|` chain; all before it are falsy |
| Lists.OrElseFirstMatch | src/main.js:144 | an `a \|\| b \|\| ... \|\| last` chain yields the first truthy operand, or the last operand |
| Params.KeyOfName | src/main.js:83-86 | every parameter key's wire name reads back as that key |
| Params.NameInjective | src/main.js:83-86 | distinct keys have distinct wire names |
| Params.SetParamValues | src/main.js:86 | after `searchParams.set`, the key has exactly the new value and every other key keeps its values |
| Params.SortOrDefault | src/main.js:62 | the sort order is the given one, or `popularity.desc` when none is given; never empty |
| Params.GenreTextNonEmpty | src/main.js:64 | the joined genre list is never the empty text when some genre is given |
| Params.DateKeysApart | src/main.js:67-74 | a content type's two date keys are distinct, and neither is a key every discover request sets |
| Params.DiscoverParamsValues | src/main.js:59-77 | under each key, `buildDiscoverParams` holds the page, the sort order with its default, `include_adult=false`, the genres or `undefined`, the `-01-01`/`-12-31` year bounds under the content type's date keys, and nothing else |
| Params.DiscoverParamsAll | src/main.js:59-77 | the same, for all keys at once |
| Params.DiscoverParamsDistinct | src/main.js:59-77 | the discover parameters name each key at most once |
| Params.SearchParamsValues | src/main.js:423-424 | a search asks for the query, the page and `include_adult=false`, each key once |
| Params.AppendBlocksChosen | src/main.js:353-357 | each block is in `append_to_response` exactly when its option is on |
| Params.AppendBlocksOrdered | src/main.js:353-357 | the appended blocks keep the order credits, reviews, keywords, images |
| Params.DetailParamsValues | src/main.js:347-361 | the detail parameters are empty exactly when no block is appended; otherwise they hold the joined block list and `include_image_language=en,null`, each key once |
| Params.ApiQueryShape | src/main.js:82-87 | with distinct keys, the wire query is `api_key` followed by the kept entries in order |
| Params.WireValues | src/main.js:83-87 | on the wire, `api_key` is the caller's key; every other key carries its value as text when it is not `undefined`, `null` or `''`, and nothing otherwise |
| Params.DiscoverQuery | src/main.js:59-87 | the wire query of a discover request: key, page, `include_adult=false`, sort order, genres exactly when some are given, each given year bound |
| Params.BuildWebListingUrl | src/main.js:473-494 | `buildWebListingUrl` points at the content type's search page for a query, and at its discover page otherwise |
| Params.WebListingUrlQuery | src/main.js:473-494 | the listing URL's query string carries the listing's parameters under their wire names, and nothing else |
| Params.SearchWebQueryValues | src/main.js:474-478 | the website search asks for the query and the page, each key once |
| Params.DiscoverWebQueryValues | src/main.js:481-492 | the website discover page asks for the page, and for genres, sort order and year bounds only when they are set |
| Params.DiscoverWebQueryDistinct | src/main.js:481-492 | the website discover parameters name each key at most once |
| Params.SplitFirst | src/main.js:550 | splitting at the first occurrence of a character gives the text before it and after it, and reassembles to the input |
| Params.ResolveHref | src/main.js:550 | `new URL(href, base)` puts every relative link under the site's origin |
| Listing.DigitRun | src/main.js:534 | the `\d+` run at the start of a string: all digits, followed by a non-digit or the end |
| Listing.FindPathLeftmost | src/main.js:534 | the `/(movie\|tv)/(\d+)` search returns the leftmost match, and nothing when no position matches |
| Listing.ParseContentPath | src/main.js:534-537 | a content path `/<type>/<id>` followed by a non-digit parses back to that type and id |
| Listing.CardLink | src/main.js:530 | the card's link is one of its anchors whose `href` starts with `/<type>/` |
| Listing.ItemOfParsed | src/main.js:529-537 | a card yields an item only with a nonzero id that its first link of the content type parses to, with that type |
| Listing.CardWithContentLink | src/main.js:529-551 | a card whose first link of the type is a content path with a nonzero id yields that id |
| Listing.ListingItemsShape | src/main.js:527-554 | `extractListingItems` gives one item per id; the ids come in first-card order, each item comes from the last card with its id, and an id is present exactly when some card yields it |
| Listing.ExtractListingItems | src/main.js:527-554 | the card-by-card loop over the id-keyed map computes the listing items |
| Listing.IsNextTextIncludes | src/main.js:714-717 | the fallback anchor test reduces to `›`, `»` or containing `next`, on the trimmed lower-cased text |
| Listing.FirstSelected | src/main.js:699-713 | the selector rule returns the truthy `href` of some selector that matched |
| Listing.FirstNextAnchor | src/main.js:714-719 | the fallback anchor is a pagination anchor whose text reads as "next" |
| Listing.FirstSome | src/main.js:688-723 | the first present candidate: present exactly when some candidate is, and all candidates before it are absent |
| Listing.ResolveFirstMatch | src/main.js:688-723 | `resolveNextUrl` returns the first of marker, the six selectors in order, and the pagination anchor that yields a URL, and `null` when none does |
| Listing.MarkerRewritesPage | src/main.js:689-697 | a truthy `data-next-page` marker keeps the current URL's location and every parameter except `page`, which it sets to the marker |
| Records.TrimmedOrNull | src/main.js:540-541 | `s.trim() \|\| null` is `null` exactly when the text trims to empty, and otherwise non-empty and trimmed |
| Records.GenreIds | src/main.js:126-129 | the genre ids are `null` without a genre list or without a finite id |
| Records.MapContentRecordNames | src/main.js:123-155 | the content record carries source, type and id; its title is `title` for a movie and `name` for TV; `original_title` falls back to `original_name` and then to the title; `adult` defaults to false |
| Records.MapContentRecordLists | src/main.js:125-178 | genres are `null` exactly when no genre has a name; the copied fields are the common ones plus the movie's or the show's; the TV lists appear only for a show |
| Records.CreditsRecord | src/main.js:182-214 | a credits record exists exactly when the credits block has a cast or a crew entry, and carries both lists |
| Records.ReviewsRecord | src/main.js:244-258 | a reviews record exists exactly when some review was collected, and carries them |
| Records.KeywordsRecord | src/main.js:260-280 | a keywords record exists exactly when the type's keyword list (`keywords` for a movie, `results` for TV) is non-empty |
| Records.ImagesRecord | src/main.js:282-316 | an images record holds exactly `limitArray` of the posters and of the backdrops, the first `maxImages` of each (all when fewer), and exists exactly when `maxImages > 0` and some image exists |
| Records.PartEntryOf | src/main.js:334-341 | a collection part's title falls back to its name, and its release date to its first air date |
| Records.CollectionRecordOf | src/main.js:326-343 | the collection record carries the collection's id and every part, in order |
| Records.PersonRecord | src/main.js:797-830 | the person record holds the person's fields and the first 15 cast and first 15 crew credits in order, each with its title and date fallbacks |
| Records.WebContentRecordFields | src/main.js:631-662 | each field of a scraped record is the detail page's value when truthy, else the listing card's; only a movie has a release date, only a show a first air date; a show's season and episode counts are `null` and its episode run times `null`, its last air date and status come from the page, and its networks and creators are `null` exactly when all are blank |
| Records.WebContentRecordGenres | src/main.js:632 | a scraped record has no genres exactly when every listed genre is blank |
| Backend.ApiCall | src/main.js:79-101 | without a key the request throws and sends nothing; otherwise the request with its key and parameters is logged with its reply, and it succeeds only on a JSON reply, consuming it |
| Backend.WebCall | src/main.js:496-525 | a page fetch logs the request with its reply and consumes one reply |
| Backend.ApiRequest | src/main.js:79-101 | `tmdbApiRequest` on the objects behaves as `ApiCall` |
| Backend.FetchWebPage | src/main.js:496-525 | `fetchWebPage` on the objects behaves as `WebCall` |
| Backend.Env.Exchange | src/main.js:89-94 | a request receives the next scripted reply, and both are logged |
| Backend.Env.Push | src/main.js:380 | `Dataset.pushData` appends the record to the log |
| Backend.Env.Persist | src/main.js:1038 | `Actor.setValue` appends the state, or `null`, to the log |
| Extras.AllReviews | src/main.js:216-242 | `collectAllReviews` gives `[]` without a request when `maxReviews` is 0, and never more than `maxReviews` reviews |
| Extras.ReviewsFromPages | src/main.js:222-231 | the review loop asks for consecutive pages up to `total_pages`, the last only while fewer than `maxReviews` are held, and appends each reply's reviews |
| Extras.CollectAllReviewsShape | src/main.js:216-242 | `collectAllReviews` asks for pages 2 to `n + 1` with `n + 1 <= total_pages`, asks for none once `maxReviews` are held, and returns the first `maxReviews` of the embedded reviews followed by the fetched ones, in source order |
| Extras.CollectAllReviews | src/main.js:216-242 | the `push` loop computes `AllReviews` |
| Extras.RankedIncreasing | src/main.js:387-401 | ranked extras are in strictly increasing fan-out order, each kind at most once |
| Extras.AllExtrasShape | src/main.js:387-401 | the extras step pushes extra records only, at most one of each kind, in the order credits, reviews, keywords, images, collection; when it ends normally, the credits, keywords and images records are exactly the non-empty records built from the detail for the kinds requested, the reviews record is the one built from the fetched reviews when reviews are requested, and a collection record is pushed exactly when collections are requested for a movie whose detail names a collection |
| Extras.ContentAndExtrasOrder | src/main.js:371-402 | the content record is pushed first and counted whatever happens after; then at most one record each of credits, reviews, keywords, images and collection, in that order, each counted once in `extraItems`; no listing or detail request is sent; when the call ends normally, exactly the non-empty extras of the requested kinds are pushed, the collection record exactly for a movie whose detail names a collection |
| Extras.PushContentAndExtras | src/main.js:371-402 | `pushContentAndExtras` on the objects behaves as `ContentAndExtras` |
| Extras.PushReviewsRecord | src/main.js:390-391 | the reviews step on the objects |
| Extras.PushCollectionRecord | src/main.js:318-345 | the collection step on the objects |
| Extras.PushExtra | src/main.js:388 | an extra record, when there is one, is pushed and counted |
| Batching.Concurrency | src/main.js:418 | the batch size is at least 1, and is the given count when that is at least 1 |
| Batching.BatchFromAppend | src/main.js:442-465 | running two batches one after the other is running their concatenation |
| Batching.BatchFromCount | src/main.js:459-465 | a batch of 0/1 workers adds between 0 and its size |
| Batching.BatchesPrefix | src/main.js:439-466 | the batch loop runs the worker on a prefix of the queue, in order, exactly as one batch would |
| Batching.BatchesEnd | src/main.js:440 | the loop stops early only once the count reached the limit; entered below the limit, it ends below `limit + concurrency` |
| Batching.BatchesWhole | src/main.js:439-441 | a queue that fits in the room left is run whole |
| ApiPipeline.Queue | src/main.js:439 | `items.slice(0, limit - saved)` is a prefix of the page's items, of at most `limit - saved` items when that is non-negative |
| ApiPipeline.ProcessItemShape | src/main.js:443-463 | an item asks for its own detail and no listing, and counts 1 only after its content record was stored |
| ApiPipeline.ItemWorkerFetches | src/main.js:443-463 | with a key, every item of `collectContentWithApi` behaves so |
| ApiPipeline.PageStepListing | src/main.js:421-437 | a page sends its listing request (nothing without a key), throws exactly without a key or on a failed reply, and goes on exactly when the page had items and `total_pages > page` |
| ApiPipeline.PageStepItems | src/main.js:436-466 | a page that answered asks for the details of its items cut to `limit - saved`, in order; the count grows by at most that many, each counted item having stored its content record |
| ApiPipeline.ItemsStep | src/main.js:439-466 | the batch loop of a page asks for exactly its queue's details, in order |
| ApiPipeline.ApiPagesReplies | src/main.js:421-434 | the page loop gets one listing reply per page, never past `maxPages` |
| ApiPipeline.ApiPagesRequests | src/main.js:421-434 | the page loop asks for consecutive pages from `startPage` |
| ApiPipeline.ApiPagesCount | src/main.js:417-470 | a normal end returns the last page asked for as `lastPage` (`startPage - 1` when none) and a count within the limit, each counted item stored; no page is asked for only when entered past `maxPages` or at the limit |
| ApiPipeline.ApiPagesStop | src/main.js:421-469 | every page but the last let the loop go on; it stops after an empty page, `total_pages <= page`, the limit or `maxPages`, and throws only without a key or on a failed listing reply |
| ApiPipeline.RunApiBatch | src/main.js:441-465 | one batch on the objects, summing its results |
| ApiPipeline.RunApiQueue | src/main.js:439-466 | the `splice` loop of a page computes `Batches` |
| ApiPipeline.ApiPageStep | src/main.js:422-468 | one page on the objects computes `PageStep` |
| ApiPipeline.CollectContentWithApi | src/main.js:404-470 | `collectContentWithApi` on the objects computes `ApiPages` |
| WebPipeline.FreshShape | src/main.js:732-737 | the candidates have pairwise distinct ids, exactly the page's ids not seen before, and every id of the page is seen afterwards |
| WebPipeline.FreshCandidates | src/main.js:732-737 | the `seenIds` loop computes `Fresh` |
| WebPipeline.StoreItemShape | src/main.js:742-751 | an item pushes its own record, and counts 1, exactly when its detail page answered |
| WebPipeline.BatchStored | src/main.js:739-754 | a batch of distinct items pushes one record per counted item, for distinct ids of the batch |
| WebPipeline.PageItemsStored | src/main.js:729-757 | a page stores only ids not seen before, one record per counted item, and, entered below the limit, ends below `limit + concurrency` |
| WebPipeline.WebPagesStored | src/main.js:725-760 | the page loop stores one record per counted item, for distinct ids never seen before in the call, and returns `lastPage >= startPage - 1` |
| WebPipeline.WebPagesBound | src/main.js:725-760 | the loop's count stays below `limit + concurrency` |
| WebPipeline.WebPagesStalled | src/main.js:725-760 | the loop has no page cap: when every page that answers links to a next page and saves nothing, the loop never ends normally and stops only at a failed page fetch |
| WebPipeline.CollectWebShape | src/main.js:667-760 | `limit <= 0` returns 0 without a fetch; otherwise the first request is the listing URL; a normal end stored exactly `collected` records for distinct ids, with `0 <= collected < limit + concurrency` |
| WebPipeline.StoreWebItem | src/main.js:743-747 | one item on the objects |
| WebPipeline.PushWebItem | src/main.js:663-664 | the record of an item whose page answered is pushed and counted on the objects |
| WebPipeline.RunWebBatch | src/main.js:741-753 | one batch on the objects |
| WebPipeline.RunWebCandidates | src/main.js:739-754 | the `splice` loop over the candidates computes `Batches` |
| WebPipeline.ScrapeListingPage | src/main.js:726-757 | one listing page on the objects |
| WebPipeline.CollectContentWithWeb | src/main.js:667-760 | `collectContentWithWeb` on the objects computes `CollectWeb` |
| People.PushesAnswered | src/main.js:797-832 | lookups that all answered push one person record each |
| People.StorePersonShape | src/main.js:790-833 | a person lookup is logged, and pushes and counts that person's record exactly when the detail answered; it throws otherwise |
| People.PersonsFromShape | src/main.js:788-835 | the persons of a page are looked up in order, as many as the room left under the limit when all answer; the count grows by one per person stored |
| People.PeopleStepShape | src/main.js:776-839 | one search page: its search is logged, and its persons are looked up as above |
| People.PeopleSearchesPages | src/main.js:776-838 | searches are for consecutive pages and never past page 5 |
| People.PeoplePagesSearches | src/main.js:776-840 | the loop logs exactly its searches and returns the page of the last one as `lastPage` |
| People.PeoplePagesRecorded | src/main.js:776-840 | every person looked up was stored on a normal end, and the count never passes the limit |
| People.PeoplePagesMore | src/main.js:837 | every search page but the last had more pages to come |
| People.PeoplePagesStop | src/main.js:776-839 | the loop stops after an empty or last page, the limit or page 5; a loop that searched nothing was entered at the limit or past page 5, or throws without a key |
| People.CollectPeopleShape | src/main.js:763-841 | an empty query returns at once; a normal end collected at most `limit` persons, each looked up and stored as one person record counted in `extraItems` |
| People.CollectPeopleSearches | src/main.js:763-841 | the search pages are `startPage` to the returned `lastPage`, consecutive and never past page 5 |
| People.StorePersons | src/main.js:788-835 | the person loop of a page on the objects |
| People.CollectPeopleWithApi | src/main.js:763-841 | `collectPeopleWithApi` on the objects computes `CollectPeople` |
| Coordinator.SettingsNumbers | src/main.js:856-878 | `resultsWanted` of at least 1 is the per-query limit and, capped at 100, the budget (5 otherwise); `maxPages` is the given count, 1 for `null`, 5 otherwise; the concurrency is the given count or 10 |
| Coordinator.SettingsCounts | src/main.js:919-924 | the review, image and people caps take their defaults 25, 20 and 3 only when absent; a given number is kept, and `null` or a non-number acts as 0 |
| Coordinator.NullCapsCollectNothing | src/main.js:919-924 | with the three caps `null`, no review page is fetched and no review kept, no images record is built, and the people loop returns `(0, startPage - 1)` without a request |
| Coordinator.EffectiveQueries | src/main.js:975-977 | the search queries, or one discover pass (`null`) when there are none |
| Coordinator.QueryStepSkips | src/main.js:1055-1059 | a pair with `limitForQuery <= 0` fetches and persists nothing and only resets `collectedForCurrent` |
| Coordinator.QueryStepPersists | src/main.js:1063-1115 | a pair with room left persists the query at page 1 before any fetch, and ends by persisting its final state |
| Coordinator.QueryStepCounts | src/main.js:1055-1117 | a pair charges the budget what it collected, never below 0; at most `limitForQuery` while the API is on, fewer than `limitForQuery + concurrency` once the website took over |
| Coordinator.QueryStepAdvances | src/main.js:1070-1117 | a pair never raises the budget; the API is only ever switched off, only by an API exception, counted as one API failure |
| Coordinator.QueryLoopAdvances | src/main.js:1041-1118 | the query loop of a type keeps the same invariant and the type |
| Coordinator.TypeLoopAdvances | src/main.js:1031-1119 | the type loop keeps the same invariant |
| Coordinator.TypeLoopEnters | src/main.js:1031-1038 | entering a type persists its reset state (type, no query, page 1, count 0) before any fetch |
| Coordinator.TypeLoopResumes | src/main.js:1031-1033 | resuming skips every type before the saved one, and all of them when the saved type is not requested |
| Coordinator.TypeLoopIgnoresSavedQuery | src/main.js:1034-1043 | a saved query, page or count never changes what the content loop does |
| Coordinator.PeopleLoopEnters | src/main.js:1135-1138 | entering a people query persists it at page 1 with nothing collected, before its search |
| Coordinator.PeopleLoopResumes | src/main.js:1129-1132 | resuming people skips every query before the saved one |
| Coordinator.PeoplePartKeeps | src/main.js:1121-1152 | the people part only appends to the log and counts no API failure |
| Coordinator.ApiRunKeeps | src/main.js:1072-1084 | the API pipeline as called by the coordinator only appends to the log, counts no API failure, and keeps its count within `limitForQuery` |
| Coordinator.WebRunKeeps | src/main.js:1100-1111 | the web pipeline as called keeps its count below `limitForQuery + concurrency` |
| Coordinator.PeopleRunKeeps | src/main.js:1139-1146 | the people pipeline as called only appends to the log |
| Coordinator.AfterWebOk | src/main.js:1112-1116 | a normal web run's count and last page go into the persisted state, and its count is charged to the budget |
| Coordinator.RunWithShape | src/main.js:1015-1168 | a normal run only appends to the log and ends by persisting `null`; it counts at most one API failure, and only with a key and `useApiFirst` |
| Coordinator.ScrapeShape | src/main.js:843-1168 | an unknown `contentType` throws before anything else; a normal run clears the checkpoint last, counts at most one API failure, and, from no saved type, first persists the entry into the first type |
| Coordinator.TryApi | src/main.js:1070-1097 | the API attempt of one pair on the objects |
| Coordinator.UseWeb | src/main.js:1099-1117 | the website attempt of one pair on the objects |
| Coordinator.RunQuery | src/main.js:1041-1117 | one (type, query) pair on the objects computes `QueryStep` |
| Coordinator.CollectContent | src/main.js:1031-1119 | the type loop on the objects computes `TypeLoop` |
| Coordinator.CollectPeopleQueries | src/main.js:1129-1150 | the people loop on the objects computes `PeopleLoop` |
| Coordinator.RunActor | src/main.js:843-1178 | the actor's main body on the objects computes `Scrape` |

## Behaviour as written

The scraper's documented design differs from its code in several places. The model follows the code.

- A saved query or page never takes effect. Entering a type resets `currentQuery`, `currentPage` and `collectedForCurrent` (src/main.js:1035-1037), so `queryResuming` (1040) is always false. Each query also restarts at page 1 (1064). `Coordinator.TypeLoopIgnoresSavedQuery` states this. Only the saved type and the saved people query are resumed.
- `collectedForCurrent` accumulates across the queries of one type. It is reset only on entering a type and on a skipped pair (1037, 1057).
- An exception in an extra does not roll back the item. The content record stays stored and counted in `stats.contents`, but the item counts 0 toward `saved` (379-401, 443-463).
- Items the API pipeline stored before it threw are not charged to `remainingResults` (1090-1096).
- A failed web listing fetch is not caught (728, 1100). It ends the run, and the checkpoint is not cleared. A failed person search or lookup ends the run in the same way.
- `state.apiAvailable` is written (1093) but never read. Each run starts from the key and `useApiFirst` (1015).
- The checkpoint is written around each pipeline call (1038, 1065, 1088, 1094, 1115), not after each page.
- The web pipeline does not cut its candidates to `limit - saved`, so a call can collect up to `limit + concurrency - 1` items (739-753).
- The web page loop has no page cap (725). If every page links to a next page and holds only ids seen before, nothing is saved and the loop fetches pages without end. The model ends such a run only because its script of replies is finite: the fetch after the last reply throws. `WebPipeline.WebPagesStalled` states this.

## Left out

- The HTTP transport is an oracle: a script of replies. This covers `gotScraping`, its retries and timeouts, and the `statusCode >= 400` throws. A failed reply makes the request throw.
- Cheerio DOM selection is left out. A fetched page is given as its cards, its navigation (marker, selector matches, pagination anchors) and its detail data.
- `extractTmdbContentData` (src/main.js:556-629) is left out, because it is DOM selection. Its result is an input of the model.
- The rating parse (565-572) is left out because it is floating-point arithmetic. `vote_average` of a scraped record is not modelled.
- `randomDelay`/`sleep` are left out (timers and `Math.random`), as are the request timeout setting (954-956), `HeaderGenerator`, `WEB_HEADERS` and the proxy configuration.
- `Promise.all` parallelism is not modelled; a batch runs as a sequential fold. For this reason the lost update on `stats.extraItems += await ...` under concurrency (388-400) is not modelled either.
- The SIGTERM/SIGINT handlers (893-902) are left out because they are asynchronous signals.
- Logging, `Actor.setStatusMessage`, the summary, `Actor.metamorph` and `Actor.exit` are left out, because they change no state the model tracks.
- The `fetchedAt` timestamps are left out, because they read the clock.
- `Dataset.pushData` and `Actor.setValue` are modelled as appends to the log that always succeed. `Actor.getValue` is the `saved` parameter of the run.
- Records.CreditsRecord, Records.ReviewsRecord, Records.KeywordsRecord, Records.ImagesRecord: the entries of the credits, reviews, keywords and images blocks are carried whole. Their projection onto the listed fields (183-199, 233-241, 273-276, 283-301) is not modelled.
- Records.MapContentRecordLists: the plain copied fields of a content record are a map from field name to value. The contract states which names are present, not each value.
- Text.ParseInt: `Number(s)` is modelled only for decimal integers with an optional sign. Fractions, exponents, hexadecimal and `Infinity` give no number.
- Lists.ParseNumberList: it inherits the integer-only `Number`. Numbers throughout the model are integers.
- Coordinator.SettingsNumbers: numeric inputs are an integer, `null`, absent or not a number. Fractional inputs are not modelled.
- Coordinator.SettingsCounts: a cap that `Number()` would read as an infinity is taken as a non-number, so it collects nothing instead of lifting the cap.
- Listing.IsNextTextIncludes: `toLowerCase` is modelled for the ASCII letters only, so a non-ASCII capital in an anchor text is not folded.
- Params.ResolveHref: only an absolute `http(s)` link or a rooted path is resolved. Other relative forms (`../x`, `?page=2`) are put under the site's origin as rooted paths.
- The warnings for a minimal configuration (979-982), for extras without a key (1022-1024), for no content collected (1155-1157) and for people without a key (1122-1123) are left out, because they are log output only.
