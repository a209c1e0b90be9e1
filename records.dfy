/**
 * The records the scraper stores: the content record built from an API
 * detail (`mapContentRecord`), the extra records built from the blocks
 * appended to it (credits, reviews, keywords, images) and from a collection,
 * the person record of the people search, and the content record built from
 * a scraped page (`pushWebContentRecord`).
 *
 * JSON values the scraper copies without looking at them are `JsValue`s;
 * the entries of the credits, reviews, keywords and images blocks are such
 * values, carried whole.
 */
module Records {
  import opened Wrappers
  import opened Text
  import opened Lists
  import opened Params

  /** `a || b` on optional strings. */
  function Or(a: Option<string>, b: Option<string>): Option<string> {
    if Truthy(a) then a else b
  }

  /** `s.trim() || null`: the trimmed text, or nothing when it is empty. */
  function TrimmedOrNull(s: string): (r: Option<string>)
    ensures r.Some? ==> r.value != "" && IsTrimmed(r.value)
    ensures r.None? <==> Trim(s) == ""
  {
    if Trim(s) == "" then None else Some(Trim(s))
  }

  datatype Genre = Genre(id: JsValue, name: Option<string>)

  datatype Language = Language(englishName: Option<string>, name: Option<string>)

  /** A production company, production country, network or creator: only its name is used. */
  datatype Organisation = Organisation(name: Option<string>)

  datatype CreditsBlock = CreditsBlock(cast: Option<seq<JsValue>>, crew: Option<seq<JsValue>>)

  datatype ReviewsBlock = ReviewsBlock(results: Option<seq<JsValue>>, totalPages: Option<int>)

  datatype KeywordsBlock = KeywordsBlock(keywords: Option<seq<JsValue>>, results: Option<seq<JsValue>>)

  datatype ImagesBlock = ImagesBlock(posters: Option<seq<JsValue>>, backdrops: Option<seq<JsValue>>)

  /**
   * A movie or TV detail as the API returns it. `fields` holds the scalar
   * fields that are copied verbatim; the blocks are present when they were
   * appended to the response.
   */
  datatype Detail = Detail(
    id: int,
    title: Option<string>, name: Option<string>,
    originalTitle: Option<string>, originalName: Option<string>,
    adult: Option<bool>,
    genres: Option<seq<Genre>>,
    spokenLanguages: Option<seq<Language>>,
    productionCompanies: Option<seq<Organisation>>,
    productionCountries: Option<seq<Organisation>>,
    networks: Option<seq<Organisation>>,
    createdBy: Option<seq<Organisation>>,
    originCountry: JsValue,
    episodeRunTime: JsValue,
    fields: map<string, JsValue>,
    credits: Option<CreditsBlock>,
    reviews: Option<ReviewsBlock>,
    keywords: Option<KeywordsBlock>,
    images: Option<ImagesBlock>,
    collectionId: Option<int>)

  /** The scalar fields every content record copies. */
  const COMMON_FIELDS: set<string> := {
    "overview", "tagline", "homepage", "status", "in_production", "vote_average",
    "vote_count", "popularity", "poster_path", "backdrop_path" }

  /** The scalar fields only a movie record copies. */
  const MOVIE_FIELDS: set<string> := { "release_date", "runtime", "budget", "revenue" }

  /** The scalar fields only a TV record copies. */
  const TV_FIELDS: set<string> := { "first_air_date", "last_air_date", "number_of_seasons", "number_of_episodes" }

  /** The named fields, copied; a field the detail lacks is copied as `undefined`. */
  function Copy(fields: map<string, JsValue>, names: set<string>): (r: map<string, JsValue>)
    ensures r.Keys == names
  {
    map n | n in names :: if n in fields then fields[n] else JsNull
  }

  /** The TV-only lists of a content record. */
  datatype TvLists = TvLists(
    episodeRunTime: Option<string>, networks: Option<string>,
    createdBy: Option<string>, originCountry: Option<string>)

  datatype ContentRecord = ContentRecord(
    source: string,
    contentType: ContentType,
    tmdbId: int,
    title: Option<string>,
    originalTitle: Option<string>,
    adult: bool,
    genres: Option<string>,
    genreIds: Option<string>,
    spokenLanguages: Option<string>,
    productionCompanies: Option<string>,
    productionCountries: Option<string>,
    copied: map<string, JsValue>,
    tv: Option<TvLists>)

  function GenreName(g: Genre): Option<string> {
    g.name
  }

  /** A spoken language is listed by its English name, or else by its own name. */
  function LanguageName(l: Language): Option<string> {
    Or(l.englishName, l.name)
  }

  function OrganisationName(o: Organisation): Option<string> {
    o.name
  }

  /** The genre ids that are finite numbers (`.map((g) => g.id).filter(Number.isFinite)`). */
  function FiniteIds(gs: seq<Genre>): (r: seq<int>)
    ensures |r| <= |gs|
  {
    if gs == [] then []
    else (if gs[0].id.JsNumber? then [gs[0].id.n] else []) + FiniteIds(gs[1..])
  }

  /** The genre ids of a content record: `formatList` of the finite ids, `null` without a genre list. */
  function GenreIds(genres: Option<seq<Genre>>): (r: Option<string>)
    ensures r.None? <==> genres.None? || FiniteIds(genres.value) == []
  {
    match genres
    case None => None
    case Some(gs) =>
      NumbersPrintNonEmpty(FiniteIds(gs));
      FormatList(JsArray(AsJsNumbers(FiniteIds(gs))))
  }

  /** A number never prints as the empty text, so `formatList` of numbers is `null` only for no numbers. */
  lemma NumbersPrintNonEmpty(ns: seq<int>)
    ensures ns != [] ==> ElementText(AsJsNumbers(ns)[0]) != ""
  {
    if ns != [] {
      IntToStringTrimmed(ns[0]);
    }
  }

  /**
   * `mapContentRecord`: the content record of an API detail. The title is
   * the movie's `title` or the show's `name`; the original title falls back
   * to `original_name` and then to that title; `adult` defaults to false;
   * the lists are formatted; a movie record copies the movie fields, a TV
   * record the TV fields and carries the TV lists.
   */
  function MapContentRecord(d: Detail, t: ContentType, source: string): ContentRecord
  {
    var baseTitle := if t == Movie then d.title else d.name;
    ContentRecord(
      source, t, d.id, baseTitle,
      Or(Or(d.originalTitle, d.originalName), baseTitle),
      d.adult.GetOr(false),
      FormatObjectList(d.genres, GenreName),
      GenreIds(d.genres),
      FormatObjectList(d.spokenLanguages, LanguageName),
      FormatObjectList(d.productionCompanies, OrganisationName),
      FormatObjectList(d.productionCountries, OrganisationName),
      Copy(d.fields, COMMON_FIELDS + if t == Movie then MOVIE_FIELDS else TV_FIELDS),
      if t == Movie then None
      else Some(TvLists(
        FormatList(d.episodeRunTime),
        FormatObjectList(d.networks, OrganisationName),
        FormatObjectList(d.createdBy, OrganisationName),
        FormatList(d.originCountry))))
  }

  /** The identity fields of a content record: source, type, id, title with its fallbacks, and `adult`. */
  lemma MapContentRecordNames(d: Detail, t: ContentType, source: string)
    ensures var r := MapContentRecord(d, t, source);
      && r.source == source && r.contentType == t && r.tmdbId == d.id
      && r.title == (if t == Movie then d.title else d.name)
      && (Truthy(d.originalTitle) ==> r.originalTitle == d.originalTitle)
      && (!Truthy(d.originalTitle) && Truthy(d.originalName) ==> r.originalTitle == d.originalName)
      && (!Truthy(d.originalTitle) && !Truthy(d.originalName) ==> r.originalTitle == r.title)
      && (r.adult <==> d.adult == Some(true))
  {
  }

  /** The lists of a content record: genres absent exactly when no genre has a name, the copied fields of its type, TV lists only for a show. */
  lemma MapContentRecordLists(d: Detail, t: ContentType, source: string)
    ensures var r := MapContentRecord(d, t, source);
      && (r.genres.None? <==> d.genres.None? || forall k :: 0 <= k < |d.genres.value| ==> !Truthy(d.genres.value[k].name))
      && r.copied.Keys == COMMON_FIELDS + (if t == Movie then MOVIE_FIELDS else TV_FIELDS)
      && (r.tv.Some? <==> t == Tv)
  {
  }

  /** A TMDb collection as the API returns it. */
  datatype Collection = Collection(
    id: JsValue, name: JsValue, overview: JsValue, posterPath: JsValue, backdropPath: JsValue,
    parts: Option<seq<Part>>)

  datatype Part = Part(
    id: JsValue, title: Option<string>, name: Option<string>,
    releaseDate: Option<string>, firstAirDate: Option<string>,
    voteAverage: JsValue, voteCount: JsValue, popularity: JsValue)

  datatype PartEntry = PartEntry(
    id: JsValue, title: Option<string>, releaseDate: Option<string>,
    voteAverage: JsValue, voteCount: JsValue, popularity: JsValue)

  /** One credit of a person's combined credits. */
  datatype PersonCredit = PersonCredit(
    id: JsValue, mediaType: JsValue, title: Option<string>, name: Option<string>,
    character: JsValue, job: JsValue, department: JsValue,
    releaseDate: Option<string>, firstAirDate: Option<string>)

  /** A person detail; `fields` holds the scalar fields that are copied verbatim. */
  datatype PersonDetail = PersonDetail(
    id: JsValue, fields: map<string, JsValue>,
    cast: Option<seq<PersonCredit>>, crew: Option<seq<PersonCredit>>)

  datatype CreditEntry =
    | CastEntry(id: JsValue, mediaType: JsValue, title: Option<string>, character: JsValue, releaseDate: Option<string>)
    | CrewEntry(id: JsValue, mediaType: JsValue, title: Option<string>, job: JsValue, department: JsValue, releaseDate: Option<string>)

  /** The scalar fields a person record copies. */
  const PERSON_FIELDS: set<string> := {
    "name", "biography", "birthday", "deathday", "gender", "known_for_department",
    "place_of_birth", "also_known_as", "popularity", "profile_path", "homepage" }

  /** How many cast and how many crew credits a person record keeps. */
  const MAX_PERSON_CREDITS := 15

  /** A listing card turned into an item: its id, and what the card shows. */
  datatype ListingItem = ListingItem(
    id: nat, title: string, overview: Option<string>, releaseDate: Option<string>,
    poster: Option<string>, href: Url)

  /** What the extractor finds on a detail page. */
  datatype WebDetail = WebDetail(
    title: Option<string>, overview: Option<string>, rating: JsValue,
    genres: seq<string>, releaseDate: Option<string>,
    firstAirDate: Option<string>, lastAirDate: Option<string>, status: Option<string>,
    networks: seq<string>, createdBy: seq<string>,
    posterPath: Option<string>, backdropPath: Option<string>)

  /**
   * The dates and lists of a scraped record that depend on the content type.
   * The extractor never fills a show's season and episode counts or its
   * episode run times, so those fields are always `null`.
   */
  datatype WebDates =
    | MovieDates(releaseDate: Option<string>)
    | TvDates(firstAirDate: Option<string>, lastAirDate: Option<string>,
              numberOfSeasons: JsValue, numberOfEpisodes: JsValue, episodeRunTime: Option<string>,
              status: Option<string>, networks: Option<string>, createdBy: Option<string>)

  datatype WebContentRecord = WebContentRecord(
    contentType: ContentType, tmdbId: nat, title: Option<string>, overview: Option<string>,
    voteAverage: JsValue, posterPath: Option<string>, backdropPath: Option<string>,
    genres: Option<string>, dates: WebDates)

  /** A record pushed to the dataset. */
  datatype Record =
    | Content(content: ContentRecord)
    | Credits(source: string, contentType: ContentType, contentId: int, contentTitle: Option<string>,
              cast: seq<JsValue>, crew: seq<JsValue>)
    | Reviews(source: string, contentType: ContentType, contentId: int, contentTitle: Option<string>,
              reviews: seq<JsValue>)
    | Keywords(source: string, contentType: ContentType, contentId: int, contentTitle: Option<string>,
               keywords: seq<JsValue>)
    | Images(source: string, contentType: ContentType, contentId: int, contentTitle: Option<string>,
             posters: seq<JsValue>, backdrops: seq<JsValue>)
    | CollectionRecord(source: string, collectionId: JsValue, name: JsValue, overview: JsValue,
                       posterPath: JsValue, backdropPath: JsValue, parts: seq<PartEntry>)
    | Person(personId: JsValue, info: map<string, JsValue>, castCredits: seq<CreditEntry>, crewCredits: seq<CreditEntry>)
    | WebContent(web: WebContentRecord)

  /** The title an extra record names its content by: `title`, or else `name`. */
  function ContentTitle(d: Detail): Option<string> {
    Or(d.title, d.name)
  }

  /**
   * `pushCreditsRecord`: the cast and crew of the appended credits block (an
   * absent list is empty), or no record when both are empty.
   */
  function CreditsRecord(d: Detail, t: ContentType, source: string): (r: Option<Record>)
    ensures r.Some? <==> d.credits.Some? && (d.credits.value.cast.GetOr([]) != [] || d.credits.value.crew.GetOr([]) != [])
    ensures r.Some? ==> r.value.Credits? && r.value.contentId == d.id
    ensures r.Some? ==> r.value.cast == d.credits.value.cast.GetOr([]) && r.value.crew == d.credits.value.crew.GetOr([])
  {
    var cast := if d.credits.Some? then d.credits.value.cast.GetOr([]) else [];
    var crew := if d.credits.Some? then d.credits.value.crew.GetOr([]) else [];
    if cast == [] && crew == [] then None
    else Some(Credits(source, t, d.id, ContentTitle(d), cast, crew))
  }

  /** The reviews record of `pushReviewsRecord`, or no record when no review was collected. */
  function ReviewsRecord(d: Detail, t: ContentType, source: string, reviews: seq<JsValue>): (r: Option<Record>)
    ensures r.Some? <==> reviews != []
    ensures r.Some? ==> r.value.Reviews? && r.value.contentId == d.id && r.value.reviews == reviews
  {
    if reviews == [] then None else Some(Reviews(source, t, d.id, ContentTitle(d), reviews))
  }

  /** The keyword list a content type uses: `keywords.keywords` for a movie, `keywords.results` for a show. */
  function KeywordList(d: Detail, t: ContentType): seq<JsValue> {
    if d.keywords.None? then []
    else if t == Movie then d.keywords.value.keywords.GetOr([])
    else d.keywords.value.results.GetOr([])
  }

  /** `pushKeywordsRecord`: the content type's keyword list, or no record when it is empty. */
  function KeywordsRecord(d: Detail, t: ContentType, source: string): (r: Option<Record>)
    ensures r.Some? <==> KeywordList(d, t) != []
    ensures r.Some? ==> r.value.Keywords? && r.value.contentId == d.id && r.value.keywords == KeywordList(d, t)
    ensures t == Movie && d.keywords.Some? ==> KeywordList(d, t) == d.keywords.value.keywords.GetOr([])
    ensures t == Tv && d.keywords.Some? ==> KeywordList(d, t) == d.keywords.value.results.GetOr([])
  {
    var block := KeywordList(d, t);
    if block == [] then None else Some(Keywords(source, t, d.id, ContentTitle(d), block))
  }

  /**
   * `pushImagesRecord`: the first `maxImages` posters and the first
   * `maxImages` backdrops, or no record when both are empty.
   */
  function ImagesRecord(d: Detail, t: ContentType, source: string, maxImages: int): (r: Option<Record>)
    ensures r.Some? ==> r.value.Images? && r.value.contentId == d.id
    ensures r.Some? ==> r.value.posters <= (if d.images.Some? then d.images.value.posters.GetOr([]) else [])
    ensures r.Some? ==> r.value.backdrops <= (if d.images.Some? then d.images.value.backdrops.GetOr([]) else [])
    ensures r.Some? ==> |r.value.posters| <= maxImages && |r.value.backdrops| <= maxImages
    ensures r.None? <==> maxImages <= 0 || !HasImages(d)
    ensures r.Some? ==> r.value.posters == LimitArray(if d.images.Some? then d.images.value.posters.GetOr([]) else [], maxImages)
    ensures r.Some? ==> r.value.backdrops == LimitArray(if d.images.Some? then d.images.value.backdrops.GetOr([]) else [], maxImages)
  {
    var posters := LimitArray(if d.images.Some? then d.images.value.posters.GetOr([]) else [], maxImages);
    var backdrops := LimitArray(if d.images.Some? then d.images.value.backdrops.GetOr([]) else [], maxImages);
    if posters == [] && backdrops == [] then None
    else Some(Images(source, t, d.id, ContentTitle(d), posters, backdrops))
  }

  /** The detail has an images block holding some poster or backdrop. */
  predicate HasImages(d: Detail) {
    d.images.Some? && (d.images.value.posters.GetOr([]) != [] || d.images.value.backdrops.GetOr([]) != [])
  }

  /** A collection id is fetched only when it is truthy. */
  predicate HasCollection(d: Detail) {
    d.collectionId.Some? && d.collectionId.value != 0
  }

  /** A collection part: its title falls back to its name, its release date to its first air date. */
  function PartEntryOf(p: Part): (e: PartEntry)
    ensures Truthy(p.title) ==> e.title == p.title
    ensures !Truthy(p.title) ==> e.title == p.name
    ensures Truthy(p.releaseDate) ==> e.releaseDate == p.releaseDate
    ensures !Truthy(p.releaseDate) ==> e.releaseDate == p.firstAirDate
  {
    PartEntry(p.id, Or(p.title, p.name), Or(p.releaseDate, p.firstAirDate), p.voteAverage, p.voteCount, p.popularity)
  }

  function PartEntries(ps: seq<Part>): (r: seq<PartEntry>)
    ensures |r| == |ps|
    ensures forall k :: 0 <= k < |ps| ==> r[k] == PartEntryOf(ps[k])
  {
    if ps == [] then [] else [PartEntryOf(ps[0])] + PartEntries(ps[1..])
  }

  /** The record `pushCollectionRecord` stores for a fetched collection: its fields, and every part in order. */
  function CollectionRecordOf(c: Collection, source: string): (r: Record)
    ensures r.CollectionRecord? && r.collectionId == c.id
    ensures |r.parts| == |c.parts.GetOr([])|
    ensures forall k :: 0 <= k < |r.parts| ==> r.parts[k] == PartEntryOf(c.parts.GetOr([])[k])
  {
    CollectionRecord(source, c.id, c.name, c.overview, c.posterPath, c.backdropPath, PartEntries(c.parts.GetOr([])))
  }

  function CastEntryOf(c: PersonCredit): CreditEntry {
    CastEntry(c.id, c.mediaType, Or(c.title, c.name), c.character, Or(c.releaseDate, c.firstAirDate))
  }

  function CrewEntryOf(c: PersonCredit): CreditEntry {
    CrewEntry(c.id, c.mediaType, Or(c.title, c.name), c.job, c.department, Or(c.releaseDate, c.firstAirDate))
  }

  function CastEntries(cs: seq<PersonCredit>): (r: seq<CreditEntry>)
    ensures |r| == |cs|
    ensures forall k :: 0 <= k < |cs| ==> r[k] == CastEntryOf(cs[k])
  {
    if cs == [] then [] else [CastEntryOf(cs[0])] + CastEntries(cs[1..])
  }

  function CrewEntries(cs: seq<PersonCredit>): (r: seq<CreditEntry>)
    ensures |r| == |cs|
    ensures forall k :: 0 <= k < |cs| ==> r[k] == CrewEntryOf(cs[k])
  {
    if cs == [] then [] else [CrewEntryOf(cs[0])] + CrewEntries(cs[1..])
  }

  /**
   * The person record of `collectPeopleWithApi`: the copied fields, and the
   * first 15 cast and first 15 crew credits in order, each titled by its
   * title or else its name and dated by its release date or else its first
   * air date.
   */
  function PersonRecord(p: PersonDetail): (r: Record)
    ensures r.Person? && r.personId == p.id && r.info.Keys == PERSON_FIELDS
    ensures |r.castCredits| == (if |p.cast.GetOr([])| < MAX_PERSON_CREDITS then |p.cast.GetOr([])| else MAX_PERSON_CREDITS)
    ensures |r.crewCredits| == (if |p.crew.GetOr([])| < MAX_PERSON_CREDITS then |p.crew.GetOr([])| else MAX_PERSON_CREDITS)
    ensures forall k :: 0 <= k < |r.castCredits| ==> r.castCredits[k] == CastEntryOf(p.cast.GetOr([])[k])
    ensures forall k :: 0 <= k < |r.crewCredits| ==> r.crewCredits[k] == CrewEntryOf(p.crew.GetOr([])[k])
  {
    Person(p.id, Copy(p.fields, PERSON_FIELDS),
      CastEntries(LimitArray(p.cast.GetOr([]), MAX_PERSON_CREDITS)),
      CrewEntries(LimitArray(p.crew.GetOr([]), MAX_PERSON_CREDITS)))
  }

  /**
   * `pushWebContentRecord`: what the detail page shows wins over what the
   * listing card showed (title, overview, poster, and the release or first
   * air date); the lists are formatted; the dates and TV lists follow the
   * content type.
   */
  function WebContentRecordOf(item: ListingItem, w: WebDetail, t: ContentType): WebContentRecord
  {
    WebContentRecord(
      t, item.id, Or(w.title, Some(item.title)), Or(w.overview, item.overview), w.rating,
      Or(w.posterPath, item.poster), w.backdropPath, FormatStrings(w.genres),
      if t == Movie then MovieDates(Or(w.releaseDate, item.releaseDate))
      else TvDates(Or(w.firstAirDate, item.releaseDate), w.lastAirDate,
        JsNull, JsNull, FormatStrings([]), w.status, FormatStrings(w.networks), FormatStrings(w.createdBy)))
  }

  /** The fields of a scraped record: the detail page's value when it is truthy, else the listing card's. */
  lemma WebContentRecordFields(item: ListingItem, w: WebDetail, t: ContentType)
    ensures var r := WebContentRecordOf(item, w, t);
      && r.contentType == t && r.tmdbId == item.id
      && r.title == (if Truthy(w.title) then w.title else Some(item.title))
      && r.overview == (if Truthy(w.overview) then w.overview else item.overview)
      && r.posterPath == (if Truthy(w.posterPath) then w.posterPath else item.poster)
      && (r.dates.MovieDates? <==> t == Movie)
      && (t == Movie ==> r.dates.releaseDate == if Truthy(w.releaseDate) then w.releaseDate else item.releaseDate)
      && (t == Tv ==> r.dates.firstAirDate == if Truthy(w.firstAirDate) then w.firstAirDate else item.releaseDate)
    ensures var r := WebContentRecordOf(item, w, t);
      t == Tv ==>
        && r.dates.lastAirDate == w.lastAirDate && r.dates.status == w.status
        && r.dates.numberOfSeasons == JsNull && r.dates.numberOfEpisodes == JsNull && r.dates.episodeRunTime == None
        && (r.dates.networks.None? <==> forall k :: 0 <= k < |w.networks| ==> Trim(w.networks[k]) == "")
        && (r.dates.createdBy.None? <==> forall k :: 0 <= k < |w.createdBy| ==> Trim(w.createdBy[k]) == "")
  {
  }

  /** A scraped record has no genres exactly when every genre the page lists is blank. */
  lemma WebContentRecordGenres(item: ListingItem, w: WebDetail, t: ContentType)
    ensures WebContentRecordOf(item, w, t).genres.None? <==> forall k :: 0 <= k < |w.genres| ==> Trim(w.genres[k]) == ""
  {
  }
}
