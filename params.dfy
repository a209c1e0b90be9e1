/**
 * Request construction: the API query parameters of the search, discover and
 * detail requests (`buildDiscoverParams`, the `append_to_response` list of
 * `fetchContentDetailFromApi`, the serialisation inside `tmdbApiRequest`) and
 * the website listing URLs (`buildWebListingUrl`), with URLs modelled as a
 * location and an ordered list of query parameters.
 */
module Params {
  import opened Wrappers
  import opened Text
  import opened Lists

  const API_BASE := "https://api.themoviedb.org/3"
  const WEB_BASE := "https://www.themoviedb.org"

  /** The two content domains; `Name` is the path segment and the `content_type` tag. */
  datatype ContentType = Movie | Tv {
    function Name(): string {
      match this
      case Movie => "movie"
      case Tv => "tv"
    }
  }

  /** The name of a query parameter the scraper writes. */
  datatype Key =
    | Page | SortBy | IncludeAdult | WithGenres
    | ReleaseFrom | ReleaseTo | AirFrom | AirTo
    | ApiKey | SearchText | AppendToResponse | IncludeImageLanguage
  {
    /** The name as it appears on the wire. */
    function Name(): string {
      match this
      case Page => "page"
      case SortBy => "sort_by"
      case IncludeAdult => "include_adult"
      case WithGenres => "with_genres"
      case ReleaseFrom => "primary_release_date.gte"
      case ReleaseTo => "primary_release_date.lte"
      case AirFrom => "first_air_date.gte"
      case AirTo => "first_air_date.lte"
      case ApiKey => "api_key"
      case SearchText => "query"
      case AppendToResponse => "append_to_response"
      case IncludeImageLanguage => "include_image_language"
    }
  }

  /** The key a wire name stands for, if any. */
  function KeyOf(s: string): (r: Option<Key>)
    ensures r.Some? ==> r.value.Name() == s
  {
    if s == "page" then Some(Page)
    else if s == "sort_by" then Some(SortBy)
    else if s == "include_adult" then Some(IncludeAdult)
    else if s == "with_genres" then Some(WithGenres)
    else if s == "primary_release_date.gte" then Some(ReleaseFrom)
    else if s == "primary_release_date.lte" then Some(ReleaseTo)
    else if s == "first_air_date.gte" then Some(AirFrom)
    else if s == "first_air_date.lte" then Some(AirTo)
    else if s == "api_key" then Some(ApiKey)
    else if s == "query" then Some(SearchText)
    else if s == "append_to_response" then Some(AppendToResponse)
    else if s == "include_image_language" then Some(IncludeImageLanguage)
    else None
  }

  /** Every key's wire name is read back as that key. */
  lemma KeyOfName(k: Key)
    ensures KeyOf(k.Name()) == Some(k)
  {
  }

  /** Distinct keys have distinct wire names. */
  lemma NameInjective(a: Key, b: Key)
    ensures a.Name() == b.Name() <==> a == b
  {
    KeyOfName(a);
    KeyOfName(b);
  }

  /** A value of a parameter object before serialisation; `PUndefined` is a key whose value is `undefined`. */
  datatype ParamValue = PStr(s: string) | PInt(n: int) | PBool(b: bool) | PUndefined

  /** A parameter object: its entries in insertion order. */
  type ParamObject = seq<(Key, ParamValue)>

  /** Serialised query parameters, in order, named by `K`. */
  type Query<K> = seq<(K, string)>

  /** A URL: everything up to the query, and the query's name-value pairs. */
  datatype Url = Url(location: string, query: Query<string>)

  datatype DiscoverFilters = DiscoverFilters(genreIds: seq<int>, yearFrom: Option<int>, yearTo: Option<int>, sortBy: string)

  /** Which extras are collected, with their caps (`maxReviewsPerContent`, `maxImagesPerContent`). */
  datatype ExtrasConfig = ExtrasConfig(
    collectPeople: bool, collectReviews: bool, collectKeywords: bool, collectImages: bool,
    collectCollections: bool, maxReviews: int, maxImages: int)

  /** A year filter is used when it is truthy, that is present and not 0. */
  predicate YearGiven(y: Option<int>) {
    y.Some? && y.value != 0
  }

  /** The lower date bound's key: the release date for movies, the first air date for TV. */
  function FromKey(t: ContentType): Key {
    if t == Movie then ReleaseFrom else AirFrom
  }

  function ToKey(t: ContentType): Key {
    if t == Movie then ReleaseTo else AirTo
  }

  /** All values named `key`, in order. */
  function Values<K(==), V>(ps: seq<(K, V)>, key: K): seq<V> {
    if ps == [] then [] else (if ps[0].0 == key then [ps[0].1] else []) + Values(ps[1..], key)
  }

  /** Every key occurs at most once. */
  ghost predicate DistinctKeys<K(!new), V>(ps: seq<(K, V)>) {
    forall k :: |Values(ps, k)| <= 1
  }

  /** No key occurs in both. */
  ghost predicate Disjoint<K(!new), V, W>(a: seq<(K, V)>, b: seq<(K, W)>) {
    forall k :: Values(a, k) == [] || Values(b, k) == []
  }

  lemma {:induction false} ValuesAppend<K, V>(a: seq<(K, V)>, b: seq<(K, V)>, key: K)
    ensures Values(a + b, key) == Values(a, key) + Values(b, key)
  {
    if a == [] {
      assert a + b == b;
    } else {
      ValuesAppend(a[1..], b, key);
      var h := if a[0].0 == key then [a[0].1] else [];
      assert (a + b)[0] == a[0] && (a + b)[1..] == a[1..] + b;
      assert h + (Values(a[1..], key) + Values(b, key)) == (h + Values(a[1..], key)) + Values(b, key);
    }
  }

  /** The entry's value when it is named `key`. */
  function ValueIf<K(==), V>(p: (K, V), key: K): seq<V> {
    if p.0 == key then [p.1] else []
  }

  /** Entries named `key` removed. */
  function RemoveKey<K(==), V>(q: seq<(K, V)>, key: K): (r: seq<(K, V)>)
    ensures |r| <= |q|
  {
    if q == [] then [] else (if q[0].0 == key then [] else [q[0]]) + RemoveKey(q[1..], key)
  }

  /**
   * `URLSearchParams.set(key, value)`, and assignment to a property of a
   * plain object: the first entry named `key` takes the value and later ones
   * are removed; without one, the entry is appended.
   */
  function SetParam<K(==), V>(q: seq<(K, V)>, key: K, value: V): seq<(K, V)> {
    if q == [] then [(key, value)]
    else if q[0].0 == key then [(key, value)] + RemoveKey(q[1..], key)
    else [q[0]] + SetParam(q[1..], key, value)
  }

  lemma {:induction false} RemoveKeyValues<K, V>(q: seq<(K, V)>, key: K, other: K)
    ensures Values(RemoveKey(q, key), key) == []
    ensures other != key ==> Values(RemoveKey(q, key), other) == Values(q, other)
  {
    if q != [] {
      RemoveKeyValues(q[1..], key, other);
      var head := if q[0].0 == key then [] else [q[0]];
      ValuesAppend(head, RemoveKey(q[1..], key), key);
      ValuesAppend(head, RemoveKey(q[1..], key), other);
    }
  }

  /** After `set`, the key has exactly the new value, and every other key keeps its values. */
  lemma {:induction false} SetParamValues<K, V>(q: seq<(K, V)>, key: K, value: V, other: K)
    ensures Values(SetParam(q, key, value), key) == [value]
    ensures other != key ==> Values(SetParam(q, key, value), other) == Values(q, other)
  {
    if q == [] {
    } else if q[0].0 == key {
      RemoveKeyValues(q[1..], key, other);
      ValuesAppend([(key, value)], RemoveKey(q[1..], key), key);
      ValuesAppend([(key, value)], RemoveKey(q[1..], key), other);
    } else {
      SetParamValues(q[1..], key, value, other);
      ValuesAppend([q[0]], SetParam(q[1..], key, value), key);
      ValuesAppend([q[0]], SetParam(q[1..], key, value), other);
    }
  }

  /** `set` on a query that does not hold the key appends the entry. */
  lemma {:induction false} SetParamFresh<K, V>(q: seq<(K, V)>, key: K, value: V)
    requires Values(q, key) == []
    ensures SetParam(q, key, value) == q + [(key, value)]
  {
    if q != [] {
      SetParamFresh(q[1..], key, value);
    }
  }

  /** `set` when `cond` holds (an `if (...) set(...)` of the source). */
  function SetIf<K(==), V>(q: seq<(K, V)>, cond: bool, key: K, value: V): seq<(K, V)> {
    if cond then SetParam(q, key, value) else q
  }

  /** After a conditional `set`, the key has the new value when the condition holds, and every other key keeps its values. */
  lemma SetIfValues<K, V>(q: seq<(K, V)>, cond: bool, key: K, value: V, k: K)
    ensures Values(SetIf(q, cond, key, value), k) == if cond && k == key then [value] else Values(q, k)
  {
    if cond {
      SetParamValues(q, key, value, k);
    }
  }

  function IntTexts(ids: seq<int>): (r: seq<string>)
    ensures |r| == |ids|
    ensures forall k :: 0 <= k < |ids| ==> r[k] == IntToString(ids[k])
  {
    if ids == [] then [] else [IntToString(ids[0])] + IntTexts(ids[1..])
  }

  /** `genreIds.join(',')` */
  function GenreText(ids: seq<int>): string {
    Join(IntTexts(ids), ",")
  }

  /** The genre filter is never the empty text when some genre is given, so it reaches the wire. */
  lemma GenreTextNonEmpty(ids: seq<int>)
    requires ids != []
    ensures GenreText(ids) != ""
  {
    JoinNonEmpty(IntTexts(ids), ",");
  }

  function SortOrDefault(sortBy: string): (r: string)
    ensures r != ""
    ensures sortBy != "" ==> r == sortBy
  {
    if sortBy != "" then sortBy else "popularity.desc"
  }

  /** `${yearFrom}-01-01` when the lower year is given. */
  function FromText(f: DiscoverFilters): string {
    if YearGiven(f.yearFrom) then IntToString(f.yearFrom.value) + "-01-01" else ""
  }

  /** `${yearTo}-12-31` when the upper year is given. */
  function ToText(f: DiscoverFilters): string {
    if YearGiven(f.yearTo) then IntToString(f.yearTo.value) + "-12-31" else ""
  }

  /**
   * What a discover request asks for, key by key: the page, the sort order
   * (default `popularity.desc`), `include_adult=false` and the genres
   * (undefined without any) always, and each given year bound under the
   * content type's date key; nothing else.
   */
  function DiscoverValue(t: ContentType, f: DiscoverFilters, page: int, k: Key): (r: seq<ParamValue>)
    ensures |r| <= 1
  {
    if k == Page then [PInt(page)]
    else if k == SortBy then [PStr(SortOrDefault(f.sortBy))]
    else if k == IncludeAdult then [PBool(false)]
    else if k == WithGenres then [if f.genreIds != [] then PStr(GenreText(f.genreIds)) else PUndefined]
    else if k == FromKey(t) then (if YearGiven(f.yearFrom) then [PStr(FromText(f))] else [])
    else if k == ToKey(t) then (if YearGiven(f.yearTo) then [PStr(ToText(f))] else [])
    else []
  }

  /** `buildDiscoverParams`: the object literal, then the date bounds assigned when their years are given. */
  function BuildDiscoverParams(t: ContentType, f: DiscoverFilters, page: int): ParamObject {
    SetIf(SetIf(DiscoverLiteral(f, page), YearGiven(f.yearFrom), FromKey(t), PStr(FromText(f))),
      YearGiven(f.yearTo), ToKey(t), PStr(ToText(f)))
  }

  /** The object literal of `buildDiscoverParams`, before the date bounds. */
  function DiscoverLiteral(f: DiscoverFilters, page: int): ParamObject {
    SetIf(SetIf(SetIf(SetIf([], true, Page, PInt(page)),
      true, SortBy, PStr(SortOrDefault(f.sortBy))),
      true, IncludeAdult, PBool(false)),
      true, WithGenres, if f.genreIds != [] then PStr(GenreText(f.genreIds)) else PUndefined)
  }

  /** The date keys of a content type are two keys, neither of them a key every listing sets. */
  lemma DateKeysApart(t: ContentType)
    ensures FromKey(t) != ToKey(t)
    ensures FromKey(t) !in [Page, SortBy, IncludeAdult, WithGenres] && ToKey(t) !in [Page, SortBy, IncludeAdult, WithGenres]
  {
  }

  /** The discover parameters hold, under each key, what a discover request asks for under it. */
  lemma DiscoverParamsValues(t: ContentType, f: DiscoverFilters, page: int, k: Key)
    ensures Values(BuildDiscoverParams(t, f, page), k) == DiscoverValue(t, f, page, k)
  {
    var q1 := SetIf([], true, Page, PInt(page));
    var q2 := SetIf(q1, true, SortBy, PStr(SortOrDefault(f.sortBy)));
    var q3 := SetIf(q2, true, IncludeAdult, PBool(false));
    var lit := SetIf(q3, true, WithGenres, if f.genreIds != [] then PStr(GenreText(f.genreIds)) else PUndefined);
    var q5 := SetIf(lit, YearGiven(f.yearFrom), FromKey(t), PStr(FromText(f)));
    SetIfValues([], true, Page, PInt(page), k);
    SetIfValues(q1, true, SortBy, PStr(SortOrDefault(f.sortBy)), k);
    SetIfValues(q2, true, IncludeAdult, PBool(false), k);
    SetIfValues(q3, true, WithGenres, if f.genreIds != [] then PStr(GenreText(f.genreIds)) else PUndefined, k);
    SetIfValues(lit, YearGiven(f.yearFrom), FromKey(t), PStr(FromText(f)), k);
    SetIfValues(q5, YearGiven(f.yearTo), ToKey(t), PStr(ToText(f)), k);
    DateKeysApart(t);
    if k != Page && k != SortBy && k != IncludeAdult && k != WithGenres && k != FromKey(t) && k != ToKey(t) {
      assert Values<Key, ParamValue>([], k) == [];
    }
  }

  /** The discover parameters hold, under every key, what a discover request asks for under it. */
  lemma DiscoverParamsAll(t: ContentType, f: DiscoverFilters, page: int)
    ensures forall k :: Values(BuildDiscoverParams(t, f, page), k) == DiscoverValue(t, f, page, k)
  {
    forall k ensures Values(BuildDiscoverParams(t, f, page), k) == DiscoverValue(t, f, page, k) {
      DiscoverParamsValues(t, f, page, k);
    }
  }

  /** What a parameter object holding a discover request's values holds under the keys the request sets. */
  lemma DiscoverValuesAt(t: ContentType, f: DiscoverFilters, page: int, ps: ParamObject)
    requires forall k :: Values(ps, k) == DiscoverValue(t, f, page, k)
    ensures Values(ps, ApiKey) == []
    ensures Values(ps, Page) == [PInt(page)] && Values(ps, IncludeAdult) == [PBool(false)]
    ensures Values(ps, SortBy) == [PStr(SortOrDefault(f.sortBy))]
    ensures Values(ps, WithGenres) == [if f.genreIds != [] then PStr(GenreText(f.genreIds)) else PUndefined]
    ensures Values(ps, FromKey(t)) == (if YearGiven(f.yearFrom) then [PStr(FromText(f))] else [])
    ensures Values(ps, ToKey(t)) == (if YearGiven(f.yearTo) then [PStr(ToText(f))] else [])
  {
    DateKeysApart(t);
    assert Values(ps, FromKey(t)) == DiscoverValue(t, f, page, FromKey(t));
    assert Values(ps, ToKey(t)) == DiscoverValue(t, f, page, ToKey(t));
  }

  /** The discover parameters name each key at most once. */
  lemma DiscoverParamsDistinct(t: ContentType, f: DiscoverFilters, page: int)
    ensures DistinctKeys(BuildDiscoverParams(t, f, page))
  {
    forall k ensures |Values(BuildDiscoverParams(t, f, page), k)| <= 1 {
      DiscoverParamsValues(t, f, page, k);
    }
  }

  /** What a search request asks for, key by key: the query text, the page and `include_adult=false`. */
  function SearchValue(query: string, page: int, k: Key): seq<ParamValue> {
    if k == SearchText then [PStr(query)]
    else if k == Page then [PInt(page)]
    else if k == IncludeAdult then [PBool(false)]
    else []
  }

  /** The parameters of a search request (`{ query, page, include_adult: false }`). */
  function SearchParams(query: string, page: int): ParamObject {
    SetIf(SetIf(SetIf([], true, SearchText, PStr(query)), true, Page, PInt(page)), true, IncludeAdult, PBool(false))
  }

  /** The search parameters hold, under each key, what a search asks for under it, and name each key once. */
  lemma SearchParamsValues(query: string, page: int)
    ensures forall k :: Values(SearchParams(query, page), k) == SearchValue(query, page, k)
    ensures DistinctKeys(SearchParams(query, page))
  {
    var q1 := SetIf([], true, SearchText, PStr(query));
    var q2 := SetIf(q1, true, Page, PInt(page));
    forall k ensures Values(SearchParams(query, page), k) == SearchValue(query, page, k) {
      SetIfValues([], true, SearchText, PStr(query), k);
      SetIfValues(q1, true, Page, PInt(page), k);
      SetIfValues(q2, true, IncludeAdult, PBool(false), k);
    }
  }

  /** Rank of an appended block in the fixed order credits, reviews, keywords, images. */
  function BlockRank(b: string): int {
    if b == "credits" then 0 else if b == "reviews" then 1 else if b == "keywords" then 2 else if b == "images" then 3 else 4
  }

  /** The blocks `fetchContentDetailFromApi` asks to have appended to the detail response. */
  function AppendBlocks(cfg: ExtrasConfig): seq<string> {
    (if cfg.collectPeople then ["credits"] else [])
    + (if cfg.collectReviews then ["reviews"] else [])
    + (if cfg.collectKeywords then ["keywords"] else [])
    + (if cfg.collectImages then ["images"] else [])
  }

  /** A block is appended exactly when its option is on. */
  lemma AppendBlocksChosen(cfg: ExtrasConfig)
    ensures var r := AppendBlocks(cfg);
      && ("credits" in r <==> cfg.collectPeople)
      && ("reviews" in r <==> cfg.collectReviews)
      && ("keywords" in r <==> cfg.collectKeywords)
      && ("images" in r <==> cfg.collectImages)
  {
  }

  /** The appended blocks keep the fixed order credits, reviews, keywords, images. */
  lemma AppendBlocksOrdered(cfg: ExtrasConfig)
    ensures var r := AppendBlocks(cfg);
      forall i, j :: 0 <= i < j < |r| ==> BlockRank(r[i]) < BlockRank(r[j])
  {
    var r := AppendBlocks(cfg);
    forall i, j | 0 <= i < j < |r| ensures BlockRank(r[i]) < BlockRank(r[j]) {
      assert r[i] in r && r[j] in r;
    }
  }

  /** What a detail request with appended blocks asks for: the comma-joined blocks and the image languages `en,null`. */
  function DetailValue(cfg: ExtrasConfig, k: Key): seq<ParamValue> {
    if k == AppendToResponse then [PStr(Join(AppendBlocks(cfg), ","))]
    else if k == IncludeImageLanguage then [PStr("en,null")]
    else []
  }

  /** The detail request's parameters: none unless some block is appended. */
  function DetailParams(cfg: ExtrasConfig): ParamObject {
    var blocks := AppendBlocks(cfg);
    if blocks == [] then []
    else SetIf(SetIf([], true, AppendToResponse, PStr(Join(blocks, ","))), true, IncludeImageLanguage, PStr("en,null"))
  }

  /** The detail parameters are empty exactly when no block is appended; otherwise they ask for the blocks and the image languages, each key once. */
  lemma DetailParamsValues(cfg: ExtrasConfig)
    ensures var r := DetailParams(cfg);
      && (r == [] <==> !(cfg.collectPeople || cfg.collectReviews || cfg.collectKeywords || cfg.collectImages))
      && (r != [] ==> forall k :: Values(r, k) == DetailValue(cfg, k))
      && DistinctKeys(r)
  {
    var blocks := AppendBlocks(cfg);
    if blocks != [] {
      var q1 := SetIf([], true, AppendToResponse, PStr(Join(blocks, ",")));
      forall k ensures Values(DetailParams(cfg), k) == DetailValue(cfg, k) {
        SetIfValues([], true, AppendToResponse, PStr(Join(blocks, ",")), k);
        SetIfValues(q1, true, IncludeImageLanguage, PStr("en,null"), k);
      }
    }
  }

  /** The parameter objects the scraper sends to the API, named by where each is built. */
  datatype ApiParams =
    | SearchQuery(query: string, page: int)
    | Discover(t: ContentType, filters: DiscoverFilters, page: int)
    | DetailAppend(cfg: ExtrasConfig)
    | PageOnly(page: int)
    | NoParams
    | PersonQuery(query: string, page: int)
    | PersonAppend
  {
    /** The object itself: `{ query, page }` for a person search, the fixed appended blocks for a person. */
    function Object(): ParamObject {
      match this
      case SearchQuery(query, page) => SearchParams(query, page)
      case Discover(t, filters, page) => BuildDiscoverParams(t, filters, page)
      case DetailAppend(cfg) => DetailParams(cfg)
      case PageOnly(page) => [(Page, PInt(page))]
      case NoParams => []
      case PersonQuery(query, page) => [(SearchText, PStr(query)), (Page, PInt(page))]
      case PersonAppend => [(AppendToResponse, PStr("combined_credits,images,external_ids"))]
    }
  }

  /** `String(value)` of a parameter that is kept. */
  function Show(v: ParamValue): string {
    match v
    case PStr(s) => s
    case PInt(n) => IntToString(n)
    case PBool(b) => if b then "true" else "false"
    case PUndefined => ""
  }

  /** `tmdbApiRequest` skips `undefined`, `null` and empty-string values. */
  predicate Kept(v: ParamValue) {
    !v.PUndefined? && v != PStr("")
  }

  /** One entry of a parameter object applied to the query: `set` when its value is kept. */
  function Step(q: Query<Key>, e: (Key, ParamValue)): Query<Key> {
    if Kept(e.1) then SetParam(q, e.0, Show(e.1)) else q
  }

  /** The serialised form of one entry: the pair when its value is kept, nothing otherwise. */
  function Entry(e: (Key, ParamValue)): Query<Key> {
    if Kept(e.1) then [(e.0, Show(e.1))] else []
  }

  /** The serialised parameters of an object: the `set` of every kept entry, in order. */
  function SetAll(q: Query<Key>, ps: ParamObject): Query<Key>
    decreases |ps|
  {
    if ps == [] then q else SetAll(Step(q, ps[0]), ps[1..])
  }

  /** The kept entries of a parameter object, serialised. */
  function KeptEntries(ps: ParamObject): (r: Query<Key>)
    ensures |r| <= |ps|
  {
    if ps == [] then [] else Entry(ps[0]) + KeptEntries(ps[1..])
  }

  /**
   * The query string `tmdbApiRequest` sends: `api_key` first, then each kept
   * entry of the parameter object, set in turn.
   */
  function ApiQuery(apiKey: string, ps: ParamObject): Query<Key> {
    SetAll([(ApiKey, apiKey)], ps)
  }

  /** After an entry is applied, its key has its shown value when kept, and every other key is unchanged. */
  lemma StepValues(q: Query<Key>, e: (Key, ParamValue), k: Key)
    ensures Values(Step(q, e), k) == if Kept(e.1) && k == e.0 then [Show(e.1)] else Values(q, k)
  {
    if Kept(e.1) {
      SetParamValues(q, e.0, Show(e.1), k);
    }
  }

  /** Applying an entry whose key is not yet set appends its serialised form. */
  lemma StepFresh(q: Query<Key>, e: (Key, ParamValue))
    requires Values(q, e.0) == []
    ensures Step(q, e) == q + Entry(e)
  {
    if Kept(e.1) {
      SetParamFresh(q, e.0, Show(e.1));
    }
  }

  lemma {:induction false} SetAllFresh(q: Query<Key>, ps: ParamObject)
    requires DistinctKeys(ps) && Disjoint(q, ps)
    ensures SetAll(q, ps) == q + KeptEntries(ps)
    decreases |ps|
  {
    if ps != [] {
      FreshAfterStep(q, ps);
      SetAllFresh(Step(q, ps[0]), ps[1..]);
      FirstFresh(q, ps);
      Assoc(q, Entry(ps[0]), KeptEntries(ps[1..]));
    }
  }

  /** The first key of a fresh object is not yet in the query, so its step appends its entry. */
  lemma FirstFresh(q: Query<Key>, ps: ParamObject)
    requires ps != [] && Disjoint(q, ps)
    ensures Step(q, ps[0]) == q + Entry(ps[0])
  {
    assert Values(ps, ps[0].0) == ValueIf(ps[0], ps[0].0) + Values(ps[1..], ps[0].0);
    StepFresh(q, ps[0]);
  }

  /** Applying the first entry keeps the rest fresh: still distinct, and disjoint from the new query. */
  lemma FreshAfterStep(q: Query<Key>, ps: ParamObject)
    requires ps != [] && DistinctKeys(ps) && Disjoint(q, ps)
    ensures DistinctKeys(ps[1..]) && Disjoint(Step(q, ps[0]), ps[1..])
  {
    forall k ensures |Values(ps[1..], k)| <= 1 && (Values(Step(q, ps[0]), k) == [] || Values(ps[1..], k) == []) {
      assert Values(ps, k) == ValueIf(ps[0], k) + Values(ps[1..], k);
      StepValues(q, ps[0], k);
    }
  }

  /** With distinct keys other than `api_key`, the query is `api_key` followed by the kept entries in order. */
  lemma ApiQueryShape(apiKey: string, ps: ParamObject)
    requires DistinctKeys(ps)
    requires Values(ps, ApiKey) == []
    ensures ApiQuery(apiKey, ps) == [(ApiKey, apiKey)] + KeptEntries(ps)
  {
    assert [(ApiKey, apiKey)][1..] == [];
    SetAllFresh([(ApiKey, apiKey)], ps);
  }

  function ShownKept(vs: seq<ParamValue>): seq<string> {
    if vs == [] then [] else (if Kept(vs[0]) then [Show(vs[0])] else []) + ShownKept(vs[1..])
  }

  lemma {:induction false} ShownKeptAppend(a: seq<ParamValue>, b: seq<ParamValue>)
    ensures ShownKept(a + b) == ShownKept(a) + ShownKept(b)
  {
    if a == [] {
      assert a + b == b;
    } else {
      ShownKeptAppend(a[1..], b);
      var h := if Kept(a[0]) then [Show(a[0])] else [];
      assert (a + b)[0] == a[0] && (a + b)[1..] == a[1..] + b;
      assert h + (ShownKept(a[1..]) + ShownKept(b)) == (h + ShownKept(a[1..])) + ShownKept(b);
    }
  }

  /** The values serialised under a key are the kept values of that key, shown. */
  lemma {:induction false} KeptEntriesValues(ps: ParamObject, key: Key)
    ensures Values(KeptEntries(ps), key) == ShownKept(Values(ps, key))
  {
    if ps != [] {
      KeptEntriesValues(ps[1..], key);
      ValuesAppend(Entry(ps[0]), KeptEntries(ps[1..]), key);
      ShownKeptAppend(ValueIf(ps[0], key), Values(ps[1..], key));
    }
  }

  /**
   * On the wire, `api_key` is the caller's key, and every other key carries
   * its object value shown as text when it is kept, and nothing otherwise.
   */
  lemma WireValues(apiKey: string, ps: ParamObject, key: Key)
    requires DistinctKeys(ps) && Values(ps, ApiKey) == []
    ensures Values(ApiQuery(apiKey, ps), ApiKey) == [apiKey]
    ensures key != ApiKey ==> Values(ApiQuery(apiKey, ps), key) == ShownKept(Values(ps, key))
  {
    ApiQueryShape(apiKey, ps);
    ValuesAppend([(ApiKey, apiKey)], KeptEntries(ps), key);
    ValuesAppend([(ApiKey, apiKey)], KeptEntries(ps), ApiKey);
    KeptEntriesValues(ps, key);
    KeptEntriesValues(ps, ApiKey);
  }

  /**
   * The discover request's wire query: the API key, the page, `include_adult=false`,
   * the sort order, the genres exactly when some are given, and each given
   * year bound, named after the content type.
   */
  lemma DiscoverQuery(apiKey: string, t: ContentType, f: DiscoverFilters, page: int)
    ensures var q := ApiQuery(apiKey, BuildDiscoverParams(t, f, page));
      Values(q, ApiKey) == [apiKey]
      && Values(q, Page) == [IntToString(page)]
      && Values(q, IncludeAdult) == ["false"]
      && Values(q, SortBy) == [SortOrDefault(f.sortBy)]
      && Values(q, WithGenres) == (if f.genreIds != [] then [GenreText(f.genreIds)] else [])
      && Values(q, FromKey(t)) == (if YearGiven(f.yearFrom) then [FromText(f)] else [])
      && Values(q, ToKey(t)) == (if YearGiven(f.yearTo) then [ToText(f)] else [])
  {
    var ps := BuildDiscoverParams(t, f, page);
    DiscoverParamsAll(t, f, page);
    DiscoverValuesAt(t, f, page, ps);
    DiscoverParamsDistinct(t, f, page);
    DiscoverWire(apiKey, t, f, page, ps);
    DiscoverWireDates(apiKey, t, f, page, ps);
  }

  /** On the wire, a key of a parameter object other than `api_key`, with at most one value, carries it shown when kept. */
  lemma WireOne(apiKey: string, ps: ParamObject, key: Key, vs: seq<ParamValue>)
    requires DistinctKeys(ps) && Values(ps, ApiKey) == [] && key != ApiKey
    requires Values(ps, key) == vs && |vs| <= 1
    ensures Values(ApiQuery(apiKey, ps), key) == if vs != [] && Kept(vs[0]) then [Show(vs[0])] else []
  {
    WireValues(apiKey, ps, key);
    if vs != [] {
      assert vs == [vs[0]];
      ShownKeptOne(vs[0]);
    }
  }

  lemma ShownKeptOne(v: ParamValue)
    ensures ShownKept([v]) == if Kept(v) then [Show(v)] else []
  {
    assert [v][1..] == [];
  }

  /** The keys of `DiscoverQuery` other than the dates, for a parameter object holding what a discover request asks for. */
  lemma DiscoverWire(apiKey: string, t: ContentType, f: DiscoverFilters, page: int, ps: ParamObject)
    requires DistinctKeys(ps) && Values(ps, ApiKey) == []
    requires Values(ps, Page) == [PInt(page)] && Values(ps, IncludeAdult) == [PBool(false)]
    requires Values(ps, SortBy) == [PStr(SortOrDefault(f.sortBy))]
    requires Values(ps, WithGenres) == [if f.genreIds != [] then PStr(GenreText(f.genreIds)) else PUndefined]
    ensures var q := ApiQuery(apiKey, ps);
      Values(q, ApiKey) == [apiKey]
      && Values(q, Page) == [IntToString(page)]
      && Values(q, IncludeAdult) == ["false"]
      && Values(q, SortBy) == [SortOrDefault(f.sortBy)]
      && Values(q, WithGenres) == (if f.genreIds != [] then [GenreText(f.genreIds)] else [])
  {
    WireValues(apiKey, ps, ApiKey);
    WireOne(apiKey, ps, Page, [PInt(page)]);
    WireOne(apiKey, ps, IncludeAdult, [PBool(false)]);
    WireOne(apiKey, ps, SortBy, [PStr(SortOrDefault(f.sortBy))]);
    if f.genreIds != [] {
      GenreTextNonEmpty(f.genreIds);
    }
    WireOne(apiKey, ps, WithGenres, [if f.genreIds != [] then PStr(GenreText(f.genreIds)) else PUndefined]);
  }

  /** The date bounds of `DiscoverQuery`, for a parameter object holding what a discover request asks for. */
  lemma DiscoverWireDates(apiKey: string, t: ContentType, f: DiscoverFilters, page: int, ps: ParamObject)
    requires DistinctKeys(ps) && Values(ps, ApiKey) == []
    requires Values(ps, FromKey(t)) == (if YearGiven(f.yearFrom) then [PStr(FromText(f))] else [])
    requires Values(ps, ToKey(t)) == (if YearGiven(f.yearTo) then [PStr(ToText(f))] else [])
    ensures var q := ApiQuery(apiKey, ps);
      Values(q, FromKey(t)) == (if YearGiven(f.yearFrom) then [FromText(f)] else [])
      && Values(q, ToKey(t)) == (if YearGiven(f.yearTo) then [ToText(f)] else [])
  {
    DateKeysApart(t);
    assert YearGiven(f.yearFrom) ==> |FromText(f)| >= 6;
    assert YearGiven(f.yearTo) ==> |ToText(f)| >= 6;
    WireOne(apiKey, ps, FromKey(t), Values(ps, FromKey(t)));
    WireOne(apiKey, ps, ToKey(t), Values(ps, ToKey(t)));
  }

  /** A key other than `api_key` with at most one value is on the wire exactly when that value is kept. */
  lemma WireKey(apiKey: string, ps: ParamObject, key: Key)
    requires DistinctKeys(ps) && Values(ps, ApiKey) == [] && key != ApiKey
    ensures Values(ps, key) == [] ==> Values(ApiQuery(apiKey, ps), key) == []
    ensures |Values(ps, key)| == 1 ==>
      Values(ApiQuery(apiKey, ps), key) == if Kept(Values(ps, key)[0]) then [Show(Values(ps, key)[0])] else []
  {
    WireValues(apiKey, ps, key);
    var vs := Values(ps, key);
    if |vs| == 1 {
      assert vs == [vs[0]] + [];
      ShownKeptAppend([vs[0]], []);
    }
  }

  /**
   * What the website's discover page is asked for, key by key: the page, the
   * genres and the sort order when set, and each given year bound under the
   * content type's date key.
   */
  function DiscoverWebValue(t: ContentType, f: DiscoverFilters, page: int, k: Key): (r: seq<string>)
    ensures |r| <= 1
  {
    if k == Page then [IntToString(page)]
    else if k == WithGenres then (if f.genreIds != [] then [GenreText(f.genreIds)] else [])
    else if k == SortBy then (if f.sortBy != "" then [f.sortBy] else [])
    else if k == FromKey(t) then (if YearGiven(f.yearFrom) then [FromText(f)] else [])
    else if k == ToKey(t) then (if YearGiven(f.yearTo) then [ToText(f)] else [])
    else []
  }

  /** What the website's search page is asked for: the query text and the page. */
  function SearchWebValue(query: string, page: int, k: Key): seq<string> {
    if k == SearchText then [query] else if k == Page then [IntToString(page)] else []
  }

  /** The website search's parameters: the query text, then the page. */
  function SearchWebQuery(query: string, page: int): Query<Key> {
    SetIf(SetIf([], true, SearchText, query), true, Page, IntToString(page))
  }

  /** The website search's parameters hold, under each key, what the search page is asked for, each key once. */
  lemma SearchWebQueryValues(query: string, page: int)
    ensures forall k :: Values(SearchWebQuery(query, page), k) == SearchWebValue(query, page, k)
    ensures DistinctKeys(SearchWebQuery(query, page))
  {
    forall k ensures Values(SearchWebQuery(query, page), k) == SearchWebValue(query, page, k) {
      SetIfValues([], true, SearchText, query, k);
      SetIfValues(SetIf([], true, SearchText, query), true, Page, IntToString(page), k);
    }
  }

  /** The website discover page's parameters: the page, then each filter that is set. */
  function DiscoverWebQuery(t: ContentType, f: DiscoverFilters, page: int): Query<Key> {
    var q := SetIf(SetIf(SetIf([], true, Page, IntToString(page)),
      f.genreIds != [], WithGenres, GenreText(f.genreIds)),
      f.sortBy != "", SortBy, f.sortBy);
    SetIf(SetIf(q, YearGiven(f.yearFrom), FromKey(t), FromText(f)), YearGiven(f.yearTo), ToKey(t), ToText(f))
  }

  /** The website discover page's parameters hold, under each key, what it is asked for under that key. */
  lemma DiscoverWebQueryValues(t: ContentType, f: DiscoverFilters, page: int, k: Key)
    ensures Values(DiscoverWebQuery(t, f, page), k) == DiscoverWebValue(t, f, page, k)
  {
    var q1 := SetIf([], true, Page, IntToString(page));
    var q2 := SetIf(q1, f.genreIds != [], WithGenres, GenreText(f.genreIds));
    var q3 := SetIf(q2, f.sortBy != "", SortBy, f.sortBy);
    var q4 := SetIf(q3, YearGiven(f.yearFrom), FromKey(t), FromText(f));
    SetIfValues([], true, Page, IntToString(page), k);
    SetIfValues(q1, f.genreIds != [], WithGenres, GenreText(f.genreIds), k);
    SetIfValues(q2, f.sortBy != "", SortBy, f.sortBy, k);
    SetIfValues(q3, YearGiven(f.yearFrom), FromKey(t), FromText(f), k);
    SetIfValues(q4, YearGiven(f.yearTo), ToKey(t), ToText(f), k);
    DateKeysApart(t);
    if k != Page && k != WithGenres && k != SortBy && k != FromKey(t) && k != ToKey(t) {
      assert Values(q1, k) == [];
    }
  }

  /** The website discover page's parameters name each key at most once. */
  lemma DiscoverWebQueryDistinct(t: ContentType, f: DiscoverFilters, page: int)
    ensures DistinctKeys(DiscoverWebQuery(t, f, page))
  {
    forall k ensures |Values(DiscoverWebQuery(t, f, page), k)| <= 1 {
      DiscoverWebQueryValues(t, f, page, k);
    }
  }

  /** The parameters `buildWebListingUrl` sets: the search's for a query, otherwise the discover page's. */
  function WebListingQuery(t: ContentType, query: Option<string>, f: DiscoverFilters, page: int): Query<Key> {
    if Truthy(query) then SearchWebQuery(query.value, page) else DiscoverWebQuery(t, f, page)
  }

  /** Parameters named on the wire. */
  function Wire(q: Query<Key>): (r: Query<string>)
    ensures |r| == |q|
  {
    if q == [] then [] else [(q[0].0.Name(), q[0].1)] + Wire(q[1..])
  }

  /** On the wire, each key's name carries that key's values, and no other name carries any. */
  lemma {:induction false} WireNames(q: Query<Key>, k: Key, name: string)
    ensures Values(Wire(q), k.Name()) == Values(q, k)
    ensures KeyOf(name).None? ==> Values(Wire(q), name) == []
  {
    if q != [] {
      WireNames(q[1..], k, name);
      NameInjective(q[0].0, k);
      KeyOfName(q[0].0);
    }
  }

  /**
   * `buildWebListingUrl`: the search page of the content type for a query,
   * otherwise its discover page; the query string is `WebListingQuery`'s
   * parameters under their wire names, and nothing else.
   */
  function BuildWebListingUrl(t: ContentType, query: Option<string>, f: DiscoverFilters, page: int): (u: Url)
    ensures u.location == WEB_BASE + (if Truthy(query) then "/search/" else "/discover/") + t.Name()
  {
    Url(WEB_BASE + (if Truthy(query) then "/search/" else "/discover/") + t.Name(), Wire(WebListingQuery(t, query, f, page)))
  }

  /** The listing URL's query string carries `WebListingQuery`'s parameters under their wire names, and nothing else. */
  lemma WebListingUrlQuery(t: ContentType, query: Option<string>, f: DiscoverFilters, page: int)
    ensures var u := BuildWebListingUrl(t, query, f, page);
      && (forall k: Key :: Values(u.query, k.Name()) == Values(WebListingQuery(t, query, f, page), k))
      && (forall name :: KeyOf(name).None? ==> Values(u.query, name) == [])
  {
    var q := WebListingQuery(t, query, f, page);
    forall k: Key ensures Values(Wire(q), k.Name()) == Values(q, k) {
      WireNames(q, k, "");
    }
    forall name | KeyOf(name).None? ensures Values(Wire(q), name) == [] {
      WireNames(q, Page, name);
    }
  }

  /** The text before the first occurrence of `c`, and the text after it (`None` when `c` does not occur). */
  function SplitFirst(s: string, c: char): (r: (string, Option<string>))
    ensures r.1.None? ==> r.0 == s && c !in s
    ensures r.1.Some? ==> s == r.0 + [c] + r.1.value && c !in r.0
  {
    if s == [] then ("", None)
    else if s[0] == c then ("", Some(s[1..]))
    else
      var rest := SplitFirst(s[1..], c);
      assert [s[0]] + s[1..] == s;
      ([s[0]] + rest.0, rest.1)
  }

  /** One `name=value` piece of a query string; a piece without `=` has the empty value. */
  function ParsePair(piece: string): (p: (string, string))
    ensures p.0 + (if '=' in piece then "=" + p.1 else "") == piece
  {
    var (name, value) := SplitFirst(piece, '=');
    (name, value.GetOr(""))
  }

  function ParsePairs(pieces: seq<string>): (q: Query<string>)
    ensures |q| <= |pieces|
  {
    if pieces == [] then []
    else (if pieces[0] == "" then [] else [ParsePair(pieces[0])]) + ParsePairs(pieces[1..])
  }

  /**
   * `new URL(href, base)` for a link found on a page: the fragment is dropped,
   * the query split on `&` and `=`; an absolute `http(s)` link keeps its
   * location, a rooted path is put under the site's origin.
   */
  function ResolveHref(href: string): (u: Url)
    ensures !("http://" <= href || "https://" <= href) ==> WEB_BASE <= u.location
  {
    var (noFragment, _) := SplitFirst(href, '#');
    var (path, queryText) := SplitFirst(noFragment, '?');
    var location :=
      if "http://" <= path || "https://" <= path then path
      else if "/" <= path then WEB_BASE + path
      else WEB_BASE + "/" + path;
    Url(location, match queryText case Some(qt) => ParsePairs(Split(qt, '&')) case None => [])
  }
}
