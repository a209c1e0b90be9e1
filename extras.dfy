/**
 * The extras of one movie or show (`pushContentAndExtras`): the content
 * record, then the credits, reviews, keywords, images and collection
 * records, each stored when it is requested and not empty. Reviews past the
 * first page are fetched by their own page loop (`collectAllReviews`).
 */
module Extras {
  import opened Wrappers
  import opened Lists
  import opened Params
  import opened Records
  import opened Backend
  import opened Listing

  function ReviewsRequest(apiKey: string, t: ContentType, id: int, page: int): Request {
    ApiGet(ContentReviews(t, id), apiKey, PageOnly(page))
  }

  /** The exchanges for the reviews pages `first`, `first + 1`, ..., each with its reply from `replies`. */
  function ReviewsExchanges(apiKey: string, t: ContentType, id: int, first: int, replies: seq<Reply>): seq<Event>
    decreases |replies|
  {
    if replies == [] then []
    else [Sent(ReviewsRequest(apiKey, t, id, first), replies[0])] + ReviewsExchanges(apiKey, t, id, first + 1, replies[1..])
  }

  /** The reviews a run of replies holds, in order. */
  function RepliedReviews(replies: seq<Reply>): seq<JsValue> {
    if replies == [] then []
    else (if replies[0].Json? then ReviewResults(replies[0].body) else []) + RepliedReviews(replies[1..])
  }

  /** `detail.reviews?.results ?? []` */
  function EmbeddedReviews(d: Detail): seq<JsValue> {
    if d.reviews.Some? then d.reviews.value.results.GetOr([]) else []
  }

  /** `detail.reviews?.total_pages ?? 1` */
  function EmbeddedTotal(d: Detail): int {
    if d.reviews.Some? then d.reviews.value.totalPages.GetOr(1) else 1
  }

  /** Only requests were added to the log, and nothing else changed but the script. */
  predicate Asked(w: World, w': World) {
    w.log <= w'.log && Quiet(w'.log[|w.log|..]) && |w'.script| <= |w.script|
    && w' == w.(script := w'.script, log := w'.log)
  }

  /** Two stretches that only ask for something make one. */
  lemma AskedChain(w: World, w1: World, w2: World)
    requires Asked(w, w1) && Asked(w1, w2)
    ensures Asked(w, w2)
  {
    assert w2.log[|w.log|..] == w1.log[|w.log|..] + w2.log[|w1.log|..];
  }

  /** The page loop of `collectAllReviews`, at page `current` with `all` collected. */
  function ReviewsFrom(w: World, apiKey: string, t: ContentType, id: int, maxReviews: int, total: int,
                       all: seq<JsValue>, current: int): (r: (Outcome<seq<JsValue>>, World))
    ensures Asked(w, r.1)
    decreases total - current
  {
    if |all| < maxReviews && current < total then
      var call := ApiCall(w, apiKey, ContentReviews(t, id), PageOnly(current + 1));
      assert Asked(w, call.1) by {
        if apiKey != "" {
          assert call.1.log[|w.log|..] == [Sent(ReviewsRequest(apiKey, t, id, current + 1), Next(w.script))];
        }
      }
      if call.0.Threw? then (Threw, call.1)
      else
        var r := ReviewsFrom(call.1, apiKey, t, id, maxReviews, total, all + ReviewResults(call.0.value), current + 1);
        AskedChain(w, call.1, r.1);
        r
    else (Ok(all), w)
  }

  /**
   * `collectAllReviews`: nothing when `maxReviews` is 0; otherwise the
   * embedded reviews followed by the reviews of pages 2, 3, ... while fewer
   * than `maxReviews` are held and pages remain, cut to `maxReviews`.
   */
  function AllReviews(w: World, d: Detail, apiKey: string, t: ContentType, maxReviews: int): (r: (Outcome<seq<JsValue>>, World))
    ensures maxReviews == 0 ==> r == (Ok([]), w)
    ensures r.0.Ok? ==> |r.0.value| <= Max(0, maxReviews)
    ensures Asked(w, r.1)
  {
    if maxReviews == 0 then (Ok([]), w)
    else
      var res := ReviewsFrom(w, apiKey, t, d.id, maxReviews, EmbeddedTotal(d), EmbeddedReviews(d), 1);
      if res.0.Threw? then (Threw, res.1) else (Ok(LimitArray(res.0.value, maxReviews)), res.1)
  }

  /** One turn of the loop that goes on: the next page was asked for and answered. */
  lemma ReviewsFromStep(w: World, apiKey: string, t: ContentType, id: int, maxReviews: int, total: int,
                        all: seq<JsValue>, current: int)
    requires |all| < maxReviews && current < total
    requires ReviewsFrom(w, apiKey, t, id, maxReviews, total, all, current).0.Ok?
    ensures w.script != [] && w.script[0].Json?
    ensures ReviewsFrom(w, apiKey, t, id, maxReviews, total, all, current)
         == ReviewsFrom(w.(script := w.script[1..], log := w.log + [Sent(ReviewsRequest(apiKey, t, id, current + 1), w.script[0])]),
                        apiKey, t, id, maxReviews, total, all + ReviewResults(w.script[0].body), current + 1)
  {
  }

  lemma RequestsCons(log: seq<Event>, apiKey: string, t: ContentType, id: int, first: int, s: seq<Reply>, m: nat)
    requires m < |s|
    ensures log + [Sent(ReviewsRequest(apiKey, t, id, first), s[0])] + ReviewsExchanges(apiKey, t, id, first + 1, s[1..][..m])
         == log + ReviewsExchanges(apiKey, t, id, first, s[..m + 1])
  {
    assert s[..m + 1][0] == s[0];
    assert s[..m + 1][1..] == s[1..][..m];
  }

  lemma RepliedCons(s: seq<Reply>, m: nat)
    requires m < |s|
    ensures s[..m + 1] == [s[0]] + s[1..][..m]
    ensures RepliedReviews(s[..m + 1]) == (if s[0].Json? then ReviewResults(s[0].body) else []) + RepliedReviews(s[1..][..m])
    ensures m > 0 ==> RepliedReviews(s[..m]) == (if s[0].Json? then ReviewResults(s[0].body) else []) + RepliedReviews(s[1..][..m - 1])
    ensures s[..0] == []
  {
    assert s[..m + 1] == [s[0]] + s[1..][..m];
    if m > 0 {
      assert s[..m] == [s[0]] + s[1..][..m - 1];
    }
  }

  /**
   * The loop asks for `n` consecutive pages after `current`, no further than
   * `total`, and asks for the last of them only while fewer than
   * `maxReviews` reviews are held; what it returns is what it held with
   * the reviews of those `n` replies appended.
   */
  lemma {:induction false} ReviewsFromPages(w: World, apiKey: string, t: ContentType, id: int, maxReviews: int, total: int,
                                           all: seq<JsValue>, current: int) returns (n: nat)
    requires ReviewsFrom(w, apiKey, t, id, maxReviews, total, all, current).0.Ok?
    ensures var r := ReviewsFrom(w, apiKey, t, id, maxReviews, total, all, current);
      n <= |w.script| && r.1.script == w.script[n..] &&
      r.1.log == w.log + ReviewsExchanges(apiKey, t, id, current + 1, w.script[..n]) &&
      r.0.value == all + RepliedReviews(w.script[..n])
    ensures n > 0 ==> current + n <= total
    ensures n > 0 ==> |all + RepliedReviews(w.script[..n - 1])| < maxReviews
    ensures var r := ReviewsFrom(w, apiKey, t, id, maxReviews, total, all, current);
      |r.0.value| >= maxReviews || current + n >= total
    decreases total - current
  {
    if |all| < maxReviews && current < total {
      ReviewsFromStep(w, apiKey, t, id, maxReviews, total, all, current);
      var e := Sent(ReviewsRequest(apiKey, t, id, current + 1), w.script[0]);
      var w1 := w.(script := w.script[1..], log := w.log + [e]);
      var all' := all + ReviewResults(w.script[0].body);
      var m := ReviewsFromPages(w1, apiKey, t, id, maxReviews, total, all', current + 1);
      n := m + 1;
      RequestsCons(w.log, apiKey, t, id, current + 1, w.script, m);
      RepliedCons(w.script, m);
    } else {
      n := 0;
      assert w.script[..0] == [];
    }
  }

  /**
   * `collectAllReviews` asks for pages 2 to `n + 1` of at most `total_pages`
   * pages, asks for none once `maxReviews` reviews are held, and returns at
   * most `maxReviews` reviews: a prefix, in source order, of the embedded
   * page followed by the pages it asked for.
   */
  lemma CollectAllReviewsShape(w: World, d: Detail, apiKey: string, t: ContentType, maxReviews: int) returns (n: nat)
    requires AllReviews(w, d, apiKey, t, maxReviews).0.Ok?
    ensures var r := AllReviews(w, d, apiKey, t, maxReviews);
      n <= |w.script| && r.1.log == w.log + ReviewsExchanges(apiKey, t, d.id, 2, w.script[..n]) && r.1.script == w.script[n..]
    ensures var r := AllReviews(w, d, apiKey, t, maxReviews);
      r.0.value <= EmbeddedReviews(d) + RepliedReviews(w.script[..n])
    ensures var r := AllReviews(w, d, apiKey, t, maxReviews);
      maxReviews != 0 ==> r.0.value == LimitArray(EmbeddedReviews(d) + RepliedReviews(w.script[..n]), maxReviews)
    ensures maxReviews == 0 ==> n == 0
    ensures n > 0 ==> n + 1 <= EmbeddedTotal(d)
    ensures n > 0 ==> |EmbeddedReviews(d) + RepliedReviews(w.script[..n - 1])| < maxReviews
  {
    if maxReviews == 0 {
      n := 0;
      assert w.script[..0] == [];
    } else {
      n := ReviewsFromPages(w, apiKey, t, d.id, maxReviews, EmbeddedTotal(d), EmbeddedReviews(d), 1);
    }
  }

  /** The loop of `collectAllReviews`. */
  method CollectAllReviews(env: Env, stats: Stats, d: Detail, apiKey: string, t: ContentType, maxReviews: int)
    returns (out: Outcome<seq<JsValue>>)
    modifies env
    ensures (out, Now(env, stats)) == AllReviews(old(Now(env, stats)), d, apiKey, t, maxReviews)
  {
    if maxReviews == 0 {
      return Ok([]);
    }
    ghost var w0 := Now(env, stats);
    var all := EmbeddedReviews(d);
    var total := EmbeddedTotal(d);
    var current := 1;
    while |all| < maxReviews && current < total
      invariant ReviewsFrom(Now(env, stats), apiKey, t, d.id, maxReviews, total, all, current)
             == ReviewsFrom(w0, apiKey, t, d.id, maxReviews, total, EmbeddedReviews(d), 1)
      decreases total - current
    {
      current := current + 1;
      var response := ApiRequest(env, stats, apiKey, ContentReviews(t, d.id), PageOnly(current));
      if response.Threw? {
        return Threw;
      }
      all := all + ReviewResults(response.value);
    }
    return Ok(LimitArray(all, maxReviews));
  }

  /** Stores an extra record when there is one, and counts it (`stats.extraItems += 0 or 1`). */
  function AddExtra(w: World, rec: Option<Record>): World {
    if rec.Some? then Push(w, rec.value).(extraItems := w.extraItems + 1) else w
  }

  /** `pushReviewsRecord`, when reviews are requested. */
  function ReviewsStep(w: World, d: Detail, t: ContentType, apiKey: string, cfg: ExtrasConfig, source: string): (Outcome<()>, World) {
    if !cfg.collectReviews then (Ok(()), w)
    else
      var got := AllReviews(w, d, apiKey, t, cfg.maxReviews);
      if got.0.Threw? then (Threw, got.1) else (Ok(()), AddExtra(got.1, ReviewsRecord(d, t, source, got.0.value)))
  }

  /** `pushCollectionRecord`: the collection is fetched and stored when the detail names one. */
  function CollectionStep(w: World, d: Detail, apiKey: string, source: string): (Outcome<()>, World) {
    if !HasCollection(d) then (Ok(()), w)
    else
      var got := ApiCall(w, apiKey, CollectionDetail(d.collectionId.value), NoParams);
      if got.0.Threw? then (Threw, got.1)
      else (Ok(()), AddExtra(got.1, Some(CollectionRecordOf(CollectionOf(got.0.value), source))))
  }

  /** The content record of a detail, stored and counted (`stats.contents += 1`). */
  function StoreContent(w: World, d: Detail, t: ContentType, source: string): World {
    Push(w, Content(MapContentRecord(d, t, source))).(contents := w.contents + 1)
  }

  function CreditsStep(w: World, d: Detail, t: ContentType, cfg: ExtrasConfig, source: string): World {
    if cfg.collectPeople then AddExtra(w, CreditsRecord(d, t, source)) else w
  }

  function KeywordsStep(w: World, d: Detail, t: ContentType, cfg: ExtrasConfig, source: string): World {
    if cfg.collectKeywords then AddExtra(w, KeywordsRecord(d, t, source)) else w
  }

  function ImagesStep(w: World, d: Detail, t: ContentType, cfg: ExtrasConfig, source: string): World {
    if cfg.collectImages then AddExtra(w, ImagesRecord(d, t, source, cfg.maxImages)) else w
  }

  /** The keywords, images and collection steps. */
  function LateExtras(w: World, d: Detail, t: ContentType, apiKey: string, cfg: ExtrasConfig, source: string): (Outcome<()>, World) {
    var w5 := ImagesStep(KeywordsStep(w, d, t, cfg, source), d, t, cfg, source);
    if cfg.collectCollections && t == Movie then CollectionStep(w5, d, apiKey, source) else (Ok(()), w5)
  }

  /**
   * `pushContentAndExtras`: the content record, then each requested extra in
   * the order credits, reviews, keywords, images, collection (movies only);
   * an exception in the reviews or the collection ends the call, with what
   * was stored before it kept.
   */
  function ContentAndExtras(w: World, d: Detail, t: ContentType, apiKey: string, cfg: ExtrasConfig, source: string): (Outcome<()>, World) {
    AllExtras(StoreContent(w, d, t, source), d, t, apiKey, cfg, source)
  }

  /** The extras of `pushContentAndExtras`, after the content record. */
  function AllExtras(w: World, d: Detail, t: ContentType, apiKey: string, cfg: ExtrasConfig, source: string): (Outcome<()>, World) {
    var r3 := ReviewsStep(CreditsStep(w, d, t, cfg, source), d, t, apiKey, cfg, source);
    if r3.0.Threw? then r3 else LateExtras(r3.1, d, t, apiKey, cfg, source)
  }

  /** Where an extra record stands in the fan-out order; 0 for a record that is not an extra. */
  function ExtraRank(r: Record): int {
    match r
    case Credits(_, _, _, _, _, _) => 1
    case Reviews(_, _, _, _, _) => 2
    case Keywords(_, _, _, _, _) => 3
    case Images(_, _, _, _, _, _) => 4
    case CollectionRecord(_, _, _, _, _, _, _) => 5
    case _ => 0
  }

  /** Extras of kinds from `lo` up to below `hi`, in strictly increasing fan-out order. */
  predicate Ranked(recs: seq<Record>, lo: int, hi: int)
    decreases |recs|
  {
    recs == [] || (lo <= ExtraRank(recs[0]) < hi && Ranked(recs[1..], ExtraRank(recs[0]) + 1, hi))
  }

  lemma {:induction false} RankedAppend(a: seq<Record>, b: seq<Record>, lo: int, mid: int, hi: int)
    requires Ranked(a, lo, mid) && Ranked(b, mid, hi) && lo <= mid <= hi
    ensures Ranked(a + b, lo, hi)
    decreases |a|
  {
    if a == [] {
      assert a + b == b;
    } else {
      assert (a + b)[1..] == a[1..] + b;
      RankedAppend(a[1..], b, ExtraRank(a[0]) + 1, mid, hi);
    }
  }

  /** Ranked extras are extras, each of a kind in the range, in strictly increasing fan-out order. */
  lemma {:induction false} RankedIncreasing(recs: seq<Record>, lo: int, hi: int)
    requires Ranked(recs, lo, hi)
    ensures forall i :: 0 <= i < |recs| ==> lo <= ExtraRank(recs[i]) < hi
    ensures forall i, j :: 0 <= i < j < |recs| ==> ExtraRank(recs[i]) < ExtraRank(recs[j])
    decreases |recs|
  {
    if recs != [] {
      RankedIncreasing(recs[1..], ExtraRank(recs[0]) + 1, hi);
      assert forall i :: 1 <= i < |recs| ==> recs[i] == recs[1..][i - 1];
    }
  }

  /** The record of fan-out rank `k` among `recs` (the first, if there were several), or none. */
  function OfKind(recs: seq<Record>, k: int): (r: Option<Record>)
    ensures r.Some? ==> r.value in recs && ExtraRank(r.value) == k
    ensures r.None? <==> forall i :: 0 <= i < |recs| ==> ExtraRank(recs[i]) != k
  {
    if recs == [] then None
    else if ExtraRank(recs[0]) == k then Some(recs[0])
    else
      assert forall i :: 1 <= i < |recs| ==> recs[i] == recs[1..][i - 1];
      OfKind(recs[1..], k)
  }

  lemma {:induction false} OfKindAppend(a: seq<Record>, b: seq<Record>, k: int)
    ensures OfKind(a + b, k) == if OfKind(a, k).Some? then OfKind(a, k) else OfKind(b, k)
  {
    if a == [] {
      assert a + b == b;
    } else {
      assert (a + b)[0] == a[0];
      assert (a + b)[1..] == a[1..] + b;
      OfKindAppend(a[1..], b, k);
    }
  }

  /** A step that was on pushes the record its builder gave; one that was off pushes nothing. */
  function Requested(on: bool, rec: Option<Record>): seq<Record> {
    if on then OptList(rec) else []
  }

  lemma OfKindRequested(on: bool, rec: Option<Record>, j: int, k: int)
    requires rec.Some? ==> ExtraRank(rec.value) == j
    ensures OfKind(Requested(on, rec), k) == if on && j == k then rec else None
  {
  }

  /** Ranked extras hold no record of a kind outside their range. */
  lemma OfKindOutside(recs: seq<Record>, lo: int, hi: int, k: int)
    requires Ranked(recs, lo, hi) && (k < lo || hi <= k)
    ensures OfKind(recs, k) == None
  {
    RankedIncreasing(recs, lo, hi);
  }

  /** The reviews record `pushReviewsRecord` stores from world `w`, when reviews are requested and fetched. */
  function ReviewsExtra(w: World, d: Detail, t: ContentType, apiKey: string, cfg: ExtrasConfig, source: string): Option<Record> {
    if !cfg.collectReviews then None
    else
      var got := AllReviews(w, d, apiKey, t, cfg.maxReviews);
      if got.0.Threw? then None else ReviewsRecord(d, t, source, got.0.value)
  }

  /** What one extra step did: it pushed `added` (none or one record, counted) and asked only for requests. */
  predicate ExtraStep(w: World, w': World, added: seq<Record>) {
    w.log <= w'.log
    && PushedRecords(w'.log) == PushedRecords(w.log) + added
    && ListingRequests(w'.log) == ListingRequests(w.log) && ListingReplies(w'.log) == ListingReplies(w.log)
    && DetailIds(w'.log) == DetailIds(w.log)
    && w'.extraItems == w.extraItems + |added| && w'.contents == w.contents && w'.apiFailures == w.apiFailures
    && |w'.script| <= |w.script|
  }

  lemma AddExtraStep(w: World, rec: Option<Record>)
    ensures ExtraStep(w, AddExtra(w, rec), OptList(rec))
  {
    if rec.Some? {
      AppendOne(w.log, Pushed(rec.value));
    }
  }

  lemma AskedStep(w: World, w': World)
    requires Asked(w, w')
    ensures ExtraStep(w, w', [])
  {
    assert w'.log == w.log + w'.log[|w.log|..];
    QuietLog(w.log, w'.log[|w.log|..]);
  }

  /** An API request for anything but a content page. */
  lemma ApiCallStep(w: World, apiKey: string, ep: Endpoint, ps: ApiParams)
    requires !ep.SearchContent? && !ep.DiscoverContent? && !ep.ContentDetail?
    ensures ExtraStep(w, ApiCall(w, apiKey, ep, ps).1, [])
  {
    if apiKey != "" {
      AppendOne(w.log, Sent(ApiGet(ep, apiKey, ps), Next(w.script)));
    }
  }

  lemma ReviewsStepShape(w: World, d: Detail, t: ContentType, apiKey: string, cfg: ExtrasConfig, source: string)
    returns (added: seq<Record>)
    ensures var r := ReviewsStep(w, d, t, apiKey, cfg, source);
      ExtraStep(w, r.1, added) && Ranked(added, 2, 3) && (r.0.Threw? ==> added == [])
    ensures ReviewsStep(w, d, t, apiKey, cfg, source).0.Ok? ==> added == OptList(ReviewsExtra(w, d, t, apiKey, cfg, source))
  {
    if !cfg.collectReviews {
      added := [];
    } else {
      var got := AllReviews(w, d, apiKey, t, cfg.maxReviews);
      AskedStep(w, got.1);
      if got.0.Threw? {
        added := [];
      } else {
        var rec := ReviewsRecord(d, t, source, got.0.value);
        AddExtraStep(got.1, rec);
        ChainSteps(w, got.1, AddExtra(got.1, rec), [], OptList(rec));
        added := OptList(rec);
        assert [] + added == added;
      }
    }
  }

  lemma CollectionStepShape(w: World, d: Detail, apiKey: string, source: string) returns (added: seq<Record>)
    ensures var r := CollectionStep(w, d, apiKey, source);
      ExtraStep(w, r.1, added) && Ranked(added, 5, 6) && (r.0.Threw? ==> added == [])
    ensures CollectionStep(w, d, apiKey, source).0.Ok? ==> (added != [] <==> HasCollection(d))
  {
    if !HasCollection(d) {
      added := [];
    } else {
      var got := ApiCall(w, apiKey, CollectionDetail(d.collectionId.value), NoParams);
      ApiCallStep(w, apiKey, CollectionDetail(d.collectionId.value), NoParams);
      if got.0.Threw? {
        added := [];
      } else {
        var rec := Some(CollectionRecordOf(CollectionOf(got.0.value), source));
        AddExtraStep(got.1, rec);
        ChainSteps(w, got.1, AddExtra(got.1, rec), [], OptList(rec));
        added := OptList(rec);
        assert [] + added == added;
      }
    }
  }

  /** Two steps in a row. */
  lemma ChainSteps(w: World, w': World, w'': World, a: seq<Record>, b: seq<Record>)
    requires ExtraStep(w, w', a) && ExtraStep(w', w'', b)
    ensures ExtraStep(w, w'', a + b)
  {
    assert PushedRecords(w.log) + a + b == PushedRecords(w.log) + (a + b);
  }

  /** An optional extra of rank `k`, when its step is on. */
  lemma OptionalStep(w: World, on: bool, rec: Option<Record>, k: int) returns (added: seq<Record>)
    requires rec.Some? ==> ExtraRank(rec.value) == k
    requires 0 < k
    ensures ExtraStep(w, if on then AddExtra(w, rec) else w, added) && Ranked(added, k, k + 1)
    ensures added == Requested(on, rec)
  {
    if on {
      AddExtraStep(w, rec);
      added := OptList(rec);
    } else {
      added := [];
    }
  }

  /** The keywords and images steps. */
  lemma KeywordsImagesShape(w: World, d: Detail, t: ContentType, cfg: ExtrasConfig, source: string)
    returns (added: seq<Record>)
    ensures ExtraStep(w, ImagesStep(KeywordsStep(w, d, t, cfg, source), d, t, cfg, source), added) && Ranked(added, 3, 5)
    ensures added == Requested(cfg.collectKeywords, KeywordsRecord(d, t, source))
                     + Requested(cfg.collectImages, ImagesRecord(d, t, source, cfg.maxImages))
  {
    var w4 := KeywordsStep(w, d, t, cfg, source);
    var c := OptionalStep(w, cfg.collectKeywords, KeywordsRecord(d, t, source), 3);
    var e := OptionalStep(w4, cfg.collectImages, ImagesRecord(d, t, source, cfg.maxImages), 4);
    ChainSteps(w, w4, ImagesStep(w4, d, t, cfg, source), c, e);
    RankedAppend(c, e, 3, 4, 5);
    added := c + e;
  }

  lemma LateExtrasShape(w: World, d: Detail, t: ContentType, apiKey: string, cfg: ExtrasConfig, source: string)
    returns (added: seq<Record>)
    ensures ExtraStep(w, LateExtras(w, d, t, apiKey, cfg, source).1, added) && Ranked(added, 3, 6)
    ensures LateExtras(w, d, t, apiKey, cfg, source).0.Ok? ==>
      OfKind(added, 3) == (if cfg.collectKeywords then KeywordsRecord(d, t, source) else None)
      && OfKind(added, 4) == (if cfg.collectImages then ImagesRecord(d, t, source, cfg.maxImages) else None)
      && (OfKind(added, 5).Some? <==> t == Movie && cfg.collectCollections && HasCollection(d))
  {
    var w5 := ImagesStep(KeywordsStep(w, d, t, cfg, source), d, t, cfg, source);
    var ce := KeywordsImagesShape(w, d, t, cfg, source);
    if cfg.collectCollections && t == Movie {
      var f := CollectionStepShape(w5, d, apiKey, source);
      ChainSteps(w, w5, CollectionStep(w5, d, apiKey, source).1, ce, f);
      RankedAppend(ce, f, 3, 5, 6);
      added := ce + f;
      if CollectionStep(w5, d, apiKey, source).0.Ok? {
        LateKinds(ce, f, d, t, cfg, source, HasCollection(d));
      }
    } else {
      added := ce;
      RankedAppend(ce, [], 3, 5, 6);
      assert ce + [] == ce;
      LateKinds(ce, [], d, t, cfg, source, false);
    }
  }

  /** The keywords and images steps decide kinds 3 and 4; the collection step, when it ends normally, kind 5. */
  lemma LateKinds(ce: seq<Record>, f: seq<Record>, d: Detail, t: ContentType, cfg: ExtrasConfig, source: string, fetched: bool)
    requires ce == Requested(cfg.collectKeywords, KeywordsRecord(d, t, source))
                   + Requested(cfg.collectImages, ImagesRecord(d, t, source, cfg.maxImages))
    requires Ranked(f, 5, 6) && (f != [] <==> fetched)
    ensures OfKind(ce + f, 3) == (if cfg.collectKeywords then KeywordsRecord(d, t, source) else None)
    ensures OfKind(ce + f, 4) == (if cfg.collectImages then ImagesRecord(d, t, source, cfg.maxImages) else None)
    ensures OfKind(ce + f, 5).Some? <==> fetched
  {
    var kw := Requested(cfg.collectKeywords, KeywordsRecord(d, t, source));
    var im := Requested(cfg.collectImages, ImagesRecord(d, t, source, cfg.maxImages));
    forall k | 3 <= k <= 5
      ensures OfKind(ce, k) == (if k == 3 && cfg.collectKeywords then KeywordsRecord(d, t, source)
                                else if k == 4 && cfg.collectImages then ImagesRecord(d, t, source, cfg.maxImages)
                                else None)
    {
      OfKindAppend(kw, im, k);
      OfKindRequested(cfg.collectKeywords, KeywordsRecord(d, t, source), 3, k);
      OfKindRequested(cfg.collectImages, ImagesRecord(d, t, source, cfg.maxImages), 4, k);
    }
    OfKindOutside(f, 5, 6, 3);
    OfKindOutside(f, 5, 6, 4);
    OfKindAppend(ce, f, 3);
    OfKindAppend(ce, f, 4);
    OfKindAppend(ce, f, 5);
    if f != [] {
      assert ExtraRank(f[0]) == 5;
    }
  }

  /**
   * The extras after the content record, in fan-out order; when nothing
   * throws, one record of each kind that was asked for and is not empty.
   */
  lemma AllExtrasShape(w: World, d: Detail, t: ContentType, apiKey: string, cfg: ExtrasConfig, source: string)
    returns (extras: seq<Record>)
    ensures ExtraStep(w, AllExtras(w, d, t, apiKey, cfg, source).1, extras) && Ranked(extras, 1, 6)
    ensures AllExtras(w, d, t, apiKey, cfg, source).0.Ok? ==>
      OfKind(extras, 1) == (if cfg.collectPeople then CreditsRecord(d, t, source) else None)
      && OfKind(extras, 2) == ReviewsExtra(CreditsStep(w, d, t, cfg, source), d, t, apiKey, cfg, source)
      && OfKind(extras, 3) == (if cfg.collectKeywords then KeywordsRecord(d, t, source) else None)
      && OfKind(extras, 4) == (if cfg.collectImages then ImagesRecord(d, t, source, cfg.maxImages) else None)
      && (OfKind(extras, 5).Some? <==> t == Movie && cfg.collectCollections && HasCollection(d))
  {
    var w2 := CreditsStep(w, d, t, cfg, source);
    var a := OptionalStep(w, cfg.collectPeople, CreditsRecord(d, t, source), 1);
    var r3 := ReviewsStep(w2, d, t, apiKey, cfg, source);
    var b := ReviewsStepShape(w2, d, t, apiKey, cfg, source);
    ChainSteps(w, w2, r3.1, a, b);
    RankedAppend(a, b, 1, 2, 3);
    if r3.0.Threw? {
      extras := a + b;
      RankedAppend(a + b, [], 1, 3, 6);
      assert a + b + [] == a + b;
    } else {
      var c := LateExtrasShape(r3.1, d, t, apiKey, cfg, source);
      ChainSteps(w, r3.1, LateExtras(r3.1, d, t, apiKey, cfg, source).1, a + b, c);
      RankedAppend(a + b, c, 1, 3, 6);
      extras := a + b + c;
      EarlyKinds(a, b, c, d, t, cfg, source, ReviewsExtra(w2, d, t, apiKey, cfg, source));
    }
  }

  /** The credits and reviews steps decide kinds 1 and 2; the later steps pass kinds 3 to 5 through. */
  lemma EarlyKinds(a: seq<Record>, b: seq<Record>, c: seq<Record>, d: Detail, t: ContentType, cfg: ExtrasConfig,
                   source: string, reviews: Option<Record>)
    requires a == Requested(cfg.collectPeople, CreditsRecord(d, t, source))
    requires Ranked(b, 2, 3) && b == OptList(reviews) && Ranked(c, 3, 6)
    ensures OfKind(a + b + c, 1) == (if cfg.collectPeople then CreditsRecord(d, t, source) else None)
    ensures OfKind(a + b + c, 2) == reviews
    ensures forall k :: 3 <= k <= 5 ==> OfKind(a + b + c, k) == OfKind(c, k)
  {
    forall k | 1 <= k <= 5
      ensures OfKind(a + b + c, k) == if k == 1 then OfKind(a, k) else if k == 2 then reviews else OfKind(c, k)
    {
      OfKindAppend(a + b, c, k);
      OfKindAppend(a, b, k);
      OfKindRequested(cfg.collectPeople, CreditsRecord(d, t, source), 1, k);
      OfKindRequested(true, reviews, 2, k);
      if k <= 2 {
        OfKindOutside(c, 3, 6, k);
      }
    }
  }

  /**
   * `pushContentAndExtras` stores the content record first and counts it,
   * whatever happens after; then it stores the extras `extras`, at most one
   * of each kind and in the order credits, reviews, keywords, images,
   * collection, each counted once; and it asks for no content page and
   * no title detail. When the call ends normally, the extras are exactly
   * the non-empty records of the kinds asked for: the credits, keywords and
   * images records built from the detail, the reviews record of the
   * reviews fetched, and the collection record when the detail names a
   * collection of a movie.
   */
  lemma ContentAndExtrasOrder(w: World, d: Detail, t: ContentType, apiKey: string, cfg: ExtrasConfig, source: string)
    returns (extras: seq<Record>)
    ensures var r := ContentAndExtras(w, d, t, apiKey, cfg, source);
      PushedRecords(r.1.log) == PushedRecords(w.log) + [Content(MapContentRecord(d, t, source))] + extras
    ensures var r := ContentAndExtras(w, d, t, apiKey, cfg, source);
      r.1.contents == w.contents + 1 && r.1.extraItems == w.extraItems + |extras| && r.1.apiFailures == w.apiFailures
    ensures var r := ContentAndExtras(w, d, t, apiKey, cfg, source);
      ListingRequests(r.1.log) == ListingRequests(w.log) && ListingReplies(r.1.log) == ListingReplies(w.log)
    ensures var r := ContentAndExtras(w, d, t, apiKey, cfg, source);
      DetailIds(r.1.log) == DetailIds(w.log) && |r.1.script| <= |w.script| && w.log <= r.1.log
    ensures Ranked(extras, 1, 6)
    ensures ContentAndExtras(w, d, t, apiKey, cfg, source).0.Ok? ==>
      OfKind(extras, 1) == (if cfg.collectPeople then CreditsRecord(d, t, source) else None)
      && OfKind(extras, 2) == ReviewsExtra(CreditsStep(StoreContent(w, d, t, source), d, t, cfg, source), d, t, apiKey, cfg, source)
      && OfKind(extras, 3) == (if cfg.collectKeywords then KeywordsRecord(d, t, source) else None)
      && OfKind(extras, 4) == (if cfg.collectImages then ImagesRecord(d, t, source, cfg.maxImages) else None)
      && (OfKind(extras, 5).Some? <==> t == Movie && cfg.collectCollections && HasCollection(d))
  {
    var c := Content(MapContentRecord(d, t, source));
    AppendOne(w.log, Pushed(c));
    extras := AllExtrasShape(StoreContent(w, d, t, source), d, t, apiKey, cfg, source);
  }

  /** Stores an extra record when there is one, and counts it. */
  method PushExtra(env: Env, stats: Stats, rec: Option<Record>)
    modifies env, stats
    ensures Now(env, stats) == AddExtra(old(Now(env, stats)), rec)
  {
    if rec.Some? {
      env.Push(rec.value);
      stats.extraItems := stats.extraItems + 1;
    }
  }

  /** `pushReviewsRecord`, when reviews are requested. */
  method PushReviewsRecord(env: Env, stats: Stats, d: Detail, t: ContentType, apiKey: string, cfg: ExtrasConfig, source: string)
    returns (out: Outcome<()>)
    modifies env, stats
    ensures (out, Now(env, stats)) == ReviewsStep(old(Now(env, stats)), d, t, apiKey, cfg, source)
  {
    if !cfg.collectReviews {
      return Ok(());
    }
    var reviews := CollectAllReviews(env, stats, d, apiKey, t, cfg.maxReviews);
    if reviews.Threw? {
      return Threw;
    }
    PushExtra(env, stats, ReviewsRecord(d, t, source, reviews.value));
    return Ok(());
  }

  /** `pushCollectionRecord`. */
  method PushCollectionRecord(env: Env, stats: Stats, d: Detail, apiKey: string, source: string)
    returns (out: Outcome<()>)
    modifies env, stats
    ensures (out, Now(env, stats)) == CollectionStep(old(Now(env, stats)), d, apiKey, source)
  {
    if !HasCollection(d) {
      return Ok(());
    }
    var collection := ApiRequest(env, stats, apiKey, CollectionDetail(d.collectionId.value), NoParams);
    if collection.Threw? {
      return Threw;
    }
    PushExtra(env, stats, Some(CollectionRecordOf(CollectionOf(collection.value), source)));
    return Ok(());
  }

  /** `pushContentAndExtras` on the objects. */
  method PushContentAndExtras(env: Env, stats: Stats, d: Detail, t: ContentType, apiKey: string, cfg: ExtrasConfig, source: string)
    returns (out: Outcome<()>)
    modifies env, stats
    ensures (out, Now(env, stats)) == ContentAndExtras(old(Now(env, stats)), d, t, apiKey, cfg, source)
  {
    env.Push(Content(MapContentRecord(d, t, source)));
    stats.contents := stats.contents + 1;
    out := PushAllExtras(env, stats, d, t, apiKey, cfg, source);
  }

  /** The extras of `pushContentAndExtras`, after the content record. */
  method PushAllExtras(env: Env, stats: Stats, d: Detail, t: ContentType, apiKey: string, cfg: ExtrasConfig, source: string)
    returns (out: Outcome<()>)
    modifies env, stats
    ensures (out, Now(env, stats)) == AllExtras(old(Now(env, stats)), d, t, apiKey, cfg, source)
  {
    if cfg.collectPeople {
      PushExtra(env, stats, CreditsRecord(d, t, source));
    }
    out := PushReviewsRecord(env, stats, d, t, apiKey, cfg, source);
    if out.Threw? {
      return;
    }
    out := PushLateExtras(env, stats, d, t, apiKey, cfg, source);
  }

  /** The keywords, images and collection steps of `pushContentAndExtras`. */
  method PushLateExtras(env: Env, stats: Stats, d: Detail, t: ContentType, apiKey: string, cfg: ExtrasConfig, source: string)
    returns (out: Outcome<()>)
    modifies env, stats
    ensures (out, Now(env, stats)) == LateExtras(old(Now(env, stats)), d, t, apiKey, cfg, source)
  {
    if cfg.collectKeywords {
      PushExtra(env, stats, KeywordsRecord(d, t, source));
    }
    if cfg.collectImages {
      PushExtra(env, stats, ImagesRecord(d, t, source, cfg.maxImages));
    }
    out := Ok(());
    if cfg.collectCollections && t == Movie {
      out := PushCollectionRecord(env, stats, d, apiKey, source);
    }
  }
}
