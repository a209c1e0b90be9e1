/**
 * Reading a website listing page: the cards become listing items
 * (`extractListingItems`: the `/movie/<id>` or `/tv/<id>` link of each card,
 * one item per id), and the pagination controls give the next page's URL
 * (`resolveNextUrl`). The page arrives already selected: cards with their
 * anchors and texts, and the pagination elements' attributes.
 */
module Listing {
  import opened Wrappers
  import opened Text
  import opened Lists
  import opened Params
  import opened Records

  /** An anchor element: its `href` attribute, if any, and its text. */
  datatype Anchor = Anchor(href: Option<string>, text: string)

  /**
   * A `.card` element: its anchors in document order, the text of its first
   * heading, of its overview paragraphs and of its release date, and the
   * `data-src` and `src` attributes of its poster image.
   */
  datatype Card = Card(
    anchors: seq<Anchor>, heading: string, overview: string, releaseDate: string,
    posterDataSrc: Option<string>, posterSrc: Option<string>)

  /** Number of decimal digits at the start of `s`. */
  function DigitRun(s: string): (n: nat)
    ensures n <= |s|
    ensures forall k :: 0 <= k < n ==> IsDigit(s[k])
    ensures n < |s| ==> !IsDigit(s[n])
  {
    if s != [] && IsDigit(s[0]) then 1 + DigitRun(s[1..]) else 0
  }

  /** The digit run of digits followed by a non-digit is exactly those digits. */
  lemma {:induction false} DigitRunOf(d: string, rest: string)
    requires forall k :: 0 <= k < |d| ==> IsDigit(d[k])
    requires rest == [] || !IsDigit(rest[0])
    ensures DigitRun(d + rest) == |d|
  {
    if d != [] {
      assert (d + rest)[1..] == d[1..] + rest;
      DigitRunOf(d[1..], rest);
    }
  }

  /**
   * The pattern `/(movie|tv)/(\d+)` tried at position `i` of `s`: the content
   * type and the value of the longest run of digits after it.
   */
  function MatchAt(s: string, i: nat): (r: Option<(ContentType, nat)>)
    requires i <= |s|
  {
    var rest := s[i..];
    if "/movie/" <= rest && DigitRun(rest[7..]) > 0 then
      Some((Movie, DigitsValue(rest[7..][..DigitRun(rest[7..])])))
    else if "/tv/" <= rest && DigitRun(rest[4..]) > 0 then
      Some((Tv, DigitsValue(rest[4..][..DigitRun(rest[4..])])))
    else None
  }

  /** The leftmost match of the pattern at or after position `i`. */
  function FindPath(s: string, i: nat): Option<(ContentType, nat)>
    requires i <= |s|
    decreases |s| - i
  {
    if MatchAt(s, i).Some? then MatchAt(s, i)
    else if i == |s| then None
    else FindPath(s, i + 1)
  }

  /** The search finds the leftmost position from `i` on where the pattern matches, and nothing when it matches nowhere. */
  lemma {:induction false} FindPathLeftmost(s: string, i: nat)
    requires i <= |s|
    ensures var r := FindPath(s, i);
      && (r.Some? ==> exists p :: i <= p <= |s| && MatchAt(s, p) == r && forall q :: i <= q < p ==> MatchAt(s, q).None?)
      && (r.None? ==> forall q :: i <= q <= |s| ==> MatchAt(s, q).None?)
    decreases |s| - i
  {
    if MatchAt(s, i).None? && i < |s| {
      FindPathLeftmost(s, i + 1);
      var r := FindPath(s, i + 1);
      if r.Some? {
        var p :| i + 1 <= p <= |s| && MatchAt(s, p) == r && forall q :: i + 1 <= q < p ==> MatchAt(s, q).None?;
        assert i <= p <= |s| && MatchAt(s, p) == r && forall q :: i <= q < p ==> MatchAt(s, q).None?;
      }
    }
  }

  /** `href.match(/\/(movie|tv)\/(\d+)/)`: the content type and the number of the leftmost match. */
  function ParseHref(href: string): Option<(ContentType, nat)> {
    FindPath(href, 0)
  }

  /** The path of a content page: `/movie/550` or `/tv/1399`. */
  function ContentPath(t: ContentType, id: nat): string {
    "/" + t.Name() + "/" + NatToString(id)
  }

  /** A content path followed by anything but a digit (a slug, a query) parses back to its type and id. */
  lemma ParseContentPath(t: ContentType, id: nat, rest: string)
    requires rest == [] || !IsDigit(rest[0])
    ensures ParseHref(ContentPath(t, id) + rest) == Some((t, id))
  {
    var d := NatToString(id);
    DigitRunOf(d, rest);
    assert (d + rest)[..|d|] == d;
    NatToStringValue(id);
    assert ContentPath(t, id) + rest == "/" + t.Name() + "/" + (d + rest);
    MatchAtTyped(t, d + rest);
  }

  /** The pattern matches at the start of a content type's path followed by digits. */
  lemma MatchAtTyped(t: ContentType, tail: string)
    requires DigitRun(tail) > 0
    ensures MatchAt("/" + t.Name() + "/" + tail, 0) == Some((t, DigitsValue(tail[..DigitRun(tail)])))
  {
    if t == Movie {
      assert "/" + t.Name() + "/" == "/movie/";
      MatchAtMovie(tail);
    } else {
      assert "/" + t.Name() + "/" == "/tv/";
      MatchAtTv(tail);
    }
  }

  lemma MatchAtMovie(tail: string)
    requires DigitRun(tail) > 0
    ensures MatchAt("/movie/" + tail, 0) == Some((Movie, DigitsValue(tail[..DigitRun(tail)])))
  {
    var s := "/movie/" + tail;
    assert s[0..] == s;
    assert s[7..] == tail;
  }

  lemma MatchAtTv(tail: string)
    requires DigitRun(tail) > 0
    ensures MatchAt("/tv/" + tail, 0) == Some((Tv, DigitsValue(tail[..DigitRun(tail)])))
  {
    var s := "/tv/" + tail;
    assert s[0..] == s;
    assert s[1] == 't';
    assert !("/movie/" <= s);
    assert s[4..] == tail;
  }

  /** The first anchor whose `href` starts with the content type's path (`a[href^="/movie/"]`). */
  function CardLink(anchors: seq<Anchor>, t: ContentType): (r: Option<Anchor>)
    ensures r.Some? ==> r.value in anchors && r.value.href.Some? && "/" + t.Name() + "/" <= r.value.href.value
  {
    if anchors == [] then None
    else if anchors[0].href.Some? && "/" + t.Name() + "/" <= anchors[0].href.value then Some(anchors[0])
    else CardLink(anchors[1..], t)
  }

  /**
   * The item a card yields: none without a link of the content type, without
   * a match of the pattern in its `href`, with an id of 0 or with a match of
   * the other content type.
   */
  function ItemOf(card: Card, t: ContentType): Option<ListingItem> {
    match CardLink(card.anchors, t)
    case None => None
    case Some(link) =>
      var href := link.href.value;
      match ParseHref(href)
      case None => None
      case Some((ty, id)) =>
        if id == 0 || ty != t then None
        else
          var title := if Trim(card.heading) != "" then Trim(card.heading) else Trim(link.text);
          var poster := Or(Or(card.posterDataSrc, card.posterSrc), None);
          Some(ListingItem(id, title, TrimmedOrNull(card.overview), TrimmedOrNull(card.releaseDate), poster, ResolveHref(href)))
  }

  /** A card yields an item only with a nonzero id that its first link of the content type parses to. */
  lemma ItemOfParsed(card: Card, t: ContentType)
    ensures var r := ItemOf(card, t);
      r.Some? ==> (r.value.id != 0 && CardLink(card.anchors, t).Some?
                   && ParseHref(CardLink(card.anchors, t).value.href.value) == Some((t, r.value.id)))
  {
  }

  /** A card whose first link of the content type points at a content page of that type yields that page's id. */
  lemma CardWithContentLink(card: Card, t: ContentType, id: nat, rest: string)
    requires id != 0 && (rest == [] || !IsDigit(rest[0]))
    requires CardLink(card.anchors, t).Some? && CardLink(card.anchors, t).value.href == Some(ContentPath(t, id) + rest)
    ensures ItemOf(card, t).Some? && ItemOf(card, t).value.id == id
  {
    ParseContentPath(t, id, rest);
  }

  function OptList<T>(o: Option<T>): (r: seq<T>)
    ensures |r| <= 1
  {
    if o.Some? then [o.value] else []
  }

  /** The items the cards yield, in card order, duplicates included. */
  function CardItems(cards: seq<Card>, t: ContentType): seq<ListingItem> {
    if cards == [] then [] else CardItems(cards[..|cards| - 1], t) + OptList(ItemOf(cards[|cards| - 1], t))
  }

  function Ids(es: seq<ListingItem>): (r: seq<nat>)
    ensures |r| == |es|
    ensures forall k :: 0 <= k < |es| ==> r[k] == es[k].id
  {
    if es == [] then [] else [es[0].id] + Ids(es[1..])
  }

  predicate DistinctIds(es: seq<ListingItem>) {
    forall i, j :: 0 <= i < j < |es| ==> es[i].id != es[j].id
  }

  /** The entry with the given id, if any. */
  function Lookup(es: seq<ListingItem>, id: nat): Option<ListingItem> {
    if es == [] then None else if es[0].id == id then Some(es[0]) else Lookup(es[1..], id)
  }

  /** The last item with the given id, if any. */
  function LastWith(items: seq<ListingItem>, id: nat): Option<ListingItem> {
    if items == [] then None
    else if items[|items| - 1].id == id then Some(items[|items| - 1])
    else LastWith(items[..|items| - 1], id)
  }

  /** The ids in the order of their first occurrence, each once. */
  function FirstOccurrences(ns: seq<nat>): seq<nat> {
    if ns == [] then []
    else
      var prefix := FirstOccurrences(ns[..|ns| - 1]);
      if ns[|ns| - 1] in prefix then prefix else prefix + [ns[|ns| - 1]]
  }

  /**
   * `Map.prototype.set` on entries keyed by id: an entry with the item's id
   * takes the item in place; otherwise the item is appended.
   */
  function MapSet(es: seq<ListingItem>, item: ListingItem): seq<ListingItem> {
    if es == [] then [item]
    else if es[0].id == item.id then [item] + es[1..]
    else [es[0]] + MapSet(es[1..], item)
  }

  /** The entries of a map after setting every item in turn. */
  function Entries(items: seq<ListingItem>): seq<ListingItem> {
    if items == [] then [] else MapSet(Entries(items[..|items| - 1]), items[|items| - 1])
  }

  /** `extractListingItems`: the values of the id-keyed map the cards are set into, in insertion order. */
  function ListingItems(cards: seq<Card>, t: ContentType): seq<ListingItem> {
    Entries(CardItems(cards, t))
  }

  lemma {:induction false} MapSetLookup(es: seq<ListingItem>, item: ListingItem, id: nat)
    ensures Lookup(MapSet(es, item), id) == if id == item.id then Some(item) else Lookup(es, id)
  {
    if es != [] && es[0].id != item.id {
      MapSetLookup(es[1..], item, id);
    }
  }

  lemma {:induction false} MapSetIds(es: seq<ListingItem>, item: ListingItem)
    ensures Ids(MapSet(es, item)) == if item.id in Ids(es) then Ids(es) else Ids(es) + [item.id]
  {
    if es != [] && es[0].id != item.id {
      MapSetIds(es[1..], item);
      assert Ids(es) == [es[0].id] + Ids(es[1..]);
    }
  }

  /** The ids of the entries are the first occurrences of the items' ids. */
  lemma {:induction false} EntriesIds(items: seq<ListingItem>)
    ensures Ids(Entries(items)) == FirstOccurrences(Ids(items))
  {
    if items != [] {
      var init := items[..|items| - 1];
      EntriesIds(init);
      MapSetIds(Entries(init), items[|items| - 1]);
      assert Ids(items)[..|items| - 1] == Ids(init);
    }
  }

  lemma {:induction false} FirstOccurrencesDistinct(ns: seq<nat>)
    ensures forall i, j :: 0 <= i < j < |FirstOccurrences(ns)| ==> FirstOccurrences(ns)[i] != FirstOccurrences(ns)[j]
    ensures forall n :: n in FirstOccurrences(ns) <==> n in ns
  {
    if ns != [] {
      FirstOccurrencesDistinct(ns[..|ns| - 1]);
      assert ns == ns[..|ns| - 1] + [ns[|ns| - 1]];
    }
  }

  /** The entry kept for an id is the last item with that id. */
  lemma {:induction false} EntriesLookup(items: seq<ListingItem>, id: nat)
    ensures Lookup(Entries(items), id) == LastWith(items, id)
  {
    if items != [] {
      EntriesLookup(items[..|items| - 1], id);
      MapSetLookup(Entries(items[..|items| - 1]), items[|items| - 1], id);
    }
  }

  /**
   * What `extractListingItems` promises: one item per id, the ids in the
   * order their first card appears, each item taken from the last card with
   * its id, and an id present exactly when some card yields it.
   */
  lemma ListingItemsShape(cards: seq<Card>, t: ContentType)
    ensures DistinctIds(ListingItems(cards, t))
    ensures Ids(ListingItems(cards, t)) == FirstOccurrences(Ids(CardItems(cards, t)))
    ensures forall id :: id in Ids(ListingItems(cards, t)) <==> id in Ids(CardItems(cards, t))
    ensures forall id :: Lookup(ListingItems(cards, t), id) == LastWith(CardItems(cards, t), id)
  {
    var items := CardItems(cards, t);
    EntriesIds(items);
    FirstOccurrencesDistinct(Ids(items));
    var es := Entries(items);
    forall i, j | 0 <= i < j < |es| ensures es[i].id != es[j].id {
      assert Ids(es)[i] == es[i].id && Ids(es)[j] == es[j].id;
    }
    forall id ensures Lookup(Entries(items), id) == LastWith(items, id) {
      EntriesLookup(items, id);
    }
  }

  /** One more card sets the item it yields, if any, into the entries of the cards before it. */
  lemma CardItemsStep(cards: seq<Card>, t: ContentType, i: nat)
    requires i < |cards|
    ensures var before := Entries(CardItems(cards[..i], t));
      Entries(CardItems(cards[..i + 1], t))
        == if ItemOf(cards[i], t).Some? then MapSet(before, ItemOf(cards[i], t).value) else before
  {
    var prefix := CardItems(cards[..i], t);
    assert cards[..i + 1][..i] == cards[..i];
    if ItemOf(cards[i], t).Some? {
      var item := ItemOf(cards[i], t).value;
      assert CardItems(cards[..i + 1], t) == prefix + [item];
      assert (prefix + [item])[..|prefix|] == prefix;
    } else {
      assert CardItems(cards[..i + 1], t) == prefix;
    }
  }

  /** `extractListingItems`, card by card, setting each yielded item into the id-keyed map. */
  method ExtractListingItems(cards: seq<Card>, t: ContentType) returns (items: seq<ListingItem>)
    ensures items == ListingItems(cards, t)
  {
    items := [];
    var i := 0;
    while i < |cards|
      invariant 0 <= i <= |cards|
      invariant items == Entries(CardItems(cards[..i], t))
    {
      var item := ItemOf(cards[i], t);
      CardItemsStep(cards, t, i);
      if item.Some? {
        items := MapSet(items, item.value);
      }
      i := i + 1;
    }
    assert cards[..|cards|] == cards;
  }

  /** The six selectors tried, in order, for a link to the next page. */
  const NEXT_SELECTORS: seq<string> := [
    "a[rel=\"next\"]",
    ".pagination a[rel=\"next\"]",
    ".pagination .next a",
    ".pagination a.next",
    "a[aria-label=\"next\"]",
    "a[aria-label=\"Next\"]"]

  /**
   * The pagination controls of a listing page: the `data-next-page`
   * attribute of the first infinite-scroll marker (if there is one), the
   * `href` of the first element each selector matches (for the selectors that
   * match an element with an `href`), and the `.pagination` anchors.
   */
  datatype Navigation = Navigation(marker: Option<string>, selected: map<string, string>, paginationAnchors: seq<Anchor>)

  /** A pagination anchor reads as "next": trimmed and lower-cased, it is `next`, `›`, `»`, or contains `next`. */
  predicate IsNextText(text: string) {
    var s := Lower(Trim(text));
    s == "next" || s == "›" || s == "»" || Contains(s, "next")
  }

  /** The `next` comparison is subsumed by the `includes`: only the arrows and `includes('next')` decide. */
  lemma IsNextTextIncludes(text: string)
    ensures IsNextText(text) <==> Lower(Trim(text)) in {"›", "»"} || Contains(Lower(Trim(text)), "next")
  {
    var s := Lower(Trim(text));
    if s == "next" {
      assert "next" <= s;
    }
  }

  /** The `href` of the first selector, in order, that matched an element with a truthy `href`. */
  function FirstSelected(sels: seq<string>, selected: map<string, string>): (r: Option<string>)
    ensures r.Some? ==> r.value != "" && exists k :: 0 <= k < |sels| && sels[k] in selected && selected[sels[k]] == r.value
  {
    if sels == [] then None
    else if sels[0] in selected && selected[sels[0]] != "" then Some(selected[sels[0]])
    else FirstSelected(sels[1..], selected)
  }

  /** The first pagination anchor that reads as "next", if any. */
  function FirstNextAnchor(anchors: seq<Anchor>): (r: Option<Anchor>)
    ensures r.Some? ==> r.value in anchors && IsNextText(r.value.text)
  {
    if anchors == [] then None
    else if IsNextText(anchors[0].text) then Some(anchors[0])
    else FirstNextAnchor(anchors[1..])
  }

  /** The current URL with only its `page` parameter set to the marker's value. */
  function MarkerUrl(nav: Navigation, current: Url): Option<Url> {
    if Truthy(nav.marker) then Some(Url(current.location, SetParam(current.query, "page", nav.marker.value))) else None
  }

  /** The next-page link of the `i`-th selector, if it matched an element with a truthy `href`. */
  function SelectorUrl(nav: Navigation, sel: string): Option<Url> {
    if sel in nav.selected && nav.selected[sel] != "" then Some(ResolveHref(nav.selected[sel])) else None
  }

  /** The fallback: the first "next" anchor of the pagination, when it has a truthy `href`. */
  function FallbackUrl(nav: Navigation): Option<Url> {
    var a := FirstNextAnchor(nav.paginationAnchors);
    if a.Some? && Truthy(a.value.href) then Some(ResolveHref(a.value.href.value)) else None
  }

  /** `resolveNextUrl`: the marker, else the selectors in order, else the fallback anchor, else nothing. */
  function ResolveNextUrl(nav: Navigation, current: Url): Option<Url> {
    if Truthy(nav.marker) then MarkerUrl(nav, current)
    else match FirstSelected(NEXT_SELECTORS, nav.selected)
      case Some(href) => Some(ResolveHref(href))
      case None => FallbackUrl(nav)
  }

  /** The candidates in the order `resolveNextUrl` tries them: the marker, the six selectors, the fallback anchor. */
  function Candidates(nav: Navigation, current: Url): seq<Option<Url>> {
    [MarkerUrl(nav, current)] + SelectorUrls(nav, NEXT_SELECTORS) + [FallbackUrl(nav)]
  }

  function SelectorUrls(nav: Navigation, sels: seq<string>): (r: seq<Option<Url>>)
    ensures |r| == |sels|
    ensures forall k :: 0 <= k < |sels| ==> r[k] == SelectorUrl(nav, sels[k])
  {
    seq(|sels|, k requires 0 <= k < |sels| => SelectorUrl(nav, sels[k]))
  }

  /** The first present candidate, if any. */
  function FirstSome(cs: seq<Option<Url>>): (r: Option<Url>)
    ensures r.Some? <==> exists k :: 0 <= k < |cs| && cs[k].Some?
    ensures r.Some? ==> exists k :: 0 <= k < |cs| && cs[k] == r && forall j :: 0 <= j < k ==> cs[j].None?
  {
    if cs == [] then None else if cs[0].Some? then cs[0] else FirstSome(cs[1..])
  }

  lemma {:induction false} FirstSelectedIsFirstSome(nav: Navigation, sels: seq<string>)
    ensures FirstSome(SelectorUrls(nav, sels)) == match FirstSelected(sels, nav.selected)
      case Some(href) => Some(ResolveHref(href))
      case None => None
  {
    if sels != [] {
      FirstSelectedIsFirstSome(nav, sels[1..]);
      assert SelectorUrls(nav, sels)[1..] == SelectorUrls(nav, sels[1..]);
    }
  }

  lemma {:induction false} FirstSomeAppend(a: seq<Option<Url>>, b: seq<Option<Url>>)
    ensures FirstSome(a + b) == if FirstSome(a).Some? then FirstSome(a) else FirstSome(b)
  {
    if a != [] {
      assert (a + b)[1..] == a[1..] + b;
      FirstSomeAppend(a[1..], b);
    } else {
      assert a + b == b;
    }
  }

  /** `resolveNextUrl` returns the first candidate that yields a URL, and nothing when none does. */
  lemma ResolveFirstMatch(nav: Navigation, current: Url)
    ensures ResolveNextUrl(nav, current) == FirstSome(Candidates(nav, current))
  {
    var sels := SelectorUrls(nav, NEXT_SELECTORS);
    FirstSelectedIsFirstSome(nav, NEXT_SELECTORS);
    FirstSomeAppend([MarkerUrl(nav, current)] + sels, [FallbackUrl(nav)]);
    FirstSomeAppend([MarkerUrl(nav, current)], sels);
  }

  /** A truthy marker rewrites only the `page` parameter of the current URL: the location and every other parameter stay. */
  lemma MarkerRewritesPage(nav: Navigation, current: Url, name: string)
    requires Truthy(nav.marker)
    ensures ResolveNextUrl(nav, current).Some?
    ensures ResolveNextUrl(nav, current).value.location == current.location
    ensures Values(ResolveNextUrl(nav, current).value.query, "page") == [nav.marker.value]
    ensures name != "page" ==> Values(ResolveNextUrl(nav, current).value.query, name) == Values(current.query, name)
  {
    SetParamValues(current.query, "page", nav.marker.value, name);
  }
}
