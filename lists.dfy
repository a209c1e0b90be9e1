/**
 * The input-normalising and output-formatting helpers of the scraper:
 * `parseStringList`, `parseNumberList`, `limitArray`, `formatList`,
 * `formatObjectList`, and the `a || b || c` fallback chains used when
 * records are built.
 */
module Lists {
  import opened Wrappers
  import opened Text

  /**
   * A JavaScript value as the helpers see it. Numbers are integers here;
   * `JsNaN` stands for every non-finite number; `JsNull` for `null`,
   * `undefined`, booleans and plain objects, which the helpers all treat alike.
   */
  datatype JsValue = JsString(s: string) | JsNumber(n: int) | JsNaN | JsArray(items: seq<JsValue>) | JsNull

  /** JavaScript truthiness of an optional string: present and not empty. */
  predicate Truthy(o: Option<string>) {
    o.Some? && o.value != ""
  }

  /** `.filter(Boolean)` on strings: keeps the non-empty ones, in order. */
  function NonEmpty(xs: seq<string>): (r: seq<string>)
    ensures |r| <= |xs|
    ensures forall k :: 0 <= k < |r| ==> r[k] != ""
    ensures forall k :: 0 <= k < |r| ==> r[k] in xs
  {
    if xs == [] then []
    else if xs[0] == "" then NonEmpty(xs[1..])
    else [xs[0]] + NonEmpty(xs[1..])
  }

  /** `.filter(Boolean)` keeps exactly the non-empty strings of `xs`. */
  lemma {:induction false} NonEmptyMembers(xs: seq<string>)
    ensures forall x :: x in NonEmpty(xs) <==> x in xs && x != ""
  {
    if xs != [] {
      NonEmptyMembers(xs[1..]);
      assert xs == [xs[0]] + xs[1..];
    }
  }

  /** Filtering a concatenation filters each part and keeps their order. */
  lemma {:induction false} NonEmptyAppend(xs: seq<string>, ys: seq<string>)
    ensures NonEmpty(xs + ys) == NonEmpty(xs) + NonEmpty(ys)
  {
    if xs == [] {
      assert xs + ys == ys;
    } else {
      assert (xs + ys)[0] == xs[0];
      assert (xs + ys)[1..] == xs[1..] + ys;
      NonEmptyAppend(xs[1..], ys);
    }
  }

  lemma {:induction false} NonEmptyKeepsAll(xs: seq<string>)
    requires forall k :: 0 <= k < |xs| ==> xs[k] != ""
    ensures NonEmpty(xs) == xs
  {
    if xs != [] {
      NonEmptyKeepsAll(xs[1..]);
    }
  }

  lemma {:induction false} NonEmptyEmpty(xs: seq<string>)
    ensures NonEmpty(xs) == [] <==> forall k :: 0 <= k < |xs| ==> xs[k] == ""
  {
    if xs != [] {
      NonEmptyEmpty(xs[1..]);
      if xs[0] == "" {
        assert forall k :: 1 <= k < |xs| ==> xs[k] == xs[1..][k - 1];
      }
    }
  }

  /** `.map((item) => item.trim())` */
  function TrimAll(xs: seq<string>): (r: seq<string>)
    ensures |r| == |xs|
    ensures forall k :: 0 <= k < |xs| ==> r[k] == Trim(xs[k])
  {
    if xs == [] then [] else [Trim(xs[0])] + TrimAll(xs[1..])
  }

  /** How an array element becomes a list entry: strings are trimmed, finite numbers printed, the rest dropped. */
  function ElementText(v: JsValue): (r: string)
    ensures IsTrimmed(r)
  {
    match v
    case JsString(s) => Trim(s)
    case JsNumber(n) => IntToStringTrimmed(n); IntToString(n)
    case _ => ""
  }

  lemma IntToStringTrimmed(n: int)
    ensures IsTrimmed(IntToString(n))
  {
    var s := IntToString(n);
    var d := NatToString(if n < 0 then -n else n);
    assert s[|s| - 1] == d[|d| - 1];
    assert IsDigit(d[|d| - 1]);
    assert IsDigit(s[0]) || s[0] == '-';
  }

  function ElementTexts(vs: seq<JsValue>): (r: seq<string>)
    ensures |r| == |vs|
    ensures forall k :: 0 <= k < |vs| ==> r[k] == ElementText(vs[k])
  {
    if vs == [] then [] else [ElementText(vs[0])] + ElementTexts(vs[1..])
  }

  /**
   * `parseStringList`: an array keeps its usable elements, a string is split on
   * commas, a finite number becomes one entry; entries are trimmed and empty
   * ones dropped; anything else gives the empty list.
   */
  function ParseStringList(v: JsValue): (r: seq<string>)
    ensures forall k :: 0 <= k < |r| ==> r[k] != "" && IsTrimmed(r[k])
    ensures v.JsString? ==> r == NonEmpty(TrimAll(Split(v.s, ',')))
    ensures v.JsArray? ==> r == NonEmpty(ElementTexts(v.items))
    ensures v.JsNumber? ==> r == [IntToString(v.n)]
    ensures v.JsNaN? || v.JsNull? ==> r == []
  {
    match v
    case JsArray(items) => NonEmpty(ElementTexts(items))
    case JsString(s) => NonEmpty(TrimAll(Split(s, ',')))
    case JsNumber(n) => IntToStringTrimmed(n); [IntToString(n)]
    case _ => []
  }

  lemma {:induction false} TrimAllTrimmed(xs: seq<string>)
    requires forall k :: 0 <= k < |xs| ==> IsTrimmed(xs[k])
    ensures TrimAll(xs) == xs
  {
    forall k | 0 <= k < |xs| ensures TrimAll(xs)[k] == xs[k] {
      TrimFixpoint(xs[k]);
    }
  }

  /**
   * A comma-separated string of clean entries parses back to those entries:
   * `parseStringList(xs.join(','))` is `xs` when no entry is empty, padded or holds a comma.
   */
  lemma ParseStringListJoin(xs: seq<string>)
    requires xs != []
    requires forall k :: 0 <= k < |xs| ==> xs[k] != "" && IsTrimmed(xs[k]) && ',' !in xs[k]
    ensures ParseStringList(JsString(Join(xs, ","))) == xs
  {
    SplitJoin(xs, ',');
    TrimAllTrimmed(xs);
    NonEmptyKeepsAll(xs);
  }

  /** Only entries that parse as numbers survive `.filter(Number.isFinite)`. */
  function Numbers(xs: seq<string>): (r: seq<int>)
    ensures |r| <= |xs|
  {
    if xs == [] then []
    else match ParseInt(xs[0])
      case Some(n) => [n] + Numbers(xs[1..])
      case None => Numbers(xs[1..])
  }

  /** Some entry of `xs` parses as the number `n`. */
  predicate ParsesTo(xs: seq<string>, n: int) {
    exists k :: 0 <= k < |xs| && ParseInt(xs[k]) == Some(n)
  }

  /** The numbers kept are exactly the values of the entries that parse. */
  lemma {:induction false} NumbersMembers(xs: seq<string>)
    ensures forall n :: n in Numbers(xs) <==> ParsesTo(xs, n)
  {
    if xs != [] {
      NumbersMembers(xs[1..]);
      forall n ensures ParsesTo(xs, n) <==> ParseInt(xs[0]) == Some(n) || ParsesTo(xs[1..], n) {
        if ParsesTo(xs, n) {
          var k :| 0 <= k < |xs| && ParseInt(xs[k]) == Some(n);
          if k > 0 {
            assert xs[1..][k - 1] == xs[k];
          }
        }
        if ParsesTo(xs[1..], n) {
          var k :| 0 <= k < |xs[1..]| && ParseInt(xs[1..][k]) == Some(n);
          assert xs[k + 1] == xs[1..][k];
        }
      }
    }
  }

  /** Parsing a concatenation parses each part and keeps their order. */
  lemma {:induction false} NumbersAppend(xs: seq<string>, ys: seq<string>)
    ensures Numbers(xs + ys) == Numbers(xs) + Numbers(ys)
  {
    if xs == [] {
      assert xs + ys == ys;
    } else {
      assert (xs + ys)[0] == xs[0];
      assert (xs + ys)[1..] == xs[1..] + ys;
      NumbersAppend(xs[1..], ys);
    }
  }

  /**
   * `parseNumberList`: the entries of `parseStringList` that are numbers, as
   * numbers, in order; every number it returns comes from an entry.
   */
  function ParseNumberList(v: JsValue): (r: seq<int>)
    ensures |r| <= |ParseStringList(v)|
    ensures forall n :: n in r <==> ParsesTo(ParseStringList(v), n)
  {
    NumbersMembers(ParseStringList(v));
    Numbers(ParseStringList(v))
  }

  function AsJsNumbers(ns: seq<int>): (r: seq<JsValue>)
    ensures |r| == |ns|
    ensures forall k :: 0 <= k < |ns| ==> r[k] == JsNumber(ns[k])
  {
    if ns == [] then [] else [JsNumber(ns[0])] + AsJsNumbers(ns[1..])
  }

  lemma {:induction false} NumbersOfPrinted(ns: seq<int>)
    ensures Numbers(ElementTexts(AsJsNumbers(ns))) == ns
  {
    if ns != [] {
      IntToStringRoundTrip(ns[0]);
      assert ElementTexts(AsJsNumbers(ns))[1..] == ElementTexts(AsJsNumbers(ns[1..]));
      NumbersOfPrinted(ns[1..]);
    }
  }

  /** An array of numbers (genre ids, say) passes through `parseNumberList` unchanged. */
  lemma ParseNumberListOfNumbers(ns: seq<int>)
    ensures ParseNumberList(JsArray(AsJsNumbers(ns))) == ns
  {
    var texts := ElementTexts(AsJsNumbers(ns));
    forall k | 0 <= k < |texts| ensures texts[k] != "" { }
    NonEmptyKeepsAll(texts);
    NumbersOfPrinted(ns);
  }

  /**
   * `limitArray(items, limit)`: nothing when `limit <= 0`, otherwise the first
   * `limit` items (all of them when there are fewer).
   */
  function LimitArray<T>(items: seq<T>, limit: int): (r: seq<T>)
    ensures r <= items
    ensures limit <= 0 ==> r == []
    ensures limit > 0 ==> |r| == if limit < |items| then limit else |items|
  {
    if limit <= 0 then [] else items[..if limit < |items| then limit else |items|]
  }

  /** How `formatList` sanitises one element: like `parseStringList`, non-strings and non-numbers give nothing. */
  function FormatTexts(vs: seq<JsValue>): seq<string> {
    NonEmpty(ElementTexts(vs))
  }

  /**
   * `formatList`: the usable elements of an array joined with `", "`, or `null`
   * (here `None`) when the value is not an array or nothing usable is left.
   */
  function FormatList(v: JsValue): (r: Option<string>)
    ensures r.None? <==> !v.JsArray? || forall k :: 0 <= k < |v.items| ==> ElementText(v.items[k]) == ""
    ensures r.Some? ==> r.value != ""
  {
    match v
    case JsArray(items) =>
      NonEmptyEmpty(ElementTexts(items));
      var texts := FormatTexts(items);
      if texts == [] then None else JoinNonEmpty(texts, ", "); Some(Join(texts, ", "))
    case _ => None
  }

  /** `formatList` of an array joins the usable element texts with `", "`. */
  lemma FormatListJoin(v: JsValue)
    ensures FormatList(v).Some? ==> v.JsArray? && FormatList(v).value == Join(FormatTexts(v.items), ", ")
  {
  }

  lemma JoinNonEmpty(xs: seq<string>, sep: string)
    requires xs != [] && xs[0] != ""
    ensures Join(xs, sep) != ""
  {
    if |xs| > 1 {
      assert Join(xs, sep)[0] == xs[0][0];
    }
  }

  /** Every entry with the blank that `", "` puts after a comma. */
  function Blanked(xs: seq<string>): (r: seq<string>)
    ensures |r| == |xs|
    ensures forall k :: 0 <= k < |xs| ==> r[k] == " " + xs[k]
  {
    if xs == [] then [] else [" " + xs[0]] + Blanked(xs[1..])
  }

  /** Joining with `", "` is joining with `","` after blanking every entry but the first. */
  lemma {:induction false} JoinCommaBlank(xs: seq<string>)
    requires xs != []
    ensures Join(xs, ", ") == Join([xs[0]] + Blanked(xs[1..]), ",")
  {
    if |xs| > 1 {
      BlankedJoin(xs[1..]);
      var parts := [xs[0]] + Blanked(xs[1..]);
      assert parts[1..] == Blanked(xs[1..]);
      assert xs[0] + ", " + Join(xs[1..], ", ") == xs[0] + "," + (" " + Join(xs[1..], ", "));
    }
  }

  lemma {:induction false} BlankedJoin(xs: seq<string>)
    requires xs != []
    ensures " " + Join(xs, ", ") == Join(Blanked(xs), ",")
  {
    if |xs| > 1 {
      BlankedJoin(xs[1..]);
      assert Blanked(xs)[1..] == Blanked(xs[1..]);
      assert " " + (xs[0] + ", " + Join(xs[1..], ", ")) == (" " + xs[0]) + "," + (" " + Join(xs[1..], ", "));
    }
  }

  /**
   * A `", "`-joined string of clean entries parses back to those entries:
   * `parseStringList(xs.join(', '))` is `xs` when no entry is empty, padded or holds a comma.
   */
  lemma ParseStringListJoinBlank(xs: seq<string>)
    requires xs != []
    requires forall k :: 0 <= k < |xs| ==> xs[k] != "" && IsTrimmed(xs[k]) && ',' !in xs[k]
    ensures ParseStringList(JsString(Join(xs, ", "))) == xs
  {
    SplitJoinBlank(xs);
    NonEmptyKeepsAll(xs);
  }

  /** Splitting a `", "`-joined string on commas and trimming the pieces gives the comma-free, trimmed entries back. */
  lemma SplitJoinBlank(xs: seq<string>)
    requires xs != []
    requires forall k :: 0 <= k < |xs| ==> IsTrimmed(xs[k]) && ',' !in xs[k]
    ensures TrimAll(Split(Join(xs, ", "), ',')) == xs
  {
    var parts := [xs[0]] + Blanked(xs[1..]);
    JoinCommaBlank(xs);
    BlankedParts(xs);
    SplitJoin(parts, ',');
  }

  lemma BlankedParts(xs: seq<string>)
    requires xs != []
    requires forall k :: 0 <= k < |xs| ==> IsTrimmed(xs[k]) && ',' !in xs[k]
    ensures var parts := [xs[0]] + Blanked(xs[1..]);
      (forall k :: 0 <= k < |parts| ==> ',' !in parts[k]) && TrimAll(parts) == xs
  {
    var parts := [xs[0]] + Blanked(xs[1..]);
    TrimFixpoint(xs[0]);
    forall k | 1 <= k < |parts| ensures ',' !in parts[k] && Trim(parts[k]) == xs[k] {
      assert parts[k] == " " + xs[k];
      TrimBlank(xs[k]);
    }
    assert TrimAll(parts) == xs;
  }

  /**
   * What `formatList` writes, `parseStringList` reads back: when no element's
   * text holds a comma, parsing the joined string gives the formatted entries.
   */
  lemma FormatListRoundTrip(v: JsValue)
    requires v.JsArray?
    requires forall k :: 0 <= k < |v.items| ==> ',' !in ElementText(v.items[k])
    ensures FormatList(v).Some? ==> ParseStringList(JsString(FormatList(v).value)) == FormatTexts(v.items)
  {
    FormatListJoin(v);
    var texts := FormatTexts(v.items);
    if texts != [] {
      forall k | 0 <= k < |texts| ensures ',' !in texts[k] && IsTrimmed(texts[k]) {
        var j :| 0 <= j < |v.items| && ElementTexts(v.items)[j] == texts[k];
      }
      ParseStringListJoinBlank(texts);
    }
  }

  /** `formatList` over an array of strings (the web record's genre, network and creator lists). */
  function FormatStrings(xs: seq<string>): (r: Option<string>)
    ensures r.None? <==> forall k :: 0 <= k < |xs| ==> Trim(xs[k]) == ""
  {
    FormatList(JsArray(AsJsStrings(xs)))
  }

  /** `formatList` of a string list joins its trimmed non-empty entries with `", "`. */
  lemma FormatStringsJoin(xs: seq<string>)
    ensures FormatStrings(xs).Some? ==> FormatStrings(xs).value == Join(NonEmpty(TrimAll(xs)), ", ")
  {
    assert ElementTexts(AsJsStrings(xs)) == TrimAll(xs);
  }

  function AsJsStrings(xs: seq<string>): (r: seq<JsValue>)
    ensures |r| == |xs|
    ensures forall k :: 0 <= k < |xs| ==> r[k] == JsString(xs[k])
  {
    if xs == [] then [] else [JsString(xs[0])] + AsJsStrings(xs[1..])
  }

  /** The truthy results of applying an extractor, in order (`.map(extractor).filter(Boolean)`). */
  function Extracted<T>(items: seq<T>, extractor: T -> Option<string>): (r: seq<string>)
    ensures |r| <= |items|
    ensures forall k :: 0 <= k < |r| ==> r[k] != ""
  {
    if items == [] then []
    else if Truthy(extractor(items[0])) then [extractor(items[0]).value] + Extracted(items[1..], extractor)
    else Extracted(items[1..], extractor)
  }

  /** Extracting from a concatenation extracts from each part and keeps their order. */
  lemma {:induction false} ExtractedAppend<T>(xs: seq<T>, ys: seq<T>, extractor: T -> Option<string>)
    ensures Extracted(xs + ys, extractor) == Extracted(xs, extractor) + Extracted(ys, extractor)
  {
    if xs == [] {
      assert xs + ys == ys;
    } else {
      assert (xs + ys)[0] == xs[0];
      assert (xs + ys)[1..] == xs[1..] + ys;
      ExtractedAppend(xs[1..], ys, extractor);
    }
  }

  lemma {:induction false} ExtractedEmpty<T>(items: seq<T>, extractor: T -> Option<string>)
    ensures Extracted(items, extractor) == [] <==> forall k :: 0 <= k < |items| ==> !Truthy(extractor(items[k]))
  {
    if items != [] {
      ExtractedEmpty(items[1..], extractor);
      assert forall k :: 1 <= k < |items| ==> items[k] == items[1..][k - 1];
    }
  }

  /**
   * `formatObjectList`: like `formatList`, but each element goes through an
   * extractor and its result is used as it is (not trimmed). `None` for a
   * value that is not an array.
   */
  function FormatObjectList<T>(values: Option<seq<T>>, extractor: T -> Option<string>): (r: Option<string>)
    ensures r.None? <==> values.None? || forall k :: 0 <= k < |values.value| ==> !Truthy(extractor(values.value[k]))
    ensures r.Some? ==> r.value != ""
  {
    match values
    case None => None
    case Some(items) =>
      ExtractedEmpty(items, extractor);
      var texts := Extracted(items, extractor);
      if texts == [] then None else JoinNonEmpty(texts, ", "); Some(Join(texts, ", "))
  }

  /** `formatObjectList` of an array joins the truthy extractor results, in order, with `", "`. */
  lemma FormatObjectListJoin<T>(values: Option<seq<T>>, extractor: T -> Option<string>)
    ensures FormatObjectList(values, extractor).Some? ==>
      values.Some? && FormatObjectList(values, extractor).value == Join(Extracted(values.value, extractor), ", ")
  {
  }

  /**
   * The chain `xs[0] || xs[1] || ... || last`: the first truthy candidate,
   * or `last` (whatever it is) when none is truthy.
   */
  function OrElse(xs: seq<Option<string>>, last: Option<string>): Option<string> {
    if xs == [] then last else if Truthy(xs[0]) then xs[0] else OrElse(xs[1..], last)
  }

  /** Index of the first truthy candidate, `|xs|` when there is none. */
  function FirstTruthy(xs: seq<Option<string>>): (i: nat)
    ensures i <= |xs|
    ensures forall k :: 0 <= k < i ==> !Truthy(xs[k])
    ensures i < |xs| ==> Truthy(xs[i])
  {
    if xs == [] || Truthy(xs[0]) then 0 else 1 + FirstTruthy(xs[1..])
  }

  /** The fallback chain picks the first truthy candidate, or the last operand. */
  lemma {:induction false} OrElseFirstMatch(xs: seq<Option<string>>, last: Option<string>)
    ensures var i := FirstTruthy(xs);
      OrElse(xs, last) == if i < |xs| then xs[i] else last
  {
    if xs != [] && !Truthy(xs[0]) {
      OrElseFirstMatch(xs[1..], last);
    }
  }
}
