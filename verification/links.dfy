/** The outbound booking link attached to every search result
    (`_affiliate_link` and `BookingLink` in overgo-api/providers.py), and a
    reader for the query string of such a link, the partner that shows which
    parameters the link really carries. */
module Links {

  import opened Wrappers
  import opened Text

  /** Display text (the source's `label`), target URL, and whether the target is a white-labelled
      surface rather than a raw affiliate redirect. */
  datatype BookingLink = BookingLink(title: string, url: string, whiteLabel: bool)

  /** Origin used when `AFFILIATE_BASE` is not set. */
  const DefaultBase := "https://www.booking.com"
  const BookingLabel := "Book on Booking.com"
  const SearchPath := "/searchresults.html"

  /** `os.getenv("AFFILIATE_BASE", "https://www.booking.com")`: a set but
      empty variable is used as is. */
  function AffiliateBase(setting: Option<string>): (base: string)
    ensures setting.None? ==> base == DefaultBase
    ensures setting.Some? ==> base == setting.value
  {
    setting.GetOr(DefaultBase)
  }

  /** The deep link to a destination search page. Nothing is URL-encoded:
      `city` and the date texts are pasted into the query string verbatim. */
  function AffiliateLink(base: string, city: string, checkIn: string, checkOut: string, adults: nat): (link: BookingLink)
    ensures link.title == BookingLabel && link.whiteLabel
    ensures |base| <= |link.url| && link.url[..|base|] == base
  {
    var url := base + SearchPath + "?" + LinkQuery(city, checkIn, checkOut, adults);
    assert url[..|base|] == base;
    BookingLink(BookingLabel, url, true)
  }

  /** The query string of the link, after its `?`. */
  function LinkQuery(city: string, checkIn: string, checkOut: string, adults: nat): string {
    "ss=" + city + "&checkin=" + checkIn + "&checkout=" + checkOut
      + "&group_adults=" + Decimal(adults) + "&no_rooms=1&group_children=0"
  }

  /** One `key=value` item of a query string, split at its first `=`; an
      item without `=` is a key with an empty value. */
  function KeyValue(item: string): (kv: (string, string))
    ensures '=' in item ==> item == kv.0 + "=" + kv.1 && '=' !in kv.0
    ensures '=' !in item ==> kv == (item, "")
  {
    match SplitFirst(item, '=')
    case Some(parts) => parts
    case None => (item, "")
  }

  /** The `key=value` pairs after the first `?` of a URL, in order, split at
      every `&`; no pairs when the URL has no `?`. */
  function QueryParams(url: string): (params: seq<(string, string)>)
    ensures '?' !in url ==> params == []
  {
    match SplitFirst(url, '?')
    case None => []
    case Some(parts) =>
      var items := Split(parts.1, '&');
      seq(|items|, i requires 0 <= i < |items| => KeyValue(items[i]))
  }

  /** Appending `&` and one more item to a query string adds that item to
      its split. */
  lemma AppendItem(q: string, prefix: string, value: string)
    requires |prefix| >= 1 && prefix[0] == '&'
    requires '&' !in prefix[1..] && '&' !in value
    ensures Split(q + prefix + value, '&') == Split(q, '&') + [prefix[1..] + value]
  {
    assert q + prefix + value == q + "&" + (prefix[1..] + value);
    SplitLast(q, prefix[1..] + value, '&');
  }

  /** The items of the link's query string, one per parameter, when the
      pasted-in texts hold no `&`. */
  lemma LinkQueryItems(city: string, checkIn: string, checkOut: string, adults: nat)
    requires '&' !in city && '&' !in checkIn && '&' !in checkOut
    ensures Split(LinkQuery(city, checkIn, checkOut, adults), '&')
      == ["ss=" + city, "checkin=" + checkIn, "checkout=" + checkOut,
          "group_adults=" + Decimal(adults), "no_rooms=1", "group_children=0"]
  {
    var n := Decimal(adults);
    assert '&' !in n;
    ItemsOf(city, checkIn, checkOut, n);
  }

  lemma ItemsOf(city: string, checkIn: string, checkOut: string, n: string)
    requires '&' !in city && '&' !in checkIn && '&' !in checkOut && '&' !in n
    ensures Split("ss=" + city + "&checkin=" + checkIn + "&checkout=" + checkOut
                  + "&group_adults=" + n + "&no_rooms=1&group_children=0", '&')
      == ["ss=" + city, "checkin=" + checkIn, "checkout=" + checkOut,
          "group_adults=" + n, "no_rooms=1", "group_children=0"]
  {
    var head := "ss=" + city + "&checkin=" + checkIn + "&checkout=" + checkOut;
    HeadItems(city, checkIn, checkOut);
    TailItems(head, n);
  }

  lemma HeadItems(city: string, checkIn: string, checkOut: string)
    requires '&' !in city && '&' !in checkIn && '&' !in checkOut
    ensures Split("ss=" + city + "&checkin=" + checkIn + "&checkout=" + checkOut, '&')
      == ["ss=" + city, "checkin=" + checkIn, "checkout=" + checkOut]
  {
    var q0 := "ss=" + city;
    SplitNoSep(q0, '&');
    AppendItem(q0, "&checkin=", checkIn);
    AppendItem(q0 + "&checkin=" + checkIn, "&checkout=", checkOut);
  }

  lemma TailItems(q: string, n: string)
    requires '&' !in n
    ensures Split(q + "&group_adults=" + n + "&no_rooms=1&group_children=0", '&')
      == Split(q, '&') + ["group_adults=" + n, "no_rooms=1", "group_children=0"]
  {
    var q3 := q + "&group_adults=" + n;
    AppendItem(q, "&group_adults=", n);
    AppendItem(q3, "&no_rooms=", "1");
    AppendItem(q3 + "&no_rooms=" + "1", "&group_children=", "0");
    assert q3 + "&no_rooms=" + "1" + "&group_children=" + "0" == q3 + "&no_rooms=1&group_children=0";
    assert "&no_rooms="[1..] + "1" == "no_rooms=1";
    assert "&group_children="[1..] + "0" == "group_children=0";
    assert "&group_adults="[1..] + n == "group_adults=" + n;
  }

  /** The parameters a reader of an affiliate link recovers: the city, both
      dates and the adult count as given, and the fixed room and child
      counts — provided the base has no `?` and the city and date texts have
      no `&`, which the builder never escapes. */
  lemma AffiliateLinkParams(base: string, city: string, checkIn: string, checkOut: string, adults: nat)
    requires '?' !in base
    requires '&' !in city && '&' !in checkIn && '&' !in checkOut
    ensures QueryParams(AffiliateLink(base, city, checkIn, checkOut, adults).url)
      == [("ss", city), ("checkin", checkIn), ("checkout", checkOut),
          ("group_adults", Decimal(adults)), ("no_rooms", "1"), ("group_children", "0")]
  {
    var n := Decimal(adults);
    var url := AffiliateLink(base, city, checkIn, checkOut, adults).url;
    LinkUrlShape(base, city, checkIn, checkOut, adults);
    LinkQueryItems(city, checkIn, checkOut, adults);
    var items := ["ss=" + city, "checkin=" + checkIn, "checkout=" + checkOut,
                  "group_adults=" + n, "no_rooms=1", "group_children=0"];
    var pairs := [("ss", city), ("checkin", checkIn), ("checkout", checkOut),
                  ("group_adults", n), ("no_rooms", "1"), ("group_children", "0")];
    ItemsArePairs(city, checkIn, checkOut, n);
    PairsOf(url, items, pairs);
  }

  /** Each query item is its key, `=` and its value. */
  lemma ItemsArePairs(city: string, checkIn: string, checkOut: string, n: string)
    ensures var items := ["ss=" + city, "checkin=" + checkIn, "checkout=" + checkOut,
                          "group_adults=" + n, "no_rooms=1", "group_children=0"];
      var pairs := [("ss", city), ("checkin", checkIn), ("checkout", checkOut),
                    ("group_adults", n), ("no_rooms", "1"), ("group_children", "0")];
      forall i :: 0 <= i < 6 ==> '=' !in pairs[i].0 && items[i] == pairs[i].0 + "=" + pairs[i].1
  {
  }

  /** The link is the base and search path, `?`, then the query string. */
  lemma LinkUrlShape(base: string, city: string, checkIn: string, checkOut: string, adults: nat)
    requires '?' !in base
    ensures SplitFirst(AffiliateLink(base, city, checkIn, checkOut, adults).url, '?')
      == Some((base + SearchPath, LinkQuery(city, checkIn, checkOut, adults)))
  {
    assert '?' !in base + SearchPath;
    SplitFirstAt(base + SearchPath, LinkQuery(city, checkIn, checkOut, adults), '?');
  }

  /** A URL whose query string splits into items written as `key=value`,
      with `=`-free keys, reads back as those `(key, value)` pairs. */
  lemma PairsOf(url: string, items: seq<string>, pairs: seq<(string, string)>)
    requires SplitFirst(url, '?').Some? && Split(SplitFirst(url, '?').value.1, '&') == items
    requires |items| == |pairs|
    requires forall i :: 0 <= i < |items| ==> '=' !in pairs[i].0 && items[i] == pairs[i].0 + "=" + pairs[i].1
    ensures QueryParams(url) == pairs
  {
    forall i | 0 <= i < |items|
      ensures KeyValue(items[i]) == pairs[i]
    {
      SplitFirstAt(pairs[i].0, pairs[i].1, '=');
    }
  }

  /** Reading `group_adults` back as a number gives the adult count. */
  lemma AdultsReadBack(base: string, city: string, checkIn: string, checkOut: string, adults: nat)
    requires '?' !in base
    requires '&' !in city && '&' !in checkIn && '&' !in checkOut
    ensures var p := QueryParams(AffiliateLink(base, city, checkIn, checkOut, adults).url);
      |p| == 6 && p[3].0 == "group_adults" && AllIn(p[3].1, 0, |p[3].1|, IsDigit) && DigitsValue(p[3].1) == adults
  {
    AffiliateLinkParams(base, city, checkIn, checkOut, adults);
    DecimalRoundTrip(adults);
  }

  /** Because the city is not escaped, a city holding `&` is cut short by a
      reader: "Rio&Co" comes back as "Rio". */
  lemma UnescapedCityIsCut(base: string, checkIn: string, checkOut: string, adults: nat)
    requires '?' !in base
    ensures QueryParams(AffiliateLink(base, "Rio&Co", checkIn, checkOut, adults).url)[0] == ("ss", "Rio")
  {
    var url := AffiliateLink(base, "Rio&Co", checkIn, checkOut, adults).url;
    LinkUrlShape(base, "Rio&Co", checkIn, checkOut, adults);
    FirstParam(url);
    CutItems(checkIn, checkOut, adults);
    RioPair();
  }

  /** The cut item reads as the pair ("ss", "Rio"). */
  lemma RioPair()
    ensures KeyValue("ss=Rio") == ("ss", "Rio")
  {
    SplitFirstAt("ss", "Rio", '=');
    assert "ss" + "=" + "Rio" == "ss=Rio";
  }

  /** The first pair of a URL's query string comes from its first item. */
  lemma FirstParam(url: string)
    requires SplitFirst(url, '?').Some?
    ensures QueryParams(url)[0] == KeyValue(Split(SplitFirst(url, '?').value.1, '&')[0])
  {
  }

  /** The first item of the query string for "Rio&Co" ends at its `&`. */
  lemma CutItems(checkIn: string, checkOut: string, adults: nat)
    ensures Split(LinkQuery("Rio&Co", checkIn, checkOut, adults), '&')[0] == "ss=Rio"
  {
    var n := Decimal(adults);
    var rest := "Co&checkin=" + checkIn + "&checkout=" + checkOut
      + "&group_adults=" + n + "&no_rooms=1&group_children=0";
    CutQuery(checkIn, checkOut, n);
    SplitAround("ss=Rio", rest, '&');
  }

  /** The query string for "Rio&Co" has an `&` right after "ss=Rio". */
  lemma CutQuery(checkIn: string, checkOut: string, n: string)
    ensures "ss=" + "Rio&Co" + "&checkin=" + checkIn + "&checkout=" + checkOut
        + "&group_adults=" + n + "&no_rooms=1&group_children=0"
      == "ss=Rio" + "&" + ("Co&checkin=" + checkIn + "&checkout=" + checkOut
        + "&group_adults=" + n + "&no_rooms=1&group_children=0")
  {
    assert "ss=" + "Rio&Co" == "ss=Rio" + "&" + "Co";
  }
}
