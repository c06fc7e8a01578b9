/** The provider layer (overgo-api/providers.py): the fixed demo catalogue,
    the provider selector and the dispatch that attaches one shared booking
    link to every result. The `PROVIDER` and `AFFILIATE_BASE` environment
    variables are explicit parameters, and turning a day into its ISO text
    (`str(date)`) is the parameter `render`. */
module Providers {

  import opened Wrappers
  import opened Text
  import opened Calendar
  import opened Links
  import opened Queries

  /** A catalogue entry before its booking link is attached. */
  datatype Listing = Listing(
    id: string,
    name: string,
    city: string,
    rating: Float,
    reviewCount: int,
    priceTotal: Float,
    currency: string,
    imageUrl: string,
    summary: string)

  /** `_mock_inventory(city)`: the two demo hotels, placed in `city`. */
  function MockInventory(city: string): (items: seq<Listing>)
    ensures |items| == 2 && items[0].id == "demo1" && items[1].id == "demo2"
    ensures forall i :: 0 <= i < |items| ==> items[i].city == city
  {
    [ Listing("demo1", "Overgo Collection \U{E2}\U{20AC}\U{201C} Marina View", city,
              Float("9.2"), 1240, Float("320.0"), "USD",
              "https://images.unsplash.com/photo-1502920917128-1aa500764b8a",
              "Design-forward boutique with spa & rooftop pool."),
      Listing("demo2", "Maison du Parc", city,
              Float("8.9"), 860, Float("240.0"), "USD",
              "https://images.unsplash.com/photo-1551776235-dde6d4829808",
              "Quiet luxury near city gardens; perfect for couples.") ]
  }

  /** Only the city of the catalogue depends on the argument. */
  lemma InventoryVariesOnlyInCity(a: string, b: string)
    ensures forall i :: 0 <= i < 2 ==> MockInventory(a)[i].(city := b) == MockInventory(b)[i]
  {
  }

  /** `{**item, "booking": {...}}` read as a `HotelCard`: every catalogue
      field is kept and the booking link is added. */
  function WithBooking(item: Listing, link: BookingLink): (card: HotelCard)
    ensures card.id == item.id && card.name == item.name && card.city == item.city
    ensures card.rating == Some(item.rating) && card.reviewCount == Some(item.reviewCount)
    ensures card.priceTotal == Some(item.priceTotal) && card.currency == Some(item.currency)
    ensures card.imageUrl == Some(item.imageUrl) && card.summary == Some(item.summary)
    ensures card.booking == link
  {
    HotelCard(item.id, item.name, item.city, Some(item.rating), Some(item.reviewCount),
              Some(item.priceTotal), Some(item.currency), Some(item.imageUrl), Some(item.summary), link)
  }

  /** The provider selector as a closed set of cases; any other lower-cased
      selector is kept so that the error can name it. */
  datatype Provider = Mock | Affiliate | Hotelbeds | Unknown(name: string)

  const DefaultProvider := "affiliate"

  /** `os.getenv("PROVIDER", "affiliate").lower()` read as a `Provider`. */
  function ParseProvider(setting: Option<string>): (p: Provider)
    ensures var sel := ToLower(setting.GetOr(DefaultProvider));
      && (p == Mock <==> sel == "mock")
      && (p == Affiliate <==> sel == "affiliate")
      && (p == Hotelbeds <==> sel == "hotelbeds")
      && (p.Unknown? <==> sel !in {"mock", "affiliate", "hotelbeds"})
      && (p.Unknown? ==> p.name == sel)
  {
    var sel := ToLower(setting.GetOr(DefaultProvider));
    if sel == "mock" then Mock
    else if sel == "affiliate" then Affiliate
    else if sel == "hotelbeds" then Hotelbeds
    else Unknown(sel)
  }

  /** The selector ignores case, and an unset one means "affiliate". */
  lemma ParseProviderCaseInsensitive(setting: string)
    ensures ParseProvider(Some(setting)) == ParseProvider(Some(ToLower(setting)))
    ensures ParseProvider(None) == Affiliate
  {
    ToLowerIdempotent(setting);
    assert ToLower(DefaultProvider) == DefaultProvider;
  }

  /** `NotImplementedError` and `ValueError` raised by the dispatcher. */
  datatype ProviderError =
    | NotImplemented(message: string)
    | UnknownProvider(message: string)

  const HotelbedsMessage := "Integrate Hotelbeds shopping/booking once partner keys are available."
  const UnknownPrefix := "Unknown provider: "

  /** The booking link for a query: a reader of its query string gets back
      the query's city, both rendered dates and its adult count, whenever
      none of the pasted-in texts holds an `&` and the base has no `?`. */
  function QueryLink(q: Query, base: string, render: Day -> string): (link: BookingLink)
    ensures link.title == BookingLabel && link.whiteLabel
    ensures '?' !in base && '&' !in q.city && '&' !in render(q.checkIn) && '&' !in render(q.checkOut) ==>
      QueryParams(link.url)
        == [("ss", q.city), ("checkin", render(q.checkIn)), ("checkout", render(q.checkOut)),
            ("group_adults", Decimal(q.guests.adults)), ("no_rooms", "1"), ("group_children", "0")]
  {
    var checkIn, checkOut := render(q.checkIn), render(q.checkOut);
    if '?' !in base && '&' !in q.city && '&' !in checkIn && '&' !in checkOut then
      AffiliateLinkParams(base, q.city, checkIn, checkOut, q.guests.adults);
      AffiliateLink(base, q.city, checkIn, checkOut, q.guests.adults)
    else
      AffiliateLink(base, q.city, checkIn, checkOut, q.guests.adults)
  }

  /** The two catalogue items, each with the query's one booking link. */
  function Catalogue(q: Query, base: string, render: Day -> string): (cards: seq<HotelCard>)
    ensures |cards| == 2
    ensures forall i :: 0 <= i < 2 ==> cards[i] == WithBooking(MockInventory(q.city)[i], QueryLink(q, base, render))
  {
    var items := MockInventory(q.city);
    var book := QueryLink(q, base, render);
    seq(|items|, i requires 0 <= i < |items| => WithBooking(items[i], book))
  }

  /** One handler per provider: mock and affiliate both return the
      catalogue, hotelbeds is not implemented, anything else is unknown. */
  function Dispatch(q: Query, provider: Provider, base: string, render: Day -> string): (r: Result<seq<HotelCard>, ProviderError>)
    ensures r.Success? <==> provider == Mock || provider == Affiliate
    ensures r.Success? ==> r.value == Catalogue(q, base, render)
    ensures provider == Hotelbeds ==> r == Failure(NotImplemented(HotelbedsMessage))
    ensures provider.Unknown? ==> r == Failure(UnknownProvider(UnknownPrefix + provider.name))
  {
    match provider
    case Mock => Success(Catalogue(q, base, render))
    case Affiliate => Success(Catalogue(q, base, render))
    case Hotelbeds => Failure(NotImplemented(HotelbedsMessage))
    case Unknown(name) => Failure(UnknownProvider(UnknownPrefix + name))
  }

  /** `search_hotels_via_provider(q)` with the two environment variables
      passed in. */
  function SearchHotels(q: Query, providerSetting: Option<string>, baseSetting: Option<string>, render: Day -> string)
    : (r: Result<seq<HotelCard>, ProviderError>)
    ensures var sel := ToLower(providerSetting.GetOr(DefaultProvider));
      && (r.Success? <==> sel == "mock" || sel == "affiliate")
      && (sel == "hotelbeds" ==> r == Failure(NotImplemented(HotelbedsMessage)))
      && (sel !in {"mock", "affiliate", "hotelbeds"} ==> r == Failure(UnknownProvider(UnknownPrefix + sel)))
  {
    Dispatch(q, ParseProvider(providerSetting), AffiliateBase(baseSetting), render)
  }

  /** A successful search returns the two catalogue hotels in order, placed
      in the query's city, every one carrying the same booking link, whose
      parameters are the query's city, dates and adult count. */
  lemma SearchResults(q: Query, providerSetting: Option<string>, baseSetting: Option<string>, render: Day -> string)
    requires SearchHotels(q, providerSetting, baseSetting, render).Success?
    ensures var cards := SearchHotels(q, providerSetting, baseSetting, render).value;
      var link := AffiliateLink(AffiliateBase(baseSetting), q.city, render(q.checkIn), render(q.checkOut), q.guests.adults);
      && |cards| == 2
      && cards[0].id == "demo1" && cards[1].id == "demo2"
      && (forall i :: 0 <= i < 2 ==> cards[i].city == q.city && cards[i].booking == link)
      && (forall i, j :: 0 <= i < 2 && 0 <= j < 2 ==> cards[i].booking == cards[j].booking)
  {
  }

  /** The mock and affiliate selectors give identical results. */
  lemma MockIsAffiliate(q: Query, baseSetting: Option<string>, render: Day -> string)
    ensures SearchHotels(q, Some("mock"), baseSetting, render) == SearchHotels(q, Some("affiliate"), baseSetting, render)
  {
    assert ToLower("mock") == "mock";
    assert ToLower("affiliate") == "affiliate";
  }

  /** Results depend on the city, the two dates and the adult count only:
      budget, children, amenities and sort have no effect. */
  lemma OnlyFourFieldsMatter(q1: Query, q2: Query, providerSetting: Option<string>, baseSetting: Option<string>, render: Day -> string)
    requires q1.city == q2.city && q1.checkIn == q2.checkIn && q1.checkOut == q2.checkOut
    requires q1.guests.adults == q2.guests.adults
    ensures SearchHotels(q1, providerSetting, baseSetting, render) == SearchHotels(q2, providerSetting, baseSetting, render)
  {
  }
}
