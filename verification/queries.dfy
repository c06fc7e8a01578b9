/** The backend's data model (overgo-api/backend.py): guest counts, the
    structured hotel query with its defaults, chat turns, result cards and
    the HTTP error a failed request turns into. Pydantic validation is
    reduced to the one constraint the source states, adults >= 1, which the
    types carry. */
module Queries {

  import opened Wrappers
  import opened Calendar
  import opened Links

  /** A count of at least one (`Field(ge=1)`). */
  type PosInt = n: int | n >= 1 witness 1

  datatype Guests = Guests(adults: PosInt, children: int)

  /** `GuestCounts()`: two adults, no children. */
  const DefaultGuests := Guests(2, 0)

  /** Default of the `sort` field. */
  const DefaultSort := "recommended"

  /** `HotelQuery`. Dates are calendar days; `sort` and the budget bounds
      are optional exactly as in the source. */
  datatype Query = Query(
    city: string,
    checkIn: Day,
    checkOut: Day,
    guests: Guests,
    budgetMin: Option<int>,
    budgetMax: Option<int>,
    amenities: Option<seq<string>>,
    sort: Option<string>)

  /** `HotelQuery(city=..., check_in=..., check_out=..., guests=...,
      budget_max=...)`: the fields not passed take their declared defaults. */
  function NewQuery(city: string, checkIn: Day, checkOut: Day, guests: Guests, budgetMax: Option<int>): (q: Query)
    ensures q.city == city && q.checkIn == checkIn && q.checkOut == checkOut
    ensures q.guests == guests && q.budgetMax == budgetMax
    ensures q.budgetMin.None? && q.amenities.None? && q.sort == Some(DefaultSort)
  {
    Query(city, checkIn, checkOut, guests, None, budgetMax, None, Some(DefaultSort))
  }

  /** One message of the conversation; `role` is free text such as "user"
      or "assistant". */
  datatype ChatTurn = ChatTurn(role: string, content: string)

  /** Stand-in for a Python float, kept as its source literal: no
      arithmetic is done on ratings or prices anywhere in the core. */
  datatype Float = Float(literal: string)

  /** `HotelCard`: one search result with its booking link. */
  datatype HotelCard = HotelCard(
    id: string,
    name: string,
    city: string,
    rating: Option<Float>,
    reviewCount: Option<int>,
    priceTotal: Option<Float>,
    currency: Option<string>,
    imageUrl: Option<string>,
    summary: Option<string>,
    booking: BookingLink)

  /** `SearchResponse`. */
  datatype SearchResponse = SearchResponse(results: seq<HotelCard>)

  /** An HTTP error response: status code and `detail` text. */
  datatype HttpError = HttpError(status: int, detail: string)
}
