/** The two backend operations of overgo-api/backend.py: turning a chat
    into a query (`chat_to_query`) and searching (`search_hotels`). Today's
    date, read from the clock in the source, is a parameter. */
module Backend {

  import opened Wrappers
  import opened Text
  import opened Calendar
  import opened Queries
  import opened Intent
  import opened Providers

  /** What an unhandled exception becomes: a bare status-500 response. */
  const InternalError := HttpError(500, "Internal Server Error")

  /** `chat_to_query`: destination and budget ceiling scanned from the user
      turns, a Friday-to-Sunday stay starting at the first Friday after
      `today`, every other field at its default. It fails in two ways, both
      uncaught and so answered with a bare 500: the date arithmetic running
      past 9999-12-31 (`OverflowError`), and `int()` refusing a budget of
      more digits than the limit (`ValueError`). */
  function ChatToQuery(history: seq<ChatTurn>, today: Day): (r: Result<Query, HttpError>)
    ensures r.Failure? ==> r.error == InternalError
    ensures r.Success? ==> ExtractBudget(UserText(history)).Success?
    ensures r.Success? ==>
      var q := r.value;
      && q.city == ExtractCity(UserText(history))
      && q.budgetMax == ExtractBudget(UserText(history)).value
      && today < q.checkIn <= today + 7
      && Weekday(q.checkIn) == Friday
      && (forall d :: today < d < q.checkIn ==> Weekday(d) != Friday)
      && q.checkOut == q.checkIn + 2
      && Weekday(q.checkOut) == Sunday
      && q.guests == DefaultGuests
      && q.budgetMin.None? && q.amenities.None? && q.sort == Some(DefaultSort)
  {
    var text := UserText(history);
    var city := ExtractCity(text);
    var checkIn := NextFriday(today);
    var checkOut := checkIn + 2;
    FridayThenSunday(checkIn);
    // `today + timedelta(...)` and `check_in + timedelta(days=2)` raise once past the last date.
    // `int(...)` of an over-long budget raises as well.
    var budget := ExtractBudget(text);
    if checkOut > LastDay || budget.Failure? then Failure(InternalError)
    else Success(NewQuery(city, checkIn, checkOut, DefaultGuests, budget.value))
  }

  /** Extraction fails exactly when `today` is 9999-12-24 or later, or the
      leftmost budget has more digits than `int()` accepts. */
  lemma ChatToQueryTotal(history: seq<ChatTurn>, today: Day)
    ensures ChatToQuery(history, today).Success?
      <==> today < LastDay - 7 && ExtractBudget(UserText(history)).Success?
  {
    WeekendFits(today);
  }

  /** On a conversation whose user text has at most 4303 characters, only
      the date can make extraction fail. */
  lemma ChatToQueryShortText(history: seq<ChatTurn>, today: Day)
    requires |UserText(history)| <= MaxStrDigits + 3
    ensures ChatToQuery(history, today).Success? <==> today < LastDay - 7
  {
    ChatToQueryTotal(history, today);
    ShortTextBudgetConverts(UserText(history));
  }

  /** A single user turn "under " followed by more than 4300 digits is
      answered with a 500, whatever the date. */
  lemma OverlongBudgetIsServerError(digits: string, today: Day)
    requires AllIn(digits, 0, |digits|, IsDigit) && |digits| > MaxStrDigits
    ensures ChatToQuery([ChatTurn(UserRole, "under " + digits)], today) == Failure(InternalError)
  {
    var h := [ChatTurn(UserRole, "under " + digits)];
    assert UserContents(h[1..]) == [];
    assert UserText(h) == "under " + digits;
    OverlongBudgetFails(digits);
  }

  /** Extraction reads only the user turns: turns with any other role can
      be dropped without changing the query. */
  lemma ChatToQueryIgnoresOtherRoles(h1: seq<ChatTurn>, t: ChatTurn, h2: seq<ChatTurn>, today: Day)
    requires t.role != UserRole
    ensures ChatToQuery(h1 + [t] + h2, today) == ChatToQuery(h1 + h2, today)
  {
    OtherRolesIgnored(h1, t, h2);
  }

  /** `POST /search`: any provider error becomes a status-500 response whose
      detail is the error message; otherwise the full result list. */
  function SearchEndpoint(q: Query, providerSetting: Option<string>, baseSetting: Option<string>, render: Day -> string)
    : (r: Result<SearchResponse, HttpError>)
    ensures var s := SearchHotels(q, providerSetting, baseSetting, render);
      && (r.Success? <==> s.Success?)
      && (r.Success? ==> r.value.results == s.value)
      && (r.Failure? ==> r.error == HttpError(500, s.error.message))
  {
    match SearchHotels(q, providerSetting, baseSetting, render)
    case Success(results) => Success(SearchResponse(results))
    case Failure(e) => Failure(HttpError(500, e.message))
  }

  /** The search endpoint with the hotelbeds selector, in any case, always
      fails with the not-implemented message. */
  lemma HotelbedsAlwaysFails(q: Query, selector: string, baseSetting: Option<string>, render: Day -> string)
    requires ToLower(selector) == "hotelbeds"
    ensures SearchEndpoint(q, Some(selector), baseSetting, render) == Failure(HttpError(500, HotelbedsMessage))
  {
  }

  /** "HotelBeds" is one such spelling. */
  lemma HotelbedsMixedCase(q: Query, baseSetting: Option<string>, render: Day -> string)
    ensures SearchEndpoint(q, Some("HotelBeds"), baseSetting, render) == Failure(HttpError(500, HotelbedsMessage))
  {
    assert ToLower("HotelBeds") == "hotelbeds";
    HotelbedsAlwaysFails(q, "HotelBeds", baseSetting, render);
  }

  /** An unknown selector fails with a message naming it, lower-cased. */
  lemma UnknownProviderNamed(q: Query, selector: string, baseSetting: Option<string>, render: Day -> string)
    requires ToLower(selector) !in {"mock", "affiliate", "hotelbeds"}
    ensures SearchEndpoint(q, Some(selector), baseSetting, render)
      == Failure(HttpError(500, "Unknown provider: " + ToLower(selector)))
  {
  }
}
