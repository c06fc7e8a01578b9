# Overgo MVP core in Dafny

A model of the core of the Overgo MVP hotel-search assistant:

- the backend's heuristic intent extractor (`chat_to_query` in
  overgo-api/backend.py). It joins the user turns of a conversation, searches
  two regular expressions for a destination and a budget ceiling, and picks a
  Friday-to-Sunday stay starting at the next Friday;
- the search endpoint and the provider layer (overgo-api/providers.py): the
  provider selector, the two-hotel demo catalogue, and the Booking.com deep
  link attached to every result;
- the front end's pure steps (app.py): merging the sidebar's values over the
  extracted query, the query built from the sidebar when none is prepared,
  and the session updates of the "generate", "search" and "clear" buttons.

Modules, in dependency order:

| file | module | what it holds |
|---|---|---|
| wrappers.dfy | `Wrappers` | `Option` and `Result` |
| text.dfy | `Text` | ASCII character classes, maximal runs, decimal digits, `lower`, `strip`, `join`, `split` |
| calendar.dfy | `Calendar` | Python `date` ordinals, `weekday()`, the next-Friday rule |
| links.dfy | `Links` | `BookingLink`, the affiliate link builder, a query-string reader |
| queries.dfy | `Queries` | `GuestCounts`, `HotelQuery`, `ChatTurn`, `HotelCard`, `SearchResponse` |
| intent.dfy | `Intent` | the extraction text and the two leftmost-match scanners |
| providers.dfy | `Providers` | catalogue, selector, dispatch |
| backend.dfy | `Backend` | `chat_to_query` and `POST /search` |
| app.dfy | `App` | sidebar merge, fallback query, session buttons |
| scenarios.dfy | `Scenarios` | concrete conversations and links worked through the model |

Each regular expression is modelled twice and the two are proved to agree:

- as a scanner with the semantics of Python's `re.search`: leftmost position
  first, the left alternative before the right one, and greedy runs;
- as a declarative predicate that says what a match is.

The search itself (`Intent.Search`) states that it returns the first position
where the pattern matches.

Some behaviours the code has that a reader might not expect, all proved:

- The `in` alternative is anchored with `$`, so it only fires when the
  destination phrase ends the text. In "romantic boutique in Lisbon under 300"
  the words " under 300" follow the city, and the text has no "to". The
  destination is therefore the default "Lagos", not "Lisbon", and the budget
  ceiling is 300 (`Scenarios.LisbonHasNoDestination`,
  `Scenarios.LisbonBudget`).
- The `to` capture is greedy over letters and whitespace. "trip to Paris
  under 200" gives the destination "Paris under"
  (`Scenarios.ParisCaptureRunsOn`).
- The check-in day is always strictly after today. On a Friday it is the
  Friday a week later.
- `int()` refuses digit strings longer than 4300 characters, CPython's
  default limit. A budget such as "under " followed by 4301 nines makes
  `chat_to_query` raise, and the endpoint answers 500
  (`Backend.OverlongBudgetIsServerError`). The model assumes an interpreter
  with this default limit: CPython 3.11 or later, or a 2022 security
  release of 3.7 to 3.10.
- The booking link pastes the city and dates into the query string without
  URL-encoding. A city such as "Rio&Co" reads back as "Rio"
  (`Links.UnescapedCityIsCut`).

Environment and clock reads become parameters:

- `PROVIDER` is `providerSetting: Option<string>`.
- `AFFILIATE_BASE` is `baseSetting: Option<string>`.
- Today's date is `today: Day`.
- Rendering a date as ISO text (`str(date)`) is `render: Day -> string`.

## Model

| member | source | states |
|---|---|---|
| Intent.UserContents | overgo-api/backend.py:77 | at most one content per turn; which turns and in what order is fixed by Intent.UserContentsAppend and Intent.OtherRolesIgnored |
| Intent.UserText | overgo-api/backend.py:77 | empty without user turns, otherwise starting with the first user content and ending with the last; Intent.UserTurnAppended gives the separators |
| Text.Join | overgo-api/backend.py:77 | `" ".join` is empty for no parts and otherwise starts with the first part and ends with the last; Text.SplitJoin shows it loses nothing |
| Intent.UserContentsAppend | overgo-api/backend.py:77 | the user contents of a concatenated history are those of each part, concatenated |
| Intent.OtherRolesIgnored | overgo-api/backend.py:77 | a turn whose role is not exactly "user" does not change the joined text |
| Intent.JoinAppend | overgo-api/backend.py:77 | joining one more part appends the separator and that part |
| Intent.UserTurnAppended | overgo-api/backend.py:77 | a new user turn becomes the whole text if it is the first, otherwise it is appended after one space |
| Text.SplitJoin | overgo-api/backend.py:77 | splitting a space-join gives back the parts when no part contains a space, so the join loses nothing |
| Intent.Search | overgo-api/backend.py:78 | `re.search` semantics: a reported position matches and no earlier position does; no report means no position matches |
| Text.RunEnd | overgo-api/backend.py:78 | a greedy `\s+`, `[a-zA-Z\s]+` or `\d+` run: every character in it is in the class, and the character after it is not |
| Text.RunEndUnique | overgo-api/backend.py:78 | greedy repetition has one answer: any run that satisfies the class and stops at a non-member is the one found |
| Intent.SearchFindsFirst | overgo-api/backend.py:78 | the search stops at a matching position when no earlier one matches |
| Intent.CityAlt | overgo-api/backend.py:78 | one alternative at one position: a capture is a capital followed by at least one more letter or space; Intent.CityAltMatches fixes it exactly |
| Intent.CityAt | overgo-api/backend.py:78 | the destination pattern at one position captures a capital followed by letters and spaces; Intent.CityAtMatches fixes it exactly |
| Intent.CityAltMatches | overgo-api/backend.py:78 | the scanner for one alternative `kw\s+([A-Z][a-zA-Z\s]+)` (with `$` for `in`) returns a capture iff that is a match of the alternative |
| Intent.CityAltSound | overgo-api/backend.py:78 | whatever the scanner for one alternative captures is a match of that alternative |
| Intent.CityAltComplete | overgo-api/backend.py:78 | every match of one alternative is the capture the scanner returns |
| Intent.CityAtMatches | overgo-api/backend.py:78 | at one position, the scanner returns the capture of the `in` alternative, or, when that alternative cannot match, of the `to` alternative, iff the pattern matches there |
| Intent.ExtractCity | overgo-api/backend.py:78-79 | the destination is non-empty, starts with a capital, is all ASCII letters and whitespace, does not end in whitespace, and is "Lagos" when nothing matches |
| Intent.ExtractCityLeftmost | overgo-api/backend.py:78-79 | when the leftmost match of the pattern captures `cap`, the destination is `cap` with trailing whitespace stripped |
| Intent.NoPatternDefaultCity | overgo-api/backend.py:79 | when the pattern matches nowhere, the destination is "Lagos" |
| Text.TrimEnd | overgo-api/backend.py:79 | the trailing-space half of `strip()`: a prefix of the text, followed in the text only by whitespace, and not ending in whitespace |
| Text.Strip | overgo-api/backend.py:79 | `strip()` leaves neither end whitespace, and on text that starts with a non-space it only trims the end |
| Intent.KeywordDigits | overgo-api/backend.py:86 | one alternative `kw\s*(\d+)` at one position captures a non-empty digit run that fits after the keyword; Intent.KeywordDigitsMatches fixes it exactly |
| Intent.KeywordDigitsMatches | overgo-api/backend.py:86 | the scanner for `kw\s*(\d+)` returns `cap` iff there is a match capturing the maximal digit run `cap` |
| Intent.BudgetAt | overgo-api/backend.py:86 | the budget pattern at one position captures a non-empty digit run that fits in the text after a keyword of at least three letters; Intent.BudgetAtMatches fixes it exactly |
| Intent.BudgetAtMatches | overgo-api/backend.py:86 | at one position, `under` is tried before `max`, and the scanner agrees with the pattern |
| Text.DigitsValue | overgo-api/backend.py:87 | the base-10 value of a digit run is zero exactly when every digit is 0; Text.DecimalRoundTrip fixes it on canonical texts |
| Text.ParseDecimal | overgo-api/backend.py:87 | `int()` of a digit run succeeds iff it has at most 4300 digits, with its value; otherwise the digit-limit error |
| Text.ParseDecimalRoundTrip | overgo-api/backend.py:87 | `int(str(n))` is `n` whenever `str(n)` is within the limit |
| Intent.ExtractBudget | overgo-api/backend.py:86-87 | no ceiling iff the pattern matches nowhere; otherwise, at the leftmost match, success iff the capture has at most 4300 digits, with its value |
| Intent.ExtractBudgetLeftmost | overgo-api/backend.py:86-87 | the result is the value of the digits captured by the leftmost match, or the digit-limit error when they exceed 4300 |
| Intent.NoPatternNoBudget | overgo-api/backend.py:87 | without a match there is no budget ceiling |
| Intent.ShortTextBudgetConverts | overgo-api/backend.py:86-87 | a text of at most 4303 characters never hits the digit limit |
| Intent.OverlongBudgetFails | overgo-api/backend.py:87 | "under " followed by more than 4300 digits fails with the digit-limit error |
| Text.DecimalRoundTrip | overgo-api/backend.py:87 | `int()` of the decimal text of `n` is `n` |
| Calendar.Weekday | overgo-api/backend.py:82 | `date.weekday()` is in 0..6 |
| Calendar.WeekdayCycle | overgo-api/backend.py:82 | 0001-01-01 is a Monday and 9999-12-31 a Friday, and each next day is the next weekday, wrapping from Sunday to Monday |
| Calendar.DaysUntilFriday | overgo-api/backend.py:82 | the gap is below 7, lands on a Friday, and is 0 exactly on Fridays |
| Calendar.NextFriday | overgo-api/backend.py:82-83 | the check-in day is the first Friday strictly after today, at most 7 days away |
| Calendar.FridayThenSunday | overgo-api/backend.py:84 | two days after a Friday is a Sunday |
| Calendar.WeekendFits | overgo-api/backend.py:83-84 | the Friday-to-Sunday stay fits in Python's date range iff today is before 9999-12-24 |
| Queries.NewQuery | overgo-api/backend.py:17-30 | the fields not passed take their declared defaults: no lower budget, no amenities, sort "recommended" |
| Backend.ChatToQuery | overgo-api/backend.py:70-89 | on success the budget conversion succeeded and the query has the extracted destination and budget, check-in on the next Friday after today, check-out two days later on a Sunday, 2 adults, 0 children and the other defaults; any failure is a 500 response |
| Backend.ChatToQueryTotal | overgo-api/backend.py:81-87 | extraction succeeds exactly when today is before 9999-12-24 and the leftmost budget, if any, has at most 4300 digits |
| Backend.ChatToQueryShortText | overgo-api/backend.py:81-87 | on a user text of at most 4303 characters, extraction succeeds exactly when today is before 9999-12-24 |
| Backend.OverlongBudgetIsServerError | overgo-api/backend.py:70-89 | one user turn "under " followed by more than 4300 digits is answered with a 500 on any date |
| Backend.ChatToQueryIgnoresOtherRoles | overgo-api/backend.py:77 | inserting or removing a non-user turn leaves the whole extracted query unchanged |
| Backend.SearchEndpoint | overgo-api/backend.py:53-59 | the response succeeds iff the provider succeeds, with its results; a provider error becomes status 500 with the error message as detail |
| Backend.HotelbedsAlwaysFails | overgo-api/providers.py:66-83 | every selector that lower-cases to "hotelbeds" fails with status 500 and the not-implemented message |
| Backend.HotelbedsMixedCase | overgo-api/providers.py:66-83 | the spelling "HotelBeds" is one of them |
| Backend.UnknownProviderNamed | overgo-api/providers.py:85 | any other selector fails with "Unknown provider: " followed by the lower-cased selector |
| Links.AffiliateBase | overgo-api/providers.py:28 | an unset base is "https://www.booking.com"; a set one, even empty, is used as is |
| Links.AffiliateLink | overgo-api/providers.py:27-35 | the link is titled "Book on Booking.com", is white-labelled, and its URL starts with the base |
| Links.AffiliateLinkParams | overgo-api/providers.py:31-34 | reading the URL's query string back gives exactly ss=city, checkin, checkout, group_adults=adults, no_rooms=1, group_children=0, in that order |
| Links.AdultsReadBack | overgo-api/providers.py:33 | the `group_adults` value reads back as the adult count |
| Links.UnescapedCityIsCut | overgo-api/providers.py:32 | the city is not escaped: "Rio&Co" reads back as "Rio" |
| Links.QueryParams | overgo-api/providers.py:31-34 | a reader of a URL's query string: no pairs without `?`; Links.AffiliateLinkParams shows what it recovers from a booking link |
| Links.KeyValue | overgo-api/providers.py:32-33 | an item with `=` is key, `=`, value, and the key has no `=` |
| Text.SplitFirst | overgo-api/providers.py:32 | no split iff the character is absent; otherwise the text is before + character + after, with a character-free before |
| Text.SplitFirstAt | overgo-api/providers.py:32 | the first occurrence is the one after a prefix that does not contain it |
| Text.SplitAround | overgo-api/providers.py:32-33 | splitting at `&` peels off the item before the first separator |
| Text.SplitLast | overgo-api/providers.py:32-33 | splitting at `&` puts the item after the last separator last |
| Text.SplitNoSep | overgo-api/providers.py:32-33 | a value without `&` is a single item |
| Text.Decimal | overgo-api/providers.py:33 | the f-string rendering of the adult count is a non-empty digit string without a leading zero |
| Providers.MockInventory | overgo-api/providers.py:37-62 | two items, "demo1" then "demo2", both placed in the requested city |
| Providers.InventoryVariesOnlyInCity | overgo-api/providers.py:37-62 | the catalogues for two cities differ only in the city field |
| Providers.WithBooking | overgo-api/providers.py:73-76 | a result card keeps every catalogue field and adds the booking link |
| Providers.ParseProvider | overgo-api/providers.py:66 | the selector is the lower-cased setting, "affiliate" when unset; each of the three known names maps to its case, and anything else is unknown and keeps its lower-cased name |
| Providers.ParseProviderCaseInsensitive | overgo-api/providers.py:66 | the selector ignores case, and an unset one means affiliate |
| Text.ToLower | overgo-api/providers.py:66 | `lower()` keeps the length and lower-cases each ASCII capital |
| Text.ToLowerIdempotent | overgo-api/providers.py:66 | lower-casing twice is lower-casing once |
| Providers.QueryLink | overgo-api/providers.py:70 | the link for a query is titled and white-labelled, and reads back as the query's city, rendered dates and adult count when no pasted text holds `&` |
| Providers.Catalogue | overgo-api/providers.py:69-77 | two cards, each the catalogue item with the query's one booking link |
| Providers.Dispatch | overgo-api/providers.py:68-85 | mock and affiliate succeed with the catalogue; hotelbeds fails as not implemented; anything else fails as unknown, naming the selector |
| Providers.SearchHotels | overgo-api/providers.py:65-85 | success iff the lower-cased selector is mock or affiliate; the error for hotelbeds and for unknown selectors |
| Providers.SearchResults | overgo-api/providers.py:68-77 | a successful search returns demo1 and demo2 in the query's city, and all results share one link built from the query's city, dates and adults |
| Providers.MockIsAffiliate | overgo-api/providers.py:68 | "mock" and "affiliate" give identical results |
| Providers.OnlyFourFieldsMatter | overgo-api/providers.py:69-70 | results depend only on city, dates and adult count; budget, children, amenities and sort are ignored |
| App.SidebarBudget | app.py:270-271 | a sidebar budget of 0 means unset |
| App.MergeOverrides | app.py:264-271 | a non-empty sidebar city replaces the extracted one; the dates always replace; adults are replaced and children kept; a non-zero budget replaces the ceiling; nothing else changes |
| App.MergeIdempotent | app.py:264-271 | merging the same sidebar twice equals merging once |
| App.FromSidebar | app.py:288-294 | the sidebar-only query has the sidebar's city, dates and adults, no children, a ceiling only when the budget is non-zero, and the other defaults |
| App.FilledSidebarWins | app.py:264-294 | with a city and a budget entered, the merged query agrees with the sidebar-only query on every field the sidebar offers |
| App.SearchQuery | app.py:288 | a prepared query takes precedence over the sidebar query |
| App.GenerateSearch | app.py:258-277 | on success the prepared query is the extracted query with the sidebar merged over it; on failure the session is unchanged; chat and results are untouched |
| App.GeneratedQuery | app.py:258-273 | the prepared query carries the sidebar's dates and adults, and the sidebar's city and budget when entered, otherwise the extracted ones |
| App.RunSearch | app.py:287-305 | results are replaced by the search response on success and kept on failure; chat and prepared query are untouched |
| App.ClearResults | app.py:308-311 | results are emptied and the prepared query is removed; the chat stays |
| App.SearchAfterClear | app.py:308-311 | after clearing, the next search uses the sidebar-only query |
| Scenarios.LisbonHasNoDestination | overgo-api/backend.py:78-79 | "romantic boutique in Lisbon under 300" gives the destination "Lagos" |
| Scenarios.LisbonBudget | overgo-api/backend.py:86-87 | the same text gives the budget ceiling 300 |
| Scenarios.ParisCaptureRunsOn | overgo-api/backend.py:78-79 | "trip to Paris under 200" gives the destination "Paris under" |
| Scenarios.LagosLinkForThree | overgo-api/providers.py:31-34 | the default-base link for three adults in Lagos carries group_adults=3, one room and no children |

## Left out

- User interface: the Streamlit layout, styling, result cards and messages of app.py are presentation only.
- HTTP transport: FastAPI routing, JSON (de)serialisation, `httpx` calls and their timeouts. The app's calls to the backend are replaced by the backend operations they reach. A transport failure would leave the session unchanged, like any other failure.
- `/health` and the `async` execution model; the core has no concurrency that affects results.
- Environment variables, the clock and date formatting are parameters (see above).
- The `os.environ["PROVIDER"] = provider` write in app.py:295. It sets the variable in the front end's process, while the dispatcher reads the backend's environment. The model therefore keeps the sidebar's provider choice separate from `providerSetting`.
- Floats (rating, price) are opaque literals. No arithmetic is done on them.
- Character classes are ASCII. Python's `\s`, `\d` and `lower()` also act on other Unicode characters: `\s` matches U+00A0 and other Unicode spaces, `\d` matches non-ASCII digits, and `lower()` maps non-ASCII capitals. The model covers ASCII only. (`[A-Z]` and `[a-zA-Z]` are ASCII-only in Python too, since the pattern has no IGNORECASE flag.)
- Pydantic validation beyond adults ≥ 1, and the string-typed duplicate `HotelQuery` in overgo-api/providers.py:15-23. The dispatcher is modelled on the typed query.
- App.MergeOverrides: the create branch of `setdefault("guests", {})` is not modelled. The merge input is always a complete query returned by the backend, so `guests` is always present.
- Links.AffiliateLink: rendering an adult count of more than 4300 digits with `str()` would raise as well; this is not modelled, because such a count cannot be decoded from a request body in the first place.
- The Hotelbeds request signing is only a comment in the source (overgo-api/providers.py:80-82). The branch is modelled as the error it raises.
- App.FromSidebar: the sidebar's default dates (today + 7 and today + 9) are not modelled. The model takes the dates the sidebar holds.
