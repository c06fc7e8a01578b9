/** The front end's pure steps (app.py): merging the sidebar's explicit
    values over the extracted query, the query used when none has been
    prepared, and the session updates of the three buttons. The HTTP calls
    are replaced by the backend operations they reach. */
module App {

  import opened Wrappers
  import opened Calendar
  import opened Queries
  import opened Backend

  /** The sidebar inputs: free-text destination, two dates, an adult count
      of at least one and a budget that is 0 when not set. */
  datatype Sidebar = Sidebar(city: string, checkIn: Day, checkOut: Day, adults: PosInt, maxBudget: nat)

  /** The sidebar budget as an optional ceiling: unset when it is 0. */
  function SidebarBudget(sb: Sidebar): (b: Option<int>)
    ensures b.None? <==> sb.maxBudget == 0
    ensures b.Some? ==> b.value == sb.maxBudget
  {
    if sb.maxBudget != 0 then Some(sb.maxBudget) else None
  }

  /** "Override with sidebar when set": a non-empty sidebar city replaces
      the extracted one, the dates always replace the extracted ones, the
      adult count is replaced while the other guest counts stay, and a
      non-zero sidebar budget replaces the ceiling. Nothing else changes. */
  function MergeOverrides(q: Query, sb: Sidebar): (m: Query)
    ensures sb.city != "" ==> m.city == sb.city
    ensures sb.city == "" ==> m.city == q.city
    ensures m.checkIn == sb.checkIn && m.checkOut == sb.checkOut
    ensures m.guests.adults == sb.adults && m.guests.children == q.guests.children
    ensures sb.maxBudget != 0 ==> m.budgetMax == Some(sb.maxBudget)
    ensures sb.maxBudget == 0 ==> m.budgetMax == q.budgetMax
    ensures m.budgetMin == q.budgetMin && m.amenities == q.amenities && m.sort == q.sort
  {
    var city := if sb.city != "" then sb.city else q.city;
    var budgetMax := if sb.maxBudget != 0 then Some(sb.maxBudget) else q.budgetMax;
    q.(city := city, checkIn := sb.checkIn, checkOut := sb.checkOut,
       guests := q.guests.(adults := sb.adults), budgetMax := budgetMax)
  }

  /** Merging the same sidebar twice is merging it once. */
  lemma MergeIdempotent(q: Query, sb: Sidebar)
    ensures MergeOverrides(MergeOverrides(q, sb), sb) == MergeOverrides(q, sb)
  {
  }

  /** The query built from the sidebar alone; the keys it leaves out
      (children, lower budget, amenities, sort) take the backend's
      defaults when it is read. */
  function FromSidebar(sb: Sidebar): (q: Query)
    ensures q.city == sb.city && q.checkIn == sb.checkIn && q.checkOut == sb.checkOut
    ensures q.guests == Guests(sb.adults, 0)
    ensures q.budgetMax.None? <==> sb.maxBudget == 0
    ensures q.budgetMax.Some? ==> q.budgetMax.value == sb.maxBudget
    ensures q.budgetMin.None? && q.amenities.None? && q.sort == Some(DefaultSort)
  {
    NewQuery(sb.city, sb.checkIn, sb.checkOut, Guests(sb.adults, 0), SidebarBudget(sb))
  }

  /** With a destination and a budget entered, the merge takes every
      field the sidebar offers: on those fields the merged query is the
      sidebar-only query, whatever was extracted. */
  lemma FilledSidebarWins(q: Query, sb: Sidebar)
    requires sb.city != "" && sb.maxBudget != 0
    ensures var m, f := MergeOverrides(q, sb), FromSidebar(sb);
      && m.city == f.city && m.checkIn == f.checkIn && m.checkOut == f.checkOut
      && m.guests.adults == f.guests.adults && m.budgetMax == f.budgetMax
  {
  }

  /** `q or {...}`: a prepared query takes precedence; otherwise one is
      built from the sidebar. */
  function SearchQuery(prepared: Option<Query>, sb: Sidebar): (q: Query)
    ensures prepared.Some? ==> q == prepared.value
    ensures prepared.None? ==> q == FromSidebar(sb)
  {
    match prepared
    case Some(p) => p
    case None => FromSidebar(sb)
  }

  /** The session state the buttons act on. */
  datatype Session = Session(chat: seq<ChatTurn>, lastQuery: Option<Query>, results: seq<HotelCard>)

  /** "Generate search from chat": extract from the whole chat, merge the
      sidebar over it and keep it as the prepared query; on failure the
      session is left as it was. */
  function GenerateSearch(s: Session, today: Day, sb: Sidebar): (t: Session)
    ensures t.chat == s.chat && t.results == s.results
    ensures ChatToQuery(s.chat, today).Failure? ==> t == s
    ensures ChatToQuery(s.chat, today).Success? ==>
      t.lastQuery == Some(MergeOverrides(ChatToQuery(s.chat, today).value, sb))
  {
    match ChatToQuery(s.chat, today)
    case Success(q) => s.(lastQuery := Some(MergeOverrides(q, sb)))
    case Failure(_) => s
  }

  /** When extraction succeeds, the prepared query carries the sidebar's
      dates and adult count, the extracted destination unless one was
      entered, and the extracted budget unless one was entered. */
  lemma GeneratedQuery(s: Session, today: Day, sb: Sidebar)
    requires today < LastDay - 7 && Intent.ExtractBudget(Intent.UserText(s.chat)).Success?
    ensures var t := GenerateSearch(s, today, sb);
      var text := Intent.UserText(s.chat);
      && t.lastQuery.Some?
      && t.lastQuery.value.checkIn == sb.checkIn && t.lastQuery.value.checkOut == sb.checkOut
      && t.lastQuery.value.guests == Guests(sb.adults, 0)
      && t.lastQuery.value.city == (if sb.city != "" then sb.city else Intent.ExtractCity(text))
      && t.lastQuery.value.budgetMax == (if sb.maxBudget != 0 then Some(sb.maxBudget) else Intent.ExtractBudget(text).value)
  {
    ChatToQueryTotal(s.chat, today);
  }

  /** "Search hotels": search with the prepared query, or the sidebar
      query when none is prepared, and show the results; on failure the
      shown results stay. The prepared query itself is not changed. */
  function RunSearch(s: Session, sb: Sidebar, providerSetting: Option<string>, baseSetting: Option<string>, render: Day -> string)
    : (t: Session)
    ensures t.chat == s.chat && t.lastQuery == s.lastQuery
    ensures var r := SearchEndpoint(SearchQuery(s.lastQuery, sb), providerSetting, baseSetting, render);
      && (r.Success? ==> t.results == r.value.results)
      && (r.Failure? ==> t.results == s.results)
  {
    match SearchEndpoint(SearchQuery(s.lastQuery, sb), providerSetting, baseSetting, render)
    case Success(response) => s.(results := response.results)
    case Failure(_) => s
  }

  /** "Clear results": no results and no prepared query; the chat stays. */
  function ClearResults(s: Session): (t: Session)
    ensures t.results == [] && t.lastQuery.None?
    ensures t.chat == s.chat
  {
    s.(results := [], lastQuery := None)
  }

  /** After clearing, a search uses the sidebar query. */
  lemma SearchAfterClear(s: Session, sb: Sidebar)
    ensures SearchQuery(ClearResults(s).lastQuery, sb) == FromSidebar(sb)
  {
  }
}
