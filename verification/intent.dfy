/** The heuristic intent extractor of `chat_to_query`
    (overgo-api/backend.py): the user turns joined into one text, and two
    regular expressions searched in it, each modelled as an explicit scanner
    with Python's `re.search` semantics (leftmost position first, the left
    alternative before the right one at each position, greedy repetition).
    Each scanner has a declarative partner that says what a match of the
    pattern is, and a lemma that the two agree. */
module Intent {

  import opened Wrappers
  import opened Text
  import opened Queries

  const UserRole := "user"

  /** The destination when no destination phrase is found. */
  const DefaultCity := "Lagos"

  // ---------------------------------------------------------------------
  // The extraction text

  /** The `content` of every turn whose role is exactly "user", in order. */
  function UserContents(history: seq<ChatTurn>): (texts: seq<string>)
    ensures |texts| <= |history|
    decreases |history|
  {
    if |history| == 0 then []
    else
      (if history[0].role == UserRole then [history[0].content] else [])
        + UserContents(history[1..])
  }

  /** `" ".join(t.content for t in history if t.role == "user")`: empty
      without user turns, otherwise starting with the first user turn's
      content and ending with the last one's. */
  function UserText(history: seq<ChatTurn>): (text: string)
    ensures UserContents(history) == [] ==> text == ""
    ensures var c := UserContents(history);
      |c| >= 1 ==> |c[0]| <= |text| && text[..|c[0]|] == c[0] && |c[|c| - 1]| <= |text| && text[|text| - |c[|c| - 1]|..] == c[|c| - 1]
  {
    Join(UserContents(history), ' ')
  }

  /** Collecting the user turns of a concatenated conversation is
      concatenating what each part contributes. */
  lemma {:induction false} UserContentsAppend(h1: seq<ChatTurn>, h2: seq<ChatTurn>)
    ensures UserContents(h1 + h2) == UserContents(h1) + UserContents(h2)
    decreases |h1|
  {
    if |h1| == 0 {
      assert h1 + h2 == h2;
    } else {
      var head := if h1[0].role == UserRole then [h1[0].content] else [];
      assert (h1 + h2)[0] == h1[0];
      assert (h1 + h2)[1..] == h1[1..] + h2;
      assert UserContents(h1 + h2) == head + UserContents(h1[1..] + h2);
      assert UserContents(h1) == head + UserContents(h1[1..]);
      UserContentsAppend(h1[1..], h2);
    }
  }

  /** A turn whose role is not "user" contributes nothing to the text. */
  lemma OtherRolesIgnored(h1: seq<ChatTurn>, t: ChatTurn, h2: seq<ChatTurn>)
    requires t.role != UserRole
    ensures UserText(h1 + [t] + h2) == UserText(h1 + h2)
  {
    UserContentsAppend(h1 + [t], h2);
    UserContentsAppend(h1, [t]);
    UserContentsAppend(h1, h2);
    assert UserContents([t]) == [];
    assert UserContents(h1 + [t]) == UserContents(h1);
    assert UserContents(h1 + [t] + h2) == UserContents(h1 + h2);
  }

  /** Joining one more part adds a separator and that part at the end. */
  lemma {:induction false} JoinAppend(parts: seq<string>, last: string, sep: char)
    requires |parts| >= 1
    ensures Join(parts + [last], sep) == Join(parts, sep) + [sep] + last
    decreases |parts|
  {
    var longer := parts + [last];
    if |parts| == 1 {
      assert longer[1..] == [last];
      assert Join(longer, sep) == parts[0] + [sep] + Join([last], sep);
    } else {
      assert longer[0] == parts[0];
      assert longer[1..] == parts[1..] + [last];
      assert Join(longer, sep) == parts[0] + [sep] + Join(parts[1..] + [last], sep);
      JoinAppend(parts[1..], last, sep);
      assert Join(parts, sep) == parts[0] + [sep] + Join(parts[1..], sep);
    }
  }

  /** A later user turn is appended to the text after one space; the first
      one is the whole text. */
  lemma UserTurnAppended(history: seq<ChatTurn>, content: string)
    ensures UserContents(history) == [] ==> UserText(history + [ChatTurn(UserRole, content)]) == content
    ensures UserContents(history) != [] ==>
      UserText(history + [ChatTurn(UserRole, content)]) == UserText(history) + " " + content
  {
    var t := ChatTurn(UserRole, content);
    UserContentsAppend(history, [t]);
    assert UserContents([t]) == [content];
    if UserContents(history) != [] {
      JoinAppend(UserContents(history), content, ' ');
    }
  }

  // ---------------------------------------------------------------------
  // Leftmost search

  /** Where a pattern matched and what it captured. */
  datatype Found<T> = Found(pos: nat, value: T)

  /** `re.search`: try the pattern at `from`, `from + 1`, ... up to and
      including the end of the text, and report the first position where
      `at` matches. */
  function Search<T>(text: string, from: nat, at: (string, nat) -> Option<T>): (r: Option<Found<T>>)
    ensures r.Some? ==> from <= r.value.pos <= |text| && at(text, r.value.pos) == Some(r.value.value)
    ensures r.Some? ==> forall p :: from <= p < r.value.pos ==> at(text, p).None?
    ensures r.None? ==> forall p :: from <= p <= |text| ==> at(text, p).None?
    decreases |text| + 1 - from
  {
    if from > |text| then None
    else
      match at(text, from)
      case Some(v) => Some(Found(from, v))
      case None => Search(text, from + 1, at)
  }

  /** The search stops at a matching position when no earlier one matches. */
  lemma SearchFindsFirst<T>(text: string, at: (string, nat) -> Option<T>, p: nat, v: T)
    requires p <= |text| && at(text, p) == Some(v)
    requires forall q :: 0 <= q < p ==> at(text, q).None?
    ensures Search(text, 0, at) == Some(Found(p, v))
  {
    var r := Search(text, 0, at);
    assert r.Some? && r.value.pos == p;
  }

  // ---------------------------------------------------------------------
  // Destination: in\s+([A-Z][a-zA-Z\s]+)$|to\s+([A-Z][a-zA-Z\s]+)

  /** One alternative `kw\s+([A-Z][a-zA-Z\s]+)` at position `p`, with a
      trailing `$` when `anchored`; the capture. */
  function CityAlt(text: string, p: nat, kw: string, anchored: bool): (r: Option<string>)
    ensures r.Some? ==> |r.value| >= 2 && IsUpper(r.value[0]) && AllIn(r.value, 1, |r.value|, IsCityChar)
  {
    if !KeywordAt(text, p, kw) then None
    else
      var w := RunEnd(text, p + |kw|, IsSpace);
      if w == p + |kw| || w == |text| || !IsUpper(text[w]) then None
      else
        var e := RunEnd(text, w + 1, IsCityChar);
        if e == w + 1 || (anchored && e < |text|) then None
        else Some(text[w..e])
  }

  /** A match of `kw\s+([A-Z][a-zA-Z\s]+)` (and `$` when anchored) at `p`
      whose spaces end at `w` and whose capture `cap` ends at `e`: the
      keyword, at least one space, a capital, and at least one more letter
      or space, running to the end of the text when anchored and as far as
      it can otherwise. */
  ghost predicate CityMatchSpan(text: string, p: nat, kw: string, anchored: bool, cap: string, w: nat, e: nat) {
    && p + |kw| < w && w + 1 < e <= |text|
    && KeywordAt(text, p, kw)
    && AllIn(text, p + |kw|, w, IsSpace)
    && IsUpper(text[w])
    && AllIn(text, w + 1, e, IsCityChar)
    && (if anchored then e == |text| else e == |text| || !IsCityChar(text[e]))
    && cap == text[w..e]
  }

  /** A match of the alternative at `p` capturing `cap`. */
  ghost predicate CityMatch(text: string, p: nat, kw: string, anchored: bool, cap: string) {
    exists w: nat, e: nat :: CityMatchSpan(text, p, kw, anchored, cap, w, e)
  }

  /** What the scanner captures is a match. */
  lemma CityAltSound(text: string, p: nat, kw: string, anchored: bool)
    requires CityAlt(text, p, kw, anchored).Some?
    ensures CityMatch(text, p, kw, anchored, CityAlt(text, p, kw, anchored).value)
  {
    var w := RunEnd(text, p + |kw|, IsSpace);
    var e := RunEnd(text, w + 1, IsCityChar);
    assert CityMatchSpan(text, p, kw, anchored, CityAlt(text, p, kw, anchored).value, w, e);
  }

  /** Every match is what the scanner captures. */
  lemma CityAltComplete(text: string, p: nat, kw: string, anchored: bool, cap: string, w: nat, e: nat)
    requires CityMatchSpan(text, p, kw, anchored, cap, w, e)
    ensures CityAlt(text, p, kw, anchored) == Some(cap)
  {
    RunEndUnique(text, p + |kw|, w, IsSpace);
    RunEndUnique(text, w + 1, e, IsCityChar);
  }

  /** The scanner finds exactly the matches of the alternative. */
  lemma CityAltMatches(text: string, p: nat, kw: string, anchored: bool, cap: string)
    ensures CityAlt(text, p, kw, anchored) == Some(cap) <==> CityMatch(text, p, kw, anchored, cap)
  {
    if CityMatch(text, p, kw, anchored, cap) {
      var w: nat, e: nat :| CityMatchSpan(text, p, kw, anchored, cap, w, e);
      CityAltComplete(text, p, kw, anchored, cap, w, e);
    }
    if CityAlt(text, p, kw, anchored) == Some(cap) {
      CityAltSound(text, p, kw, anchored);
    }
  }

  /** The destination pattern at one position: the anchored `in`
      alternative first, then the `to` alternative. */
  function CityAt(text: string, p: nat): (r: Option<string>)
    ensures r.Some? ==> |r.value| >= 2 && IsUpper(r.value[0]) && AllIn(r.value, 1, |r.value|, IsCityChar)
  {
    match CityAlt(text, p, "in", true)
    case Some(cap) => Some(cap)
    case None => CityAlt(text, p, "to", false)
  }

  /** A match of the whole destination pattern at `p`: the left alternative
      if it matches there, otherwise the right one. */
  ghost predicate CityPatternAt(text: string, p: nat, cap: string) {
    || CityMatch(text, p, "in", true, cap)
    || ((forall c :: !CityMatch(text, p, "in", true, c)) && CityMatch(text, p, "to", false, cap))
  }

  lemma CityAtMatches(text: string, p: nat, cap: string)
    ensures CityAt(text, p) == Some(cap) <==> CityPatternAt(text, p, cap)
  {
    CityAltMatches(text, p, "in", true, cap);
    CityAltMatches(text, p, "to", false, cap);
    match CityAlt(text, p, "in", true)
    case Some(c) =>
      CityAltMatches(text, p, "in", true, c);
    case None =>
      forall c
        ensures !CityMatch(text, p, "in", true, c)
      {
        CityAltMatches(text, p, "in", true, c);
      }
  }

  /** `(m.group(1) or m.group(2)).strip() if m else "Lagos"`. Whatever the
      text, the destination is a non-empty run of ASCII letters and
      whitespace that starts with a capital and does not end in whitespace. */
  function ExtractCity(text: string): (city: string)
    ensures |city| >= 1 && IsUpper(city[0]) && !IsSpace(city[|city| - 1])
    ensures AllIn(city, 0, |city|, IsCityChar)
    ensures Search(text, 0, CityAt).None? ==> city == DefaultCity
  {
    match Search(text, 0, CityAt)
    case None => DefaultCity
    case Some(found) =>
      var cap := found.value;
      assert !IsSpace(cap[0]);
      Strip(cap)
  }

  /** The declarative reading of the destination rule: the leftmost match
      of the pattern, with trailing whitespace removed from its capture. */
  lemma ExtractCityLeftmost(text: string, p: nat, cap: string)
    requires p <= |text| && CityPatternAt(text, p, cap)
    requires forall q, c :: 0 <= q < p ==> !CityPatternAt(text, q, c)
    ensures ExtractCity(text) == TrimEnd(cap)
  {
    CityAtMatches(text, p, cap);
    forall q | 0 <= q < p
      ensures CityAt(text, q).None?
    {
      if CityAt(text, q).Some? {
        CityAtMatches(text, q, CityAt(text, q).value);
      }
    }
    var r := Search(text, 0, CityAt);
    assert r.Some? && r.value.pos == p;
  }

  /** Without any match of the pattern the destination is "Lagos". */
  lemma NoPatternDefaultCity(text: string)
    requires forall q, c :: 0 <= q <= |text| ==> !CityPatternAt(text, q, c)
    ensures ExtractCity(text) == DefaultCity
  {
    forall q | 0 <= q <= |text|
      ensures CityAt(text, q).None?
    {
      if CityAt(text, q).Some? {
        CityAtMatches(text, q, CityAt(text, q).value);
      }
    }
  }

  // ---------------------------------------------------------------------
  // Budget ceiling: under\s*(\d+)|max\s*(\d+)

  /** One alternative `kw\s*(\d+)` at position `p`; the captured digits. */
  function KeywordDigits(text: string, p: nat, kw: string): (r: Option<string>)
    ensures r.Some? ==> |r.value| >= 1 && AllIn(r.value, 0, |r.value|, IsDigit)
    ensures r.Some? ==> p + |kw| + |r.value| <= |text|
  {
    if !KeywordAt(text, p, kw) then None
    else
      var w := RunEnd(text, p + |kw|, IsSpace);
      var d := RunEnd(text, w, IsDigit);
      if d == w then None
      else
        assert forall k :: 0 <= k < d - w ==> text[w..d][k] == text[w + k];
        Some(text[w..d])
  }

  /** A match of `kw\s*(\d+)` at `p` whose whitespace ends at `w` and whose
      captured digits `cap` end at `d`: the keyword, any whitespace, and
      the maximal run of digits after it. */
  ghost predicate NumberMatchSpan(text: string, p: nat, kw: string, cap: string, w: nat, d: nat) {
    && p + |kw| <= w < d <= |text|
    && KeywordAt(text, p, kw)
    && AllIn(text, p + |kw|, w, IsSpace)
    && AllIn(text, w, d, IsDigit)
    && (d == |text| || !IsDigit(text[d]))
    && cap == text[w..d]
  }

  /** A match of the alternative at `p` capturing `cap`. */
  ghost predicate NumberMatch(text: string, p: nat, kw: string, cap: string) {
    exists w: nat, d: nat :: NumberMatchSpan(text, p, kw, cap, w, d)
  }

  /** The scanner finds exactly the matches of the alternative. */
  lemma KeywordDigitsMatches(text: string, p: nat, kw: string, cap: string)
    ensures KeywordDigits(text, p, kw) == Some(cap) <==> NumberMatch(text, p, kw, cap)
  {
    if NumberMatch(text, p, kw, cap) {
      var w: nat, d: nat :| NumberMatchSpan(text, p, kw, cap, w, d);
      RunEndUnique(text, p + |kw|, w, IsSpace);
      RunEndUnique(text, w, d, IsDigit);
    }
    if KeywordDigits(text, p, kw) == Some(cap) {
      var w := RunEnd(text, p + |kw|, IsSpace);
      var d := RunEnd(text, w, IsDigit);
      assert NumberMatchSpan(text, p, kw, cap, w, d);
    }
  }

  /** The budget pattern at one position: `under` first, then `max`. */
  function BudgetAt(text: string, p: nat): (r: Option<string>)
    ensures r.Some? ==> |r.value| >= 1 && AllIn(r.value, 0, |r.value|, IsDigit)
    ensures r.Some? ==> p + 3 + |r.value| <= |text|
  {
    match KeywordDigits(text, p, "under")
    case Some(cap) => Some(cap)
    case None => KeywordDigits(text, p, "max")
  }

  /** A match of the whole budget pattern at `p`: the left alternative if
      it matches there, otherwise the right one. */
  ghost predicate BudgetPatternAt(text: string, p: nat, cap: string) {
    || NumberMatch(text, p, "under", cap)
    || ((forall c :: !NumberMatch(text, p, "under", c)) && NumberMatch(text, p, "max", cap))
  }

  lemma BudgetAtMatches(text: string, p: nat, cap: string)
    ensures BudgetAt(text, p) == Some(cap) <==> BudgetPatternAt(text, p, cap)
  {
    KeywordDigitsMatches(text, p, "under", cap);
    KeywordDigitsMatches(text, p, "max", cap);
    match KeywordDigits(text, p, "under")
    case Some(c) =>
      KeywordDigitsMatches(text, p, "under", c);
    case None =>
      forall c
        ensures !NumberMatch(text, p, "under", c)
      {
        KeywordDigitsMatches(text, p, "under", c);
      }
  }

  /** `int(m.group(1) or m.group(2)) if m else None`: no ceiling when
      neither keyword occurs with digits; otherwise the value of the digits
      after the leftmost one, or the `int()` error when they are more than
      the digit limit. */
  function ExtractBudget(text: string): (budget: Result<Option<nat>, IntError>)
    ensures budget == Success(None) <==> forall p :: 0 <= p <= |text| ==> BudgetAt(text, p).None?
    ensures budget != Success(None) ==>
      exists p :: 0 <= p <= |text| && BudgetAt(text, p).Some?
        && (forall q :: 0 <= q < p ==> BudgetAt(text, q).None?)
        && (budget.Success? <==> |BudgetAt(text, p).value| <= MaxStrDigits)
        && (budget.Success? ==> budget.value == Some(DigitsValue(BudgetAt(text, p).value)))
  {
    match Search(text, 0, BudgetAt)
    case None => Success(None)
    case Some(found) =>
      match ParseDecimal(found.value)
      case Success(n) => Success(Some(n))
      case Failure(e) => Failure(e)
  }

  /** The declarative reading of the budget rule: the value of the digits
      captured by the leftmost match of the pattern, or the digit-limit
      error when they are too many. */
  lemma ExtractBudgetLeftmost(text: string, p: nat, cap: string)
    requires p <= |text| && BudgetPatternAt(text, p, cap)
    requires forall q, c :: 0 <= q < p ==> !BudgetPatternAt(text, q, c)
    ensures AllIn(cap, 0, |cap|, IsDigit)
    ensures |cap| <= MaxStrDigits ==> ExtractBudget(text) == Success(Some(DigitsValue(cap)))
    ensures |cap| > MaxStrDigits ==> ExtractBudget(text) == Failure(ExceedsDigitLimit(|cap|))
  {
    BudgetAtMatches(text, p, cap);
    forall q | 0 <= q < p
      ensures BudgetAt(text, q).None?
    {
      if BudgetAt(text, q).Some? {
        BudgetAtMatches(text, q, BudgetAt(text, q).value);
      }
    }
    var r := Search(text, 0, BudgetAt);
    assert r.Some? && r.value.pos == p;
  }

  /** Without any match of the pattern there is no budget ceiling. */
  lemma NoPatternNoBudget(text: string)
    requires forall q, c :: 0 <= q <= |text| ==> !BudgetPatternAt(text, q, c)
    ensures ExtractBudget(text) == Success(None)
  {
    forall q | 0 <= q <= |text|
      ensures BudgetAt(text, q).None?
    {
      if BudgetAt(text, q).Some? {
        BudgetAtMatches(text, q, BudgetAt(text, q).value);
      }
    }
  }

  /** A text of at most 4303 characters cannot hold a capture over the
      digit limit: there the conversion never fails. */
  lemma ShortTextBudgetConverts(text: string)
    requires |text| <= MaxStrDigits + 3
    ensures ExtractBudget(text).Success?
  {
  }

  /** "under ", then a digit run over the limit: the conversion fails. */
  lemma OverlongBudgetFails(digits: string)
    requires AllIn(digits, 0, |digits|, IsDigit) && |digits| > MaxStrDigits
    ensures ExtractBudget("under " + digits) == Failure(ExceedsDigitLimit(|digits|))
  {
    var t := "under " + digits;
    assert t[0..5] == "under";
    assert AllIn(t, 6, |t|, IsDigit);
    RunEndUnique(t, 5, 6, IsSpace);
    RunEndUnique(t, 6, |t|, IsDigit);
    assert t[6..|t|] == digits;
    assert BudgetAt(t, 0) == Some(digits);
  }
}
