/** Concrete conversations and queries worked through the model. */
module Scenarios {

  import opened Wrappers
  import opened Text
  import opened Calendar
  import opened Queries
  import opened Links
  import opened Intent
  import opened Providers
  import opened Backend

  const LisbonText := "romantic boutique in Lisbon under 300"

  /** The `in` alternative has to run to the end of the text; " under 300"
      stops it, and the text has no "to", so the destination falls back to
      "Lagos". */
  lemma LisbonHasNoDestination()
    ensures ExtractCity(LisbonText) == DefaultCity
  {
    forall p | 0 <= p <= |LisbonText|
      ensures CityAt(LisbonText, p).None?
    {
      LisbonNoTo(p);
      if p == 18 {
        LisbonInStopsShort();
      } else {
        LisbonNoOtherIn(p);
      }
    }
  }

  /** A keyword does not occur at `p` when two of its characters differ
      from the text there. */
  lemma NoKeywordAt(s: string, p: nat, kw: string, i: nat, j: nat)
    requires i < j < |kw|
    requires p + |kw| <= |s| ==> !(s[p + i] == kw[i] && s[p + j] == kw[j])
    ensures !KeywordAt(s, p, kw)
  {
    if p + |kw| <= |s| {
      var w := s[p..p + |kw|];
      assert w[i] == s[p + i] && w[j] == s[p + j];
    }
  }

  lemma LisbonNoTo(p: nat)
    ensures !KeywordAt(LisbonText, p, "to")
  {
    var t := LisbonText;
    assert forall q :: 0 <= q < |t| - 1 ==> !(t[q] == 't' && t[q + 1] == 'o');
    NoKeywordAt(t, p, "to", 0, 1);
  }

  lemma LisbonNoOtherIn(p: nat)
    requires p != 18
    ensures !KeywordAt(LisbonText, p, "in")
  {
    var t := LisbonText;
    assert forall q :: 0 <= q < |t| - 1 && q != 18 ==> !(t[q] == 'i' && t[q + 1] == 'n');
    NoKeywordAt(t, p, "in", 0, 1);
  }

  lemma LisbonInStopsShort()
    ensures CityAlt(LisbonText, 18, "in", true).None?
  {
    var t := LisbonText;
    RunEndUnique(t, 20, 21, IsSpace);
    var e := RunEnd(t, 22, IsCityChar);
    assert !IsCityChar(t[34]);
    assert e <= 34;
  }

  lemma LisbonNoEarlierUnder(p: nat)
    requires p < 28
    ensures !KeywordAt(LisbonText, p, "under")
  {
    var t := LisbonText;
    assert forall q :: 0 <= q < 28 ==> !(t[q] == 'u' && t[q + 1] == 'n');
    NoKeywordAt(t, p, "under", 0, 1);
  }

  lemma LisbonNoMax(p: nat)
    ensures !KeywordAt(LisbonText, p, "max")
  {
    var t := LisbonText;
    if p == 2 {
      assert t[4] == LisbonText[4] == 'n';
      NoKeywordAt(t, p, "max", 0, 2);
    } else {
      assert forall q :: 0 <= q < |t| - 1 && q != 2 ==> !(t[q] == 'm' && t[q + 1] == 'a');
      NoKeywordAt(t, p, "max", 0, 1);
    }
  }

  /** No budget keyword starts before position 28. */
  lemma LisbonNoEarlierBudget(p: nat)
    requires p < 28
    ensures BudgetAt(LisbonText, p).None?
  {
    LisbonNoEarlierUnder(p);
    LisbonNoMax(p);
  }

  /** At position 28 "under" is followed by one space and the digits 300. */
  lemma LisbonBudgetAt28()
    ensures BudgetAt(LisbonText, 28) == Some("300")
  {
    var t := LisbonText;
    assert t[28..33] == "under";
    RunEndUnique(t, 33, 34, IsSpace);
    RunEndUnique(t, 34, 37, IsDigit);
    assert t[34..37] == "300";
  }

  lemma ThreeHundred(digits: string)
    requires digits == "300"
    ensures AllIn(digits, 0, 3, IsDigit) && DigitsValue(digits) == 300
    ensures ParseDecimal(digits) == Success(300)
  {
    assert digits[..2] == "30" && digits[..2][..1] == "3" && digits[..2][..1][..0] == "";
    assert DigitsValue("3") == 3;
    assert DigitsValue("30") == 30;
  }

  /** The search stops at the "under" in position 28. */
  lemma LisbonBudgetFound()
    ensures Search(LisbonText, 0, BudgetAt) == Some(Found(28, "300"))
  {
    var t := LisbonText;
    forall p | 0 <= p < 28
      ensures BudgetAt(t, p).None?
    {
      LisbonNoEarlierBudget(p);
    }
    LisbonBudgetAt28();
    SearchFindsFirst(t, BudgetAt, 28, "300");
  }

  /** The leftmost "under" is followed by 300. */
  lemma LisbonBudget()
    ensures ExtractBudget(LisbonText) == Success(Some(300))
  {
    LisbonBudgetFound();
    ThreeHundred("300");
  }

  const ParisText := "trip to Paris under 200"

  /** No destination keyword starts before position 5. */
  lemma ParisNoEarlierCity(p: nat)
    requires p < 5
    ensures CityAt(ParisText, p).None?
  {
    var t := ParisText;
    assert forall q :: 0 <= q < 5 ==> !(t[q] == 't' && t[q + 1] == 'o');
    assert forall q :: 0 <= q < 5 ==> !(t[q] == 'i' && t[q + 1] == 'n');
    NoKeywordAt(t, p, "to", 0, 1);
    NoKeywordAt(t, p, "in", 0, 1);
  }

  lemma ParisToAt5()
    ensures KeywordAt(ParisText, 5, "to") && !KeywordAt(ParisText, 5, "in")
    ensures RunEnd(ParisText, 7, IsSpace) == 8 && IsUpper(ParisText[8])
  {
    var t := ParisText;
    NoKeywordAt(t, 5, "in", 0, 1);
    assert t[5..7] == "to";
    RunEndUnique(t, 7, 8, IsSpace);
  }

  lemma ParisWordsEnd()
    ensures RunEnd(ParisText, 9, IsCityChar) == 20
  {
    var t := ParisText;
    assert AllIn(t, 9, 20, IsCityChar);
    RunEndUnique(t, 9, 20, IsCityChar);
  }

  /** At position 5 "to" is followed by one space and the letters and
      spaces up to the first digit. */
  lemma ParisCityAt5()
    ensures CityAt(ParisText, 5) == Some("Paris under ")
  {
    ParisToAt5();
    ParisWordsEnd();
    assert ParisText[8..20] == "Paris under ";
  }

  /** The `to` capture is greedy over letters and spaces: it swallows the
      words after the city up to the first digit, and only the trailing
      space is stripped. */
  lemma ParisCaptureRunsOn()
    ensures ExtractCity(ParisText) == "Paris under"
  {
    var t := ParisText;
    forall p | 0 <= p < 5
      ensures CityAt(t, p).None?
    {
      ParisNoEarlierCity(p);
    }
    ParisCityAt5();
    var r := Search(t, 0, CityAt);
    assert r.Some? && r.value.pos == 5;
    var cap := "Paris under ";
    assert cap[..11] == "Paris under";
    assert TrimEnd(cap[..11]) == cap[..11];
    assert TrimEnd(cap) == "Paris under";
  }

  /** A default-base link for three adults in Lagos reads back with
      `group_adults=3`, one room and no children. */
  lemma LagosLinkForThree()
    ensures QueryParams(AffiliateLink(DefaultBase, "Lagos", "2025-01-10", "2025-01-12", 3).url)
      == [("ss", "Lagos"), ("checkin", "2025-01-10"), ("checkout", "2025-01-12"),
          ("group_adults", "3"), ("no_rooms", "1"), ("group_children", "0")]
  {
    AffiliateLinkParams(DefaultBase, "Lagos", "2025-01-10", "2025-01-12", 3);
    assert Decimal(3) == "3";
  }
}
