/** Calendar days as Python `date` ordinals, with the weekday numbering of
    `date.weekday()` and the "next Friday" rule of the intent extractor.
    Turning a day into its ISO text is not part of this model. */
module Calendar {

  /** 0001-01-01, a Monday, is ordinal 1. */
  const FirstDay := 1
  /** 9999-12-31, the last date Python can represent, is ordinal 3652059. */
  const LastDay := 3652059

  /** A representable date; adding days past `LastDay` raises `OverflowError`. */
  type Day = d: int | FirstDay <= d <= LastDay witness FirstDay

  const Friday := 4
  const Sunday := 6

  /** `date.weekday()`: Monday is 0 and Sunday is 6. */
  function Weekday(d: int): (w: nat)
    ensures w < 7
  {
    (d + 6) % 7
  }

  /** The numbering agrees with the calendar: 0001-01-01 is a Monday,
      9999-12-31 is a Friday, and each day is one weekday after the one
      before it, Monday following Sunday. */
  lemma WeekdayCycle(d: int)
    ensures Weekday(FirstDay) == 0 && Weekday(LastDay) == Friday
    ensures Weekday(d + 1) == (Weekday(d) + 1) % 7
  {
  }

  /** `(4 - today.weekday()) % 7`: how many days until Friday, 0 on a Friday. */
  function DaysUntilFriday(today: int): (g: nat)
    ensures g < 7
    ensures Weekday(today + g) == Friday
    ensures g == 0 <==> Weekday(today) == Friday
  {
    (Friday - Weekday(today)) % 7
  }

  /** `today + timedelta(days=days_until_fri or 7)`: the first Friday
      strictly after `today`, never `today` itself. */
  function NextFriday(today: int): (f: int)
    ensures today < f <= today + 7
    ensures Weekday(f) == Friday
    ensures forall d :: today < d < f ==> Weekday(d) != Friday
  {
    var g := DaysUntilFriday(today);
    today + (if g == 0 then 7 else g)
  }

  /** The day two days after a Friday is a Sunday. */
  lemma FridayThenSunday(d: int)
    requires Weekday(d) == Friday
    ensures Weekday(d + 2) == Sunday
  {
    var k := (d + 6) / 7;
    assert d + 6 == 7 * k + Friday;
    assert d + 2 + 6 == 7 * k + Sunday;
  }

  /** Two days with the same weekday are a whole number of weeks apart. */
  lemma SameWeekday(a: int, b: int)
    requires Weekday(a) == Weekday(b)
    ensures (a - b) % 7 == 0
  {
  }

  /** The default stay, Friday to Sunday, fits in the calendar exactly when
      `today` is before 9999-12-24: from then on the next Friday is the last
      representable date (or beyond it) and the Sunday after it is not. */
  lemma WeekendFits(today: Day)
    ensures NextFriday(today) + 2 <= LastDay <==> today < LastDay - 7
  {
    var f := NextFriday(today);
    assert Weekday(LastDay) == Friday;
    if today < LastDay - 7 {
      SameWeekday(f, LastDay);
    } else if today < LastDay {
      assert f <= LastDay;
      SameWeekday(f, LastDay);
      assert f == LastDay;
    }
  }
}
