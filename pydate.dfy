/** The part of Python's `datetime` that the Window line uses:
    `datetime.strptime("<month> <day> <year>", "%b %d, %Y")` followed by
    `strftime("%m/%d/%Y")`, in the C locale. */
module PyDate {
  import opened Wrappers
  import opened PyStr

  const MonthAbbreviations: seq<string> :=
    ["jan", "feb", "mar", "apr", "may", "jun", "jul", "aug", "sep", "oct", "nov", "dec"]

  /** `%b`: a month abbreviation in any letter case, as its number 1..12. */
  function MonthNumber(token: string): (r: Option<nat>)
    ensures r.Some? ==> 1 <= r.value <= 12 && Lower(token) == MonthAbbreviations[r.value - 1]
    ensures r.None? ==> Lower(token) !in MonthAbbreviations
  {
    MonthFrom(Lower(token), 0)
  }

  function MonthFrom(lowered: string, i: nat): (r: Option<nat>)
    requires i <= 12
    ensures r.Some? ==> i < r.value <= 12 && lowered == MonthAbbreviations[r.value - 1]
    ensures r.None? ==> forall j | i <= j < 12 :: lowered != MonthAbbreviations[j]
    decreases 12 - i
  {
    if i == 12 then None
    else if lowered == MonthAbbreviations[i] then Some(i + 1)
    else MonthFrom(lowered, i + 1)
  }

  /** `%d,`: the day token is one of `1`..`9`, `01`..`09`, `10`..`29`, `30`, `31`
      followed by a comma, that is one or two digits worth 1 to 31 and a comma. */
  function DayNumber(token: string): (r: Option<nat>)
    ensures r.Some? <==>
      (2 <= |token| <= 3 && token[|token| - 1] == ','
       && AllDigits(token[..|token| - 1]) && 1 <= DigitsValue(token[..|token| - 1]) <= 31)
    ensures r.Some? ==> r.value == DigitsValue(token[..|token| - 1])
  {
    DayDigits(token);
    if |token| == 2 && token[1] == ',' && '1' <= token[0] <= '9' then
      Some(token[0] as int - '0' as int)
    else if |token| == 3 && token[2] == ',' && IsDigit(token[0]) && IsDigit(token[1]) then
      var d := 10 * (token[0] as int - '0' as int) + (token[1] as int - '0' as int);
      if (token[0] == '0' && token[1] != '0') || token[0] == '1' || token[0] == '2'
         || (token[0] == '3' && (token[1] == '0' || token[1] == '1'))
      then Some(d) else None
    else None
  }

  /** The value of the one or two digits before the comma of a day token. */
  lemma DayDigits(token: string)
    ensures |token| == 2 && IsDigit(token[0]) ==>
      AllDigits(token[..1]) && DigitsValue(token[..1]) == token[0] as int - '0' as int
    ensures |token| == 3 && IsDigit(token[0]) && IsDigit(token[1]) ==>
      AllDigits(token[..2])
      && DigitsValue(token[..2]) == 10 * (token[0] as int - '0' as int) + (token[1] as int - '0' as int)
  {
    if |token| == 2 {
      assert token[..1][..0] == [];
    }
    if |token| == 3 && IsDigit(token[0]) && IsDigit(token[1]) {
      var p := token[..2];
      assert p[..1] == token[..1] && token[..1][..0] == [] && p[1] == token[1];
      assert DigitsValue(token[..1]) == token[0] as int - '0' as int;
      assert DigitsValue(p) == 10 * DigitsValue(p[..1]) + (p[1] as int - '0' as int);
    }
  }

  predicate IsLeapYear(year: int)
  {
    (year % 4 == 0 && year % 100 != 0) || year % 400 == 0
  }

  function DaysInMonth(month: nat, year: int): (r: nat)
    requires 1 <= month <= 12
    ensures 28 <= r <= 31
  {
    if month == 2 then (if IsLeapYear(year) then 29 else 28)
    else if month == 4 || month == 6 || month == 9 || month == 11 then 30
    else 31
  }

  /** `%m` / `%d` output: two digits, zero-padded. */
  function Pad2(n: nat): (r: string)
    requires n < 100
    ensures |r| == 2 && AllDigits(r) && DigitsValue(r) == n
  {
    var r := [DigitChar(n / 10), DigitChar(n % 10)];
    assert r[..1] == [DigitChar(n / 10)] && r[..1][..0] == [];
    assert DigitsValue(r[..1]) == n / 10;
    r
  }

  /** The date of a Window line in `MM/DD/YYYY` form, or `None` where `strptime`
      raises `ValueError`: an unknown month, a malformed day, a day past the end of
      the month, or a year whose `str` is not four digits. */
  function WindowDate(monthToken: string, dayToken: string, year: int): (r: Option<string>)
  {
    match (MonthNumber(monthToken), DayNumber(dayToken))
    case (Some(m), Some(d)) =>
      if 1000 <= year <= 9999 && d <= DaysInMonth(m, year)
      then Some(Pad2(m) + "/" + Pad2(d) + "/" + IntToString(year))
      else None
    case _ => None
  }

  /** A Window date is accepted exactly when the month, the day (within that month
      of that year) and the year are valid, and then it splits on `/` into the
      month, day and year, each of which reads back as the parsed number. */
  lemma WindowDateFields(monthToken: string, dayToken: string, year: int)
    ensures WindowDate(monthToken, dayToken, year).Some? <==>
      MonthNumber(monthToken).Some? && DayNumber(dayToken).Some? && 1000 <= year <= 9999
      && DayNumber(dayToken).value <= DaysInMonth(MonthNumber(monthToken).value, year)
    ensures WindowDate(monthToken, dayToken, year).Some? ==>
      var parts := Split(WindowDate(monthToken, dayToken, year).value, "/");
      |parts| == 3 && AllDigits(parts[0]) && AllDigits(parts[1]) && AllDigits(parts[2])
      && DigitsValue(parts[0]) == MonthNumber(monthToken).value
      && DigitsValue(parts[1]) == DayNumber(dayToken).value
      && DigitsValue(parts[2]) == year
  {
    var r := WindowDate(monthToken, dayToken, year);
    if r.Some? {
      var m, d := MonthNumber(monthToken).value, DayNumber(dayToken).value;
      var ys := IntToString(year);
      assert ys == NatToString(year);
      assert '/' !in Pad2(m) && '/' !in Pad2(d) && '/' !in ys;
      assert r.value == Pad2(m) + ['/'] + (Pad2(d) + ['/'] + ys);
      SplitAfter(Pad2(m), '/', Pad2(d) + ['/'] + ys);
      SplitAfter(Pad2(d), '/', ys);
      SplitWithout(ys, '/');
      NatToStringValue(year);
    }
  }
}
