/**
 * The two date helpers the views use: `display_date` renders
 * `strftime('%B %d, %Y')` and `display_form_date` renders
 * `strftime('%Y-%m-%d')`; both render `nil` as the empty string.
 */
module ApplicationHelper {
  import opened Wrappers
  import opened Calendar
  import opened Numerals

  /** `%B`: the full English month names, January first. */
  const MonthNames: seq<string> := [
    "January", "February", "March", "April", "May", "June",
    "July", "August", "September", "October", "November", "December"
  ]

  function MonthName(m: Month): string {
    MonthNames[m - 1]
  }

  /** `%d` and `%m`: two digits, zero-padded. */
  function TwoDigits(n: nat): (s: string)
    requires n < 100
    ensures |s| == 2 && AllDigits(s) && Value(s) == n
  {
    Padded(n, 2)
  }

  /**
   * `%Y`: the year zero-padded to at least four digits, and for a negative
   * year a '-' followed by the padded magnitude. Reading it back gives the year.
   */
  function YearText(y: int): (s: string)
    ensures ParseYear(s) == Some(y)
    ensures 0 <= y < 10000 ==> |s| == 4 && AllDigits(s) && Value(s) == y
  {
    if y >= 0 then
      Padded(y, 4)
    else
      var digits := Padded(-y, 4);
      assert ("-" + digits)[1..] == digits;
      "-" + digits
  }

  /** `display_date(datetime)`: "Month DD, YYYY", or "" for nil. */
  function DisplayDate(t: Option<DateTime>): (s: string)
    ensures s == "" <==> t.None?
  {
    match t
    case None => ""
    case Some(dt) =>
      MonthName(dt.date.month) + " " + TwoDigits(dt.date.day) + ", " + YearText(dt.date.year)
  }

  /** `display_form_date(datetime)`: "YYYY-MM-DD", or "" for nil. */
  function DisplayFormDate(t: Option<DateTime>): (s: string)
    ensures s == "" <==> t.None?
  {
    match t
    case None => ""
    case Some(dt) =>
      YearText(dt.date.year) + "-" + TwoDigits(dt.date.month) + "-" + TwoDigits(dt.date.day)
  }

  // Readers of the rendered strings: the inverses the round-trip lemmas use.

  /** Reads a year as `%Y` writes it: digits, optionally after one '-'. */
  function ParseYear(s: string): Option<int> {
    if |s| >= 2 && s[0] == '-' && AllDigits(s[1..]) then Some(-(Value(s[1..]) as int))
    else if |s| >= 1 && AllDigits(s) then Some(Value(s))
    else None
  }

  /** Reads "YYYY-MM-DD" back, taking the month and the day from the end. */
  function ParseFormDate(s: string): Option<Date> {
    if |s| < 7 then None
    else
      var n := |s|;
      var year, mm, dd := ParseYear(s[..n - 6]), s[n - 5..n - 3], s[n - 2..];
      if s[n - 6] == '-' && s[n - 3] == '-' && year.Some?
        && AllDigits(mm) && AllDigits(dd)
        && 1 <= Value(mm) <= 12 && 1 <= Value(dd) <= 31
      then Some(Date(year.value, Value(mm), Value(dd)))
      else None
  }

  /** The index of the first space in s, or |s| when there is none. */
  function FirstSpace(s: string): (i: nat)
    ensures i <= |s|
    ensures i < |s| ==> s[i] == ' '
    ensures forall j :: 0 <= j < i ==> s[j] != ' '
  {
    if s == [] || s[0] == ' ' then 0 else 1 + FirstSpace(s[1..])
  }

  /** The month whose name is `name`, searching from the k-th name on. */
  function MonthNumber(name: string, k: nat): Option<Month>
    requires k <= 12
    decreases 12 - k
  {
    if k == 12 then None
    else if MonthNames[k] == name then Some(k + 1)
    else MonthNumber(name, k + 1)
  }

  /** Reads "Month DD, YYYY" back. */
  function ParseDisplayDate(s: string): Option<Date> {
    var i := FirstSpace(s);
    if |s| < i + 5 then None
    else
      var month, dd, year := MonthNumber(s[..i], 0), s[i + 1..i + 3], ParseYear(s[i + 5..]);
      if month.Some? && AllDigits(dd) && 1 <= Value(dd) <= 31 && s[i + 3..i + 5] == ", " && year.Some?
      then Some(Date(year.value, month.value, Value(dd)))
      else None
  }

  // Properties of the two helpers.

  lemma MonthNamesHaveNoSpace(m: Month)
    ensures forall j :: 0 <= j < |MonthName(m)| ==> MonthName(m)[j] != ' '
  {
  }

  lemma {:induction false} MonthNumberOfName(m: Month, k: nat)
    requires k < m
    ensures MonthNumber(MonthName(m), k) == Some(m)
    decreases m - k
  {
    if k + 1 < m {
      assert MonthNames[k] != MonthNames[m - 1];
      MonthNumberOfName(m, k + 1);
    }
  }

  /**
   * `display_date` writes the full English month name, a space, the day in
   * two digits, ", " and then the year as `%Y` writes it (four digits for
   * the years 0 to 9999).
   */
  lemma DisplayDateLayout(dt: DateTime)
    ensures var s, name := DisplayDate(Some(dt)), MonthName(dt.date.month);
      && name == MonthNames[dt.date.month - 1]
      && |s| >= |name| + 5
      && s[..|name|] == name
      && s[|name|] == ' '
      && AllDigits(s[|name| + 1..|name| + 3]) && Value(s[|name| + 1..|name| + 3]) == dt.date.day
      && s[|name| + 3..|name| + 5] == ", "
      && s[|name| + 5..] == YearText(dt.date.year)
      && ParseYear(s[|name| + 5..]) == Some(dt.date.year)
      && (0 <= dt.date.year <= 9999 ==>
            |s| == |name| + 9 && AllDigits(s[|name| + 5..]) && Value(s[|name| + 5..]) == dt.date.year)
  {
    var name, dd, year := MonthName(dt.date.month), TwoDigits(dt.date.day), YearText(dt.date.year);
    var s := DisplayDate(Some(dt));
    assert s == name + " " + dd + ", " + year;
    assert s[..|name|] == name;
    assert s[|name| + 1..|name| + 3] == dd;
    assert s[|name| + 3..|name| + 5] == ", ";
    assert s[|name| + 5..] == year;
  }

  /** Reading `display_date`'s output back gives the same calendar date. */
  lemma DisplayDateRoundTrip(dt: DateTime)
    ensures ParseDisplayDate(DisplayDate(Some(dt))) == Some(dt.date)
  {
    var s, name := DisplayDate(Some(dt)), MonthName(dt.date.month);
    DisplayDateLayout(dt);
    MonthNamesHaveNoSpace(dt.date.month);
    assert FirstSpace(s) == |name|;
    MonthNumberOfName(dt.date.month, 0);
  }

  /** Two timestamps `display_date` renders alike fall on the same calendar date. */
  lemma DisplayDateInjective(a: DateTime, b: DateTime)
    requires DisplayDate(Some(a)) == DisplayDate(Some(b))
    ensures a.date == b.date
  {
    DisplayDateRoundTrip(a);
    DisplayDateRoundTrip(b);
  }

  /** Reading `display_form_date`'s output back gives the same calendar date. */
  lemma FormDateRoundTrip(dt: DateTime)
    ensures ParseFormDate(DisplayFormDate(Some(dt))) == Some(dt.date)
  {
    var year, mm, dd := YearText(dt.date.year), TwoDigits(dt.date.month), TwoDigits(dt.date.day);
    var s := DisplayFormDate(Some(dt));
    assert s == year + "-" + mm + "-" + dd;
    var n := |s|;
    assert n == |year| + 6;
    assert s[..n - 6] == year;
    assert s[n - 5..n - 3] == mm;
    assert s[n - 2..] == dd;
  }

  /** Distinct calendar dates give distinct form strings. */
  lemma FormDateInjective(a: DateTime, b: DateTime)
    requires DisplayFormDate(Some(a)) == DisplayFormDate(Some(b))
    ensures a.date == b.date
  {
    FormDateRoundTrip(a);
    FormDateRoundTrip(b);
  }

  /**
   * For the years 0 to 9999 the form string is ten characters shaped
   * YYYY-MM-DD: four year digits, a '-', the zero-padded month, a '-', the
   * zero-padded day.
   */
  lemma FormDateShape(dt: DateTime)
    requires 0 <= dt.date.year <= 9999
    ensures var s := DisplayFormDate(Some(dt));
      && |s| == 10 && s[4] == '-' && s[7] == '-'
      && AllDigits(s[..4]) && Value(s[..4]) == dt.date.year
      && AllDigits(s[5..7]) && Value(s[5..7]) == dt.date.month
      && AllDigits(s[8..]) && Value(s[8..]) == dt.date.day
  {
    var year, mm, dd := YearText(dt.date.year), TwoDigits(dt.date.month), TwoDigits(dt.date.day);
    var s := DisplayFormDate(Some(dt));
    assert s == year + "-" + mm + "-" + dd;
    assert s[..4] == year;
    assert s[5..7] == mm;
    assert s[8..] == dd;
  }

  /** Neither helper looks at the time of day. */
  lemma IgnoresTimeOfDay(a: DateTime, b: DateTime)
    requires a.date == b.date
    ensures DisplayDate(Some(a)) == DisplayDate(Some(b))
    ensures DisplayFormDate(Some(a)) == DisplayFormDate(Some(b))
  {
  }
}
