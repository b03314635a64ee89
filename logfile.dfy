/**
 * The dated log file of LogFile.path: its name is the calendar date written
 * as year, month and day in decimal, separated by '_', with the ".log"
 * suffix, and it lives under the logger's root directory.
 */
module LogFile {
  import opened Wrappers
  import opened Strconv

  /** A wall-clock date, as time.Now() reports it. */
  datatype Date = Date(year: int, month: int, day: int)

  /** What the clock can report: a month of 1 to 12 and a day of 1 to 31. */
  predicate IsCalendarDate(d: Date) {
    1 <= d.month <= 12 && 1 <= d.day <= 31
  }

  /**
   * filepath.Join(dir, name), kept as its two parts: path cleaning is not
   * modelled, so two joined paths are the same exactly when both parts are.
   */
  datatype FilePath = Joined(dir: string, name: string)

  const SEPARATOR: char := '_'
  const SUFFIX: string := ".log"

  /** The file name LogFile.path derives from the date. */
  function FileName(d: Date): (name: string)
    ensures |name| >= 9
    ensures name[|name| - 4..] == SUFFIX
  {
    Itoa(d.year) + [SEPARATOR] + Itoa(d.month) + [SEPARATOR] + Itoa(d.day) + SUFFIX
  }

  /** The position of the first c in s, if any. */
  function IndexOf(s: string, c: char): (r: Option<nat>)
    ensures r.None? ==> c !in s
    ensures r.Some? ==> r.value < |s| && s[r.value] == c && c !in s[..r.value]
  {
    if s == [] then None
    else if s[0] == c then Some(0)
    else match IndexOf(s[1..], c)
      case None => None
      case Some(i) => Some(i + 1)
  }

  lemma {:induction false} IndexOfFirst(a: string, b: string, c: char)
    requires c !in a
    ensures IndexOf(a + [c] + b, c) == Some(|a|)
  {
    if a != [] {
      assert (a + [c] + b)[1..] == a[1..] + [c] + b;
      IndexOfFirst(a[1..], b, c);
    }
  }

  /** Splits a name of the shape "Y_M_D.log" into its three fields. */
  function Fields(name: string): Option<(string, string, string)> {
    if |name| < |SUFFIX| || name[|name| - |SUFFIX|..] != SUFFIX then None
    else
      var stem := name[..|name| - |SUFFIX|];
      match IndexOf(stem, SEPARATOR)
      case None => None
      case Some(i) =>
        var rest := stem[i + 1..];
        match IndexOf(rest, SEPARATOR)
        case None => None
        case Some(j) => Some((stem[..i], rest[..j], rest[j + 1..]))
  }

  /** Reads a date back from a log file name. */
  function ParseFileName(name: string): Option<Date> {
    match Fields(name)
    case None => None
    case Some((y, m, d)) =>
      match (Parse(y), Parse(m), Parse(d))
      case (Some(year), Some(month), Some(day)) => Some(Date(year, month, day))
      case _ => None
  }

  /** Splitting "y_m_d.log" at the separators gives back y, m and d. */
  lemma {:induction false} FieldsOfJoined(y: string, m: string, d: string)
    requires SEPARATOR !in y && SEPARATOR !in m
    ensures Fields(y + [SEPARATOR] + m + [SEPARATOR] + d + SUFFIX) == Some((y, m, d))
  {
    var rest := m + [SEPARATOR] + d;
    var stem := y + [SEPARATOR] + rest;
    var name := y + [SEPARATOR] + m + [SEPARATOR] + d + SUFFIX;
    assert name == stem + SUFFIX;
    assert name[..|name| - |SUFFIX|] == stem;
    assert name[|name| - |SUFFIX|..] == SUFFIX;
    IndexOfFirst(y, rest, SEPARATOR);
    IndexOfFirst(m, d, SEPARATOR);
    assert stem[..|y|] == y && stem[|y| + 1..] == rest;
    assert rest[..|m|] == m && rest[|m| + 1..] == d;
  }

  /** The fields between the separators are the decimal year, month and day. */
  lemma FileNameFields(d: Date)
    ensures Fields(FileName(d)) == Some((Itoa(d.year), Itoa(d.month), Itoa(d.day)))
  {
    assert SEPARATOR !in Itoa(d.year) && SEPARATOR !in Itoa(d.month);
    FieldsOfJoined(Itoa(d.year), Itoa(d.month), Itoa(d.day));
  }

  /** The date can be read back from the file name. */
  lemma FileNameRoundTrip(d: Date)
    ensures ParseFileName(FileName(d)) == Some(d)
  {
    FileNameFields(d);
    ParseItoa(d.year);
    ParseItoa(d.month);
    ParseItoa(d.day);
  }

  /**
   * Distinct dates name distinct files: the separators keep, for instance,
   * January 11 and November 1 of the same year apart.
   */
  lemma FileNameInjective(d1: Date, d2: Date)
    ensures FileName(d1) == FileName(d2) ==> d1 == d2
  {
    FileNameRoundTrip(d1);
    FileNameRoundTrip(d2);
  }

  /**
   * For a calendar date the month and day fields carry no zero padding: one
   * digit below 10, two digits from 10 on, never a leading '0'.
   */
  lemma FileNameUnpadded(d: Date)
    requires IsCalendarDate(d)
    ensures Fields(FileName(d)).Some?
    ensures var (_, m, dd) := Fields(FileName(d)).value;
      && 1 <= |m| <= 2 && m[0] != '0' && AllDigits(m) && DigitsValue(m) == d.month
      && 1 <= |dd| <= 2 && dd[0] != '0' && AllDigits(dd) && DigitsValue(dd) == d.day
  {
    FileNameFields(d);
    ItoaUnpadded(d.month);
    ItoaUnpadded(d.day);
  }
}
