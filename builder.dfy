/** The base of the object builders: each `build*` prompts for a value and
    reads lines until one is acceptable. The reader is the list of lines it
    still has; when it runs out the builder answers `None`. */
module Builders {
  import opened Base
  import opened JavaText
  import opened Scripts

  // ---------------------------------------------------------------- reading until accepted

  /** The first line `accept` takes, paired with the number of lines read
      up to and including it. */
  function FirstAccepted<T>(lines: seq<string>, accept: string -> Option<T>): (r: Option<(T, nat)>)
    ensures r.Some? ==> 0 < r.value.1 <= |lines| && accept(lines[r.value.1 - 1]) == Some(r.value.0)
    ensures r.Some? ==> forall k :: 0 <= k < r.value.1 - 1 ==> accept(lines[k]).None?
    ensures r.None? ==> forall k :: 0 <= k < |lines| ==> accept(lines[k]).None?
  {
    if lines == [] then None
    else match accept(lines[0])
      case Some(v) => Some((v, 1))
      case None =>
        match FirstAccepted(lines[1..], accept)
        case None => None
        case Some(found) => Some((found.0, found.1 + 1))
  }

  /** Skipping lines that are all refused does not change which line is
      taken, only where it is counted from. */
  lemma {:induction false} FirstAcceptedAfter<T>(lines: seq<string>, accept: string -> Option<T>, k: nat)
    requires k <= |lines|
    requires forall j :: 0 <= j < k ==> accept(lines[j]).None?
    ensures FirstAccepted(lines, accept).None? <==> FirstAccepted(lines[k..], accept).None?
    ensures FirstAccepted(lines, accept).Some? ==>
      FirstAccepted(lines, accept).value == (FirstAccepted(lines[k..], accept).value.0, FirstAccepted(lines[k..], accept).value.1 + k)
    decreases k
  {
    if k > 0 {
      assert lines[1..][k - 1..] == lines[k..];
      FirstAcceptedAfter(lines[1..], accept, k - 1);
    }
  }

  // ---------------------------------------------------------------- what each builder accepts

  /** `buildMonth`: an int from 0 to 11, as `Calendar.MONTH` counts. */
  function MonthValue(line: string): Option<int>
  {
    match ParseInt(line)
    case Some(m) => if 0 <= m <= 11 then Some(m) else None
    case None => None
  }

  /** The leap years of the default `GregorianCalendar`: the Julian rule up
      to 1582 and the Gregorian rule after it (years counted astronomically,
      so year 0 is 1 BC). */
  predicate IsLeapYear(year: int)
  {
    if year <= 1582 then year % 4 == 0
    else year % 4 == 0 && (year % 100 != 0 || year % 400 == 0)
  }

  function DaysInMonth(month: int, year: int): (r: int)
    requires 0 <= month <= 11
    ensures 28 <= r <= 31
  {
    if month == 1 then (if IsLeapYear(year) then 29 else 28)
    else if month == 3 || month == 5 || month == 8 || month == 10 then 30
    else 31
  }

  /** Setting the day leaves the calendar on that month and day: the month
      is one of the twelve, the day exists in it, and it is not one of the
      ten days of October 1582 dropped by the switch to the Gregorian
      calendar. */
  predicate IsValidDay(day: int, month: int, year: int)
  {
    0 <= month <= 11 && 1 <= day <= DaysInMonth(month, year)
    && !(year == 1582 && month == 9 && 5 <= day <= 14)
  }

  /** `buildDate`: an int that is a valid day of the given month and year. */
  function DayValue(month: int, year: int): string -> Option<int>
  {
    line =>
      match ParseInt(line)
      case Some(d) => if IsValidDay(d, month, year) then Some(d) else None
      case None => None
  }

  /** The largest `y` a band's coordinates may have. */
  const MaxY: int := 968

  /** `buildLong`: a long of at most 968; a larger one is cut down to 968
      when reading a script and refused otherwise. */
  function LongValue(fileMode: bool): string -> Option<int>
  {
    line =>
      match ParseLong(line)
      case Some(v) => if v > MaxY && fileMode then Some(MaxY) else if v > MaxY then None else Some(v)
      case None => None
  }

  /** `buildSales`: a positive long. */
  function SalesValue(line: string): Option<int>
  {
    match ParseLong(line)
    case Some(v) => if v > 0 then Some(v) else None
    case None => None
  }

  // ---------------------------------------------------------------- the builder

  class Builder {
    /** The lines the reader still has. */
    var input: seq<string>
    /** The application's file-mode flag. */
    const mode: FileMode

    constructor (input: seq<string>, mode: FileMode)
      ensures this.input == input && this.mode == mode
    {
      this.input := input;
      this.mode := mode;
    }

    /** The read-until-valid loop every builder runs: the value of the
        first acceptable line, with the lines up to it consumed, or `None`
        once the reader has run out. */
    method NextAccepted<T>(accept: string -> Option<T>) returns (r: Option<T>)
      modifies this`input
      ensures FirstAccepted(old(input), accept).None? ==> r.None? && input == []
      ensures FirstAccepted(old(input), accept).Some? ==>
        var found := FirstAccepted(old(input), accept).value;
        r == Some(found.0) && input == old(input)[found.1..]
    {
      ghost var consumed := 0;
      while input != []
        invariant consumed <= |old(input)| && input == old(input)[consumed..]
        invariant forall j :: 0 <= j < consumed ==> accept(old(input)[j]).None?
        decreases |input|
      {
        var line := input[0];
        input := input[1..];
        consumed := consumed + 1;
        assert old(input)[consumed..] == input;
        var v := accept(line);
        if v.Some? {
          FirstAcceptedAfter(old(input), accept, consumed - 1);
          return v;
        }
      }
      FirstAcceptedAfter(old(input), accept, consumed);
      return None;
    }

    /** `buildInt`: the first line that parses as an int. */
    method BuildInt() returns (r: Option<int>)
      modifies this`input
      ensures r.Some? ==> INT_MIN <= r.value <= INT_MAX
      ensures r.Some? <==> exists k :: 0 <= k < |old(input)| && ParseInt(old(input)[k]).Some?
      ensures r.Some? ==>
        exists k :: (0 <= k < |old(input)| && input == old(input)[k + 1..]
          && ParseInt(old(input)[k]) == r && forall j :: 0 <= j < k ==> ParseInt(old(input)[j]).None?)
    {
      r := NextAccepted(ParseInt);
    }

    /** `buildMonth`: the first line that is an int from 0 to 11. */
    method BuildMonth() returns (r: Option<int>)
      modifies this`input
      ensures r.Some? ==> 0 <= r.value <= 11
      ensures r.Some? <==> exists k :: 0 <= k < |old(input)| && MonthValue(old(input)[k]).Some?
      ensures r.Some? ==>
        exists k :: (0 <= k < |old(input)| && input == old(input)[k + 1..]
          && ParseInt(old(input)[k]) == r && forall j :: 0 <= j < k ==> MonthValue(old(input)[j]).None?)
    {
      r := NextAccepted(MonthValue);
    }

    /** `buildDate`: the first line that is a valid day of `month` in
        `year`. */
    method BuildDate(month: int, year: int) returns (r: Option<int>)
      modifies this`input
      ensures r.Some? ==> IsValidDay(r.value, month, year) && 1 <= r.value <= 31
      ensures r.Some? <==> exists k :: 0 <= k < |old(input)| && DayValue(month, year)(old(input)[k]).Some?
      ensures r.Some? ==>
        exists k :: (0 <= k < |old(input)| && input == old(input)[k + 1..]
          && ParseInt(old(input)[k]) == r && forall j :: 0 <= j < k ==> DayValue(month, year)(old(input)[j]).None?)
    {
      r := NextAccepted(DayValue(month, year));
    }

    /** `buildLong`: the first line that is a long of at most 968, or,
        when reading a script, any long, cut down to 968. */
    method BuildLong() returns (r: Option<int>)
      modifies this`input
      ensures r.Some? ==> LONG_MIN <= r.value <= MaxY
      ensures r.Some? <==> exists k :: 0 <= k < |old(input)| && LongValue(mode.isFileMode)(old(input)[k]).Some?
      ensures r.Some? ==>
        exists k :: (0 <= k < |old(input)| && input == old(input)[k + 1..]
          && ParseLong(old(input)[k]).Some?
          && (ParseLong(old(input)[k]).value <= MaxY ==> r == ParseLong(old(input)[k]))
          && (ParseLong(old(input)[k]).value > MaxY ==> mode.isFileMode && r == Some(MaxY))
          && forall j :: 0 <= j < k ==> LongValue(mode.isFileMode)(old(input)[j]).None?)
    {
      r := NextAccepted(LongValue(mode.isFileMode));
    }

    /** `buildSales`: the first line that is a positive long. */
    method BuildSales() returns (r: Option<int>)
      modifies this`input
      ensures r.Some? ==> 0 < r.value <= LONG_MAX
      ensures r.Some? <==> exists k :: 0 <= k < |old(input)| && SalesValue(old(input)[k]).Some?
      ensures r.Some? ==>
        exists k :: (0 <= k < |old(input)| && input == old(input)[k + 1..]
          && ParseLong(old(input)[k]) == r && forall j :: 0 <= j < k ==> SalesValue(old(input)[j]).None?)
    {
      r := NextAccepted(SalesValue);
    }

    /** `buildString`: the next line, with a blank line read as null. */
    method BuildString() returns (r: Option<Option<string>>)
      modifies this`input
      ensures old(input) == [] ==> r.None? && input == []
      ensures old(input) != [] ==>
        input == old(input)[1..]
        && (IsBlank(old(input)[0]) ==> r == Some(None))
        && (!IsBlank(old(input)[0]) ==> r == Some(Some(old(input)[0])))
    {
      if input == [] {
        return None;
      }
      var line := input[0];
      input := input[1..];
      if IsBlank(line) {
        return Some(None);
      }
      return Some(Some(line));
    }
  }

  /** What a builder takes from a script does not depend on the lines after
      the one it takes: the rest of the script is left for the next field. */
  lemma {:induction false} FirstAcceptedExtend<T>(lines: seq<string>, more: seq<string>, accept: string -> Option<T>)
    requires FirstAccepted(lines, accept).Some?
    ensures FirstAccepted(lines + more, accept) == FirstAccepted(lines, accept)
    decreases |lines|
  {
    assert (lines + more)[0] == lines[0];
    if accept(lines[0]).None? {
      assert (lines + more)[1..] == lines[1..] + more;
      FirstAcceptedExtend(lines[1..], more, accept);
    }
  }

  /** February has 29 days exactly in leap years, and October 1582 lost the
      days 5 to 14 and keeps the other 21 of its 31. So 1500 (Julian), 1600
      and 2000 are leap years and 1700 is not; 4 and 15 October 1582 are
      days, 5 and 14 October 1582 are not. */
  lemma CalendarFacts(day: int, year: int)
    ensures IsValidDay(29, 1, year) <==> IsLeapYear(year)
    ensures IsValidDay(day, 9, 1582) <==> 1 <= day <= 4 || 15 <= day <= 31
  {
  }
}
