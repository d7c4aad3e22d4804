/** Publication dates: the ORCID form with padded parts, and the slash-separated string the service shows. */
module Dates {
  import opened Wrappers
  import opened Strings

  datatype Date = Date(year: string, month: Option<string>, day: Option<string>)

  datatype DateError = WrongPartCount

  function ParseDate(s: string): Result<Date, DateError> {
    var parts := Split(s, '/');
    if |parts| == 1 then Ok(Date(parts[0], None, None))
    else if |parts| == 2 then Ok(Date(parts[0], Some(PadTwo(parts[1])), None))
    else if |parts| == 3 then Ok(Date(parts[0], Some(PadTwo(parts[1])), Some(PadTwo(parts[2]))))
    else Err(WrongPartCount)
  }

  /** orcid_date_to_string_date */
  function DateToString(d: Date): string {
    match d.month
    case None => d.year
    case Some(month) =>
      match d.day
      case None => d.year + "/" + StripZeros(month)
      case Some(day) => d.year + "/" + StripZeros(month) + "/" + StripZeros(day)
  }

  /** The string has the date's parts as they are, month and day without their leading zeros. */
  ghost predicate ShowsDate(d: Date, s: string) {
    match (d.month, d.day)
    case (None, _) => s == d.year
    case (Some(month), None) => exists m :: IsUnpadded(month, m) && s == d.year + "/" + m
    case (Some(month), Some(day)) =>
      exists m, n :: IsUnpadded(month, m) && IsUnpadded(day, n) && s == d.year + "/" + m + "/" + n
  }

  lemma PrintedDate(d: Date)
    ensures ShowsDate(d, DateToString(d))
  {
    if d.month.Some? {
      StrippedIsUnpadded(d.month.value);
      if d.day.Some? { StrippedIsUnpadded(d.day.value); }
    }
  }

  ghost predicate Reads3(s: string, y: string, m: string, d: string) {
    '/' !in y && '/' !in m && '/' !in d && s == y + "/" + m + "/" + d
  }

  ghost predicate Reads2(s: string, y: string, m: string) {
    '/' !in y && '/' !in m && s == y + "/" + m
  }

  ghost predicate HasDateParts(s: string) {
    '/' !in s || (exists y, m :: Reads2(s, y, m)) || (exists y, m, d :: Reads3(s, y, m, d))
  }

  /** The date has the slash-separated parts of the string, month and day padded to two characters. */
  ghost predicate ReadsDate(s: string, date: Date) {
    if '/' !in s then date == Date(s, None, None)
    else if date.day.None? then
      exists m :: Reads2(s, date.year, m) && date.month.Some? && IsPaddedForm(m, date.month.value)
    else
      exists m, d :: Reads3(s, date.year, m, d) && date.month.Some? &&
                     IsPaddedForm(m, date.month.value) && IsPaddedForm(d, date.day.value)
  }

  lemma ParsedDate(s: string)
    ensures ParseDate(s).Ok? <==> HasDateParts(s)
    ensures ParseDate(s).Ok? ==> ReadsDate(s, ParseDate(s).value)
  {
    var parts := Split(s, '/');
    JoinSplit(s, '/');
    if '/' !in s { SplitPrefix(s, "", '/'); }
    forall y, m | Reads2(s, y, m) ensures |parts| == 2 { SplitTwo(s, y, m); }
    forall y, m, d | Reads3(s, y, m, d) ensures |parts| == 3 { SplitThree(s, y, m, d); }
    if |parts| == 2 {
      assert Join(parts[1..], '/') == parts[1];
      assert Reads2(s, parts[0], parts[1]);
      PaddedIsPaddedForm(parts[1]);
      assert s[|parts[0]|] == '/';
    }
    if |parts| == 3 {
      assert parts[1..][1..] == parts[2..] && Join(parts[1..], '/') == parts[1] + "/" + parts[2];
      assert parts[0] + "/" + (parts[1] + "/" + parts[2]) == parts[0] + "/" + parts[1] + "/" + parts[2];
      assert Reads3(s, parts[0], parts[1], parts[2]);
      PaddedIsPaddedForm(parts[1]);
      PaddedIsPaddedForm(parts[2]);
      assert s[|parts[0]|] == '/';
    }
  }

  lemma SplitTwo(s: string, y: string, m: string)
    requires Reads2(s, y, m)
    ensures Split(s, '/') == [y, m]
  {
    SplitPrefix(y, m, '/');
    SplitPrefix(m, "", '/');
  }

  lemma SplitThree(s: string, y: string, m: string, d: string)
    requires Reads3(s, y, m, d)
    ensures Split(s, '/') == [y, m, d]
  {
    SplitTwo(m + "/" + d, m, d);
    SplitPrefix(y, m + "/" + d, '/');
    assert s == y + "/" + (m + "/" + d);
  }

  /** At most three parts, with no leading zero in month and day. */
  predicate IsNormal(s: string) {
    var parts := Split(s, '/');
    |parts| <= 3 && forall i | 1 <= i < |parts| :: parts[i] == "" || parts[i][0] != '0'
  }

  predicate IsSlashFree(d: Date) {
    && '/' !in d.year
    && (d.month.Some? ==> '/' !in d.month.value)
    && (d.day.Some? ==> '/' !in d.day.value)
  }

  /** A date the string form can carry: no day without a month, and padded parts. */
  predicate IsCanonical(d: Date) {
    && IsSlashFree(d)
    && (d.day.Some? ==> d.month.Some?)
    && (d.month.Some? ==> IsPadded(d.month.value))
    && (d.day.Some? ==> IsPadded(d.day.value))
  }

  function PartsOf(d: Date): seq<string> {
    match d.month
    case None => [d.year]
    case Some(month) =>
      match d.day
      case None => [d.year, StripZeros(month)]
      case Some(day) => [d.year, StripZeros(month), StripZeros(day)]
  }

  lemma SplitDate(d: Date)
    requires IsSlashFree(d)
    ensures DateToString(d) == Join(PartsOf(d), '/')
    ensures Split(DateToString(d), '/') == PartsOf(d)
  {
    if d.month.Some? {
      var year, month := d.year, StripZeros(d.month.value);
      assert [year, month][1..] == [month] && Join([month], '/') == month;
      if d.day.Some? {
        var day := StripZeros(d.day.value);
        assert [year, month, day][1..] == [month, day] && [month, day][1..] == [day];
        assert Join([month, day], '/') == month + "/" + day;
        assert year + "/" + month + "/" + day == year + "/" + (month + "/" + day);
      }
    }
    if d.month.Some? { StripKeepsOut(d.month.value, '/'); }
    if d.day.Some? { StripKeepsOut(d.day.value, '/'); }
    SplitJoin(PartsOf(d), '/');
  }

  lemma ParsedIsSlashFree(s: string)
    ensures ParseDate(s).Ok? ==> IsSlashFree(ParseDate(s).value)
  {
  }

  lemma SlashFreePrintsNormal(d: Date)
    requires IsSlashFree(d)
    ensures IsNormal(DateToString(d))
  {
    SplitDate(d);
  }

  /** What a date string becomes on its way to ORCID and back: its month and day without leading zeros. */
  lemma PrintedParts(s: string)
    requires ParseDate(s).Ok?
    ensures
      var parts := Split(s, '/');
      PartsOf(ParseDate(s).value) ==
      [parts[0]] + seq(|parts| - 1, i requires 0 <= i < |parts| - 1 => StripZeros(parts[i + 1]))
  {
    var parts := Split(s, '/');
    if |parts| >= 2 { StripPadded(parts[1]); }
    if |parts| == 3 { StripPadded(parts[2]); }
  }

  /** Printing a parsed date gives back exactly the normal strings. */
  lemma PrintParseIff(s: string)
    ensures ParseDate(s).Ok? && DateToString(ParseDate(s).value) == s <==> IsNormal(s)
  {
    if ParseDate(s).Ok? {
      var parts, d := Split(s, '/'), ParseDate(s).value;
      PrintedParts(s);
      JoinSplit(s, '/');
      ParsedIsSlashFree(s);
      SplitDate(d);
      SlashFreePrintsNormal(d);
      if IsNormal(s) { assert PartsOf(d) == parts; }
    }
  }

  /** One trip is enough: every date of one to three parts is normal after it. */
  lemma PrintParseIdempotent(s: string)
    requires ParseDate(s).Ok?
    ensures var t := DateToString(ParseDate(s).value);
            ParseDate(t).Ok? && DateToString(ParseDate(t).value) == t
  {
    ParsedIsSlashFree(s);
    SlashFreePrintsNormal(ParseDate(s).value);
    PrintParseIff(DateToString(ParseDate(s).value));
  }

  /** Parsing a printed date gives back exactly the canonical dates. */
  lemma ParsePrintIff(d: Date)
    ensures ParseDate(DateToString(d)) == Ok(d) <==> IsCanonical(d)
  {
    if IsSlashFree(d) {
      SplitDate(d);
      if d.month.Some? { PadStrippedIff(d.month.value); }
      if d.day.Some? { PadStrippedIff(d.day.value); }
    } else {
      ParsedIsSlashFree(DateToString(d));
    }
  }
}
