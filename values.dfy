/** `Client._format_value`: turn the text of a response field into a typed value. */
module Values {
  import opened Results
  import opened Strings

  datatype DateTime = DateTime(year: int, month: int, day: int, hour: int, minute: int, second: int)

  /** An attribute value of a decoded object. `_format_value` produces only
      `Bool`, `Str` and `Timestamp`; `Null` comes from constructor defaults
      and from `Mailing._format_data`, `Int` only from the `max_price_ex_vat`
      default of `PROCESS_MAILING`. */
  datatype Value = Null | Bool(b: bool) | Int(i: int) | Str(s: string) | Timestamp(t: DateTime)

  /** The two ways `datetime.strptime` rejects a value RE_DATETIME let through:
      text left over after the seconds, or a day the month does not have. */
  datatype ParseError = UnconvertedData | DayOutOfRange

  function DigitValue(c: char): int {
    c as int - '0' as int
  }

  function TwoDigits(a: char, b: char): int {
    10 * DigitValue(a) + DigitValue(b)
  }

  // The alternatives of RE_DATETIME, one two-character field at a time.

  /** `(0[1-9]|[12][0-9]|3[01])` */
  predicate DayField(a: char, b: char) {
    (a == '0' && '1' <= b <= '9') || ((a == '1' || a == '2') && IsDigit(b)) || (a == '3' && (b == '0' || b == '1'))
  }

  /** `(0[1-9]|1[012])` */
  predicate MonthField(a: char, b: char) {
    (a == '0' && '1' <= b <= '9') || (a == '1' && '0' <= b <= '2')
  }

  /** `(19|20)` */
  predicate CenturyField(a: char, b: char) {
    (a == '1' && b == '9') || (a == '2' && b == '0')
  }

  /** `([0-1][0-9]|2[0-3])` */
  predicate HourField(a: char, b: char) {
    ('0' <= a <= '1' && IsDigit(b)) || (a == '2' && '0' <= b <= '3')
  }

  /** `[0-5][0-9]` */
  predicate SixtyField(a: char, b: char) {
    '0' <= a <= '5' && IsDigit(b)
  }

  /** The nineteen characters `dd/mm/yyyy HH:MM:SS` that RE_DATETIME spells out. */
  predicate DateTimeShape(s: string) {
    && |s| == 19
    && DayField(s[0], s[1]) && s[2] == '/'
    && MonthField(s[3], s[4]) && s[5] == '/'
    && CenturyField(s[6], s[7]) && IsDigit(s[8]) && IsDigit(s[9]) && s[10] == ' '
    && HourField(s[11], s[12]) && s[13] == ':'
    && SixtyField(s[14], s[15]) && s[16] == ':'
    && SixtyField(s[17], s[18])
  }

  /** `re.match(RE_DATETIME, value)` succeeds: the pattern is anchored at the
      start, and its `$` matches at the end or just before a final newline. */
  predicate MatchesDateTime(v: string)
    ensures MatchesDateTime(v) ==>
      && |v| >= 19
      && 1900 <= Components(v).year <= 2099 && 1 <= Components(v).month <= 12 && 1 <= Components(v).day <= 31
      && 0 <= Components(v).hour <= 23 && 0 <= Components(v).minute <= 59 && 0 <= Components(v).second <= 59
  {
    DateTimeShape(v) || (|v| == 20 && DateTimeShape(v[..19]) && v[19] == '\n')
  }

  /** The fields PTN_DATETIME (`%d/%m/%Y %H:%M:%S`) reads from the text. */
  function Components(s: string): DateTime
    requires |s| >= 19
  {
    DateTime(100 * TwoDigits(s[6], s[7]) + TwoDigits(s[8], s[9]), TwoDigits(s[3], s[4]), TwoDigits(s[0], s[1]),
             TwoDigits(s[11], s[12]), TwoDigits(s[14], s[15]), TwoDigits(s[17], s[18]))
  }

  predicate IsLeapYear(y: int) {
    y % 4 == 0 && (y % 100 != 0 || y % 400 == 0)
  }

  function DaysInMonth(month: int, year: int): int
    requires 1 <= month <= 12
  {
    if month == 2 then (if IsLeapYear(year) then 29 else 28)
    else if month == 4 || month == 6 || month == 9 || month == 11 then 30
    else 31
  }

  predicate ValidDate(t: DateTime) {
    1 <= t.month <= 12 && 1 <= t.day <= DaysInMonth(t.month, t.year)
  }

  /** `datetime.strptime(value, PTN_DATETIME)`, on a value RE_DATETIME accepted. */
  function StrpTime(v: string): (r: Result<DateTime, ParseError>)
    requires MatchesDateTime(v)
    ensures r.Success? ==> InPatternRange(r.value) && FormatTimestamp(r.value) == v
    ensures r.Failure? && r.error == UnconvertedData ==> v[|v| - 1] == '\n'
  {
    if |v| != 19 then Failure(UnconvertedData)
    else if ValidDate(Components(v)) then TextOfComponents(v); Success(Components(v))
    else Failure(DayOutOfRange)
  }

  /** `Client._format_value`. */
  function FormatValue(v: string): (r: Result<Value, ParseError>)
    ensures r.Success? ==> !r.value.Null? && !r.value.Int?
    ensures r.Failure? ==> MatchesDateTime(v)
  {
    if MatchesDateTime(v) then
      match StrpTime(v)
      case Success(t) => Success(Timestamp(t))
      case Failure(e) => Failure(e)
    else if Lower(v) == "yes" then Success(Bool(true))
    else if Lower(v) == "no" then Success(Bool(false))
    else Success(Str(v))
  }

  // The text PTN_DATETIME gives a timestamp: the reference the decoder is checked against.

  function Digit(n: int): char
    requires 0 <= n <= 9
  {
    ('0' as int + n) as char
  }

  /** The timestamps RE_DATETIME can describe and `strptime` accepts. */
  predicate InPatternRange(t: DateTime) {
    && 1900 <= t.year <= 2099
    && ValidDate(t)
    && 0 <= t.hour <= 23 && 0 <= t.minute <= 59 && 0 <= t.second <= 59
  }

  /** `t.strftime(PTN_DATETIME)`. */
  function FormatTimestamp(t: DateTime): (s: string)
    requires InPatternRange(t)
    ensures |s| == 19
  {
    var c := t.year / 100;
    var y := t.year % 100;
    [ Digit(t.day / 10), Digit(t.day % 10), '/', Digit(t.month / 10), Digit(t.month % 10), '/',
      Digit(c / 10), Digit(c % 10), Digit(y / 10), Digit(y % 10), ' ',
      Digit(t.hour / 10), Digit(t.hour % 10), ':', Digit(t.minute / 10), Digit(t.minute % 10), ':',
      Digit(t.second / 10), Digit(t.second % 10) ]
  }

  lemma TwoDigitsOfPadded(n: int)
    requires 0 <= n <= 99
    ensures IsDigit(Digit(n / 10)) && IsDigit(Digit(n % 10))
    ensures TwoDigits(Digit(n / 10), Digit(n % 10)) == n
  {
  }

  lemma PaddedOfTwoDigits(a: char, b: char)
    requires IsDigit(a) && IsDigit(b)
    ensures 0 <= TwoDigits(a, b) <= 99
    ensures Digit(TwoDigits(a, b) / 10) == a && Digit(TwoDigits(a, b) % 10) == b
  {
  }

  lemma FieldsOfPadded(t: DateTime)
    requires InPatternRange(t)
    ensures DayField(Digit(t.day / 10), Digit(t.day % 10))
    ensures MonthField(Digit(t.month / 10), Digit(t.month % 10))
    ensures CenturyField(Digit(t.year / 100 / 10), Digit(t.year / 100 % 10))
    ensures HourField(Digit(t.hour / 10), Digit(t.hour % 10))
    ensures SixtyField(Digit(t.minute / 10), Digit(t.minute % 10))
    ensures SixtyField(Digit(t.second / 10), Digit(t.second % 10))
  {
    assert t.year / 100 == 19 || t.year / 100 == 20;
  }

  lemma ShapeOfFormatted(t: DateTime)
    requires InPatternRange(t)
    ensures DateTimeShape(FormatTimestamp(t))
  {
    var s := FormatTimestamp(t);
    FieldsOfPadded(t);
    TwoDigitsOfPadded(t.year % 100);
    assert DayField(s[0], s[1]) && MonthField(s[3], s[4]) && CenturyField(s[6], s[7]);
    assert IsDigit(s[8]) && IsDigit(s[9]);
    assert HourField(s[11], s[12]) && SixtyField(s[14], s[15]) && SixtyField(s[17], s[18]);
  }

  lemma ComponentsOfFormatted(t: DateTime)
    requires InPatternRange(t)
    ensures Components(FormatTimestamp(t)) == t
  {
    var s := FormatTimestamp(t);
    TwoDigitsOfPadded(t.day);
    TwoDigitsOfPadded(t.month);
    TwoDigitsOfPadded(t.year / 100);
    TwoDigitsOfPadded(t.year % 100);
    TwoDigitsOfPadded(t.hour);
    TwoDigitsOfPadded(t.minute);
    TwoDigitsOfPadded(t.second);
  }

  /** Every timestamp in the pattern's range is decoded, exactly, from its own text. */
  lemma TimestampRoundTrip(t: DateTime)
    requires InPatternRange(t)
    ensures FormatValue(FormatTimestamp(t)) == Success(Timestamp(t))
  {
    ShapeOfFormatted(t);
    ComponentsOfFormatted(t);
  }

  /** A timestamp comes only from the text of an in-range date. */
  lemma TimestampFromText(v: string, t: DateTime)
    requires FormatValue(v) == Success(Timestamp(t))
    ensures InPatternRange(t) && v == FormatTimestamp(t)
  {
    assert DateTimeShape(v) && t == Components(v);
    TextOfComponents(v);
  }

  /** Text of the pattern's shape naming a real date is the text of its own fields. */
  lemma TextOfComponents(v: string)
    requires DateTimeShape(v) && ValidDate(Components(v))
    ensures InPatternRange(Components(v)) && FormatTimestamp(Components(v)) == v
  {
    var t := Components(v);
    PaddedOfTwoDigits(v[0], v[1]);
    PaddedOfTwoDigits(v[3], v[4]);
    PaddedOfTwoDigits(v[6], v[7]);
    PaddedOfTwoDigits(v[8], v[9]);
    PaddedOfTwoDigits(v[11], v[12]);
    PaddedOfTwoDigits(v[14], v[15]);
    PaddedOfTwoDigits(v[17], v[18]);
    assert t.year / 100 == TwoDigits(v[6], v[7]) && t.year % 100 == TwoDigits(v[8], v[9]);
    var s := FormatTimestamp(t);
    assert forall k | 0 <= k < 19 :: s[k] == v[k];
  }

  /** "yes" and "no", in any letter case, and only they, become booleans. */
  lemma YesNoBooleans(v: string, b: bool)
    ensures FormatValue(v) == Success(Bool(b)) <==> Lower(v) == (if b then "yes" else "no")
  {
  }

  /** Any other text outside the date pattern is returned as it is. */
  lemma OtherTextUnchanged(v: string)
    ensures FormatValue(v).Success? && FormatValue(v).value.Str?
        <==> !MatchesDateTime(v) && Lower(v) != "yes" && Lower(v) != "no"
    ensures FormatValue(v).Success? && FormatValue(v).value.Str? ==> FormatValue(v).value.s == v
  {
  }

  /** A value that matches the pattern never falls back to a string: it is a
      timestamp or an error, and an error exactly when it ends in a newline or
      names a day its month lacks. */
  lemma PatternMatchFails(v: string)
    ensures FormatValue(v).Failure?
        <==> MatchesDateTime(v) && (|v| != 19 || !ValidDate(Components(v)))
    ensures MatchesDateTime(v) ==> FormatValue(v).Failure? || FormatValue(v).value.Timestamp?
  {
  }

  lemma ExampleYes(v: string)
    requires v == "Yes"
    ensures FormatValue(v) == Success(Bool(true))
  {
    assert Lower(v) == "yes";
  }

  lemma ExampleNo(v: string)
    requires v == "No"
    ensures FormatValue(v) == Success(Bool(false))
  {
    assert Lower(v) == "no";
  }

  lemma ExampleStandard(v: string)
    requires v == "Standard"
    ensures FormatValue(v) == Success(Str(v))
  {
    assert Lower(v)[0] == 's';
  }

  lemma ExampleBadDigits(v: string)
    requires v == "32/13/2020 99:99:99"
    ensures FormatValue(v) == Success(Str(v))
  {
    assert !DayField(v[0], v[1]);
    assert Lower(v)[0] == '3';
  }

  lemma ExamplesPlainText()
    ensures FormatValue("Yes") == Success(Bool(true))
    ensures FormatValue("No") == Success(Bool(false))
    ensures FormatValue("Standard") == Success(Str("Standard"))
    ensures FormatValue("32/13/2020 99:99:99") == Success(Str("32/13/2020 99:99:99"))
  {
    ExampleYes("Yes");
    ExampleNo("No");
    ExampleStandard("Standard");
    ExampleBadDigits("32/13/2020 99:99:99");
  }

  lemma ExampleTimestamp()
    ensures FormatValue("25/12/2020 13:45:00") == Success(Timestamp(DateTime(2020, 12, 25, 13, 45, 0)))
  {
    var t := DateTime(2020, 12, 25, 13, 45, 0);
    assert FormatTimestamp(t) == "25/12/2020 13:45:00";
    TimestampRoundTrip(t);
  }

  /** 31 February matches the pattern but is no date, so decoding fails. */
  lemma ExampleNoSuchDay()
    ensures FormatValue("31/02/2020 00:00:00") == Failure(DayOutOfRange)
    ensures FormatValue("29/02/1900 00:00:00") == Failure(DayOutOfRange)
  {
    assert DateTimeShape("31/02/2020 00:00:00");
    assert Components("31/02/2020 00:00:00") == DateTime(2020, 2, 31, 0, 0, 0);
    assert DateTimeShape("29/02/1900 00:00:00");
    assert Components("29/02/1900 00:00:00") == DateTime(1900, 2, 29, 0, 0, 0);
  }

  /** A final newline passes the pattern and then fails the parse. */
  lemma NewlineFails(s: string)
    requires DateTimeShape(s)
    ensures FormatValue(s + "\n") == Failure(UnconvertedData)
  {
    assert (s + "\n")[..19] == s;
  }

  lemma ExampleTrailingNewline()
    ensures FormatValue("25/12/2020 13:45:00\n") == Failure(UnconvertedData)
  {
    var s := "25/12/2020 13:45:00";
    assert DateTimeShape(s);
    NewlineFails(s);
    assert s + "\n" == "25/12/2020 13:45:00\n";
  }
}
