/**
 The date column codec `JodaDateColumnType`: it renders Joda date/time values
 as SQL literals, reads the shapes a JDBC driver hands back, and builds the
 driver value bound for a Joda value.

 The column's `DateType` and the dialect flag `isSQLite` are parameters, and
 so is the Joda library context (see module JodaTime).
 */
module JodaDateColumnType {
  import opened Wrappers
  import opened JodaTime

  /** Whether the column stores a date only or a date and a time. */
  datatype DateType = DATE | DATETIME

  /** The runtime shapes of the `Any` the three operations receive. */
  datatype Value =
    | JodaDateTime(dateTime: DateTime)  // org.joda.time.DateTime
    | SqlDate(time: int64)              // java.sql.Date, by its `time` in epoch milliseconds
    | SqlTimestamp(time: int64)         // java.sql.Timestamp, by its `time` in epoch milliseconds
    | IntV(i: int32)                    // Int
    | LongV(l: int64)                   // Long
    | Str(s: string)                    // String
    | Other(repr: string)               // any other object, by its toString()

  /** The two failures: `error("Unexpected value: ...")` and a Joda parse exception. */
  datatype Error = UnexpectedValue(value: Value) | Unparsable(text: string)

  /** The shapes that carry an instant: a Joda DateTime, a java.sql.Date, a java.sql.Timestamp. */
  predicate IsDateLike(value: Value) {
    value.JodaDateTime? || value.SqlDate? || value.SqlTimestamp?
  }

  /** The epoch-millisecond instant a date-like value carries. */
  function InstantOf(value: Value): int64
    requires IsDateLike(value)
  {
    match value
    case JodaDateTime(dt) => dt.millis
    case SqlDate(t) => t
    case SqlTimestamp(t) => t
  }

  /** The Kotlin string template "'$text'". */
  function Quote(text: string): (r: string)
    ensures |r| == |text| + 2 && r[0] == '\'' && r[|r| - 1] == '\''
  {
    "'" + text + "'"
  }

  /** The text between the quotes of a quoted literal is the quoted text. */
  lemma BetweenQuotes(text: string)
    ensures Quote(text)[1..|text| + 1] == text
  {
  }

  /** A quoted literal determines the text it quotes. */
  lemma QuoteInjective(a: string, b: string)
    requires Quote(a) == Quote(b)
    ensures a == b
  {
    BetweenQuotes(a);
    BetweenQuotes(b);
  }

  /** The DateTime a date-like value is rendered from: itself, or `DateTime(value.time)`. */
  function DateTimeOf(joda: Joda, value: Value): DateTime
    requires IsDateLike(value)
  {
    if value.JodaDateTime? then value.dateTime else NewDateTime(joda, InstantOf(value))
  }

  /** The formatter output that a date-like value is rendered as, before quoting. */
  function FormatterOutput(dateType: DateType, joda: Joda, dateTime: DateTime): string {
    if dateType == DATETIME then
      joda.defaultDateTime.printer(ToDateTime(dateTime, joda.defaultZone))
    else
      joda.defaultDate.printer(dateTime)
  }

  /**
   `nonNullValueToString`: a String is returned as it is; a DateTime, a
   java.sql.Date or a java.sql.Timestamp is rendered by the formatter of the
   column's kind and single-quoted; anything else is an error.
   */
  function NonNullValueToString(dateType: DateType, joda: Joda, value: Value): (r: Result<string, Error>)
    ensures value.Str? ==> r == Ok(value.s)
    ensures r.Err? <==> !value.Str? && !IsDateLike(value)
    ensures r.Err? ==> r.error == UnexpectedValue(value)
    // DATETIME: the instant, in the default zone, printed by the date-time formatter;
    // a DateTime keeps its chronology, a java.sql value is seen through ISO
    ensures value.JodaDateTime? && dateType == DATETIME ==>
      r == Ok(Quote(joda.defaultDateTime.printer(
             DateTime(value.dateTime.millis, joda.defaultZone, value.dateTime.chronology))))
    ensures (value.SqlDate? || value.SqlTimestamp?) && dateType == DATETIME ==>
      r == Ok(Quote(joda.defaultDateTime.printer(DateTime(InstantOf(value), joda.defaultZone, ISO))))
    // DATE: a DateTime printed as it is, a java.sql value in the default zone through ISO
    ensures value.JodaDateTime? && dateType == DATE ==>
      r == Ok(Quote(joda.defaultDate.printer(value.dateTime)))
    ensures (value.SqlDate? || value.SqlTimestamp?) && dateType == DATE ==>
      r == Ok(Quote(joda.defaultDate.printer(DateTime(InstantOf(value), joda.defaultZone, ISO))))
  {
    if value.Str? then Ok(value.s)
    else if IsDateLike(value) then Ok(Quote(FormatterOutput(dateType, joda, DateTimeOf(joda, value))))
    else Err(UnexpectedValue(value))
  }

  /** `formatter.parseDateTime(text)`, with the exception as an `Unparsable` error. */
  function Parse(formatter: DateTimeFormatter, text: string): Result<Value, Error> {
    match formatter.parser(text)
    case Some(dt) => Ok(JodaDateTime(dt))
    case None => Err(Unparsable(text))
  }

  /**
   `valueFromDB`: a DateTime is returned as it is; a java.sql.Date, a
   java.sql.Timestamp, an Int or a Long becomes an ISO DateTime at that
   instant in the default zone; a String is parsed under SQLite and returned
   as it is otherwise; anything else is parsed from its text by the default
   date-time formatter.
   */
  function ValueFromDB(dateType: DateType, isSQLite: bool, joda: Joda, value: Value): (r: Result<Value, Error>)
    ensures value.JodaDateTime? ==> r == Ok(value)
    ensures value.SqlDate? || value.SqlTimestamp? ==>
      r == Ok(JodaDateTime(DateTime(InstantOf(value), joda.defaultZone, ISO)))
    // An Int is widened to a Long without changing its value
    ensures value.IntV? ==>
      r.Ok? && r.value.JodaDateTime? && r.value.dateTime.millis as int == value.i as int
      && r.value.dateTime.zone == joda.defaultZone && r.value.dateTime.chronology == ISO
    ensures value.LongV? ==> r == Ok(JodaDateTime(DateTime(value.l, joda.defaultZone, ISO)))
    ensures value.Str? && !isSQLite ==> r == Ok(value)
    ensures value.Str? && isSQLite && dateType == DATETIME ==> r == Parse(joda.sqliteDateTime, value.s)
    ensures value.Str? && isSQLite && dateType == DATE ==> r == Parse(joda.sqliteDate, value.s)
    ensures value.Other? ==> r == Parse(joda.defaultDateTime, value.repr)
    // The result is a DateTime unless a String is passed through outside SQLite
    ensures r.Ok? ==> r.value.JodaDateTime? || (value.Str? && !isSQLite && r.value == value)
    // Only parsing fails
    ensures r.Err? ==>
      (value.Str? && isSQLite && r.error == Unparsable(value.s))
      || (value.Other? && r.error == Unparsable(value.repr))
  {
    match value
    case JodaDateTime(_) => Ok(value)
    case SqlDate(t) => Ok(JodaDateTime(NewDateTime(joda, t)))
    case SqlTimestamp(t) => Ok(JodaDateTime(NewDateTime(joda, t)))
    case IntV(i) => Ok(JodaDateTime(NewDateTime(joda, i as int64)))
    case LongV(l) => Ok(JodaDateTime(NewDateTime(joda, l)))
    case Str(s) =>
      if isSQLite && dateType == DATETIME then Parse(joda.sqliteDateTime, s)
      else if isSQLite then Parse(joda.sqliteDate, s)
      else Ok(value)
    case Other(repr) => Parse(joda.defaultDateTime, repr)
  }

  /**
   `notNullValueToDB`: a DateTime becomes a java.sql.Timestamp for a DATETIME
   column and a java.sql.Date for a DATE column, at the same instant; any
   other value is bound as it is.
   */
  function NotNullValueToDB(dateType: DateType, value: Value): (r: Value)
    ensures value.JodaDateTime? && dateType == DATETIME ==> r == SqlTimestamp(value.dateTime.millis)
    ensures value.JodaDateTime? && dateType == DATE ==> r == SqlDate(value.dateTime.millis)
    ensures !value.JodaDateTime? ==> r == value
  {
    if value.JodaDateTime? then
      var millis := value.dateTime.millis;
      if dateType == DATETIME then SqlTimestamp(millis) else SqlDate(millis)
    else
      value
  }

  /**
   A java.sql.Date, a java.sql.Timestamp and an ISO DateTime in the default
   zone at the same instant render as the same literal, for either kind; for
   a DATETIME column the ISO DateTime's own zone does not matter.
   */
  lemma SameInstantSameLiteral(dateType: DateType, joda: Joda, millis: int64, zone: DateTimeZone)
    ensures NonNullValueToString(dateType, joda, SqlDate(millis))
         == NonNullValueToString(dateType, joda, SqlTimestamp(millis))
         == NonNullValueToString(dateType, joda, JodaDateTime(DateTime(millis, joda.defaultZone, ISO)))
    ensures dateType == DATETIME ==>
      NonNullValueToString(dateType, joda, JodaDateTime(DateTime(millis, zone, ISO)))
      == NonNullValueToString(dateType, joda, SqlTimestamp(millis))
  {
  }

  /**
   Two date-like values render as the same literal exactly when the
   formatter of the column's kind gives the same text for them.
   */
  lemma LiteralDeterminesFormatterText(dateType: DateType, joda: Joda, v: Value, w: Value)
    requires IsDateLike(v) && IsDateLike(w)
    ensures NonNullValueToString(dateType, joda, v) == NonNullValueToString(dateType, joda, w)
        <==> FormatterOutput(dateType, joda, DateTimeOf(joda, v)) == FormatterOutput(dateType, joda, DateTimeOf(joda, w))
  {
    var a := FormatterOutput(dateType, joda, DateTimeOf(joda, v));
    var b := FormatterOutput(dateType, joda, DateTimeOf(joda, w));
    if Quote(a) == Quote(b) {
      QuoteInjective(a, b);
    }
  }

  /**
   Round trip: a DateTime bound to the driver and read back is an ISO
   DateTime at the same instant, in the default zone, for either kind and
   either dialect.
   */
  lemma BindThenReadBack(dateType: DateType, isSQLite: bool, joda: Joda, dateTime: DateTime)
    ensures ValueFromDB(dateType, isSQLite, joda, NotNullValueToDB(dateType, JodaDateTime(dateTime)))
         == Ok(JodaDateTime(DateTime(dateTime.millis, joda.defaultZone, ISO)))
  {
  }

  /** Reading back a value that was already read back changes nothing. */
  lemma ValueFromDBIdempotent(dateType: DateType, isSQLite: bool, joda: Joda, value: Value)
    requires ValueFromDB(dateType, isSQLite, joda, value).Ok?
    ensures var w := ValueFromDB(dateType, isSQLite, joda, value).value;
            ValueFromDB(dateType, isSQLite, joda, w) == Ok(w)
  {
  }

  /**
   Binding a value and then rendering the bound value gives the literal the
   value itself renders as, unless the value is a DateTime whose chronology
   is not ISO, or, for a DATE column, a DateTime outside the default zone:
   the bound java.sql value keeps neither (see the two lemmas below).
   */
  lemma BindPreservesLiteral(dateType: DateType, joda: Joda, value: Value)
    requires value.JodaDateTime? ==> value.dateTime.chronology == ISO
    requires value.JodaDateTime? && dateType == DATE ==> value.dateTime.zone == joda.defaultZone
    ensures NonNullValueToString(dateType, joda, NotNullValueToDB(dateType, value))
         == NonNullValueToString(dateType, joda, value)
  {
  }

  /**
   For a DATE column, some date formatter prints an ISO DateTime outside the
   default zone differently from the java.sql.Date it is bound as.
   */
  lemma BindForgetsZoneOfDate()
    ensures exists joda: Joda, millis: int64, zone: DateTimeZone ::
      var value := JodaDateTime(DateTime(millis, zone, ISO));
      NonNullValueToString(DATE, joda, NotNullValueToDB(DATE, value)) != NonNullValueToString(DATE, joda, value)
  {
    var byZone := DateTimeFormatter((d: DateTime) => d.zone.id, (text: string) => None);
    var joda := Joda(DateTimeZone("UTC"), byZone, byZone, byZone, byZone);
    var zone := DateTimeZone("Asia/Tokyo");
    var value := JodaDateTime(DateTime(0, zone, ISO));
    assert NonNullValueToString(DATE, joda, NotNullValueToDB(DATE, value)) == Ok(Quote("UTC"));
    assert NonNullValueToString(DATE, joda, value) == Ok(Quote("Asia/Tokyo"));
  }

  /**
   For either kind, some formatter prints a DateTime of a non-ISO
   chronology differently from the java.sql value it is bound as, even in
   the default zone.
   */
  lemma BindForgetsChronology(dateType: DateType)
    ensures exists joda: Joda, millis: int64 ::
      var value := JodaDateTime(DateTime(millis, joda.defaultZone, NonISO("Buddhist")));
      NonNullValueToString(dateType, joda, NotNullValueToDB(dateType, value)) != NonNullValueToString(dateType, joda, value)
  {
    var byChronology := DateTimeFormatter(
      (d: DateTime) => if d.chronology == ISO then "ISO" else "other", (text: string) => None);
    var joda := Joda(DateTimeZone("UTC"), byChronology, byChronology, byChronology, byChronology);
    var value := JodaDateTime(DateTime(0, joda.defaultZone, NonISO("Buddhist")));
    assert NonNullValueToString(dateType, joda, NotNullValueToDB(dateType, value)) == Ok(Quote("ISO"));
    assert NonNullValueToString(dateType, joda, value) == Ok(Quote("other"));
  }
}
