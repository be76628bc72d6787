/**
 The parts of Joda-Time and of the JVM that the date column codec calls.

 Their behaviour is not visible here, so the model assumes none: the process
 default time zone and the four formatters the codec uses are fields of a
 `Joda` value, and every statement proved about the codec holds for every
 choice of them.
 */
module JodaTime {
  import opened Wrappers

  /** Kotlin `Int`. */
  newtype int32 = x: int | -0x8000_0000 <= x < 0x8000_0000

  /** Kotlin `Long`, the type of an epoch-millisecond instant. */
  newtype int64 = x: int | -0x8000_0000_0000_0000 <= x < 0x8000_0000_0000_0000

  /** A time zone, known by its identifier. */
  datatype DateTimeZone = DateTimeZone(id: string)

  /**
   The calendar system of a `DateTime`: Joda's ISO chronology, or another one
   (Buddhist, Julian, GJ, ...) known by its name.
   */
  datatype Chronology = ISO | NonISO(name: string)

  /**
   A Joda `DateTime`: an instant in epoch milliseconds, seen in a time zone
   through a chronology.
   */
  datatype DateTime = DateTime(millis: int64, zone: DateTimeZone, chronology: Chronology)

  /**
   A Joda `DateTimeFormatter`: `printer` is its `print`, which renders a
   `DateTime` as text, and `parser` its `parseDateTime`, which reads one
   back, `None` standing for the exception Joda throws on text it cannot
   parse.
   */
  datatype DateTimeFormatter = DateTimeFormatter(
    printer: DateTime -> string,
    parser: string -> Option<DateTime>)

  /**
   The library context of the codec: `DateTimeZone.getDefault()` and the four
   formatter constants, built from the patterns
     defaultDate      "YYYY-MM-dd", root locale
     defaultDateTime  "YYYY-MM-dd HH:mm:ss.SSSSSS", root locale
     sqliteDateTime   "YYYY-MM-dd HH:mm:ss"
     sqliteDate       ISO year-month-day
   */
  datatype Joda = Joda(
    defaultZone: DateTimeZone,
    defaultDate: DateTimeFormatter,
    defaultDateTime: DateTimeFormatter,
    sqliteDateTime: DateTimeFormatter,
    sqliteDate: DateTimeFormatter)

  /**
   The constructor `DateTime(millis)`, which sees the instant in the default
   zone through the ISO chronology.
   */
  function NewDateTime(joda: Joda, millis: int64): DateTime
  {
    DateTime(millis, joda.defaultZone, ISO)
  }

  /**
   `dateTime.toDateTime(zone)`: the same instant seen in another zone, through
   the same chronology.
   */
  function ToDateTime(dateTime: DateTime, zone: DateTimeZone): DateTime
  {
    DateTime(dateTime.millis, zone, dateTime.chronology)
  }
}
