# Joda-Time date column codec

A model of `JodaDateColumnType`, the column type through which the Exposed SQL
library stores Joda-Time `DateTime` values in `DATE` and `DATETIME` columns. The
codec has three conversions, all pure:

- `nonNullValueToString` renders a value as an SQL literal: a `String` is passed
  through as it is; a `DateTime`, `java.sql.Date` or `java.sql.Timestamp` is
  printed by the date-time formatter (DATETIME column, in the default time zone)
  or the date formatter (DATE column) and put between single quotes; anything
  else is the error "Unexpected value".
- `valueFromDB` turns what the JDBC driver returns into a `DateTime`: driver
  dates and timestamps, `Int` and `Long` become a `DateTime` at that epoch
  millisecond in the default zone; a `String` is parsed by the SQLite formatters
  under SQLite and returned unparsed otherwise; any other object is parsed from
  its `toString()` with the default date-time formatter. An `Int` is taken as
  epoch milliseconds (`DateTime(value.toLong())`, line 55), and outside SQLite
  a `String` comes back as the unparsed `String` (line 60).
- `notNullValueToDB` turns a `DateTime` into the driver value to bind: a
  `java.sql.Timestamp` for DATETIME, a `java.sql.Date` for DATE, at the same
  instant; other values are bound as they are.

Layout:

- `wrappers.dfy` (module `Wrappers`): `Option` and `Result`.
- `joda_time.dfy` (module `JodaTime`): Kotlin `Int`/`Long` as `int32`/`int64`,
  Joda's `DateTime` (an epoch-millisecond instant, a zone and a chronology,
  ISO or another), and a `Joda`
  context holding the default time zone and the four formatter constants. A
  formatter is a pair of arbitrary total functions (print, and parse with
  `None` for a parse exception), so the codec's properties are proved for
  every behaviour of the library.
- `joda_date_column_type.dfy` (module `JodaDateColumnType`): the driver shapes as
  a closed datatype `Value`, the column kind `DateType`, the three operations as
  functions taking the kind, the SQLite dialect flag and the `Joda` context as
  parameters, and the lemmas relating them.

## Model

| member | source | states |
|---|---|---|
| `JodaDateColumnType.Quote` | extensions/data-types/joda-time/src/main/kotlin/org/jetbrains/exposed/extensions/dataTypes/joda/JodaDateTimeColumnType.kt:45-48 | a quoted literal is two characters longer than its text, starts with `'` and ends with `'` |
| `JodaDateColumnType.BetweenQuotes` | extensions/data-types/joda-time/src/main/kotlin/org/jetbrains/exposed/extensions/dataTypes/joda/JodaDateTimeColumnType.kt:45-48 | the characters between the two quotes of a literal are exactly the quoted text |
| `JodaDateColumnType.QuoteInjective` | extensions/data-types/joda-time/src/main/kotlin/org/jetbrains/exposed/extensions/dataTypes/joda/JodaDateTimeColumnType.kt:45-48 | two equal literals quote the same text |
| `JodaDateColumnType.NonNullValueToString` | extensions/data-types/joda-time/src/main/kotlin/org/jetbrains/exposed/extensions/dataTypes/joda/JodaDateTimeColumnType.kt:35-49 | a `String` comes back unchanged and unquoted; the result is an error exactly when the input is neither a `String` nor date-like, and the error names the input; a date-like input of a DATETIME column is the quoted date-time formatter output for its instant in the default zone, through the `DateTime`'s own chronology or, for a driver value, ISO; of a DATE column, the quoted date formatter output for the `DateTime` itself, or for the driver value's instant as an ISO `DateTime` in the default zone |
| `JodaDateColumnType.ValueFromDB` | extensions/data-types/joda-time/src/main/kotlin/org/jetbrains/exposed/extensions/dataTypes/joda/JodaDateTimeColumnType.kt:51-63 | a `DateTime` comes back unchanged; a driver date or timestamp, a `Long`, and an `Int` widened without change, become an ISO `DateTime` at that millisecond in the default zone; a `String` is returned unchanged outside SQLite and parsed under SQLite by the SQLite date-time parser (DATETIME) or the ISO year-month-day parser (DATE); any other object is parsed from its text by the default date-time formatter; every success is a `DateTime` except the non-SQLite `String` pass-through, and only those parses can fail |
| `JodaDateColumnType.NotNullValueToDB` | extensions/data-types/joda-time/src/main/kotlin/org/jetbrains/exposed/extensions/dataTypes/joda/JodaDateTimeColumnType.kt:65-75 | a `DateTime` becomes a timestamp (DATETIME) or a driver date (DATE) carrying the same milliseconds; every other value is returned unchanged |
| `JodaDateColumnType.SameInstantSameLiteral` | extensions/data-types/joda-time/src/main/kotlin/org/jetbrains/exposed/extensions/dataTypes/joda/JodaDateTimeColumnType.kt:38-48 | a driver date, a driver timestamp and an ISO `DateTime` in the default zone at the same instant render as the same literal for either kind; for a DATETIME column an ISO `DateTime` in any zone does too |
| `JodaDateColumnType.LiteralDeterminesFormatterText` | extensions/data-types/joda-time/src/main/kotlin/org/jetbrains/exposed/extensions/dataTypes/joda/JodaDateTimeColumnType.kt:45-48 | two date-like values render as the same literal if and only if the column's formatter prints the same text for them |
| `JodaDateColumnType.BindThenReadBack` | extensions/data-types/joda-time/src/main/kotlin/org/jetbrains/exposed/extensions/dataTypes/joda/JodaDateTimeColumnType.kt:51-75 | for either kind and either dialect, a `DateTime` converted to its driver value and read back is an ISO `DateTime` with the same milliseconds, in the default zone |
| `JodaDateColumnType.ValueFromDBIdempotent` | extensions/data-types/joda-time/src/main/kotlin/org/jetbrains/exposed/extensions/dataTypes/joda/JodaDateTimeColumnType.kt:51-63 | reading back a successfully read value returns it unchanged |
| `JodaDateColumnType.BindPreservesLiteral` | extensions/data-types/joda-time/src/main/kotlin/org/jetbrains/exposed/extensions/dataTypes/joda/JodaDateTimeColumnType.kt:35-75 | the driver value built for a value renders as the same literal as the value itself, unless the value is a `DateTime` of a non-ISO chronology, or the column is DATE and the value is a `DateTime` outside the default zone |
| `JodaDateColumnType.BindForgetsZoneOfDate` | extensions/data-types/joda-time/src/main/kotlin/org/jetbrains/exposed/extensions/dataTypes/joda/JodaDateTimeColumnType.kt:39-48 | for a DATE column there is a date formatter under which an ISO `DateTime` outside the default zone and the `java.sql.Date` it is bound as render as different literals |
| `JodaDateColumnType.BindForgetsChronology` | extensions/data-types/joda-time/src/main/kotlin/org/jetbrains/exposed/extensions/dataTypes/joda/JodaDateTimeColumnType.kt:39-48 | for either kind there is a formatter under which a non-ISO `DateTime` in the default zone and the driver value it is bound as render as different literals |

## Left out

- `Table.date` and `Table.datetime` (lines 19 and 26): they only register the column type with the host library's `registerColumn`, which is not part of this model.
- The inherited behaviour of the `DateColumnType` base class, including null handling: the three operations are only reached with non-null values.
- The ambient `isSQLite` flag and `DateTimeZone.getDefault()`: both are parameters (`isSQLite`, `Joda.defaultZone`).
- Joda-Time's formatting and parsing: the patterns, the root locale, the `YYYY` week-year symbol and calendar arithmetic are not interpreted; each formatter is an arbitrary function, so whether the SQLite parsers accept the literals the default formatters print, and what calendar date a DATE column keeps, are not stated.
- The error message text: `UnexpectedValue` carries the offending value instead of the string built from its `toString()` and its class name.
- The `toString()` of an object of none of the recognised shapes is its `repr` field rather than computed.
- Kotlin's `when` tests the classes in order; the model's shapes are disjoint, which matches the JDK, where `java.sql.Timestamp` and `java.sql.Date` are unrelated subclasses of `java.util.Date`. A plain `java.util.Date` is an `Other` value.
- Chronologies are not interpreted: a `DateTime`'s chronology is either ISO or a named other one, and the formatters may depend on it arbitrarily; what a particular chronology prints is not stated.
