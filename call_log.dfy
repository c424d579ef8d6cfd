/**
 * The entries of the device call log, as the screens read them from
 * `CallLogs.load(n)`. Date handling is abstracted: the hour, weekday and
 * calendar day that moment.js derives from an entry are fields of the entry.
 */
module CallLog {

  /** The `type` string of a call-log entry; every other string the OS reports is OtherType. */
  datatype CallType = Incoming | Outgoing | Missed | OtherType

  /**
   * A calendar day obtained by parsing a date string with moment.js:
   * InvalidDate when the string does not parse, in which case moment formats
   * it as the text "Invalid date". Two DayKeys are equal exactly when their
   * 'YYYY-MM-DD' renderings are equal strings.
   */
  datatype DayKey = Day(n: int) | InvalidDate

  datatype CallLogEntry = CallLogEntry(
    callType: CallType,
    timestamp: string,    // epoch milliseconds as text; the key the screens match and dedupe on
    dateTime: string,     // the date as display text
    phoneNumber: string,
    name: string,
    duration: int,
    hour: int,            // moment(parseInt(timestamp)).hours()
    weekday: int,         // moment(parseInt(timestamp)).day(): 0 is Sunday, 6 Saturday
    day: int,             // calendar day of timestamp
    dateTimeDay: DayKey   // calendar day of dateTime parsed as 'MMM D, YYYY h:mm:ss A' by the screen
                          // that reads it: strictly in CallScreen.js, forgivingly in newCallscreen.js
  )

  /** The set of all timestamps occurring in `logs`. */
  function Timestamps(logs: seq<CallLogEntry>): set<string> {
    set i | 0 <= i < |logs| :: logs[i].timestamp
  }
}
