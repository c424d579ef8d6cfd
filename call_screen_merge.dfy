/**
 * The call screen of src/screens/CallScreen/CallScreen.js: business-hours
 * incoming and missed calls from the device log, followed by the device's
 * outgoing calls that fall on the same day as an outgoing call recorded in
 * the 'incoming_call_detailsTable' database.
 */
module CallScreenMerge {
  import opened Seqs
  import opened CallLog

  const START_HOUR := 8
  const END_HOUR := 21

  /** A row of 'incoming_call_detailsTable'; `callDay` is `call_date` parsed strictly as 'MMM D, YYYY HH:mm:ss'. */
  datatype DbCallRecord = DbCallRecord(id: int, phone: string, callDate: string, callDay: DayKey)

  /** An item of `combinedLogs`: a device entry as read, or a pushed `{type, phoneNumber, dateTime}` object. */
  datatype ListedCall =
    | Logged(entry: CallLogEntry)
    | Appended(callType: CallType, phoneNumber: string, dateTime: string)

  /** The filter of `fetchCallLogs`: incoming or missed, between 8:00 and 21:59, Monday to Friday. */
  predicate KeptByBaseFilter(e: CallLogEntry) {
    (e.callType == Incoming || e.callType == Missed) && START_HOUR <= e.hour <= END_HOUR && 1 <= e.weekday <= 5
  }

  function BaseFilter(logs: seq<CallLogEntry>): (r: seq<CallLogEntry>)
    ensures forall e :: e in r <==>
      e in logs && (e.callType == Incoming || e.callType == Missed) && 8 <= e.hour <= 21 && 1 <= e.weekday <= 5
    ensures forall e :: e in r ==> e.callType != Outgoing
    ensures IsSubsequence(r, logs)
    ensures forall e :: multiset(r)[e] == if KeptByBaseFilter(e) then multiset(logs)[e] else 0
  {
    Filter(logs, KeptByBaseFilter)
  }

  /** A device log that the loop pushes for `rec`: an outgoing call whose dateTime day renders like the record's. */
  predicate SameDayOutgoing(rec: DbCallRecord, log: CallLogEntry) {
    log.dateTimeDay == rec.callDay && log.callType == Outgoing
  }

  /** `matchingOutgoingLogs` for one database record. */
  function MatchesFor(rec: DbCallRecord, logs: seq<CallLogEntry>): (r: seq<CallLogEntry>)
    ensures forall log :: log in r <==> log in logs && log.callType == Outgoing && log.dateTimeDay == rec.callDay
    ensures IsSubsequence(r, logs)
    ensures forall log :: multiset(r)[log] == if SameDayOutgoing(rec, log) then multiset(logs)[log] else 0
  {
    Filter(logs, (log: CallLogEntry) => SameDayOutgoing(rec, log))
  }

  function AsLogged(logs: seq<CallLogEntry>): (r: seq<ListedCall>)
    ensures |r| == |logs| && forall i :: 0 <= i < |logs| ==> r[i] == Logged(logs[i])
  {
    seq(|logs|, i requires 0 <= i < |logs| => Logged(logs[i]))
  }

  /** The object pushed for a matching log. */
  function PushedFor(log: CallLogEntry): ListedCall {
    Appended(Outgoing, log.phoneNumber, log.dateTime)
  }

  function AsAppended(logs: seq<CallLogEntry>): (r: seq<ListedCall>)
    ensures |r| == |logs| && forall i :: 0 <= i < |logs| ==> r[i] == PushedFor(logs[i])
  {
    seq(|logs|, i requires 0 <= i < |logs| => PushedFor(logs[i]))
  }

  /** Everything the outer `forEach` pushes, record by record. */
  function AppendedFor(records: seq<DbCallRecord>, logs: seq<CallLogEntry>): seq<ListedCall>
    decreases |records|
  {
    if records == [] then []
    else AppendedFor(records[..|records| - 1], logs) + AsAppended(MatchesFor(records[|records| - 1], logs))
  }

  /** Processing one more record appends its matches. */
  lemma AppendedForStep(records: seq<DbCallRecord>, logs: seq<CallLogEntry>, i: nat)
    requires i < |records|
    ensures AppendedFor(records[..i + 1], logs) == AppendedFor(records[..i], logs) + AsAppended(MatchesFor(records[i], logs))
  {
    assert records[..i + 1][..i] == records[..i];
  }

  /** The outer loop's invariant is kept by one iteration. */
  lemma CombineStep(prefix: seq<ListedCall>, before: seq<ListedCall>, after: seq<ListedCall>,
                    records: seq<DbCallRecord>, logs: seq<CallLogEntry>, i: nat)
    requires i < |records|
    requires before == prefix + AppendedFor(records[..i], logs)
    requires after == before + AsAppended(MatchesFor(records[i], logs))
    ensures after == prefix + AppendedFor(records[..i + 1], logs)
  {
    AppendedForStep(records, logs, i);
  }

  /** Pushing one more match. */
  lemma AsAppendedStep(matching: seq<CallLogEntry>, j: nat)
    requires j < |matching|
    ensures AsAppended(matching[..j + 1]) == AsAppended(matching[..j]) + [PushedFor(matching[j])]
  {
  }

  /** The inner `forEach`: one `{type: 'OUTGOING', phoneNumber, dateTime}` pushed per matching log. */
  method PushMatches(combined: seq<ListedCall>, matching: seq<CallLogEntry>) returns (out: seq<ListedCall>)
    ensures out == combined + AsAppended(matching)
  {
    out := combined;
    var j := 0;
    while j < |matching|
      invariant 0 <= j <= |matching|
      invariant out == combined + AsAppended(matching[..j])
    {
      AsAppendedStep(matching, j);
      out := out + [PushedFor(matching[j])];
      j := j + 1;
    }
    assert matching[..j] == matching;
  }

  /** `fetchCallLogs`: the filtered logs then, for each database record in turn, its matching logs pushed one by one. */
  method CombineLogs(logs: seq<CallLogEntry>, records: seq<DbCallRecord>) returns (combined: seq<ListedCall>)
    ensures combined == AsLogged(BaseFilter(logs)) + AppendedFor(records, logs)
    ensures records == [] ==> combined == AsLogged(BaseFilter(logs))
  {
    var filtered := AsLogged(BaseFilter(logs));
    combined := filtered;
    var i := 0;
    assert records[..i] == [];
    while i < |records|
      invariant 0 <= i <= |records|
      invariant combined == filtered + AppendedFor(records[..i], logs)
    {
      var matching := MatchesFor(records[i], logs);
      ghost var before := combined;
      combined := PushMatches(combined, matching);
      CombineStep(filtered, before, combined, records, logs, i);
      i := i + 1;
    }
    assert records[..i] == records;
  }

  /** How many logs are pushed in all: for every record, the number of its same-day outgoing logs. */
  function TotalMatches(records: seq<DbCallRecord>, logs: seq<CallLogEntry>): nat
    decreases |records|
  {
    if records == [] then 0
    else TotalMatches(records[..|records| - 1], logs) + CountWhere(logs, (log: CallLogEntry) => SameDayOutgoing(records[|records| - 1], log))
  }

  /** The number of pushed entries is the sum over records of their matches; a log matching two records is pushed twice. */
  lemma {:induction false} AppendedCount(records: seq<DbCallRecord>, logs: seq<CallLogEntry>)
    ensures |AppendedFor(records, logs)| == TotalMatches(records, logs)
    decreases |records|
  {
    if records != [] {
      var last := records[|records| - 1];
      AppendedCount(records[..|records| - 1], logs);
      CountIsFilterLength(logs, (log: CallLogEntry) => SameDayOutgoing(last, log));
    }
  }

  /** Every pushed entry is an outgoing call carrying the phone number and dateTime of a matching device log. */
  lemma {:induction false} AppendedAreMatchingOutgoing(records: seq<DbCallRecord>, logs: seq<CallLogEntry>)
    ensures forall c :: c in AppendedFor(records, logs) ==>
      && c.Appended? && c.callType == Outgoing
      && exists log, rec :: log in logs && rec in records && SameDayOutgoing(rec, log) && c == PushedFor(log)
    decreases |records|
  {
    if records != [] {
      var init, last := records[..|records| - 1], records[|records| - 1];
      AppendedAreMatchingOutgoing(init, logs);
      assert forall rec :: rec in init ==> rec in records;
      forall c | c in AsAppended(MatchesFor(last, logs))
        ensures exists log, rec :: log in logs && rec in records && SameDayOutgoing(rec, log) && c == PushedFor(log)
      {
        var k :| 0 <= k < |MatchesFor(last, logs)| && AsAppended(MatchesFor(last, logs))[k] == c;
        var log := MatchesFor(last, logs)[k];
        assert log in MatchesFor(last, logs);
      }
    }
  }

  /** The combined list begins with the filtered device logs, unchanged and in order. */
  lemma CombinedStartsWithFiltered(logs: seq<CallLogEntry>, records: seq<DbCallRecord>)
    ensures var combined := AsLogged(BaseFilter(logs)) + AppendedFor(records, logs);
      |combined| >= |BaseFilter(logs)| &&
      forall i :: 0 <= i < |BaseFilter(logs)| ==> combined[i] == Logged(BaseFilter(logs)[i])
  {
  }

  /** Two records of the same day and one outgoing call that day: the call is listed twice. */
  lemma DuplicatesPossible(log: CallLogEntry, d: int)
    requires log.callType == Outgoing && log.dateTimeDay == Day(d)
    ensures var records := [DbCallRecord(1, "", "", Day(d)), DbCallRecord(2, "", "", Day(d))];
      AppendedFor(records, [log]) == [PushedFor(log), PushedFor(log)]
  {
    var records := [DbCallRecord(1, "", "", Day(d)), DbCallRecord(2, "", "", Day(d))];
    assert MatchesFor(records[0], [log]) == [log];
    assert MatchesFor(records[1], [log]) == [log];
    AppendedForStep(records, [log], 0);
    AppendedForStep(records, [log], 1);
    assert records[..0] == [] && records[..2] == records;
  }

  /**
   * A call-log date and a database date that both fail to parse render as the
   * same text "Invalid date", so the outgoing log is pushed for that record.
   */
  lemma UnparsedDatesMatch(log: CallLogEntry, rec: DbCallRecord)
    requires log.callType == Outgoing && log.dateTimeDay == InvalidDate && rec.callDay == InvalidDate
    ensures AppendedFor([rec], [log]) == [PushedFor(log)]
  {
    assert [rec][..0] == [];
    assert MatchesFor(rec, [log]) == [log];
  }
}
