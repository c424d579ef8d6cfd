/**
 * The polling call screen of src/screens/CallScreen/demo.js: it keeps the
 * business-hours call log in AsyncStorage 'callLogs', narrows it to today,
 * counts the entries the server does not know yet, and uploads today's
 * entries.
 */
module DemoCallScreen {
  import opened Wrappers
  import opened Seqs
  import opened CallLog
  import opened Sync

  const START_HOUR := 9
  const END_HOUR := 21

  /** A call of the server's history (`data.data` of the history endpoint, already narrowed to today). */
  datatype HistoryRecord = HistoryRecord(timestamp: string, dateTime: string, duration: int)

  /** An entry of AsyncStorage 'callData'. */
  datatype SavedCall = SavedCall(phoneNumber: string, timeStamp: string)

  /** The `fetchCallLogs` predicate: a known call type, between 9:00 and 21:59, Monday to Friday. */
  predicate InBusinessHours(e: CallLogEntry) {
    && (e.callType == Incoming || e.callType == Missed || e.callType == Outgoing)
    && START_HOUR <= e.hour <= END_HOUR
    && 1 <= e.weekday <= 5
  }

  /** The logs `fetchCallLogs` keeps and stores. */
  function BusinessHoursLogs(logs: seq<CallLogEntry>): (r: seq<CallLogEntry>)
    ensures forall e :: e in r <==>
      e in logs && e.callType in {Incoming, Missed, Outgoing} && 9 <= e.hour <= 21 && 1 <= e.weekday <= 5
    ensures forall e :: e in logs && (e.hour < 9 || e.hour > 21 || e.weekday == 0 || e.weekday == 6) ==> e !in r
    ensures IsSubsequence(r, logs)
    ensures forall e :: e in logs && InBusinessHours(e) ==> multiset(r)[e] == multiset(logs)[e]
  {
    Filter(logs, InBusinessHours)
  }

  /** `fetchTodayCallLogs`: the stored logs of the current day. */
  function TodayLogs(logs: seq<CallLogEntry>, today: int): (r: seq<CallLogEntry>)
    ensures forall e :: e in r <==> e in logs && e.day == today
    ensures IsSubsequence(r, logs)
    ensures forall e :: e in logs && e.day == today ==> multiset(r)[e] == multiset(logs)[e]
  {
    Filter(logs, (e: CallLogEntry) => e.day == today)
  }

  /** The entries of `logs` whose timestamp is not in `known`. */
  function WithoutTimestamps(logs: seq<CallLogEntry>, known: set<string>): (r: seq<CallLogEntry>)
    ensures forall e :: e in r <==> e in logs && e.timestamp !in known
    ensures IsSubsequence(r, logs)
    ensures forall e :: multiset(r)[e] == if e.timestamp !in known then multiset(logs)[e] else 0
  {
    Filter(logs, (e: CallLogEntry) => e.timestamp !in known)
  }

  /** `new Set(databaseLogs?.map(log => log.timestamp))`: no history gives the empty set. */
  function DatabaseTimestamps(databaseLogs: Option<seq<HistoryRecord>>): (ts: set<string>)
    ensures databaseLogs.None? ==> ts == {}
    ensures databaseLogs.Some? ==> forall t :: t in ts <==> exists i :: 0 <= i < |databaseLogs.value| && databaseLogs.value[i].timestamp == t
  {
    match databaseLogs
    case None => {}
    case Some(db) => set i | 0 <= i < |db| :: db[i].timestamp
  }

  /** The `reduce` of `compareCallLogs`: one for each log whose timestamp is not known. */
  function CountUnknown(known: set<string>, logs: seq<CallLogEntry>): (n: nat)
    ensures n == |WithoutTimestamps(logs, known)|
    decreases |logs|
  {
    if logs == [] then 0
    else
      var init, last := logs[..|logs| - 1], logs[|logs| - 1];
      assert logs == init + [last];
      FilterConcat(init, [last], (e: CallLogEntry) => e.timestamp !in known);
      assert [last][1..] == [];
      CountUnknown(known, init) + (if last.timestamp in known then 0 else 1)
  }

  /** `compareCallLogs(databaseLogs, todayLogs)`: how many of today's logs the server has not seen. */
  function CompareCallLogs(databaseLogs: Option<seq<HistoryRecord>>, todayLogs: seq<CallLogEntry>): (n: nat)
    ensures n <= |todayLogs|
    ensures n == |WithoutTimestamps(todayLogs, DatabaseTimestamps(databaseLogs))|
    ensures n == 0 <==> forall e :: e in todayLogs ==> e.timestamp in DatabaseTimestamps(databaseLogs)
    ensures (databaseLogs.None? || databaseLogs == Some([])) ==> n == |todayLogs|
  {
    var known := DatabaseTimestamps(databaseLogs);
    UnknownCountFacts(known, todayLogs);
    CountUnknown(known, todayLogs)
  }

  /** The count of unknown logs is zero exactly when all are known, and all of them when nothing is known. */
  lemma UnknownCountFacts(known: set<string>, logs: seq<CallLogEntry>)
    ensures CountUnknown(known, logs) == 0 <==> forall e :: e in logs ==> e.timestamp in known
    ensures known == {} ==> CountUnknown(known, logs) == |logs|
  {
    if known == {} {
      FilterKeepsAll(logs, (e: CallLogEntry) => e.timestamp !in known);
    }
    if !forall e :: e in logs ==> e.timestamp in known {
      var e :| e in logs && e.timestamp !in known;
      assert e in WithoutTimestamps(logs, known);
    }
  }

  /** The `fetchNewCallLogs` filter: new logs whose timestamp does not occur among today's logs. */
  function FreshLogs(newLogs: seq<CallLogEntry>, todayLogs: seq<CallLogEntry>): (r: seq<CallLogEntry>)
    ensures forall e :: e in r <==> e in newLogs && forall x :: x in todayLogs ==> x.timestamp != e.timestamp
    ensures IsSubsequence(r, newLogs)
    ensures forall e :: multiset(r)[e] == if e.timestamp in Timestamps(todayLogs) then 0 else multiset(newLogs)[e]
  {
    var known := Timestamps(todayLogs);
    assert forall e: CallLogEntry :: e.timestamp in known <==> exists x :: x in todayLogs && x.timestamp == e.timestamp;
    WithoutTimestamps(newLogs, known)
  }

  /**
   * The code as written uploads every one of today's logs, including those the
   * server already has, so the count shown next to "Usync" can be smaller than
   * the number of requests sent.
   */
  lemma BatchCanExceedCount(user: UserDetail, a: CallLogEntry, b: CallLogEntry)
    requires a.timestamp != b.timestamp
    ensures var db := Some([HistoryRecord(a.timestamp, a.dateTime, a.duration)]);
      CompareCallLogs(db, [a, b]) == 1 && |Requests(user, [a, b])| == 2
  {
    var db := Some([HistoryRecord(a.timestamp, a.dateTime, a.duration)]);
    assert db.value[0].timestamp == a.timestamp;
    assert DatabaseTimestamps(db) == {a.timestamp};
    assert WithoutTimestamps([a, b], {a.timestamp}) == [b] by {
      assert [a, b] == [a] + [b];
      FilterConcat([a], [b], (e: CallLogEntry) => e.timestamp !in {a.timestamp});
    }
  }

  class CallScreen {
    var callLogs: seq<CallLogEntry>
    var todayCallLogs: seq<CallLogEntry>
    var unmatchedCount: int
    var storedCallLogs: Option<seq<CallLogEntry>>   // AsyncStorage 'callLogs'
    var callData: seq<SavedCall>                    // AsyncStorage 'callData'
    var user: UserDetail

    /** The screen's initial state over what AsyncStorage already holds. */
    constructor (user: UserDetail, storedCallLogs: Option<seq<CallLogEntry>>, callData: seq<SavedCall>)
      ensures this.user == user && this.storedCallLogs == storedCallLogs && this.callData == callData
      ensures callLogs == [] && todayCallLogs == [] && unmatchedCount == 0
    {
      this.user := user;
      this.storedCallLogs := storedCallLogs;
      this.callData := callData;
      callLogs := [];
      todayCallLogs := [];
      unmatchedCount := 0;
    }

    /** `fetchCallLogs`: `deviceLogs` is what `CallLogs.load(100)` returned. */
    method FetchCallLogs(deviceLogs: seq<CallLogEntry>)
      modifies this`callLogs, this`storedCallLogs
      ensures callLogs == BusinessHoursLogs(deviceLogs)
      ensures storedCallLogs == Some(callLogs)
    {
      callLogs := BusinessHoursLogs(deviceLogs);
      storedCallLogs := Some(callLogs);
    }

    /** `fetchTodayCallLogs`: nothing happens while AsyncStorage holds no call logs. */
    method FetchTodayCallLogs(today: int)
      modifies this`todayCallLogs
      ensures storedCallLogs.None? ==> todayCallLogs == old(todayCallLogs)
      ensures storedCallLogs.Some? ==> todayCallLogs == TodayLogs(storedCallLogs.value, today)
    {
      if storedCallLogs.Some? {
        todayCallLogs := TodayLogs(storedCallLogs.value, today);
      }
    }

    /** The effect that recomputes `unmatchedCount` from the server's history. */
    method UpdateUnmatchedCount(databaseLogs: Option<seq<HistoryRecord>>)
      modifies this`unmatchedCount
      ensures unmatchedCount == CompareCallLogs(databaseLogs, todayCallLogs)
      ensures 0 <= unmatchedCount <= |todayCallLogs|
    {
      unmatchedCount := CompareCallLogs(databaseLogs, todayCallLogs);
    }

    /**
     * `syncCallLogs`: with nothing unmatched no request is sent; otherwise one
     * request goes out per entry of today's logs, and today's logs are emptied
     * only when every reply reports success. `server(i)` is what happened to
     * request i.
     */
    method SyncCallLogs(server: nat -> ApiOutcome) returns (requests: seq<SyncRequest>, outcome: SyncOutcome)
      modifies this`todayCallLogs
      ensures old(unmatchedCount) == 0 ==> outcome == NoData && requests == [] && todayCallLogs == old(todayCallLogs)
      ensures outcome == NoData <==> old(unmatchedCount) == 0
      ensures old(unmatchedCount) != 0 ==> requests == Requests(user, old(todayCallLogs))
      ensures outcome == Synced <==> old(unmatchedCount) != 0 && AllSuccess(Replies(server, |requests|))
      ensures todayCallLogs == if outcome == Synced then [] else old(todayCallLogs)
    {
      if unmatchedCount == 0 {
        return [], NoData;
      }
      requests := Requests(user, todayCallLogs);
      var replies := Replies(server, |requests|);
      if AllSuccess(replies) {
        todayCallLogs := [];
        outcome := Synced;
      } else {
        outcome := SomeFailed;
      }
    }

    /** `savePhoneNumberToStorage`: one entry pushed at the end of 'callData'. */
    method SavePhoneNumberToStorage(number: string, timestamp: string)
      modifies this`callData
      ensures callData == old(callData) + [SavedCall(number, timestamp)]
      ensures |callData| == |old(callData)| + 1 && callData[..|old(callData)|] == old(callData)
    {
      callData := callData + [SavedCall(number, timestamp)];
    }
  }
}
