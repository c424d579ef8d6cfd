/**
 * The call screen of src/screens/CallScreen/newCallscreen.js: incoming calls
 * and outgoing calls recorded in the Realm 'CallData' table are listed; the
 * user confirms incoming calls one by one into a pending batch (AsyncStorage
 * 'finaldata'), which is deduplicated by timestamp and uploaded.
 */
module NewCallScreen {
  import opened Wrappers
  import opened Seqs
  import opened CallLog
  import opened Sync
  import opened CallStore
  import OrderedMap

  /** The `fetchCallLogs` predicate: incoming calls, and outgoing calls whose dateTime text a saved record has exactly. */
  predicate ConfirmedBy(saved: seq<CallRecord>, e: CallLogEntry) {
    if e.callType == Incoming then true
    else if e.callType == Outgoing then exists i :: 0 <= i < |saved| && saved[i].dateTime == e.dateTime
    else false
  }

  /** The logs `fetchCallLogs` shows. */
  function ConfirmedLogs(logs: seq<CallLogEntry>, saved: seq<CallRecord>): (r: seq<CallLogEntry>)
    ensures forall e :: e in r && e.callType == Incoming <==> e in logs && e.callType == Incoming
    ensures forall e :: e in r && e.callType == Outgoing <==>
      e in logs && e.callType == Outgoing && exists s :: s in saved && s.dateTime == e.dateTime
    ensures forall e :: e in r ==> e.callType == Incoming || e.callType == Outgoing
    ensures IsSubsequence(r, logs)
    ensures forall e :: multiset(r)[e] == if ConfirmedBy(saved, e) then multiset(logs)[e] else 0
  {
    var r := Filter(logs, (e: CallLogEntry) => ConfirmedBy(saved, e));
    assert forall e: CallLogEntry :: (exists s :: s in saved && s.dateTime == e.dateTime) <==>
      (exists i :: 0 <= i < |saved| && saved[i].dateTime == e.dateTime);
    r
  }

  /** `filterOutgoingCalls`: the outgoing calls whose dateTime falls on `today`. */
  function OutgoingToday(logs: seq<CallLogEntry>, today: int): (r: seq<CallLogEntry>)
    ensures forall e :: e in r <==> e in logs && e.callType == Outgoing && e.dateTimeDay == Day(today)
    ensures IsSubsequence(r, logs)
    ensures forall e :: multiset(r)[e] == if e.callType == Outgoing && e.dateTimeDay == Day(today) then multiset(logs)[e] else 0
  {
    Filter(logs, (e: CallLogEntry) => e.callType == Outgoing && e.dateTimeDay == Day(today))
  }

  /** Whether the "+" control is drawn for `item`. */
  predicate ShowsConfirm(item: CallLogEntry, today: int, clickedItems: seq<string>) {
    item.callType == Incoming && item.dateTimeDay == Day(today) && item.timestamp !in clickedItems
  }

  /** Clicking a timestamp hides the "+" control of exactly the items with that timestamp. */
  lemma ClickHidesConfirm(item: CallLogEntry, today: int, clickedItems: seq<string>, t: string)
    ensures ShowsConfirm(item, today, clickedItems + [t]) <==> ShowsConfirm(item, today, clickedItems) && item.timestamp != t
  {
    assert item.timestamp in clickedItems + [t] <==> item.timestamp in clickedItems || item.timestamp == t;
  }

  /** `x` occurs in `items` and no later item has its timestamp. */
  ghost predicate IsLastOccurrence(items: seq<CallLogEntry>, x: CallLogEntry) {
    exists p :: 0 <= p < |items| && items[p] == x && forall q :: p < q < |items| ==> items[q].timestamp != x.timestamp
  }

  /** Timestamp `a` occurs in `items` before the first item with timestamp `b`. */
  ghost predicate FirstSeenBefore(items: seq<CallLogEntry>, a: string, b: string) {
    exists p :: 0 <= p < |items| && items[p].timestamp == a && forall q :: 0 <= q <= p ==> items[q].timestamp != b
  }

  /** `parsedData.map(item => [item.timestamp, item])`. */
  function Keyed(items: seq<CallLogEntry>): (pairs: seq<(string, CallLogEntry)>)
    ensures |pairs| == |items| && forall p :: 0 <= p < |items| ==> pairs[p] == (items[p].timestamp, items[p])
  {
    seq(|items|, p requires 0 <= p < |items| => (items[p].timestamp, items[p]))
  }

  /** The `fetchStoredData` dedup: `Array.from(new Map(keyed).values())`. */
  function UniqueByTimestamp(items: seq<CallLogEntry>): (r: seq<CallLogEntry>)
    ensures forall i, j :: 0 <= i < j < |r| ==> r[i].timestamp != r[j].timestamp
    ensures forall p :: 0 <= p < |items| ==> exists i :: 0 <= i < |r| && r[i].timestamp == items[p].timestamp
    ensures forall i :: 0 <= i < |r| ==> IsLastOccurrence(items, r[i])
    ensures forall i, j :: 0 <= i < j < |r| ==> FirstSeenBefore(items, r[i].timestamp, r[j].timestamp)
    ensures |r| == |Timestamps(items)|
  {
    DedupDistinct(items);
    DedupCovers(items);
    DedupLast(items);
    DedupOrder(items);
    DedupSize(items);
    DedupValues(items)
  }

  /** The JavaScript Map built by `fetchStoredData`. */
  function MapOf(items: seq<CallLogEntry>): seq<(string, CallLogEntry)> {
    OrderedMap.FromPairs(Keyed(items))
  }

  /** Each value is the last occurrence of its timestamp. */
  lemma DedupLast(items: seq<CallLogEntry>)
    ensures var r := DedupValues(items); forall i :: 0 <= i < |r| ==> IsLastOccurrence(items, r[i])
  {
    DedupEntries(items);
  }

  /** Each entry of the map is keyed by its value's timestamp, and that value is a last occurrence. */
  lemma DedupEntries(items: seq<CallLogEntry>)
    ensures forall i :: 0 <= i < |MapOf(items)| ==>
      MapOf(items)[i].0 == MapOf(items)[i].1.timestamp && IsLastOccurrence(items, MapOf(items)[i].1)
  {
    var pairs, m := Keyed(items), MapOf(items);
    OrderedMap.FromPairsIsMap(pairs);
    forall i | 0 <= i < |m| ensures m[i].0 == m[i].1.timestamp && IsLastOccurrence(items, m[i].1) {
      assert OrderedMap.IsLastFor(pairs, m[i]);
      var p :| 0 <= p < |pairs| && pairs[p] == m[i] && forall q :: p < q < |pairs| ==> pairs[q].0 != m[i].0;
      assert items[p] == m[i].1;
    }
  }

  /** The deduplicated items: the values of the map. */
  function DedupValues(items: seq<CallLogEntry>): seq<CallLogEntry> {
    OrderedMap.Values(MapOf(items))
  }

  /** No two entries share a timestamp. */
  lemma DedupDistinct(items: seq<CallLogEntry>)
    ensures var r := DedupValues(items); forall i, j :: 0 <= i < j < |r| ==> r[i].timestamp != r[j].timestamp
  {
    var m := MapOf(items);
    OrderedMap.FromPairsIsMap(Keyed(items));
    DedupEntries(items);
    forall i, j | 0 <= i < j < |m| ensures m[i].1.timestamp != m[j].1.timestamp {
      assert OrderedMap.Keys(m)[i] != OrderedMap.Keys(m)[j];
    }
  }

  /** There are as many entries as distinct timestamps. */
  lemma DedupSize(items: seq<CallLogEntry>)
    ensures |DedupValues(items)| == |Timestamps(items)|
  {
    var pairs := Keyed(items);
    OrderedMap.SizeIsDistinctKeys(pairs);
    assert (set p | 0 <= p < |pairs| :: pairs[p].0) == Timestamps(items);
  }

  /** Every item's timestamp has an entry. */
  lemma DedupCovers(items: seq<CallLogEntry>)
    ensures var r := DedupValues(items); forall p :: 0 <= p < |items| ==> exists i :: 0 <= i < |r| && r[i].timestamp == items[p].timestamp
  {
    var pairs, m, r := Keyed(items), MapOf(items), DedupValues(items);
    OrderedMap.FromPairsIsMap(pairs);
    DedupEntries(items);
    forall p | 0 <= p < |items| ensures exists i :: 0 <= i < |r| && r[i].timestamp == items[p].timestamp {
      assert pairs[p].0 in OrderedMap.Keys(m);
      var i :| 0 <= i < |m| && OrderedMap.Keys(m)[i] == pairs[p].0;
      assert r[i] == m[i].1;
      assert r[i].timestamp == items[p].timestamp;
    }
  }

  /** Entries come in the order in which their timestamps first occur. */
  lemma DedupOrder(items: seq<CallLogEntry>)
    ensures var r := DedupValues(items); forall i, j :: 0 <= i < j < |r| ==> FirstSeenBefore(items, r[i].timestamp, r[j].timestamp)
  {
    var pairs, m := Keyed(items), MapOf(items);
    OrderedMap.FromPairsIsMap(pairs);
    DedupEntries(items);
    forall i, j | 0 <= i < j < |m| ensures FirstSeenBefore(items, m[i].1.timestamp, m[j].1.timestamp) {
      assert OrderedMap.OccursBefore(pairs, m[i].0, m[j].0);
      var p :| 0 <= p < |pairs| && pairs[p].0 == m[i].0 && forall q :: 0 <= q <= p ==> pairs[q].0 != m[j].0;
      assert items[p].timestamp == m[i].1.timestamp;
      assert forall q :: 0 <= q <= p ==> items[q].timestamp == pairs[q].0;
    }
  }

  class CallScreen {
    var callLogs: seq<CallLogEntry>
    var outgoingCallsToday: seq<CallLogEntry>
    var incomingCount: int
    var synccount: int
    var clickedItems: seq<string>
    var finalData: Option<seq<CallLogEntry>>   // AsyncStorage 'finaldata'
    var user: UserDetail
    var store: CallDataStore

    ghost predicate Valid()
      reads this, store
    {
      store.Valid()
    }

    /** The screen's initial state over the shared store and what 'finaldata' already holds. */
    constructor (user: UserDetail, store: CallDataStore, finalData: Option<seq<CallLogEntry>>)
      requires store.Valid()
      ensures Valid()
      ensures this.user == user && this.store == store && this.finalData == finalData
      ensures callLogs == [] && outgoingCallsToday == [] && clickedItems == []
      ensures incomingCount == 0 && synccount == 0
    {
      this.user := user;
      this.store := store;
      this.finalData := finalData;
      callLogs := [];
      outgoingCallsToday := [];
      clickedItems := [];
      incomingCount := 0;
      synccount := 0;
    }

    /** `fetchCallLogs` followed by `filterOutgoingCalls`; `deviceLogs` is what `CallLogs.load(20)` returned. */
    method FetchCallLogs(deviceLogs: seq<CallLogEntry>, today: int)
      modifies this`callLogs, this`outgoingCallsToday
      ensures callLogs == ConfirmedLogs(deviceLogs, store.records)
      ensures outgoingCallsToday == OutgoingToday(callLogs, today)
    {
      callLogs := ConfirmedLogs(deviceLogs, store.records);
      outgoingCallsToday := OutgoingToday(callLogs, today);
    }

    /** `savePhoneNumberToStorage`: a new 'CallData' record with the next id. */
    method SavePhoneNumberToStorage(number: string, dateTime: string) returns (id: int)
      requires Valid()
      modifies store
      ensures Valid()
      ensures id == NextId(old(store.records))
      ensures store.records == old(store.records) + [CallRecord(id, number, dateTime)]
      ensures store.mirror == old(store.mirror)
    {
      id := store.Create(number, dateTime);
    }

    /**
     * `handleIncomingCountIncrement`: the call joins the pending list, which is
     * written to 'finaldata' and read back by `fetchStoredData`, so the list
     * becomes that data deduplicated by timestamp and the sync count the number
     * of distinct timestamps. Its timestamp is marked as clicked, so the "+"
     * control is no longer shown for it; the count goes up by one.
     */
    method HandleIncomingCountIncrement(call: CallLogEntry)
      modifies this`incomingCount, this`outgoingCallsToday, this`clickedItems, this`finalData, this`synccount
      ensures incomingCount == old(incomingCount) + 1
      ensures finalData == Some(old(outgoingCallsToday) + [call])
      ensures outgoingCallsToday == UniqueByTimestamp(old(outgoingCallsToday) + [call])
      ensures synccount == |Timestamps(old(outgoingCallsToday) + [call])| && synccount > 0
      ensures clickedItems == old(clickedItems) + [call.timestamp]
      ensures forall today :: !ShowsConfirm(call, today, clickedItems)
    {
      incomingCount := incomingCount + 1;
      var updatedCalls := outgoingCallsToday + [call];
      finalData := Some(updatedCalls);
      FetchStoredData();
      assert call.timestamp in Timestamps(updatedCalls) by {
        assert updatedCalls[|updatedCalls| - 1] == call;
      }
      clickedItems := clickedItems + [call.timestamp];
    }

    /** `fetchStoredData`: the pending list becomes 'finaldata' deduplicated by timestamp. */
    method FetchStoredData()
      modifies this`synccount, this`outgoingCallsToday
      ensures finalData.None? ==> synccount == old(synccount) && outgoingCallsToday == old(outgoingCallsToday)
      ensures finalData.Some? ==> outgoingCallsToday == UniqueByTimestamp(finalData.value)
      ensures finalData.Some? ==> synccount == |outgoingCallsToday| == |Timestamps(finalData.value)|
    {
      if finalData.Some? {
        var uniqueData := UniqueByTimestamp(finalData.value);
        synccount := |uniqueData|;
        outgoingCallsToday := uniqueData;
      }
    }

    /**
     * `syncCallLogs`: with a zero count no request is sent; otherwise one
     * request per pending call. Only when every reply reports success are
     * 'finaldata' removed, all 'CallData' records deleted, the count reset
     * and the pending list emptied. `server(i)` is what happened to request i.
     */
    method SyncCallLogs(server: nat -> ApiOutcome) returns (requests: seq<SyncRequest>, outcome: SyncOutcome)
      requires Valid()
      modifies this`synccount, this`outgoingCallsToday, this`finalData, store
      ensures Valid()
      ensures old(synccount) == 0 ==> outcome == NoData && requests == []
      ensures outcome == NoData <==> old(synccount) == 0
      ensures old(synccount) != 0 ==> requests == Requests(user, old(outgoingCallsToday))
      ensures outcome == Synced <==> old(synccount) != 0 && AllSuccess(Replies(server, |requests|))
      ensures outcome == Synced ==>
        finalData.None? && store.records == [] && synccount == 0 && outgoingCallsToday == []
      ensures outcome != Synced ==>
        && finalData == old(finalData) && store.records == old(store.records)
        && synccount == old(synccount) && outgoingCallsToday == old(outgoingCallsToday)
      ensures store.mirror == old(store.mirror)
    {
      if synccount == 0 {
        return [], NoData;
      }
      requests := Requests(user, outgoingCallsToday);
      var replies := Replies(server, |requests|);
      if AllSuccess(replies) {
        finalData := None;
        store.DeleteAll();
        synccount := 0;
        outgoingCallsToday := [];
        outcome := Synced;
      } else {
        outcome := SomeFailed;
      }
    }
  }
}
