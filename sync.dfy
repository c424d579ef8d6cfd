/**
 * The upload of call-log entries to the server (`SyncData_API` and the
 * per-entry request built by `syncCallLogs`). The HTTP transport is not
 * modelled: what the network did with a request is an input.
 */
module Sync {
  import opened CallLog

  /** The signed-in user as read from AsyncStorage 'userData'. */
  datatype UserDetail = UserDetail(id: string, password: string, companyId: string)

  /** The multipart form fields sent for one entry. */
  datatype SyncRequest = SyncRequest(
    userId: string, password: string, localDbId: string, dateTime: string, duration: int,
    name: string, phoneNumber: string, timestamp: string, callType: CallType, companyId: string)

  /** What happened to one request: the server's JSON reply, or an exception from fetch/json. */
  datatype ApiOutcome = Replied(success: bool) | Threw

  /** The value `SyncData_API` resolves to. */
  datatype SyncReply = SyncReply(success: bool)

  /** How a press of "Usync" ended. */
  datatype SyncOutcome = NoData | Synced | SomeFailed

  /** The request `syncCallLogs` builds for one entry: the timestamp doubles as the local db id. */
  function MakeRequest(user: UserDetail, log: CallLogEntry): (q: SyncRequest)
    ensures q.userId == user.id && q.password == user.password && q.companyId == user.companyId
    ensures q.localDbId == log.timestamp && q.timestamp == log.timestamp
    ensures q.dateTime == log.dateTime && q.duration == log.duration && q.name == log.name
    ensures q.phoneNumber == log.phoneNumber && q.callType == log.callType
  {
    SyncRequest(user.id, user.password, log.timestamp, log.dateTime, log.duration,
                log.name, log.phoneNumber, log.timestamp, log.callType, user.companyId)
  }

  /** One request per entry of `logs`, in the same order (`logs.map(...)`). */
  function Requests(user: UserDetail, logs: seq<CallLogEntry>): (qs: seq<SyncRequest>)
    ensures |qs| == |logs|
    ensures forall i :: 0 <= i < |logs| ==> qs[i].timestamp == logs[i].timestamp && qs[i].localDbId == logs[i].timestamp
    ensures forall i :: 0 <= i < |logs| ==> qs[i].userId == user.id && qs[i].companyId == user.companyId
    ensures forall i :: 0 <= i < |logs| ==> qs[i].password == user.password
    ensures forall i :: 0 <= i < |logs| ==>
      && qs[i].phoneNumber == logs[i].phoneNumber && qs[i].dateTime == logs[i].dateTime
      && qs[i].duration == logs[i].duration && qs[i].name == logs[i].name && qs[i].callType == logs[i].callType
  {
    seq(|logs|, i requires 0 <= i < |logs| => MakeRequest(user, logs[i]))
  }

  /** `SyncData_API`: the server's reply, or `{success: false}` when anything throws. */
  function SyncDataApi(outcome: ApiOutcome): (r: SyncReply)
    ensures r.success <==> outcome == Replied(true)
  {
    match outcome
    case Replied(ok) => SyncReply(ok)
    case Threw => SyncReply(false)
  }

  /** The replies to requests 0 .. n-1, where `server(i)` is what happened to request i. */
  function Replies(server: nat -> ApiOutcome, n: nat): (rs: seq<SyncReply>)
    ensures |rs| == n
    ensures forall i :: 0 <= i < n ==> rs[i] == SyncDataApi(server(i))
  {
    seq(n, i requires 0 <= i < n => SyncDataApi(server(i)))
  }

  /** `response.every(res => res.success)`. */
  function AllSuccess(replies: seq<SyncReply>): (b: bool)
    ensures b <==> forall i :: 0 <= i < |replies| ==> replies[i].success
    decreases |replies|
  {
    if replies == [] then true
    else replies[0].success && AllSuccess(replies[1..])
  }

  /** A single request that threw, or that the server refused, makes the whole batch unsuccessful. */
  lemma OneFailureSpoilsBatch(server: nat -> ApiOutcome, n: nat, i: nat)
    requires i < n && server(i) != Replied(true)
    ensures !AllSuccess(Replies(server, n))
  {
    assert !Replies(server, n)[i].success;
  }
}
