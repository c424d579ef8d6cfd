/**
 * The Realm table 'CallData' (schema `_id: int` primary key, `phoneNumber`,
 * `dateTime`) that the dial pad, the contact list and the new call screen all
 * write through `savePhoneNumberToStorage`, together with the
 * 'realmDataoutgoing' list that the dial pad and the contact list mirror into
 * AsyncStorage. Both are modelled in memory.
 */
module CallStore {
  datatype CallRecord = CallRecord(id: int, phoneNumber: string, dateTime: string)

  /** Ids in the order the records were created are strictly increasing. */
  predicate IdsIncreasing(records: seq<CallRecord>) {
    forall i, j :: 0 <= i < j < |records| ==> records[i].id < records[j].id
  }

  /** No two entries share an `_id`. */
  predicate UniqueIds(records: seq<CallRecord>) {
    forall i, j :: 0 <= i < j < |records| ==> records[i].id != records[j].id
  }

  /** `records.some(call => call._id === id)`. */
  predicate HasId(records: seq<CallRecord>, id: int) {
    exists i :: 0 <= i < |records| && records[i].id == id
  }

  /**
   * The id for a new record: `lastCall ? lastCall._id + 1 : 1`, where lastCall
   * is the first record of `sorted('_id', true)`, the one with the largest id.
   */
  function NextId(records: seq<CallRecord>): (id: int)
    ensures forall i :: 0 <= i < |records| ==> records[i].id < id
    ensures records == [] ==> id == 1
    ensures records != [] ==> exists i :: 0 <= i < |records| && id == records[i].id + 1
    decreases |records|
  {
    if records == [] then 1
    else if |records| == 1 then records[0].id + 1
    else
      var rest := NextId(records[1..]);
      assert forall i :: 1 <= i < |records| ==> records[i] == records[1..][i - 1];
      if records[0].id + 1 > rest then records[0].id + 1 else rest
  }

  /** In a store whose ids increase, the new id is the last record's id plus one. */
  lemma {:induction false} NextIdAfterLast(records: seq<CallRecord>)
    requires records != [] && IdsIncreasing(records)
    ensures NextId(records) == records[|records| - 1].id + 1
    decreases |records|
  {
    if |records| > 1 {
      assert IdsIncreasing(records[1..]);
      NextIdAfterLast(records[1..]);
    }
  }

  /** Ids 1, 2, ..., n in creation order: the next id is n + 1, so a store filled from empty has no gaps. */
  lemma ConsecutiveIds(records: seq<CallRecord>)
    requires forall i :: 0 <= i < |records| ==> records[i].id == i + 1
    ensures NextId(records) == |records| + 1
  {
    if records != [] {
      NextIdAfterLast(records);
    }
  }

  /**
   * The mirrored list after saving `rec`:
   * `isExisting ? existing : [...existing, rec]`.
   */
  function MirrorAppend(mirror: seq<CallRecord>, rec: CallRecord): (r: seq<CallRecord>)
    ensures !HasId(mirror, rec.id) ==> r == mirror + [rec]
    ensures HasId(mirror, rec.id) ==> r == mirror
    ensures HasId(r, rec.id)
    ensures UniqueIds(mirror) ==> UniqueIds(r)
  {
    if HasId(mirror, rec.id) then mirror
    else
      assert (mirror + [rec])[|mirror|] == rec;
      mirror + [rec]
  }

  /** Saving the same record twice leaves the mirror as saving it once. */
  lemma MirrorAppendIdempotent(mirror: seq<CallRecord>, rec: CallRecord)
    ensures MirrorAppend(MirrorAppend(mirror, rec), rec) == MirrorAppend(mirror, rec)
  {
  }

  /** The Realm table and its AsyncStorage mirror. */
  class CallDataStore {
    var records: seq<CallRecord>
    var mirror: seq<CallRecord>

    ghost predicate Valid()
      reads this
    {
      IdsIncreasing(records) && UniqueIds(mirror)
    }

    /** An empty database and no mirrored list. */
    constructor ()
      ensures Valid() && records == [] && mirror == []
    {
      records := [];
      mirror := [];
    }

    /** `realm.create('CallData', {_id: newId, ...})` with the id computed from the current records. */
    method Create(number: string, dateTime: string) returns (id: int)
      requires Valid()
      modifies this
      ensures Valid()
      ensures id == NextId(old(records))
      ensures old(records) == [] ==> id == 1
      ensures old(records) != [] ==> id == old(records)[|old(records)| - 1].id + 1
      ensures !HasId(old(records), id)
      ensures records == old(records) + [CallRecord(id, number, dateTime)]
      ensures mirror == old(mirror)
    {
      id := NextId(records);
      if records != [] {
        NextIdAfterLast(records);
      }
      records := records + [CallRecord(id, number, dateTime)];
    }

    /** The dial pad's and contact list's save: create the record, then mirror it unless its id is already there. */
    method CreateMirrored(number: string, dateTime: string) returns (id: int)
      requires Valid()
      modifies this
      ensures Valid()
      ensures id == NextId(old(records))
      ensures records == old(records) + [CallRecord(id, number, dateTime)]
      ensures mirror == MirrorAppend(old(mirror), CallRecord(id, number, dateTime))
    {
      id := Create(number, dateTime);
      mirror := MirrorAppend(mirror, CallRecord(id, number, dateTime));
    }

    /** `realm.delete(realm.objects('CallData'))`; the AsyncStorage mirror is untouched. */
    method DeleteAll()
      requires Valid()
      modifies this
      ensures Valid()
      ensures records == [] && mirror == old(mirror)
    {
      records := [];
    }
  }
}
