/**
 * The dial pad of src/component/DialScreen.js: a typed number edited by key
 * and delete presses, and a call button that places a call and records it in
 * the shared 'CallData' store and its mirror.
 */
module DialScreen {
  import opened CallStore

  /** The twelve keys of the pad, row by row. */
  const DIAL_PAD: seq<seq<char>> := [['1', '2', '3'], ['4', '5', '6'], ['7', '8', '9'], ['*', '0', '#']]

  /** A key shown on the pad. */
  predicate IsPadKey(k: char) {
    exists r :: 0 <= r < |DIAL_PAD| && k in DIAL_PAD[r]
  }

  /** The pad holds exactly the digits, `*` and `#`. */
  lemma PadKeys(k: char)
    ensures IsPadKey(k) <==> ('0' <= k <= '9' || k == '*' || k == '#')
  {
    if '1' <= k <= '3' { assert k in DIAL_PAD[0]; }
    else if '4' <= k <= '6' { assert k in DIAL_PAD[1]; }
    else if '7' <= k <= '9' { assert k in DIAL_PAD[2]; }
    else if k == '*' || k == '0' || k == '#' { assert k in DIAL_PAD[3]; }
  }

  /** A string made only of pad keys. */
  predicate OnlyPadKeys(s: string) {
    forall i :: 0 <= i < |s| ==> IsPadKey(s[i])
  }

  class Dialer {
    var typedNumber: string
    var store: CallDataStore

    ghost predicate Valid()
      reads this, store
    {
      OnlyPadKeys(typedNumber) && store.Valid()
    }

    constructor (store: CallDataStore)
      requires store.Valid()
      ensures Valid()
      ensures typedNumber == "" && this.store == store
    {
      typedNumber := "";
      this.store := store;
    }

    /** `handleNumberPress`: the pressed key is appended. */
    method HandleNumberPress(key: char)
      requires Valid() && IsPadKey(key)
      modifies this`typedNumber
      ensures Valid()
      ensures typedNumber == old(typedNumber) + [key]
    {
      typedNumber := typedNumber + [key];
    }

    /** `handleDeletePress`: the last character goes; an empty number stays empty. */
    method HandleDeletePress()
      requires Valid()
      modifies this`typedNumber
      ensures Valid()
      ensures old(typedNumber) == [] ==> typedNumber == []
      ensures old(typedNumber) != [] ==> typedNumber == old(typedNumber)[..|old(typedNumber)| - 1]
    {
      if |typedNumber| > 0 {
        typedNumber := typedNumber[..|typedNumber| - 1];
      }
    }

    /** A key press followed by a delete gives back the number as it was. */
    method PressThenDelete(key: char)
      requires Valid() && IsPadKey(key)
      modifies this`typedNumber
      ensures Valid()
      ensures typedNumber == old(typedNumber)
    {
      ghost var before := typedNumber;
      HandleNumberPress(key);
      HandleDeletePress();
      assert (before + [key])[..|before|] == before;
    }

    /**
     * `handleCallPress`: an empty number places no call and saves nothing;
     * otherwise the call is placed and saved with the next id, and mirrored.
     * `dateTime` is the current time as 'DD-MMM-YYYY HH:mm:ss'.
     */
    method HandleCallPress(dateTime: string) returns (placed: bool)
      requires Valid()
      modifies store
      ensures Valid()
      ensures placed <==> old(typedNumber) != []
      ensures !placed ==> store.records == old(store.records) && store.mirror == old(store.mirror)
      ensures placed ==>
        var rec := CallRecord(NextId(old(store.records)), typedNumber, dateTime);
        store.records == old(store.records) + [rec] && store.mirror == MirrorAppend(old(store.mirror), rec)
    {
      if |typedNumber| == 0 {
        placed := false;
      } else {
        var _ := store.CreateMirrored(typedNumber, dateTime);
        placed := true;
      }
    }
  }
}
