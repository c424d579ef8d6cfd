/**
 * The contact list of src/screens/Contacts/Contacts.js: contacts sorted by
 * display name, a case-insensitive search, and a tap that places a call and
 * records it in the shared 'CallData' store and its mirror.
 */
module ContactsScreen {
  import opened Wrappers
  import opened Seqs
  import opened CallStore

  /** A contact as `Contacts.getAll()` returns it; a contact may have no display name. */
  datatype Contact = Contact(recordId: string, displayName: Option<string>, phoneNumbers: seq<string>)

  /** JavaScript `a < b` on strings: the first differing character decides, a proper prefix is smaller. */
  predicate StrLess(a: string, b: string)
    decreases |a|
  {
    if b == [] then false
    else if a == [] then true
    else if a[0] != b[0] then a[0] < b[0]
    else StrLess(a[1..], b[1..])
  }

  lemma {:induction false} StrLessIrreflexive(a: string)
    ensures !StrLess(a, a)
    decreases |a|
  {
    if a != [] { StrLessIrreflexive(a[1..]); }
  }

  lemma {:induction false} StrLessTransitive(a: string, b: string, c: string)
    requires StrLess(a, b) && StrLess(b, c)
    ensures StrLess(a, c)
    decreases |a|
  {
    if a != [] && a[0] == b[0] && b[0] == c[0] {
      StrLessTransitive(a[1..], b[1..], c[1..]);
    }
  }

  /** Of two different strings one is smaller. */
  lemma {:induction false} StrLessTotal(a: string, b: string)
    ensures a == b || StrLess(a, b) || StrLess(b, a)
    decreases |a|
  {
    if a != [] && b != [] && a[0] == b[0] {
      StrLessTotal(a[1..], b[1..]);
      if a[1..] == b[1..] {
        assert a == [a[0]] + a[1..] && b == [b[0]] + b[1..];
      }
    }
  }

  /** The sort key; a missing name counts as the empty string. */
  function NameKey(c: Contact): string {
    c.displayName.GetOr("")
  }

  /** Ascending by display name: no contact has a name smaller than an earlier one's. */
  predicate SortedByName(cs: seq<Contact>) {
    forall i, j :: 0 <= i < j < |cs| ==> !StrLess(NameKey(cs[j]), NameKey(cs[i]))
  }

  /** `x` placed in sorted `cs` after the contacts whose name is smaller than its own. */
  function InsertByName(x: Contact, cs: seq<Contact>): (r: seq<Contact>)
    requires SortedByName(cs)
    ensures multiset(r) == multiset(cs) + multiset{x}
    ensures SortedByName(r)
    decreases |cs|
  {
    if cs == [] then [x]
    else if StrLess(NameKey(cs[0]), NameKey(x)) then
      var rest := InsertByName(x, cs[1..]);
      assert cs == [cs[0]] + cs[1..];
      InsertedAfterHead(cs[0], x, cs, rest);
      [cs[0]] + rest
    else
      HeadCanPrecede(x, cs);
      [x] + cs
  }

  /** Keeping the head first is sorted: it is not above x or any of the tail. */
  lemma InsertedAfterHead(h: Contact, x: Contact, cs: seq<Contact>, rest: seq<Contact>)
    requires cs != [] && cs[0] == h && SortedByName(cs) && StrLess(NameKey(h), NameKey(x))
    requires multiset(rest) == multiset(cs[1..]) + multiset{x} && SortedByName(rest)
    ensures SortedByName([h] + rest)
  {
    forall k | 0 <= k < |rest| ensures !StrLess(NameKey(rest[k]), NameKey(h)) {
      assert rest[k] in multiset(rest);
      if rest[k] == x {
        if StrLess(NameKey(x), NameKey(h)) { StrLessTransitive(NameKey(x), NameKey(h), NameKey(x)); StrLessIrreflexive(NameKey(x)); }
      } else {
        assert rest[k] in multiset(cs[1..]);
        var m :| 0 <= m < |cs[1..]| && cs[1..][m] == rest[k];
        assert cs[m + 1] == rest[k];
      }
    }
    var r := [h] + rest;
    forall i, j | 0 <= i < j < |r| ensures !StrLess(NameKey(r[j]), NameKey(r[i])) {
      if i > 0 { assert r[i] == rest[i - 1] && r[j] == rest[j - 1]; }
      else { assert r[j] == rest[j - 1]; }
    }
  }

  /** Putting x first is sorted when no name in cs is smaller than x's. */
  lemma HeadCanPrecede(x: Contact, cs: seq<Contact>)
    requires SortedByName(cs) && (cs == [] || !StrLess(NameKey(cs[0]), NameKey(x)))
    ensures SortedByName([x] + cs)
  {
    var r := [x] + cs;
    forall j | 0 < j < |r| ensures !StrLess(NameKey(r[j]), NameKey(x)) {
      assert r[j] == cs[j - 1];
      if StrLess(NameKey(cs[j - 1]), NameKey(x)) {
        StrLessTotal(NameKey(cs[0]), NameKey(x));
        if j - 1 > 0 {
          assert !StrLess(NameKey(cs[j - 1]), NameKey(cs[0]));
          StrLessTotal(NameKey(cs[j - 1]), NameKey(cs[0]));
          if NameKey(cs[j - 1]) != NameKey(cs[0]) {
            StrLessTransitive(NameKey(cs[0]), NameKey(cs[j - 1]), NameKey(x));
          }
        }
      }
    }
  }

  /** The `loadContacts` sort: a reordering of the fetched contacts, ascending by display name. */
  function SortContacts(cs: seq<Contact>): (r: seq<Contact>)
    ensures multiset(r) == multiset(cs)
    ensures |r| == |cs|
    ensures SortedByName(r)
    decreases |cs|
  {
    if cs == [] then []
    else
      assert cs == [cs[0]] + cs[1..];
      InsertByName(cs[0], SortContacts(cs[1..]))
  }

  /** `toLowerCase` on the letters A to Z. */
  function ToLower(s: string): (r: string)
    ensures |r| == |s|
    ensures forall i :: 0 <= i < |s| ==> r[i] == if 'A' <= s[i] <= 'Z' then (s[i] - 'A' + 'a') as char else s[i]
  {
    seq(|s|, i requires 0 <= i < |s| => if 'A' <= s[i] <= 'Z' then (s[i] - 'A' + 'a') as char else s[i])
  }

  /** Lowering twice is lowering once. */
  lemma ToLowerIdempotent(s: string)
    ensures ToLower(ToLower(s)) == ToLower(s)
  {
  }

  /** `s.includes(sub)`. */
  predicate Includes(s: string, sub: string)
    decreases |s|
  {
    sub <= s || (s != [] && Includes(s[1..], sub))
  }

  /** The search predicate: a non-empty display name containing the query, ignoring case. */
  predicate MatchesQuery(c: Contact, query: string) {
    c.displayName.Some? && c.displayName.value != "" && Includes(ToLower(c.displayName.value), ToLower(query))
  }

  /** `filteredContacts`. */
  function FilteredContacts(contacts: seq<Contact>, query: string): (r: seq<Contact>)
    ensures forall c :: c in r <==> c in contacts && MatchesQuery(c, query)
    ensures query == "" ==> forall c :: c in r <==> c in contacts && c.displayName.Some? && c.displayName.value != ""
    ensures IsSubsequence(r, contacts)
    ensures forall c :: multiset(r)[c] == if MatchesQuery(c, query) then multiset(contacts)[c] else 0
  {
    EmptyQueryMatchesNamed(contacts);
    Filter(contacts, (c: Contact) => MatchesQuery(c, query))
  }

  /** Every named contact matches the empty query. */
  lemma EmptyQueryMatchesNamed(contacts: seq<Contact>)
    ensures forall c :: c in contacts && c.displayName.Some? && c.displayName.value != "" ==> MatchesQuery(c, "")
  {
    forall c | c in contacts && c.displayName.Some? && c.displayName.value != "" ensures MatchesQuery(c, "") {
      assert ToLower("") == [];
    }
  }

  /** Upper- and lower-case queries give the same list. */
  lemma QueryCaseIrrelevant(contacts: seq<Contact>, query: string)
    ensures FilteredContacts(contacts, ToLower(query)) == FilteredContacts(contacts, query)
  {
    ToLowerIdempotent(query);
    FilterCongruent(contacts, (c: Contact) => MatchesQuery(c, ToLower(query)), (c: Contact) => MatchesQuery(c, query));
  }

  /** `item.phoneNumbers[0]?.number`. */
  function FirstNumber(c: Contact): (n: Option<string>)
    ensures n.Some? <==> |c.phoneNumbers| > 0
    ensures n.Some? ==> n.value == c.phoneNumbers[0]
  {
    if |c.phoneNumbers| > 0 then Some(c.phoneNumbers[0]) else None
  }

  /**
   * `handleCall`: a missing or empty number places no call and saves nothing;
   * otherwise the call is placed and saved with the next id, and mirrored.
   * `dateTime` is the current time as 'DD-MMM-YYYY HH:mm:ss'.
   */
  method HandleCall(store: CallDataStore, phoneNumber: Option<string>, dateTime: string) returns (placed: bool)
    requires store.Valid()
    modifies store
    ensures store.Valid()
    ensures placed <==> phoneNumber.Some? && phoneNumber.value != ""
    ensures !placed ==> store.records == old(store.records) && store.mirror == old(store.mirror)
    ensures placed ==>
      var rec := CallRecord(NextId(old(store.records)), phoneNumber.value, dateTime);
      store.records == old(store.records) + [rec] && store.mirror == MirrorAppend(old(store.mirror), rec)
  {
    if phoneNumber.Some? && phoneNumber.value != "" {
      var _ := store.CreateMirrored(phoneNumber.value, dateTime);
      placed := true;
    } else {
      placed := false;
    }
  }
}
