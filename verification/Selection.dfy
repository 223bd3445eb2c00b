/** The numbered listing of a user's eSIMs: "number 2" means the second one of the list last shown to
    this client, for this user, in this session. */
module Selection {
  import opened Strings
  import opened Stores

  /** As the platform lists it; an empty identifier stands for a missing one. */
  datatype Esim = Esim(iccid: string, plan: string)

  datatype Entry = Entry(number: nat, iccid: string, plan: string)

  datatype Listing = Listing(user: string, entries: seq<Entry>)

  type Listings = map<string, Listing>

  datatype Resolved = Chosen(entry: Entry) | Unavailable | OutOfRange

  function Named(esims: seq<Esim>): (r: seq<Esim>)
    ensures forall e | e in r :: e in esims && e.iccid != ""
    ensures forall e | e in esims && e.iccid != "" :: e in r
  {
    if esims == [] then []
    else Named(esims[..|esims| - 1]) + if esims[|esims| - 1].iccid != "" then [esims[|esims| - 1]] else []
  }

  function Numbered(esims: seq<Esim>): seq<Entry> {
    var named := Named(esims);
    seq(|named|, i requires 0 <= i < |named| => Entry(i + 1, named[i].iccid, named[i].plan))
  }

  /** The numbers shown beside a listing; of several entries for one eSIM the last one counts. */
  function Numbers(entries: seq<Entry>): map<string, nat> {
    if entries == [] then map[]
    else
      var last := entries[|entries| - 1];
      Numbers(entries[..|entries| - 1])[last.iccid := last.number]
  }

  /** The first entry with this number. */
  function EntryOf(entries: seq<Entry>, number: int): Option<Entry> {
    if entries == [] then None
    else if entries[0].number == number then Some(entries[0])
    else EntryOf(entries[1..], number)
  }

  function Resolve(listings: Listings, owner: Owner, number: int): Resolved {
    if owner.sessionKey !in listings || listings[owner.sessionKey].user != owner.userRef then Unavailable
    else
      match EntryOf(listings[owner.sessionKey].entries, number)
      case Some(entry) => Chosen(entry)
      case None => OutOfRange
  }

  // ------------------------------------------------------------------ one listing

  lemma {:induction false} EntryAt(entries: seq<Entry>, offset: nat, number: int)
    requires forall i | 0 <= i < |entries| :: entries[i].number == offset + i + 1
    ensures EntryOf(entries, number) ==
      if offset < number <= offset + |entries| then Some(entries[number - offset - 1]) else None
  {
    if entries != [] {
      forall i | 0 <= i < |entries| - 1 ensures entries[1..][i].number == offset + 1 + i + 1 {
        assert entries[1..][i] == entries[i + 1];
      }
      EntryAt(entries[1..], offset + 1, number);
    }
  }

  /** The numbers are exactly 1 to n, in the order shown, and each stands for its own eSIM. */
  lemma NumbersAreOneToN(esims: seq<Esim>, number: int)
    ensures var entries, named := Numbered(esims), Named(esims);
      EntryOf(entries, number) ==
        if 1 <= number <= |named| then Some(Entry(number, named[number - 1].iccid, named[number - 1].plan)) else None
  {
    EntryAt(Numbered(esims), 0, number);
  }

  lemma {:induction false} NumbersHold(entries: seq<Entry>, iccid: string)
    ensures iccid in Numbers(entries) <==> exists i :: 0 <= i < |entries| && entries[i].iccid == iccid
    ensures iccid in Numbers(entries) ==>
      exists i :: 0 <= i < |entries| && entries[i].iccid == iccid && Numbers(entries)[iccid] == entries[i].number
  {
    if entries != [] {
      var init := entries[..|entries| - 1];
      NumbersHold(init, iccid);
      assert forall i | 0 <= i < |init| :: init[i] == entries[i];
    }
  }

  lemma NamedAreNumbered(esims: seq<Esim>, iccid: string)
    ensures iccid in Numbers(Numbered(esims)) <==> iccid != "" && exists e | e in esims :: e.iccid == iccid
  {
    var entries, named := Numbered(esims), Named(esims);
    NumbersHold(entries, iccid);
    if iccid != "" && exists e | e in esims :: e.iccid == iccid {
      var e :| e in esims && e.iccid == iccid;
      var at :| 0 <= at < |named| && named[at] == e;
      assert entries[at].iccid == iccid;
    }
    if iccid in Numbers(entries) {
      var at :| 0 <= at < |entries| && entries[at].iccid == iccid;
      assert named[at] in named;
    }
  }

  lemma NumbersComeBack(esims: seq<Esim>, iccid: string)
    requires iccid in Numbers(Numbered(esims))
    ensures var entries := Numbered(esims);
      var number := Numbers(entries)[iccid];
      1 <= number <= |entries| && EntryOf(entries, number).Some? && EntryOf(entries, number).value.iccid == iccid
  {
    var entries := Numbered(esims);
    NumbersHold(entries, iccid);
    var i :| 0 <= i < |entries| && entries[i].iccid == iccid && Numbers(entries)[iccid] == entries[i].number;
    NumbersAreOneToN(esims, i + 1);
  }

  /** Every eSIM with an identifier is shown a number, and that number, spoken back, is that eSIM,
      listed twice or not; one without an identifier is shown none. */
  lemma ShownNumbersResolve(esims: seq<Esim>, esim: Esim)
    requires esim in esims
    ensures var entries := Numbered(esims);
      && (esim.iccid in Numbers(entries) <==> esim.iccid != "")
      && (esim.iccid != "" ==>
            var number := Numbers(entries)[esim.iccid];
            1 <= number <= |entries| && EntryOf(entries, number).Some?
            && EntryOf(entries, number).value.iccid == esim.iccid)
  {
    NamedAreNumbered(esims, esim.iccid);
    if esim.iccid != "" { NumbersComeBack(esims, esim.iccid); }
  }

  // ------------------------------------------------------------------ over a run

  datatype Event = Recorded(owner: Owner, esims: seq<Esim>) | Ended(sessionKey: string)

  function Save(listings: Listings, owner: Owner, entries: seq<Entry>): Listings {
    listings[owner.sessionKey := Listing(owner.userRef, entries)]
  }

  function Step(listings: Listings, event: Event): Listings {
    match event
    case Recorded(owner, esims) => Save(listings, owner, Numbered(esims))
    case Ended(sessionKey) => listings - {sessionKey}
  }

  function Run(events: seq<Event>): Listings {
    if events == [] then map[] else Step(Run(events[..|events| - 1]), events[|events| - 1])
  }

  /** What happened last that concerns the client: a listing shown, or the end of its session. */
  predicate Concerns(event: Event, sessionKey: string) {
    match event
    case Recorded(owner, _) => owner.sessionKey == sessionKey
    case Ended(key) => key == sessionKey
  }

  ghost predicate LastConcern(events: seq<Event>, sessionKey: string, i: nat) {
    && i < |events| && Concerns(events[i], sessionKey)
    && forall j | i < j < |events| :: !Concerns(events[j], sessionKey)
  }

  lemma {:induction false} StoredIsLastConcern(events: seq<Event>, sessionKey: string, i: nat)
    requires LastConcern(events, sessionKey, i)
    ensures match events[i]
      case Recorded(owner, esims) =>
        sessionKey in Run(events) && Run(events)[sessionKey] == Listing(owner.userRef, Numbered(esims))
      case Ended(_) => sessionKey !in Run(events)
  {
    var n := |events| - 1;
    if i < n {
      var init := events[..n];
      assert !Concerns(events[n], sessionKey);
      assert forall j | 0 <= j < n :: init[j] == events[j];
      StoredIsLastConcern(init, sessionKey, i);
    }
  }

  lemma {:induction false} NothingStoredWithoutConcern(events: seq<Event>, sessionKey: string)
    requires forall i | 0 <= i < |events| :: !Concerns(events[i], sessionKey)
    ensures sessionKey !in Run(events)
  {
    if events != [] {
      var n := |events| - 1;
      var init := events[..n];
      assert forall j | 0 <= j < n :: init[j] == events[j];
      NothingStoredWithoutConcern(init, sessionKey);
    }
  }

  lemma LastIsUnique(events: seq<Event>, sessionKey: string, i: nat, k: nat)
    requires LastConcern(events, sessionKey, i) && LastConcern(events, sessionKey, k)
    ensures i == k
  {
  }

  /** A number resolves exactly against the list last shown to the client, if it was shown to the same
      user and the session has not ended since. */
  lemma NumbersMeanTheLastListing(events: seq<Event>, owner: Owner, number: int, entry: Entry)
    ensures Resolve(Run(events), owner, number) == Chosen(entry) <==>
      exists i: nat | LastConcern(events, owner.sessionKey, i) ::
        && events[i].Recorded? && events[i].owner == owner
        && 1 <= number <= |Named(events[i].esims)|
        && entry == Entry(number, Named(events[i].esims)[number - 1].iccid, Named(events[i].esims)[number - 1].plan)
  {
    var key := owner.sessionKey;
    if exists i :: 0 <= i < |events| && Concerns(events[i], key) {
      var i := LastOf(events, key);
      StoredIsLastConcern(events, key, i);
      if events[i].Recorded? { NumbersAreOneToN(events[i].esims, number); }
      forall k: nat | LastConcern(events, key, k) ensures k == i { LastIsUnique(events, key, i, k); }
    } else {
      NothingStoredWithoutConcern(events, key);
    }
  }

  lemma {:induction false} LastOf(events: seq<Event>, sessionKey: string) returns (i: nat)
    requires exists k :: 0 <= k < |events| && Concerns(events[k], sessionKey)
    ensures LastConcern(events, sessionKey, i)
  {
    i := |events| - 1;
    if !Concerns(events[i], sessionKey) {
      var init := events[..i];
      assert forall j | 0 <= j < i :: init[j] == events[j];
      var k :| 0 <= k < |events| && Concerns(events[k], sessionKey);
      assert Concerns(init[k], sessionKey);
      i := LastOf(init, sessionKey);
    }
  }

  // ------------------------------------------------------------------ the store and the service

  class SelectionStore {
    var listings: Listings

    constructor ()
      ensures listings == map[]
    {
      listings := map[];
    }

    method SaveListing(owner: Owner, entries: seq<Entry>)
      modifies this
      ensures listings == Save(old(listings), owner, entries)
    {
      listings := listings[owner.sessionKey := Listing(owner.userRef, entries)];
    }

    method Get(owner: Owner) returns (listing: Option<Listing>)
      ensures listing.Some? <==>
        owner.sessionKey in listings && listings[owner.sessionKey].user == owner.userRef
      ensures listing.Some? ==> listing.value == listings[owner.sessionKey]
    {
      if owner.sessionKey !in listings { return None; }
      var found := listings[owner.sessionKey];
      if found.user != owner.userRef { return None; }
      return Some(found);
    }

    method InvalidateSession(sessionKey: string) returns (dropped: nat)
      modifies this
      ensures listings == old(listings) - {sessionKey}
      ensures dropped == if sessionKey in old(listings) then 1 else 0
    {
      dropped := if sessionKey in listings then 1 else 0;
      listings := listings - {sessionKey};
    }
  }

  /** Number what is about to be shown, remember it, and return the numbers to show. */
  method Record(store: SelectionStore, owner: Owner, esims: seq<Esim>) returns (shown: map<string, nat>)
    modifies store
    ensures store.listings == Step(old(store.listings), Recorded(owner, esims))
    ensures shown == Numbers(Numbered(esims))
  {
    var entries := Numbered(esims);
    shown := Numbers(entries);
    store.SaveListing(owner, entries);
  }

  method ResolveNumber(store: SelectionStore, owner: Owner, number: int) returns (r: Resolved)
    ensures r == Resolve(store.listings, owner, number)
  {
    var listing := store.Get(owner);
    if listing.None? { return Unavailable; }
    var entries := listing.value.entries;
    for k := 0 to |entries|
      invariant EntryOf(entries, number) == EntryOf(entries[k..], number)
    {
      if entries[k].number == number { return Chosen(entries[k]); }
    }
    return OutOfRange;
  }
}
