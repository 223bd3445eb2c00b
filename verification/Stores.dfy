/** Owner-scoped, in-memory record stores. One shape serves purchase executions, card checkouts and
    top-up executions: a dictionary from quote id to a record that carries its owner. */
module Stores {
  import opened Strings

  type Id = string

  datatype Owner = Owner(sessionKey: string, userRef: string)

  datatype Owned<+R> = Owned(owner: Owner, body: R)

  /** A record of somebody else's is not refused, it is not found. */
  function Find<R>(records: map<Id, Owned<R>>, owner: Owner, id: Id): Option<R> {
    if id == "" || id !in records || records[id].owner != owner then None else Some(records[id].body)
  }

  function DropSession<R>(records: map<Id, Owned<R>>, sessionKey: string): map<Id, Owned<R>> {
    map id | id in records && records[id].owner.sessionKey != sessionKey :: records[id]
  }

  /** `records` after its ids in `doomed` were deleted. */
  function Removing<R>(records: map<Id, Owned<R>>, doomed: set<Id>): map<Id, Owned<R>> {
    map id | id in records && id !in doomed :: records[id]
  }

  ghost predicate SameAt<T>(before: map<Id, T>, after: map<Id, T>, id: Id) {
    (id in before <==> id in after) && (id in before ==> after[id] == before[id])
  }

  lemma SubsetSize<T>(small: set<T>, large: set<T>)
    requires small <= large
    ensures |small| <= |large|
  {
    assert large == small + (large - small);
  }

  class OwnedStore<R> {
    var records: map<Id, Owned<R>>

    constructor ()
      ensures records == map[]
    {
      records := map[];
    }

    method Get(owner: Owner, id: Id) returns (found: Option<R>)
      ensures found == Find(records, owner, id)
    {
      if id == "" { return None; }
      if id !in records { return None; }
      if records[id].owner != owner { return None; }
      return Some(records[id].body);
    }

    method Save(owner: Owner, id: Id, body: R)
      modifies this
      ensures records == old(records)[id := Owned(owner, body)]
    {
      records := records[id := Owned(owner, body)];
    }

    method InvalidateSession(sessionKey: string) returns (dropped: nat)
      modifies this
      ensures records == DropSession(old(records), sessionKey)
      ensures dropped == |old(records)| - |records|
    {
      ghost var before := records;
      var doomed := set id | id in records && records[id].owner.sessionKey == sessionKey;
      dropped := |doomed|;
      var rest := doomed;
      while rest != {}
        invariant rest <= doomed <= before.Keys
        invariant records == Removing(before, doomed - rest)
        decreases rest
      {
        var id :| id in rest;
        records := map other | other in records && other != id :: records[other];
        rest := rest - {id};
      }
      assert records.Keys == before.Keys - doomed;
    }
  }
}
