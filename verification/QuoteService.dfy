/** The quote store and the service over it, as they update one dictionary in place. */
module QuoteService {
  import opened Strings
  import opened Stores
  import opened Quotes
  import opened Outcomes

  datatype Lookup = Given(quote: Quote) | NotGiven(code: Code)

  /** Cancelling one more id. */
  lemma WithOneMore(book: Book, done: set<Id>, id: Id, status: Status)
    requires id in book
    ensures WithStatus(book, done + {id}, status)
      == WithStatus(book, done, status)[id := Owned(book[id].owner, book[id].body.(status := status))]
  {
  }

  /** One entry of the sweep that ends a session, `rest` being the entries not yet seen. */
  lemma SweepOne(before: Book, doomed: set<Id>, rest: set<Id>, id: Id)
    requires id in rest && rest <= before.Keys
    ensures var swept := WithStatus(before, doomed - rest, Cancelled);
      && id in swept && swept[id] == before[id]
      && (id in doomed ==>
            && WithStatus(before, doomed - (rest - {id}), Cancelled)
               == swept[id := Owned(before[id].owner, before[id].body.(status := Cancelled))]
            && |doomed - (rest - {id})| == |doomed - rest| + 1)
      && (id !in doomed ==> doomed - (rest - {id}) == doomed - rest)
  {
    if id in doomed {
      assert doomed - (rest - {id}) == (doomed - rest) + {id};
      WithOneMore(before, doomed - rest, id, Cancelled);
    }
  }

  class QuoteStore {
    var quotes: Book

    constructor ()
      ensures quotes == map[]
    {
      quotes := map[];
    }

    method Save(owner: Owner, id: Id, quote: Quote)
      modifies this
      ensures quotes == old(quotes)[id := Owned(owner, quote)]
    {
      quotes := quotes[id := Owned(owner, quote)];
    }

    method Get(owner: Owner, id: Id) returns (found: Option<Quote>)
      ensures found == Find(quotes, owner, id)
    {
      if id == "" || id !in quotes { return None; }
      if quotes[id].owner != owner { return None; }
      return Some(quotes[id].body);
    }

    method ListActive(owner: Owner, now: int) returns (active: set<Id>)
      ensures active == ActiveIds(quotes, owner, now)
    {
      active := set id | id in quotes && quotes[id].owner == owner && quotes[id].body.Usable(now);
    }

    method SetTo(owner: Owner, id: Id, status: Status) returns (updated: Option<Quote>)
      modifies this
      ensures quotes == SetStatus(old(quotes), owner, id, status)
      ensures updated == if id in old(quotes) && old(quotes)[id].owner == owner then Some(quotes[id].body) else None
    {
      if id !in quotes || quotes[id].owner != owner { return None; }
      var quote := quotes[id].body.(status := status);
      quotes := quotes[id := Owned(owner, quote)];
      return Some(quote);
    }

    /** One pass over a copy of the entries, counting those that were cancelled. */
    method InvalidateSession(sessionKey: string) returns (cancelled: nat)
      modifies this
      ensures quotes == CancelSession(old(quotes), sessionKey)
      ensures cancelled == |ActiveOfSession(old(quotes), sessionKey)|
    {
      ghost var before := quotes;
      ghost var doomed := ActiveOfSession(before, sessionKey);
      var rest := quotes.Keys;
      cancelled := 0;
      while rest != {}
        invariant rest <= before.Keys
        invariant quotes == WithStatus(before, doomed - rest, Cancelled)
        invariant cancelled == |doomed - rest|
        decreases rest
      {
        var id :| id in rest;
        SweepOne(before, doomed, rest, id);
        var here := quotes[id];
        if here.owner.sessionKey == sessionKey && here.body.status == Active {
          quotes := quotes[id := Owned(here.owner, here.body.(status := Cancelled))];
          cancelled := cancelled + 1;
        }
        rest := rest - {id};
      }
      assert doomed - rest == doomed;
    }
  }

  class PurchaseQuoteService {
    const store: QuoteStore
    const limits: Limits

    constructor (store: QuoteStore, limits: Limits)
      ensures this.store == store && this.limits == limits
    {
      this.store := store;
      this.limits := limits;
    }

    /** Supersede, then refuse at the limit or file the new quote. */
    method Create(owner: Owner, terms: Terms, moment: int, newId: Id) returns (quote: Option<Quote>)
      modifies store
      ensures (store.quotes, quote.Some?) == Prepare(old(store.quotes), owner, terms, moment, limits, newId)
      ensures quote.Some? ==> newId in store.quotes && store.quotes[newId] == Owned(owner, quote.value)
    {
      ghost var before := store.quotes;
      var active := store.ListActive(owner, moment);
      var superseded := set id | id in active && store.quotes[id].body.terms.Choice() == terms.Choice();
      assert superseded == SameChoice(before, active, terms);
      var rest := superseded;
      while rest != {}
        invariant rest <= superseded
        invariant store.quotes == WithStatus(before, superseded - rest, Cancelled)
        decreases rest
      {
        var id :| id in rest;
        assert superseded - (rest - {id}) == (superseded - rest) + {id};
        WithOneMore(before, superseded - rest, id, Cancelled);
        var _ := store.SetTo(owner, id, Cancelled);
        rest := rest - {id};
      }
      assert superseded - rest == superseded;
      if |active| - |superseded| >= limits.maxActive { return None; }
      var filed := Quote(terms, moment, moment + limits.ttl, Active);
      store.Save(owner, newId, filed);
      return Some(filed);
    }

    method GetRecord(owner: Owner, id: Id) returns (answer: Lookup)
      ensures answer == match Find(store.quotes, owner, id)
                        case Some(quote) => Given(quote)
                        case None => NotGiven(QuoteNotFound)
    {
      var quote := store.Get(owner, id);
      if quote.None? { return NotGiven(QuoteNotFound); }
      return Given(quote.value);
    }

    /** Cancelling what is no longer usable changes nothing and is no error. */
    method CancelQuote(owner: Owner, id: Id, now: int) returns (answer: Lookup)
      modifies store
      ensures store.quotes == Cancel(old(store.quotes), owner, id, now)
      ensures answer.Given? <==> Find(old(store.quotes), owner, id).Some?
      ensures answer.Given? ==> Find(store.quotes, owner, id) == Some(answer.quote) && !answer.quote.Usable(now)
    {
      answer := GetRecord(owner, id);
      if answer.NotGiven? || !answer.quote.Usable(now) { return; }
      var updated := store.SetTo(owner, id, Cancelled);
      return Given(updated.value);
    }

    method ConsumeQuote(owner: Owner, id: Id) returns (answer: Lookup)
      modifies store
      ensures store.quotes == Consume(old(store.quotes), owner, id)
      ensures answer.Given? <==> Find(old(store.quotes), owner, id).Some?
      ensures answer.Given? ==> Find(store.quotes, owner, id) == Some(answer.quote) && answer.quote.status == Consumed
    {
      answer := GetRecord(owner, id);
      if answer.NotGiven? { return; }
      var updated := store.SetTo(owner, id, Consumed);
      return Given(updated.value);
    }
  }
}
