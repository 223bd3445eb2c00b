/** Card checkout as the server carries it out, on its stores. */
module CardService {
  import opened Strings
  import opened Stores
  import opened Ledgers
  import opened Outcomes
  import opened QuoteService
  import opened CardCheckout

  class CardCheckoutService {
    const store: OwnedStore<Checkout>

    constructor (store: OwnedStore<Checkout>)
      ensures this.store == store
    {
      this.store := store;
    }

    method AcquireRecord(owner: Owner, id: Id, newKey: Key) returns (checkout: Checkout)
      modifies store
      ensures (checkout, store.records) == Acquire(old(store.records), owner, id, newKey)
    {
      var existing := store.Get(owner, id);
      if existing.Some? { return existing.value; }
      checkout := NewCheckout(newKey);
      store.Save(owner, id, checkout);
    }

    /** The first record met that carries the reference decides; its owner is checked only then. */
    method GetByReference(owner: Owner, reference: Reference) returns (pick: Id, found: Option<Checkout>)
      ensures pick in Matches(store.records, reference) || Matches(store.records, reference) == {}
      ensures found ==
        if reference != "" && pick in Matches(store.records, reference) && store.records[pick].owner == owner
        then Some(store.records[pick].body) else None
    {
      pick, found := "", None;
      var rest := store.records.Keys;
      while rest != {}
        invariant rest <= store.records.Keys
        invariant Matches(store.records, reference) <= rest && found.None?
        decreases rest
      {
        var id :| id in rest;
        var checkout := store.records[id].body;
        if checkout.reference == Some(reference) {
          if reference == "" || store.records[id].owner != owner { return id, None; }
          return id, Some(checkout);
        }
        rest := rest - {id};
      }
    }

    method RecordAttempt(owner: Owner, id: Id, checkout: Checkout) returns (counted: Checkout)
      modifies store
      ensures counted == checkout.(attempts := checkout.attempts + 1)
      ensures store.records == old(store.records)[id := Owned(owner, counted)]
    {
      counted := checkout.(attempts := checkout.attempts + 1);
      store.Save(owner, id, counted);
    }

    method RecordCheck(owner: Owner, id: Id, checkout: Checkout) returns (counted: Checkout)
      modifies store
      ensures counted == checkout.(checks := checkout.checks + 1)
      ensures store.records == old(store.records)[id := Owned(owner, counted)]
    {
      counted := checkout.(checks := checkout.checks + 1);
      store.Save(owner, id, counted);
    }

    method MarkOpen(owner: Owner, id: Id, checkout: Checkout, page: Page)
      modifies store
      ensures store.records == old(store.records)[id := Owned(owner,
        checkout.(status := Open, page := Some(page), reference := Some(page.reference), failure := None))]
    {
      store.Save(owner, id,
        checkout.(status := Open, page := Some(page), reference := Some(page.reference), failure := None));
    }

    method MarkUnsuccessful(owner: Owner, id: Id, checkout: Checkout, status: CheckoutStatus, failure: Failure)
      modifies store
      ensures store.records == old(store.records)[id := Owned(owner, Marked(checkout, status, failure))]
    {
      store.Save(owner, id, checkout.(status := status, failure := Some(failure)));
    }

    method MarkSettled(owner: Owner, id: Id, checkout: Checkout, word: PaymentWord)
      modifies store
      ensures store.records == old(store.records)[id := Owned(owner, checkout.(settled := Some(word)))]
    {
      store.Save(owner, id, checkout.(settled := Some(word)));
    }
  }

  class CardPayments {
    const quotes: PurchaseQuoteService
    const checkouts: CardCheckoutService

    constructor (quotes: PurchaseQuoteService, checkouts: CardCheckoutService)
      ensures this.quotes == quotes && this.checkouts == checkouts
    {
      this.quotes := quotes;
      this.checkouts := checkouts;
    }

    /** From taking the quote's lock to being about to ask for a page. */
    method BeginOpening(owner: Owner, id: Id, now: int, newKey: Key) returns (begun: Begun<Opening>)
      modifies checkouts.store
      ensures (checkouts.store.records, begun)
        == Create(quotes.store.quotes, old(checkouts.store.records), owner, id, now, newKey)
      ensures quotes.store.quotes == old(quotes.store.quotes)
    {
      var answer := quotes.GetRecord(owner, id);
      if answer.NotGiven? { return Settled(Raised(Plain(QuoteNotFound))); }
      var quote := answer.quote;
      var checkout := checkouts.AcquireRecord(owner, id, newKey);
      var replay := ReplayTerminal(checkout);
      if replay.Some? { return Settled(replay.value); }
      var refusal := Gate(quote, checkout, now);
      if refusal.Some? { return Settled(Raised(Plain(refusal.value))); }
      checkout := checkouts.RecordAttempt(owner, id, checkout);
      return Sending(Opening(owner, id, checkout, quote, false));
    }

    /** From the page answer to releasing the quote's lock. */
    method FinishOpening(flight: Opening, answer: PageAnswer) returns (reply: Reply)
      modifies checkouts.store
      ensures (checkouts.store.records, reply) == AnswerOpening(old(checkouts.store.records), flight, ReadPage(answer))
    {
      var reading := ReadPage(answer);
      match reading
      case Opened(page, replayed) =>
        checkouts.MarkOpen(flight.owner, flight.id, flight.checkout, page);
        return PageGiven(page, replayed);
      case NotOpened(failure, how) =>
        if how == Terminal {
          checkouts.MarkUnsuccessful(flight.owner, flight.id, flight.checkout, Failed, failure);
        } else if how == Unsure {
          checkouts.MarkUnsuccessful(flight.owner, flight.id, flight.checkout, Unresolved, failure);
        }
        return Raised(failure);
      case _ =>
        checkouts.MarkUnsuccessful(flight.owner, flight.id, flight.checkout, Unresolved, Plain(CheckoutUnknown));
        return Raised(Plain(CheckoutUnknown));
    }

    /** From taking the payment's lock to being about to read its status. */
    method BeginChecking(owner: Owner, reference: Reference) returns (pick: Id, begun: Begun<Checking>)
      modifies checkouts.store
      ensures pick in Matches(old(checkouts.store.records), reference)
        || Matches(old(checkouts.store.records), reference) == {}
      ensures (checkouts.store.records, begun) == Check(old(checkouts.store.records), owner, reference, pick)
    {
      var found;
      pick, found := checkouts.GetByReference(owner, reference);
      if found.None? { return pick, Settled(Raised(Plain(PaymentNotFound))); }
      var checkout := found.value;
      if checkout.settled.Some? { return pick, Settled(StatusGiven(checkout.settled.value, None, true)); }
      if checkout.failure.Some? && checkout.failure.value.code == PaymentAmbiguous {
        return pick, Settled(Raised(Replay(checkout.failure)));
      }
      if checkout.checks >= MAX_STATUS_CHECKS { return pick, Settled(Raised(Plain(PaymentCheckLimit))); }
      checkout := checkouts.RecordCheck(owner, pick, checkout);
      return pick, Sending(Checking(owner, pick, checkout, false));
    }

    /** From the status answer to releasing the payment's lock. */
    method FinishChecking(flight: Checking, answer: StatusAnswer) returns (reply: Reply)
      modifies quotes.store, checkouts.store
      ensures (quotes.store.quotes, checkouts.store.records, reply)
        == AnswerChecking(old(quotes.store.quotes), old(checkouts.store.records), flight, ReadStatus(answer))
    {
      var reading := ReadStatus(answer);
      match reading
      case NoWord(failure) => return Raised(failure);
      case Word(word) =>
        if word == Ambiguous {
          checkouts.MarkUnsuccessful(flight.owner, flight.id, flight.checkout, Failed, Plain(PaymentAmbiguous));
          return Raised(Plain(PaymentAmbiguous));
        }
        if word == PaymentCompleted { var _ := quotes.ConsumeQuote(flight.owner, flight.id); }
        if word.IsTerminal() { checkouts.MarkSettled(flight.owner, flight.id, flight.checkout, word); }
        return StatusReply(flight.checkout, word);
    }
  }
}
