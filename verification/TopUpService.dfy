/** The eSIM top-up as the server carries it out, on its stores. */
module TopUpService {
  import opened Strings
  import opened Stores
  import opened Outcomes
  import opened QuoteService
  import opened TopUp

  class TopUpConfirmation {
    const quotes: PurchaseQuoteService
    const store: OwnedStore<Execution>
    const enabled: bool

    constructor (quotes: PurchaseQuoteService, store: OwnedStore<Execution>, enabled: bool)
      ensures this.quotes == quotes && this.store == store && this.enabled == enabled
    {
      this.quotes, this.store, this.enabled := quotes, store, enabled;
    }

    method AcquireRecord(owner: Owner, id: Id) returns (execution: Execution)
      modifies store
      ensures (execution, store.records) == Acquire(old(store.records), owner, id)
    {
      var existing := store.Get(owner, id);
      if existing.Some? { return existing.value; }
      store.Save(owner, id, NEW);
      return NEW;
    }

    /** From taking the quote's lock to the first read of the revalidation. */
    method BeginConfirm(owner: Owner, id: Id, now: int, echo: string) returns (begun: Begun)
      modifies store
      ensures (store.records, begun) == Confirm(quotes.store.quotes, old(store.records), enabled, owner, id, now, echo)
      ensures quotes.store.quotes == old(quotes.store.quotes)
    {
      if !enabled { return Settled(Raised(Plain(TopupDisabled))); }
      var answer := quotes.GetRecord(owner, id);
      if answer.NotGiven? { return Settled(Raised(Plain(TopupQuoteNotFound))); }
      var execution := AcquireRecord(owner, id);
      var replay := ReplayAttempted(execution);
      if replay.Some? { return Settled(replay.value); }
      var refusal := Gate(answer.quote, execution, now, echo);
      if refusal.Some? { return Settled(Raised(refusal.value)); }
      return Started(Flight(owner, id, execution, answer.quote, echo, Revalidating));
    }

    /** From the last read to being about to send: if the facts stand the attempt is counted. */
    method CountAttempt(flight: Flight, facts: Facts) returns (next: Begun)
      requires flight.stage.Revalidating?
      modifies store
      ensures match Revalidate(flight.quote.terms, facts)
        case Some(failure) => store.records == old(store.records) && next == Settled(Raised(failure))
        case None =>
          var counted := flight.execution.(attempts := flight.execution.attempts + 1);
          && store.records == old(store.records)[flight.id := Owned(flight.owner, counted)]
          && next == Started(flight.(execution := counted, stage := Ready(facts)))
    {
      var refusal := Revalidate(flight.quote.terms, facts);
      if refusal.Some? { return Settled(Raised(refusal.value)); }
      var counted := flight.execution.(attempts := flight.execution.attempts + 1);
      store.Save(flight.owner, flight.id, counted);
      return Started(flight.(execution := counted, stage := Ready(facts)));
    }

    /** From the answer to releasing the lock. */
    method FinishConfirm(flight: Flight, answer: TopUpAnswer) returns (reply: Reply)
      modifies quotes.store, store
      ensures (quotes.store.quotes, store.records, reply)
        == Answer(old(quotes.store.quotes), old(store.records), flight, ReadAnswer(answer))
    {
      var reading := ReadAnswer(answer);
      match reading
      case Done(orderId) =>
        var terms := flight.quote.terms;
        var receipt := Receipt(flight.id, terms.sim, terms.bundle, terms.amount, orderId);
        store.Save(flight.owner, flight.id,
          flight.execution.(status := Succeeded, result := Some(receipt), failure := None));
        var _ := quotes.ConsumeQuote(flight.owner, flight.id);
        return ToppedUp(receipt, false);
      case NotDone(failure, known) =>
        if known {
          store.Save(flight.owner, flight.id, Marked(flight.execution, Failed, failure));
        } else {
          store.Save(flight.owner, flight.id, Marked(flight.execution, Unresolved, failure));
        }
        return Raised(failure);
      case _ =>
        store.Save(flight.owner, flight.id, Marked(flight.execution, Unresolved, Plain(TopupUnknown)));
        return Raised(Plain(TopupUnknown));
    }
  }
}
