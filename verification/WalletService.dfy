/** The wallet purchase as the server carries it out, on its stores: each method runs from one
    suspension point to the next and does what the corresponding function says. */
module WalletService {
  import opened Strings
  import opened Stores
  import opened Ledgers
  import opened Outcomes
  import opened WalletAnswers
  import opened QuoteService
  import opened WalletPurchase

  class PurchaseExecutionService {
    const store: OwnedStore<Execution>

    constructor (store: OwnedStore<Execution>)
      ensures this.store == store
    {
      this.store := store;
    }

    method AcquireRecord(owner: Owner, id: Id, newKey: Key) returns (execution: Execution)
      modifies store
      ensures (execution, store.records) == Acquire(old(store.records), owner, id, newKey)
    {
      var existing := store.Get(owner, id);
      if existing.Some? { return existing.value; }
      execution := NewExecution(newKey);
      store.Save(owner, id, execution);
    }

    /** Counted before the request is sent, so that one that dies in flight still counts. */
    method RecordAttempt(owner: Owner, id: Id, execution: Execution) returns (counted: Execution)
      modifies store
      ensures counted == execution.(attempts := execution.attempts + 1)
      ensures store.records == old(store.records)[id := Owned(owner, counted)]
    {
      counted := execution.(attempts := execution.attempts + 1);
      store.Save(owner, id, counted);
    }

    method MarkSucceeded(owner: Owner, id: Id, execution: Execution, receipt: Receipt)
      modifies store
      ensures store.records ==
        old(store.records)[id := Owned(owner,
          execution.(status := Succeeded, result := Some(receipt), failure := None))]
    {
      store.Save(owner, id, execution.(status := Succeeded, result := Some(receipt), failure := None));
    }

    method MarkUnsuccessful(owner: Owner, id: Id, execution: Execution, status: ExecutionStatus, failure: Failure)
      modifies store
      ensures store.records == old(store.records)[id := Owned(owner, Marked(execution, status, failure))]
    {
      store.Save(owner, id, execution.(status := status, failure := Some(failure)));
    }
  }

  class PurchaseConfirmation {
    const quotes: PurchaseQuoteService
    const executions: PurchaseExecutionService

    constructor (quotes: PurchaseQuoteService, executions: PurchaseExecutionService)
      ensures this.quotes == quotes && this.executions == executions
    {
      this.quotes := quotes;
      this.executions := executions;
    }

    /** From taking the quote's lock to being about to send. */
    method BeginConfirm(owner: Owner, id: Id, now: int, newKey: Key) returns (begun: Begun)
      modifies executions.store
      ensures (executions.store.records, begun)
        == Confirm(quotes.store.quotes, old(executions.store.records), owner, id, now, newKey)
      ensures quotes.store.quotes == old(quotes.store.quotes)
    {
      var answer := quotes.GetRecord(owner, id);
      if answer.NotGiven? { return Settled(Raised(Plain(QuoteNotFound))); }
      var quote := answer.quote;
      var execution := executions.AcquireRecord(owner, id, newKey);
      var replay := ReplayTerminal(execution);
      if replay.Some? { return Settled(replay.value); }
      var refusal := Gate(quote, execution, now);
      if refusal.Some? { return Settled(Raised(Plain(refusal.value))); }
      execution := executions.RecordAttempt(owner, id, execution);
      return Sending(Flight(owner, id, execution, quote));
    }

    /** From the answer to releasing the lock. */
    method FinishConfirm(flight: Flight, answer: PurchaseAnswer) returns (reply: Reply)
      modifies quotes.store, executions.store
      ensures (quotes.store.quotes, executions.store.records, reply)
        == Answer(old(quotes.store.quotes), old(executions.store.records), flight, ReadAnswer(answer))
    {
      var reading := ReadAnswer(answer);
      match reading
      case Completed(purchase) =>
        var receipt := ReceiptOf(flight, purchase);
        executions.MarkSucceeded(flight.owner, flight.id, flight.execution, receipt);
        var _ := quotes.ConsumeQuote(flight.owner, flight.id);
        return Purchased(receipt, purchase.idempotentReplay);
      case NotCompleted(failure, how) =>
        match how {
          case Escalate => executions.MarkUnsuccessful(flight.owner, flight.id, flight.execution, Escalated, failure);
          case Terminal => executions.MarkUnsuccessful(flight.owner, flight.id, flight.execution, Failed, failure);
          case Unsure => executions.MarkUnsuccessful(flight.owner, flight.id, flight.execution, Unresolved, failure);
          case Retryable =>
        }
        return Raised(failure);
      case _ =>
        executions.MarkUnsuccessful(flight.owner, flight.id, flight.execution, Unresolved, Plain(OutcomeUnknown));
        return Raised(Plain(OutcomeUnknown));
    }
  }
}
