/** Confirming a wallet purchase. `Confirm` and `Answer` are the two stretches of a call between its
    suspension points; everything else (waiting for the quote's lock, refreshing the session, the
    request itself) lets other calls run in between. */
module WalletPurchase {
  import opened Strings
  import opened Stores
  import opened Money
  import opened Quotes
  import opened Ledgers
  import opened Outcomes
  import opened WalletAnswers

  datatype ExecutionStatus = Pending | Succeeded | Failed | Unresolved | Escalated {
    predicate IsTerminal() { Succeeded? || Failed? || Escalated? }
  }

  datatype Receipt = Receipt(
    quote: Id, bundle: string, payment: PaymentMethod, amount: Decimal, currency: string, orderId: Option<string>)

  datatype Execution = Execution(
    key: Key, attempts: nat, status: ExecutionStatus, result: Option<Receipt>, failure: Option<Failure>)

  type Records = map<Id, Owned<Execution>>

  const MAX_EXECUTION_ATTEMPTS: nat := 3

  datatype Reply = Purchased(receipt: Receipt, replayed: bool) | Raised(failure: Failure)

  /** What a suspended call holds on to: its caller and its own copies of the two records. */
  datatype Flight = Flight(owner: Owner, id: Id, execution: Execution, quote: Quote)

  datatype Begun = Sending(flight: Flight) | Settled(reply: Reply)

  function NewExecution(key: Key): Execution { Execution(key, 0, Pending, None, None) }

  /** The record for a quote, with a key minted on first use. */
  function Acquire(records: Records, owner: Owner, id: Id, newKey: Key): (Execution, Records) {
    match Find(records, owner, id)
    case Some(execution) => (execution, records)
    case None => (NewExecution(newKey), records[id := Owned(owner, NewExecution(newKey))])
  }

  function ReplayTerminal(execution: Execution): Option<Reply> {
    if execution.status.Succeeded? && execution.result.Some? then Some(Purchased(execution.result.value, true))
    else if execution.status.IsTerminal() then Some(Raised(Replay(execution.failure)))
    else None
  }

  /** The gates before anything is sent, in the order they are tried. */
  function Gate(quote: Quote, execution: Execution, now: int): Option<Code> {
    if !quote.Usable(now) then Some(UnusableCode(quote.EffectiveStatus(now)))
    else if quote.terms.payment != PaymentMethod.Wallet then Some(NonWalletQuote)
    else if quote.terms.covered != Some(true) then Some(InsufficientBalance)
    else if execution.attempts >= MAX_EXECUTION_ATTEMPTS then Some(AttemptLimit)
    else None
  }

  /** From taking the quote's lock to being about to send: read the quote, acquire the record, replay
      a terminal answer, gate, and count the attempt. */
  function Confirm(book: Book, records: Records, owner: Owner, id: Id, now: int, newKey: Key): (Records, Begun) {
    match Find(book, owner, id)
    case None => (records, Settled(Raised(Plain(QuoteNotFound))))
    case Some(quote) =>
      var (execution, records1) := Acquire(records, owner, id, newKey);
      match ReplayTerminal(execution)
      case Some(reply) => (records1, Settled(reply))
      case None =>
        match Gate(quote, execution, now)
        case Some(code) => (records1, Settled(Raised(Plain(code))))
        case None =>
          var counted := execution.(attempts := execution.attempts + 1);
          (records1[id := Owned(owner, counted)], Sending(Flight(owner, id, counted, quote)))
  }

  function ReceiptOf(flight: Flight, purchase: Purchase): Receipt {
    var terms := flight.quote.terms;
    Receipt(flight.id, terms.bundle, terms.payment, terms.amount, terms.currency, purchase.orderId)
  }

  function Marked(execution: Execution, status: ExecutionStatus, failure: Failure): Execution {
    execution.(status := status, failure := Some(failure))
  }

  /** What an unsuccessful reading makes of the record; a retryable refusal records nothing. */
  function Remembered(execution: Execution, reading: Reading): Option<Execution> {
    match reading
    case Lost => Some(Marked(execution, Unresolved, Plain(OutcomeUnknown)))
    case Unreadable => Some(Marked(execution, Unresolved, Plain(OutcomeUnknown)))
    case NotCompleted(failure, Escalate) => Some(Marked(execution, Escalated, failure))
    case NotCompleted(failure, Terminal) => Some(Marked(execution, Failed, failure))
    case NotCompleted(failure, Unsure) => Some(Marked(execution, Unresolved, failure))
    case NotCompleted(_, Retryable) => None
    case Completed(_) => None
  }

  /** From the answer to releasing the lock. The record saved is built on the copy taken before the
      request, whatever became of the stored one meanwhile. */
  function Answer(book: Book, records: Records, flight: Flight, reading: Reading): (Book, Records, Reply) {
    match reading
    case Completed(purchase) =>
      var receipt := ReceiptOf(flight, purchase);
      var done := flight.execution.(status := Succeeded, result := Some(receipt), failure := None);
      (Consume(book, flight.owner, flight.id), records[flight.id := Owned(flight.owner, done)],
       Purchased(receipt, purchase.idempotentReplay))
    case _ =>
      var failure := if reading.NotCompleted? then reading.failure else Plain(OutcomeUnknown);
      match Remembered(flight.execution, reading)
      case Some(e) => (book, records[flight.id := Owned(flight.owner, e)], Raised(failure))
      case None => (book, records, Raised(failure))
  }

  // ------------------------------------------------------------------ what the two stretches decide

  /** A request is sent exactly for an owned, active, unexpired wallet quote the balance covered, with
      no terminal answer on record and attempts left. */
  lemma SendsExactlyWhen(book: Book, records: Records, owner: Owner, id: Id, now: int, newKey: Key)
    ensures var quote, execution := Find(book, owner, id), Find(records, owner, id);
      Confirm(book, records, owner, id, now, newKey).1.Sending? <==>
        && quote.Some? && quote.value.status == Active && now < quote.value.expiresAt
        && quote.value.terms.payment == PaymentMethod.Wallet && quote.value.terms.covered == Some(true)
        && (execution.Some? ==> !execution.value.status.IsTerminal() && execution.value.attempts < 3)
  {
  }

  /** A recorded success is handed back whatever has become of the quote since; a recorded refusal is
      raised again. */
  lemma RecordedAnswersWin(book: Book, records: Records, owner: Owner, id: Id, now: int, newKey: Key)
    requires Find(book, owner, id).Some? && Find(records, owner, id).Some?
    ensures var e := Find(records, owner, id).value;
      var (after, begun) := Confirm(book, records, owner, id, now, newKey);
      && (e.status.IsTerminal() ==> after == records && begun.Settled?)
      && (e.status.Succeeded? && e.result.Some? ==> begun == Settled(Purchased(e.result.value, true)))
      && ((e.status.Failed? || e.status.Escalated?) && e.failure.Some? ==>
            begun.reply.Raised? && begun.reply.failure.message == e.failure.value.message)
  {
  }

  /** Otherwise the first obstacle is named: the quote's own state, its method, its cover, the limit. */
  lemma RefusalsNameTheObstacle(book: Book, records: Records, owner: Owner, id: Id, now: int, newKey: Key)
    requires Find(records, owner, id).Some? ==> !Find(records, owner, id).value.status.IsTerminal()
    ensures var quote := Find(book, owner, id);
      var begun := Confirm(book, records, owner, id, now, newKey).1;
      if quote.None? then begun == Settled(Raised(Plain(QuoteNotFound)))
      else
        var q := quote.value;
        && (q.status == Cancelled ==> begun == Settled(Raised(Plain(QuoteCancelled))))
        && (q.status == Consumed ==> begun == Settled(Raised(Plain(QuoteConsumed))))
        && (q.status == Expired || (q.status == Active && now >= q.expiresAt) ==>
              begun == Settled(Raised(Plain(QuoteExpired))))
        && (q.Usable(now) && q.terms.payment == PaymentMethod.Card ==> begun == Settled(Raised(Plain(NonWalletQuote))))
        && (q.Usable(now) && q.terms.payment == PaymentMethod.Wallet && q.terms.covered != Some(true) ==>
              begun == Settled(Raised(Plain(InsufficientBalance))))
        && (q.Usable(now) && q.terms.payment == PaymentMethod.Wallet && q.terms.covered == Some(true) ==>
              begun.Sending? || begun == Settled(Raised(Plain(AttemptLimit))))
  {
  }

  /** An answer touches one record and at most one quote; it consumes the quote exactly when the
      purchase completed, and never changes the key or the count of attempts. */
  lemma AnswersTouchOneRecord(book: Book, records: Records, flight: Flight, reading: Reading)
    requires flight.id != "" && flight.id in book && book[flight.id].owner == flight.owner
    requires flight.id in records && records[flight.id] == Owned(flight.owner, flight.execution)
    requires !flight.execution.status.IsTerminal()
    ensures var (book', records', reply) := Answer(book, records, flight, reading);
      var e := records'[flight.id].body;
      && records'.Keys == records.Keys && (forall id | id in records && id != flight.id :: records'[id] == records[id])
      && book'.Keys == book.Keys && (forall id | id in book && id != flight.id :: book'[id] == book[id])
      && e.key == flight.execution.key && e.attempts == flight.execution.attempts
      && (book'[flight.id].body.status == Consumed <==> reading.Completed? || book[flight.id].body.status == Consumed)
      && (!reading.Completed? ==> book' == book && reply.Raised?)
      && (reading.Completed? ==>
            && e.status == Succeeded && e.failure.None? && e.result.Some?
            && e.result.value.quote == flight.id && e.result.value.amount == flight.quote.terms.amount
            && e.result.value.bundle == flight.quote.terms.bundle && e.result.value.orderId == reading.purchase.orderId
            && e.result.value.payment == flight.quote.terms.payment
            && e.result.value.currency == flight.quote.terms.currency
            && reply == Purchased(e.result.value, reading.purchase.idempotentReplay))
      && (e.status.Failed? <==> reading.NotCompleted? && reading.how == Terminal)
      && (e.status.Escalated? <==> reading.NotCompleted? && reading.how == Escalate)
      && (reading.NotCompleted? ==> reply == Raised(reading.failure))
      && (reading.NotCompleted? && reading.how == Retryable ==> records' == records)
  {
  }

  /** An answer that never came, could not be read, or reads as a success without a purchase. */
  predicate Unread(answer: PurchaseAnswer) {
    answer.None? || !answer.value.Parsed() || (answer.value.IsSuccess() && !ReportsPurchase(answer.value))
  }

  /** Of answers that tell nothing, exactly these are kept as unresolved: none at all, a success that
      names no purchase, and an unread one whose status is of success or of a server's failure other
      than 503. Any other unread status is filed as if it had been explained. The key is kept always,
      and the next request, if there is one, carries it. */
  lemma UnreadAnswersAreUnresolvedExactlyWhen(
    book: Book, records: Records, flight: Flight, answer: PurchaseAnswer, now: int, newKey: Key)
    requires Unread(answer) && flight.id in book && book[flight.id].owner == flight.owner
    requires flight.id in records && records[flight.id] == Owned(flight.owner, flight.execution)
    requires flight.execution.status.Pending? || flight.execution.status.Unresolved?
    ensures var (book', records', reply) := Answer(book, records, flight, ReadAnswer(answer));
      && book' == book && reply.Raised?
      && flight.id in records' && records'[flight.id].owner == flight.owner
      && var e := records'[flight.id].body;
      && e.key == flight.execution.key && e.attempts == flight.execution.attempts
      && (answer.None? || answer.value.Parsed() ==> e.status.Unresolved?)
      && (answer.Some? && !answer.value.Parsed() ==>
            var s := answer.value.status;
            && (s in {401, 403, 404, 429, 503} ==> records' == records)
            && (s !in {401, 403, 404, 429, 503} ==>
                  && (e.status.Unresolved? <==> 200 <= s < 300 || s >= 500)
                  && (e.status.Escalated? <==> s == 424)
                  && (e.status.Failed? <==> !(200 <= s < 300) && s < 500 && s != 424)))
      && var next := Confirm(book', records', flight.owner, flight.id, now, newKey).1;
         next.Sending? ==>
           && next.flight.execution.key == flight.execution.key
           && next.flight.execution.attempts == flight.execution.attempts + 1
  {
    if answer.Some? && !answer.value.Parsed() { UnreadCodes(answer.value); }
  }

  lemma UnreadCodes(outcome: Outcome<Option<Purchase>>)
    requires !outcome.Parsed()
    ensures var s, r := outcome.status, ReadPurchase(outcome);
      && r.NotCompleted?
      && (r.how == Retryable <==> s in {401, 403, 404, 429, 503})
      && (r.how == Escalate <==> s == 424)
      && (r.how == Unsure <==> 200 <= s < 300 || (s >= 500 && s != 503))
  {
    ReadingsFollowTheAnswer(outcome);
  }

  /** So a request that timed out at a gateway, or was turned away by something that is not the platform,
      is recorded as refused for good. */
  lemma UnreadRefusalsAreFinal(status: int)
    requires status == 400 || status == 408
    ensures IsFinal(ReadAnswer(Some(Outcome(status, None))))
  {
    UnreadCodes(Outcome(status, None));
  }
}
