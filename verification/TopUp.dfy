/** Carrying out an eSIM top-up: a write the platform cannot recognise when repeated, so one quote is
    sent at most once, after every fact it rests on has been read afresh. */
module TopUp {
  import opened Strings
  import opened Stores
  import opened Money
  import opened Quotes
  import opened Outcomes

  /** Every status but the first is final, an unresolved one included. */
  datatype ExecutionStatus = Pending | Succeeded | Failed | Unresolved {
    predicate IsTerminal() { !Pending? }
  }

  datatype Receipt = Receipt(quote: Id, sim: Option<string>, bundle: string, amount: Decimal, orderId: string)

  datatype Execution = Execution(
    attempts: nat, status: ExecutionStatus, result: Option<Receipt>, failure: Option<Failure>)
  {
    predicate WasSent() { attempts > 0 }
  }

  const NEW := Execution(0, Pending, None, None)

  type Records = map<Id, Owned<Execution>>

  datatype Reply = ToppedUp(receipt: Receipt, replayed: bool) | Raised(failure: Failure)

  datatype Esim = Esim(iccid: string, toppable: Option<bool>, bundle: string)

  datatype Offer = Offer(code: string, price: Option<Decimal>, currency: string)

  /** What the platform says when everything is read again: the caller's SIMs, the plans this SIM takes,
      and the balance. */
  datatype Facts = Facts(esims: seq<Esim>, offers: seq<Offer>, balance: Option<Decimal>)

  datatype Checked<T> = Good(value: T) | Bad(failure: Failure)

  /** How far a confirmation has come; `index` is the request's place in the ledger. */
  datatype Stage = Revalidating | Ready(facts: Facts) | Sent(facts: Facts, index: nat)

  datatype Flight = Flight(owner: Owner, id: Id, execution: Execution, quote: Quote, echo: string, stage: Stage)

  datatype Begun = Started(flight: Flight) | Settled(reply: Reply)

  // ------------------------------------------------------------------ before anything is sent

  function Acquire(records: Records, owner: Owner, id: Id): (Execution, Records) {
    match Find(records, owner, id)
    case Some(execution) => (execution, records)
    case None => (NEW, records[id := Owned(owner, NEW)])
  }

  const REPLAYABLE: set<Code> := {TopupAlreadyAttempted, TopupUnknown, TopupRejected}

  function Replay(failure: Option<Failure>): Failure {
    match failure
    case None => Plain(TopupUnknown)
    case Some(f) => Failure(if f.code in REPLAYABLE then f.code else TopupUnknown, f.message)
  }

  /** A request that went out and was never heard of locks the quote as an unknown outcome does. */
  function ReplayAttempted(execution: Execution): Option<Reply> {
    if execution.status.Succeeded? && execution.result.Some? then Some(ToppedUp(execution.result.value, true))
    else if execution.status.IsTerminal() then Some(Raised(Replay(execution.failure)))
    else if execution.WasSent() then Some(Raised(Plain(TopupUnknown)))
    else None
  }

  function Unusable(status: Status): Failure {
    match status
    case Expired => Plain(TopupQuoteExpired)
    case Cancelled => Plain(TopupQuoteCancelled)
    case Consumed => Failure(TopupQuoteCancelled, Specific("That prepared top-up has already been used."))
    case Active => Plain(TopupUnknown)
  }

  function Gate(quote: Quote, execution: Execution, now: int, echo: string): Option<Failure> {
    if !quote.Usable(now) then Some(Unusable(quote.EffectiveStatus(now)))
    else if quote.terms.payment != PaymentMethod.Wallet then
      Some(Failure(TopupRejected, Specific("This prepared top-up is not a wallet top-up.")))
    else if CheckConfirmedAmount(quote.terms.amount, echo) == Missing then
      Some(Failure(TopupConfirmationRequired, Specific("No amount was confirmed.")))
    else if CheckConfirmedAmount(quote.terms.amount, echo) == Mismatch then
      Some(Failure(TopupConfirmationRequired, Specific("The confirmed amount does not match this prepared top-up.")))
    else if execution.WasSent() then Some(Plain(TopupAlreadyAttempted))
    else None
  }

  /** From taking the quote's lock to the first read of the revalidation. */
  function Confirm(book: Book, records: Records, enabled: bool, owner: Owner, id: Id,
      now: int, echo: string): (Records, Begun)
  {
    if !enabled then (records, Settled(Raised(Plain(TopupDisabled))))
    else
      match Find(book, owner, id)
      case None => (records, Settled(Raised(Plain(TopupQuoteNotFound))))
      case Some(quote) =>
        var (execution, records1) := Acquire(records, owner, id);
        match ReplayAttempted(execution)
        case Some(reply) => (records1, Settled(reply))
        case None =>
          match Gate(quote, execution, now, echo)
          case Some(failure) => (records1, Settled(Raised(failure)))
          case None => (records1, Started(Flight(owner, id, execution, quote, echo, Revalidating)))
  }

  // ------------------------------------------------------------------ revalidation

  function FirstWith(esims: seq<Esim>, iccid: string): Option<Esim> { First(esims, (e: Esim) => e.iccid == iccid) }

  function FirstOffer(offers: seq<Offer>, code: string): Option<Offer> { First(offers, (o: Offer) => o.code == code) }

  function ResolveTarget(esims: seq<Esim>, iccid: string): Checked<Esim> {
    if esims == [] then Bad(Plain(NoPurchasedEsims))
    else
      var requested := Strip(iccid);
      if requested == "" then
        if |esims| == 1 then Good(esims[0])
        else Bad(Failure(InvalidInput, Specific("It is not clear which eSIM is meant.")))
      else
        match FirstWith(esims, requested)
        case Some(esim) => Good(esim)
        case None => Bad(Plain(EsimNotFound))
  }

  function RequireToppable(esim: Esim): Option<Failure> {
    if esim.toppable == Some(false) then Some(Plain(TopupNotSupported))
    else if esim.bundle == "" then
      Some(Failure(TopupNotSupported, Specific("Which plan is on this eSIM is not recorded.")))
    else None
  }

  function RequirePrice(price: Option<Decimal>, currency: string): Option<Failure> {
    if price.None? || currency == "" then Some(Failure(InvalidInput, Specific("No usable price was reported.")))
    else if Signed(price.value) < 0 then Some(Failure(InvalidInput, Specific("A negative price was reported.")))
    else None
  }

  function CheckOffer(terms: Terms, offers: seq<Offer>): Option<Failure> {
    match FirstOffer(offers, terms.bundle)
    case None => Some(Failure(TopupIncompatible, Specific("This top-up is no longer offered for this eSIM.")))
    case Some(offer) =>
      var currency := OrElse(offer.currency, terms.currency);
      if RequirePrice(offer.price, currency).Some? then RequirePrice(offer.price, currency)
      else if !SameValue(offer.price.value, terms.amount) || Upper(Strip(currency)) != Upper(Strip(terms.currency)) then
        Some(Failure(TopupRejected, Specific("The price of this top-up changed.")))
      else None
  }

  function CheckBalance(terms: Terms, balance: Option<Decimal>): Option<Failure> {
    match balance
    case None => Some(Plain(WalletUnavailable))
    case Some(b) =>
      if NoLess(b, terms.amount) then None
      else Some(Failure(InsufficientBalance, Specific("The wallet balance does not cover this top-up.")))
  }

  function Revalidate(terms: Terms, facts: Facts): Option<Failure> {
    match ResolveTarget(facts.esims, terms.sim.UnwrapOr(""))
    case Bad(failure) => Some(failure)
    case Good(esim) =>
      if RequireToppable(esim).Some? then RequireToppable(esim)
      else if CheckOffer(terms, facts.offers).Some? then CheckOffer(terms, facts.offers)
      else CheckBalance(terms, facts.balance)
  }

  // ------------------------------------------------------------------ the answer

  datatype Result = Result(orderId: string, completed: bool)

  /** `known` says that the platform refused, so that nothing was charged. */
  datatype Reading = Lost | Unreadable | Done(orderId: string) | NotDone(failure: Failure, known: bool)

  const BUSINESS_MATCHERS: seq<Matcher> :=
    [Matcher(["insufficient_wallet_balance", "insufficient wallet"], InsufficientBalance),
     Matcher(["wallet_not_found", "wallet not found"], WalletUnavailable),
     Matcher(["bundle_not_available", "bundle not available"], TopupIncompatible),
     Matcher(["invalid_payment_type", "payment type"], TopupRejected)]

  function BusinessRefusal(hint: string): Code { LabelCode(BUSINESS_MATCHERS, hint).UnwrapOr(TopupRejected) }

  function ClassifyFailure(status: int, hint: string, parsed: bool): (Failure, bool) {
    if status == 401 || status == 403 then
      (Failure(AuthenticationRequired, Specific("The eSIM session was refused by the platform.")), true)
    else if status == 404 then (Failure(TopupRejected, Specific("The top-up request was not accepted.")), true)
    else if status == 429 then (Failure(RateLimited, Specific("The top-up was not carried out.")), true)
    else if (status == 400 || status == 409 || status == 422) && parsed then (Plain(BusinessRefusal(hint)), true)
    else (Plain(TopupUnknown), false)
  }

  function ReadTopup(outcome: Outcome<Option<Result>>): Reading {
    if outcome.IsSuccess() then
      match outcome.envelope.value.data
      case Some(r) => if r.orderId != "" && r.completed then Done(r.orderId) else Unreadable
      case None => Unreadable
    else
      var (failure, known) := ClassifyFailure(outcome.EffectiveStatus(), outcome.Hint(), outcome.Parsed());
      NotDone(failure, known)
  }

  /** The platform's answer to a top-up, if one came at all. */
  type TopUpAnswer = Option<Outcome<Option<Result>>>

  function ReadAnswer(answer: TopUpAnswer): Reading {
    match answer
    case None => Lost
    case Some(outcome) => ReadTopup(outcome)
  }

  predicate ReportsTopUp(outcome: Outcome<Option<Result>>) {
    outcome.IsSuccess() && outcome.envelope.value.data.Some? && outcome.envelope.value.data.value.completed
  }

  /** The statuses by which a request is refused. */
  const REFUSING: set<int> := {400, 401, 403, 404, 409, 422, 429}

  /** A refusal the platform explains. */
  predicate Refuses(outcome: Outcome<Option<Result>>) { outcome.Parsed() && outcome.EffectiveStatus() in REFUSING }

  predicate IsFinal(reading: Reading) { reading.NotDone? && reading.known }

  function Marked(execution: Execution, status: ExecutionStatus, failure: Failure): Execution {
    execution.(status := status, failure := Some(failure))
  }

  /** From the answer to releasing the quote's lock: every answer but a success or a refusal is unknown,
      and each of them is recorded for good. */
  function Answer(book: Book, records: Records, flight: Flight, reading: Reading): (Book, Records, Reply) {
    match reading
    case Done(orderId) =>
      var terms := flight.quote.terms;
      var receipt := Receipt(flight.id, terms.sim, terms.bundle, terms.amount, orderId);
      (Consume(book, flight.owner, flight.id),
       records[flight.id := Owned(flight.owner,
         flight.execution.(status := Succeeded, result := Some(receipt), failure := None))],
       ToppedUp(receipt, false))
    case NotDone(failure, known) =>
      var marked := Marked(flight.execution, if known then Failed else Unresolved, failure);
      (book, records[flight.id := Owned(flight.owner, marked)], Raised(failure))
    case _ =>
      var marked := Marked(flight.execution, Unresolved, Plain(TopupUnknown));
      (book, records[flight.id := Owned(flight.owner, marked)], Raised(Plain(TopupUnknown)))
  }

  // ------------------------------------------------------------------ what the stretches decide

  /** A confirmation goes on to revalidation exactly where execution is switched on, the quote is an
      owned, active, unexpired wallet quote, the echo is its amount, and nothing was ever sent. */
  lemma BeginsExactlyWhen(book: Book, records: Records, enabled: bool, owner: Owner, id: Id, now: int, echo: string)
    ensures var quote, execution := Find(book, owner, id), Find(records, owner, id);
      Confirm(book, records, enabled, owner, id, now, echo).1.Started? <==>
        && enabled && quote.Some? && quote.value.status == Active && now < quote.value.expiresAt
        && quote.value.terms.payment == PaymentMethod.Wallet
        && CheckConfirmedAmount(quote.value.terms.amount, echo) == Confirmed
        && (execution.Some? ==> execution.value.status.Pending? && execution.value.attempts == 0)
  {
  }

  /** Whatever was attempted is answered before any gate: with the receipt, the recorded refusal, or
      "unknown" where no outcome was ever recorded. */
  lemma AttemptsAreAnsweredFirst(book: Book, records: Records, owner: Owner, id: Id, now: int, echo: string)
    requires Find(book, owner, id).Some? && Find(records, owner, id).Some?
    ensures var e := Find(records, owner, id).value;
      var (after, begun) := Confirm(book, records, true, owner, id, now, echo);
      && (e.status.Succeeded? && e.result.Some? ==> begun == Settled(ToppedUp(e.result.value, true)))
      && (e.status.Pending? && e.attempts > 0 ==> begun == Settled(Raised(Plain(TopupUnknown))))
      && ((e.status.Failed? || e.status.Unresolved?) && e.failure.Some? ==>
            begun.Settled? && begun.reply.Raised? && begun.reply.failure.message == e.failure.value.message)
      && after == records
  {
  }

  /** Where nothing was attempted, the first obstacle is named. */
  lemma RefusalsNameTheObstacle(book: Book, records: Records, owner: Owner, id: Id, now: int, echo: string)
    requires Find(records, owner, id).Some? ==>
      Find(records, owner, id).value.status.Pending? && Find(records, owner, id).value.attempts == 0
    ensures var quote := Find(book, owner, id);
      var begun := Confirm(book, records, true, owner, id, now, echo).1;
      if quote.None? then begun == Settled(Raised(Plain(TopupQuoteNotFound)))
      else
        var q := quote.value;
        && (begun.Settled? ==> begun.reply.Raised?)
        && (q.EffectiveStatus(now) == Expired ==> begun == Settled(Raised(Plain(TopupQuoteExpired))))
        && (q.EffectiveStatus(now) == Cancelled ==> begun == Settled(Raised(Plain(TopupQuoteCancelled))))
        && (q.EffectiveStatus(now) == Consumed ==> begun.Settled? && begun.reply.failure.code == TopupQuoteCancelled)
        && (q.Usable(now) && q.terms.payment == PaymentMethod.Card ==>
              begun.Settled? && begun.reply.failure.code == TopupRejected)
        && (q.Usable(now) && q.terms.payment == PaymentMethod.Wallet
            && CheckConfirmedAmount(q.terms.amount, echo) != Confirmed ==>
              begun.Settled? && begun.reply.failure.code == TopupConfirmationRequired)
  {
  }

  /** Every answer closes the record: done, refused, or unknown for good; only a completed top-up
      consumes the quote. */
  lemma AnswersCloseTheRecord(book: Book, records: Records, flight: Flight, reading: Reading)
    requires flight.id != "" && flight.id in book && book[flight.id].owner == flight.owner
    ensures var (book', records', reply) := Answer(book, records, flight, reading);
      && flight.id in records' && records'[flight.id].owner == flight.owner
      && (forall id | id in records && id != flight.id :: id in records' && records'[id] == records[id])
      && var e := records'[flight.id].body;
      && e.status.IsTerminal() && e.attempts == flight.execution.attempts
      && (e.status.Succeeded? <==> reading.Done?) && (reply.ToppedUp? <==> reading.Done?)
      && (e.status.Failed? <==> reading.NotDone? && reading.known)
      && (reading.Done? ==>
            && e.result == Some(Receipt(
                 flight.id, flight.quote.terms.sim, flight.quote.terms.bundle, flight.quote.terms.amount,
                 reading.orderId))
            && reply == ToppedUp(e.result.value, false) && e.failure.None?)
      && (!reading.Done? ==> e.failure == Some(reply.failure))
      && (book'[flight.id].body.status == Consumed <==> reading.Done? || book[flight.id].body.status == Consumed)
  {
  }

  // ------------------------------------------------------------------ facts about the checks

  predicate IsFirstSim(esims: seq<Esim>, iccid: string, k: nat) {
    k < |esims| && esims[k].iccid == iccid && forall j | 0 <= j < k :: esims[j].iccid != iccid
  }

  predicate IsFirstOffer(offers: seq<Offer>, code: string, k: nat) {
    k < |offers| && offers[k].code == code && forall j | 0 <= j < k :: offers[j].code != code
  }

  lemma FirstWithIsFirst(esims: seq<Esim>, iccid: string, k: nat)
    requires IsFirstSim(esims, iccid, k)
    ensures FirstWith(esims, iccid) == Some(esims[k])
  {
    FirstIsAt(esims, (e: Esim) => e.iccid == iccid, k);
  }

  lemma FoundSimIsFirst(esims: seq<Esim>, iccid: string) returns (k: nat)
    requires FirstWith(esims, iccid).Some?
    ensures IsFirstSim(esims, iccid, k)
  {
    k := FirstFound(esims, (e: Esim) => e.iccid == iccid);
  }

  lemma FirstOfferIsFirst(offers: seq<Offer>, code: string, k: nat)
    requires IsFirstOffer(offers, code, k)
    ensures FirstOffer(offers, code) == Some(offers[k])
  {
    FirstIsAt(offers, (o: Offer) => o.code == code, k);
  }

  lemma FoundOfferIsFirst(offers: seq<Offer>, code: string) returns (k: nat)
    requires FirstOffer(offers, code).Some?
    ensures IsFirstOffer(offers, code, k)
  {
    k := FirstFound(offers, (o: Offer) => o.code == code);
  }

  /** The SIM is the caller's and takes top-ups. */
  ghost predicate SimStands(terms: Terms, esims: seq<Esim>) {
    var iccid := Strip(terms.sim.UnwrapOr(""));
    exists k: nat | k < |esims| ::
      && (if iccid == "" then |esims| == 1 else IsFirstSim(esims, iccid, k))
      && esims[k].toppable != Some(false) && esims[k].bundle != ""
  }

  /** The plan is still offered, at the amount and in the currency the user agreed to. */
  ghost predicate OfferStands(terms: Terms, offers: seq<Offer>) {
    exists k: nat | IsFirstOffer(offers, terms.bundle, k) ::
      && offers[k].price.Some? && Signed(offers[k].price.value) >= 0
      && SameValue(offers[k].price.value, terms.amount)
      && OrElse(offers[k].currency, terms.currency) != ""
      && Upper(Strip(OrElse(offers[k].currency, terms.currency))) == Upper(Strip(terms.currency))
  }

  ghost predicate Stands(terms: Terms, facts: Facts) {
    && SimStands(terms, facts.esims) && OfferStands(terms, facts.offers)
    && facts.balance.Some? && NoLess(facts.balance.value, terms.amount)
  }

  lemma SimPassesIffItStands(terms: Terms, esims: seq<Esim>)
    ensures var target := ResolveTarget(esims, terms.sim.UnwrapOr(""));
      target.Good? && RequireToppable(target.value).None? <==> SimStands(terms, esims)
  {
    var iccid := Strip(terms.sim.UnwrapOr(""));
    if iccid == "" {
      if |esims| == 1 && RequireToppable(esims[0]).None? { assert SimStands(terms, esims); }
    } else {
      if FirstWith(esims, iccid).Some? {
        var k := FoundSimIsFirst(esims, iccid);
        FirstWithIsFirst(esims, iccid, k);
      }
      if SimStands(terms, esims) {
        var k: nat :| k < |esims| && IsFirstSim(esims, iccid, k)
          && esims[k].toppable != Some(false) && esims[k].bundle != "";
        FirstWithIsFirst(esims, iccid, k);
      }
    }
  }

  lemma OfferPassesIffItStands(terms: Terms, offers: seq<Offer>)
    ensures CheckOffer(terms, offers).None? <==> OfferStands(terms, offers)
  {
    if FirstOffer(offers, terms.bundle).Some? {
      var k := FoundOfferIsFirst(offers, terms.bundle);
      FirstOfferIsFirst(offers, terms.bundle, k);
    }
    if OfferStands(terms, offers) {
      var k: nat :| IsFirstOffer(offers, terms.bundle, k) && offers[k].price.Some?
        && Signed(offers[k].price.value) >= 0 && SameValue(offers[k].price.value, terms.amount)
        && OrElse(offers[k].currency, terms.currency) != ""
        && Upper(Strip(OrElse(offers[k].currency, terms.currency))) == Upper(Strip(terms.currency));
      FirstOfferIsFirst(offers, terms.bundle, k);
    }
  }

  /** Revalidation passes exactly when the SIM, the price and the balance all still stand. */
  lemma RevalidationPassesIffFactsStand(terms: Terms, facts: Facts)
    ensures Revalidate(terms, facts).None? <==> Stands(terms, facts)
  {
    SimPassesIffItStands(terms, facts.esims);
    OfferPassesIffItStands(terms, facts.offers);
  }

  /** Which answers are a success, a refusal or unknown, read off the answer itself. */
  lemma ReadingsFollowTheAnswer(outcome: Outcome<Option<Result>>)
    ensures var s, r := outcome.EffectiveStatus(), ReadTopup(outcome);
      && (r.Done? <==>
            && outcome.IsSuccess() && outcome.envelope.value.data.Some?
            && outcome.envelope.value.data.value.completed && outcome.envelope.value.data.value.orderId != "")
      && (r.NotDone? && r.known <==>
            !outcome.IsSuccess() && (s in {401, 403, 404, 429} || (s in {400, 409, 422} && outcome.Parsed())))
      && (r.NotDone? && !r.known ==> r.failure == Plain(TopupUnknown))
  {
  }

  /** An answer on which a refusal is filed, read off the answer: an explained one or, unread, one of
      four statuses that are not looked into further. */
  predicate IsFiled(outcome: Outcome<Option<Result>>) {
    !outcome.IsSuccess()
    && (Refuses(outcome) || (!outcome.Parsed() && outcome.EffectiveStatus() in {401, 403, 404, 429}))
  }

  lemma RefusalsAreFiledExactlyWhen(outcome: Outcome<Option<Result>>)
    ensures IsFinal(ReadTopup(outcome)) <==> IsFiled(outcome)
  {
    ReadingsFollowTheAnswer(outcome);
  }

  /** Under what code each failure is reported. */
  lemma FailuresAreNamed(status: int, hint: string, parsed: bool)
    ensures var code := ClassifyFailure(status, hint, parsed).0.code;
      && (status in {401, 403} ==> code == AuthenticationRequired)
      && (status == 404 ==> code == TopupRejected) && (status == 429 ==> code == RateLimited)
      && (status in {400, 409, 422} && parsed ==>
            (forall k: nat | IsFirstMatch(BUSINESS_MATCHERS, hint, k) :: code == BUSINESS_MATCHERS[k].code)
            && ((forall m | m in BUSINESS_MATCHERS :: !Carries(hint, m.labels)) ==> code == TopupRejected))
  {
    forall k: nat | IsFirstMatch(BUSINESS_MATCHERS, hint, k)
      ensures LabelCode(BUSINESS_MATCHERS, hint) == Some(BUSINESS_MATCHERS[k].code)
    {
      FirstMatchDecides(BUSINESS_MATCHERS, hint, k);
    }
    var k := LabelCodeIsTheFirst(BUSINESS_MATCHERS, hint);
    if LabelCode(BUSINESS_MATCHERS, hint).Some? { assert BUSINESS_MATCHERS[k] in BUSINESS_MATCHERS; }
  }

  lemma BusinessCodes(hint: string)
    ensures BusinessRefusal(hint) in {InsufficientBalance, WalletUnavailable, TopupIncompatible, TopupRejected}
  {
    var k := LabelCodeIsTheFirst(BUSINESS_MATCHERS, hint);
  }

  /** A code is lost on every request that was turned away for its rate. */
  lemma RateLimitIsReplayedAsUnknown(hint: string, parsed: bool)
    ensures var (failure, known) := ClassifyFailure(429, hint, parsed);
      known && failure.code == RateLimited && Replay(Some(failure)).code == TopupUnknown
  {
  }

  /** A recorded refusal comes back with its message but, outside three codes, as an unknown outcome. */
  lemma ReplayNeverClaimsARefusal(status: int, hint: string, parsed: bool)
    ensures var (failure, known) := ClassifyFailure(status, hint, parsed);
      && Replay(Some(failure)).message == failure.message
      && (Replay(Some(failure)).code == failure.code <==> failure.code in {TopupRejected, TopupUnknown})
      && (Replay(Some(failure)).code != failure.code ==> Replay(Some(failure)).code == TopupUnknown)
  {
    BusinessCodes(hint);
  }
}
