/** Paying by card: opening one payment page per quote, and asking what became of a payment. Opening
    runs under the quote's lock and checking under the payment's, yet both write one record. */
module CardCheckout {
  import opened Strings
  import opened Stores
  import opened Quotes
  import opened Ledgers
  import opened Outcomes
  import opened RouteGuard

  datatype CheckoutStatus = Pending | Open | Failed | Unresolved {
    predicate IsTerminal() { Open? || Failed? }
  }

  datatype PaymentWord =
    | AwaitingPayment | Paid | Provisioning | PaymentCompleted
    | PaymentFailed | PaymentExpired | PaymentCancelled | Ambiguous
  {
    predicate IsTerminal() {
      this in {PaymentCompleted, PaymentFailed, PaymentExpired, PaymentCancelled, Ambiguous}
    }

    predicate MoneyArrived() { this in {Paid, Provisioning, PaymentCompleted} }
  }

  type Reference = string

  datatype Page = Page(link: string, reference: Reference)

  datatype Checkout = Checkout(
    key: Key,
    attempts: nat,
    checks: nat,
    status: CheckoutStatus,
    page: Option<Page>,
    reference: Option<Reference>,
    settled: Option<PaymentWord>,
    failure: Option<Failure>)

  type Records = map<Id, Owned<Checkout>>

  const MAX_CHECKOUT_ATTEMPTS: nat := 3
  const MAX_STATUS_CHECKS: nat := 20

  datatype Reply =
    | PageGiven(page: Page, replayed: bool)
    | StatusGiven(word: PaymentWord, link: Option<string>, replayed: bool)
    | Raised(failure: Failure)

  /** Suspended in opening a page, with copies of the quote and the record. */
  datatype Opening = Opening(owner: Owner, id: Id, checkout: Checkout, quote: Quote, sent: bool)

  /** Suspended in a status read, with a copy of the record. */
  datatype Checking = Checking(owner: Owner, id: Id, checkout: Checkout, read: bool)

  datatype Begun<F> = Sending(flight: F) | Settled(reply: Reply)

  function NewCheckout(key: Key): Checkout { Checkout(key, 0, 0, Pending, None, None, None, None) }

  function Acquire(records: Records, owner: Owner, id: Id, newKey: Key): (Checkout, Records) {
    match Find(records, owner, id)
    case Some(checkout) => (checkout, records)
    case None => (NewCheckout(newKey), records[id := Owned(owner, NewCheckout(newKey))])
  }

  const REPLAYABLE: set<Code> :=
    {CheckoutAttemptLimit, CheckoutUnknown, CheckoutRejected, CheckoutUnavailable, PaymentAmbiguous,
     PaymentCheckLimit, PaymentStatusUnavailable, NonCardQuote, UnsafeLink}

  /** An unlisted code degrades to a plain refusal: a page that did not open charged nobody. */
  function Replay(failure: Option<Failure>): Failure {
    match failure
    case None => Plain(CheckoutRejected)
    case Some(f) => Failure(if f.code in REPLAYABLE then f.code else CheckoutRejected, f.message)
  }

  function ReplayTerminal(checkout: Checkout): Option<Reply> {
    if checkout.status.Open? && checkout.page.Some? then Some(PageGiven(checkout.page.value, true))
    else if checkout.status.IsTerminal() then Some(Raised(Replay(checkout.failure)))
    else None
  }

  function Gate(quote: Quote, checkout: Checkout, now: int): Option<Code> {
    if !quote.Usable(now) then Some(UnusableCode(quote.EffectiveStatus(now)))
    else if quote.terms.payment != PaymentMethod.Card then Some(NonCardQuote)
    else if checkout.attempts >= MAX_CHECKOUT_ATTEMPTS then Some(CheckoutAttemptLimit)
    else None
  }

  /** From taking the quote's lock to being about to ask for a page. */
  function Create(book: Book, records: Records, owner: Owner, id: Id,
      now: int, newKey: Key): (Records, Begun<Opening>)
  {
    match Find(book, owner, id)
    case None => (records, Settled(Raised(Plain(QuoteNotFound))))
    case Some(quote) =>
      var (checkout, records1) := Acquire(records, owner, id, newKey);
      match ReplayTerminal(checkout)
      case Some(reply) => (records1, Settled(reply))
      case None =>
        match Gate(quote, checkout, now)
        case Some(code) => (records1, Settled(Raised(Plain(code))))
        case None =>
          var counted := checkout.(attempts := checkout.attempts + 1);
          (records1[id := Owned(owner, counted)], Sending(Opening(owner, id, counted, quote, false)))
  }

  // ------------------------------------------------------------------ reading a checkout answer

  /** `safeLink` is the link if it is a plain https address this server will show. */
  datatype PageData = PageData(safeLink: Option<string>, reference: string, idempotentReplay: bool)

  datatype PageReading
    = Lost | Unreadable | Opened(page: Page, replayed: bool) | NotOpened(failure: Failure, how: Disposition)

  const BUSINESS_MATCHERS: seq<Matcher> :=
    [Matcher(["bundle_not_available", "bundle not available"], BundleUnavailable),
     Matcher(["unsupported_currency", "unsupported currency"], CurrencyMismatch),
     Matcher(["unsupported_payment_type", "unsupported payment"], NonCardQuote)]

  function BusinessRefusal(hint: string): Code { LabelCode(BUSINESS_MATCHERS, hint).UnwrapOr(CheckoutRejected) }

  function ClassifyFailure(status: int, hint: string, parsed: bool): (Failure, Disposition) {
    if status == 401 || status == 403 then
      (Failure(AuthenticationRequired, Specific("The eSIM session was refused by the platform.")), Retryable)
    else if status == 404 then
      (Failure(CheckoutUnavailable, Specific("This platform does not offer assisted card checkout.")), Retryable)
    else if status == 429 then (Failure(RateLimited, Specific("No payment page was opened.")), Retryable)
    else if status == 409 then
      if StillRunning(hint) then (Plain(CheckoutUnknown), Unsure)
      else (Failure(IdempotencyConflict, Specific("The request did not match the prepared quote.")), Terminal)
    else if status == 400 || status == 422 then (Plain(BusinessRefusal(hint)), Terminal)
    else if status == 503 then (Plain(CheckoutUnavailable), Retryable)
    else if !parsed && 200 <= status < 300 then (Plain(CheckoutUnknown), Unsure)
    else if status >= 500 then (Plain(CheckoutUnknown), Unsure)
    else (Plain(CheckoutRejected), Terminal)
  }

  function ReadCheckout(outcome: Outcome<Option<PageData>>): PageReading {
    if outcome.IsSuccess() then
      match outcome.envelope.value.data
      case None => Unreadable
      case Some(data) =>
        if data.safeLink.None? then NotOpened(Plain(UnsafeLink), Terminal)
        else
          match RequireReference(data.reference)
          case None =>
            NotOpened(Failure(CheckoutRejected, Specific("The platform returned no usable reference.")), Terminal)
          case Some(reference) => Opened(Page(data.safeLink.value, reference), data.idempotentReplay)
    else
      var (failure, how) := ClassifyFailure(outcome.EffectiveStatus(), outcome.Hint(), outcome.Parsed());
      NotOpened(failure, how)
  }

  /** The platform's answer to a request for a page, if one came at all. */
  type PageAnswer = Option<Outcome<Option<PageData>>>

  function ReadPage(answer: PageAnswer): PageReading {
    match answer
    case None => Lost
    case Some(outcome) => ReadCheckout(outcome)
  }

  function Marked(checkout: Checkout, status: CheckoutStatus, failure: Failure): Checkout {
    checkout.(status := status, failure := Some(failure))
  }

  function Remembered(checkout: Checkout, reading: PageReading): Option<Checkout> {
    match reading
    case Lost => Some(Marked(checkout, Unresolved, Plain(CheckoutUnknown)))
    case Unreadable => Some(Marked(checkout, Unresolved, Plain(CheckoutUnknown)))
    case Opened(page, _) =>
      Some(checkout.(status := Open, page := Some(page), reference := Some(page.reference), failure := None))
    case NotOpened(failure, Terminal) => Some(Marked(checkout, Failed, failure))
    case NotOpened(failure, Unsure) => Some(Marked(checkout, Unresolved, failure))
    case NotOpened(_, _) => None
  }

  function OpenReply(reading: PageReading): Reply {
    match reading
    case Opened(page, replayed) => PageGiven(page, replayed)
    case NotOpened(failure, _) => Raised(failure)
    case _ => Raised(Plain(CheckoutUnknown))
  }

  /** From the answer to releasing the quote's lock, saving over whatever is stored now. */
  function AnswerOpening(records: Records, flight: Opening, reading: PageReading): (Records, Reply) {
    match Remembered(flight.checkout, reading)
    case Some(checkout) => (records[flight.id := Owned(flight.owner, checkout)], OpenReply(reading))
    case None => (records, OpenReply(reading))
  }

  // ------------------------------------------------------------------ status checks

  function Matches(records: Records, reference: Reference): set<Id> {
    set id | id in records && records[id].body.reference == Some(reference)
  }

  /** From taking the payment's lock to being about to read its status. `pick` is the first record in
      the store's own order that carries the reference. */
  function Check(records: Records, owner: Owner, reference: Reference, pick: Id): (Records, Begun<Checking>) {
    if reference == "" || pick !in Matches(records, reference) || records[pick].owner != owner then
      (records, Settled(Raised(Plain(PaymentNotFound))))
    else
      var checkout := records[pick].body;
      if checkout.settled.Some? then (records, Settled(StatusGiven(checkout.settled.value, None, true)))
      else if checkout.failure.Some? && checkout.failure.value.code == PaymentAmbiguous then
        (records, Settled(Raised(Replay(checkout.failure))))
      else if checkout.checks >= MAX_STATUS_CHECKS then (records, Settled(Raised(Plain(PaymentCheckLimit))))
      else
        var counted := checkout.(checks := checkout.checks + 1);
        (records[pick := Owned(owner, counted)], Sending(Checking(owner, pick, counted, false)))
  }

  datatype StatusReading = NoWord(failure: Failure) | Word(word: PaymentWord)

  function WordText(word: PaymentWord): string {
    match word
    case AwaitingPayment => "PENDING"
    case Paid => "PAID"
    case Provisioning => "PROVISIONING"
    case PaymentCompleted => "COMPLETED"
    case PaymentFailed => "FAILED"
    case PaymentExpired => "EXPIRED"
    case PaymentCancelled => "CANCELLED"
    case Ambiguous => "AMBIGUOUS"
  }

  function ParseWord(text: string): Option<PaymentWord> {
    var word := Upper(Strip(text));
    if word == "PENDING" then Some(AwaitingPayment)
    else if word == "PAID" then Some(Paid)
    else if word == "PROVISIONING" then Some(Provisioning)
    else if word == "COMPLETED" then Some(PaymentCompleted)
    else if word == "FAILED" then Some(PaymentFailed)
    else if word == "EXPIRED" then Some(PaymentExpired)
    else if word == "CANCELLED" then Some(PaymentCancelled)
    else if word == "AMBIGUOUS" then Some(Ambiguous)
    else None
  }

  function ClassifyStatusFailure(status: int): Failure {
    if status == 401 || status == 403 then
      Failure(AuthenticationRequired, Specific("The payment could not be checked; sign in again."))
    else if status == 429 then Failure(RateLimited, Specific("The payment could not be checked for now."))
    else Plain(PaymentStatusUnavailable)
  }

  /** The platform's answer to a status read; `None` stands for one that timed out or never arrived. */
  type StatusAnswer = Option<Outcome<Option<string>>>

  function ReadStatus(answer: StatusAnswer): StatusReading {
    match answer
    case None => NoWord(Plain(PaymentStatusUnavailable))
    case Some(o) =>
      if !o.IsSuccess() then NoWord(ClassifyStatusFailure(o.EffectiveStatus()))
      else if o.envelope.value.data.None? then NoWord(Plain(PaymentStatusUnavailable))
      else
        match ParseWord(o.envelope.value.data.value)
        case None => NoWord(Plain(PaymentStatusUnavailable))
        case Some(word) => Word(word)
  }

  /** A successful answer in which the platform says the word, in any case and with space around it. */
  predicate Tells(outcome: Outcome<Option<string>>, word: PaymentWord) {
    && outcome.IsSuccess() && outcome.envelope.value.data.Some?
    && Upper(Strip(outcome.envelope.value.data.value)) == WordText(word)
  }

  /** The link is offered again while the payment is still awaited. */
  function StatusReply(checkout: Checkout, word: PaymentWord): Reply {
    if word.Ambiguous? then Raised(Plain(PaymentAmbiguous))
    else StatusGiven(word,
           if word.AwaitingPayment? && checkout.page.Some? then Some(checkout.page.value.link) else None, false)
  }

  /** From the status answer to releasing the payment's lock. */
  function AnswerChecking(book: Book, records: Records, flight: Checking,
      reading: StatusReading): (Book, Records, Reply)
  {
    match reading
    case NoWord(failure) => (book, records, Raised(failure))
    case Word(word) =>
      var saved :=
        if word.Ambiguous? then Marked(flight.checkout, Failed, Plain(PaymentAmbiguous))
        else flight.checkout.(settled := Some(word));
      (if word.PaymentCompleted? then Consume(book, flight.owner, flight.id) else book,
       if word.IsTerminal() then records[flight.id := Owned(flight.owner, saved)] else records,
       StatusReply(flight.checkout, word))
  }

  /** An answer that opens a page. */
  lemma SomePage() returns (answer: PageAnswer, page: Page)
    ensures ReadPage(answer) == Opened(page, false) && page.reference != ""
  {
    page := Page("l", "R");
    answer := Some(Outcome(200, Some(Envelope(Some(true), None, "", Some(PageData(Some("l"), "R", false))))));
    TrimmedIsKept("R");
    assert RouteGuard.Unreserved('R');
  }

  // ------------------------------------------------------------------ what the stretches decide

  /** A page is asked for exactly for an owned, active, unexpired card quote with no page and no final
      refusal on record and attempts left. */
  lemma AsksExactlyWhen(book: Book, records: Records, owner: Owner, id: Id, now: int, newKey: Key)
    ensures var quote, checkout := Find(book, owner, id), Find(records, owner, id);
      Create(book, records, owner, id, now, newKey).1.Sending? <==>
        && quote.Some? && quote.value.status == Active && now < quote.value.expiresAt
        && quote.value.terms.payment == PaymentMethod.Card
        && (checkout.Some? ==> !checkout.value.status.IsTerminal() && checkout.value.attempts < 3)
  {
  }

  /** An open page is handed back whatever has become of the quote since. */
  lemma OpenPagesAreReplayed(book: Book, records: Records, owner: Owner, id: Id, now: int, newKey: Key)
    requires Find(book, owner, id).Some? && Find(records, owner, id).Some?
    requires Find(records, owner, id).value.status.Open? && Find(records, owner, id).value.page.Some?
    ensures Create(book, records, owner, id, now, newKey)
      == (records, Settled(PageGiven(Find(records, owner, id).value.page.value, true)))
  {
  }

  /** Where there is neither page nor final refusal on record, the first obstacle is named. */
  lemma RefusalsNameTheObstacle(book: Book, records: Records, owner: Owner, id: Id, now: int, newKey: Key)
    requires Find(records, owner, id).Some? ==> !Find(records, owner, id).value.status.IsTerminal()
    ensures var quote := Find(book, owner, id);
      var begun := Create(book, records, owner, id, now, newKey).1;
      if quote.None? then begun == Settled(Raised(Plain(QuoteNotFound)))
      else
        var q := quote.value;
        && (!q.Usable(now) ==> begun == Settled(Raised(Plain(UnusableCode(q.EffectiveStatus(now))))))
        && (q.Usable(now) && q.terms.payment == PaymentMethod.Wallet ==> begun == Settled(Raised(Plain(NonCardQuote))))
        && (q.Usable(now) && q.terms.payment == PaymentMethod.Card ==>
              begun.Sending? || begun == Settled(Raised(Plain(CheckoutAttemptLimit))))
  {
  }

  /** An answer about a page touches one record and neither its key nor its counts: a page opens it, a
      final refusal fails it, what may still come leaves it unresolved, the rest leave it alone. */
  lemma PageAnswersTouchOneRecord(records: Records, flight: Opening, reading: PageReading)
    requires flight.id in records && records[flight.id] == Owned(flight.owner, flight.checkout)
    requires Find(records, flight.owner, flight.id).Some? && !flight.checkout.status.IsTerminal()
    ensures var (records', reply) := AnswerOpening(records, flight, reading);
      var e := records'[flight.id].body;
      && records'.Keys == records.Keys && (forall id | id in records && id != flight.id :: records'[id] == records[id])
      && e.key == flight.checkout.key && e.attempts == flight.checkout.attempts && e.checks == flight.checkout.checks
      && (e.status.Open? <==> reading.Opened?) && (reply.PageGiven? <==> reading.Opened?)
      && (reading.Opened? ==>
            && e.page == Some(reading.page) && e.reference == Some(reading.page.reference) && e.failure.None?
            && reply == PageGiven(reading.page, reading.replayed))
      && (e.status.Failed? <==> reading.NotOpened? && reading.how == Terminal)
      && (reading.NotOpened? ==> reply == Raised(reading.failure))
      && (reading.NotOpened? && reading.how == Retryable ==> records' == records)
      && (!reading.NotOpened? && !reading.Opened? ==>
            e.status.Unresolved? && e.failure == Some(Plain(CheckoutUnknown))
            && reply == Raised(Plain(CheckoutUnknown)))
  {
  }

  /** A status is read exactly for an owned payment that has neither settled nor turned out ambiguous
      and has checks left; and the check is counted before it is made. */
  lemma ReadsExactlyWhen(records: Records, owner: Owner, reference: Reference, pick: Id)
    ensures var (after, begun) := Check(records, owner, reference, pick);
      && (begun.Sending? <==>
            && reference != "" && pick in records && records[pick].owner == owner
            && records[pick].body.reference == Some(reference) && records[pick].body.settled.None?
            && !(records[pick].body.failure.Some? && records[pick].body.failure.value.code == PaymentAmbiguous)
            && records[pick].body.checks < 20)
      && (begun.Sending? ==> pick in after && after[pick].body.checks == records[pick].body.checks + 1)
      && (begun.Settled? ==> after == records)
  {
  }

  /** What a status does to the record and the quote: only a completed payment consumes the quote, only
      a final word is kept, and an ambiguous one closes the record. */
  lemma StatusesTouchOneRecord(book: Book, records: Records, flight: Checking, word: PaymentWord)
    requires flight.id != "" && flight.id in book && book[flight.id].owner == flight.owner
    requires flight.id in records && records[flight.id] == Owned(flight.owner, flight.checkout)
    requires flight.checkout.settled.None? && flight.checkout.status.Open?
    ensures var (book', records', reply) := AnswerChecking(book, records, flight, Word(word));
      var e := records'[flight.id].body;
      && (forall id | id in records && id != flight.id :: id in records' && records'[id] == records[id])
      && (book'[flight.id].body.status == Consumed <==>
            word == PaymentCompleted || book[flight.id].body.status == Consumed)
      && e.reference == flight.checkout.reference && e.page == flight.checkout.page
      && e.checks == flight.checkout.checks
      && (e.settled == Some(word) <==> word.IsTerminal() && word != Ambiguous)
      && (e.status.Failed? <==> word == Ambiguous)
      && (reply.Raised? <==> word == Ambiguous) && (reply.StatusGiven? ==> reply.word == word)
  {
  }

  // ------------------------------------------------------------------ facts about the readings

  /** Only the eight words are understood, in any case and with surrounding space; nothing else is
      guessed at. */
  lemma WordsRoundTrip(text: string, word: PaymentWord)
    ensures ParseWord(text) == Some(word) <==> Upper(Strip(text)) == WordText(word)
  {
  }

  lemma StatusIsReadOnlyFromTheWord(answer: StatusAnswer, word: PaymentWord)
    ensures ReadStatus(answer) == Word(word) <==> answer.Some? && Tells(answer.value, word)
  {
    if answer.Some? && answer.value.IsSuccess() && answer.value.envelope.value.data.Some? {
      WordsRoundTrip(answer.value.envelope.value.data.value, word);
    }
  }

  /** A page is handed over exactly when the platform accepted, the link is safe and the reference is
      one that can be asked about later. */
  lemma PagesAreUsable(outcome: Outcome<Option<PageData>>)
    ensures var r := ReadCheckout(outcome);
      && (r.Opened? <==>
            && outcome.IsSuccess() && outcome.envelope.value.data.Some?
            && outcome.envelope.value.data.value.safeLink.Some?
            && PlainSegment(Strip(outcome.envelope.value.data.value.reference)))
      && (r.Opened? ==>
            PlainSegment(r.page.reference)
            && outcome.envelope.value.data.value.safeLink == Some(r.page.link))
      && (!outcome.IsSuccess() ==> r.NotOpened?)
  {
  }

  /** Which failures are final, which may still turn into a page and which left nothing behind. */
  lemma FailuresAreSorted(outcome: Outcome<Option<PageData>>)
    requires !outcome.IsSuccess()
    ensures var s, how := outcome.EffectiveStatus(), ReadCheckout(outcome).how;
      && how != Escalate
      && (how == Retryable <==> s in {401, 403, 404, 429, 503})
      && (how == Unsure <==>
            || (s >= 500 && s != 503) || (s == 409 && StillRunning(outcome.Hint()))
            || (200 <= s < 300 && !outcome.Parsed()))
  {
  }

  /** Under what code each failure to open a page, or to read a status, is reported. */
  lemma FailuresAreNamed(status: int, hint: string, parsed: bool)
    ensures var code := ClassifyFailure(status, hint, parsed).0.code;
      && (status in {401, 403} ==> code == AuthenticationRequired)
      && (status in {404, 503} ==> code == CheckoutUnavailable) && (status == 429 ==> code == RateLimited)
      && (status == 409 ==> code == if StillRunning(hint) then CheckoutUnknown else IdempotencyConflict)
      && (status in {400, 422} ==>
            (forall k: nat | IsFirstMatch(BUSINESS_MATCHERS, hint, k) :: code == BUSINESS_MATCHERS[k].code)
            && ((forall m | m in BUSINESS_MATCHERS :: !Carries(hint, m.labels)) ==> code == CheckoutRejected))
      && (status > 503 || status in {500, 501, 502} ==> code == CheckoutUnknown)
    ensures var code := ClassifyStatusFailure(status).code;
      && (code == AuthenticationRequired <==> status in {401, 403}) && (code == RateLimited <==> status == 429)
      && (code == PaymentStatusUnavailable <==> status !in {401, 403, 429})
  {
    forall k: nat | IsFirstMatch(BUSINESS_MATCHERS, hint, k)
      ensures LabelCode(BUSINESS_MATCHERS, hint) == Some(BUSINESS_MATCHERS[k].code)
    {
      FirstMatchDecides(BUSINESS_MATCHERS, hint, k);
    }
    var k := LabelCodeIsTheFirst(BUSINESS_MATCHERS, hint);
    if LabelCode(BUSINESS_MATCHERS, hint).Some? { assert BUSINESS_MATCHERS[k] in BUSINESS_MATCHERS; }
  }

  lemma BusinessCodes(hint: string)
    ensures BusinessRefusal(hint) in {BundleUnavailable, CurrencyMismatch, NonCardQuote, CheckoutRejected}
  {
    var k := LabelCodeIsTheFirst(BUSINESS_MATCHERS, hint);
  }

  /** The words fall in four kinds: not paid yet, paid but not done, done, and over without payment or
      without an answer. */
  lemma WordsMeanWhatTheySay(word: PaymentWord)
    ensures !word.IsTerminal() && !word.MoneyArrived() <==> word == AwaitingPayment
    ensures !word.IsTerminal() && word.MoneyArrived() <==> word == Paid || word == Provisioning
    ensures word.IsTerminal() && word.MoneyArrived() <==> word == PaymentCompleted
    ensures word.IsTerminal() && !word.MoneyArrived() <==>
      word == PaymentFailed || word == PaymentExpired || word == PaymentCancelled || word == Ambiguous
  {
  }

  /** What a terminal refusal is replayed as: three codes are not on the list and come back as a plain
      refusal, always with the recorded message. */
  lemma ReplayedRefusals(status: int, hint: string, parsed: bool)
    ensures var (failure, how) := ClassifyFailure(status, hint, parsed);
      how == Terminal ==>
        && Replay(Some(failure)).message == failure.message
        && (Replay(Some(failure)).code == failure.code <==>
              failure.code !in {BundleUnavailable, CurrencyMismatch, IdempotencyConflict})
  {
    BusinessCodes(hint);
  }

  lemma NothingIsStillRunning()
    ensures !StillRunning("")
  {
    ContainsItselfAlone("", "in_progress");
    ContainsItselfAlone("", "in progress");
    ContainsItselfAlone("", "still processing");
  }

  /** Codes are lost on real answers: on a conflict over a key, and on a plan no longer sold. */
  lemma ConflictIsReplayedAsRejected()
    ensures var (failure, how) := ClassifyFailure(409, "", true);
      failure.code == IdempotencyConflict && how == Terminal && Replay(Some(failure)).code == CheckoutRejected
  {
    NothingIsStillRunning();
  }

  lemma SoldOutIsReplayedAsRejected()
    ensures ClassifyFailure(400, "bundle_not_available", true) == (Plain(BundleUnavailable), Terminal)
    ensures Replay(Some(Plain(BundleUnavailable))).code == CheckoutRejected
  {
    var hint := "bundle_not_available";
    ContainsItselfAlone(hint, hint);
    assert hint == BUSINESS_MATCHERS[0].labels[0];
    FirstMatchDecides(BUSINESS_MATCHERS, hint, 0);
  }
}
