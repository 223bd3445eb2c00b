/** Top-ups over whole runs: one request per quote at most, whatever happens to the session while the
    facts are being read again, and none whose facts did not stand. */
module TopUpSafety {
  import opened Strings
  import opened Stores
  import opened Money
  import opened Quotes
  import opened Ledgers
  import opened Outcomes
  import opened TopUp

  /** What a request rested on: the amount the user echoed, and the facts read before it left. */
  datatype Voucher = Voucher(echo: string, facts: Facts)

  /** A flight is in the map exactly while its call holds the quote's lock. The last five fields are
      history: what each request rested on, what callers were told, the answer each recorded refusal
      rests on, the quotes of which the platform reported a top-up it had not made, and those of which it
      reported a refusal there was not. */
  datatype TopUpState = TopUpState(
    records: Records,
    flights: map<Id, Flight>,
    ledger: Ledger,
    vouched: map<Id, Voucher>,
    replies: seq<(Id, Reply)>,
    refusals: map<Id, Outcome<Option<Result>>>,
    overclaimed: set<Id>,
    misrefused: set<Id>)

  function Initial(): TopUpState { TopUpState(map[], map[], Ledger(false, [], map[]), map[], [], map[], {}, {}) }

  function ConfirmStep(book: Book, t: TopUpState, enabled: bool, owner: Owner, id: Id,
      now: int, echo: string): TopUpState
  {
    if id in t.flights then t
    else
      var (records, begun) := Confirm(book, t.records, enabled, owner, id, now, echo);
      Confirmed(t, id, records, begun)
  }

  function Confirmed(t: TopUpState, id: Id, records: Records, begun: Begun): TopUpState {
    match begun
    case Started(flight) => t.(records := records, flights := t.flights[id := flight])
    case Settled(reply) => t.(records := records, replies := t.replies + [(id, reply)])
  }

  /** The facts have been read; if they stand the attempt is counted, before anything is sent. */
  function RevalidateStep(t: TopUpState, id: Id, facts: Facts): TopUpState {
    if id !in t.flights || !t.flights[id].stage.Revalidating? then t
    else
      var flight := t.flights[id];
      match Revalidate(flight.quote.terms, facts)
      case Some(failure) => t.(flights := t.flights - {id}, replies := t.replies + [(id, Raised(failure))])
      case None =>
        var counted := flight.execution.(attempts := flight.execution.attempts + 1);
        t.(records := t.records[id := Owned(flight.owner, counted)],
           flights := t.flights[id := flight.(execution := counted, stage := Ready(facts))])
  }

  function RequestOf(flight: Flight): Request { Request(flight.id, "", PayloadOf(flight.quote.terms)) }

  function SendStep(t: TopUpState, id: Id): TopUpState {
    if id !in t.flights || !t.flights[id].stage.Ready? then t
    else
      var flight := t.flights[id];
      t.(ledger := t.ledger.Sent(RequestOf(flight)),
         vouched := t.vouched[id := Voucher(flight.echo, flight.stage.facts)],
         flights := t.flights[id := flight.(stage := Sent(flight.stage.facts, |t.ledger.sent|))])
  }

  /** What the platform promises of its answer to the request, read off the answer itself: it reports a
      top-up only if it made it, and explains a refusal only if it refused. Of any other answer it
      promises nothing. */
  function Promises(ledger: Ledger, stage: Stage, answer: TopUpAnswer): Kept {
    var answered := answer.Some? && stage.Sent?;
    Kept(answered && ReportsTopUp(answer.value) ==> ledger.Says(stage.index, Bought),
         answered && Refuses(answer.value) ==> ledger.Says(stage.index, Refused))
  }

  /** Whatever is answered is handled; only a request that was sent is answered. */
  function AnswerStep(book: Book, t: TopUpState, id: Id, answer: TopUpAnswer): (Book, TopUpState) {
    if id !in t.flights || t.flights[id].stage.Revalidating?
       || (answer.Some? && !t.flights[id].stage.Sent?) then (book, t)
    else Recorded(book, t, id, answer, ReadAnswer(answer), Promises(t.ledger, t.flights[id].stage, answer))
  }

  function Recorded(book: Book, t: TopUpState, id: Id, answer: TopUpAnswer,
      reading: Reading, kept: Kept): (Book, TopUpState)
    requires id in t.flights
  {
    var (book', records, reply) := Answer(book, t.records, t.flights[id], reading);
    (book',
     t.(records := records, flights := t.flights - {id}, replies := t.replies + [(id, reply)],
        refusals := if answer.Some? && IsFinal(reading) then t.refusals[id := answer.value] else t.refusals,
        overclaimed := if kept.successes then t.overclaimed else t.overclaimed + {id},
        misrefused := if kept.refusals then t.misrefused else t.misrefused + {id}))
  }

  function DropStep(t: TopUpState, id: Id): TopUpState { t.(flights := t.flights - {id}) }

  function DecideStep(t: TopUpState, i: nat, verdict: Verdict): TopUpState {
    t.(ledger := t.ledger.Decided(i, verdict))
  }

  function SessionStep(t: TopUpState, sessionKey: string): TopUpState {
    t.(records := DropSession(t.records, sessionKey))
  }

  // ------------------------------------------------------------------ the invariant

  /** What a record has behind it, as far as the platform has kept its promises of the quote. */
  ghost predicate Backed(t: TopUpState, id: Id, e: Execution) {
    && (e.status.Succeeded? && id !in t.overclaimed ==> t.ledger.Answered(id, "", Bought))
    && (e.status.Failed? && id in t.refusals && id !in t.misrefused && Refuses(t.refusals[id]) ==>
          t.ledger.Answered(id, "", Refused))
  }

  ghost predicate RecordOk(book: Book, t: TopUpState, id: Id)
    requires id in t.records
  {
    var e := t.records[id].body;
    && id in book && book[id].owner == t.records[id].owner && e.attempts <= 1
    && (e.status.Succeeded? ==> e.result.Some? && book[id].body.status == Consumed)
    && (e.status.Failed? ==> id in t.refusals)
    && Backed(t, id, e)
  }

  ghost predicate FlightOk(book: Book, t: TopUpState, id: Id)
    requires id in t.flights
  {
    var f := t.flights[id];
    && id != "" && f.id == id && id in book && book[id].owner == f.owner
    && f.quote.terms == book[id].body.terms && f.quote.terms.payment == PaymentMethod.Wallet
    && f.execution.status.Pending?
    && f.execution.attempts == (if f.stage.Revalidating? then 0 else 1)
    && Count(t.ledger.sent, id) == (if f.stage.Sent? then 1 else 0)
    && (if id in t.records then t.records[id] == Owned(f.owner, f.execution) else book[id].body.status != Active)
    && (f.stage.Sent? ==> f.stage.index < |t.ledger.sent| && t.ledger.sent[f.stage.index].quote == id)
  }

  ghost predicate IdleOk(book: Book, t: TopUpState, id: Id)
    requires id in book
  {
    book[id].body.status == Active ==>
      Count(t.ledger.sent, id) <= if id in t.records then t.records[id].body.attempts else 0
  }

  ghost predicate QuoteOk(t: TopUpState, id: Id) {
    Count(t.ledger.sent, id) <= 1 && (Count(t.ledger.sent, id) > 0 ==> id in t.vouched)
  }

  ghost predicate Local(book: Book, t: TopUpState, id: Id) {
    && (id in t.records ==> RecordOk(book, t, id))
    && (id in t.flights ==> FlightOk(book, t, id))
    && (id in book && id !in t.flights ==> IdleOk(book, t, id))
    && QuoteOk(t, id)
  }

  ghost predicate SentOk(book: Book, t: TopUpState, i: nat)
    requires i < |t.ledger.sent|
  {
    var r := t.ledger.sent[i];
    && r.quote in book && book[r.quote].body.terms.payment == PaymentMethod.Wallet
    && r.key == "" && r.payload == PayloadOf(book[r.quote].body.terms)
  }

  ghost predicate ReplyOk(t: TopUpState, k: nat)
    requires k < |t.replies|
  {
    t.replies[k].1.ToppedUp? && t.replies[k].0 !in t.overclaimed ==> t.ledger.BoughtFor(t.replies[k].0)
  }

  ghost predicate SendsOk(book: Book, t: TopUpState) {
    forall i {:trigger SentOk(book, t, i)} | 0 <= i < |t.ledger.sent| :: SentOk(book, t, i)
  }

  ghost predicate RepliesOk(t: TopUpState) {
    forall k {:trigger ReplyOk(t, k)} | 0 <= k < |t.replies| :: ReplyOk(t, k)
  }

  ghost predicate Inv(book: Book, t: TopUpState) {
    && !t.ledger.keyed
    && (forall id {:trigger Local(book, t, id)} :: Local(book, t, id)) && SendsOk(book, t) && RepliesOk(t)
  }

  lemma InitialInv()
    ensures Inv(map[], Initial())
  {
    forall id ensures Local(map[], Initial(), id) {}
  }

  lemma BookStable(book: Book, book': Book, t: TopUpState)
    requires Inv(book, t) && Evolves(book, book')
    ensures Inv(book', t)
  {
    forall i | 0 <= i < |t.ledger.sent| ensures t.ledger.sent[i].quote in book.Keys { assert SentOk(book, t, i); }
    forall id ensures Local(book', t, id) {
      assert Local(book, t, id);
      if id !in book { CountOfUnknown(t.ledger.sent, book.Keys, id); }
    }
    forall i | 0 <= i < |t.ledger.sent| ensures SentOk(book', t, i) { assert SentOk(book, t, i); }
  }

  /** A step that concerns quote `id` alone. */
  ghost predicate Concerns(book: Book, t: TopUpState, book': Book, t': TopUpState, id: Id) {
    && Evolves(book, book') && book'.Keys == book.Keys
    && (forall other | other != id :: SameAt(t.records, t'.records, other))
    && (forall other | other != id :: SameAt(t.flights, t'.flights, other))
    && (forall other | other != id :: SameAt(t.vouched, t'.vouched, other))
    && (forall other | other != id :: SameAt(t.refusals, t'.refusals, other))
    && t.overclaimed <= t'.overclaimed && t.misrefused <= t'.misrefused
    && Grows(t.ledger, t'.ledger) && |t'.ledger.sent| <= |t.ledger.sent| + 1
    && (|t.ledger.sent| < |t'.ledger.sent| ==> t'.ledger.sent[|t.ledger.sent|].quote == id)
  }

  lemma RecordGrows(book: Book, t: TopUpState, book': Book, t': TopUpState, id: Id)
    requires id in t.records && RecordOk(book, t, id) && Evolves(book, book') && Grows(t.ledger, t'.ledger)
    requires id in t'.records && t'.records[id] == t.records[id]
    requires SameAt(t.refusals, t'.refusals, id) && t.overclaimed <= t'.overclaimed && t.misrefused <= t'.misrefused
    ensures RecordOk(book', t', id)
  {
    var e := t.records[id].body;
    if e.status.Succeeded? && id !in t.overclaimed { AnsweredGrows(t.ledger, t'.ledger, id, "", Bought); }
    if e.status.Failed? && id !in t.misrefused && Refuses(t.refusals[id]) {
      AnsweredGrows(t.ledger, t'.ledger, id, "", Refused);
    }
  }

  lemma OthersAreKept(book: Book, t: TopUpState, book': Book, t': TopUpState, id: Id, other: Id)
    requires Local(book, t, other) && Concerns(book, t, book', t', id) && other != id
    ensures Local(book', t', other)
  {
    SendsOfOthers(t.ledger, t'.ledger, id, other);
    assert SameAt(t.records, t'.records, other) && SameAt(t.flights, t'.flights, other);
    assert SameAt(t.vouched, t'.vouched, other) && SameAt(t.refusals, t'.refusals, other);
    if other in t.records { RecordGrows(book, t, book', t', other); }
  }

  lemma ReplyGrows(t: TopUpState, t': TopUpState, k: nat)
    requires k < |t.replies| && k < |t'.replies| && t'.replies[k] == t.replies[k]
    requires Grows(t.ledger, t'.ledger) && t.overclaimed <= t'.overclaimed && ReplyOk(t, k)
    ensures ReplyOk(t', k)
  {
    var id := t.replies[k].0;
    if t.replies[k].1.ToppedUp? && id !in t'.overclaimed { BoughtForGrows(t.ledger, t'.ledger, id); }
  }

  lemma OneQuoteStep(book: Book, t: TopUpState, book': Book, t': TopUpState, id: Id)
    requires Inv(book, t) && Concerns(book, t, book', t', id) && Local(book', t', id)
    requires |t.ledger.sent| < |t'.ledger.sent| ==> SentOk(book', t', |t.ledger.sent|)
    requires t'.replies == t.replies ||
      (|t'.replies| == |t.replies| + 1 && t.replies <= t'.replies && ReplyOk(t', |t.replies|))
    ensures Inv(book', t')
  {
    forall other ensures Local(book', t', other) {
      assert Local(book, t, other);
      if other != id { OthersAreKept(book, t, book', t', id, other); }
    }
    forall i | 0 <= i < |t'.ledger.sent| ensures SentOk(book', t', i) {
      if i < |t.ledger.sent| {
        assert SentOk(book, t, i);
        assert t'.ledger.sent[i] == t.ledger.sent[i];
      }
    }
    forall k | 0 <= k < |t'.replies| ensures ReplyOk(t', k) {
      if k < |t.replies| {
        assert ReplyOk(t, k) && t'.replies[k] == t.replies[k];
        ReplyGrows(t, t', k);
      }
    }
  }

  // ------------------------------------------------------------------ the steps

  /** What confirming comes to, whichever gate decided. */
  ghost predicate ConfirmBegins(
    book: Book, records: Records, owner: Owner, id: Id, echo: string, after: Records, begun: Begun)
  {
    match begun
    case Started(f) =>
      && id != "" && id in book && book[id].owner == owner && book[id].body.status == Active
      && book[id].body.terms.payment == PaymentMethod.Wallet
      && f == Flight(owner, id, Find(records, owner, id).UnwrapOr(NEW), book[id].body, echo, Revalidating)
      && f.execution.status.Pending? && !f.execution.WasSent()
      && (if Find(records, owner, id).Some? then after == records else after == records[id := Owned(owner, NEW)])
    case Settled(reply) =>
      && (after == records
          || (id in book && book[id].owner == owner && Find(records, owner, id).None?
              && id != "" && after == records[id := Owned(owner, NEW)]))
      && (reply.ToppedUp? ==> id in records && records[id].body.status.Succeeded?)
  }

  lemma ConfirmBeginsSo(book: Book, records: Records, enabled: bool, owner: Owner, id: Id, now: int, echo: string)
    ensures var (after, begun) := Confirm(book, records, enabled, owner, id, now, echo);
      ConfirmBegins(book, records, owner, id, echo, after, begun)
  {
  }

  lemma ConfirmedLocal(
    book: Book, t: TopUpState, owner: Owner, id: Id, echo: string, after: Records, begun: Begun)
    requires ConfirmBegins(book, t.records, owner, id, echo, after, begun)
    requires Local(book, t, id) && id !in t.flights
    ensures Local(book, Confirmed(t, id, after, begun), id)
  {
  }

  lemma ConfirmedConcerns(
    book: Book, t: TopUpState, owner: Owner, id: Id, echo: string, after: Records, begun: Begun)
    requires ConfirmBegins(book, t.records, owner, id, echo, after, begun)
    requires id !in t.flights
    ensures Concerns(book, t, book, Confirmed(t, id, after, begun), id)
  {
  }

  lemma ConfirmedReplies(
    book: Book, t: TopUpState, owner: Owner, id: Id, echo: string, after: Records, begun: Begun)
    requires ConfirmBegins(book, t.records, owner, id, echo, after, begun) && Local(book, t, id)
    ensures var t' := Confirmed(t, id, after, begun);
      t'.replies == t.replies ||
        (|t'.replies| == |t.replies| + 1 && t.replies <= t'.replies && ReplyOk(t', |t.replies|))
  {
    if begun.Settled? && begun.reply.ToppedUp? && id !in t.overclaimed {
      var i: nat :| i < |t.ledger.sent| && t.ledger.sent[i].quote == id && t.ledger.sent[i].key == ""
                    && t.ledger.Says(i, Bought);
    }
  }

  lemma ConfirmKeepsInv(book: Book, t: TopUpState, enabled: bool, owner: Owner, id: Id, now: int, echo: string)
    requires Inv(book, t)
    ensures Inv(book, ConfirmStep(book, t, enabled, owner, id, now, echo))
  {
    if id !in t.flights {
      assert Local(book, t, id);
      var (after, begun) := Confirm(book, t.records, enabled, owner, id, now, echo);
      ConfirmBeginsSo(book, t.records, enabled, owner, id, now, echo);
      ConfirmedLocal(book, t, owner, id, echo, after, begun);
      ConfirmedConcerns(book, t, owner, id, echo, after, begun);
      ConfirmedReplies(book, t, owner, id, echo, after, begun);
      OneQuoteStep(book, t, book, Confirmed(t, id, after, begun), id);
    }
  }

  lemma RevalidateLocal(book: Book, t: TopUpState, id: Id, facts: Facts)
    requires Local(book, t, id) && id in t.flights && t.flights[id].stage.Revalidating?
    ensures Local(book, RevalidateStep(t, id, facts), id)
  {
  }

  lemma RevalidateConcerns(book: Book, t: TopUpState, id: Id, facts: Facts)
    requires id in t.flights && t.flights[id].stage.Revalidating?
    ensures var t' := RevalidateStep(t, id, facts);
      Concerns(book, t, book, t', id) && t'.ledger == t.ledger
      && (t'.replies == t.replies || exists f :: t'.replies == t.replies + [(id, Raised(f))])
  {
  }

  lemma RevalidateKeepsInv(book: Book, t: TopUpState, id: Id, facts: Facts)
    requires Inv(book, t)
    ensures Inv(book, RevalidateStep(t, id, facts))
  {
    if id in t.flights && t.flights[id].stage.Revalidating? {
      assert Local(book, t, id);
      RevalidateLocal(book, t, id, facts);
      RevalidateConcerns(book, t, id, facts);
      OneQuoteStep(book, t, book, RevalidateStep(t, id, facts), id);
    }
  }

  lemma SendConcerns(book: Book, t: TopUpState, id: Id)
    requires id in t.flights && t.flights[id].stage.Ready? && t.flights[id].id == id
    ensures Concerns(book, t, book, SendStep(t, id), id)
  {
  }

  lemma SendSends(book: Book, t: TopUpState, id: Id)
    requires Local(book, t, id) && id in t.flights && t.flights[id].stage.Ready?
    ensures SentOk(book, SendStep(t, id), |t.ledger.sent|)
  {
  }

  lemma SendLocal(book: Book, t: TopUpState, id: Id)
    requires Local(book, t, id) && id in t.flights && t.flights[id].stage.Ready?
    ensures Local(book, SendStep(t, id), id)
  {
    var t' := SendStep(t, id);
    CountAppend(t.ledger.sent, RequestOf(t.flights[id]), id);
    SendConcerns(book, t, id);
    if id in t.records { RecordGrows(book, t, book, t', id); }
  }

  lemma SendKeepsInv(book: Book, t: TopUpState, id: Id)
    requires Inv(book, t)
    ensures Inv(book, SendStep(t, id))
  {
    if id in t.flights && t.flights[id].stage.Ready? {
      assert Local(book, t, id);
      SendLocal(book, t, id);
      SendSends(book, t, id);
      SendConcerns(book, t, id);
      OneQuoteStep(book, t, book, SendStep(t, id), id);
    }
  }

  /** What a reading rests on, as far as the platform kept its promises of the answer. */
  ghost predicate ReadingBacked(ledger: Ledger, stage: Stage, answer: TopUpAnswer, reading: Reading, kept: Kept) {
    && (reading.Done? || IsFinal(reading) ==> answer.Some? && stage.Sent?)
    && (reading.Done? && kept.successes ==> ledger.Says(stage.index, Bought))
    && (IsFinal(reading) && kept.refusals && Refuses(answer.value) ==> ledger.Says(stage.index, Refused))
  }

  /** Reading an answer as this server does is justified by the platform's promises, no more assumed. */
  lemma ReadingsAreBacked(t: TopUpState, id: Id, answer: TopUpAnswer)
    requires id in t.flights && (answer.Some? ==> t.flights[id].stage.Sent?)
    ensures var stage := t.flights[id].stage;
      ReadingBacked(t.ledger, stage, answer, ReadAnswer(answer), Promises(t.ledger, stage, answer))
  {
    if answer.Some? { ReadingsFollowTheAnswer(answer.value); }
  }

  lemma RecordedConcerns(book: Book, t: TopUpState, id: Id, answer: TopUpAnswer, reading: Reading, kept: Kept)
    requires id in t.flights && t.flights[id].id == id
    ensures var (book', t') := Recorded(book, t, id, answer, reading, kept); Concerns(book, t, book', t', id)
  {
  }

  lemma RecordedLocal(book: Book, t: TopUpState, id: Id, answer: TopUpAnswer, reading: Reading, kept: Kept)
    requires Local(book, t, id) && SendsOk(book, t) && id in t.flights && !t.flights[id].stage.Revalidating?
    requires ReadingBacked(t.ledger, t.flights[id].stage, answer, reading, kept)
    ensures var (book', t') := Recorded(book, t, id, answer, reading, kept);
      Local(book', t', id) && ReplyOk(t', |t.replies|)
  {
    var stage := t.flights[id].stage;
    if stage.Sent? {
      assert SentOk(book, t, stage.index);
      if kept.successes && reading.Done? { assert t.ledger.Answered(id, "", Bought); }
      if kept.refusals && IsFinal(reading) && Refuses(answer.value) { assert t.ledger.Answered(id, "", Refused); }
    }
  }

  lemma AnswerKeepsInv(book: Book, t: TopUpState, id: Id, answer: TopUpAnswer)
    requires Inv(book, t)
    ensures var (book', t') := AnswerStep(book, t, id, answer);
      Inv(book', t') && Evolves(book, book') && book'.Keys == book.Keys
  {
    if id in t.flights && !t.flights[id].stage.Revalidating? && (answer.Some? ==> t.flights[id].stage.Sent?) {
      var reading, kept := ReadAnswer(answer), Promises(t.ledger, t.flights[id].stage, answer);
      var (book', t') := Recorded(book, t, id, answer, reading, kept);
      assert Local(book, t, id);
      ReadingsAreBacked(t, id, answer);
      RecordedConcerns(book, t, id, answer, reading, kept);
      RecordedLocal(book, t, id, answer, reading, kept);
      OneQuoteStep(book, t, book', t', id);
    }
  }

  lemma DropKeepsInv(book: Book, t: TopUpState, id: Id)
    requires Inv(book, t)
    ensures Inv(book, DropStep(t, id))
  {
    assert Local(book, t, id);
    var t' := DropStep(t, id);
    assert Local(book, t', id);
    OneQuoteStep(book, t, book, t', id);
  }

  lemma SameRequestsKeepInv(book: Book, t: TopUpState, book': Book, t': TopUpState)
    requires Inv(book, t) && Evolves(book, book') && Grows(t.ledger, t'.ledger)
    requires t'.ledger.sent == t.ledger.sent && t'.replies == t.replies
      && t'.flights == t.flights && t'.vouched == t.vouched
    requires t'.refusals == t.refusals && t'.overclaimed == t.overclaimed && t'.misrefused == t.misrefused
    requires forall id | id in t'.records :: id in t.records && t'.records[id] == t.records[id]
    requires forall id | id in t.records && id !in t'.records :: id in book' && book'[id].body.status != Active
    requires book'.Keys == book.Keys
    ensures Inv(book', t')
  {
    forall id ensures Local(book', t', id) {
      assert Local(book, t, id);
      if id in t'.records { RecordGrows(book, t, book', t', id); }
    }
    forall i | 0 <= i < |t'.ledger.sent| ensures SentOk(book', t', i) { assert SentOk(book, t, i); }
    forall k | 0 <= k < |t'.replies| ensures ReplyOk(t', k) {
      assert ReplyOk(t, k);
      ReplyGrows(t, t', k);
    }
  }

  /** A session's records may go once none of its quotes is active. */
  lemma SessionKeepsInv(book: Book, t: TopUpState, sessionKey: string)
    requires Inv(book, t) && ActiveOfSession(book, sessionKey) == {}
    ensures Inv(book, SessionStep(t, sessionKey))
  {
    var t' := SessionStep(t, sessionKey);
    forall id | id in t.records && id !in t'.records ensures id in book && book[id].body.status != Active {
      assert Local(book, t, id);
      assert id !in ActiveOfSession(book, sessionKey);
    }
    SameRequestsKeepInv(book, t, book, t');
  }

  // ------------------------------------------------------------------ whole runs

  datatype TopUpEvent =
    | ConfirmEvent(enabled: bool, owner: Owner, id: Id, now: int, echo: string)
    | RevalidateEvent(id: Id, facts: Facts)
    | SendEvent(id: Id)
    | AnswerEvent(id: Id, answer: TopUpAnswer)
    | DropEvent(id: Id)
    | DecideEvent(index: nat, verdict: Verdict)

  function Apply(book: Book, t: TopUpState, event: TopUpEvent): (Book, TopUpState) {
    match event
    case ConfirmEvent(enabled, owner, id, now, echo) => (book, ConfirmStep(book, t, enabled, owner, id, now, echo))
    case RevalidateEvent(id, facts) => (book, RevalidateStep(t, id, facts))
    case SendEvent(id) => (book, SendStep(t, id))
    case AnswerEvent(id, answer) => AnswerStep(book, t, id, answer)
    case DropEvent(id) => (book, DropStep(t, id))
    case DecideEvent(index, verdict) => (book, DecideStep(t, index, verdict))
  }

  lemma EventKeepsInv(book: Book, t: TopUpState, event: TopUpEvent)
    requires Inv(book, t)
    ensures var (book', t') := Apply(book, t, event); Inv(book', t') && Evolves(book, book') && book'.Keys == book.Keys
  {
    match event
    case ConfirmEvent(enabled, owner, id, now, echo) => ConfirmKeepsInv(book, t, enabled, owner, id, now, echo);
    case RevalidateEvent(id, facts) => RevalidateKeepsInv(book, t, id, facts);
    case SendEvent(id) => SendKeepsInv(book, t, id);
    case AnswerEvent(id, answer) => AnswerKeepsInv(book, t, id, answer);
    case DropEvent(id) => DropKeepsInv(book, t, id);
    case DecideEvent(index, verdict) => SameRequestsKeepInv(book, t, book, DecideStep(t, index, verdict));
  }

  /** Every refusal on file rests on an answer of the kind that is filed. */
  ghost predicate Filings(t: TopUpState) { forall id | id in t.refusals :: IsFiled(t.refusals[id]) }

  lemma RecordedFilings(book: Book, t: TopUpState, id: Id, answer: TopUpAnswer, reading: Reading, kept: Kept)
    requires Filings(t) && id in t.flights && (answer.Some? && IsFinal(reading) ==> IsFiled(answer.value))
    ensures Filings(Recorded(book, t, id, answer, reading, kept).1)
  {
  }

  lemma EventKeepsFilings(book: Book, t: TopUpState, event: TopUpEvent)
    requires Filings(t)
    ensures Filings(Apply(book, t, event).1)
  {
    if event.AnswerEvent? && event.id in t.flights {
      var id, answer := event.id, event.answer;
      if answer.Some? { RefusalsAreFiledExactlyWhen(answer.value); }
      RecordedFilings(book, t, id, answer, ReadAnswer(answer), Promises(t.ledger, t.flights[id].stage, answer));
    }
  }

  lemma EventGrowsLedger(book: Book, t: TopUpState, event: TopUpEvent)
    ensures Grows(t.ledger, Apply(book, t, event).1.ledger)
  {
  }

  // ------------------------------------------------------------------ what a request rested on

  ghost predicate VoucherStands(terms: Terms, echo: string, facts: Facts) {
    CheckConfirmedAmount(terms.amount, echo) == AmountCheck.Confirmed && Stands(terms, facts)
  }

  ghost predicate VouchedAt(book: Book, t: TopUpState, id: Id) {
    && (id in t.flights ==>
          var f := t.flights[id];
          && id in book && f.quote.terms == book[id].body.terms
          && (match f.stage
              case Revalidating => CheckConfirmedAmount(f.quote.terms.amount, f.echo) == AmountCheck.Confirmed
              case Ready(facts) => VoucherStands(f.quote.terms, f.echo, facts)
              case Sent(facts, _) => VoucherStands(f.quote.terms, f.echo, facts)))
    && (id in t.vouched ==>
          id in book && VoucherStands(book[id].body.terms, t.vouched[id].echo, t.vouched[id].facts))
  }

  /** A request leaves only after the user echoed the quote's exact amount and every fact was read
      again and stood. */
  ghost predicate Vouched(book: Book, t: TopUpState) {
    forall id {:trigger VouchedAt(book, t, id)} :: VouchedAt(book, t, id)
  }

  lemma ConfirmedEchoes(book: Book, records: Records, enabled: bool, owner: Owner, id: Id, now: int, echo: string)
    ensures var begun := Confirm(book, records, enabled, owner, id, now, echo).1;
      begun.Started? ==>
        && id in book && begun.flight.quote == book[id].body && begun.flight.stage.Revalidating?
        && CheckConfirmedAmount(begun.flight.quote.terms.amount, begun.flight.echo) == AmountCheck.Confirmed
  {
  }

  lemma RevalidatedStands(book: Book, t: TopUpState, id: Id, facts: Facts)
    requires VouchedAt(book, t, id)
    ensures VouchedAt(book, RevalidateStep(t, id, facts), id)
  {
    if id in t.flights { RevalidationPassesIffFactsStand(t.flights[id].quote.terms, facts); }
  }

  lemma ConfirmKeepsVouched(
    book: Book, t: TopUpState, enabled: bool, owner: Owner, other: Id, now: int, echo: string, id: Id)
    requires VouchedAt(book, t, id)
    ensures VouchedAt(book, ConfirmStep(book, t, enabled, owner, other, now, echo), id)
  {
    ConfirmedEchoes(book, t.records, enabled, owner, other, now, echo);
  }

  lemma RecordedKeepsVouched(
    book: Book, t: TopUpState, other: Id, answer: TopUpAnswer, reading: Reading, kept: Kept, id: Id)
    requires VouchedAt(book, t, id) && other in t.flights
    ensures var (book', t') := Recorded(book, t, other, answer, reading, kept); VouchedAt(book', t', id)
  {
  }

  lemma AnswerKeepsVouched(book: Book, t: TopUpState, other: Id, answer: TopUpAnswer, id: Id)
    requires VouchedAt(book, t, id)
    ensures var (book', t') := AnswerStep(book, t, other, answer); VouchedAt(book', t', id)
  {
    if other in t.flights {
      RecordedKeepsVouched(
        book, t, other, answer, ReadAnswer(answer), Promises(t.ledger, t.flights[other].stage, answer), id);
    }
  }

  lemma SendKeepsVouched(book: Book, t: TopUpState, other: Id, id: Id)
    requires VouchedAt(book, t, id)
    ensures VouchedAt(book, SendStep(t, other), id)
  {
  }

  lemma EventKeepsVouched(book: Book, t: TopUpState, event: TopUpEvent)
    requires Vouched(book, t)
    ensures var (book', t') := Apply(book, t, event); Vouched(book', t')
  {
    var (book', t') := Apply(book, t, event);
    forall id ensures VouchedAt(book', t', id) {
      assert VouchedAt(book, t, id);
      match event {
        case ConfirmEvent(enabled, owner, other, now, echo) =>
          ConfirmKeepsVouched(book, t, enabled, owner, other, now, echo, id);
        case RevalidateEvent(other, facts) =>
          if other == id { RevalidatedStands(book, t, id, facts); }
        case SendEvent(other) => SendKeepsVouched(book, t, other, id);
        case AnswerEvent(other, answer) => AnswerKeepsVouched(book, t, other, answer, id);
        case _ =>
      }
    }
  }

  lemma SessionKeepsVouched(book: Book, t: TopUpState, sessionKey: string)
    requires Vouched(book, t)
    ensures Vouched(book, SessionStep(t, sessionKey))
  {
    forall id ensures VouchedAt(book, SessionStep(t, sessionKey), id) { assert VouchedAt(book, t, id); }
  }

  lemma EvolutionKeepsVouched(book: Book, book': Book, t: TopUpState)
    requires Vouched(book, t) && Evolves(book, book')
    ensures Vouched(book', t)
  {
    forall id ensures VouchedAt(book', t, id) { assert VouchedAt(book, t, id); }
  }

  /** One request for a quote over the whole run, so one debit; and everything it rested on stood. */
  lemma AtMostOneRequest(book: Book, t: TopUpState, id: Id)
    requires Inv(book, t) && Vouched(book, t)
    ensures Count(t.ledger.sent, id) <= 1 && |t.ledger.Debits(id)| <= 1
    ensures Count(t.ledger.sent, id) == 1 ==>
      id in book && id in t.vouched && VoucherStands(book[id].body.terms, t.vouched[id].echo, t.vouched[id].facts)
  {
    assert Local(book, t, id) && VouchedAt(book, t, id);
    DebitsAreBoundedBySends(t.ledger, id);
  }

  /** Once a request went out, every later confirmation is answered on the spot. */
  lemma SentQuotesAreAnsweredLocally(
    book: Book, t: TopUpState, id: Id, enabled: bool, owner: Owner, now: int, echo: string)
    requires Inv(book, t) && Count(t.ledger.sent, id) == 1 && id !in t.flights
    ensures Confirm(book, t.records, enabled, owner, id, now, echo).1.Settled?
  {
    assert Local(book, t, id);
  }

  /** Success is told only where the platform made the top-up, unless it reported one for that quote that
      it had not made; and a refusal it explained and meant, once recorded, means that no money has moved
      for the quote nor can. */
  lemma RecordsAreTrue(book: Book, t: TopUpState, id: Id, k: nat, later: Ledger)
    requires Inv(book, t)
    ensures k < |t.replies| && t.replies[k].1.ToppedUp? && t.replies[k].0 !in t.overclaimed ==>
      t.ledger.BoughtFor(t.replies[k].0)
    ensures id in t.records && t.records[id].body.status.Failed? ==> id in t.refusals
    ensures (id in t.records && t.records[id].body.status.Failed? && id in t.refusals && Refuses(t.refusals[id])
             && id !in t.misrefused && Grows(t.ledger, later) && Count(later.sent, id) <= 1) ==>
      later.Debits(id) == {}
  {
    if k < |t.replies| { assert ReplyOk(t, k); }
    assert Local(book, t, id);
    if id in t.records && t.records[id].body.status.Failed? && Refuses(t.refusals[id])
      && id !in t.misrefused && Grows(t.ledger, later) && Count(later.sent, id) <= 1
    {
      AnsweredGrows(t.ledger, later, id, "", Refused);
      OnlyOneSlot(later, id);
    }
  }
}
