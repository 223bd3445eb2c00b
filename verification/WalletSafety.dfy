/** Wallet purchases over whole runs: three requests under one key at most, no success told or recorded
    that the platform did not commit, and answers that stay as recorded. */
module WalletSafety {
  import opened Strings
  import opened Stores
  import opened Quotes
  import opened Ledgers
  import opened Outcomes
  import opened WalletAnswers
  import opened WalletPurchase

  /** A flight is in the map exactly while its call holds the quote's lock. */
  datatype InFlight = InFlight(flight: Flight, sent: Option<nat>)

  /** The last four fields are history: what callers were told, the answer each recorded refusal rests on,
      the quotes of which the platform reported a purchase it had not made, and those of which it
      reported a refusal or a conflict there was not. */
  datatype WalletState = WalletState(
    records: Records,
    flights: map<Id, InFlight>,
    minted: map<Key, Id>,
    ledger: Ledger,
    replies: seq<(Id, Reply)>,
    refusals: map<Id, Outcome<Option<Purchase>>>,
    overclaimed: set<Id>,
    misrefused: set<Id>)

  function Initial(keyed: bool): WalletState {
    WalletState(map[], map[], map[], Ledger(keyed, [], map[]), [], map[], {}, {})
  }

  /** A confirmation takes the lock. Keys drawn at random are taken to be new. */
  function ConfirmStep(book: Book, w: WalletState, owner: Owner, id: Id, now: int, newKey: Key): WalletState {
    if id in w.flights || newKey in w.minted then w
    else
      var (records, begun) := Confirm(book, w.records, owner, id, now, newKey);
      Confirmed(w, id, newKey, records, begun)
  }

  function Confirmed(w: WalletState, id: Id, newKey: Key, records: Records, begun: Begun): WalletState {
    var w1 := w.(records := records, minted := w.minted[newKey := id]);
    match begun
    case Sending(flight) => w1.(flights := w.flights[id := InFlight(flight, None)])
    case Settled(reply) => w1.(replies := w.replies + [(id, reply)])
  }

  function RequestOf(flight: Flight): Request {
    Request(flight.id, flight.execution.key, PayloadOf(flight.quote.terms))
  }

  /** The request leaves, once per flight. */
  function SendStep(w: WalletState, id: Id): WalletState {
    if id !in w.flights || w.flights[id].sent.Some? then w
    else
      var flight := w.flights[id].flight;
      w.(ledger := w.ledger.Sent(RequestOf(flight)),
         flights := w.flights[id := InFlight(flight, Some(|w.ledger.sent|))])
  }

  /** What the platform promises of its answer to the i-th request, read off the answer itself. First,
      that it reports a purchase only if it made it. */
  predicate TrueOfPurchases(ledger: Ledger, i: nat, outcome: Outcome<Option<Purchase>>) {
    ReportsPurchase(outcome) ==> ledger.Says(i, Bought)
  }

  /** Second, that it explains a refusal only if it refused, and reports a conflict only where the key was
      sent with something else. Of any other answer it promises nothing: that it is silent, unreadable,
      of an odd status, or turns the request away. */
  ghost predicate TrueOfRefusals(ledger: Ledger, i: nat, outcome: Outcome<Option<Purchase>>)
    requires i < |ledger.sent|
  {
    && (Refuses(outcome) ==> ledger.Says(i, Refused))
    && (Conflicts(outcome) && !StillRunning(outcome.Hint()) ==>
          exists j | 0 <= j < |ledger.sent| ::
            ledger.sent[j].key == ledger.sent[i].key && ledger.sent[j] != ledger.sent[i])
  }

  ghost function Promises(ledger: Ledger, sent: Option<nat>, answer: PurchaseAnswer): Kept {
    var answered := answer.Some? && sent.Some? && sent.value < |ledger.sent|;
    Kept(answered ==> TrueOfPurchases(ledger, sent.value, answer.value),
         answered ==> TrueOfRefusals(ledger, sent.value, answer.value))
  }

  /** Whatever is answered is handled; only a request that was sent is answered. */
  ghost function AnswerStep(book: Book, w: WalletState, id: Id, answer: PurchaseAnswer): (Book, WalletState) {
    if id !in w.flights || (answer.Some? && w.flights[id].sent.None?) then (book, w)
    else Recorded(book, w, id, answer, ReadAnswer(answer), Promises(w.ledger, w.flights[id].sent, answer))
  }

  function Recorded(
    book: Book, w: WalletState, id: Id, answer: PurchaseAnswer, reading: Reading, kept: Kept): (Book, WalletState)
    requires id in w.flights
  {
    var (book', records, reply) := Answer(book, w.records, w.flights[id].flight, reading);
    (book',
     w.(records := records, flights := w.flights - {id}, replies := w.replies + [(id, reply)],
        refusals := if answer.Some? && IsFinal(reading) then w.refusals[id := answer.value] else w.refusals,
        overclaimed := if kept.successes then w.overclaimed else w.overclaimed + {id},
        misrefused := if kept.refusals then w.misrefused else w.misrefused + {id}))
  }

  /** The call ends without an answer: its session could not be refreshed, or it was abandoned. */
  function DropStep(w: WalletState, id: Id): WalletState { w.(flights := w.flights - {id}) }

  function DecideStep(w: WalletState, i: nat, verdict: Verdict): WalletState {
    w.(ledger := w.ledger.Decided(i, verdict))
  }

  function SessionStep(w: WalletState, sessionKey: string): WalletState {
    w.(records := DropSession(w.records, sessionKey))
  }

  // ------------------------------------------------------------------ the invariant

  /** What a terminal record has behind it, as far as the platform has kept its promises of the quote. */
  ghost predicate Backed(w: WalletState, id: Id, e: Execution) {
    && (e.status.Succeeded? && id !in w.overclaimed ==> w.ledger.Answered(id, e.key, Bought))
    && (e.status.Failed? && id in w.refusals && id !in w.misrefused ==>
          !Conflicts(w.refusals[id]) && (Refuses(w.refusals[id]) ==> w.ledger.Answered(id, e.key, Refused)))
  }

  /** A record belongs to its quote's owner, keeps the key minted for that quote, and is terminal
      only on the platform's word. */
  ghost predicate RecordOk(book: Book, w: WalletState, id: Id)
    requires id in w.records
  {
    var r := w.records[id];
    && id in book && book[id].owner == r.owner
    && r.body.key in w.minted && w.minted[r.body.key] == id
    && r.body.attempts <= MAX_EXECUTION_ATTEMPTS
    && (r.body.status.IsTerminal() ==>
          w.ledger.SentUnder(id, r.body.key) && Count(w.ledger.sent, id) <= r.body.attempts)
    && (r.body.status.Succeeded? ==> r.body.result.Some? && book[id].body.status == Consumed)
    && (r.body.status.Failed? ==> id in w.refusals)
    && Backed(w, id, r.body)
  }

  /** While a call is suspended nobody else has touched the record: it is the call's own copy, or it
      was dropped with its session, and then the quote is dead. */
  ghost predicate FlightOk(book: Book, w: WalletState, id: Id)
    requires id in w.flights
  {
    var f, e := w.flights[id], w.flights[id].flight.execution;
    && id != "" && f.flight.id == id && id in book && book[id].owner == f.flight.owner
    && f.flight.quote.terms == book[id].body.terms && book[id].body.terms.payment == PaymentMethod.Wallet
    && e.key in w.minted && w.minted[e.key] == id
    && 1 <= e.attempts <= MAX_EXECUTION_ATTEMPTS && !e.status.IsTerminal()
    && (if id in w.records then w.records[id] == Owned(f.flight.owner, e) else book[id].body.status != Active)
    && w.ledger.SentUnder(id, e.key)
    && Count(w.ledger.sent, id) + (if f.sent.None? then 1 else 0) <= e.attempts
    && (f.sent.Some? ==>
          && f.sent.value < |w.ledger.sent|
          && w.ledger.sent[f.sent.value].quote == id && w.ledger.sent[f.sent.value].key == e.key)
  }

  /** An unlocked quote that is still active has all it ever sent on its record. */
  ghost predicate IdleOk(book: Book, w: WalletState, id: Id)
    requires id in book
  {
    book[id].body.status == Active ==>
      if id in w.records
      then w.ledger.SentUnder(id, w.records[id].body.key) && Count(w.ledger.sent, id) <= w.records[id].body.attempts
      else Count(w.ledger.sent, id) == 0
  }

  ghost predicate SentOk(book: Book, w: WalletState, i: nat)
    requires i < |w.ledger.sent|
  {
    var r := w.ledger.sent[i];
    && r.quote in book && book[r.quote].body.terms.payment == PaymentMethod.Wallet
    && r.payload == PayloadOf(book[r.quote].body.terms)
    && r.key in w.minted && w.minted[r.key] == r.quote
  }

  ghost predicate QuoteOk(w: WalletState, id: Id) {
    w.ledger.OneKey(id) && Count(w.ledger.sent, id) <= MAX_EXECUTION_ATTEMPTS
  }

  /** Nobody is told of a purchase the platform did not make, unless it said it had. */
  ghost predicate ReplyOk(w: WalletState, k: nat)
    requires k < |w.replies|
  {
    w.replies[k].1.Purchased? && w.replies[k].0 !in w.overclaimed ==> w.ledger.BoughtFor(w.replies[k].0)
  }

  /** All the invariant says about one quote. */
  ghost predicate Local(book: Book, w: WalletState, id: Id) {
    && (id in w.records ==> RecordOk(book, w, id))
    && (id in w.flights ==> FlightOk(book, w, id))
    && (id in book && id !in w.flights ==> IdleOk(book, w, id))
    && QuoteOk(w, id)
  }

  ghost predicate SendsOk(book: Book, w: WalletState) {
    forall i {:trigger SentOk(book, w, i)} | 0 <= i < |w.ledger.sent| :: SentOk(book, w, i)
  }

  ghost predicate RepliesOk(w: WalletState) {
    forall k {:trigger ReplyOk(w, k)} | 0 <= k < |w.replies| :: ReplyOk(w, k)
  }

  ghost predicate Inv(book: Book, w: WalletState) {
    (forall id {:trigger Local(book, w, id)} :: Local(book, w, id)) && SendsOk(book, w) && RepliesOk(w)
  }

  lemma InitialInv(keyed: bool)
    ensures Inv(map[], Initial(keyed))
  {
    forall id ensures Local(map[], Initial(keyed), id) { assert Initial(keyed).ledger.SentUnder(id, ""); }
  }

  /** The book may move forward under a wallet call without disturbing it. */
  lemma BookStable(book: Book, book': Book, w: WalletState)
    requires Inv(book, w) && Evolves(book, book')
    ensures Inv(book', w)
  {
    forall i | 0 <= i < |w.ledger.sent| ensures w.ledger.sent[i].quote in book.Keys { assert SentOk(book, w, i); }
    forall id ensures Local(book', w, id) {
      assert Local(book, w, id);
      if id !in book { CountOfUnknown(w.ledger.sent, book.Keys, id); }
    }
    forall i | 0 <= i < |w.ledger.sent| ensures SentOk(book', w, i) { assert SentOk(book, w, i); }
  }

  lemma ReplyGrows(w: WalletState, w': WalletState, k: nat)
    requires k < |w.replies| && k < |w'.replies| && w'.replies[k] == w.replies[k]
    requires Grows(w.ledger, w'.ledger) && w.overclaimed <= w'.overclaimed && ReplyOk(w, k)
    ensures ReplyOk(w', k)
  {
    var id := w.replies[k].0;
    if w.replies[k].1.Purchased? && id !in w'.overclaimed { BoughtForGrows(w.ledger, w'.ledger, id); }
  }

  lemma BackedGrows(w: WalletState, w': WalletState, id: Id, e: Execution)
    requires Grows(w.ledger, w'.ledger) && SameAt(w.refusals, w'.refusals, id) && Backed(w, id, e)
    requires w.overclaimed <= w'.overclaimed && w.misrefused <= w'.misrefused
    ensures Backed(w', id, e)
  {
    if e.status.Succeeded? && id !in w'.overclaimed { AnsweredGrows(w.ledger, w'.ledger, id, e.key, Bought); }
    if e.status.Failed? && id in w.refusals && id !in w'.misrefused && Refuses(w.refusals[id]) {
      AnsweredGrows(w.ledger, w'.ledger, id, e.key, Refused);
    }
  }

  /** A step that concerns quote `id` alone. */
  ghost predicate Concerns(book: Book, w: WalletState, book': Book, w': WalletState, id: Id) {
    && Evolves(book, book') && book'.Keys == book.Keys
    && (forall other | other != id :: SameAt(w.records, w'.records, other))
    && (forall other | other != id :: SameAt(w.flights, w'.flights, other))
    && (forall other | other != id :: SameAt(w.refusals, w'.refusals, other))
    && w.overclaimed <= w'.overclaimed && w.misrefused <= w'.misrefused
    && (forall key | key in w.minted :: key in w'.minted && w'.minted[key] == w.minted[key])
    && Grows(w.ledger, w'.ledger)
    && |w.ledger.sent| <= |w'.ledger.sent| <= |w.ledger.sent| + 1
    && (|w.ledger.sent| < |w'.ledger.sent| ==> w'.ledger.sent[|w.ledger.sent|].quote == id)
  }

  lemma OthersAreKept(book: Book, w: WalletState, book': Book, w': WalletState, id: Id, other: Id)
    requires Local(book, w, other) && Concerns(book, w, book', w', id) && other != id
    ensures Local(book', w', other)
  {
    SendsOfOthers(w.ledger, w'.ledger, id, other);
    assert SameAt(w.records, w'.records, other) && SameAt(w.flights, w'.flights, other);
    assert SameAt(w.refusals, w'.refusals, other);
    if other in w.records { BackedGrows(w, w', other, w.records[other].body); }
  }

  /** A step that concerns one quote keeps the invariant if it keeps that quote's part of it. */
  lemma OneQuoteStep(book: Book, w: WalletState, book': Book, w': WalletState, id: Id)
    requires Inv(book, w) && Concerns(book, w, book', w', id) && Local(book', w', id)
    requires |w.ledger.sent| < |w'.ledger.sent| ==> SentOk(book', w', |w.ledger.sent|)
    requires w'.replies == w.replies ||
      (|w'.replies| == |w.replies| + 1 && w.replies <= w'.replies && ReplyOk(w', |w.replies|))
    ensures Inv(book', w')
  {
    forall other ensures Local(book', w', other) {
      assert Local(book, w, other);
      if other != id { OthersAreKept(book, w, book', w', id, other); }
    }
    forall i | 0 <= i < |w'.ledger.sent| ensures SentOk(book', w', i) {
      if i < |w.ledger.sent| {
        assert SentOk(book, w, i);
        assert w'.ledger.sent[i] == w.ledger.sent[i];
      }
    }
    forall k | 0 <= k < |w'.replies| ensures ReplyOk(w', k) {
      if k < |w.replies| { assert ReplyOk(w, k); ReplyGrows(w, w', k); }
    }
  }

  /** What confirming comes to, whichever gate decided. */
  ghost predicate ConfirmBegins(
    book: Book, records: Records, owner: Owner, id: Id, newKey: Key, after: Records, begun: Begun)
  {
    match begun
    case Sending(f) =>
      && id != "" && id in book && book[id].owner == owner && book[id].body.status == Active
      && book[id].body.terms.payment == PaymentMethod.Wallet
      && 1 <= f.execution.attempts <= MAX_EXECUTION_ATTEMPTS
      && f == Flight(owner, id, f.execution, book[id].body)
      && !f.execution.status.IsTerminal() && after == records[id := Owned(owner, f.execution)]
      && Find(records, owner, id).UnwrapOr(NewExecution(newKey)) == f.execution.(attempts := f.execution.attempts - 1)
    case Settled(reply) =>
      && (after == records
          || (id in book && book[id].owner == owner && Find(records, owner, id).None?
              && id != "" && after == records[id := Owned(owner, NewExecution(newKey))]))
      && (reply.Purchased? ==> id in records && records[id].body.status.Succeeded?)
  }

  lemma ConfirmBeginsSo(book: Book, records: Records, owner: Owner, id: Id, now: int, newKey: Key)
    ensures var (after, begun) := Confirm(book, records, owner, id, now, newKey);
      ConfirmBegins(book, records, owner, id, newKey, after, begun)
  {
  }

  lemma ConfirmedConcerns(book: Book, w: WalletState, owner: Owner, id: Id, newKey: Key, after: Records, begun: Begun)
    requires ConfirmBegins(book, w.records, owner, id, newKey, after, begun)
    requires id !in w.flights && newKey !in w.minted
    ensures Concerns(book, w, book, Confirmed(w, id, newKey, after, begun), id)
  {
  }

  lemma ConfirmedLocal(book: Book, w: WalletState, owner: Owner, id: Id, newKey: Key, after: Records, begun: Begun)
    requires ConfirmBegins(book, w.records, owner, id, newKey, after, begun)
    requires Local(book, w, id) && id !in w.flights && newKey !in w.minted
    ensures Local(book, Confirmed(w, id, newKey, after, begun), id)
  {
    CountZero(w.ledger.sent, id);
  }

  /** A replayed success rests on the record's own verdict. */
  lemma ConfirmedReplies(book: Book, w: WalletState, owner: Owner, id: Id, newKey: Key, after: Records, begun: Begun)
    requires ConfirmBegins(book, w.records, owner, id, newKey, after, begun) && Local(book, w, id)
    ensures var w' := Confirmed(w, id, newKey, after, begun);
      w'.replies == w.replies ||
        (|w'.replies| == |w.replies| + 1 && w.replies <= w'.replies && ReplyOk(w', |w.replies|))
  {
    if begun.Settled? && begun.reply.Purchased? && id !in w.overclaimed {
      var key := w.records[id].body.key;
      var i: nat :| i < |w.ledger.sent| && w.ledger.sent[i].quote == id && w.ledger.sent[i].key == key
                    && w.ledger.Says(i, Bought);
    }
  }

  lemma ConfirmKeepsInv(book: Book, w: WalletState, owner: Owner, id: Id, now: int, newKey: Key)
    requires Inv(book, w)
    ensures Inv(book, ConfirmStep(book, w, owner, id, now, newKey))
  {
    if id !in w.flights && newKey !in w.minted {
      assert Local(book, w, id);
      var (after, begun) := Confirm(book, w.records, owner, id, now, newKey);
      ConfirmBeginsSo(book, w.records, owner, id, now, newKey);
      ConfirmedConcerns(book, w, owner, id, newKey, after, begun);
      ConfirmedLocal(book, w, owner, id, newKey, after, begun);
      ConfirmedReplies(book, w, owner, id, newKey, after, begun);
      OneQuoteStep(book, w, book, Confirmed(w, id, newKey, after, begun), id);
    }
  }

  lemma SendLocal(book: Book, w: WalletState, id: Id)
    requires Local(book, w, id) && id in w.flights && w.flights[id].sent.None?
    ensures Local(book, SendStep(w, id), id) && SentOk(book, SendStep(w, id), |w.ledger.sent|)
    ensures Grows(w.ledger, SendStep(w, id).ledger)
  {
    var w', r := SendStep(w, id), RequestOf(w.flights[id].flight);
    CountAppend(w.ledger.sent, r, id);
    assert w'.ledger.SentUnder(id, r.key);
    if id in w.records { BackedGrows(w, w', id, w.records[id].body); }
  }

  lemma SendKeepsInv(book: Book, w: WalletState, id: Id)
    requires Inv(book, w)
    ensures Inv(book, SendStep(w, id))
  {
    if id in w.flights && w.flights[id].sent.None? {
      assert Local(book, w, id);
      SendLocal(book, w, id);
      OneQuoteStep(book, w, book, SendStep(w, id), id);
    }
  }

  /** What a reading rests on, as far as the platform kept its promises of the answer. */
  ghost predicate ReadingBacked(ledger: Ledger, sent: Option<nat>, answer: PurchaseAnswer,
      reading: Reading, kept: Kept)
  {
    && (reading.Completed? || IsFinal(reading) ==> answer.Some? && sent.Some?)
    && (reading.Completed? && kept.successes ==> ledger.Says(sent.value, Bought))
    && (IsFinal(reading) && kept.refusals ==>
          !Conflicts(answer.value) && (Refuses(answer.value) ==> ledger.Says(sent.value, Refused)))
  }

  /** Reading an answer as this server does is justified by the platform's promises, no more assumed: by
      the first a completed purchase was made; by the second an explained refusal was one, and a
      conflict there cannot be. */
  lemma ReadingsAreBacked(book: Book, w: WalletState, id: Id, answer: PurchaseAnswer)
    requires Inv(book, w) && id in w.flights && (answer.Some? ==> w.flights[id].sent.Some?)
    ensures var sent := w.flights[id].sent;
      ReadingBacked(w.ledger, sent, answer, ReadAnswer(answer), Promises(w.ledger, sent, answer))
  {
    assert Local(book, w, id);
    if answer.Some? {
      var i, o := w.flights[id].sent.value, answer.value;
      ReadingsFollowTheAnswer(o);
      if IsFinal(ReadAnswer(answer)) && Conflicts(o) && Promises(w.ledger, w.flights[id].sent, answer).refusals {
        var j :| 0 <= j < |w.ledger.sent| && w.ledger.sent[j].key == w.ledger.sent[i].key
                 && w.ledger.sent[j] != w.ledger.sent[i];
        NoKeyConflict(book, w, i, j);
        assert false;
      }
    }
  }

  lemma RecordedConcerns(book: Book, w: WalletState, id: Id, answer: PurchaseAnswer, reading: Reading, kept: Kept)
    requires id in w.flights && w.flights[id].flight.id == id
    ensures var (book', w') := Recorded(book, w, id, answer, reading, kept); Concerns(book, w, book', w', id)
  {
  }

  lemma RecordedLocal(book: Book, w: WalletState, id: Id, answer: PurchaseAnswer, reading: Reading, kept: Kept)
    requires Local(book, w, id) && id in w.flights
    requires ReadingBacked(w.ledger, w.flights[id].sent, answer, reading, kept)
    ensures var (book', w') := Recorded(book, w, id, answer, reading, kept);
      Local(book', w', id) && ReplyOk(w', |w.replies|)
  {
    var sent, key := w.flights[id].sent, w.flights[id].flight.execution.key;
    if kept.successes && reading.Completed? {
      assert w.ledger.Says(sent.value, Bought) && w.ledger.Answered(id, key, Bought);
    }
    if kept.refusals && IsFinal(reading) && Refuses(answer.value) {
      assert w.ledger.Says(sent.value, Refused) && w.ledger.Answered(id, key, Refused);
    }
  }

  lemma AnswerKeepsInv(book: Book, w: WalletState, id: Id, answer: PurchaseAnswer)
    requires Inv(book, w)
    ensures var (book', w') := AnswerStep(book, w, id, answer);
      Inv(book', w') && Evolves(book, book') && book'.Keys == book.Keys
  {
    if id in w.flights && (answer.Some? ==> w.flights[id].sent.Some?) {
      var reading, kept := ReadAnswer(answer), Promises(w.ledger, w.flights[id].sent, answer);
      var (book', w') := Recorded(book, w, id, answer, reading, kept);
      assert Local(book, w, id);
      ReadingsAreBacked(book, w, id, answer);
      RecordedConcerns(book, w, id, answer, reading, kept);
      RecordedLocal(book, w, id, answer, reading, kept);
      OneQuoteStep(book, w, book', w', id);
    }
  }

  lemma DropKeepsInv(book: Book, w: WalletState, id: Id)
    requires Inv(book, w)
    ensures Inv(book, DropStep(w, id))
  {
    assert Local(book, w, id);
    var w' := DropStep(w, id);
    assert Local(book, w', id);
    OneQuoteStep(book, w, book, w', id);
  }

  lemma DecideKeepsInv(book: Book, w: WalletState, i: nat, verdict: Verdict)
    requires Inv(book, w)
    ensures Inv(book, DecideStep(w, i, verdict))
  {
    var w' := DecideStep(w, i, verdict);
    forall id ensures Local(book, w', id) {
      assert Local(book, w, id);
      var key :| w.ledger.SentUnder(id, key);
      assert w'.ledger.SentUnder(id, key);
      if id in w.records { BackedGrows(w, w', id, w.records[id].body); }
    }
    forall j | 0 <= j < |w.ledger.sent| ensures SentOk(book, w', j) { assert SentOk(book, w, j); }
    forall k | 0 <= k < |w.replies| ensures ReplyOk(w', k) { assert ReplyOk(w, k); ReplyGrows(w, w', k); }
  }

  /** A session's records may go once none of its quotes is active: a call in flight then loses its
      record only where its quote is dead. */
  lemma SessionKeepsInv(book: Book, w: WalletState, sessionKey: string)
    requires Inv(book, w) && ActiveOfSession(book, sessionKey) == {}
    ensures Inv(book, SessionStep(w, sessionKey))
  {
    var w' := SessionStep(w, sessionKey);
    forall id ensures Local(book, w', id) {
      assert Local(book, w, id);
      assert id !in ActiveOfSession(book, sessionKey);
    }
    forall j | 0 <= j < |w.ledger.sent| ensures SentOk(book, w', j) { assert SentOk(book, w, j); }
    forall k | 0 <= k < |w.replies| ensures ReplyOk(w', k) { assert ReplyOk(w, k); ReplyGrows(w, w', k); }
  }

  // ------------------------------------------------------------------ what the invariant means

  /** At most three requests for a quote, all under one key; so one debit at most on a platform that
      honours keys, and three on one that does not. */
  lemma SendsAndDebitsAreBounded(book: Book, w: WalletState, id: Id)
    requires Inv(book, w)
    ensures Count(w.ledger.sent, id) <= MAX_EXECUTION_ATTEMPTS && w.ledger.OneKey(id)
    ensures |w.ledger.Debits(id)| <= if w.ledger.keyed then 1 else MAX_EXECUTION_ATTEMPTS
  {
    assert Local(book, w, id);
    DebitsAreBoundedBySends(w.ledger, id);
    if w.ledger.keyed { OneKeyDebitsOnce(w.ledger, id); }
  }

  /** A platform that binds a key to its first payload never sees another payload under it. */
  lemma NoKeyConflict(book: Book, w: WalletState, i: nat, j: nat)
    requires Inv(book, w) && i < |w.ledger.sent| && j < |w.ledger.sent|
    requires w.ledger.sent[i].key == w.ledger.sent[j].key
    ensures w.ledger.sent[i] == w.ledger.sent[j]
  {
    assert SentOk(book, w, i) && SentOk(book, w, j);
  }

  /** Whoever is told of a purchase, the platform made it, and the record says so only then, unless the
      platform reported a purchase for that very quote that it had not made. */
  lemma NoFalsePurchase(book: Book, w: WalletState, k: nat, id: Id)
    requires Inv(book, w)
    ensures k < |w.replies| && w.replies[k].1.Purchased? && w.replies[k].0 !in w.overclaimed ==>
      w.ledger.BoughtFor(w.replies[k].0)
    ensures id in w.records && w.records[id].body.status.Succeeded? && id !in w.overclaimed ==> w.ledger.BoughtFor(id)
  {
    if k < |w.replies| { assert ReplyOk(w, k); }
    assert Local(book, w, id);
    if id in w.records && w.records[id].body.status.Succeeded? && id !in w.overclaimed {
      var key := w.records[id].body.key;
      var i: nat :| i < |w.ledger.sent| && w.ledger.sent[i].quote == id && w.ledger.sent[i].key == key
                    && w.ledger.Says(i, Bought);
    }
  }

  /** A recorded refusal that the platform explained means that no money has moved for the quote and,
      as long as nothing more is sent for it, that none will: on a platform that honours keys always,
      on one that does not when it was the only attempt. */
  lemma FailedMeansNoDebit(book: Book, w: WalletState, id: Id, later: Ledger)
    requires Inv(book, w) && id in w.records && w.records[id].body.status.Failed?
    requires id in w.refusals && id !in w.misrefused && Refuses(w.refusals[id])
    requires w.ledger.keyed || w.records[id].body.attempts == 1
    requires Grows(w.ledger, later) && Count(later.sent, id) == Count(w.ledger.sent, id)
    ensures later.Debits(id) == {}
  {
    assert Local(book, w, id);
    var key := w.records[id].body.key;
    AnsweredGrows(w.ledger, later, id, key, Refused);
    CountMonotone(w.ledger.sent, later.sent, id);
    if w.ledger.keyed {
      assert later.SentUnder(id, key);
      RefusedMeansNoDebit(later, id, key);
    } else {
      OnlyOneSlot(later, id);
    }
  }

  /** No refusal is ever recorded for a key conflict: there is none to report. */
  lemma ConflictsNeverCome(book: Book, w: WalletState, id: Id)
    requires Inv(book, w) && id !in w.misrefused && id in w.records && w.records[id].body.status.Failed?
    ensures id in w.refusals && !Conflicts(w.refusals[id])
  {
    assert Local(book, w, id);
  }

  // ------------------------------------------------------------------ after an answer

  /** The quote's story is over: its terminal record stands, or went with its session and the quote
      with it. */
  ghost predicate Closed(book: Book, w: WalletState, id: Id, e: Execution) {
    && id in book && id !in w.flights && e.status.IsTerminal()
    && ((id in w.records && w.records[id] == Owned(book[id].owner, e))
        || (book[id].body.status != Active &&
              (id in w.records ==> w.records[id].owner == book[id].owner && w.records[id].body.status.Pending?)))
  }

  lemma TerminalRecordsAreClosed(book: Book, w: WalletState, id: Id)
    requires Inv(book, w) && id in w.records && w.records[id].body.status.IsTerminal()
    ensures Closed(book, w, id, w.records[id].body)
  {
    assert Local(book, w, id);
  }

  /** What a confirmation of a closed quote comes to: the recorded answer, or a refusal. */
  function ClosedReply(book: Book, w: WalletState, owner: Owner, id: Id): Option<Reply>
    requires id in book
  {
    if id == "" || owner != book[id].owner then Some(Raised(Plain(QuoteNotFound)))
    else if id in w.records && w.records[id].body.status.IsTerminal() then ReplayTerminal(w.records[id].body)
    else Some(Raised(Plain(UnusableCode(book[id].body.status))))
  }

  lemma ClosedQuotesAreAnsweredLocally(
    book: Book, w: WalletState, id: Id, e: Execution, owner: Owner, now: int, newKey: Key)
    requires Closed(book, w, id, e)
    ensures var begun := Confirm(book, w.records, owner, id, now, newKey).1;
      begun.Settled? && ClosedReply(book, w, owner, id) == Some(begun.reply)
    ensures id in w.records && w.records[id].body.status.IsTerminal() ==> w.records[id].body == e
  {
  }

  datatype WalletEvent =
    | ConfirmEvent(owner: Owner, id: Id, now: int, newKey: Key)
    | SendEvent(id: Id)
    | AnswerEvent(id: Id, answer: PurchaseAnswer)
    | DropEvent(id: Id)
    | DecideEvent(index: nat, verdict: Verdict)

  ghost function Apply(book: Book, w: WalletState, event: WalletEvent): (Book, WalletState) {
    match event
    case ConfirmEvent(owner, id, now, newKey) => (book, ConfirmStep(book, w, owner, id, now, newKey))
    case SendEvent(id) => (book, SendStep(w, id))
    case AnswerEvent(id, answer) => AnswerStep(book, w, id, answer)
    case DropEvent(id) => (book, DropStep(w, id))
    case DecideEvent(index, verdict) => (book, DecideStep(w, index, verdict))
  }

  lemma EventKeepsInv(book: Book, w: WalletState, event: WalletEvent)
    requires Inv(book, w)
    ensures var (book', w') := Apply(book, w, event); Inv(book', w') && Evolves(book, book') && book'.Keys == book.Keys
  {
    match event
    case ConfirmEvent(owner, id, now, newKey) => ConfirmKeepsInv(book, w, owner, id, now, newKey);
    case SendEvent(id) => SendKeepsInv(book, w, id);
    case AnswerEvent(id, answer) => AnswerKeepsInv(book, w, id, answer);
    case DropEvent(id) => DropKeepsInv(book, w, id);
    case DecideEvent(index, verdict) => DecideKeepsInv(book, w, index, verdict);
  }

  /** Every refusal on file rests on an answer of the kind that is filed. */
  ghost predicate Filings(w: WalletState) { forall id | id in w.refusals :: IsFiled(w.refusals[id]) }

  lemma RecordedFilings(book: Book, w: WalletState, id: Id, answer: PurchaseAnswer, reading: Reading, kept: Kept)
    requires Filings(w) && id in w.flights && (answer.Some? && IsFinal(reading) ==> IsFiled(answer.value))
    ensures Filings(Recorded(book, w, id, answer, reading, kept).1)
  {
  }

  lemma EventKeepsFilings(book: Book, w: WalletState, event: WalletEvent)
    requires Filings(w)
    ensures Filings(Apply(book, w, event).1)
  {
    if event.AnswerEvent? && event.id in w.flights {
      var id, answer := event.id, event.answer;
      if answer.Some? { RefusalsAreFiledExactlyWhen(answer.value); }
      RecordedFilings(book, w, id, answer, ReadAnswer(answer), Promises(w.ledger, w.flights[id].sent, answer));
    }
  }

  lemma EventGrowsLedger(book: Book, w: WalletState, event: WalletEvent)
    ensures Grows(w.ledger, Apply(book, w, event).1.ledger)
  {
  }

  lemma ConfirmKeepsClosed(
    book: Book, w: WalletState, owner: Owner, other: Id, now: int, newKey: Key, id: Id, e: Execution)
    requires Closed(book, w, id, e)
    ensures Closed(book, ConfirmStep(book, w, owner, other, now, newKey), id, e)
  {
    ConfirmBeginsSo(book, w.records, owner, other, now, newKey);
    ClosedQuotesAreAnsweredLocally(book, w, id, e, owner, now, newKey);
  }

  lemma SendKeepsClosed(book: Book, w: WalletState, other: Id, id: Id, e: Execution)
    requires Local(book, w, other) && Closed(book, w, id, e)
    ensures Closed(book, SendStep(w, other), id, e)
    ensures Count(SendStep(w, other).ledger.sent, id) == Count(w.ledger.sent, id)
  {
    if other in w.flights && w.flights[other].sent.None? {
      CountAppend(w.ledger.sent, RequestOf(w.flights[other].flight), id);
    }
  }

  lemma RecordedKeepsClosed(
    book: Book, w: WalletState, other: Id, answer: PurchaseAnswer, reading: Reading, kept: Kept, id: Id, e: Execution)
    requires Local(book, w, other) && other in w.flights && Closed(book, w, id, e)
    ensures var (book', w') := Recorded(book, w, other, answer, reading, kept);
      Closed(book', w', id, e) && w'.ledger == w.ledger && (id in w.refusals ==> SameAt(w.refusals, w'.refusals, id))
  {
  }

  lemma AnswerKeepsClosed(book: Book, w: WalletState, other: Id, answer: PurchaseAnswer, id: Id, e: Execution)
    requires Local(book, w, other) && Closed(book, w, id, e)
    ensures var (book', w') := AnswerStep(book, w, other, answer); Closed(book', w', id, e) && w'.ledger == w.ledger
  {
    if other in w.flights {
      RecordedKeepsClosed(
        book, w, other, answer, ReadAnswer(answer), Promises(w.ledger, w.flights[other].sent, answer), id, e);
    }
  }

  /** Nothing more is ever sent for a closed quote, and it stays closed under the same record. */
  lemma ClosedStaysClosed(book: Book, w: WalletState, event: WalletEvent, id: Id, e: Execution)
    requires Inv(book, w) && Closed(book, w, id, e)
    ensures var (book', w') := Apply(book, w, event);
      Closed(book', w', id, e) && Count(w'.ledger.sent, id) == Count(w.ledger.sent, id)
  {
    match event
    case ConfirmEvent(owner, other, now, newKey) => ConfirmKeepsClosed(book, w, owner, other, now, newKey, id, e);
    case SendEvent(other) =>
      assert Local(book, w, other);
      SendKeepsClosed(book, w, other, id, e);
    case AnswerEvent(other, answer) =>
      assert Local(book, w, other);
      AnswerKeepsClosed(book, w, other, answer, id, e);
    case DropEvent(other) =>
    case DecideEvent(index, verdict) =>
  }

  lemma SessionKeepsClosed(book: Book, w: WalletState, sessionKey: string, id: Id, e: Execution)
    requires Closed(book, w, id, e) && ActiveOfSession(book, sessionKey) == {}
    ensures Closed(book, SessionStep(w, sessionKey), id, e)
  {
    assert id !in ActiveOfSession(book, sessionKey);
  }

  lemma EvolutionKeepsClosed(book: Book, book': Book, w: WalletState, id: Id, e: Execution)
    requires Closed(book, w, id, e) && Evolves(book, book')
    ensures Closed(book', w, id, e)
  {
  }
}
