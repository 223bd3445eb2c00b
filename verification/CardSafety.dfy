/** Card payments over whole runs: openings and status checks interleave under different locks, yet no
    write to a checkout record is lost, one page at most is opened and handed over per quote, and
    requests and status reads stay within their limits. */
module CardSafety {
  import opened Strings
  import opened Stores
  import opened Quotes
  import opened Ledgers
  import opened Outcomes
  import opened CardCheckout
  import opened RouteGuard

  /** An opening is in the map exactly while its call holds the quote's lock, a check while it holds
      the payment's. The last seven fields are history nothing in the program reads: the status reads
      sent, the checks that ended before theirs was, the page opened for each quote, the quotes whose
      payment the platform called ambiguous, what it answered of each payment, and what callers were
      told. */
  datatype CardState = CardState(
    records: Records,
    openings: map<Id, Opening>,
    checkings: map<Reference, Checking>,
    minted: map<Key, Id>,
    ledger: Ledger,
    queries: seq<Id>,
    unread: seq<Id>,
    pages: map<Id, Page>,
    ambiguous: set<Id>,
    heard: set<(Reference, Outcome<Option<string>>)>,
    replies: seq<(Id, Reply)>)

  function Initial(): CardState {
    CardState(map[], map[], map[], map[], Ledger(false, [], map[]), [], [], map[], {}, {}, [])
  }

  function CreateStep(book: Book, c: CardState, owner: Owner, id: Id, now: int, newKey: Key): CardState {
    if id in c.openings || newKey in c.minted then c
    else
      var (records, begun) := Create(book, c.records, owner, id, now, newKey);
      Created(c, id, newKey, records, begun)
  }

  function Created(c: CardState, id: Id, newKey: Key, records: Records, begun: Begun<Opening>): CardState {
    var c1 := c.(records := records, minted := c.minted[newKey := id]);
    match begun
    case Sending(flight) => c1.(openings := c.openings[id := flight])
    case Settled(reply) => c1.(replies := c.replies + [(id, reply)])
  }

  function RequestOf(flight: Opening): Request {
    Request(flight.id, flight.checkout.key, PayloadOf(flight.quote.terms))
  }

  function AskStep(c: CardState, id: Id): CardState {
    if id !in c.openings || c.openings[id].sent then c
    else
      c.(ledger := c.ledger.Sent(RequestOf(c.openings[id])),
         openings := c.openings[id := c.openings[id].(sent := true)])
  }

  /** Whatever is answered is handled; only a request that was sent is answered. */
  function OpenedStep(c: CardState, id: Id, answer: PageAnswer): CardState {
    if id !in c.openings || (!c.openings[id].sent && answer.Some?) then c else Filed(c, id, ReadPage(answer))
  }

  function Filed(c: CardState, id: Id, reading: PageReading): CardState
    requires id in c.openings
  {
    var (records, reply) := AnswerOpening(c.records, c.openings[id], reading);
    c.(records := records, openings := c.openings - {id}, replies := c.replies + [(id, reply)],
       pages := if reading.Opened? then c.pages[id := reading.page] else c.pages)
  }

  function DropOpeningStep(c: CardState, id: Id): CardState { c.(openings := c.openings - {id}) }

  /** `pick` must carry the reference if any record does. */
  function CheckStep(c: CardState, owner: Owner, reference: Reference, pick: Id): CardState {
    if reference in c.checkings
       || (pick !in Matches(c.records, reference) && Matches(c.records, reference) != {}) then c
    else
      var (records, begun) := Check(c.records, owner, reference, pick);
      Checked(c, reference, pick, records, begun)
  }

  function Checked(c: CardState, reference: Reference, pick: Id, records: Records, begun: Begun<Checking>): CardState {
    match begun
    case Sending(flight) => c.(records := records, checkings := c.checkings[reference := flight])
    case Settled(reply) => c.(records := records, replies := c.replies + [(pick, reply)])
  }

  function ReadStep(c: CardState, reference: Reference): CardState {
    if reference !in c.checkings || c.checkings[reference].read then c
    else
      var flight := c.checkings[reference];
      c.(queries := c.queries + [flight.id], checkings := c.checkings[reference := flight.(read := true)])
  }

  function StatusStep(book: Book, c: CardState, reference: Reference, answer: StatusAnswer): (Book, CardState) {
    if reference !in c.checkings || (!c.checkings[reference].read && answer.Some?) then (book, c)
    else Reported(book, c, reference, answer, ReadStatus(answer), answer.Some? && Tells(answer.value, Ambiguous))
  }

  function Reported(
    book: Book, c: CardState, reference: Reference, answer: StatusAnswer, reading: StatusReading, ambiguous: bool)
    : (Book, CardState)
    requires reference in c.checkings
  {
    var flight := c.checkings[reference];
    var (book', records, reply) := AnswerChecking(book, c.records, flight, reading);
    (book',
     c.(records := records, checkings := c.checkings - {reference}, replies := c.replies + [(flight.id, reply)],
        unread := if flight.read then c.unread else c.unread + [flight.id],
        heard := if answer.Some? then c.heard + {(reference, answer.value)} else c.heard,
        ambiguous := if ambiguous then c.ambiguous + {flight.id} else c.ambiguous))
  }

  function DropCheckingStep(c: CardState, reference: Reference): CardState {
    if reference !in c.checkings then c
    else
      var flight := c.checkings[reference];
      c.(checkings := c.checkings - {reference}, unread := if flight.read then c.unread else c.unread + [flight.id])
  }

  function SessionStep(c: CardState, sessionKey: string): CardState {
    c.(records := DropSession(c.records, sessionKey))
  }

  // ------------------------------------------------------------------ the invariant

  function Reads(c: CardState, id: Id): nat { multiset(c.queries)[id] }

  /** Checks that were counted and never made. */
  function Unread(c: CardState, id: Id): nat { multiset(c.unread)[id] }

  /** In some answer to a status read the platform said this word of the payment. */
  ghost predicate Said(c: CardState, reference: Reference, word: PaymentWord) {
    exists outcome {:trigger Tells(outcome, word)} :: (reference, outcome) in c.heard && Tells(outcome, word)
  }

  /** A record nobody has used yet. */
  predicate Untouched(checkout: Checkout) { checkout == NewCheckout(checkout.key) }

  predicate Blank(checkout: Checkout) {
    checkout.page.None? && checkout.reference.None? && checkout.settled.None?
    && checkout.checks == 0 && !checkout.status.Open?
  }

  ghost predicate RecordOk(book: Book, c: CardState, id: Id)
    requires id in c.records
  {
    var e := c.records[id].body;
    && id != "" && id in book && book[id].owner == c.records[id].owner
    && e.key in c.minted && c.minted[e.key] == id
    && e.attempts <= MAX_CHECKOUT_ATTEMPTS && e.checks <= MAX_STATUS_CHECKS
    && (e.settled == Some(PaymentCompleted) ==> book[id].body.status == Consumed)
    && (if e.reference.None? then Blank(e) && (id in c.pages ==> Untouched(e)) else PageOk(c, id, e))
  }

  /** A record with a reference carries the one page ever opened for its quote. */
  ghost predicate PageOk(c: CardState, id: Id, e: Checkout) {
    && id in c.pages && e.page == Some(c.pages[id]) && e.reference == Some(c.pages[id].reference)
    && e.status == (if id in c.ambiguous then Failed else Open)
    && (id in c.ambiguous ==> e.failure == Some(Plain(PaymentAmbiguous)))
    && (e.settled.Some? ==> id !in c.ambiguous && Said(c, c.pages[id].reference, e.settled.value))
  }

  /** While a page is being asked for, nobody else writes the record: checks cannot find it. */
  ghost predicate OpeningOk(book: Book, c: CardState, id: Id)
    requires id in c.openings
  {
    var f, e := c.openings[id], c.openings[id].checkout;
    && id != "" && f.id == id && id in book && book[id].owner == f.owner && id !in c.pages
    && f.quote.terms == book[id].body.terms && book[id].body.terms.payment == PaymentMethod.Card
    && e.key in c.minted && c.minted[e.key] == id
    && 1 <= e.attempts <= MAX_CHECKOUT_ATTEMPTS && Blank(e) && !e.status.IsTerminal()
    && (if id in c.records then c.records[id] == Owned(f.owner, e) else book[id].body.status != Active)
    && c.ledger.SentUnder(id, e.key)
    && Count(c.ledger.sent, id) + (if f.sent then 0 else 1) <= e.attempts
  }

  /** While a payment is being checked its record is the check's own copy, or went with its session,
      perhaps to be followed by an untouched one; then the quote is dead. */
  ghost predicate CheckingOk(book: Book, c: CardState, reference: Reference)
    requires reference in c.checkings
  {
    var f := c.checkings[reference];
    var id, e := f.id, f.checkout;
    && id != "" && id in book && book[id].owner == f.owner
    && e.key in c.minted && c.minted[e.key] == id
    && PageOk(c, id, e) && id !in c.ambiguous && c.pages[id].reference == reference && e.settled.None?
    && e.attempts <= MAX_CHECKOUT_ATTEMPTS && 1 <= e.checks <= MAX_STATUS_CHECKS
    && (if id in c.records && !Untouched(c.records[id].body)
        then c.records[id] == Owned(f.owner, e) else book[id].body.status != Active)
    && Reads(c, id) + Unread(c, id) + (if f.read then 0 else 1) == e.checks
  }

  predicate BeingChecked(c: CardState, id: Id) {
    id in c.pages && c.pages[id].reference in c.checkings && c.checkings[c.pages[id].reference].id == id
  }

  ghost predicate IdleOk(book: Book, c: CardState, id: Id)
    requires id in book
  {
    && (id !in c.openings && book[id].body.status == Active ==>
          if id in c.records
          then c.ledger.SentUnder(id, c.records[id].body.key) && Count(c.ledger.sent, id) <= c.records[id].body.attempts
          else Count(c.ledger.sent, id) == 0 && id !in c.pages)
    && (!BeingChecked(c, id) && id in c.records && c.records[id].body.reference.Some? ==>
          Reads(c, id) + Unread(c, id) == c.records[id].body.checks)
    && (id in c.pages && id in c.records && c.records[id].body.reference.None? ==> book[id].body.status != Active)
  }

  ghost predicate QuoteOk(c: CardState, id: Id) {
    && c.ledger.OneKey(id) && Count(c.ledger.sent, id) <= MAX_CHECKOUT_ATTEMPTS
    && Reads(c, id) + Unread(c, id) <= MAX_STATUS_CHECKS
    && (id in c.ambiguous ==> id in c.pages)
    && (id !in c.pages ==> Reads(c, id) + Unread(c, id) == 0)
  }

  ghost predicate Local(book: Book, c: CardState, id: Id) {
    && (id in c.records ==> RecordOk(book, c, id))
    && (id in c.openings ==> OpeningOk(book, c, id))
    && (forall reference | reference in c.checkings && c.checkings[reference].id == id ::
          CheckingOk(book, c, reference))
    && (id in book ==> IdleOk(book, c, id))
    && (id in c.pages ==> id in book)
    && QuoteOk(c, id)
  }

  ghost predicate SentOk(book: Book, c: CardState, i: nat)
    requires i < |c.ledger.sent|
  {
    var r := c.ledger.sent[i];
    && r.quote in book && book[r.quote].body.terms.payment == PaymentMethod.Card
    && r.payload == PayloadOf(book[r.quote].body.terms)
    && r.key in c.minted && c.minted[r.key] == r.quote
  }

  /** Whoever is given a page or a link is given the quote's one page; whoever is given a status, a word
      the platform said of that payment. */
  ghost predicate ReplyOk(c: CardState, k: nat)
    requires k < |c.replies|
  {
    var (id, reply) := c.replies[k];
    match reply
    case PageGiven(page, _) => id in c.pages && c.pages[id] == page
    case StatusGiven(word, link, _) =>
      && id in c.pages && Said(c, c.pages[id].reference, word)
      && (link.Some? ==> link.value == c.pages[id].link)
    case Raised(_) => true
  }

  ghost predicate SendsOk(book: Book, c: CardState) {
    forall i {:trigger SentOk(book, c, i)} | 0 <= i < |c.ledger.sent| :: SentOk(book, c, i)
  }

  ghost predicate RepliesOk(c: CardState) {
    forall k {:trigger ReplyOk(c, k)} | 0 <= k < |c.replies| :: ReplyOk(c, k)
  }

  ghost predicate Inv(book: Book, c: CardState) {
    (forall id {:trigger Local(book, c, id)} :: Local(book, c, id)) && SendsOk(book, c) && RepliesOk(c)
  }

  lemma InitialInv()
    ensures Inv(map[], Initial())
  {
    forall id ensures Local(map[], Initial(), id) { assert Initial().ledger.SentUnder(id, ""); }
  }

  /** The book may move forward under card calls without disturbing them. */
  lemma BookStable(book: Book, book': Book, c: CardState)
    requires Inv(book, c) && Evolves(book, book')
    ensures Inv(book', c)
  {
    forall i | 0 <= i < |c.ledger.sent| ensures c.ledger.sent[i].quote in book.Keys { assert SentOk(book, c, i); }
    forall id ensures Local(book', c, id) {
      assert Local(book, c, id);
      if id !in book { CountOfUnknown(c.ledger.sent, book.Keys, id); }
    }
    forall i | 0 <= i < |c.ledger.sent| ensures SentOk(book', c, i) { assert SentOk(book, c, i); }
    forall k | 0 <= k < |c.replies| ensures ReplyOk(c, k) {}
  }

  // ------------------------------------------------------------------ steps that concern one quote

  ghost predicate SameChecking(c: CardState, c': CardState, id: Id, reference: Reference) {
    && (reference in c.checkings && c.checkings[reference].id != id ==>
          reference in c'.checkings && c'.checkings[reference] == c.checkings[reference])
    && (reference in c'.checkings && c'.checkings[reference].id != id ==>
          reference in c.checkings && c'.checkings[reference] == c.checkings[reference])
  }

  ghost predicate Concerns(book: Book, c: CardState, book': Book, c': CardState, id: Id) {
    && Evolves(book, book') && book'.Keys == book.Keys
    && (forall other | other != id :: SameAt(c.records, c'.records, other))
    && (forall other | other != id :: SameAt(c.openings, c'.openings, other))
    && (forall other | other != id :: SameAt(c.pages, c'.pages, other))
    && (forall reference :: SameChecking(c, c', id, reference))
    && (forall other | other != id :: other in c.ambiguous <==> other in c'.ambiguous)
    && (forall key | key in c.minted :: key in c'.minted && c'.minted[key] == c.minted[key])
    && c.heard <= c'.heard
    && (c'.queries == c.queries || c'.queries == c.queries + [id])
    && (c'.unread == c.unread || c'.unread == c.unread + [id])
    && Grows(c.ledger, c'.ledger) && |c'.ledger.sent| <= |c.ledger.sent| + 1
    && (|c.ledger.sent| < |c'.ledger.sent| ==> c'.ledger.sent[|c.ledger.sent|].quote == id)
  }

  lemma OthersAreKept(book: Book, c: CardState, book': Book, c': CardState, id: Id, other: Id)
    requires Local(book, c, other) && Concerns(book, c, book', c', id) && other != id
    ensures Local(book', c', other)
  {
    SendsOfOthers(c.ledger, c'.ledger, id, other);
    assert SameAt(c.records, c'.records, other) && SameAt(c.openings, c'.openings, other);
    assert SameAt(c.pages, c'.pages, other);
    assert Reads(c', other) == Reads(c, other) && Unread(c', other) == Unread(c, other);
    forall reference | reference in c'.checkings && c'.checkings[reference].id == other
      ensures CheckingOk(book', c', reference)
    {
      assert SameChecking(c, c', id, reference);
    }
    if other in c.pages { assert SameChecking(c, c', id, c.pages[other].reference); }
  }

  ghost predicate OpenedOnce(c: CardState, c': CardState) {
    forall id | id in c.pages :: id in c'.pages && c'.pages[id] == c.pages[id]
  }

  lemma OneQuoteStep(book: Book, c: CardState, book': Book, c': CardState, id: Id)
    requires Inv(book, c) && Concerns(book, c, book', c', id) && Local(book', c', id) && OpenedOnce(c, c')
    requires |c.ledger.sent| < |c'.ledger.sent| ==> SentOk(book', c', |c.ledger.sent|)
    requires c'.replies == c.replies ||
      (|c'.replies| == |c.replies| + 1 && c.replies <= c'.replies && ReplyOk(c', |c.replies|))
    ensures Inv(book', c')
  {
    forall other ensures Local(book', c', other) {
      assert Local(book, c, other);
      if other != id { OthersAreKept(book, c, book', c', id, other); }
    }
    forall i | 0 <= i < |c'.ledger.sent| ensures SentOk(book', c', i) {
      if i < |c.ledger.sent| {
        assert SentOk(book, c, i);
        assert c'.ledger.sent[i] == c.ledger.sent[i];
      }
    }
    forall k | 0 <= k < |c'.replies| ensures ReplyOk(c', k) {
      if k < |c.replies| { assert ReplyOk(c, k) && c'.replies[k] == c.replies[k]; }
    }
  }

  // ------------------------------------------------------------------ opening

  /** What opening comes to, whichever gate decided. */
  ghost predicate OpeningBegins(
    book: Book, records: Records, owner: Owner, id: Id, newKey: Key, after: Records, begun: Begun<Opening>)
  {
    match begun
    case Sending(f) =>
      && id != "" && id in book && book[id].owner == owner && book[id].body.status == Active
      && book[id].body.terms.payment == PaymentMethod.Card
      && 1 <= f.checkout.attempts <= MAX_CHECKOUT_ATTEMPTS
      && f == Opening(owner, id, f.checkout, book[id].body, false)
      && !f.checkout.status.IsTerminal() && after == records[id := Owned(owner, f.checkout)]
      && Find(records, owner, id).UnwrapOr(NewCheckout(newKey)) == f.checkout.(attempts := f.checkout.attempts - 1)
    case Settled(reply) =>
      && (after == records
          || (id in book && book[id].owner == owner && Find(records, owner, id).None?
              && id != "" && after == records[id := Owned(owner, NewCheckout(newKey))]))
      && !reply.StatusGiven?
      && (reply.PageGiven? ==>
            id in records && records[id].body.status.Open? && records[id].body.page == Some(reply.page))
  }

  lemma CreateBegins(book: Book, records: Records, owner: Owner, id: Id, now: int, newKey: Key)
    ensures var (after, begun) := Create(book, records, owner, id, now, newKey);
      OpeningBegins(book, records, owner, id, newKey, after, begun)
  {
  }

  lemma CreatedConcerns(
    book: Book, c: CardState, owner: Owner, id: Id, newKey: Key, after: Records, begun: Begun<Opening>)
    requires OpeningBegins(book, c.records, owner, id, newKey, after, begun)
    requires id !in c.openings && newKey !in c.minted
    ensures Concerns(book, c, book, Created(c, id, newKey, after, begun), id)
  {
  }

  lemma SentLocal(
    book: Book, c: CardState, owner: Owner, id: Id, newKey: Key, after: Records, begun: Begun<Opening>)
    requires OpeningBegins(book, c.records, owner, id, newKey, after, begun) && begun.Sending?
    requires Local(book, c, id) && id !in c.openings && newKey !in c.minted
    ensures Local(book, Created(c, id, newKey, after, begun), id)
  {
    CountZero(c.ledger.sent, id);
  }

  lemma ReplayedLocal(book: Book, c: CardState, id: Id, newKey: Key, reply: Reply)
    requires Local(book, c, id) && newKey !in c.minted
    ensures Local(book, Created(c, id, newKey, c.records, Settled(reply)), id)
  {
    var c' := Created(c, id, newKey, c.records, Settled(reply));
    forall reference | reference in c.checkings && c.checkings[reference].id == id
      ensures CheckingOk(book, c', reference)
    {
      assert CheckingOk(book, c, reference);
    }
  }

  lemma AcquiredLocal(book: Book, c: CardState, owner: Owner, id: Id, newKey: Key, reply: Reply)
    requires id != "" && id in book && book[id].owner == owner && Find(c.records, owner, id).None?
    requires Local(book, c, id) && id !in c.openings && newKey !in c.minted
    ensures Local(book, Created(c, id, newKey, c.records[id := Owned(owner, NewCheckout(newKey))], Settled(reply)), id)
  {
    CountZero(c.ledger.sent, id);
  }

  lemma SettledLocal(
    book: Book, c: CardState, owner: Owner, id: Id, newKey: Key, after: Records, begun: Begun<Opening>)
    requires OpeningBegins(book, c.records, owner, id, newKey, after, begun) && begun.Settled?
    requires Local(book, c, id) && id !in c.openings && newKey !in c.minted
    ensures Local(book, Created(c, id, newKey, after, begun), id)
  {
    if after == c.records {
      ReplayedLocal(book, c, id, newKey, begun.reply);
    } else {
      AcquiredLocal(book, c, owner, id, newKey, begun.reply);
    }
  }

  lemma CreatedReplies(
    book: Book, c: CardState, owner: Owner, id: Id, newKey: Key, after: Records, begun: Begun<Opening>)
    requires OpeningBegins(book, c.records, owner, id, newKey, after, begun) && Local(book, c, id)
    ensures var c' := Created(c, id, newKey, after, begun);
      c'.replies == c.replies ||
        (|c'.replies| == |c.replies| + 1 && c.replies <= c'.replies && ReplyOk(c', |c.replies|))
  {
  }

  lemma CreateKeepsInv(book: Book, c: CardState, owner: Owner, id: Id, now: int, newKey: Key)
    requires Inv(book, c)
    ensures Inv(book, CreateStep(book, c, owner, id, now, newKey))
  {
    if id !in c.openings && newKey !in c.minted {
      assert Local(book, c, id);
      var (after, begun) := Create(book, c.records, owner, id, now, newKey);
      CreateBegins(book, c.records, owner, id, now, newKey);
      CreatedConcerns(book, c, owner, id, newKey, after, begun);
      if begun.Sending? {
        SentLocal(book, c, owner, id, newKey, after, begun);
      } else {
        SettledLocal(book, c, owner, id, newKey, after, begun);
      }
      CreatedReplies(book, c, owner, id, newKey, after, begun);
      OneQuoteStep(book, c, book, CreateStep(book, c, owner, id, now, newKey), id);
    }
  }

  lemma AskLocal(book: Book, c: CardState, id: Id)
    requires Local(book, c, id) && id in c.openings && !c.openings[id].sent
    ensures var c' := AskStep(c, id);
      Local(book, c', id) && Concerns(book, c, book, c', id) && SentOk(book, c', |c.ledger.sent|)
  {
    var c', r := AskStep(c, id), RequestOf(c.openings[id]);
    CountAppend(c.ledger.sent, r, id);
    assert c'.ledger.SentUnder(id, r.key);
  }

  lemma AskKeepsInv(book: Book, c: CardState, id: Id)
    requires Inv(book, c)
    ensures Inv(book, AskStep(c, id))
  {
    if id in c.openings && !c.openings[id].sent {
      assert Local(book, c, id);
      AskLocal(book, c, id);
      OneQuoteStep(book, c, book, AskStep(c, id), id);
    }
  }

  lemma FiledConcerns(book: Book, c: CardState, id: Id, reading: PageReading)
    requires id in c.openings && c.openings[id].id == id
    ensures Concerns(book, c, book, Filed(c, id, reading), id)
  {
  }

  lemma FiledLocal(book: Book, c: CardState, id: Id, reading: PageReading)
    requires Local(book, c, id) && id in c.openings
    ensures var c' := Filed(c, id, reading); Local(book, c', id) && ReplyOk(c', |c.replies|)
  {
  }

  lemma OpenedKeepsInv(book: Book, c: CardState, id: Id, answer: PageAnswer)
    requires Inv(book, c)
    ensures Inv(book, OpenedStep(c, id, answer))
  {
    if id in c.openings && (c.openings[id].sent || answer.None?) {
      var reading := ReadPage(answer);
      assert Local(book, c, id);
      FiledLocal(book, c, id, reading);
      FiledConcerns(book, c, id, reading);
      OneQuoteStep(book, c, book, Filed(c, id, reading), id);
    }
  }

  lemma DropOpeningKeepsInv(book: Book, c: CardState, id: Id)
    requires Inv(book, c)
    ensures Inv(book, DropOpeningStep(c, id))
  {
    assert Local(book, c, id);
    var c' := DropOpeningStep(c, id);
    assert Local(book, c', id);
    OneQuoteStep(book, c, book, c', id);
  }

  // ------------------------------------------------------------------ checking

  /** What checking comes to, whichever gate decided. */
  ghost predicate CheckingBegins(
    records: Records, owner: Owner, reference: Reference, pick: Id, after: Records, begun: Begun<Checking>)
  {
    match begun
    case Sending(f) =>
      && pick in records && records[pick].owner == owner && records[pick].body.reference == Some(reference)
      && records[pick].body.settled.None?
      && records[pick].body.failure != Some(Plain(PaymentAmbiguous))
      && records[pick].body.checks < MAX_STATUS_CHECKS
      && f == Checking(owner, pick, records[pick].body.(checks := records[pick].body.checks + 1), false)
      && after == records[pick := Owned(owner, f.checkout)]
    case Settled(reply) =>
      && after == records && !reply.PageGiven?
      && (reply.StatusGiven? ==>
            && pick in records && records[pick].body.reference == Some(reference)
            && records[pick].body.settled == Some(reply.word) && reply.link.None?)
  }

  lemma CheckBegins(records: Records, owner: Owner, reference: Reference, pick: Id)
    ensures var (after, begun) := Check(records, owner, reference, pick);
      CheckingBegins(records, owner, reference, pick, after, begun)
  {
  }

  lemma CheckedConcerns(
    book: Book, c: CardState, owner: Owner, reference: Reference, pick: Id, after: Records, begun: Begun<Checking>)
    requires CheckingBegins(c.records, owner, reference, pick, after, begun) && reference !in c.checkings
    ensures Concerns(book, c, book, Checked(c, reference, pick, after, begun), pick)
  {
  }

  lemma CheckedLocal(
    book: Book, c: CardState, owner: Owner, reference: Reference, pick: Id, after: Records, begun: Begun<Checking>)
    requires CheckingBegins(c.records, owner, reference, pick, after, begun)
    requires Local(book, c, pick) && reference !in c.checkings
    ensures Local(book, Checked(c, reference, pick, after, begun), pick)
  {
  }

  lemma CheckedReplies(
    book: Book, c: CardState, owner: Owner, reference: Reference, pick: Id, after: Records, begun: Begun<Checking>)
    requires CheckingBegins(c.records, owner, reference, pick, after, begun) && Local(book, c, pick)
    ensures var c' := Checked(c, reference, pick, after, begun);
      c'.replies == c.replies ||
        (|c'.replies| == |c.replies| + 1 && c.replies <= c'.replies && ReplyOk(c', |c.replies|))
  {
  }

  lemma CheckKeepsInv(book: Book, c: CardState, owner: Owner, reference: Reference, pick: Id)
    requires Inv(book, c)
    ensures Inv(book, CheckStep(c, owner, reference, pick))
  {
    if CheckStep(c, owner, reference, pick) != c {
      assert Local(book, c, pick);
      var (after, begun) := Check(c.records, owner, reference, pick);
      CheckBegins(c.records, owner, reference, pick);
      CheckedConcerns(book, c, owner, reference, pick, after, begun);
      CheckedLocal(book, c, owner, reference, pick, after, begun);
      CheckedReplies(book, c, owner, reference, pick, after, begun);
      OneQuoteStep(book, c, book, CheckStep(c, owner, reference, pick), pick);
    }
  }

  lemma ReadConcerns(book: Book, c: CardState, reference: Reference)
    requires reference in c.checkings && !c.checkings[reference].read
    ensures Concerns(book, c, book, ReadStep(c, reference), c.checkings[reference].id)
  {
  }

  lemma ReadLocal(book: Book, c: CardState, reference: Reference)
    requires reference in c.checkings && !c.checkings[reference].read && Local(book, c, c.checkings[reference].id)
    ensures Local(book, ReadStep(c, reference), c.checkings[reference].id)
  {
  }

  lemma ReadKeepsInv(book: Book, c: CardState, reference: Reference)
    requires Inv(book, c)
    ensures Inv(book, ReadStep(c, reference))
  {
    if reference in c.checkings && !c.checkings[reference].read {
      var id := c.checkings[reference].id;
      assert Local(book, c, id);
      ReadLocal(book, c, reference);
      ReadConcerns(book, c, reference);
      OneQuoteStep(book, c, book, ReadStep(c, reference), id);
    }
  }

  /** What a reading must have to do with its answer. */
  ghost predicate Faithful(answer: StatusAnswer, reading: StatusReading, ambiguous: bool) {
    && (reading.Word? ==> answer.Some? && Tells(answer.value, reading.word))
    && (ambiguous <==> reading == Word(Ambiguous))
  }

  lemma StatusesAreFaithful(answer: StatusAnswer)
    ensures Faithful(answer, ReadStatus(answer), answer.Some? && Tells(answer.value, Ambiguous))
  {
    var reading := ReadStatus(answer);
    if reading.Word? { StatusIsReadOnlyFromTheWord(answer, reading.word); }
    StatusIsReadOnlyFromTheWord(answer, Ambiguous);
  }

  lemma ReportedConcerns(
    book: Book, c: CardState, reference: Reference, answer: StatusAnswer, reading: StatusReading, ambiguous: bool)
    requires reference in c.checkings
    ensures var (book', c') := Reported(book, c, reference, answer, reading, ambiguous);
      Concerns(book, c, book', c', c.checkings[reference].id)
  {
  }

  lemma ReportedLocal(
    book: Book, c: CardState, reference: Reference, answer: StatusAnswer, reading: StatusReading, ambiguous: bool)
    requires reference in c.checkings && Local(book, c, c.checkings[reference].id)
    requires Faithful(answer, reading, ambiguous) && (c.checkings[reference].read || reading.NoWord?)
    ensures var (book', c') := Reported(book, c, reference, answer, reading, ambiguous);
      Local(book', c', c.checkings[reference].id)
  {
  }

  lemma ReportedReplies(
    book: Book, c: CardState, reference: Reference, answer: StatusAnswer, reading: StatusReading, ambiguous: bool)
    requires reference in c.checkings && Local(book, c, c.checkings[reference].id)
    requires Faithful(answer, reading, ambiguous)
    ensures ReplyOk(Reported(book, c, reference, answer, reading, ambiguous).1, |c.replies|)
  {
  }

  lemma StatusKeepsInv(book: Book, c: CardState, reference: Reference, answer: StatusAnswer)
    requires Inv(book, c)
    ensures var (book', c') := StatusStep(book, c, reference, answer);
      Inv(book', c') && Evolves(book, book') && book'.Keys == book.Keys
  {
    if reference in c.checkings && (c.checkings[reference].read || answer.None?) {
      var reading, ambiguous := ReadStatus(answer), answer.Some? && Tells(answer.value, Ambiguous);
      var (book', c') := Reported(book, c, reference, answer, reading, ambiguous);
      var id := c.checkings[reference].id;
      assert Local(book, c, id);
      StatusesAreFaithful(answer);
      ReportedConcerns(book, c, reference, answer, reading, ambiguous);
      ReportedLocal(book, c, reference, answer, reading, ambiguous);
      ReportedReplies(book, c, reference, answer, reading, ambiguous);
      OneQuoteStep(book, c, book', c', id);
    }
  }

  lemma DropCheckingKeepsInv(book: Book, c: CardState, reference: Reference)
    requires Inv(book, c)
    ensures Inv(book, DropCheckingStep(c, reference))
  {
    if reference in c.checkings {
      var id := c.checkings[reference].id;
      assert Local(book, c, id);
      var c' := DropCheckingStep(c, reference);
      assert Local(book, c', id);
      OneQuoteStep(book, c, book, c', id);
    } else {
      assert DropCheckingStep(c, reference) == c;
    }
  }

  /** A session's checkouts may go once none of its quotes is active. */
  lemma SessionKeepsInv(book: Book, c: CardState, sessionKey: string)
    requires Inv(book, c) && ActiveOfSession(book, sessionKey) == {}
    ensures Inv(book, SessionStep(c, sessionKey))
  {
    var c' := SessionStep(c, sessionKey);
    forall id ensures Local(book, c', id) {
      assert Local(book, c, id);
      assert id !in ActiveOfSession(book, sessionKey);
    }
    forall i | 0 <= i < |c.ledger.sent| ensures SentOk(book, c', i) { assert SentOk(book, c, i); }
    forall k | 0 <= k < |c.replies| ensures ReplyOk(c', k) { assert ReplyOk(c, k); }
  }

  // ------------------------------------------------------------------ whole runs

  datatype CardEvent =
    | CreateEvent(owner: Owner, id: Id, now: int, newKey: Key)
    | AskEvent(id: Id)
    | OpenedEvent(id: Id, page: PageAnswer)
    | DropOpeningEvent(id: Id)
    | CheckEvent(owner: Owner, reference: Reference, pick: Id)
    | ReadEvent(reference: Reference)
    | StatusEvent(reference: Reference, status: StatusAnswer)
    | DropCheckingEvent(reference: Reference)

  function Apply(book: Book, c: CardState, event: CardEvent): (Book, CardState) {
    match event
    case CreateEvent(owner, id, now, newKey) => (book, CreateStep(book, c, owner, id, now, newKey))
    case AskEvent(id) => (book, AskStep(c, id))
    case OpenedEvent(id, answer) => (book, OpenedStep(c, id, answer))
    case DropOpeningEvent(id) => (book, DropOpeningStep(c, id))
    case CheckEvent(owner, reference, pick) => (book, CheckStep(c, owner, reference, pick))
    case ReadEvent(reference) => (book, ReadStep(c, reference))
    case StatusEvent(reference, answer) => StatusStep(book, c, reference, answer)
    case DropCheckingEvent(reference) => (book, DropCheckingStep(c, reference))
  }

  lemma EventKeepsInv(book: Book, c: CardState, event: CardEvent)
    requires Inv(book, c)
    ensures var (book', c') := Apply(book, c, event); Inv(book', c') && Evolves(book, book') && book'.Keys == book.Keys
  {
    match event
    case CreateEvent(owner, id, now, newKey) => CreateKeepsInv(book, c, owner, id, now, newKey);
    case AskEvent(id) => AskKeepsInv(book, c, id);
    case OpenedEvent(id, answer) => OpenedKeepsInv(book, c, id, answer);
    case DropOpeningEvent(id) => DropOpeningKeepsInv(book, c, id);
    case CheckEvent(owner, reference, pick) => CheckKeepsInv(book, c, owner, reference, pick);
    case ReadEvent(reference) => ReadKeepsInv(book, c, reference);
    case StatusEvent(reference, answer) => StatusKeepsInv(book, c, reference, answer);
    case DropCheckingEvent(reference) => DropCheckingKeepsInv(book, c, reference);
  }

  function ApplyAll(book: Book, c: CardState, events: seq<CardEvent>): (Book, CardState)
    decreases |events|
  {
    if events == [] then (book, c)
    else var (book', c') := Apply(book, c, events[0]); ApplyAll(book', c', events[1..])
  }

  /** A page opened. */
  function OpenedPage(owner: Owner, answer: PageAnswer): seq<CardEvent> {
    [CreateEvent(owner, "Q", 1, "k")] + [AskEvent("Q")] + [OpenedEvent("Q", answer)]
  }

  /** Then a check that is cut off before its status read. */
  function DroppedCheck(owner: Owner, page: Page, answer: PageAnswer): seq<CardEvent> {
    OpenedPage(owner, answer) + [CheckEvent(owner, page.reference, "Q")] + [DropCheckingEvent(page.reference)]
  }

  lemma PageIsOpened(book: Book, owner: Owner, page: Page, answer: PageAnswer)
    requires "Q" in book && book["Q"].owner == owner && book["Q"].body.Usable(1)
    requires book["Q"].body.terms.payment == PaymentMethod.Card && ReadPage(answer) == Opened(page, false)
    ensures var c := OpenedStep(AskStep(CreateStep(book, Initial(), owner, "Q", 1, "k"), "Q"), "Q", answer);
      && c.records == map["Q" := Owned(owner, Checkout("k", 1, 0, Open, Some(page), Some(page.reference), None, None))]
      && c.checkings == map[] && c.queries == [] && c.unread == []
  {
    var c0 := Initial();
    AsksExactlyWhen(book, c0.records, owner, "Q", 1, "k");
    var c1 := CreateStep(book, c0, owner, "Q", 1, "k");
    assert c1.openings["Q"].checkout == Checkout("k", 1, 0, Pending, None, None, None, None);
    var c2 := AskStep(c1, "Q");
    assert c2.openings["Q"].sent && c2.openings["Q"].owner == owner && c2.openings["Q"].id == "Q";
  }

  lemma CheckIsDropped(c: CardState, owner: Owner, page: Page)
    requires c.records ==
      map["Q" := Owned(owner, Checkout("k", 1, 0, Open, Some(page), Some(page.reference), None, None))]
    requires c.checkings == map[] && c.queries == [] && page.reference != ""
    ensures var c' := DropCheckingStep(CheckStep(c, owner, page.reference, "Q"), page.reference);
      && "Q" in c'.records && c'.records["Q"].body.checks == 1 && c'.records["Q"].body.reference.Some?
      && c'.checkings == map[] && c'.queries == []
  {
    assert "Q" in Matches(c.records, page.reference);
  }

  lemma {:induction false} ApplyAppend(book: Book, c: CardState, before: seq<CardEvent>, after: seq<CardEvent>)
    ensures var (book', c') := ApplyAll(book, c, before);
      ApplyAll(book, c, before + after) == ApplyAll(book', c', after)
    decreases |before|
  {
    if before == [] {
      assert before + after == after;
    } else {
      var (book', c') := Apply(book, c, before[0]);
      assert (before + after)[1..] == before[1..] + after;
      ApplyAppend(book', c', before[1..], after);
    }
  }

  lemma OneEvent(book: Book, c: CardState, event: CardEvent)
    ensures ApplyAll(book, c, [event]) == Apply(book, c, event)
  {
    assert [event][1..] == [];
    var end := Apply(book, c, event);
    assert ApplyAll(end.0, end.1, []) == end;
  }

  lemma Then(book: Book, c: CardState, c1: CardState, before: seq<CardEvent>, event: CardEvent)
    requires ApplyAll(book, c, before) == (book, c1)
    ensures ApplyAll(book, c, before + [event]) == Apply(book, c1, event)
  {
    ApplyAppend(book, c, before, [event]);
    OneEvent(book, c1, event);
  }

  /** The state this leaves. */
  function AfterDroppedCheck(book: Book, owner: Owner, page: Page, answer: PageAnswer): CardState {
    var c := OpenedStep(AskStep(CreateStep(book, Initial(), owner, "Q", 1, "k"), "Q"), "Q", answer);
    DropCheckingStep(CheckStep(c, owner, page.reference, "Q"), page.reference)
  }

  lemma OpenedPageRuns(book: Book, owner: Owner, answer: PageAnswer)
    ensures ApplyAll(book, Initial(), OpenedPage(owner, answer))
      == (book, OpenedStep(AskStep(CreateStep(book, Initial(), owner, "Q", 1, "k"), "Q"), "Q", answer))
  {
    var c1 := CreateStep(book, Initial(), owner, "Q", 1, "k");
    OneEvent(book, Initial(), CreateEvent(owner, "Q", 1, "k"));
    Then(book, Initial(), c1, [CreateEvent(owner, "Q", 1, "k")], AskEvent("Q"));
    Then(book, Initial(), AskStep(c1, "Q"),
         [CreateEvent(owner, "Q", 1, "k")] + [AskEvent("Q")], OpenedEvent("Q", answer));
  }

  lemma DroppedCheckRuns(book: Book, owner: Owner, page: Page, answer: PageAnswer)
    ensures ApplyAll(book, Initial(), DroppedCheck(owner, page, answer)).1
      == AfterDroppedCheck(book, owner, page, answer)
  {
    var c3 := OpenedStep(AskStep(CreateStep(book, Initial(), owner, "Q", 1, "k"), "Q"), "Q", answer);
    var opening := OpenedPage(owner, answer);
    OpenedPageRuns(book, owner, answer);
    CheckRuns(book, c3, opening, owner, page);
  }

  lemma CheckRuns(book: Book, c3: CardState, before: seq<CardEvent>, owner: Owner, page: Page)
    requires ApplyAll(book, Initial(), before) == (book, c3)
    ensures ApplyAll(book, Initial(), before + [CheckEvent(owner, page.reference, "Q")]
      + [DropCheckingEvent(page.reference)])
      == (book, DropCheckingStep(CheckStep(c3, owner, page.reference, "Q"), page.reference))
  {
    var check, drop := CheckEvent(owner, page.reference, "Q"), DropCheckingEvent(page.reference);
    Then(book, Initial(), c3, before, check);
    Then(book, Initial(), CheckStep(c3, owner, page.reference, "Q"), before + [check], drop);
  }

  lemma DroppedCheckIsUnread(book: Book, owner: Owner, page: Page, answer: PageAnswer)
    requires "Q" in book && book["Q"].owner == owner && book["Q"].body.Usable(1)
    requires book["Q"].body.terms.payment == PaymentMethod.Card && ReadPage(answer) == Opened(page, false)
    requires page.reference != ""
    ensures var c := ApplyAll(book, Initial(), DroppedCheck(owner, page, answer)).1;
      && "Q" in c.records && c.records["Q"].body.checks == 1 && c.records["Q"].body.reference.Some?
      && c.checkings == map[] && c.queries == []
  {
    DroppedCheckRuns(book, owner, page, answer);
    PageIsOpened(book, owner, page, answer);
    var c := OpenedStep(AskStep(CreateStep(book, Initial(), owner, "Q", 1, "k"), "Q"), "Q", answer);
    CheckIsDropped(c, owner, page);
  }

  /** Every page was opened under a reference that can be asked about. */
  ghost predicate Trackable(c: CardState) { forall id | id in c.pages :: PlainSegment(c.pages[id].reference) }

  lemma EventKeepsTrackable(book: Book, c: CardState, event: CardEvent)
    requires Trackable(c)
    ensures Trackable(Apply(book, c, event).1)
  {
    if event.OpenedEvent? && event.page.Some? { PagesAreUsable(event.page.value); }
  }

  /** At most three requests for a page, all under one key, and twenty status reads, for any quote. */
  lemma RequestsAreBounded(book: Book, c: CardState, id: Id)
    requires Inv(book, c)
    ensures Count(c.ledger.sent, id) <= MAX_CHECKOUT_ATTEMPTS && c.ledger.OneKey(id)
    ensures Reads(c, id) <= MAX_STATUS_CHECKS
  {
    assert Local(book, c, id);
  }

  /** While a call is suspended the stored record is the copy it will write back from, or is gone with
      its session, or was minted afterwards for a quote already dead and never used: so what a call
      writes never undoes what another wrote. */
  lemma NoUpdateIsLost(book: Book, c: CardState, id: Id, reference: Reference)
    requires Inv(book, c) && id in c.records && !Untouched(c.records[id].body)
    ensures id in c.openings ==> c.records[id] == Owned(c.openings[id].owner, c.openings[id].checkout)
    ensures reference in c.checkings && c.checkings[reference].id == id ==>
      c.records[id] == Owned(c.checkings[reference].owner, c.checkings[reference].checkout)
    ensures id in c.openings ==> !(reference in c.checkings && c.checkings[reference].id == id)
  {
    assert Local(book, c, id);
  }

  function LinkOf(reply: Reply): Option<string> {
    match reply
    case PageGiven(page, _) => Some(page.link)
    case StatusGiven(_, link, _) => link
    case Raised(_) => None
  }

  /** However often a caller asks, for one quote there is one link. */
  lemma OneLinkPerQuote(book: Book, c: CardState, j: nat, k: nat)
    requires Inv(book, c) && j < |c.replies| && k < |c.replies| && c.replies[j].0 == c.replies[k].0
    requires LinkOf(c.replies[j].1).Some? && LinkOf(c.replies[k].1).Some?
    ensures LinkOf(c.replies[j].1) == LinkOf(c.replies[k].1)
  {
    assert ReplyOk(c, j) && ReplyOk(c, k);
  }

  /** No status is told, that money arrived least of all, but one the platform said of the quote's own
      payment. */
  lemma NoFalseCharge(book: Book, c: CardState, k: nat)
    requires Inv(book, c) && k < |c.replies|
    ensures var (id, reply) := c.replies[k];
      reply.StatusGiven? ==> id in c.pages && Said(c, c.pages[id].reference, reply.word)
  {
    assert ReplyOk(c, k);
  }

  /** Every check counted on a record with a payment was made, is about to be, or ended before its
      read: so the reads are as many as the checks, unless one is under way, exactly where none ended
      so. */
  lemma ReadsMatchChecksExactlyWhen(book: Book, c: CardState, id: Id)
    requires Inv(book, c) && id in c.records && c.records[id].body.reference.Some?
    ensures var checks := c.records[id].body.checks;
      if BeingChecked(c, id)
      then Reads(c, id) + Unread(c, id) + (if c.checkings[c.pages[id].reference].read then 0 else 1) == checks
      else Reads(c, id) + Unread(c, id) == checks && (Reads(c, id) == checks <==> id !in c.unread)
  {
    assert Local(book, c, id);
  }

  lemma AskingIsForAnother(book: Book, c: CardState, id: Id, other: Id)
    requires Local(book, c, id) && Local(book, c, other) && id !in c.openings
    ensures Count(AskStep(c, other).ledger.sent, id) == Count(c.ledger.sent, id)
  {
    if other in c.openings { CountAppend(c.ledger.sent, RequestOf(c.openings[other]), id); }
  }

  lemma OnlyTwoEventsAsk(book: Book, c: CardState, event: CardEvent)
    ensures var c' := Apply(book, c, event).1;
      && c.ambiguous <= c'.ambiguous
      && (!event.AskEvent? ==> c'.ledger == c.ledger)
      && (!event.ReadEvent? ==> c'.queries == c.queries)
  {
  }

  /** After an ambiguous status nothing is ever asked about the quote again, by either route. */
  lemma AmbiguityIsFinal(book: Book, c: CardState, event: CardEvent, id: Id)
    requires Inv(book, c) && id in c.ambiguous
    ensures var c' := Apply(book, c, event).1;
      id in c'.ambiguous && Count(c'.ledger.sent, id) == Count(c.ledger.sent, id) && Reads(c', id) == Reads(c, id)
  {
    OnlyTwoEventsAsk(book, c, event);
    assert Local(book, c, id);
    if event.AskEvent? {
      assert Local(book, c, event.id);
      AskingIsForAnother(book, c, id, event.id);
    }
  }

  /** The settled record is as it was, and was not read again. */
  ghost predicate Settles(c: CardState, c': CardState, id: Id)
    requires id in c.records
  {
    id in c'.records && c'.records[id] == c.records[id] && Reads(c', id) == Reads(c, id)
  }

  lemma FiledKeepsSettled(book: Book, c: CardState, other: Id, reading: PageReading, id: Id)
    requires Local(book, c, other) && other in c.openings && id in c.records && c.records[id].body.settled.Some?
    ensures Settles(c, Filed(c, other, reading), id)
  {
  }

  lemma ReportedKeepsSettled(
    book: Book, c: CardState, reference: Reference, answer: StatusAnswer, reading: StatusReading,
    ambiguous: bool, id: Id)
    requires reference in c.checkings && Local(book, c, id) && id in c.records && c.records[id].body.settled.Some?
    ensures Settles(c, Reported(book, c, reference, answer, reading, ambiguous).1, id)
  {
  }

  lemma OpenedKeepsSettled(book: Book, c: CardState, other: Id, answer: PageAnswer, id: Id)
    requires Local(book, c, other) && id in c.records && c.records[id].body.settled.Some?
    ensures Settles(c, OpenedStep(c, other, answer), id)
  {
    if other in c.openings { FiledKeepsSettled(book, c, other, ReadPage(answer), id); }
  }

  lemma StatusKeepsSettled(book: Book, c: CardState, reference: Reference, answer: StatusAnswer, id: Id)
    requires Local(book, c, id) && id in c.records && c.records[id].body.settled.Some?
    ensures Settles(c, StatusStep(book, c, reference, answer).1, id)
  {
    if reference in c.checkings {
      ReportedKeepsSettled(
        book, c, reference, answer, ReadStatus(answer), answer.Some? && Tells(answer.value, Ambiguous), id);
    }
  }

  lemma CreateKeepsSettled(book: Book, c: CardState, owner: Owner, other: Id, now: int, newKey: Key, id: Id)
    requires Local(book, c, id) && id in c.records && c.records[id].body.settled.Some?
    ensures Settles(c, CreateStep(book, c, owner, other, now, newKey), id)
  {
    CreateBegins(book, c.records, owner, other, now, newKey);
  }

  lemma CheckKeepsSettled(book: Book, c: CardState, owner: Owner, reference: Reference, pick: Id, id: Id)
    requires Local(book, c, id) && id in c.records && c.records[id].body.settled.Some?
    ensures Settles(c, CheckStep(c, owner, reference, pick), id) && Settles(c, ReadStep(c, reference), id)
  {
    CheckBegins(c.records, owner, reference, pick);
  }

  /** A settled payment is answered from the record, by the same word, until its session ends. */
  lemma SettledStays(book: Book, c: CardState, event: CardEvent, id: Id)
    requires Inv(book, c) && id in c.records && c.records[id].body.settled.Some?
    ensures Settles(c, Apply(book, c, event).1, id)
  {
    assert Local(book, c, id);
    match event {
      case CreateEvent(owner, other, now, newKey) => CreateKeepsSettled(book, c, owner, other, now, newKey, id);
      case OpenedEvent(other, answer) =>
        assert Local(book, c, other);
        OpenedKeepsSettled(book, c, other, answer, id);
      case CheckEvent(owner, reference, pick) => CheckKeepsSettled(book, c, owner, reference, pick, id);
      case ReadEvent(reference) => CheckKeepsSettled(book, c, book[id].owner, reference, id, id);
      case StatusEvent(reference, answer) => StatusKeepsSettled(book, c, reference, answer, id);
      case _ =>
    }
  }
}
