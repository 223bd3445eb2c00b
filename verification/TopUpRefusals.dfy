/** What a recorded refusal of a top-up is worth: over every run against a platform that keeps its
    promises, the exact answers on which it proves that nothing was charged. */
module TopUpRefusals {
  import opened Strings
  import opened Stores
  import opened Money
  import opened Quotes
  import opened Ledgers
  import opened Outcomes
  import opened TopUp
  import opened TopUpSafety

  ghost function ApplyAll(book: Book, t: TopUpState, events: seq<TopUpEvent>): (Book, TopUpState)
    decreases |events|
  {
    if events == [] then (book, t)
    else var (book', t') := Apply(book, t, events[0]); ApplyAll(book', t', events[1..])
  }

  lemma {:induction false} ApplyAppend(book: Book, t: TopUpState, before: seq<TopUpEvent>, after: seq<TopUpEvent>)
    ensures var (book', t') := ApplyAll(book, t, before);
      ApplyAll(book, t, before + after) == ApplyAll(book', t', after)
    decreases |before|
  {
    if before == [] {
      assert before + after == after;
    } else {
      var (book', t') := Apply(book, t, before[0]);
      assert (before + after)[1..] == before[1..] + after;
      ApplyAppend(book', t', before[1..], after);
    }
  }

  lemma {:induction false} ApplyAllKeepsInv(book: Book, t: TopUpState, events: seq<TopUpEvent>)
    requires Inv(book, t) && Filings(t)
    ensures var (book', t') := ApplyAll(book, t, events); Inv(book', t') && Filings(t')
    decreases |events|
  {
    if events != [] {
      var (book', t') := Apply(book, t, events[0]);
      EventKeepsInv(book, t, events[0]);
      EventKeepsFilings(book, t, events[0]);
      ApplyAllKeepsInv(book', t', events[1..]);
    }
  }

  /** No promise of the platform's has been broken, of any quote. */
  ghost predicate Honest(t: TopUpState) { t.overclaimed == {} && t.misrefused == {} }

  const KEPT := Kept(true, true)

  ghost predicate Reaches(start: Book, book: Book, t: TopUpState) {
    exists events :: ApplyAll(start, Initial(), events) == (book, t)
  }

  lemma StepOn(start: Book, book: Book, t: TopUpState, event: TopUpEvent) returns (t': TopUpState)
    requires Reaches(start, book, t)
    ensures t' == Apply(book, t, event).1 && Reaches(start, Apply(book, t, event).0, t')
  {
    var events :| ApplyAll(start, Initial(), events) == (book, t);
    t' := Apply(book, t, event).1;
    ApplyAppend(start, Initial(), events, [event]);
    assert [event][1..] == [];
    var end := Apply(book, t, event);
    assert ApplyAll(end.0, end.1, []) == end;
  }

  // ------------------------------------------------------------------ a run that goes wrong

  /** One prepared top-up, not yet expired, its amount echoed and its facts standing. */
  ghost predicate Prepared(book: Book, owner: Owner, echo: string, facts: Facts) {
    && "Q" in book && book["Q"].owner == owner && book["Q"].body.Usable(1)
    && book["Q"].body.terms.payment == PaymentMethod.Wallet && VoucherStands(book["Q"].body.terms, echo, facts)
  }

  /** The one request is under way and nothing is decided. */
  ghost predicate UnderWay(t: TopUpState, facts: Facts) {
    && Honest(t) && "Q" in t.flights && t.flights["Q"].id == "Q" && t.flights["Q"].stage == Sent(facts, 0)
    && |t.ledger.sent| == 1 && t.ledger.sent[0].quote == "Q" && t.ledger.verdicts == map[] && !t.ledger.keyed
  }

  /** The confirmation has passed its gates and nothing was sent. */
  ghost predicate Waiting(t: TopUpState, terms: Terms) {
    && Honest(t) && t.ledger == Initial().ledger && "Q" in t.flights && t.flights["Q"].id == "Q"
    && t.flights["Q"].stage == Revalidating && t.flights["Q"].quote.terms == terms
  }

  lemma Begins(book: Book, owner: Owner, echo: string, facts: Facts)
    requires Prepared(book, owner, echo, facts)
    ensures Waiting(ConfirmStep(book, Initial(), true, owner, "Q", 1, echo), book["Q"].body.terms)
  {
    BeginsExactlyWhen(book, map[], true, owner, "Q", 1, echo);
    ConfirmBeginsSo(book, map[], true, owner, "Q", 1, echo);
  }

  lemma Leaves(t: TopUpState, terms: Terms, facts: Facts)
    requires Waiting(t, terms) && Stands(terms, facts)
    ensures UnderWay(SendStep(RevalidateStep(t, "Q", facts), "Q"), facts)
  {
    RevalidationPassesIffFactsStand(terms, facts);
  }

  lemma Confirms(start: Book, owner: Owner, echo: string, facts: Facts) returns (t: TopUpState)
    requires Prepared(start, owner, echo, facts)
    ensures Reaches(start, start, t) && Waiting(t, start["Q"].body.terms)
  {
    assert ApplyAll(start, Initial(), []) == (start, Initial());
    Begins(start, owner, echo, facts);
    t := StepOn(start, start, Initial(), ConfirmEvent(true, owner, "Q", 1, echo));
  }

  lemma Sends(start: Book, t: TopUpState, terms: Terms, facts: Facts) returns (t': TopUpState)
    requires Reaches(start, start, t) && Waiting(t, terms) && Stands(terms, facts)
    ensures Reaches(start, start, t') && UnderWay(t', facts)
  {
    Leaves(t, terms, facts);
    var t1 := StepOn(start, start, t, RevalidateEvent("Q", facts));
    t' := StepOn(start, start, t1, SendEvent("Q"));
  }

  lemma FiledFrom(book: Book, t: TopUpState, o: Outcome<Option<Result>>, reading: Reading)
    requires Honest(t) && "Q" in t.flights && t.flights["Q"].id == "Q" && IsFinal(reading)
    requires |t.ledger.sent| == 1 && t.ledger.sent[0].quote == "Q" && t.ledger.Says(0, Bought)
    ensures ChargedThough(Recorded(book, t, "Q", Some(o), reading, KEPT).1, o)
  {
    var t' := Recorded(book, t, "Q", Some(o), reading, KEPT).1;
    assert t'.ledger.Says(0, Bought);
    assert t'.ledger.SlotOf(0) in t'.ledger.Debits("Q");
  }

  /** A refusal filed on an answer the platform promised nothing of, for a top-up it made. */
  lemma Filed(book: Book, t: TopUpState, facts: Facts, o: Outcome<Option<Result>>)
    requires UnderWay(t, facts) && IsFinal(ReadTopup(o)) && !Refuses(o)
    ensures ChargedThough(AnswerStep(book, DecideStep(t, 0, Bought), "Q", Some(o)).1, o)
  {
    ReadingsFollowTheAnswer(o);
    var t1 := DecideStep(t, 0, Bought);
    assert t1.ledger.Says(0, Bought);
    FiledFrom(book, t1, o, ReadTopup(o));
  }

  lemma RoundEnds(start: Book, t: TopUpState, verdict: Verdict, answer: TopUpAnswer)
    returns (book: Book, t': TopUpState)
    requires Reaches(start, start, t)
    ensures Reaches(start, book, t') && t' == AnswerStep(start, DecideStep(t, 0, verdict), "Q", answer).1
  {
    var t1 := StepOn(start, start, t, DecideEvent(0, verdict));
    t' := StepOn(start, start, t1, AnswerEvent("Q", answer));
    book := Apply(start, t1, AnswerEvent("Q", answer)).0;
  }

  lemma ChargedRun(start: Book, owner: Owner, echo: string, facts: Facts, o: Outcome<Option<Result>>)
    returns (book: Book, t: TopUpState)
    requires Prepared(start, owner, echo, facts) && IsFinal(ReadTopup(o)) && !Refuses(o)
    ensures Reaches(start, book, t) && ChargedThough(t, o)
  {
    var t0 := Confirms(start, owner, echo, facts);
    var t1 := Sends(start, t0, start["Q"].body.terms, facts);
    Filed(start, t1, facts, o);
    book, t := RoundEnds(start, t1, Bought, Some(o));
  }

  // ------------------------------------------------------------------ exactly when none does

  /** Recorded as refused, on this answer, with every refusal reported of the quote one that was. */
  ghost predicate FiledOn(t: TopUpState, id: Id, o: Outcome<Option<Result>>) {
    && id !in t.misrefused && id in t.records && t.records[id].body.status.Failed?
    && id in t.refusals && t.refusals[id] == o
  }

  ghost predicate ChargedThough(t: TopUpState, o: Outcome<Option<Result>>) {
    Honest(t) && FiledOn(t, "Q", o) && t.ledger.Debits("Q") != {}
  }

  ghost predicate RefusalHolds(book: Book, events: seq<TopUpEvent>, id: Id, o: Outcome<Option<Result>>) {
    var t := ApplyAll(book, Initial(), events).1;
    FiledOn(t, id, o) ==> t.ledger.Debits(id) == {}
  }

  /** In every run, over any book of quotes, in which the platform reports no refusal of the quote but its
      own: a top-up recorded as refused, on this answer, was never charged. */
  ghost predicate RefusalIsProof(o: Outcome<Option<Result>>) {
    forall book, events, id :: RefusalHolds(book, events, id, o)
  }

  /** Of all answers, a recorded refusal that rests on this one proves that nothing was charged exactly
      where none is ever recorded on it, or it could be read. */
  lemma RefusalIsProofExactlyWhen(o: Outcome<Option<Result>>)
    ensures RefusalIsProof(o) <==> !IsFiled(o) || o.Parsed()
  {
    RefusalsAreFiledExactlyWhen(o);
    if !IsFiled(o) || o.Parsed() {
      forall book: Book, events, id ensures RefusalHolds(book, events, id, o) {
        InitialInv();
        BookStable(map[], book, Initial());
        ApplyAllKeepsInv(book, Initial(), events);
        var (book', t) := ApplyAll(book, Initial(), events);
        assert Local(book', t, id);
        if FiledOn(t, id, o) { RecordsAreTrue(book', t, id, 0, t.ledger); }
      }
    } else {
      var owner, book, echo, facts := SomeQuote();
      var book', t := ChargedRun(book, owner, echo, facts, o);
      var events :| ApplyAll(book, Initial(), events) == (book', t);
      assert !RefusalHolds(book, events, "Q", o);
    }
  }

  /** So a 401, 403, 404 or 429 that cannot be read, from a gateway or the platform, proves nothing. */
  lemma UnreadStatusesProveNothing(status: int)
    requires status in {401, 403, 404, 429}
    ensures IsFinal(ReadTopup(Outcome(status, None))) && !RefusalIsProof(Outcome(status, None))
  {
    RefusalsAreFiledExactlyWhen(Outcome(status, None));
    RefusalIsProofExactlyWhen(Outcome(status, None));
  }

  lemma SomeQuote() returns (owner: Owner, book: Book, echo: string, facts: Facts)
    ensures Prepared(book, owner, echo, facts)
  {
    owner := Owner("s", "u");
    var amount := Decimal(false, 500, -2);
    var context := SearchContext(NoContext, "", "", "", "");
    var terms := Terms("b", Some("i"), PaymentMethod.Wallet, amount, "USD", "en", context, Some(true));
    book := map["Q" := Owned(owner, Quote(terms, 0, 100, Active))];
    echo := SomeEcho(amount);
    TrimmedIsKept("i");
    facts := SomeFacts(terms);
  }

  /** The very facts a top-up was prepared on. */
  lemma SomeFacts(terms: Terms) returns (facts: Facts)
    requires terms.sim.Some? && Strip(terms.sim.value) != "" && terms.currency != "" && !terms.amount.negative
    ensures Stands(terms, facts)
  {
    var iccid, amount := Strip(terms.sim.value), terms.amount;
    facts := Facts([Esim(iccid, None, "p")], [Offer(terms.bundle, Some(amount), terms.currency)], Some(amount));
    assert IsFirstSim(facts.esims, iccid, 0);
    assert IsFirstOffer(facts.offers, terms.bundle, 0);
  }

  /** An amount of whole cents can be echoed. */
  lemma SomeEcho(amount: Decimal) returns (echo: string)
    requires MoneyText(amount).Some? && WholeCents(amount)
    ensures CheckConfirmedAmount(amount, echo) == AmountCheck.Confirmed
  {
    echo := MoneyText(amount).value;
    var whole, fraction := MoneyTextShape(amount);
    RenderedIsKept(amount.negative, whole, fraction);
    EchoIsAcceptedIffWholeCents(amount, echo);
  }
}
