/** What a recorded refusal of a wallet purchase is worth: over every run against a platform that keeps
    its promises, the exact answers, platforms and numbers of attempts for which it proves that nothing
    was charged. */
module Refusals {
  import opened Strings
  import opened Stores
  import opened Money
  import opened Quotes
  import opened Ledgers
  import opened Outcomes
  import opened WalletAnswers
  import opened WalletPurchase
  import opened WalletSafety

  ghost function ApplyAll(book: Book, w: WalletState, events: seq<WalletEvent>): (Book, WalletState)
    decreases |events|
  {
    if events == [] then (book, w)
    else var (book', w') := Apply(book, w, events[0]); ApplyAll(book', w', events[1..])
  }

  lemma {:induction false} ApplyAppend(book: Book, w: WalletState, before: seq<WalletEvent>, after: seq<WalletEvent>)
    ensures var (book', w') := ApplyAll(book, w, before);
      ApplyAll(book, w, before + after) == ApplyAll(book', w', after)
    decreases |before|
  {
    if before == [] {
      assert before + after == after;
    } else {
      var (book', w') := Apply(book, w, before[0]);
      assert (before + after)[1..] == before[1..] + after;
      ApplyAppend(book', w', before[1..], after);
    }
  }

  lemma {:induction false} ApplyAllKeepsInv(book: Book, w: WalletState, events: seq<WalletEvent>)
    requires Inv(book, w) && Filings(w)
    ensures var (book', w') := ApplyAll(book, w, events);
      Inv(book', w') && Filings(w') && w'.ledger.keyed == w.ledger.keyed
    decreases |events|
  {
    if events != [] {
      var (book', w') := Apply(book, w, events[0]);
      EventKeepsInv(book, w, events[0]);
      EventKeepsFilings(book, w, events[0]);
      EventGrowsLedger(book, w, events[0]);
      ApplyAllKeepsInv(book', w', events[1..]);
    }
  }

  /** No promise of the platform's has been broken, of any quote. */
  ghost predicate Honest(w: WalletState) { w.overclaimed == {} && w.misrefused == {} }

  const KEPT := Kept(true, true)

  ghost predicate Reaches(start: Book, keyed: bool, book: Book, w: WalletState) {
    exists events :: ApplyAll(start, Initial(keyed), events) == (book, w)
  }

  lemma StepOn(start: Book, keyed: bool, book: Book, w: WalletState, event: WalletEvent) returns (w': WalletState)
    requires Reaches(start, keyed, book, w)
    ensures w' == Apply(book, w, event).1 && Reaches(start, keyed, Apply(book, w, event).0, w')
  {
    var events :| ApplyAll(start, Initial(keyed), events) == (book, w);
    w' := Apply(book, w, event).1;
    ApplyAppend(start, Initial(keyed), events, [event]);
    assert [event][1..] == [];
    var end := Apply(book, w, event);
    assert ApplyAll(end.0, end.1, []) == end;
  }

  // ------------------------------------------------------------------ runs that go wrong

  /** One prepared quote, covered by the wallet, not yet expired. */
  ghost predicate Prepared(book: Book, owner: Owner) {
    && "Q" in book && book["Q"].owner == owner && book["Q"].body.Usable(1)
    && book["Q"].body.terms.payment == PaymentMethod.Wallet && book["Q"].body.terms.covered == Some(true)
  }

  /** `n` attempts, the first carried out, every answer lost. */
  ghost predicate Unheard(w: WalletState, owner: Owner, n: nat) {
    && Honest(w) && |w.ledger.sent| == n && "Q" !in w.flights && "Q" !in w.refusals
    && (forall key | key in w.minted :: |key| <= n)
    && (if n == 0 then "Q" !in w.records && w.ledger.verdicts == map[]
        else
          && "Q" in w.records && w.records["Q"].owner == owner
          && w.records["Q"].body.status == Unresolved && w.records["Q"].body.attempts == n
          && w.ledger.sent[0].quote == "Q" && w.ledger.verdicts == map[w.ledger.SlotOf(0) := Bought])
  }

  function NewKey(n: nat): Key { seq(n, _ => 'k') }

  /** An attempt under way after `n` unheard ones. */
  ghost predicate UnderWay(w: WalletState, owner: Owner, n: nat) {
    && Honest(w) && "Q" in w.flights && w.flights["Q"].sent == Some(n) && w.flights["Q"].flight.id == "Q"
    && w.flights["Q"].flight.owner == owner && w.flights["Q"].flight.execution.attempts == n + 1
    && |w.ledger.sent| == n + 1 && w.ledger.sent[0].quote == "Q" && "Q" !in w.refusals
    && w.ledger.verdicts == (if n == 0 then map[] else map[w.ledger.SlotOf(0) := Bought])
    && (forall key | key in w.minted :: |key| <= n + 1)
  }

  lemma AttemptIsSent(book: Book, w: WalletState, owner: Owner, n: nat)
    requires Prepared(book, owner) && Unheard(w, owner, n) && n < 3
    ensures UnderWay(SendStep(ConfirmStep(book, w, owner, "Q", 1, NewKey(n + 1)), "Q"), owner, n)
    ensures SendStep(ConfirmStep(book, w, owner, "Q", 1, NewKey(n + 1)), "Q").ledger.keyed == w.ledger.keyed
  {
    assert NewKey(n + 1) !in w.minted;
    SendsExactlyWhen(book, w.records, owner, "Q", 1, NewKey(n + 1));
  }

  lemma Attempt(start: Book, keyed: bool, w: WalletState, owner: Owner, n: nat) returns (w2: WalletState)
    requires Reaches(start, keyed, start, w) && Prepared(start, owner) && Unheard(w, owner, n) && n < 3
    ensures Reaches(start, keyed, start, w2) && UnderWay(w2, owner, n) && w2.ledger.keyed == w.ledger.keyed
  {
    var w1 := StepOn(start, keyed, start, w, ConfirmEvent(owner, "Q", 1, NewKey(n + 1)));
    w2 := StepOn(start, keyed, start, w1, SendEvent("Q"));
    AttemptIsSent(start, w, owner, n);
  }

  lemma AnswerIsLost(book: Book, w: WalletState, owner: Owner, n: nat)
    requires UnderWay(w, owner, n)
    ensures var (book', w') := AnswerStep(book, DecideStep(w, 0, Bought), "Q", None);
      book' == book && Unheard(w', owner, n + 1) && w'.ledger.keyed == w.ledger.keyed
  {
  }

  lemma RoundEnds(
    start: Book, keyed: bool, w2: WalletState, index: nat, verdict: Verdict, answer: PurchaseAnswer)
    returns (book: Book, w': WalletState)
    requires Reaches(start, keyed, start, w2)
    ensures Reaches(start, keyed, book, w')
    ensures (book, w') == AnswerStep(start, DecideStep(w2, index, verdict), "Q", answer)
  {
    var w3 := StepOn(start, keyed, start, w2, DecideEvent(index, verdict));
    w' := StepOn(start, keyed, start, w3, AnswerEvent("Q", answer));
    book := Apply(start, w3, AnswerEvent("Q", answer)).0;
  }

  lemma Loss(start: Book, keyed: bool, w2: WalletState, owner: Owner, n: nat) returns (w': WalletState)
    requires Reaches(start, keyed, start, w2) && UnderWay(w2, owner, n)
    ensures Reaches(start, keyed, start, w') && Unheard(w', owner, n + 1) && w'.ledger.keyed == w2.ledger.keyed
  {
    AnswerIsLost(start, w2, owner, n);
    var book;
    book, w' := RoundEnds(start, keyed, w2, 0, Bought, None);
  }

  lemma Losses(start: Book, keyed: bool, owner: Owner, n: nat) returns (w: WalletState)
    requires Prepared(start, owner) && n <= 2
    ensures Reaches(start, keyed, start, w) && Unheard(w, owner, n) && w.ledger.keyed == keyed
  {
    w := Initial(keyed);
    assert ApplyAll(start, w, []) == (start, w);
    for k := 0 to n
      invariant Reaches(start, keyed, start, w) && Unheard(w, owner, k) && w.ledger.keyed == keyed
    {
      var w2 := Attempt(start, keyed, w, owner, k);
      w := Loss(start, keyed, w2, owner, k);
    }
  }

  /** A refusal filed on an answer the platform promised nothing of, for a purchase it made. */
  lemma FiledUnexplained(book: Book, w: WalletState, owner: Owner, n: nat, o: Outcome<Option<Purchase>>)
    requires UnderWay(w, owner, n) && IsFinal(ReadPurchase(o)) && !Refuses(o) && !Conflicts(o)
    ensures ChargedThough(AnswerStep(book, DecideStep(w, 0, Bought), "Q", Some(o)).1, n + 1, o)
  {
    ReadingsFollowTheAnswer(o);
    var w3 := DecideStep(w, 0, Bought);
    assert w3.ledger.Says(0, Bought);
    assert Promises(w3.ledger, Some(n), Some(o)) == KEPT;
    Filed(book, w3, n, o);
  }

  /** A refusal filed on an explained answer to a later request, the first having been carried out. */
  lemma FiledExplained(book: Book, w: WalletState, owner: Owner, n: nat, o: Outcome<Option<Purchase>>)
    requires UnderWay(w, owner, n) && !w.ledger.keyed && n >= 1 && IsFinal(ReadPurchase(o)) && Refuses(o)
    ensures ChargedThough(AnswerStep(book, DecideStep(w, n, Refused), "Q", Some(o)).1, n + 1, o)
  {
    ReadingsFollowTheAnswer(o);
    var w3 := DecideStep(w, n, Refused);
    assert w3.ledger.Says(n, Refused) && w3.ledger.Says(0, Bought);
    assert Promises(w3.ledger, Some(n), Some(o)) == KEPT;
    Filed(book, w3, n, o);
  }

  /** Recorded as refused after `n` attempts, on this answer, and charged, all promises kept. */
  ghost predicate ChargedThough(w: WalletState, n: nat, o: Outcome<Option<Purchase>>) {
    Honest(w) && FiledOn(w, "Q", n, o) && w.ledger.Debits("Q") != {}
  }

  lemma Filed(book: Book, w: WalletState, n: nat, o: Outcome<Option<Purchase>>)
    requires Honest(w) && "Q" in w.flights && w.flights["Q"].sent == Some(n) && w.flights["Q"].flight.id == "Q"
    requires w.flights["Q"].flight.execution.attempts == n + 1 && |w.ledger.sent| == n + 1
    requires w.ledger.sent[0].quote == "Q" && w.ledger.Says(0, Bought)
    requires IsFinal(ReadPurchase(o)) && Promises(w.ledger, Some(n), Some(o)) == KEPT
    ensures ChargedThough(AnswerStep(book, w, "Q", Some(o)).1, n + 1, o)
  {
    FiledFrom(book, w, n, o, ReadPurchase(o));
  }

  lemma FiledFrom(book: Book, w: WalletState, n: nat, o: Outcome<Option<Purchase>>, reading: Reading)
    requires Honest(w) && "Q" in w.flights && w.flights["Q"].flight.id == "Q"
    requires w.flights["Q"].flight.execution.attempts == n + 1
    requires |w.ledger.sent| >= 1 && w.ledger.sent[0].quote == "Q" && w.ledger.Says(0, Bought) && IsFinal(reading)
    ensures ChargedThough(Recorded(book, w, "Q", Some(o), reading, KEPT).1, n + 1, o)
  {
    var w' := Recorded(book, w, "Q", Some(o), reading, KEPT).1;
    assert w'.ledger.Says(0, Bought);
    assert w'.ledger.SlotOf(0) in w'.ledger.Debits("Q");
  }

  lemma ChargedEnd(start: Book, keyed: bool, w2: WalletState, owner: Owner, n: nat, o: Outcome<Option<Purchase>>)
    returns (book: Book, w': WalletState)
    requires Reaches(start, keyed, start, w2) && UnderWay(w2, owner, n)
    requires IsFinal(ReadPurchase(o)) && !Conflicts(o) && (Refuses(o) ==> !w2.ledger.keyed && n >= 1)
    ensures Reaches(start, keyed, book, w') && ChargedThough(w', n + 1, o)
  {
    if Refuses(o) {
      FiledExplained(start, w2, owner, n, o);
      book, w' := RoundEnds(start, keyed, w2, n, Refused, Some(o));
    } else {
      FiledUnexplained(start, w2, owner, n, o);
      book, w' := RoundEnds(start, keyed, w2, 0, Bought, Some(o));
    }
  }

  lemma ChargedRun(start: Book, keyed: bool, owner: Owner, n: nat, o: Outcome<Option<Purchase>>)
    returns (book: Book, w': WalletState)
    requires Prepared(start, owner) && 1 <= n <= 3 && IsFinal(ReadPurchase(o)) && !Conflicts(o)
    requires Refuses(o) ==> !keyed && n >= 2
    ensures Reaches(start, keyed, book, w') && ChargedThough(w', n, o)
  {
    var w := Losses(start, keyed, owner, n - 1);
    var w2 := Attempt(start, keyed, w, owner, n - 1);
    book, w' := ChargedEnd(start, keyed, w2, owner, n - 1, o);
  }

  // ------------------------------------------------------------------ exactly when none does

  /** Recorded as refused, on this answer, after `n` attempts, with every refusal reported of the quote
      one that was. */
  ghost predicate FiledOn(w: WalletState, id: Id, n: nat, o: Outcome<Option<Purchase>>) {
    && id !in w.misrefused && id in w.records && w.records[id].body.status.Failed? && w.records[id].body.attempts == n
    && id in w.refusals && w.refusals[id] == o
  }

  /** In every run, over any book of quotes, in which the platform reports no refusal of the quote but its
      own: a purchase recorded as refused, on this answer and after `n` attempts, was never charged. */
  ghost predicate RefusalIsProof(keyed: bool, n: nat, o: Outcome<Option<Purchase>>) {
    forall book, events, id :: RefusalHolds(book, keyed, events, id, n, o)
  }

  ghost predicate RefusalHolds(
    book: Book, keyed: bool, events: seq<WalletEvent>, id: Id, n: nat, o: Outcome<Option<Purchase>>)
  {
    var w := ApplyAll(book, Initial(keyed), events).1;
    FiledOn(w, id, n, o) ==> w.ledger.Debits(id) == {}
  }

  /** Of all answers, a recorded refusal that rests on this one proves that nothing was charged exactly
      where none is ever recorded on it; or the answer is a readable conflict, which never comes; or it
      is a readable 400 or 422 and the platform honours keys or this was the only attempt. */
  lemma RefusalIsProofExactlyWhen(keyed: bool, n: nat, o: Outcome<Option<Purchase>>)
    requires 1 <= n <= MAX_EXECUTION_ATTEMPTS
    ensures RefusalIsProof(keyed, n, o) <==> !IsFiled(o) || Conflicts(o) || (Refuses(o) && (keyed || n == 1))
  {
    RefusalsAreFiledExactlyWhen(o);
    if !IsFiled(o) || Conflicts(o) || (Refuses(o) && (keyed || n == 1)) {
      forall book: Book, events, id ensures RefusalHolds(book, keyed, events, id, n, o) {
        InitialInv(keyed);
        BookStable(map[], book, Initial(keyed));
        ApplyAllKeepsInv(book, Initial(keyed), events);
        var (book', w) := ApplyAll(book, Initial(keyed), events);
        if FiledOn(w, id, n, o) {
          ConflictsNeverCome(book', w, id);
          FailedMeansNoDebit(book', w, id, w.ledger);
        }
      }
    } else {
      var owner, book := SomeQuote();
      var book', w' := ChargedRun(book, keyed, owner, n, o);
      var events :| ApplyAll(book, Initial(keyed), events) == (book', w');
      assert !RefusalHolds(book, keyed, events, "Q", n, o);
    }
  }

  /** A request timeout is such an answer, and so is any 400 that cannot be read. */
  lemma TimeoutsProveNothing(keyed: bool, n: nat, status: int)
    requires 1 <= n <= MAX_EXECUTION_ATTEMPTS && (status == 400 || status == 408)
    ensures !RefusalIsProof(keyed, n, Outcome(status, None))
  {
    UnreadRefusalsAreFinal(status);
    RefusalIsProofExactlyWhen(keyed, n, Outcome(status, None));
  }

  lemma SomeQuote() returns (owner: Owner, book: Book)
    ensures Prepared(book, owner)
  {
    owner := Owner("s", "u");
    var context := SearchContext(NoContext, "", "", "", "");
    var terms := Terms(
      "b", None, PaymentMethod.Wallet, Decimal(false, 500, -2), "USD", "en", context, Some(true));
    book := map["Q" := Owned(owner, Quote(terms, 0, 100, Active))];
  }
}
