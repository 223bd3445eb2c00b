/** What holds of every run from the start, however calls, refusals, lost answers, expiries, logouts
    and fresh logins interleave. */
module Guarantees {
  import opened Strings
  import opened Stores
  import opened Money
  import opened Quotes
  import opened Ledgers
  import opened World
  import Wallet = WalletPurchase
  import W = WalletSafety
  import opened WalletAnswers
  import Card = CardCheckout
  import C = CardSafety
  import TopUp
  import T = TopUpSafety

  lemma ReachableInv(keyed: bool, limits: Limits, events: seq<Event>)
    ensures Inv(Run(Initial(keyed), limits, events), limits)
  {
    InitialInv(keyed, limits);
    RunKeepsInv(Initial(keyed), limits, events);
  }

  lemma WalletLedgerStep(w: World, limits: Limits, event: Event)
    ensures Grows(w.wallet.ledger, Step(w, limits, event).wallet.ledger)
  {
    if event.OfWallet? { W.EventGrowsLedger(w.purchases, w.wallet, event.wallet); }
  }

  lemma {:induction false} PlatformIsFixed(w: World, limits: Limits, events: seq<Event>)
    ensures Run(w, limits, events).wallet.ledger.keyed == w.wallet.ledger.keyed
    ensures Grows(w.wallet.ledger, Run(w, limits, events).wallet.ledger)
    decreases |events|
  {
    if events != [] {
      WalletLedgerStep(w, limits, events[0]);
      PlatformIsFixed(Step(w, limits, events[0]), limits, events[1..]);
    }
  }

  // ------------------------------------------------------------------ wallet purchases

  /** All requests ever sent for a quote are one and the same request, at most three times over; so the
      platform debits once if it honours keys, and three times at most if it does not. */
  lemma PurchaseRequestsAreOne(keyed: bool, limits: Limits, events: seq<Event>, id: Id, i: nat, j: nat)
    ensures var ledger := Run(Initial(keyed), limits, events).wallet.ledger;
      && Count(ledger.sent, id) <= 3
      && |ledger.Debits(id)| <= (if keyed then 1 else 3)
      && (i < |ledger.sent| && j < |ledger.sent| && ledger.sent[i].quote == id && ledger.sent[j].quote == id ==>
            ledger.sent[i] == ledger.sent[j])
      && (i < |ledger.sent| && j < |ledger.sent| && ledger.sent[i].key == ledger.sent[j].key ==>
            ledger.sent[i] == ledger.sent[j])
  {
    var w := Run(Initial(keyed), limits, events);
    ReachableInv(keyed, limits, events);
    PlatformIsFixed(Initial(keyed), limits, events);
    W.SendsAndDebitsAreBounded(w.purchases, w.wallet, id);
    if i < |w.wallet.ledger.sent| && j < |w.wallet.ledger.sent|
      && w.wallet.ledger.sent[i].key == w.wallet.ledger.sent[j].key
    {
      W.NoKeyConflict(w.purchases, w.wallet, i, j);
    }
  }

  /** Whoever is told of a purchase, and every record that says so, has the platform's commitment behind it,
      unless the platform itself reported a purchase for that very quote that it had not made. */
  lemma ChargedIsTrue(keyed: bool, limits: Limits, events: seq<Event>, id: Id, k: nat)
    ensures var w := Run(Initial(keyed), limits, events).wallet;
      && (k < |w.replies| && w.replies[k].1.Purchased? && w.replies[k].0 !in w.overclaimed ==>
            w.ledger.BoughtFor(w.replies[k].0))
      && (id in w.records && w.records[id].body.status.Succeeded? && id !in w.overclaimed ==> w.ledger.BoughtFor(id))
  {
    var w := Run(Initial(keyed), limits, events);
    ReachableInv(keyed, limits, events);
    W.NoFalsePurchase(w.purchases, w.wallet, k, id);
  }

  lemma {:induction false} ClosedAlongRuns(w: World, limits: Limits, events: seq<Event>, id: Id, e: Wallet.Execution)
    requires Inv(w, limits) && W.Closed(w.purchases, w.wallet, id, e)
    ensures var w' := Run(w, limits, events);
      && W.Closed(w'.purchases, w'.wallet, id, e)
      && Count(w'.wallet.ledger.sent, id) == Count(w.wallet.ledger.sent, id)
    decreases |events|
  {
    if events != [] {
      var w1 := Step(w, limits, events[0]);
      StepKeepsInv(w, limits, events[0]);
      ClosedAfterStep(w, limits, events[0], id, e);
      ClosedAlongRuns(w1, limits, events[1..], id, e);
    }
  }

  lemma ClosedAfterStep(w: World, limits: Limits, event: Event, id: Id, e: Wallet.Execution)
    requires Inv(w, limits) && W.Closed(w.purchases, w.wallet, id, e)
    ensures var w' := Step(w, limits, event);
      && W.Closed(w'.purchases, w'.wallet, id, e)
      && Count(w'.wallet.ledger.sent, id) == Count(w.wallet.ledger.sent, id)
  {
    var w' := Step(w, limits, event);
    StepKeepsInv(w, limits, event);
    W.EvolutionKeepsClosed(w.purchases, w'.purchases, w.wallet, id, e);
    if event.OfWallet? {
      W.ClosedStaysClosed(w.purchases, w.wallet, event.wallet, id, e);
    } else {
      WalletMovesByDropping(w, limits, event);
      if w'.wallet != w.wallet { W.SessionKeepsClosed(w'.purchases, w.wallet, event.sessionKey, id, e); }
    }
  }

  lemma WalletMovesByDropping(w: World, limits: Limits, event: Event)
    requires !event.OfWallet?
    ensures var w' := Step(w, limits, event);
      w'.wallet == w.wallet
      || ((event.EndSession? || event.DropExecutions?) && w'.wallet == W.SessionStep(w.wallet, event.sessionKey)
          && ActiveOfSession(w'.purchases, event.sessionKey) == {})
  {
    if event.EndSession? { SessionEndLeavesNoneActive(w.purchases, event.sessionKey); }
  }

  /** Once a terminal answer is on record, no later confirmation sends anything: it gets that answer
      or, if the record went with its session, a refusal. */
  lemma TerminalAnswersAreStable(
    keyed: bool, limits: Limits, before: seq<Event>, after: seq<Event>, id: Id, owner: Owner, now: int, newKey: Key)
    ensures var w := Run(Initial(keyed), limits, before);
      var w' := Run(Initial(keyed), limits, before + after);
      id in w.wallet.records && w.wallet.records[id].body.status.IsTerminal() ==>
        var begun := Wallet.Confirm(w'.purchases, w'.wallet.records, owner, id, now, newKey).1;
        && Count(w'.wallet.ledger.sent, id) == Count(w.wallet.ledger.sent, id)
        && id in w'.purchases && begun.Settled?
        && W.ClosedReply(w'.purchases, w'.wallet, owner, id) == Some(begun.reply)
        && (id in w'.wallet.records && w'.wallet.records[id].body.status.IsTerminal() ==>
              w'.wallet.records[id] == w.wallet.records[id])
  {
    var w := Run(Initial(keyed), limits, before);
    var w' := Run(Initial(keyed), limits, before + after);
    ReachableInv(keyed, limits, before);
    RunAppend(Initial(keyed), limits, before, after);
    if id in w.wallet.records && w.wallet.records[id].body.status.IsTerminal() {
      var e := w.wallet.records[id].body;
      W.TerminalRecordsAreClosed(w.purchases, w.wallet, id);
      ClosedAlongRuns(w, limits, after, id, e);
      W.ClosedQuotesAreAnsweredLocally(w'.purchases, w'.wallet, id, e, owner, now, newKey);
      RecordsBelongToTheirQuotes(keyed, limits, before, id);
      RecordsBelongToTheirQuotes(keyed, limits, before + after, id);
      OwnersAreFixed(w, limits, after, id);
    }
  }

  /** A recorded refusal rests on an answer of the kind that is filed. Where the platform reported no refusal
      or conflict of the quote but such as there was, it never rests on a conflict; and if the platform
      explained it, no money has moved for the quote and none ever will: always where keys
      are honoured, and where they are not, when only one attempt was made. */
  lemma FailedIsNeverCharged(keyed: bool, limits: Limits, before: seq<Event>, after: seq<Event>, id: Id)
    ensures var w := Run(Initial(keyed), limits, before).wallet;
      id in w.records && w.records[id].body.status.Failed? ==>
        && id in w.refusals && IsFiled(w.refusals[id])
        && (id !in w.misrefused ==> !Conflicts(w.refusals[id]))
        && (id !in w.misrefused && Refuses(w.refusals[id]) && (keyed || w.records[id].body.attempts == 1) ==>
              Run(Initial(keyed), limits, before + after).wallet.ledger.Debits(id) == {})
  {
    var w := Run(Initial(keyed), limits, before);
    ReachableInv(keyed, limits, before);
    RunAppend(Initial(keyed), limits, before, after);
    PlatformIsFixed(Initial(keyed), limits, before);
    PlatformIsFixed(w, limits, after);
    assert W.Local(w.purchases, w.wallet, id);
    if id in w.wallet.records && w.wallet.records[id].body.status.Failed? && id !in w.wallet.misrefused {
      W.ConflictsNeverCome(w.purchases, w.wallet, id);
    }
    if id in w.wallet.records && w.wallet.records[id].body.status.Failed? && id !in w.wallet.misrefused
      && Refuses(w.wallet.refusals[id]) && (keyed || w.wallet.records[id].body.attempts == 1)
    {
      W.TerminalRecordsAreClosed(w.purchases, w.wallet, id);
      ClosedAlongRuns(w, limits, after, id, w.wallet.records[id].body);
      W.FailedMeansNoDebit(w.purchases, w.wallet, id, Run(w, limits, after).wallet.ledger);
    }
  }

  // ------------------------------------------------------------------ card payments

  lemma CardMovesByDropping(w: World, limits: Limits, event: Event)
    requires !event.OfCard?
    ensures var c, c' := w.card, Step(w, limits, event).card;
      c' == c || ((event.EndSession? || event.DropCheckouts?) && c' == C.SessionStep(c, event.sessionKey))
  {
  }

  /** For one quote: three requests for a page, twenty status reads, one link. */
  lemma CardWorkIsBounded(keyed: bool, limits: Limits, events: seq<Event>, id: Id, j: nat, k: nat)
    ensures var c := Run(Initial(keyed), limits, events).card;
      && Count(c.ledger.sent, id) <= 3 && c.ledger.OneKey(id) && C.Reads(c, id) <= 20
      && (j < |c.replies| && k < |c.replies| && c.replies[j].0 == c.replies[k].0
          && C.LinkOf(c.replies[j].1).Some? && C.LinkOf(c.replies[k].1).Some? ==>
            C.LinkOf(c.replies[j].1) == C.LinkOf(c.replies[k].1))
  {
    var w := Run(Initial(keyed), limits, events);
    ReachableInv(keyed, limits, events);
    C.RequestsAreBounded(w.purchases, w.card, id);
    if j < |w.card.replies| && k < |w.card.replies| && w.card.replies[j].0 == w.card.replies[k].0
      && C.LinkOf(w.card.replies[j].1).Some? && C.LinkOf(w.card.replies[k].1).Some?
    {
      C.OneLinkPerQuote(w.purchases, w.card, j, k);
    }
  }

  /** While a call is suspended, a stored record somebody has used is the copy it will write back from;
      and no page is being asked for while the quote's payment is being checked. */
  lemma NoCardUpdateIsLost(keyed: bool, limits: Limits, events: seq<Event>, id: Id, reference: Card.Reference)
    ensures var c := Run(Initial(keyed), limits, events).card;
      id in c.records && !C.Untouched(c.records[id].body) ==>
        && (id in c.openings ==> c.records[id] == Owned(c.openings[id].owner, c.openings[id].checkout))
        && (reference in c.checkings && c.checkings[reference].id == id ==>
              id !in c.openings
              && c.records[id] == Owned(c.checkings[reference].owner, c.checkings[reference].checkout))
  {
    var w := Run(Initial(keyed), limits, events);
    ReachableInv(keyed, limits, events);
    if id in w.card.records && !C.Untouched(w.card.records[id].body) {
      C.NoUpdateIsLost(w.purchases, w.card, id, reference);
    }
  }

  /** No status is told, that money arrived least of all, but one the platform said, in an answer about
      the one page opened for the quote. */
  lemma StatusesAreThePlatforms(keyed: bool, limits: Limits, events: seq<Event>, k: nat)
    ensures var c := Run(Initial(keyed), limits, events).card;
      k < |c.replies| && c.replies[k].1.StatusGiven? ==>
        c.replies[k].0 in c.pages && C.Said(c, c.pages[c.replies[k].0].reference, c.replies[k].1.word)
  {
    var w := Run(Initial(keyed), limits, events);
    ReachableInv(keyed, limits, events);
    if k < |w.card.replies| { C.NoFalseCharge(w.purchases, w.card, k); }
  }

  /** The status reads of a payment are as many as its checks exactly where no check of it ended before
      its read; and one under way accounts for itself. */
  lemma ReadsMatchChecksExactlyWhen(keyed: bool, limits: Limits, events: seq<Event>, id: Id)
    ensures var c := Run(Initial(keyed), limits, events).card;
      id in c.records && c.records[id].body.reference.Some? ==>
        var checks := c.records[id].body.checks;
        if C.BeingChecked(c, id)
        then C.Reads(c, id) + C.Unread(c, id) + (if c.checkings[c.pages[id].reference].read then 0 else 1) == checks
        else C.Reads(c, id) + C.Unread(c, id) == checks && (C.Reads(c, id) == checks <==> id !in c.unread)
  {
    var w := Run(Initial(keyed), limits, events);
    ReachableInv(keyed, limits, events);
    if id in w.card.records && w.card.records[id].body.reference.Some? {
      C.ReadsMatchChecksExactlyWhen(w.purchases, w.card, id);
    }
  }

  lemma RunOneMore(w: World, limits: Limits, events: seq<Event>, event: Event)
    ensures Run(w, limits, events + [event]) == Step(Run(w, limits, events), limits, event)
  {
    RunAppend(w, limits, events, [event]);
    assert [event][1..] == [];
    var w' := Step(Run(w, limits, events), limits, event);
    assert Run(w', limits, []) == w';
  }

  /** Such a check there is: counted, then cut off with its session before the read. */
  lemma SomeCheckIsNeverRead(keyed: bool) returns (limits: Limits, events: seq<Event>)
    ensures var c := Run(Initial(keyed), limits, events).card;
      && "Q" in c.records && c.records["Q"].body.reference.Some? && !C.BeingChecked(c, "Q")
      && c.records["Q"].body.checks == 1 && C.Reads(c, "Q") == 0
  {
    var owner := Owner("s", "u");
    var context := SearchContext(NoContext, "", "", "", "");
    var terms := Terms("b", None, PaymentMethod.Card, Decimal(false, 500, -2), "USD", "en", context, None);
    limits := Limits(300, 1);
    var answer, page := Card.SomePage();
    var prepare := PreparePurchase(owner, terms, 0, "Q");
    var calls := C.DroppedCheck(owner, page, answer);
    assert ActiveIds(map[], owner, 0) == {} && SameChoice(map[], {}, terms) == {};
    var w := Step(Initial(keyed), limits, prepare);
    assert w.purchases == map["Q" := Owned(owner, Quote(terms, 0, 300, Active))];
    C.DroppedCheckIsUnread(w.purchases, owner, page, answer);
    CardCallsRun(w, limits, calls);
    events := [prepare] + OfCards(calls);
    assert events[1..] == OfCards(calls);
  }

  function OfCards(calls: seq<C.CardEvent>): seq<Event> {
    seq(|calls|, i requires 0 <= i < |calls| => OfCard(calls[i]))
  }

  lemma {:induction false} CardCallsRun(w: World, limits: Limits, calls: seq<C.CardEvent>)
    ensures Run(w, limits, OfCards(calls)).card == C.ApplyAll(w.purchases, w.card, calls).1
    decreases |calls|
  {
    if calls != [] {
      assert OfCards(calls)[1..] == OfCards(calls[1..]);
      CardCallsRun(Step(w, limits, OfCard(calls[0])), limits, calls[1..]);
    }
  }

  predicate EndsSession(event: Event, sessionKey: string) {
    (event.EndSession? || event.DropCheckouts?) && event.sessionKey == sessionKey
  }

  lemma SettledAfterStep(w: World, limits: Limits, event: Event, id: Id)
    requires Inv(w, limits) && id in w.card.records && w.card.records[id].body.settled.Some?
    requires !EndsSession(event, w.card.records[id].owner.sessionKey)
    ensures var c, c' := w.card, Step(w, limits, event).card;
      id in c'.records && c'.records[id] == c.records[id] && C.Reads(c', id) == C.Reads(c, id)
  {
    if event.OfCard? {
      C.SettledStays(w.purchases, w.card, event.card, id);
    } else {
      CardMovesByDropping(w, limits, event);
    }
  }

  lemma {:induction false} SettledAlongRuns(w: World, limits: Limits, events: seq<Event>, id: Id)
    requires Inv(w, limits) && id in w.card.records && w.card.records[id].body.settled.Some?
    requires forall e | e in events :: !EndsSession(e, w.card.records[id].owner.sessionKey)
    ensures var c, c' := w.card, Run(w, limits, events).card;
      id in c'.records && c'.records[id] == c.records[id] && C.Reads(c', id) == C.Reads(c, id)
    decreases |events|
  {
    if events != [] {
      assert events[0] in events;
      StepKeepsInv(w, limits, events[0]);
      SettledAfterStep(w, limits, events[0], id);
      SettledAlongRuns(Step(w, limits, events[0]), limits, events[1..], id);
    }
  }

  /** A payment that has settled is, until its session ends, never read again: whatever else happens,
      its owner gets the recorded word back, one the platform said of it. */
  lemma SettledPaymentsAreReplayed(keyed: bool, limits: Limits, before: seq<Event>, after: seq<Event>, id: Id)
    ensures var c := Run(Initial(keyed), limits, before).card;
      var c' := Run(Initial(keyed), limits, before + after).card;
      id in c.records && c.records[id].body.settled.Some?
        && (forall e | e in after :: !EndsSession(e, c.records[id].owner.sessionKey)) ==>
          var (owner, checkout) := (c.records[id].owner, c.records[id].body);
          && C.Reads(c', id) == C.Reads(c, id) && checkout.reference.Some?
          && C.Said(c, checkout.reference.value, checkout.settled.value)
          && Card.Check(c'.records, owner, checkout.reference.value, id)
             == (c'.records, Card.Settled(Card.StatusGiven(checkout.settled.value, None, true)))
  {
    var w := Run(Initial(keyed), limits, before);
    ReachableInv(keyed, limits, before);
    RunAppend(Initial(keyed), limits, before, after);
    assert C.Local(w.purchases, w.card, id);
    if id in w.card.records && w.card.records[id].body.settled.Some?
      && (forall e | e in after :: !EndsSession(e, w.card.records[id].owner.sessionKey))
    {
      SettledAlongRuns(w, limits, after, id);
    }
  }

  lemma AmbiguousAfterStep(w: World, limits: Limits, event: Event, id: Id)
    requires Inv(w, limits) && id in w.card.ambiguous
    ensures var c, c' := w.card, Step(w, limits, event).card;
      id in c'.ambiguous && Count(c'.ledger.sent, id) == Count(c.ledger.sent, id) && C.Reads(c', id) == C.Reads(c, id)
  {
    if event.OfCard? {
      C.AmbiguityIsFinal(w.purchases, w.card, event.card, id);
    } else {
      CardMovesByDropping(w, limits, event);
    }
  }

  lemma {:induction false} AmbiguousAlongRuns(w: World, limits: Limits, events: seq<Event>, id: Id)
    requires Inv(w, limits) && id in w.card.ambiguous
    ensures var c, c' := w.card, Run(w, limits, events).card;
      id in c'.ambiguous && Count(c'.ledger.sent, id) == Count(c.ledger.sent, id) && C.Reads(c', id) == C.Reads(c, id)
    decreases |events|
  {
    if events != [] {
      StepKeepsInv(w, limits, events[0]);
      AmbiguousAfterStep(w, limits, events[0], id);
      AmbiguousAlongRuns(Step(w, limits, events[0]), limits, events[1..], id);
    }
  }

  /** After an ambiguous payment status neither a page nor a status is asked for again. */
  lemma AmbiguityEndsTheMatter(keyed: bool, limits: Limits, before: seq<Event>, after: seq<Event>, id: Id)
    ensures var c := Run(Initial(keyed), limits, before).card;
      var c' := Run(Initial(keyed), limits, before + after).card;
      id in c.ambiguous ==>
        Count(c'.ledger.sent, id) == Count(c.ledger.sent, id) && C.Reads(c', id) == C.Reads(c, id)
  {
    ReachableInv(keyed, limits, before);
    RunAppend(Initial(keyed), limits, before, after);
    var w := Run(Initial(keyed), limits, before);
    if id in w.card.ambiguous { AmbiguousAlongRuns(w, limits, after, id); }
  }

  /** No quote is ever sent by both routes. */
  lemma OneRoutePerQuote(keyed: bool, limits: Limits, events: seq<Event>, id: Id)
    ensures var w := Run(Initial(keyed), limits, events);
      Count(w.wallet.ledger.sent, id) == 0 || Count(w.card.ledger.sent, id) == 0
  {
    var w := Run(Initial(keyed), limits, events);
    ReachableInv(keyed, limits, events);
    CountZero(w.wallet.ledger.sent, id);
    CountZero(w.card.ledger.sent, id);
    forall i, j | 0 <= i < |w.wallet.ledger.sent| && 0 <= j < |w.card.ledger.sent|
      ensures !(w.wallet.ledger.sent[i].quote == id && w.card.ledger.sent[j].quote == id)
    {
      assert W.SentOk(w.purchases, w.wallet, i) && C.SentOk(w.purchases, w.card, j);
    }
  }

  // ------------------------------------------------------------------ top-ups

  /** One request for a top-up quote, for good, and it rested on the echoed amount and on facts that
      stood. Success is told only of top-ups made, unless the platform reported one for that quote that it
      had not; and a recorded refusal, which rests on an answer of the kind that is filed, means no debit
      ever if the platform explained it and meant it. */
  lemma TopUpsHappenOnce(keyed: bool, limits: Limits, before: seq<Event>, after: seq<Event>, id: Id, k: nat)
    ensures var w := Run(Initial(keyed), limits, before);
      var later := Run(Initial(keyed), limits, before + after).topUp.ledger;
      && Count(later.sent, id) <= 1 && |later.Debits(id)| <= 1
      && (Count(w.topUp.ledger.sent, id) == 1 ==>
            && id in w.topUps && id in w.topUp.vouched
            && T.VoucherStands(w.topUps[id].body.terms, w.topUp.vouched[id].echo, w.topUp.vouched[id].facts))
      && (k < |w.topUp.replies| && w.topUp.replies[k].1.ToppedUp? && w.topUp.replies[k].0 !in w.topUp.overclaimed ==>
            w.topUp.ledger.BoughtFor(w.topUp.replies[k].0))
      && (id in w.topUp.records && w.topUp.records[id].body.status.Failed? ==>
            && id in w.topUp.refusals && TopUp.IsFiled(w.topUp.refusals[id])
            && (id !in w.topUp.misrefused && TopUp.Refuses(w.topUp.refusals[id]) ==> later.Debits(id) == {}))
  {
    var w := Run(Initial(keyed), limits, before);
    var w' := Run(Initial(keyed), limits, before + after);
    ReachableInv(keyed, limits, before);
    ReachableInv(keyed, limits, before + after);
    RunAppend(Initial(keyed), limits, before, after);
    TopUpLedgerGrows(w, limits, after);
    T.AtMostOneRequest(w.topUps, w.topUp, id);
    T.AtMostOneRequest(w'.topUps, w'.topUp, id);
    assert T.Local(w.topUps, w.topUp, id);
    T.RecordsAreTrue(w.topUps, w.topUp, id, k, w'.topUp.ledger);
  }

  /** Once a top-up was sent and its call is over, every later confirmation is answered on the spot. */
  lemma SentTopUpsAreAnsweredLocally(
    keyed: bool, limits: Limits, events: seq<Event>, id: Id, enabled: bool, owner: Owner, now: int, echo: string)
    ensures var w := Run(Initial(keyed), limits, events);
      Count(w.topUp.ledger.sent, id) == 1 && id !in w.topUp.flights ==>
        TopUp.Confirm(w.topUps, w.topUp.records, enabled, owner, id, now, echo).1.Settled?
  {
    var w := Run(Initial(keyed), limits, events);
    ReachableInv(keyed, limits, events);
    if Count(w.topUp.ledger.sent, id) == 1 && id !in w.topUp.flights {
      T.SentQuotesAreAnsweredLocally(w.topUps, w.topUp, id, enabled, owner, now, echo);
    }
  }

  predicate SwitchedOn(event: Event) { event.OfTopUp? && event.topUp.ConfirmEvent? && event.topUp.enabled }

  ghost predicate NoTopUps(t: T.TopUpState) { t.flights == map[] && t.records == map[] && t.ledger.sent == [] }

  lemma NoTopUpBegins(w: World, limits: Limits, event: Event)
    requires NoTopUps(w.topUp) && !SwitchedOn(event)
    ensures NoTopUps(Step(w, limits, event).topUp)
  {
  }

  lemma {:induction false} NothingBeginsSwitchedOff(w: World, limits: Limits, events: seq<Event>)
    requires NoTopUps(w.topUp) && forall e | e in events :: !SwitchedOn(e)
    ensures NoTopUps(Run(w, limits, events).topUp)
    decreases |events|
  {
    if events != [] {
      assert events[0] in events;
      NoTopUpBegins(w, limits, events[0]);
      NothingBeginsSwitchedOff(Step(w, limits, events[0]), limits, events[1..]);
    }
  }

  /** Where execution is never switched on, no top-up is sent and none is recorded. */
  lemma SwitchedOffMeansNoTopUps(keyed: bool, limits: Limits, events: seq<Event>)
    requires forall e | e in events :: !SwitchedOn(e)
    ensures var t := Run(Initial(keyed), limits, events).topUp; t.records == map[] && t.ledger.sent == []
  {
    NothingBeginsSwitchedOff(Initial(keyed), limits, events);
  }

  lemma TopUpLedgerStep(w: World, limits: Limits, event: Event)
    ensures Grows(w.topUp.ledger, Step(w, limits, event).topUp.ledger)
  {
    if event.OfTopUp? { T.EventGrowsLedger(w.topUps, w.topUp, event.topUp); }
  }

  lemma {:induction false} TopUpLedgerGrows(w: World, limits: Limits, events: seq<Event>)
    ensures Grows(w.topUp.ledger, Run(w, limits, events).topUp.ledger)
    decreases |events|
  {
    if events != [] {
      TopUpLedgerStep(w, limits, events[0]);
      TopUpLedgerGrows(Step(w, limits, events[0]), limits, events[1..]);
    }
  }

  // ------------------------------------------------------------------ quotes and owners

  /** Each owner has at most so many usable quotes of a kind, and never two for one choice. */
  lemma LimitsHold(keyed: bool, limits: Limits, events: seq<Event>)
    ensures var w := Run(Initial(keyed), limits, events);
      WithinLimits(w.purchases, limits) && WithinLimits(w.topUps, limits)
  {
    ReachableInv(keyed, limits, events);
  }

  predicate Prepares(event: Event) { event.PreparePurchase? || event.PrepareTopUp? }

  ghost predicate NoneLater(w: World, now: int) { NotBefore(w.purchases, now) && NotBefore(w.topUps, now) }

  lemma CreationsStay(w: World, w': World, now: int)
    requires NoneLater(w, now) && Forward(w, w') && SameQuotes(w, w')
    ensures NoneLater(w', now)
  {
  }

  lemma CreationsOnPreparing(book: Book, owner: Owner, terms: Terms, moment: int, limits: Limits, id: Id, now: int)
    requires NotBefore(book, now) && moment <= now
    ensures NotBefore(Prepared(book, owner, terms, moment, limits, id), now)
  {
  }

  lemma CreationsAfterStep(w: World, limits: Limits, event: Event, now: int)
    requires Inv(w, limits) && NoneLater(w, now) && (Prepares(event) ==> event.moment <= now)
    ensures NoneLater(Step(w, limits, event), now)
  {
    match event {
      case PreparePurchase(owner, terms, moment, id) =>
        CreationsOnPreparing(w.purchases, owner, terms, moment, limits, id, now);
      case PrepareTopUp(owner, terms, moment, id) =>
        CreationsOnPreparing(w.topUps, owner, terms, moment, limits, id, now);
      case _ =>
        StepKeepsInv(w, limits, event);
        OnlyPreparingFiles(w, limits, event);
        CreationsStay(w, Step(w, limits, event), now);
    }
  }

  lemma {:induction false} CreationsAlongRuns(w: World, limits: Limits, events: seq<Event>, now: int)
    requires Inv(w, limits) && NoneLater(w, now)
    requires forall e | e in events && Prepares(e) :: e.moment <= now
    ensures NoneLater(Run(w, limits, events), now)
    decreases |events|
  {
    if events != [] {
      assert events[0] in events;
      StepKeepsInv(w, limits, events[0]);
      CreationsAfterStep(w, limits, events[0], now);
      CreationsAlongRuns(Step(w, limits, events[0]), limits, events[1..], now);
    }
  }

  /** A choice its owner still holds is prepared again whatever the limit: it can be refused only if some
      quote was prepared before at a later reading of the clock. */
  lemma HeldChoicesAreFiledAgain(
    keyed: bool, limits: Limits, events: seq<Event>, owner: Owner, terms: Terms, moment: int, id: Id, topUp: bool)
    ensures var w := Run(Initial(keyed), limits, events);
      var book := if topUp then w.topUps else w.purchases;
      SameChoice(book, ActiveIds(book, owner, moment), terms) != {} ==>
        || Prepare(book, owner, terms, moment, limits, id).1
        || exists e | e in events :: Prepares(e) && e.moment > moment
  {
    var w := Run(Initial(keyed), limits, events);
    var book := if topUp then w.topUps else w.purchases;
    ReachableInv(keyed, limits, events);
    if existing :| existing in SameChoice(book, ActiveIds(book, owner, moment), terms) {
      if !exists e | e in events :: Prepares(e) && e.moment > moment {
        InitialInv(keyed, limits);
        CreationsAlongRuns(Initial(keyed), limits, events, moment);
        RepreparingIsNeverRefused(book, owner, terms, moment, limits, id, existing);
      }
    }
  }

  /** Refused it is, where the clock was set back between two preparations. */
  lemma HeldChoiceIsRefusedAfterTheClockWentBack(keyed: bool, owner: Owner, one: Terms, two: Terms)
    requires one.Choice() != two.Choice()
    ensures var limits := Limits(300, 1);
      var events := [PreparePurchase(owner, one, 0, "A"), PreparePurchase(owner, two, 301, "B")];
      var book := Run(Initial(keyed), limits, events).purchases;
      && SameChoice(book, ActiveIds(book, owner, 299), one) != {}
      && !Prepare(book, owner, one, 299, limits, "C").1
  {
    var limits := Limits(300, 1);
    var a, b := PreparePurchase(owner, one, 0, "A"), PreparePurchase(owner, two, 301, "B");
    RunOneMore(Initial(keyed), limits, [a], b);
    RunOneMore(Initial(keyed), limits, [], a);
    assert [] + [a] == [a] && [a] + [b] == [a, b];
    var first := Prepare(map[], owner, one, 0, limits, "A").0;
    assert "B" !in first;
    RepreparingMayBeRefusedAfterTheClockWentBack(owner, one, two, limits);
  }

  lemma OwnersAreFixed(w: World, limits: Limits, events: seq<Event>, id: Id)
    requires Inv(w, limits) && id in w.purchases
    ensures id in Run(w, limits, events).purchases
      && Run(w, limits, events).purchases[id].owner == w.purchases[id].owner
  {
    RunKeepsInv(w, limits, events);
  }

  /** A quote is never lost, its owner and terms never change, and once cancelled or consumed it is
      never active again. */
  lemma QuotesOnlyMoveForward(keyed: bool, limits: Limits, before: seq<Event>, after: seq<Event>)
    ensures var w, w' := Run(Initial(keyed), limits, before), Run(Initial(keyed), limits, before + after);
      Evolves(w.purchases, w'.purchases) && Evolves(w.topUps, w'.topUps)
  {
    ReachableInv(keyed, limits, before);
    RunAppend(Initial(keyed), limits, before, after);
    RunKeepsInv(Run(Initial(keyed), limits, before), limits, after);
  }

  /** What is on record as bought has used its quote up, for good: it can never become a second order. */
  lemma BoughtQuotesAreConsumed(keyed: bool, limits: Limits, before: seq<Event>, after: seq<Event>, id: Id)
    ensures var w, w' := Run(Initial(keyed), limits, before), Run(Initial(keyed), limits, before + after);
      && (id in w.wallet.records && w.wallet.records[id].body.status.Succeeded? ==>
            id in w'.purchases && w'.purchases[id].body.status == Consumed)
      && (id in w.card.records && w.card.records[id].body.settled == Some(Card.PaymentCompleted) ==>
            id in w'.purchases && w'.purchases[id].body.status == Consumed)
      && (id in w.topUp.records && w.topUp.records[id].body.status.Succeeded? ==>
            id in w'.topUps && w'.topUps[id].body.status == Consumed)
  {
    var w := Run(Initial(keyed), limits, before);
    ReachableInv(keyed, limits, before);
    RunAppend(Initial(keyed), limits, before, after);
    RunKeepsInv(w, limits, after);
    assert W.Local(w.purchases, w.wallet, id) && C.Local(w.purchases, w.card, id) && T.Local(w.topUps, w.topUp, id);
  }

  /** Every record belongs to its quote's owner, so a record an owner cannot see is never overwritten
      by one made for them. */
  lemma RecordsBelongToTheirQuotes(keyed: bool, limits: Limits, events: seq<Event>, id: Id)
    ensures var w := Run(Initial(keyed), limits, events);
      && (id in w.wallet.records ==> id in w.purchases && w.wallet.records[id].owner == w.purchases[id].owner)
      && (id in w.card.records ==> id in w.purchases && w.card.records[id].owner == w.purchases[id].owner)
      && (id in w.topUp.records ==> id in w.topUps && w.topUp.records[id].owner == w.topUps[id].owner)
  {
    var w := Run(Initial(keyed), limits, events);
    ReachableInv(keyed, limits, events);
    assert W.Local(w.purchases, w.wallet, id) && C.Local(w.purchases, w.card, id) && T.Local(w.topUps, w.topUp, id);
  }
}
