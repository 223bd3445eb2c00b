/** The whole server over arbitrary runs: preparing, cancelling, confirming, paying, checking, topping
    up and ending sessions, in any order and interleaved at every suspension point, against a platform
    that answers late, never, or in its own time. */
module World {
  import opened Stores
  import opened Quotes
  import W = WalletSafety
  import C = CardSafety
  import T = TopUpSafety

  /** Purchase quotes and top-up quotes are kept apart; the wallet and the card share the first. */
  datatype World = World(purchases: Book, topUps: Book, wallet: W.WalletState, card: C.CardState, topUp: T.TopUpState)

  datatype Event =
    | PreparePurchase(owner: Owner, terms: Terms, moment: int, id: Id)
    | CancelPurchase(owner: Owner, id: Id, now: int)
    | PrepareTopUp(owner: Owner, terms: Terms, moment: int, id: Id)
    | CancelTopUp(owner: Owner, id: Id, now: int)
    | EndSession(sessionKey: string)
    | CancelPurchases(sessionKey: string)
    | DropExecutions(sessionKey: string)
    | DropCheckouts(sessionKey: string)
    | CancelTopUps(sessionKey: string)
    | DropTopUpExecutions(sessionKey: string)
    | OfWallet(wallet: W.WalletEvent)
    | OfCard(card: C.CardEvent)
    | OfTopUp(topUp: T.TopUpEvent)
  {
    predicate IsListener() {
      CancelPurchases? || DropExecutions? || DropCheckouts? || CancelTopUps? || DropTopUpExecutions?
    }
  }

  function Initial(keyed: bool): World { World(map[], map[], W.Initial(keyed), C.Initial(), T.Initial()) }

  /** Quote ids drawn at random are taken to be new. */
  function Prepared(book: Book, owner: Owner, terms: Terms, moment: int, limits: Limits, id: Id): Book {
    if id in book then book else Prepare(book, owner, terms, moment, limits, id).0
  }

  /** The server ends a session in one step. The five events after it are its listeners, one at a time
      and with anything in between, on the condition that a listener drops records only while no quote
      of the session is active. */
  ghost function Step(w: World, limits: Limits, event: Event): World {
    match event
    case PreparePurchase(owner, terms, moment, id) =>
      w.(purchases := Prepared(w.purchases, owner, terms, moment, limits, id))
    case CancelPurchase(owner, id, now) => w.(purchases := Cancel(w.purchases, owner, id, now))
    case PrepareTopUp(owner, terms, moment, id) =>
      w.(topUps := Prepared(w.topUps, owner, terms, moment, limits, id))
    case CancelTopUp(owner, id, now) => w.(topUps := Cancel(w.topUps, owner, id, now))
    case EndSession(sessionKey) =>
      World(CancelSession(w.purchases, sessionKey), CancelSession(w.topUps, sessionKey),
            W.SessionStep(w.wallet, sessionKey), C.SessionStep(w.card, sessionKey), T.SessionStep(w.topUp, sessionKey))
    case CancelPurchases(sessionKey) => w.(purchases := CancelSession(w.purchases, sessionKey))
    case DropExecutions(sessionKey) =>
      if ActiveOfSession(w.purchases, sessionKey) != {} then w else w.(wallet := W.SessionStep(w.wallet, sessionKey))
    case DropCheckouts(sessionKey) =>
      if ActiveOfSession(w.purchases, sessionKey) != {} then w else w.(card := C.SessionStep(w.card, sessionKey))
    case CancelTopUps(sessionKey) => w.(topUps := CancelSession(w.topUps, sessionKey))
    case DropTopUpExecutions(sessionKey) =>
      if ActiveOfSession(w.topUps, sessionKey) != {} then w else w.(topUp := T.SessionStep(w.topUp, sessionKey))
    case OfWallet(e) => var (book, wallet) := W.Apply(w.purchases, w.wallet, e); w.(purchases := book, wallet := wallet)
    case OfCard(e) => var (book, card) := C.Apply(w.purchases, w.card, e); w.(purchases := book, card := card)
    case OfTopUp(e) => var (book, topUp) := T.Apply(w.topUps, w.topUp, e); w.(topUps := book, topUp := topUp)
  }

  ghost function Run(w: World, limits: Limits, events: seq<Event>): World
    decreases |events|
  {
    if events == [] then w else Run(Step(w, limits, events[0]), limits, events[1..])
  }

  lemma {:induction false} RunAppend(w: World, limits: Limits, before: seq<Event>, after: seq<Event>)
    ensures Run(w, limits, before + after) == Run(Run(w, limits, before), limits, after)
    decreases |before|
  {
    if before == [] {
      assert before + after == after;
    } else {
      assert (before + after)[1..] == before[1..] + after;
      RunAppend(Step(w, limits, before[0]), limits, before[1..], after);
    }
  }

  ghost predicate Inv(w: World, limits: Limits) {
    && W.Inv(w.purchases, w.wallet) && C.Inv(w.purchases, w.card)
    && T.Inv(w.topUps, w.topUp) && T.Vouched(w.topUps, w.topUp)
    && W.Filings(w.wallet) && C.Trackable(w.card) && T.Filings(w.topUp)
    && WithinLimits(w.purchases, limits) && WithinLimits(w.topUps, limits)
  }

  /** Both books only move forward. */
  ghost predicate Forward(before: World, after: World) {
    Evolves(before.purchases, after.purchases) && Evolves(before.topUps, after.topUps)
  }

  /** No quote was filed. */
  ghost predicate SameQuotes(before: World, after: World) {
    after.purchases.Keys == before.purchases.Keys && after.topUps.Keys == before.topUps.Keys
  }

  lemma InitialInv(keyed: bool, limits: Limits)
    ensures Inv(Initial(keyed), limits)
  {
    W.InitialInv(keyed);
    C.InitialInv();
    T.InitialInv();
    forall id ensures T.VouchedAt(map[], T.Initial(), id) {}
    WithinLimitsOfNothing(limits);
  }

  /** The book of either kind of quote, moved forward by preparing or cancelling. */
  lemma PreparedEvolves(book: Book, owner: Owner, terms: Terms, moment: int, limits: Limits, id: Id)
    requires WithinLimits(book, limits)
    ensures var after := Prepared(book, owner, terms, moment, limits, id);
      Evolves(book, after) && WithinLimits(after, limits)
  {
    if id !in book {
      PreparingEvolves(book, owner, terms, moment, limits, id);
      PrepareKeepsLimits(book, owner, terms, moment, limits, id);
    }
  }

  lemma CancelEvolves(book: Book, owner: Owner, id: Id, now: int, limits: Limits)
    requires WithinLimits(book, limits)
    ensures var after := Cancel(book, owner, id, now); Evolves(book, after) && WithinLimits(after, limits)
  {
    var after := Cancel(book, owner, id, now);
    CancellingEvolves(book, owner, id, now);
    ShrinkingKeepsLimits(book, after, limits);
  }

  lemma PurchasesMove(w: World, after: Book, limits: Limits)
    requires Inv(w, limits) && Evolves(w.purchases, after) && WithinLimits(after, limits)
    ensures Inv(w.(purchases := after), limits) && Forward(w, w.(purchases := after))
  {
    W.BookStable(w.purchases, after, w.wallet);
    C.BookStable(w.purchases, after, w.card);
  }

  lemma TopUpsMove(w: World, after: Book, limits: Limits)
    requires Inv(w, limits) && Evolves(w.topUps, after) && WithinLimits(after, limits)
    ensures Inv(w.(topUps := after), limits) && Forward(w, w.(topUps := after))
  {
    T.BookStable(w.topUps, after, w.topUp);
    T.EvolutionKeepsVouched(w.topUps, after, w.topUp);
  }

  /** Ending a session is its listeners run in the order they are registered. */
  function Listeners(sessionKey: string): seq<Event> {
    [CancelPurchases(sessionKey), DropExecutions(sessionKey), DropCheckouts(sessionKey),
     CancelTopUps(sessionKey), DropTopUpExecutions(sessionKey)]
  }

  lemma SessionEndIsItsListeners(w: World, limits: Limits, sessionKey: string)
    ensures Run(w, limits, Listeners(sessionKey)) == Step(w, limits, EndSession(sessionKey))
  {
    SessionEndLeavesNoneActive(w.purchases, sessionKey);
    SessionEndLeavesNoneActive(w.topUps, sessionKey);
    var events := Listeners(sessionKey);
    var w1 := Step(w, limits, events[0]);
    var w2 := Step(w1, limits, events[1]);
    var w3 := Step(w2, limits, events[2]);
    var w4 := Step(w3, limits, events[3]);
    var w5 := Step(w4, limits, events[4]);
    assert Run(w5, limits, events[5..]) == w5;
    assert Run(w4, limits, events[4..]) == w5;
    assert Run(w3, limits, events[3..]) == w5;
    assert Run(w2, limits, events[2..]) == w5;
    assert Run(w1, limits, events[1..]) == w5;
  }

  lemma ForwardIsTransitive(a: World, b: World, c: World)
    requires Forward(a, b) && Forward(b, c)
    ensures Forward(a, c)
  {
    EvolvesIsTransitive(a.purchases, b.purchases, c.purchases);
    EvolvesIsTransitive(a.topUps, b.topUps, c.topUps);
  }

  lemma QuotesAreCancelled(w: World, limits: Limits, sessionKey: string)
    requires Inv(w, limits)
    ensures var w' := w.(purchases := CancelSession(w.purchases, sessionKey)); Inv(w', limits) && Forward(w, w')
    ensures var w' := w.(topUps := CancelSession(w.topUps, sessionKey)); Inv(w', limits) && Forward(w, w')
  {
    SessionEndEvolves(w.purchases, sessionKey);
    ShrinkingKeepsLimits(w.purchases, CancelSession(w.purchases, sessionKey), limits);
    PurchasesMove(w, CancelSession(w.purchases, sessionKey), limits);
    SessionEndEvolves(w.topUps, sessionKey);
    ShrinkingKeepsLimits(w.topUps, CancelSession(w.topUps, sessionKey), limits);
    TopUpsMove(w, CancelSession(w.topUps, sessionKey), limits);
  }

  lemma PurchaseRecordsAreDropped(w: World, limits: Limits, sessionKey: string)
    requires Inv(w, limits) && ActiveOfSession(w.purchases, sessionKey) == {}
    ensures Inv(w.(wallet := W.SessionStep(w.wallet, sessionKey)), limits)
    ensures Inv(w.(card := C.SessionStep(w.card, sessionKey)), limits)
  {
    W.SessionKeepsInv(w.purchases, w.wallet, sessionKey);
    C.SessionKeepsInv(w.purchases, w.card, sessionKey);
  }

  lemma TopUpRecordsAreDropped(w: World, limits: Limits, sessionKey: string)
    requires Inv(w, limits) && ActiveOfSession(w.topUps, sessionKey) == {}
    ensures Inv(w.(topUp := T.SessionStep(w.topUp, sessionKey)), limits)
  {
    T.SessionKeepsInv(w.topUps, w.topUp, sessionKey);
    T.SessionKeepsVouched(w.topUps, w.topUp, sessionKey);
  }

  lemma ListenerKeepsInv(w: World, limits: Limits, event: Event)
    requires Inv(w, limits) && event.IsListener()
    ensures Inv(Step(w, limits, event), limits) && Forward(w, Step(w, limits, event))
  {
    var sessionKey := event.sessionKey;
    if event.CancelPurchases? || event.CancelTopUps? {
      QuotesAreCancelled(w, limits, sessionKey);
    } else if event.DropTopUpExecutions? {
      if ActiveOfSession(w.topUps, sessionKey) == {} { TopUpRecordsAreDropped(w, limits, sessionKey); }
    } else {
      if ActiveOfSession(w.purchases, sessionKey) == {} { PurchaseRecordsAreDropped(w, limits, sessionKey); }
    }
  }

  lemma {:induction false} ListenersKeepInv(w: World, limits: Limits, events: seq<Event>)
    requires Inv(w, limits) && forall i | 0 <= i < |events| :: events[i].IsListener()
    ensures Inv(Run(w, limits, events), limits) && Forward(w, Run(w, limits, events))
    decreases |events|
  {
    if events != [] {
      ListenerKeepsInv(w, limits, events[0]);
      ListenersKeepInv(Step(w, limits, events[0]), limits, events[1..]);
      ForwardIsTransitive(w, Step(w, limits, events[0]), Run(w, limits, events));
    }
  }

  lemma SessionEndKeepsInv(w: World, limits: Limits, sessionKey: string)
    requires Inv(w, limits)
    ensures Inv(Step(w, limits, EndSession(sessionKey)), limits) && Forward(w, Step(w, limits, EndSession(sessionKey)))
  {
    SessionEndIsItsListeners(w, limits, sessionKey);
    ListenersKeepInv(w, limits, Listeners(sessionKey));
  }

  lemma WalletEventKeepsInv(w: World, limits: Limits, e: W.WalletEvent)
    requires Inv(w, limits)
    ensures Inv(Step(w, limits, OfWallet(e)), limits) && Forward(w, Step(w, limits, OfWallet(e)))
    ensures SameQuotes(w, Step(w, limits, OfWallet(e)))
  {
    var (after, wallet) := W.Apply(w.purchases, w.wallet, e);
    W.EventKeepsInv(w.purchases, w.wallet, e);
    W.EventKeepsFilings(w.purchases, w.wallet, e);
    C.BookStable(w.purchases, after, w.card);
    ShrinkingKeepsLimits(w.purchases, after, limits);
  }

  lemma CardEventKeepsInv(w: World, limits: Limits, e: C.CardEvent)
    requires Inv(w, limits)
    ensures Inv(Step(w, limits, OfCard(e)), limits) && Forward(w, Step(w, limits, OfCard(e)))
    ensures SameQuotes(w, Step(w, limits, OfCard(e)))
  {
    var (after, card) := C.Apply(w.purchases, w.card, e);
    C.EventKeepsInv(w.purchases, w.card, e);
    C.EventKeepsTrackable(w.purchases, w.card, e);
    W.BookStable(w.purchases, after, w.wallet);
    ShrinkingKeepsLimits(w.purchases, after, limits);
  }

  lemma TopUpEventKeepsInv(w: World, limits: Limits, e: T.TopUpEvent)
    requires Inv(w, limits)
    ensures Inv(Step(w, limits, OfTopUp(e)), limits) && Forward(w, Step(w, limits, OfTopUp(e)))
    ensures SameQuotes(w, Step(w, limits, OfTopUp(e)))
  {
    var (after, topUp) := T.Apply(w.topUps, w.topUp, e);
    T.EventKeepsInv(w.topUps, w.topUp, e);
    T.EventKeepsVouched(w.topUps, w.topUp, e);
    T.EventKeepsFilings(w.topUps, w.topUp, e);
    ShrinkingKeepsLimits(w.topUps, after, limits);
  }

  /** Every event keeps the invariant and moves the books forward. */
  lemma StepKeepsInv(w: World, limits: Limits, event: Event)
    requires Inv(w, limits)
    ensures Inv(Step(w, limits, event), limits) && Forward(w, Step(w, limits, event))
  {
    match event
    case PreparePurchase(owner, terms, moment, id) =>
      PreparedEvolves(w.purchases, owner, terms, moment, limits, id);
      PurchasesMove(w, Prepared(w.purchases, owner, terms, moment, limits, id), limits);
    case CancelPurchase(owner, id, now) =>
      CancelEvolves(w.purchases, owner, id, now, limits);
      PurchasesMove(w, Cancel(w.purchases, owner, id, now), limits);
    case PrepareTopUp(owner, terms, moment, id) =>
      PreparedEvolves(w.topUps, owner, terms, moment, limits, id);
      TopUpsMove(w, Prepared(w.topUps, owner, terms, moment, limits, id), limits);
    case CancelTopUp(owner, id, now) =>
      CancelEvolves(w.topUps, owner, id, now, limits);
      TopUpsMove(w, Cancel(w.topUps, owner, id, now), limits);
    case EndSession(sessionKey) => SessionEndKeepsInv(w, limits, sessionKey);
    case OfWallet(e) => WalletEventKeepsInv(w, limits, e);
    case OfCard(e) => CardEventKeepsInv(w, limits, e);
    case OfTopUp(e) => TopUpEventKeepsInv(w, limits, e);
    case _ => ListenerKeepsInv(w, limits, event);
  }

  /** Only preparing files a quote. */
  lemma OnlyPreparingFiles(w: World, limits: Limits, event: Event)
    requires Inv(w, limits) && !event.PreparePurchase? && !event.PrepareTopUp?
    ensures SameQuotes(w, Step(w, limits, event))
  {
    match event
    case CancelPurchase(owner, id, now) => CancellingEvolves(w.purchases, owner, id, now);
    case CancelTopUp(owner, id, now) => CancellingEvolves(w.topUps, owner, id, now);
    case OfWallet(e) => WalletEventKeepsInv(w, limits, e);
    case OfCard(e) => CardEventKeepsInv(w, limits, e);
    case OfTopUp(e) => TopUpEventKeepsInv(w, limits, e);
    case _ =>
  }

  lemma {:induction false} RunKeepsInv(w: World, limits: Limits, events: seq<Event>)
    requires Inv(w, limits)
    ensures Inv(Run(w, limits, events), limits) && Forward(w, Run(w, limits, events))
    decreases |events|
  {
    if events != [] {
      StepKeepsInv(w, limits, events[0]);
      RunKeepsInv(Step(w, limits, events[0]), limits, events[1..]);
      ForwardIsTransitive(w, Step(w, limits, events[0]), Run(w, limits, events));
    }
  }
}
