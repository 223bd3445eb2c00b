/** The server together with its login sessions: whose session each request to the platform goes out
    with. */
module Departures {
  import opened Strings
  import opened Stores
  import opened Money
  import opened Quotes
  import opened Ledgers
  import opened World
  import S = Sessions
  import W = WalletSafety
  import C = CardSafety
  import T = TopUpSafety
  import WalletPurchase

  /** `admitted` holds every owner a call was once let in for; the last three fields are history, the users
      whose sessions the requests in the three ledgers went out with. */
  datatype Server = Server(
    world: World,
    sessions: map<string, S.SessionState>,
    admitted: set<Owner>,
    walletUsers: seq<string>,
    cardUsers: seq<string>,
    topUpUsers: seq<string>)
  {
    function At(sessionKey: string): S.SessionState {
      if sessionKey in sessions then sessions[sessionKey] else S.START
    }
  }

  datatype Happening =
    | Admits(sessionKey: string)
    | Changes(sessionKey: string, change: S.Event)
    | Acts(event: Event)

  function Started(keyed: bool): Server { Server(Initial(keyed), map[], {}, [], [], []) }

  /** Whom an event acts for, where a caller's identity is looked at. */
  function CallerOf(event: Event): Option<Owner> {
    match event
    case PreparePurchase(owner, _, _, _) => Some(owner)
    case CancelPurchase(owner, _, _) => Some(owner)
    case PrepareTopUp(owner, _, _, _) => Some(owner)
    case CancelTopUp(owner, _, _) => Some(owner)
    case OfWallet(ConfirmEvent(owner, _, _, _)) => Some(owner)
    case OfCard(CreateEvent(owner, _, _, _)) => Some(owner)
    case OfCard(CheckEvent(owner, _, _)) => Some(owner)
    case OfTopUp(ConfirmEvent(_, owner, _, _, _)) => Some(owner)
    case _ => None
  }

  /** For whom an event sends a request, if it sends one. */
  function SenderOf(w: World, event: Event): Option<Owner> {
    match event
    case OfWallet(SendEvent(id)) =>
      if id in w.wallet.flights && w.wallet.flights[id].sent.None?
      then Some(w.wallet.flights[id].flight.owner)
      else None
    case OfCard(AskEvent(id)) =>
      if id in w.card.openings && !w.card.openings[id].sent then Some(w.card.openings[id].owner) else None
    case OfTopUp(SendEvent(id)) =>
      if id in w.topUp.flights && w.topUp.flights[id].stage.Ready? then Some(w.topUp.flights[id].owner) else None
    case _ => None
  }

  function Noted(users: seq<string>, before: Ledger, after: Ledger, user: string): seq<string> {
    if |after.sent| > |before.sent| then users + [user] else users
  }

  /** A call is let in for the user signed in then, and may wait however long after that. A request takes
      its token from the session stored when it is sent, and is not sent where none is. */
  ghost function Happens(s: Server, limits: Limits, h: Happening): Server {
    match h
    case Admits(sessionKey) =>
      if s.At(sessionKey).session.None? then s
      else s.(admitted := s.admitted + {Owner(sessionKey, s.At(sessionKey).session.value.user)})
    case Changes(sessionKey, change) => s.(sessions := s.sessions[sessionKey := S.Step(s.At(sessionKey), change)])
    case Acts(event) => Acted(s, event, Step(s.world, limits, event))
  }

  function Acted(s: Server, event: Event, after: World): Server {
    if CallerOf(event).Some? && CallerOf(event).value !in s.admitted then s
    else
      match SenderOf(s.world, event)
      case None => s.(world := after)
      case Some(owner) =>
        if s.At(owner.sessionKey).session.None? then s
        else Departed(s, after, s.At(owner.sessionKey).session.value.user)
  }

  function Departed(s: Server, w: World, user: string): Server {
    s.(world := w,
       walletUsers := Noted(s.walletUsers, s.world.wallet.ledger, w.wallet.ledger, user),
       cardUsers := Noted(s.cardUsers, s.world.card.ledger, w.card.ledger, user),
       topUpUsers := Noted(s.topUpUsers, s.world.topUp.ledger, w.topUp.ledger, user))
  }

  ghost function HappensAll(s: Server, limits: Limits, hs: seq<Happening>): Server
    decreases |hs|
  {
    if hs == [] then s else HappensAll(Happens(s, limits, hs[0]), limits, hs[1..])
  }

  /** The platform answers every rotation with a session of the same user. */
  ghost predicate KeepsUsers(s: Server, h: Happening) {
    h.Changes? && h.change.Finish? && s.At(h.sessionKey).rotating.Some? ==>
      h.change.user in {"", s.At(h.sessionKey).rotating.value.user}
  }

  ghost predicate AllKeepUsers(s: Server, limits: Limits, hs: seq<Happening>)
    decreases |hs|
  {
    hs != [] ==> KeepsUsers(s, hs[0]) && AllKeepUsers(Happens(s, limits, hs[0]), limits, hs[1..])
  }

  // ------------------------------------------------------------------ what an event sends

  /** The requests of one ledger, each with the user it was sent as: an entry of a user's own quote was
      sent as that user. */
  ghost predicate SentAsOwners(sent: seq<Request>, users: seq<string>, book: Book) {
    && |users| == |sent|
    && forall i | 0 <= i < |sent| :: sent[i].quote in book && users[i] == book[sent[i].quote].owner.userRef
  }

  ghost predicate AllSentAsOwners(s: Server) {
    && SentAsOwners(s.world.wallet.ledger.sent, s.walletUsers, s.world.purchases)
    && SentAsOwners(s.world.card.ledger.sent, s.cardUsers, s.world.purchases)
    && SentAsOwners(s.world.topUp.ledger.sent, s.topUpUsers, s.world.topUps)
  }

  /** An event sends nothing, or one request: for its sender's own quote. */
  ghost predicate SendsFor(before: seq<Request>, after: seq<Request>, book: Book, sender: Option<Owner>) {
    || after == before
    || (|after| == |before| + 1 && before <= after && sender.Some?
        && after[|before|].quote in book && book[after[|before|].quote].owner == sender.value)
  }

  ghost predicate Sends(w: World, w': World, sender: Option<Owner>) {
    && SendsFor(w.wallet.ledger.sent, w'.wallet.ledger.sent, w.purchases, sender)
    && SendsFor(w.card.ledger.sent, w'.card.ledger.sent, w.purchases, sender)
    && SendsFor(w.topUp.ledger.sent, w'.topUp.ledger.sent, w.topUps, sender)
  }

  lemma WalletSends(book: Book, w: W.WalletState, e: W.WalletEvent)
    requires W.Inv(book, w)
    ensures var sender := if e.SendEvent? && e.id in w.flights && w.flights[e.id].sent.None?
      then Some(w.flights[e.id].flight.owner) else None;
      SendsFor(w.ledger.sent, W.Apply(book, w, e).1.ledger.sent, book, sender)
  {
    if e.SendEvent? { assert W.Local(book, w, e.id); }
  }

  lemma CardSends(book: Book, c: C.CardState, e: C.CardEvent)
    requires C.Inv(book, c)
    ensures var sender := if e.AskEvent? && e.id in c.openings && !c.openings[e.id].sent
      then Some(c.openings[e.id].owner) else None;
      SendsFor(c.ledger.sent, C.Apply(book, c, e).1.ledger.sent, book, sender)
  {
    if e.AskEvent? { assert C.Local(book, c, e.id); }
  }

  lemma TopUpSends(book: Book, t: T.TopUpState, e: T.TopUpEvent)
    requires T.Inv(book, t)
    ensures var sender := if e.SendEvent? && e.id in t.flights && t.flights[e.id].stage.Ready?
      then Some(t.flights[e.id].owner) else None;
      SendsFor(t.ledger.sent, T.Apply(book, t, e).1.ledger.sent, book, sender)
  {
    if e.SendEvent? { assert T.Local(book, t, e.id); }
  }

  /** Nothing else sends anything. */
  lemma OthersSendNothing(w: World, limits: Limits, event: Event)
    requires !event.OfWallet? && !event.OfCard? && !event.OfTopUp?
    ensures Sends(w, Step(w, limits, event), None)
  {
  }

  lemma EventSends(w: World, limits: Limits, event: Event)
    requires Inv(w, limits)
    ensures Sends(w, Step(w, limits, event), SenderOf(w, event))
  {
    match event
    case OfWallet(e) => WalletSends(w.purchases, w.wallet, e);
    case OfCard(e) => CardSends(w.purchases, w.card, e);
    case OfTopUp(e) => TopUpSends(w.topUps, w.topUp, e);
    case _ => OthersSendNothing(w, limits, event);
  }

  /** What of a step matters here. */
  ghost predicate Stepped(w: World, w': World, limits: Limits, event: Event) {
    Inv(w, limits) && Inv(w', limits) && Forward(w, w') && Sends(w, w', SenderOf(w, event))
  }

  lemma StepsStep(w: World, limits: Limits, event: Event)
    requires Inv(w, limits)
    ensures Stepped(w, Step(w, limits, event), limits, event)
  {
    StepKeepsInv(w, limits, event);
    EventSends(w, limits, event);
  }

  // ------------------------------------------------------------------ all requests of all runs

  /** Which users may log in under which session key. */
  ghost predicate LoginsWithin(hs: seq<Happening>, logins: set<(string, string)>) {
    forall h | h in hs && h.Changes? && h.change.Login? :: (h.sessionKey, h.change.session.user) in logins
  }

  ghost predicate Of(session: Option<S.Session>, sessionKey: string, logins: set<(string, string)>) {
    session.Some? ==> (sessionKey, session.value.user) in logins
  }

  ghost predicate OwnersWithin(book: Book, logins: set<(string, string)>) {
    forall id | id in book :: (book[id].owner.sessionKey, book[id].owner.userRef) in logins
  }

  /** Sessions, callers and quotes are all of users who may log in under their key. */
  ghost predicate Within(s: Server, logins: set<(string, string)>) {
    && (forall key | key in s.sessions ::
          Of(s.sessions[key].session, key, logins) && Of(s.sessions[key].rotating, key, logins))
    && (forall owner | owner in s.admitted :: (owner.sessionKey, owner.userRef) in logins)
    && OwnersWithin(s.world.purchases, logins) && OwnersWithin(s.world.topUps, logins)
  }

  ghost predicate OneUserEach(logins: set<(string, string)>) {
    forall a, b | a in logins && b in logins && a.0 == b.0 :: a == b
  }

  lemma ChangeStaysWithin(s: Server, limits: Limits, h: Happening, logins: set<(string, string)>)
    requires Within(s, logins) && h.Changes? && KeepsUsers(s, h)
    requires h.change.Login? ==> (h.sessionKey, h.change.session.user) in logins
    ensures Within(Happens(s, limits, h), logins)
  {
    var at := s.At(h.sessionKey);
    assert Of(at.session, h.sessionKey, logins) && Of(at.rotating, h.sessionKey, logins);
  }

  lemma OwnersStayWithin(before: Book, after: Book, logins: set<(string, string)>)
    requires OwnersWithin(before, logins) && Evolves(before, after) && after.Keys == before.Keys
    ensures OwnersWithin(after, logins)
  {
  }

  lemma PreparedStaysWithin(
    book: Book, owner: Owner, terms: Terms, moment: int, limits: Limits, id: Id, logins: set<(string, string)>)
    requires OwnersWithin(book, logins) && (owner.sessionKey, owner.userRef) in logins
    ensures OwnersWithin(Prepared(book, owner, terms, moment, limits, id), logins)
  {
  }

  lemma BooksStayWithin(w: World, limits: Limits, event: Event, logins: set<(string, string)>)
    requires Inv(w, limits) && OwnersWithin(w.purchases, logins) && OwnersWithin(w.topUps, logins)
    requires CallerOf(event).Some? ==> (CallerOf(event).value.sessionKey, CallerOf(event).value.userRef) in logins
    ensures var w' := Step(w, limits, event); OwnersWithin(w'.purchases, logins) && OwnersWithin(w'.topUps, logins)
  {
    match event
    case PreparePurchase(owner, terms, moment, id) =>
      PreparedStaysWithin(w.purchases, owner, terms, moment, limits, id, logins);
    case PrepareTopUp(owner, terms, moment, id) =>
      PreparedStaysWithin(w.topUps, owner, terms, moment, limits, id, logins);
    case _ =>
      var w' := Step(w, limits, event);
      StepKeepsInv(w, limits, event);
      OnlyPreparingFiles(w, limits, event);
      OwnersStayWithin(w.purchases, w'.purchases, logins);
      OwnersStayWithin(w.topUps, w'.topUps, logins);
  }

  lemma NotedForOwner(
    before: seq<Request>, after: seq<Request>, users: seq<string>, book: Book, book': Book,
    sender: Option<Owner>, user: string)
    requires SentAsOwners(before, users, book) && Evolves(book, book') && SendsFor(before, after, book, sender)
    requires sender.Some? ==> user == sender.value.userRef
    ensures SentAsOwners(after, if |after| > |before| then users + [user] else users, book')
  {
    forall i | 0 <= i < |after| ensures after[i] == if i < |before| then before[i] else after[|before|] {}
  }

  lemma DepartsAsOwner(s: Server, limits: Limits, event: Event, w': World, user: string)
    requires Stepped(s.world, w', limits, event) && AllSentAsOwners(s)
    requires SenderOf(s.world, event).Some? ==> user == SenderOf(s.world, event).value.userRef
    ensures AllSentAsOwners(Departed(s, w', user))
  {
    var w, sender := s.world, SenderOf(s.world, event);
    NotedForOwner(w.wallet.ledger.sent, w'.wallet.ledger.sent, s.walletUsers, w.purchases, w'.purchases, sender, user);
    NotedForOwner(w.card.ledger.sent, w'.card.ledger.sent, s.cardUsers, w.purchases, w'.purchases, sender, user);
    NotedForOwner(w.topUp.ledger.sent, w'.topUp.ledger.sent, s.topUpUsers, w.topUps, w'.topUps, sender, user);
  }

  lemma SendersOwnQuotes(w: World, limits: Limits, event: Event, logins: set<(string, string)>)
    requires Inv(w, limits) && OwnersWithin(w.purchases, logins) && OwnersWithin(w.topUps, logins)
    requires SenderOf(w, event).Some?
    ensures var owner := SenderOf(w, event).value; (owner.sessionKey, owner.userRef) in logins
  {
    match event
    case OfWallet(SendEvent(id)) => assert W.Local(w.purchases, w.wallet, id);
    case OfCard(AskEvent(id)) => assert C.Local(w.purchases, w.card, id);
    case OfTopUp(SendEvent(id)) => assert T.Local(w.topUps, w.topUp, id);
  }

  ghost predicate Good(s: Server, limits: Limits, logins: set<(string, string)>) {
    Inv(s.world, limits) && Within(s, logins) && AllSentAsOwners(s)
  }

  lemma ActedStaysGood(s: Server, limits: Limits, event: Event, w': World, logins: set<(string, string)>)
    requires Good(s, limits, logins) && OneUserEach(logins) && Stepped(s.world, w', limits, event)
    requires CallerOf(event).None? || CallerOf(event).value in s.admitted
    requires OwnersWithin(w'.purchases, logins) && OwnersWithin(w'.topUps, logins)
    ensures Good(Acted(s, event, w'), limits, logins)
  {
    var sender := SenderOf(s.world, event);
    if sender.None? {
      DepartsAsOwner(s, limits, event, w', "");
    } else if s.At(sender.value.sessionKey).session.Some? {
      var session := s.At(sender.value.sessionKey).session.value;
      SendersOwnQuotes(s.world, limits, event, logins);
      assert (sender.value.sessionKey, session.user) in logins;
      DepartsAsOwner(s, limits, event, w', session.user);
    }
  }

  lemma ActKeepsGood(s: Server, limits: Limits, event: Event, logins: set<(string, string)>)
    requires Good(s, limits, logins) && OneUserEach(logins)
    ensures Good(Happens(s, limits, Acts(event)), limits, logins)
  {
    if CallerOf(event).None? || CallerOf(event).value in s.admitted {
      StepsStep(s.world, limits, event);
      BooksStayWithin(s.world, limits, event, logins);
      ActedStaysGood(s, limits, event, Step(s.world, limits, event), logins);
    }
  }

  lemma HappeningKeepsGood(s: Server, limits: Limits, h: Happening, logins: set<(string, string)>)
    requires Good(s, limits, logins) && OneUserEach(logins) && KeepsUsers(s, h)
    requires h.Changes? && h.change.Login? ==> (h.sessionKey, h.change.session.user) in logins
    ensures Good(Happens(s, limits, h), limits, logins)
  {
    match h
    case Admits(_) =>
    case Changes(_, _) => ChangeStaysWithin(s, limits, h, logins);
    case Acts(event) => ActKeepsGood(s, limits, event, logins);
  }

  lemma {:induction false} AllKeepGood(s: Server, limits: Limits, hs: seq<Happening>, logins: set<(string, string)>)
    requires Good(s, limits, logins) && OneUserEach(logins) && AllKeepUsers(s, limits, hs) && LoginsWithin(hs, logins)
    ensures Good(HappensAll(s, limits, hs), limits, logins)
    decreases |hs|
  {
    if hs != [] {
      assert hs[0] in hs;
      HappeningKeepsGood(s, limits, hs[0], logins);
      AllKeepGood(Happens(s, limits, hs[0]), limits, hs[1..], logins);
    }
  }

  // ------------------------------------------------------------------ a request sent as another

  ghost predicate Reaches(keyed: bool, limits: Limits, logins: set<(string, string)>, s: Server) {
    exists hs :: LoginsWithin(hs, logins) && AllKeepUsers(Started(keyed), limits, hs)
      && HappensAll(Started(keyed), limits, hs) == s
  }

  lemma {:induction false} OneMore(s: Server, limits: Limits, hs: seq<Happening>, h: Happening)
    ensures HappensAll(s, limits, hs + [h]) == Happens(HappensAll(s, limits, hs), limits, h)
    ensures AllKeepUsers(s, limits, hs) && KeepsUsers(HappensAll(s, limits, hs), h) ==>
      AllKeepUsers(s, limits, hs + [h])
    decreases |hs|
  {
    if hs == [] {
      assert hs + [h] == [h] && [h][1..] == [];
      assert HappensAll(Happens(s, limits, h), limits, []) == Happens(s, limits, h);
    } else {
      assert (hs + [h])[1..] == hs[1..] + [h] && (hs + [h])[0] == hs[0];
      OneMore(Happens(s, limits, hs[0]), limits, hs[1..], h);
    }
  }

  lemma Next(keyed: bool, limits: Limits, logins: set<(string, string)>, s: Server, h: Happening) returns (s': Server)
    requires Reaches(keyed, limits, logins, s) && KeepsUsers(s, h)
    requires h.Changes? && h.change.Login? ==> (h.sessionKey, h.change.session.user) in logins
    ensures s' == Happens(s, limits, h) && Reaches(keyed, limits, logins, s')
  {
    var hs :| LoginsWithin(hs, logins) && AllKeepUsers(Started(keyed), limits, hs)
      && HappensAll(Started(keyed), limits, hs) == s;
    s' := Happens(s, limits, h);
    OneMore(Started(keyed), limits, hs, h);
    assert LoginsWithin(hs + [h], logins);
  }

  function SomeTerms(): Terms {
    Terms("b", None, PaymentMethod.Wallet, Decimal(false, 500, -2), "USD", "en",
          SearchContext(NoContext, "", "", "", ""), Some(true))
  }

  /** One purchase is under way for its owner, about to be sent. */
  ghost predicate AboutToSend(s: Server, owner: Owner) {
    && "Q" in s.world.purchases && s.world.purchases["Q"].owner == owner
    && "Q" in s.world.wallet.flights && s.world.wallet.flights["Q"].sent.None?
    && s.world.wallet.flights["Q"].flight.owner == owner && s.world.wallet.flights["Q"].flight.id == "Q"
    && |s.walletUsers| == |s.world.wallet.ledger.sent|
  }

  lemma PreparesAndConfirms(keyed: bool, limits: Limits, owner: Owner)
    requires limits.maxActive >= 1 && limits.ttl >= 30
    ensures var w := Step(Initial(keyed), limits, PreparePurchase(owner, SomeTerms(), 0, "Q"));
      var w' := Step(w, limits, OfWallet(W.ConfirmEvent(owner, "Q", 1, "k")));
      && "Q" in w'.purchases && w'.purchases["Q"].owner == owner && "Q" in w'.wallet.flights
      && w'.wallet.flights["Q"].sent.None? && w'.wallet.flights["Q"].flight.owner == owner
      && w'.wallet.flights["Q"].flight.id == "Q" && w'.wallet.ledger.sent == []
  {
    assert ActiveIds(map[], owner, 0) == {} && SameChoice(map[], {}, SomeTerms()) == {};
    var w := Step(Initial(keyed), limits, PreparePurchase(owner, SomeTerms(), 0, "Q"));
    assert w.purchases == map["Q" := Owned(owner, Quote(SomeTerms(), 0, limits.ttl, Active))];
    WalletPurchase.SendsExactlyWhen(w.purchases, w.wallet.records, owner, "Q", 1, "k");
  }

  lemma SomebodyIsIn(keyed: bool, limits: Limits, logins: set<(string, string)>, owner: Owner) returns (s: Server)
    requires (owner.sessionKey, owner.userRef) in logins
    ensures Reaches(keyed, limits, logins, s)
    ensures s.admitted == {owner} && s.world == Initial(keyed) && s.walletUsers == []
  {
    var key, s0 := owner.sessionKey, Started(keyed);
    assert HappensAll(s0, limits, []) == s0;
    var s1 := Next(keyed, limits, logins, s0, Changes(key, S.Login(S.Session("a", "r", None, owner.userRef))));
    s := Next(keyed, limits, logins, s1, Admits(key));
  }

  lemma SomebodyIsAboutToSend(keyed: bool, limits: Limits, logins: set<(string, string)>, owner: Owner)
    returns (s: Server)
    requires limits.maxActive >= 1 && limits.ttl >= 30 && (owner.sessionKey, owner.userRef) in logins
    ensures Reaches(keyed, limits, logins, s) && AboutToSend(s, owner)
  {
    var prepare, confirm := PreparePurchase(owner, SomeTerms(), 0, "Q"), OfWallet(W.ConfirmEvent(owner, "Q", 1, "k"));
    PreparesAndConfirms(keyed, limits, owner);
    var s2 := SomebodyIsIn(keyed, limits, logins, owner);
    var s3 := Next(keyed, limits, logins, s2, Acts(prepare));
    s := Next(keyed, limits, logins, s3, Acts(confirm));
    ActedByCaller(s2, prepare, Step(s2.world, limits, prepare), owner);
    ActedByCaller(s3, confirm, Step(s3.world, limits, confirm), owner);
  }

  lemma ActedByCaller(s: Server, event: Event, w': World, owner: Owner)
    requires CallerOf(event) == Some(owner) && owner in s.admitted && SenderOf(s.world, event).None?
    ensures Acted(s, event, w') == s.(world := w')
  {
  }

  lemma SendsAsStored(s: Server, limits: Limits, owner: Owner)
    requires AboutToSend(s, owner) && s.At(owner.sessionKey).session.Some?
    requires s.At(owner.sessionKey).session.value.user != owner.userRef
    ensures !AllSentAsOwners(Happens(s, limits, Acts(OfWallet(W.SendEvent("Q")))))
  {
    var s' := Happens(s, limits, Acts(OfWallet(W.SendEvent("Q"))));
    var k := |s.walletUsers|;
    assert s'.world.wallet.ledger.sent[k].quote == "Q"
      && s'.walletUsers[k] == s.At(owner.sessionKey).session.value.user;
  }

  /** In every run in which only these users log in, and the platform keeps each rotation's user, every
      request of every ledger goes out under a session of its quote's owner. */
  ghost predicate AlwaysAsOwners(keyed: bool, limits: Limits, logins: set<(string, string)>) {
    forall hs | LoginsWithin(hs, logins) && AllKeepUsers(Started(keyed), limits, hs) ::
      AllSentAsOwners(HappensAll(Started(keyed), limits, hs))
  }

  /** All requests go out as the owners of their quotes exactly if no two users ever log in under one
      session key. */
  lemma AlwaysAsOwnersExactlyWhen(keyed: bool, limits: Limits, logins: set<(string, string)>)
    requires limits.maxActive >= 1 && limits.ttl >= 30
    ensures AlwaysAsOwners(keyed, limits, logins) <==> OneUserEach(logins)
  {
    if OneUserEach(logins) {
      InitialInv(keyed, limits);
      forall hs | LoginsWithin(hs, logins) && AllKeepUsers(Started(keyed), limits, hs)
        ensures AllSentAsOwners(HappensAll(Started(keyed), limits, hs))
      {
        AllKeepGood(Started(keyed), limits, hs, logins);
      }
    } else {
      var a, b :| a in logins && b in logins && a.0 == b.0 && a != b;
      var s' := SentAsAnother(keyed, limits, logins, Owner(a.0, a.1), b.1);
      var hs :| LoginsWithin(hs, logins) && AllKeepUsers(Started(keyed), limits, hs)
        && HappensAll(Started(keyed), limits, hs) == s';
    }
  }

  lemma SentAsAnother(keyed: bool, limits: Limits, logins: set<(string, string)>, owner: Owner, other: string)
    returns (s': Server)
    requires limits.maxActive >= 1 && limits.ttl >= 30 && other != owner.userRef
    requires (owner.sessionKey, owner.userRef) in logins && (owner.sessionKey, other) in logins
    ensures Reaches(keyed, limits, logins, s') && !AllSentAsOwners(s')
  {
    var s := SomebodyIsAboutToSend(keyed, limits, logins, owner);
    var token := S.FreshToken(s.At(owner.sessionKey).issued);
    var s1 := Next(keyed, limits, logins, s, Changes(owner.sessionKey, S.Login(S.Session(token, token, None, other))));
    SendsAsStored(s1, limits, owner);
    s' := Next(keyed, limits, logins, s1, Acts(OfWallet(W.SendEvent("Q"))));
  }

  // ------------------------------------------------------------------ one owner's requests, from one point on

  ghost predicate SinceAs(from: nat, sent: seq<Request>, users: seq<string>, book: Book, owner: Owner) {
    && from <= |users| == |sent|
    && forall i | from <= i < |sent| ::
      sent[i].quote in book && (book[sent[i].quote].owner == owner ==> users[i] == owner.userRef)
  }

  /** Whatever was sent between the two points for a quote of this owner went out as this owner. */
  ghost predicate SentAsSince(s: Server, s': Server, owner: Owner) {
    && SinceAs(|s.walletUsers|, s'.world.wallet.ledger.sent, s'.walletUsers, s'.world.purchases, owner)
    && SinceAs(|s.cardUsers|, s'.world.card.ledger.sent, s'.cardUsers, s'.world.purchases, owner)
    && SinceAs(|s.topUpUsers|, s'.world.topUp.ledger.sent, s'.topUpUsers, s'.world.topUps, owner)
  }

  ghost predicate LoginsUnder(hs: seq<Happening>, sessionKey: string, users: set<string>) {
    forall h | h in hs && h.Changes? && h.sessionKey == sessionKey && h.change.Login? :: h.change.session.user in users
  }

  /** Whatever happens from here on, with none but these users logging in under the owner's key, the
      owner's requests go out as the owner's. */
  ghost predicate GoOutAs(s: Server, limits: Limits, owner: Owner, users: set<string>) {
    forall hs | LoginsUnder(hs, owner.sessionKey, users) && AllKeepUsers(s, limits, hs) ::
      SentAsSince(s, HappensAll(s, limits, hs), owner)
  }

  predicate OfUser(session: Option<S.Session>, user: string) { session.Some? ==> session.value.user == user }

  ghost predicate Signed(s: Server, owner: Owner) {
    OfUser(s.At(owner.sessionKey).session, owner.userRef) && OfUser(s.At(owner.sessionKey).rotating, owner.userRef)
  }

  lemma NotedSince(
    from: nat, before: seq<Request>, after: seq<Request>, users: seq<string>, book: Book, book': Book,
    sender: Option<Owner>, user: string, owner: Owner)
    requires SinceAs(from, before, users, book, owner) && Evolves(book, book') && SendsFor(before, after, book, sender)
    requires sender == Some(owner) ==> user == owner.userRef
    ensures SinceAs(from, after, if |after| > |before| then users + [user] else users, book', owner)
  {
    forall i | 0 <= i < |after| ensures after[i] == if i < |before| then before[i] else after[|before|] {}
  }

  lemma DepartsSince(s0: Server, s: Server, limits: Limits, event: Event, w': World, user: string, owner: Owner)
    requires Stepped(s.world, w', limits, event) && SentAsSince(s0, s, owner)
    requires SenderOf(s.world, event) == Some(owner) ==> user == owner.userRef
    ensures SentAsSince(s0, Departed(s, w', user), owner)
  {
    var w, sender := s.world, SenderOf(s.world, event);
    NotedSince(|s0.walletUsers|, w.wallet.ledger.sent, w'.wallet.ledger.sent, s.walletUsers,
               w.purchases, w'.purchases, sender, user, owner);
    NotedSince(|s0.cardUsers|, w.card.ledger.sent, w'.card.ledger.sent, s.cardUsers,
               w.purchases, w'.purchases, sender, user, owner);
    NotedSince(|s0.topUpUsers|, w.topUp.ledger.sent, w'.topUp.ledger.sent, s.topUpUsers,
               w.topUps, w'.topUps, sender, user, owner);
  }

  lemma ActedSince(s0: Server, s: Server, limits: Limits, event: Event, w': World, owner: Owner)
    requires Stepped(s.world, w', limits, event) && SentAsSince(s0, s, owner) && Signed(s, owner)
    ensures var s' := Acted(s, event, w'); Inv(s'.world, limits) && SentAsSince(s0, s', owner) && Signed(s', owner)
  {
    var sender := SenderOf(s.world, event);
    if sender.None? {
      DepartsSince(s0, s, limits, event, w', "", owner);
    } else if s.At(sender.value.sessionKey).session.Some? {
      DepartsSince(s0, s, limits, event, w', s.At(sender.value.sessionKey).session.value.user, owner);
    }
  }

  /** The state after one happening, as far as one owner's requests go. */
  lemma HappensSince(s0: Server, s: Server, limits: Limits, h: Happening, owner: Owner)
    requires Inv(s.world, limits) && SentAsSince(s0, s, owner) && Signed(s, owner)
    requires LoginsUnder([h], owner.sessionKey, {owner.userRef}) && KeepsUsers(s, h)
    ensures var s' := Happens(s, limits, h);
      Inv(s'.world, limits) && SentAsSince(s0, s', owner) && Signed(s', owner)
  {
    assert h in [h];
    if h.Acts? {
      StepsStep(s.world, limits, h.event);
      ActedSince(s0, s, limits, h.event, Step(s.world, limits, h.event), owner);
    }
  }

  lemma {:induction false} AllSendSince(s0: Server, s: Server, limits: Limits, hs: seq<Happening>, owner: Owner)
    requires Inv(s.world, limits) && SentAsSince(s0, s, owner) && Signed(s, owner)
    requires LoginsUnder(hs, owner.sessionKey, {owner.userRef}) && AllKeepUsers(s, limits, hs)
    ensures SentAsSince(s0, HappensAll(s, limits, hs), owner)
    decreases |hs|
  {
    if hs != [] {
      assert hs[0] in hs;
      HappensSince(s0, s, limits, hs[0], owner);
      AllSendSince(s0, Happens(s, limits, hs[0]), limits, hs[1..], owner);
    }
  }

  ghost predicate Grew(w: World, w': World) {
    || |w'.wallet.ledger.sent| > |w.wallet.ledger.sent|
    || |w'.card.ledger.sent| > |w.card.ledger.sent|
    || |w'.topUp.ledger.sent| > |w.topUp.ledger.sent|
  }

  lemma SendersReallySend(w: World, limits: Limits, event: Event) returns (w': World)
    requires Inv(w, limits) && SenderOf(w, event).Some?
    ensures w' == Step(w, limits, event) && Forward(w, w') && Sends(w, w', SenderOf(w, event)) && Grew(w, w')
  {
    w' := Step(w, limits, event);
    StepsStep(w, limits, event);
  }

  /** Sent under another user's session, a request shows. */
  lemma ActedShows(s0: Server, s: Server, event: Event, w': World, owner: Owner)
    requires Forward(s.world, w') && Sends(s.world, w', SenderOf(s.world, event)) && Grew(s.world, w')
    requires SentAsSince(s0, s0, owner)
    requires s.world == s0.world && s.walletUsers == s0.walletUsers
    requires s.cardUsers == s0.cardUsers && s.topUpUsers == s0.topUpUsers
    requires SenderOf(s.world, event) == Some(owner) && !OfUser(s.At(owner.sessionKey).session, owner.userRef)
    requires CallerOf(event).None?
    ensures !SentAsSince(s0, Acted(s, event, w'), owner)
  {
  }

  lemma TwoHappenings(s: Server, limits: Limits, a: Happening, b: Happening)
    requires KeepsUsers(s, a) && KeepsUsers(Happens(s, limits, a), b)
    ensures HappensAll(s, limits, [a, b]) == Happens(Happens(s, limits, a), limits, b)
      && AllKeepUsers(s, limits, [a, b])
    ensures HappensAll(s, limits, [b]) == Happens(s, limits, b) && (KeepsUsers(s, b) ==> AllKeepUsers(s, limits, [b]))
  {
    OneMore(s, limits, [], b);
    OneMore(s, limits, [], a);
    OneMore(s, limits, [a], b);
    assert [] + [a] == [a] && [] + [b] == [b] && [a] + [b] == [a, b];
  }

  lemma {:induction false} RunKeepsLogs(s: Server, limits: Limits, hs: seq<Happening>, owner: Owner)
    requires Inv(s.world, limits) && SentAsSince(s, s, owner)
    ensures var s' := HappensAll(s, limits, hs); Inv(s'.world, limits) && SentAsSince(s', s', owner)
    decreases |hs|
  {
    if hs != [] {
      if hs[0].Acts? {
        StepsStep(s.world, limits, hs[0].event);
        ActedKeepsLogs(s, limits, hs[0].event, Step(s.world, limits, hs[0].event), owner);
      }
      RunKeepsLogs(Happens(s, limits, hs[0]), limits, hs[1..], owner);
    }
  }

  lemma ActedKeepsLogs(s: Server, limits: Limits, event: Event, w': World, owner: Owner)
    requires Stepped(s.world, w', limits, event) && SentAsSince(s, s, owner)
    ensures var s' := Acted(s, event, w'); Inv(s'.world, limits) && SentAsSince(s', s', owner)
  {
  }

  /** What can put somebody else's session in the owner's place. */
  lemma SomebodyElseComesFirst(s: Server, limits: Limits, owner: Owner, users: set<string>)
    returns (first: Happening, s1: Server)
    requires !Signed(s, owner) || !(users <= {owner.userRef})
    ensures !first.Acts? && KeepsUsers(s, first) && LoginsUnder([first], owner.sessionKey, users)
    ensures s1 == Happens(s, limits, first) && !OfUser(s1.At(owner.sessionKey).session, owner.userRef)
    ensures s1.world == s.world && s1.walletUsers == s.walletUsers
    ensures s1.cardUsers == s.cardUsers && s1.topUpUsers == s.topUpUsers
  {
    var key := owner.sessionKey;
    var token := S.FreshToken(s.At(key).issued);
    if !OfUser(s.At(key).session, owner.userRef) {
      first := Admits(key);
    } else if !OfUser(s.At(key).rotating, owner.userRef) {
      first := Changes(key, S.Finish(token, token, None, ""));
      assert S.NewTokens(s.At(key).issued, S.Rotated(s.At(key).rotating.value, token, token, None, ""));
    } else {
      var other :| other in users && other != owner.userRef;
      first := Changes(key, S.Login(S.Session(token, token, None, other)));
    }
    s1 := Happens(s, limits, first);
  }

  lemma SignedGoesOut(s: Server, limits: Limits, owner: Owner, users: set<string>)
    requires Inv(s.world, limits) && SentAsSince(s, s, owner) && Signed(s, owner) && users <= {owner.userRef}
    ensures GoOutAs(s, limits, owner, users)
  {
    forall hs | LoginsUnder(hs, owner.sessionKey, users) && AllKeepUsers(s, limits, hs)
      ensures SentAsSince(s, HappensAll(s, limits, hs), owner)
    {
      AllSendSince(s, s, limits, hs, owner);
    }
  }

  lemma SentUnderAnother(s0: Server, s: Server, limits: Limits, event: Event, owner: Owner) returns (w': World)
    requires Inv(s.world, limits) && SentAsSince(s0, s0, owner)
    requires s.world == s0.world && s.walletUsers == s0.walletUsers
    requires s.cardUsers == s0.cardUsers && s.topUpUsers == s0.topUpUsers
    requires SenderOf(s.world, event) == Some(owner) && !OfUser(s.At(owner.sessionKey).session, owner.userRef)
    ensures w' == Step(s.world, limits, event) && !SentAsSince(s0, Acted(s, event, w'), owner)
  {
    w' := SendersReallySend(s.world, limits, event);
    ActedShows(s0, s, event, w', owner);
  }

  lemma ActShows(s0: Server, s: Server, limits: Limits, event: Event, w': World, owner: Owner)
    requires w' == Step(s.world, limits, event) && !SentAsSince(s0, Acted(s, event, w'), owner)
    ensures !SentAsSince(s0, Happens(s, limits, Acts(event)), owner)
  {
  }

  lemma UnsignedDoesNot(s: Server, limits: Limits, event: Event, owner: Owner, users: set<string>)
    requires Inv(s.world, limits) && SentAsSince(s, s, owner) && SenderOf(s.world, event) == Some(owner)
    requires !Signed(s, owner) || !(users <= {owner.userRef})
    ensures !GoOutAs(s, limits, owner, users)
  {
    var first, s1 := SomebodyElseComesFirst(s, limits, owner, users);
    TwoHappenings(s, limits, first, Acts(event));
    var w' := SentUnderAnother(s, s1, limits, event, owner);
    ActShows(s, s1, limits, event, w', owner);
    assert LoginsUnder([first, Acts(event)], owner.sessionKey, users);
  }

  /** At any point of any run at which a request of an owner's is about to be sent: it and all later ones
      go out as the owner's, whatever happens, exactly if the session stored is the owner's, none of
      somebody else's is being rotated, and nobody else logs in under the same key. */
  lemma RequestsGoOutAsOwnerExactlyWhen(
    keyed: bool, limits: Limits, before: seq<Happening>, event: Event, owner: Owner, users: set<string>)
    requires SenderOf(HappensAll(Started(keyed), limits, before).world, event) == Some(owner)
    ensures var s := HappensAll(Started(keyed), limits, before);
      GoOutAs(s, limits, owner, users) <==> Signed(s, owner) && users <= {owner.userRef}
  {
    var s := HappensAll(Started(keyed), limits, before);
    InitialInv(keyed, limits);
    RunKeepsLogs(Started(keyed), limits, before, owner);
    if Signed(s, owner) && users <= {owner.userRef} {
      SignedGoesOut(s, limits, owner, users);
    } else {
      UnsignedDoesNot(s, limits, event, owner, users);
    }
  }
}
