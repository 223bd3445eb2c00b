/** The session manager over its dictionary of sessions, and the stores it clears when one goes away. */
module SessionService {
  import opened Strings
  import opened Stores
  import opened Quotes
  import opened Sessions
  import opened QuoteService
  import Selection
  import W = WalletPurchase
  import Card = CardCheckout
  import TopUp

  type Table = map<string, Session>

  function At(table: Table, key: string): Option<Session> {
    if key in table then Some(table[key]) else None
  }

  /** What is told that a session went away, in the order it was registered. */
  datatype Listener = PurchaseQuotes | Executions | Checkouts | TopUpQuotes | TopUpExecutions | Listings

  const LISTENERS: seq<Listener> := [PurchaseQuotes, Executions, Checkouts, TopUpQuotes, TopUpExecutions, Listings]

  /** A listener that fails leaves its store as it was and does not stop the others. */
  predicate Cleared(listener: Listener, told: seq<Listener>, failing: set<Listener>) {
    listener in told && listener !in failing
  }

  lemma CancelTwice(book: Book, sessionKey: string)
    ensures CancelSession(CancelSession(book, sessionKey), sessionKey) == CancelSession(book, sessionKey)
  {
    assert ActiveOfSession(CancelSession(book, sessionKey), sessionKey) == {};
  }

  class Records {
    const purchases: QuoteStore
    const executions: OwnedStore<W.Execution>
    const checkouts: OwnedStore<Card.Checkout>
    const topUps: QuoteStore
    const topUpExecutions: OwnedStore<TopUp.Execution>
    const listings: Selection.SelectionStore

    constructor (
      purchases: QuoteStore, executions: OwnedStore<W.Execution>, checkouts: OwnedStore<Card.Checkout>,
      topUps: QuoteStore, topUpExecutions: OwnedStore<TopUp.Execution>, listings: Selection.SelectionStore)
      ensures this.purchases == purchases && this.executions == executions && this.checkouts == checkouts
      ensures this.topUps == topUps && this.topUpExecutions == topUpExecutions && this.listings == listings
    {
      this.purchases, this.executions, this.checkouts := purchases, executions, checkouts;
      this.topUps, this.topUpExecutions, this.listings := topUps, topUpExecutions, listings;
    }

    ghost function Footprint(): set<object> {
      {purchases, executions, checkouts, topUps, topUpExecutions, listings}
    }

    /** Tell one listener. */
    method Tell(listener: Listener, key: string)
      requires purchases != topUps
      modifies Footprint()
      ensures purchases.quotes ==
        if listener.PurchaseQuotes? then CancelSession(old(purchases.quotes), key) else old(purchases.quotes)
      ensures executions.records ==
        if listener.Executions? then DropSession(old(executions.records), key) else old(executions.records)
      ensures checkouts.records ==
        if listener.Checkouts? then DropSession(old(checkouts.records), key) else old(checkouts.records)
      ensures topUps.quotes ==
        if listener.TopUpQuotes? then CancelSession(old(topUps.quotes), key) else old(topUps.quotes)
      ensures topUpExecutions.records ==
        if listener.TopUpExecutions?
        then DropSession(old(topUpExecutions.records), key)
        else old(topUpExecutions.records)
      ensures listings.listings ==
        if listener.Listings? then old(listings.listings) - {key} else old(listings.listings)
    {
      match listener
      case PurchaseQuotes => var _ := purchases.InvalidateSession(key);
      case Executions => var _ := executions.InvalidateSession(key);
      case Checkouts => var _ := checkouts.InvalidateSession(key);
      case TopUpQuotes => var _ := topUps.InvalidateSession(key);
      case TopUpExecutions => var _ := topUpExecutions.InvalidateSession(key);
      case Listings => var _ := listings.InvalidateSession(key);
    }

    /** Run every listener registered. */
    method Notify(listeners: seq<Listener>, failing: set<Listener>, key: string)
      requires purchases != topUps
      modifies Footprint()
      ensures purchases.quotes ==
        if Cleared(PurchaseQuotes, listeners, failing)
        then CancelSession(old(purchases.quotes), key)
        else old(purchases.quotes)
      ensures executions.records ==
        if Cleared(Executions, listeners, failing)
        then DropSession(old(executions.records), key)
        else old(executions.records)
      ensures checkouts.records ==
        if Cleared(Checkouts, listeners, failing)
        then DropSession(old(checkouts.records), key)
        else old(checkouts.records)
      ensures topUps.quotes ==
        if Cleared(TopUpQuotes, listeners, failing) then CancelSession(old(topUps.quotes), key) else old(topUps.quotes)
      ensures topUpExecutions.records ==
        if Cleared(TopUpExecutions, listeners, failing) then DropSession(old(topUpExecutions.records), key)
        else old(topUpExecutions.records)
      ensures listings.listings ==
        if Cleared(Listings, listeners, failing) then old(listings.listings) - {key} else old(listings.listings)
    {
      CancelTwice(purchases.quotes, key);
      CancelTwice(topUps.quotes, key);
      for k := 0 to |listeners|
        invariant purchases.quotes ==
          if Cleared(PurchaseQuotes, listeners[..k], failing)
          then CancelSession(old(purchases.quotes), key)
          else old(purchases.quotes)
        invariant executions.records ==
          if Cleared(Executions, listeners[..k], failing)
          then DropSession(old(executions.records), key)
          else old(executions.records)
        invariant checkouts.records ==
          if Cleared(Checkouts, listeners[..k], failing)
          then DropSession(old(checkouts.records), key)
          else old(checkouts.records)
        invariant topUps.quotes ==
          if Cleared(TopUpQuotes, listeners[..k], failing)
          then CancelSession(old(topUps.quotes), key)
          else old(topUps.quotes)
        invariant topUpExecutions.records ==
          if Cleared(TopUpExecutions, listeners[..k], failing) then DropSession(old(topUpExecutions.records), key)
          else old(topUpExecutions.records)
        invariant listings.listings ==
          if Cleared(Listings, listeners[..k], failing) then old(listings.listings) - {key} else old(listings.listings)
      {
        assert listeners[..k + 1] == listeners[..k] + [listeners[k]];
        if listeners[k] !in failing { Tell(listeners[k], key); }
      }
      assert listeners[..|listeners|] == listeners;
    }
  }

  class SessionManager {
    var sessions: Table
    const records: Records

    constructor (records: Records)
      ensures sessions == map[] && this.records == records
    {
      sessions := map[];
      this.records := records;
    }

    /** Inside the session's lock: look again, and decide whether a rotation is still needed. */
    method BeginRotation(key: string, stale: Option<Token>, force: bool, window: int, now: int) returns (begun: Begun)
      ensures begun == BeginRefresh(At(sessions, key), stale, force, window, now)
    {
      if key !in sessions { return SignIn; }
      var session := sessions[key];
      if stale.Some? && session.access != stale.value { return Current(session); }
      if !force && !session.NeedsRefresh(window, now) { return Current(session); }
      return Rotate(session);
    }

    /** A rotation that succeeded: the new tokens are saved over whatever is stored by now. */
    method FinishRotation(key: string, from: Session, access: Token, refresh: Token,
        expiresAt: Option<int>, user: string)
      returns (session: Session)
      modifies this
      ensures session == Rotated(from, access, refresh, expiresAt, user)
      ensures sessions == old(sessions)[key := session]
    {
      session := Session(access, refresh, expiresAt, if user != "" then user else from.user);
      sessions := sessions[key := session];
    }

    /** The session goes, whoever ended it, and everything hanging off it with it. */
    method Invalidate(key: string)
      requires records.purchases != records.topUps && this !in records.Footprint()
      modifies this, records.Footprint()
      ensures sessions == old(sessions) - {key}
      ensures records.purchases.quotes == CancelSession(old(records.purchases.quotes), key)
      ensures records.executions.records == DropSession(old(records.executions.records), key)
      ensures records.checkouts.records == DropSession(old(records.checkouts.records), key)
      ensures records.topUps.quotes == CancelSession(old(records.topUps.quotes), key)
      ensures records.topUpExecutions.records == DropSession(old(records.topUpExecutions.records), key)
      ensures records.listings.listings == old(records.listings.listings) - {key}
    {
      sessions := sessions - {key};
      records.Notify(LISTENERS, {}, key);
    }
  }

  /** The steps on the table are the steps of the session they name, and of no other. */
  lemma TableStepsAreSessionSteps(table: Table, key: string, other: string, s: SessionState, event: Event)
    requires s.session == At(table, key) && key != other
    requires event.Finish? ==>
      && s.rotating.Some?
      && NewTokens(s.issued, Rotated(s.rotating.value, event.access, event.refresh, event.expiresAt, event.user))
    requires event.Fail? ==> s.rotating.Some?
    requires event.Login? ==> NewTokens(s.issued, event.session)
    ensures var after := match event
        case Login(session) => table[key := session]
        case Finish(access, refresh, expiresAt, user) =>
          table[key := Rotated(s.rotating.value, access, refresh, expiresAt, user)]
        case Fail => table - {key}
        case End => table - {key}
        case _ => table;
      At(after, key) == Step(s, event).session && At(after, other) == At(table, other)
  {
  }
}
