/** Prepared quotes: what they fix, how long they may be acted on, and how preparing, cancelling,
    consuming and ending a session change the book of them. */
module Quotes {
  import opened Strings
  import opened Stores
  import opened Money
  import opened Outcomes

  datatype PaymentMethod = Wallet | Card

  datatype Status = Active | Expired | Cancelled | Consumed

  datatype ContextKind = NoContext | CountryContext | RegionContext

  /** An empty text stands for a missing field. */
  datatype SearchContext = SearchContext(
    kind: ContextKind, countryName: string, countryIso3: string, regionName: string, regionCode: string)

  /** Everything a quote fixes for good. `sim` is present on a top-up quote only. */
  datatype Terms = Terms(
    bundle: string,
    sim: Option<string>,
    payment: PaymentMethod,
    amount: Decimal,
    currency: string,
    locale: string,
    context: SearchContext,
    covered: Option<bool>)
  {
    /** What makes two quotes the same choice: plan and method, or plan and SIM for a top-up. */
    function Choice(): (string, Option<string>, Option<PaymentMethod>) {
      (bundle, sim, if sim.Some? then None else Some(payment))
    }
  }

  datatype Quote = Quote(terms: Terms, createdAt: int, expiresAt: int, status: Status) {
    function EffectiveStatus(now: int): Status {
      if status == Active && now >= expiresAt then Expired else status
    }

    predicate Usable(now: int) { EffectiveStatus(now) == Active }
  }

  /** The refusal an unusable quote's state is reported as. */
  function UnusableCode(status: Status): Code {
    match status
    case Expired => QuoteExpired
    case Cancelled => QuoteCancelled
    case Consumed => QuoteConsumed
    case Active => OutcomeUnknown
  }

  type Book = map<Id, Owned<Quote>>

  function ActiveIds(book: Book, owner: Owner, now: int): set<Id> {
    set id | id in book && book[id].owner == owner && book[id].body.Usable(now)
  }

  function SameChoice(book: Book, ids: set<Id>, terms: Terms): set<Id> {
    set id | id in ids && id in book && book[id].body.terms.Choice() == terms.Choice()
  }

  function WithStatus(book: Book, ids: set<Id>, status: Status): Book {
    map id | id in book ::
      if id in ids then Owned(book[id].owner, book[id].body.(status := status)) else book[id]
  }

  function SetStatus(book: Book, owner: Owner, id: Id, status: Status): Book {
    if id in book && book[id].owner == owner then WithStatus(book, {id}, status) else book
  }

  function ActiveOfSession(book: Book, sessionKey: string): set<Id> {
    set id | id in book && book[id].owner.sessionKey == sessionKey && book[id].body.status == Active
  }

  function CancelSession(book: Book, sessionKey: string): Book {
    WithStatus(book, ActiveOfSession(book, sessionKey), Cancelled)
  }

  datatype Limits = Limits(ttl: int, maxActive: nat)

  /** Supersede equivalents, then refuse at the limit, else file a new quote. What was superseded
      stays cancelled when the limit refuses. */
  function Prepare(book: Book, owner: Owner, terms: Terms, moment: int, limits: Limits, id: Id): (r: (Book, bool)) {
    var active := ActiveIds(book, owner, moment);
    var superseded := SameChoice(book, active, terms);
    var cleared := WithStatus(book, superseded, Cancelled);
    if |active| - |superseded| >= limits.maxActive then (cleared, false)
    else (cleared[id := Owned(owner, Quote(terms, moment, moment + limits.ttl, Active))], true)
  }

  function Cancel(book: Book, owner: Owner, id: Id, now: int): Book {
    match Find(book, owner, id)
    case None => book
    case Some(quote) => if quote.Usable(now) then SetStatus(book, owner, id, Cancelled) else book
  }

  function Consume(book: Book, owner: Owner, id: Id): Book {
    match Find(book, owner, id)
    case None => book
    case Some(_) => SetStatus(book, owner, id, Consumed)
  }

  // ------------------------------------------------------------------ lifecycle

  /** How the book may change: quotes are never deleted, their owner and terms are fixed, one that is
      not active never is again, and a consumed one stays consumed. */
  ghost predicate Evolves(before: Book, after: Book) {
    forall id | id in before ::
      && id in after
      && after[id].owner == before[id].owner
      && after[id].body.terms == before[id].body.terms
      && after[id].body.createdAt == before[id].body.createdAt
      && after[id].body.expiresAt == before[id].body.expiresAt
      && (before[id].body.status != Active ==> after[id].body.status != Active)
      && (before[id].body.status == Consumed ==> after[id].body.status == Consumed)
  }

  lemma EvolvesIsTransitive(a: Book, b: Book, c: Book)
    requires Evolves(a, b) && Evolves(b, c)
    ensures Evolves(a, c)
  {
    forall id | id in a ensures id in c && id in b {}
  }

  /** Quotes of anyone else are as they were. */
  ghost predicate OthersUntouched(before: Book, after: Book, owner: Owner) {
    forall id | id in before && before[id].owner != owner :: id in after && after[id] == before[id]
  }

  /** Every operation moves the book forward, and touches no quote of another owner. */
  lemma PreparingEvolves(book: Book, owner: Owner, terms: Terms, moment: int, limits: Limits, newId: Id)
    requires newId !in book
    ensures var after := Prepare(book, owner, terms, moment, limits, newId).0;
      Evolves(book, after) && OthersUntouched(book, after, owner)
  {
  }

  /** Preparing cancels exactly the owner's usable quotes for the same choice, limit reached or not,
      and files at most the one new quote. */
  lemma PreparingSupersedes(book: Book, owner: Owner, terms: Terms, moment: int, limits: Limits, newId: Id, id: Id)
    requires newId !in book && id in book
    ensures var (after, filed) := Prepare(book, owner, terms, moment, limits, newId);
      var was := book[id];
      && id in after
      && (after[id] != was <==>
            && was.owner == owner && was.body.status == Active && moment < was.body.expiresAt
            && was.body.terms.Choice() == terms.Choice())
      && (after[id] != was ==> after[id].body.status == Cancelled)
      && (forall other | other in after :: other in book || (filed && other == newId))
      && (filed ==> newId in after && after[newId] == Owned(owner, Quote(terms, moment, moment + limits.ttl, Active)))
  {
  }

  lemma CancellingEvolves(book: Book, owner: Owner, id: Id, now: int)
    ensures var after := Cancel(book, owner, id, now);
      && Evolves(book, after) && after.Keys == book.Keys && OthersUntouched(book, after, owner)
      && (if id != "" && id in book && book[id].owner == owner && book[id].body.Usable(now)
          then after == book[id := Owned(owner, book[id].body.(status := Cancelled))] else after == book)
  {
  }

  lemma ConsumingEvolves(book: Book, owner: Owner, id: Id)
    ensures var after := Consume(book, owner, id);
      && Evolves(book, after) && after.Keys == book.Keys && OthersUntouched(book, after, owner)
      && (if id != "" && id in book && book[id].owner == owner
          then after == book[id := Owned(owner, book[id].body.(status := Consumed))] else after == book)
  {
  }

  /** Ending a session cancels exactly that session's active quotes. */
  lemma SessionEndEvolves(book: Book, sessionKey: string)
    ensures var after := CancelSession(book, sessionKey);
      && Evolves(book, after) && after.Keys == book.Keys
      && forall q | q in book ::
        if book[q].owner.sessionKey == sessionKey
        then after[q].body.status != Active && (book[q].body.status != Active ==> after[q] == book[q])
        else after[q] == book[q]
  {
  }

  lemma SessionEndLeavesNoneActive(book: Book, sessionKey: string)
    ensures ActiveOfSession(CancelSession(book, sessionKey), sessionKey) == {}
  {
  }

  // ------------------------------------------------------------------ limits

  /** No quote was created after `now`. */
  ghost predicate NotBefore(book: Book, now: int) {
    forall id | id in book :: book[id].body.createdAt <= now
  }

  ghost predicate DistinctChoices(book: Book, ids: set<Id>) {
    forall a, b | a in ids && b in ids && a in book && b in book &&
      book[a].body.terms.Choice() == book[b].body.terms.Choice() :: a == b
  }

  /** At any clock reading no earlier than every creation, each owner has at most `maxActive` usable
      quotes, and no two of them for the same choice. */
  ghost predicate WithinLimits(book: Book, limits: Limits) {
    forall owner, now | NotBefore(book, now) ::
      |ActiveIds(book, owner, now)| <= limits.maxActive && DistinctChoices(book, ActiveIds(book, owner, now))
  }

  lemma ShrinkingKeepsLimits(before: Book, after: Book, limits: Limits)
    requires WithinLimits(before, limits) && Evolves(before, after) && after.Keys == before.Keys
    ensures WithinLimits(after, limits)
  {
    forall owner, now | NotBefore(after, now)
      ensures |ActiveIds(after, owner, now)| <= limits.maxActive && DistinctChoices(after, ActiveIds(after, owner, now))
    {
      assert NotBefore(before, now);
      SubsetSize(ActiveIds(after, owner, now), ActiveIds(before, owner, now));
    }
  }

  /** What stays usable later was usable at the earlier moment, and was not superseded. */
  lemma StillActiveLater(book: Book, owner: Owner, terms: Terms, moment: int, now: int)
    requires moment <= now
    ensures var active := ActiveIds(book, owner, moment);
      var superseded := SameChoice(book, active, terms);
      var later := ActiveIds(WithStatus(book, superseded, Cancelled), owner, now);
      later <= active - superseded && |later| <= |active| - |superseded|
  {
    var active := ActiveIds(book, owner, moment);
    var superseded := SameChoice(book, active, terms);
    var later := ActiveIds(WithStatus(book, superseded, Cancelled), owner, now);
    SubsetSize(later, active - superseded);
    assert active == (active - superseded) + superseded;
  }

  /** Filing one more quote, for a choice nobody active holds, into a book with room for it. */
  lemma FilingKeepsLimits(cleared: Book, owner: Owner, quote: Quote, limits: Limits, id: Id, who: Owner, now: int)
    requires WithinLimits(cleared, limits) && id !in cleared && NotBefore(cleared, now)
    requires var mine := ActiveIds(cleared, owner, now);
      |mine| < limits.maxActive && SameChoice(cleared, mine, quote.terms) == {}
    ensures var after := cleared[id := Owned(owner, quote)];
      |ActiveIds(after, who, now)| <= limits.maxActive && DistinctChoices(after, ActiveIds(after, who, now))
  {
    var after := cleared[id := Owned(owner, quote)];
    var mine, mine' := ActiveIds(cleared, who, now), ActiveIds(after, who, now);
    assert mine' <= mine + (if who == owner then {id} else {});
    SubsetSize(mine', mine + (if who == owner then {id} else {}));
    assert DistinctChoices(cleared, mine);
    forall a | a in mine && who == owner ensures cleared[a].body.terms.Choice() != quote.terms.Choice() {
      assert a !in SameChoice(cleared, mine, quote.terms);
    }
    forall a | a in mine' && a != id ensures a in mine && after[a] == cleared[a] {}
  }

  /** Preparing keeps the limits whatever moment it reads, even one earlier than the newest quote. */
  lemma PrepareKeepsLimits(book: Book, owner: Owner, terms: Terms, moment: int, limits: Limits, id: Id)
    requires WithinLimits(book, limits) && id !in book
    ensures WithinLimits(Prepare(book, owner, terms, moment, limits, id).0, limits)
  {
    var superseded := SameChoice(book, ActiveIds(book, owner, moment), terms);
    var cleared := WithStatus(book, superseded, Cancelled);
    ShrinkingKeepsLimits(book, cleared, limits);
    var (after, filed) := Prepare(book, owner, terms, moment, limits, id);
    if filed {
      var quote := Quote(terms, moment, moment + limits.ttl, Active);
      forall who, now | NotBefore(after, now)
        ensures |ActiveIds(after, who, now)| <= limits.maxActive && DistinctChoices(after, ActiveIds(after, who, now))
      {
        assert after[id].body.createdAt == moment;
        forall q | q in cleared ensures cleared[q].body.createdAt <= now { assert after[q] == cleared[q]; }
        StillActiveLater(book, owner, terms, moment, now);
        FilingKeepsLimits(cleared, owner, quote, limits, id, who, now);
      }
    }
  }

  /** Preparing is refused exactly when, at the moment read, the owner has `maxActive` usable quotes
      for other choices. */
  lemma RefusedExactlyAtTheLimit(book: Book, owner: Owner, terms: Terms, moment: int, limits: Limits, id: Id)
    ensures var others := set q | q in ActiveIds(book, owner, moment) && book[q].body.terms.Choice() != terms.Choice();
      Prepare(book, owner, terms, moment, limits, id).1 <==> |others| < limits.maxActive
  {
    var active := ActiveIds(book, owner, moment);
    var superseded := SameChoice(book, active, terms);
    var others := set q | q in active && book[q].body.terms.Choice() != terms.Choice();
    assert active == others + superseded && others !! superseded;
  }

  /** At a moment no earlier than any creation, preparing a choice the owner already holds is never
      refused. */
  lemma RepreparingIsNeverRefused(
    book: Book, owner: Owner, terms: Terms, moment: int, limits: Limits, id: Id, existing: Id)
    requires WithinLimits(book, limits) && NotBefore(book, moment)
    requires existing in SameChoice(book, ActiveIds(book, owner, moment), terms)
    ensures Prepare(book, owner, terms, moment, limits, id).1
  {
    var superseded := SameChoice(book, ActiveIds(book, owner, moment), terms);
    SubsetSize({existing}, superseded);
  }

  /** Where the clock was set back it may be: an expired quote is seen again beside the one that
      replaced it. */
  lemma RepreparingMayBeRefusedAfterTheClockWentBack(owner: Owner, one: Terms, two: Terms, limits: Limits)
    requires one.Choice() != two.Choice() && limits == Limits(300, 1)
    ensures var first := Prepare(map[], owner, one, 0, limits, "A").0;
      var book := Prepare(first, owner, two, 301, limits, "B").0;
      && WithinLimits(book, limits) && SameChoice(book, ActiveIds(book, owner, 299), one) != {}
      && !Prepare(book, owner, one, 299, limits, "C").1
  {
    var first := Prepare(map[], owner, one, 0, limits, "A").0;
    WithinLimitsOfNothing(limits);
    PrepareKeepsLimits(map[], owner, one, 0, limits, "A");
    var book := Prepare(first, owner, two, 301, limits, "B").0;
    PrepareKeepsLimits(first, owner, two, 301, limits, "B");
    assert ActiveIds(map[], owner, 0) == {} && SameChoice(map[], {}, one) == {};
    assert first == map["A" := Owned(owner, Quote(one, 0, 300, Active))];
    assert ActiveIds(first, owner, 301) == {} && SameChoice(first, {}, two) == {};
    assert book == first["B" := Owned(owner, Quote(two, 301, 601, Active))];
    assert ActiveIds(book, owner, 299) == {"A", "B"};
    assert SameChoice(book, {"A", "B"}, one) == {"A"};
  }

  lemma WithinLimitsOfNothing(limits: Limits)
    ensures WithinLimits(map[], limits)
  {
    forall owner, now ensures ActiveIds(map[], owner, now) == {} {}
  }
}
