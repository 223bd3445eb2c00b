/** The platform as this server can know it: the requests that reached it, and the verdicts it has
    come to. A platform that honours idempotency keys decides once per key; one that does not
    decides once per request. A verdict, once reached, is final. */
module Ledgers {
  import opened Strings
  import opened Stores
  import opened Quotes

  type Key = string

  datatype RelatedSearch = InRegion(code: string, name: string) | InCountry(iso3: string, name: string)

  datatype Payload = Payload(
    bundle: string, sim: Option<string>, related: Option<RelatedSearch>, locale: string, currency: string)

  /** A half-filled context is left out rather than sent. */
  function Related(context: SearchContext): Option<RelatedSearch> {
    if context.kind == RegionContext && context.regionCode != "" && context.regionName != "" then
      Some(InRegion(context.regionCode, context.regionName))
    else if context.kind == CountryContext && context.countryIso3 != "" && context.countryName != "" then
      Some(InCountry(context.countryIso3, context.countryName))
    else None
  }

  function PayloadOf(terms: Terms): Payload {
    Payload(terms.bundle, terms.sim, Related(terms.context), terms.locale, terms.currency)
  }

  /** A context with everything its kind calls for. */
  predicate Complete(context: SearchContext) {
    || (context.kind == RegionContext && context.regionCode != "" && context.regionName != "")
    || (context.kind == CountryContext && context.countryIso3 != "" && context.countryName != "")
  }

  /** What is sent settles what was agreed: two quotes are sent alike exactly if they agree on plan, SIM,
      locale, currency and, where complete, on the search that led to them. */
  lemma EqualPayloadsAgree(a: Terms, b: Terms)
    ensures PayloadOf(a) == PayloadOf(b) <==>
      && a.bundle == b.bundle && a.sim == b.sim && a.locale == b.locale && a.currency == b.currency
      && (Complete(a.context) <==> Complete(b.context))
      && (Complete(a.context) ==>
            && a.context.kind == b.context.kind
            && (a.context.kind == RegionContext ==>
                  a.context.regionCode == b.context.regionCode && a.context.regionName == b.context.regionName)
            && (a.context.kind == CountryContext ==>
                  a.context.countryIso3 == b.context.countryIso3 && a.context.countryName == b.context.countryName))
  {
    assert Related(a.context).Some? <==> Complete(a.context);
    assert Related(b.context).Some? <==> Complete(b.context);
  }

  datatype Request = Request(quote: Id, key: Key, payload: Payload)

  datatype Slot = ByKey(key: Key) | ByIndex(index: nat)

  datatype Verdict = Bought | Refused | Stuck

  /** Which of the platform's promises an answer keeps: that what it reports done was done, and that what
      it reports refused was refused. */
  datatype Kept = Kept(successes: bool, refusals: bool)

  datatype Ledger = Ledger(keyed: bool, sent: seq<Request>, verdicts: map<Slot, Verdict>) {
    function SlotOf(i: nat): Slot
      requires i < |sent|
    {
      if keyed then ByKey(sent[i].key) else ByIndex(i)
    }

    /** The platform reached `verdict` on the i-th request. */
    predicate Says(i: nat, verdict: Verdict) {
      i < |sent| && SlotOf(i) in verdicts && verdicts[SlotOf(i)] == verdict
    }

    function Sent(request: Request): Ledger { this.(sent := sent + [request]) }

    /** The platform makes up its mind about the i-th request, unless it already has. */
    function Decided(i: nat, verdict: Verdict): Ledger {
      if i < |sent| && SlotOf(i) !in verdicts then this.(verdicts := verdicts[SlotOf(i) := verdict]) else this
    }

    /** Every request sent for `quote` carries `key`. */
    ghost predicate SentUnder(quote: Id, key: Key) {
      forall i | 0 <= i < |sent| && sent[i].quote == quote :: sent[i].key == key
    }

    /** All requests for `quote` carry one and the same key. */
    ghost predicate OneKey(quote: Id) { exists key :: SentUnder(quote, key) }

    /** Some request for `quote` under `key` got `verdict`. */
    ghost predicate Answered(quote: Id, key: Key, verdict: Verdict) {
      exists i: nat {:trigger Says(i, verdict)} | i < |sent| ::
        sent[i].quote == quote && sent[i].key == key && Says(i, verdict)
    }

    ghost predicate BoughtFor(quote: Id) {
      exists i: nat {:trigger Says(i, Bought)} | i < |sent| :: sent[i].quote == quote && Says(i, Bought)
    }

    /** The places where money moved, or may have moved, for `quote`. */
    ghost function Debits(quote: Id): set<Slot> {
      set i | 0 <= i < |sent| && sent[i].quote == quote && (Says(i, Bought) || Says(i, Stuck)) :: SlotOf(i)
    }
  }

  function Count(sent: seq<Request>, quote: Id): nat {
    if sent == [] then 0
    else Count(sent[..|sent| - 1], quote) + if sent[|sent| - 1].quote == quote then 1 else 0
  }

  lemma CountAppend(sent: seq<Request>, request: Request, quote: Id)
    ensures Count(sent + [request], quote) == Count(sent, quote) + if request.quote == quote then 1 else 0
  {
    assert (sent + [request])[..|sent|] == sent;
  }

  lemma {:induction false} CountZero(sent: seq<Request>, quote: Id)
    ensures Count(sent, quote) == 0 <==> forall i | 0 <= i < |sent| :: sent[i].quote != quote
  {
    if sent != [] {
      var head := sent[..|sent| - 1];
      CountZero(head, quote);
      forall i | 0 <= i < |head| ensures head[i] == sent[i] {}
      if forall i | 0 <= i < |sent| :: sent[i].quote != quote {
        forall i | 0 <= i < |head| ensures head[i].quote != quote { assert sent[i].quote != quote; }
      }
    }
  }

  lemma CountOfUnknown(sent: seq<Request>, known: set<Id>, quote: Id)
    requires quote !in known && forall i | 0 <= i < |sent| :: sent[i].quote in known
    ensures Count(sent, quote) == 0
  {
    CountZero(sent, quote);
  }

  ghost predicate Grows(before: Ledger, after: Ledger) {
    && before.keyed == after.keyed
    && before.sent <= after.sent
    && forall slot | slot in before.verdicts :: slot in after.verdicts && after.verdicts[slot] == before.verdicts[slot]
  }

  lemma SaysGrows(before: Ledger, after: Ledger, i: nat, verdict: Verdict)
    requires Grows(before, after) && before.Says(i, verdict)
    ensures after.Says(i, verdict)
  {
  }

  lemma AnsweredGrows(before: Ledger, after: Ledger, quote: Id, key: Key, verdict: Verdict)
    requires Grows(before, after) && before.Answered(quote, key, verdict)
    ensures after.Answered(quote, key, verdict)
  {
    var i: nat :| i < |before.sent| && before.sent[i].quote == quote && before.sent[i].key == key
      && before.Says(i, verdict);
    SaysGrows(before, after, i, verdict);
    assert after.sent[i] == before.sent[i];
  }

  ghost function SlotsUpTo(ledger: Ledger, quote: Id, n: nat): set<Slot>
    requires n <= |ledger.sent|
  {
    set i | 0 <= i < n && ledger.sent[i].quote == quote :: ledger.SlotOf(i)
  }

  lemma {:induction false} SlotsAreFew(ledger: Ledger, quote: Id, n: nat)
    requires n <= |ledger.sent|
    ensures |SlotsUpTo(ledger, quote, n)| <= Count(ledger.sent[..n], quote)
  {
    if n == 0 {
      assert SlotsUpTo(ledger, quote, 0) == {};
    } else {
      SlotsAreFew(ledger, quote, n - 1);
      assert ledger.sent[..n][..n - 1] == ledger.sent[..n - 1];
      var last := ledger.sent[n - 1];
      var shorter := SlotsUpTo(ledger, quote, n - 1);
      if last.quote == quote {
        assert SlotsUpTo(ledger, quote, n) == shorter + {ledger.SlotOf(n - 1)};
      } else {
        assert SlotsUpTo(ledger, quote, n) == shorter;
      }
    }
  }

  /** Money can move at most once per request sent, keyed or not. */
  lemma DebitsAreBoundedBySends(ledger: Ledger, quote: Id)
    ensures |ledger.Debits(quote)| <= Count(ledger.sent, quote)
  {
    var n := |ledger.sent|;
    SlotsAreFew(ledger, quote, n);
    assert ledger.sent[..n] == ledger.sent;
    SubsetSize(ledger.Debits(quote), SlotsUpTo(ledger, quote, n));
  }

  /** On a keyed platform it can move at most once per key. */
  lemma OneKeyDebitsOnce(ledger: Ledger, quote: Id)
    requires ledger.keyed && ledger.OneKey(quote)
    ensures |ledger.Debits(quote)| <= 1
  {
    var key :| ledger.SentUnder(quote, key);
    forall slot | slot in ledger.Debits(quote) ensures slot == ByKey(key) {}
    SubsetSize(ledger.Debits(quote), {ByKey(key)});
  }

  /** Where every request for a quote shares one slot and that slot was refused, money neither has
      moved for it nor can. */
  lemma RefusedMeansNoDebit(ledger: Ledger, quote: Id, key: Key)
    requires ledger.keyed && ledger.SentUnder(quote, key) && ledger.Answered(quote, key, Refused)
    ensures ledger.Debits(quote) == {}
  {
    forall i: nat | i < |ledger.sent| && ledger.sent[i].quote == quote
      ensures !ledger.Says(i, Bought) && !ledger.Says(i, Stuck)
    {
      assert ledger.SlotOf(i) == ByKey(key);
    }
  }

  lemma SendsOfOthers(l: Ledger, l': Ledger, id: Id, other: Id)
    requires Grows(l, l') && |l'.sent| <= |l.sent| + 1 && other != id
    requires |l.sent| < |l'.sent| ==> l'.sent[|l.sent|].quote == id
    ensures Count(l'.sent, other) == Count(l.sent, other)
    ensures forall key :: l.SentUnder(other, key) ==> l'.SentUnder(other, key)
  {
    if |l.sent| < |l'.sent| {
      assert l'.sent == l.sent + [l'.sent[|l.sent|]];
      CountAppend(l.sent, l'.sent[|l.sent|], other);
    } else {
      assert l'.sent == l.sent;
    }
  }

  lemma {:induction false} CountMonotone(before: seq<Request>, after: seq<Request>, id: Id)
    requires before <= after
    ensures Count(before, id) <= Count(after, id)
    ensures Count(before, id) == Count(after, id) ==>
      forall i | |before| <= i < |after| :: after[i].quote != id
    decreases |after|
  {
    if |before| < |after| {
      var shorter := after[..|after| - 1];
      CountMonotone(before, shorter, id);
      forall i | |before| <= i < |after| && Count(before, id) == Count(after, id) ensures after[i].quote != id {
        if i < |shorter| { assert shorter[i] == after[i]; }
      }
    } else {
      assert before == after;
    }
  }

  lemma TwoRequestsCount(sent: seq<Request>, quote: Id, a: nat, b: nat)
    requires a < b < |sent| && sent[a].quote == quote && sent[b].quote == quote
    ensures Count(sent, quote) >= 2
  {
    var upToA, upToB := sent[..a + 1], sent[..b + 1];
    assert upToA[..a] == sent[..a] && upToB[..b] == sent[..b];
    CountMonotone(upToA, sent[..b], quote);
    CountMonotone(upToB, sent, quote);
  }

  /** Where one request was sent, it is the one that was refused. */
  lemma OnlyOneSlot(ledger: Ledger, id: Id)
    requires !ledger.keyed && Count(ledger.sent, id) <= 1
    requires exists key :: ledger.Answered(id, key, Refused)
    ensures ledger.Debits(id) == {}
  {
    var key :| ledger.Answered(id, key, Refused);
    var i: nat :| i < |ledger.sent| && ledger.sent[i].quote == id && ledger.sent[i].key == key
      && ledger.Says(i, Refused);
    forall j: nat | j < |ledger.sent| && ledger.sent[j].quote == id ensures j == i {
      if i < j { TwoRequestsCount(ledger.sent, id, i, j); }
      if j < i { TwoRequestsCount(ledger.sent, id, j, i); }
    }
  }

  lemma BoughtForGrows(before: Ledger, after: Ledger, quote: Id)
    requires Grows(before, after) && before.BoughtFor(quote)
    ensures after.BoughtFor(quote)
  {
    var i: nat :| i < |before.sent| && before.sent[i].quote == quote && before.Says(i, Bought);
    SaysGrows(before, after, i, Bought);
    assert after.sent[i] == before.sent[i];
  }
}
