/** How the answer to a wallet purchase is read, and under what code a recorded refusal comes back. */
module WalletAnswers {
  import opened Strings
  import opened Outcomes

  const BUSINESS_MATCHERS: seq<Matcher> :=
    [Matcher(["insufficient_wallet_balance", "insufficient wallet"], InsufficientBalance),
     Matcher(["wallet_not_found", "wallet not found"], WalletUnavailable),
     Matcher(["bundle_not_available", "bundle not available"], BundleUnavailable),
     Matcher(["unsupported_currency", "unsupported currency"], CurrencyMismatch),
     Matcher(["unsupported_payment_type", "unsupported payment"], NonWalletQuote)]

  function BusinessRefusal(hint: string): Code { LabelCode(BUSINESS_MATCHERS, hint).UnwrapOr(PurchaseRejected) }

  function ClassifyFailure(status: int, hint: string, parsed: bool): (Failure, Disposition) {
    if status == 424 then (Plain(ManualIntervention), Escalate)
    else if status == 401 || status == 403 then
      (Failure(AuthenticationRequired, Specific("The eSIM session was refused by the platform.")), Retryable)
    else if status == 404 then (Plain(RouteUnavailable), Retryable)
    else if status == 429 then
      (Failure(RateLimited, Specific("The purchase was not attempted.")), Retryable)
    else if status == 409 then
      if StillRunning(hint) then (Plain(InProgress), Unsure) else (Plain(IdempotencyConflict), Terminal)
    else if status == 400 || status == 422 then (Plain(BusinessRefusal(hint)), Terminal)
    else if status == 503 then (Plain(PurchaseUnavailable), Retryable)
    else if !parsed && 200 <= status < 300 then (Plain(OutcomeUnknown), Unsure)
    else if status >= 500 then (Plain(OutcomeUnknown), Unsure)
    else (Plain(PurchaseRejected), Terminal)
  }

  /** A purchase answer's payload, or nothing when it cannot be read. */
  datatype Purchase = Purchase(completed: bool, orderId: Option<string>, idempotentReplay: bool)

  /** What this server takes an answer to mean. */
  datatype Reading
    = Lost | Unreadable | Completed(purchase: Purchase) | NotCompleted(failure: Failure, how: Disposition)

  function ReadPurchase(outcome: Outcome<Option<Purchase>>): Reading {
    if outcome.IsSuccess() then
      match outcome.envelope.value.data
      case Some(p) => if p.completed then Completed(p) else Unreadable
      case None => Unreadable
    else
      var (failure, how) := ClassifyFailure(outcome.EffectiveStatus(), outcome.Hint(), outcome.Parsed());
      NotCompleted(failure, how)
  }

  /** The platform's answer to a purchase, if one came at all. */
  type PurchaseAnswer = Option<Outcome<Option<Purchase>>>

  function ReadAnswer(answer: PurchaseAnswer): Reading {
    match answer
    case None => Lost
    case Some(outcome) => ReadPurchase(outcome)
  }

  /** The purchase an answer reports as completed, if it does. */
  predicate ReportsPurchase(outcome: Outcome<Option<Purchase>>) {
    outcome.IsSuccess() && outcome.envelope.value.data.Some? && outcome.envelope.value.data.value.completed
  }

  /** A refusal the platform explains. */
  predicate Refuses(outcome: Outcome<Option<Purchase>>) { outcome.Parsed() && outcome.EffectiveStatus() in {400, 422} }

  /** A readable conflict; one still being worked on is told apart by its label. */
  predicate Conflicts(outcome: Outcome<Option<Purchase>>) { outcome.Parsed() && outcome.EffectiveStatus() == 409 }

  predicate IsFinal(reading: Reading) { reading.NotCompleted? && reading.how == Terminal }

  /** Which answers leave the key alone, which refuse for good, which escalate and which say
      nothing: read off the answer itself, with no reference to how it is classified. */
  lemma ReadingsFollowTheAnswer(outcome: Outcome<Option<Purchase>>)
    ensures var s, r := outcome.EffectiveStatus(), ReadPurchase(outcome);
      && (r.Completed? <==>
            outcome.IsSuccess() && outcome.envelope.value.data.Some? && outcome.envelope.value.data.value.completed)
      && (!outcome.IsSuccess() ==>
            && r.NotCompleted?
            && (r.how == Escalate <==> s == 424)
            && (r.how == Retryable <==> s in {401, 403, 404, 429, 503})
            && (r.how == Unsure <==>
                  (s >= 500 && s != 503) || (s == 409 && StillRunning(outcome.Hint()))
                  || (200 <= s < 300 && !outcome.Parsed()))
            && (r.how == Terminal ==> r.failure.message == DefaultOf(r.failure.code))
            && (r.how == Terminal <==>
                  s < 500 && s !in {401, 403, 404, 424, 429} && !(200 <= s < 300 && !outcome.Parsed())
                  && !(s == 409 && StillRunning(outcome.Hint()))))
  {
  }

  /** An answer on which a refusal is filed for good, read off the answer: no success and no server's
      failure, none of the five statuses that are tried again or escalated, no success that could not be
      read, and no conflict still being worked on. */
  predicate IsFiled(outcome: Outcome<Option<Purchase>>) {
    var s := outcome.EffectiveStatus();
    && !outcome.IsSuccess() && s < 500 && s !in {401, 403, 404, 424, 429}
    && !(200 <= s < 300 && !outcome.Parsed()) && !(s == 409 && StillRunning(outcome.Hint()))
  }

  lemma RefusalsAreFiledExactlyWhen(outcome: Outcome<Option<Purchase>>)
    ensures IsFinal(ReadPurchase(outcome)) <==> IsFiled(outcome)
  {
    ReadingsFollowTheAnswer(outcome);
  }

  /** Under what code each failure is reported. */
  lemma FailuresAreNamed(status: int, hint: string, parsed: bool)
    ensures var code := ClassifyFailure(status, hint, parsed).0.code;
      && (status == 424 ==> code == ManualIntervention)
      && (status in {401, 403} ==> code == AuthenticationRequired)
      && (status == 404 ==> code == RouteUnavailable) && (status == 429 ==> code == RateLimited)
      && (status == 503 ==> code == PurchaseUnavailable)
      && (status == 409 ==> code == if StillRunning(hint) then InProgress else IdempotencyConflict)
      && (status in {400, 422} ==>
            (forall k: nat | IsFirstMatch(BUSINESS_MATCHERS, hint, k) :: code == BUSINESS_MATCHERS[k].code)
            && ((forall m | m in BUSINESS_MATCHERS :: !Carries(hint, m.labels)) ==> code == PurchaseRejected))
      && (status > 503 || status in {500, 501, 502} ==> code == OutcomeUnknown)
  {
    forall k: nat | IsFirstMatch(BUSINESS_MATCHERS, hint, k)
      ensures LabelCode(BUSINESS_MATCHERS, hint) == Some(BUSINESS_MATCHERS[k].code)
    {
      FirstMatchDecides(BUSINESS_MATCHERS, hint, k);
    }
    var k := LabelCodeIsTheFirst(BUSINESS_MATCHERS, hint);
    if LabelCode(BUSINESS_MATCHERS, hint).Some? { assert BUSINESS_MATCHERS[k] in BUSINESS_MATCHERS; }
  }

  lemma BusinessCodes(hint: string)
    ensures BusinessRefusal(hint) in
      {InsufficientBalance, WalletUnavailable, BundleUnavailable, CurrencyMismatch, NonWalletQuote, PurchaseRejected}
  {
    var k := LabelCodeIsTheFirst(BUSINESS_MATCHERS, hint);
  }

  /** The codes a stored wallet failure can be rebuilt under. */
  const REPLAYABLE: set<Code> :=
    {IdempotencyConflict, InsufficientBalance, NonWalletQuote, AttemptLimit, CurrencyMismatch, InProgress,
     ManualIntervention, OutcomeUnknown, PurchaseRejected, RouteUnavailable, PurchaseUnavailable}

  /** Rebuild a recorded failure: an unlisted code degrades to "unknown"; the message is kept. */
  function Replay(failure: Option<Failure>): Failure {
    match failure
    case None => Plain(OutcomeUnknown)
    case Some(f) => Failure(if f.code in REPLAYABLE then f.code else OutcomeUnknown, f.message)
  }

  /** Every terminal refusal is replayed with its message, but two of them under another code. */
  lemma ReplayKeepsMessageNotAlwaysCode(status: int, hint: string, parsed: bool)
    ensures var (failure, how) := ClassifyFailure(status, hint, parsed);
      (how == Terminal || how == Escalate) ==>
        && Replay(Some(failure)).message == failure.message
        && (Replay(Some(failure)).code == failure.code <==> failure.code !in {WalletUnavailable, BundleUnavailable})
  {
    BusinessCodes(hint);
  }

  /** The two codes that are lost do arise: here from a 400 whose label is a missing wallet. */
  lemma WalletUnavailableIsReplayedAsUnknown()
    ensures ClassifyFailure(400, "wallet_not_found", true) == (Plain(WalletUnavailable), Terminal)
    ensures Replay(Some(Plain(WalletUnavailable))).code == OutcomeUnknown
  {
    var hint, tag, words := "wallet_not_found", "insufficient_wallet_balance", "insufficient wallet";
    assert |hint| < |tag| && |hint| < |words|;
    assert !Contains(hint, tag) && !Contains(hint, words);
    assert hint[0..16] == hint;
    assert OccursAt(hint, "wallet_not_found", 0);
    assert BUSINESS_MATCHERS[1].labels[0] == "wallet_not_found";
    FirstMatchDecides(BUSINESS_MATCHERS, hint, 1);
  }
}
