/** What one un-retried request produced, and the errors a caller may be given. */
module Outcomes {
  import opened Strings

  datatype Code =
    | ForbiddenRoute | InvalidResponse | Internal
    | OtpTooFrequent | OtpStillActive | OtpLimitReached | OtpExpired | OtpInvalid
    | InvalidInput | AuthenticationRequired | RateLimited | BackendUnavailable | BackendTimeout
    | QuoteNotFound | QuoteExpired | QuoteCancelled | QuoteConsumed
    | NonWalletQuote | InsufficientBalance | WalletUnavailable | BundleUnavailable | CurrencyMismatch
    | PurchaseRejected | RouteUnavailable | PurchaseUnavailable | InProgress | IdempotencyConflict
    | ManualIntervention | OutcomeUnknown | AttemptLimit
    | NonCardQuote | CheckoutUnavailable | CheckoutRejected | CheckoutUnknown | CheckoutAttemptLimit
    | UnsafeLink | PaymentNotFound | PaymentStatusUnavailable | PaymentAmbiguous | PaymentCheckLimit
    | TopupQuoteNotFound | TopupQuoteExpired | TopupQuoteCancelled | TopupDisabled | TopupConfirmationRequired
    | TopupRejected | TopupUnknown | TopupAlreadyAttempted | TopupIncompatible | TopupNotSupported
    | NoPurchasedEsims | EsimNotFound

  /** An error's own default sentence, or one chosen where it was raised. Neither is ever empty. */
  datatype Message = DefaultOf(code: Code) | Specific(text: string)

  datatype Failure = Failure(code: Code, message: Message)

  function Plain(code: Code): Failure { Failure(code, DefaultOf(code)) }

  /** `accepted` is whether the envelope's status word is one of success; it may be absent. */
  datatype Envelope<+D> = Envelope(accepted: Option<bool>, code: Option<int>, hint: string, data: D) {
    predicate IsSuccess() {
      && accepted != Some(false)
      && (code.Some? ==> 200 <= code.value < 300)
      && (accepted.Some? || code.Some?)
    }
  }

  datatype Outcome<+D> = Outcome(status: int, envelope: Option<Envelope<D>>) {
    predicate Parsed() { envelope.Some? }

    predicate IsSuccess() { 200 <= status < 300 && envelope.Some? && envelope.value.IsSuccess() }

    function EffectiveStatus(): int {
      if envelope.Some? && envelope.value.code.Some? && !(200 <= envelope.value.code.value < 300)
      then envelope.value.code.value
      else status
    }

    /** The platform's own label, lower-cased; empty when the body could not be read. */
    function Hint(): string { if envelope.Some? then Lower(Strip(envelope.value.hint)) else "" }
  }

  /** How an unsuccessful answer is remembered. */
  datatype Disposition = Escalate | Terminal | Unsure | Retryable

  predicate StillRunning(hint: string) {
    Contains(hint, "in_progress") || Contains(hint, "in progress") || Contains(hint, "still processing")
  }

  /** Success takes every signal: an answer is one exactly if none of its signals reports a failure and
      the envelope gives at least one. */
  lemma SuccessTakesEverySignal<D>(status: int, accepted: Option<bool>, code: Option<int>, hint: string, data: D)
    ensures var failing :=
      !(200 <= status < 300) || accepted == Some(false) || (code.Some? && !(200 <= code.value < 300));
      var outcome := Outcome(status, Some(Envelope(accepted, code, hint, data)));
      && (outcome.IsSuccess() <==> !failing && (accepted.Some? || code.Some?))
      && (!outcome.IsSuccess() && accepted != Some(false) && (accepted.Some? || code.Some?) ==>
            !(200 <= outcome.EffectiveStatus() < 300))
  {
  }

  // ------------------------------------------------------------------ labels

  /** Labels by which one kind of refusal is recognised, and its code. */
  datatype Matcher = Matcher(labels: seq<string>, code: Code)

  predicate Carries(hint: string, labels: seq<string>) { exists i | 0 <= i < |labels| :: Contains(hint, labels[i]) }

  /** The code of the first matcher that recognises the label. */
  function LabelCode(matchers: seq<Matcher>, hint: string): Option<Code> {
    if matchers == [] then None
    else if Carries(hint, matchers[0].labels) then Some(matchers[0].code)
    else LabelCode(matchers[1..], hint)
  }

  predicate IsFirstMatch(matchers: seq<Matcher>, hint: string, k: nat) {
    k < |matchers| && Carries(hint, matchers[k].labels) && forall i | 0 <= i < k :: !Carries(hint, matchers[i].labels)
  }

  lemma {:induction false} FirstMatchDecides(matchers: seq<Matcher>, hint: string, k: nat)
    requires IsFirstMatch(matchers, hint, k)
    ensures LabelCode(matchers, hint) == Some(matchers[k].code)
  {
    if k > 0 {
      forall i | 0 <= i < k - 1
        ensures !Carries(hint, matchers[1..][i].labels)
      {
        assert matchers[1..][i] == matchers[i + 1];
      }
      FirstMatchDecides(matchers[1..], hint, k - 1);
    }
  }

  /** A code is given exactly if some matcher recognises the label, and then it is the first one's. */
  lemma {:induction false} LabelCodeIsTheFirst(matchers: seq<Matcher>, hint: string) returns (k: nat)
    ensures LabelCode(matchers, hint).Some? ==>
      IsFirstMatch(matchers, hint, k) && LabelCode(matchers, hint) == Some(matchers[k].code)
    ensures LabelCode(matchers, hint).None? <==> forall i | 0 <= i < |matchers| :: !Carries(hint, matchers[i].labels)
  {
    k := 0;
    if matchers != [] && !Carries(hint, matchers[0].labels) {
      var rest := LabelCodeIsTheFirst(matchers[1..], hint);
      forall i | 0 < i < |matchers| ensures matchers[i] == matchers[1..][i - 1] {}
      k := rest + 1;
    }
  }
}
