/** One call to the platform: the route guard, the bounded retry of reads, the reading of the answer,
    and the single refresh and replay around an authenticated read. */
module Transport {
  import opened Strings
  import opened Outcomes
  import opened Sessions
  import RouteGuard

  datatype Body<+D> = Empty | Garbled | Read(envelope: Envelope<D>)

  /** What became of one request on the wire. */
  datatype Arrival<+D> = TimedOut | Broken | Arrived(status: int, body: Body<D>)

  /** `None` is the data of a success without a body. */
  datatype Result<+D> = Ok(data: Option<D>) | Err(code: Code)

  const MAX_READ_ATTEMPTS: nat := 3

  predicate Success(status: int) { 200 <= status < 300 }

  predicate RetryableStatus(status: int) { status == 502 || status == 503 || status == 504 }

  /** No further attempt is made after one of these. */
  predicate Conclusive<D>(arrival: Arrival<D>) { arrival.Arrived? && !RetryableStatus(arrival.status) }

  /** Of the two codes an answer carries, one that reports a failure wins. */
  function EffectiveStatus<D>(status: int, envelope: Option<Envelope<D>>): int {
    var code := if envelope.Some? then envelope.value.code else None;
    if code.Some? && !Success(code.value) then code.value
    else if !Success(status) then status
    else if code.Some? then code.value
    else status
  }

  function CodeOf(status: int): Code {
    if status == 401 || status == 403 then AuthenticationRequired
    else if status == 429 then RateLimited
    else if status in {400, 404, 409, 422} then InvalidInput
    else if status >= 500 then BackendUnavailable
    else Internal
  }

  function Classify<D>(matchers: seq<Matcher>, status: int, envelope: Option<Envelope<D>>): Code {
    var hint := if envelope.Some? then Lower(Strip(envelope.value.hint)) else "";
    LabelCode(matchers, hint).UnwrapOr(CodeOf(EffectiveStatus(status, envelope)))
  }

  function Parse<D>(matchers: seq<Matcher>, status: int, body: Body<D>): Result<D> {
    if status == 204 || body.Empty? then
      if Success(status) then Ok(None) else Err(Classify<D>(matchers, status, None))
    else if body.Garbled? then Err(InvalidResponse)
    else if !Success(status) || !body.envelope.IsSuccess() then Err(Classify(matchers, status, Some(body.envelope)))
    else Ok(Some(body.envelope.data))
  }

  function Concluded<D>(matchers: seq<Matcher>, arrival: Arrival<D>): Result<D> {
    match arrival
    case TimedOut => Err(BackendTimeout)
    case Broken => Err(BackendUnavailable)
    case Arrived(status, body) => Parse(matchers, status, body)
  }

  /** An answer counts as data only if every signal it carries says so; and where any says otherwise,
      reading it as a raised error and reading it as a kept outcome agree on the status. */
  lemma EverySignalMustAgree<D>(matchers: seq<Matcher>, status: int, envelope: Envelope<D>)
    ensures var outcome := Outcome(status, Some(envelope));
      && (Parse(matchers, status, Read(envelope)) == Ok(Some(envelope.data)) <==> status != 204 && outcome.IsSuccess())
      && (!outcome.IsSuccess() && (!Success(status) || (envelope.code.Some? && !Success(envelope.code.value))) ==>
            !Success(outcome.EffectiveStatus()) && EffectiveStatus(status, Some(envelope)) == outcome.EffectiveStatus())
  {
  }

  /** Under what code a failed answer is raised: a recognised label decides, then the status. */
  lemma FailuresAreNamed<D>(matchers: seq<Matcher>, status: int, envelope: Envelope<D>)
    ensures var code, s := Classify(matchers, status, Some(envelope)), EffectiveStatus(status, Some(envelope));
      var hint := Lower(Strip(envelope.hint));
      && (forall k: nat | IsFirstMatch(matchers, hint, k) :: code == matchers[k].code)
      && ((forall m | m in matchers :: !Carries(hint, m.labels)) ==>
            && (s in {401, 403} <==> code == AuthenticationRequired) && (s == 429 <==> code == RateLimited)
            && (s in {400, 404, 409, 422} <==> code == InvalidInput) && (s >= 500 <==> code == BackendUnavailable))
  {
    var hint := Lower(Strip(envelope.hint));
    forall k: nat | IsFirstMatch(matchers, hint, k) ensures LabelCode(matchers, hint) == Some(matchers[k].code) {
      FirstMatchDecides(matchers, hint, k);
    }
    var k := LabelCodeIsTheFirst(matchers, hint);
    if LabelCode(matchers, hint).Some? { assert matchers[k] in matchers; }
  }

  // ------------------------------------------------------------------ one request, retried

  function Attempts(allowRetry: bool): nat { if allowRetry then MAX_READ_ATTEMPTS else 1 }

  /** Every arrival from place `from` up to `to` leaves the matter open. */
  predicate AllOpen<D>(script: nat -> Arrival<D>, from: nat, to: nat) {
    forall k | from <= k < to :: !Conclusive(script(k))
  }

  /** `script` is whatever the network does with the requests sent from place `from` on. The result
      is that of the first conclusive arrival or, failing one, of the last attempt allowed. */
  method Request<D>(matchers: seq<Matcher>, script: nat -> Arrival<D>, from: nat, allowRetry: bool)
    returns (result: Result<D>, sent: nat)
    ensures 1 <= sent <= Attempts(allowRetry)
    ensures AllOpen(script, from, from + sent - 1)
    ensures sent < Attempts(allowRetry) ==> Conclusive(script(from + sent - 1))
    ensures result == Concluded(matchers, script(from + sent - 1))
  {
    var attempts := Attempts(allowRetry);
    var lastError := Internal;
    sent := 0;
    while sent < attempts
      invariant sent <= attempts && AllOpen(script, from, from + sent)
      invariant sent > 0 && sent == attempts ==> Concluded(matchers, script(from + sent - 1)) == Err(lastError)
    {
      var arrival := script(from + sent);
      sent := sent + 1;
      match arrival {
        case TimedOut => lastError := BackendTimeout;
        case Broken => lastError := BackendUnavailable;
        case Arrived(status, body) =>
          if RetryableStatus(status) && sent < attempts {
            lastError := BackendUnavailable;
          } else {
            return Parse(matchers, status, body), sent;
          }
      }
    }
    return Err(lastError), sent;
  }

  /** Nothing is sent on a route that is not permitted. */
  method Call<D>(
    policy: RouteGuard.Policy, matchers: seq<Matcher>, qa: bool, verb: string, path: string,
    script: nat -> Arrival<D>, allowRetry: bool)
    returns (result: Result<D>, sent: nat)
    requires policy.WellFormed()
    ensures sent == 0 <==> !policy.Permitted(verb, path, qa)
    ensures sent == 0 ==> result == Err(ForbiddenRoute)
    ensures sent > 0 ==> sent <= Attempts(allowRetry) && result == Concluded(matchers, script(sent - 1))
  {
    var permitted := RouteGuard.EnforceRoute(policy, verb, path, qa);
    if !permitted { return Err(ForbiddenRoute), 0; }
    result, sent := Request(matchers, script, 0, allowRetry);
  }

  /** How many requests it takes: up to the first conclusive arrival, or all that are allowed. */
  function Sends<D>(script: nat -> Arrival<D>, from: nat, attempts: nat): (n: nat)
    requires attempts >= 1
    ensures 1 <= n <= attempts
    decreases attempts
  {
    if attempts == 1 || Conclusive(script(from)) then 1 else 1 + Sends(script, from + 1, attempts - 1)
  }

  /** What the loop does is what the script says: no request is sent after a conclusive arrival, and
      none is left out before one. */
  lemma {:induction false} LoopSendsAsManyAs<D>(script: nat -> Arrival<D>, from: nat, attempts: nat, sent: nat)
    requires 1 <= sent <= attempts && AllOpen(script, from, from + sent - 1)
    requires sent < attempts ==> Conclusive(script(from + sent - 1))
    ensures sent == Sends(script, from, attempts)
    decreases attempts
  {
    if sent > 1 {
      assert !Conclusive(script(from));
      LoopSendsAsManyAs(script, from + 1, attempts - 1, sent - 1);
    }
  }

  /** Nothing usable came back: a timeout, a broken connection or a gateway's failure. */
  predicate Unusable<D>(arrival: Arrival<D>) { !arrival.Arrived? || 502 <= arrival.status <= 504 }

  /** A request is given up without a usable answer exactly where every attempt allowed came to nothing;
      otherwise it ends with the first usable answer, and every attempt before that came to nothing. */
  lemma {:induction false} GivingUpTakesEveryAttempt<D>(script: nat -> Arrival<D>, from: nat, attempts: nat)
    requires attempts >= 1
    ensures var n := Sends(script, from, attempts);
      && (Unusable(script(from + n - 1)) <==> forall k | from <= k < from + attempts :: Unusable(script(k)))
      && (Unusable(script(from + n - 1)) ==> n == attempts)
      && (forall k | from <= k < from + n - 1 :: Unusable(script(k)))
    decreases attempts
  {
    if attempts > 1 && !Conclusive(script(from)) { GivingUpTakesEveryAttempt(script, from + 1, attempts - 1); }
  }

  // ------------------------------------------------------------------ an authenticated call

  /** What the world shows one caller: the session stored, and the clock, each time it looks; and what
      a rotation it starts comes to. */
  datatype Surroundings = Surroundings(
    stored: nat -> Option<Session>, now: nat -> int, window: int, renewed: nat -> Option<Session>)

  /** What one authenticated call did: the tokens its runs went out with, the requests each run took,
      and the rotations it started. */
  datatype Work<+D> = Work(
    result: Result<D>, tokens: seq<Token>, first: nat, second: nat, rotations: nat, invalidated: bool)
  {
    function Sent(): nat { first + second + rotations }
  }

  /** The session to go on with after looking again: one rotated meanwhile, one rotated now, or none. */
  function GoingOn(begun: Begun, renewed: Option<Session>): Option<Session> {
    match begun
    case SignIn => None
    case Current(current) => Some(current)
    case Rotate(_) => renewed
  }

  /** The session the first run goes out with. */
  function FirstSession(s: Surroundings): Option<Session> {
    match s.stored(0)
    case None => None
    case Some(session) =>
      if session.NeedsRefresh(s.window, s.now(0))
      then GoingOn(BeginRefresh(s.stored(1), None, false, s.window, s.now(1)), s.renewed(0))
      else Some(session)
  }

  /** The session for the second run, once `refused` was turned away. */
  function SecondSession(s: Surroundings, refused: Token): Option<Session> {
    GoingOn(BeginRefresh(s.stored(2), Some(refused), true, s.window, s.now(2)), s.renewed(1))
  }

  /** The session stored at the k-th look, with more of its life left then than the window. */
  predicate NotDue(session: Option<Session>, s: Surroundings, k: nat) {
    && session.Some? && session == s.stored(k)
    && (session.value.expiresAt.Some? ==> session.value.expiresAt.value - s.now(k) > s.window)
  }

  /** Refresh ahead of time if the stored session is about to lapse. */
  method EnsureFresh(s: Surroundings) returns (session: Option<Session>, rotations: nat)
    ensures session == FirstSession(s) && rotations <= 1
    ensures session.Some? ==>
      || NotDue(session, s, 0) || NotDue(session, s, 1)
      || (rotations == 1 && session == s.renewed(0) && s.stored(1).Some? && !NotDue(s.stored(1), s, 1))
  {
    rotations := 0;
    session := s.stored(0);
    if session.Some? && session.value.NeedsRefresh(s.window, s.now(0)) {
      var begun := BeginRefresh(s.stored(1), None, false, s.window, s.now(1));
      if begun.Rotate? { rotations := 1; }
      session := GoingOn(begun, s.renewed(0));
    }
  }

  /** No renewed session carries the token. */
  ghost predicate RenewedWithout(s: Surroundings, token: Token) {
    forall k, renewed :: s.renewed(k) == Some(renewed) ==> renewed.access != token
  }

  /** Refresh because the platform refused a token. */
  method RefreshRefused(s: Surroundings, refused: Token) returns (session: Option<Session>, rotations: nat)
    ensures session == SecondSession(s, refused) && rotations <= 1
    ensures session.Some? && RenewedWithout(s, refused) ==>
      session.value.access != refused
  {
    var begun := BeginRefresh(s.stored(2), Some(refused), true, s.window, s.now(2));
    StaleTokensAreNotReturned(s.stored(2), refused, s.window, s.now(2));
    rotations := if begun.Rotate? then 1 else 0;
    session := GoingOn(begun, s.renewed(1));
  }

  /** What an operation does each time it is run: its result, and the requests it takes. */
  datatype Operation<!D> = Operation(result: nat -> Result<D>, requests: nat -> nat)

  /** At most two runs of the operation and two rotations; the second run only after the platform
      refused the first run's token, and never with that token again; the result is the last run's. */
  method RunAuthenticated<D>(s: Surroundings, operation: Operation<D>, allowReplay: bool) returns (work: Work<D>)
    ensures |work.tokens| <= 2 && work.rotations <= 2 && (work.tokens == [] <==> FirstSession(s).None?)
    ensures !allowReplay ==> |work.tokens| <= 1 && work.rotations <= 1
    ensures work.first == (if |work.tokens| >= 1 then operation.requests(0) else 0)
    ensures work.second == (if |work.tokens| == 2 then operation.requests(1) else 0)
    ensures work.tokens == [] ==> work.result == Err(AuthenticationRequired)
    ensures work.tokens != [] ==>
      work.tokens[0] == FirstSession(s).value.access && work.result == operation.result(|work.tokens| - 1)
    ensures |work.tokens| == 2 <==>
      && work.tokens != [] && allowReplay && operation.result(0) == Err(AuthenticationRequired)
      && SecondSession(s, work.tokens[0]).Some?
    ensures |work.tokens| == 2 ==> work.tokens[1] == SecondSession(s, work.tokens[0]).value.access
    ensures |work.tokens| == 2 && RenewedWithout(s, work.tokens[0]) ==> work.tokens[1] != work.tokens[0]
    ensures work.invalidated <==>
      work.result == Err(AuthenticationRequired) && work.tokens != [] && (|work.tokens| == 2 || !allowReplay)
  {
    var session, rotations := EnsureFresh(s);
    if session.None? { return Work(Err(AuthenticationRequired), [], 0, 0, rotations, false); }
    var token := session.value.access;
    var result, first := operation.result(0), operation.requests(0);
    if result != Err(AuthenticationRequired) { return Work(result, [token], first, 0, rotations, false); }
    if !allowReplay { return Work(result, [token], first, 0, rotations, true); }

    var again, more := RefreshRefused(s, token);
    if again.None? { return Work(result, [token], first, 0, rotations + more, false); }
    var last := operation.result(1);
    return Work(
      last, [token, again.value.access], first, operation.requests(1), rotations + more,
      last == Err(AuthenticationRequired));
  }

  /** Where the k-th run of a read starts on the network's script. */
  function Start<D>(script: nat -> Arrival<D>, attempts: nat, k: nat): nat
    requires attempts >= 1
  {
    if k == 0 then 0 else Start(script, attempts, k - 1) + Sends(script, Start(script, attempts, k - 1), attempts)
  }

  function RunSends<D>(script: nat -> Arrival<D>, attempts: nat, k: nat): (n: nat)
    requires attempts >= 1
    ensures 1 <= n <= attempts
  {
    Sends(script, Start(script, attempts, k), attempts)
  }

  function RunResult<D>(matchers: seq<Matcher>, script: nat -> Arrival<D>, attempts: nat, k: nat): Result<D>
    requires attempts >= 1
  {
    Concluded(matchers, script(Start(script, attempts, k) + RunSends(script, attempts, k) - 1))
  }

  /** A read of the platform as an operation: each run is one request, retried if it may be. */
  function Reading<D>(matchers: seq<Matcher>, script: nat -> Arrival<D>, attempts: nat): Operation<D>
    requires attempts >= 1
  {
    Operation((k: nat) => RunResult(matchers, script, attempts, k), (k: nat) => RunSends(script, attempts, k))
  }

  /** The retry loop carries out one run of such an operation. */
  method RunOnce<D>(matchers: seq<Matcher>, script: nat -> Arrival<D>, allowRetry: bool, k: nat)
    returns (result: Result<D>, sent: nat)
    ensures sent == RunSends(script, Attempts(allowRetry), k)
    ensures result == RunResult(matchers, script, Attempts(allowRetry), k)
  {
    var from := Start(script, Attempts(allowRetry), k);
    result, sent := Request(matchers, script, from, allowRetry);
    LoopSendsAsManyAs(script, from, Attempts(allowRetry), sent);
  }

  /** Whatever the network does, an authenticated read ends within eight requests; one that may not be
      retried takes one request a run, and one that may not be replayed is run once. */
  method AuthenticatedRead<D>(
    s: Surroundings, matchers: seq<Matcher>, script: nat -> Arrival<D>, allowRetry: bool, allowReplay: bool)
    returns (work: Work<D>)
    ensures work.Sent() <= 8
    ensures !allowReplay ==> work.Sent() <= 4
    ensures !allowRetry ==> work.first + work.second == |work.tokens|
    ensures !allowRetry && !allowReplay ==> work.Sent() <= 2
  {
    work := RunAuthenticated(s, Reading(matchers, script, Attempts(allowRetry)), allowReplay);
  }
}
