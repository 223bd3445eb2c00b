/** One client's session: its tokens, their rotation under the session's lock, and what logins and
    logouts, which do not take that lock, may do meanwhile. */
module Sessions {
  import opened Strings

  type Token = string

  datatype Session = Session(access: Token, refresh: Token, expiresAt: Option<int>, user: string) {
    predicate NeedsRefresh(window: int, now: int) {
      expiresAt.Some? && now + window >= expiresAt.value
    }
  }

  /** `rotating` is the copy a rotation in flight started from; its caller holds the lock. The last
      four fields are history: every session ever stored, every session whose tokens were presented for
      rotation, those whose rotation was abandoned by its own task before an answer, and those whose
      rotation was answered. */
  datatype SessionState = SessionState(
    session: Option<Session>, rotating: Option<Session>,
    issued: set<Session>, presented: seq<Session>, abandoned: seq<Session>, answered: seq<Session>)

  const START := SessionState(None, None, {}, [], [], [])

  datatype Begun = SignIn | Current(session: Session) | Rotate(session: Session)

  /** Decided anew inside the lock, from what is stored then. */
  function BeginRefresh(session: Option<Session>, stale: Option<Token>, force: bool, window: int, now: int): Begun {
    match session
    case None => SignIn
    case Some(s) =>
      if stale.Some? && s.access != stale.value then Current(s)
      else if !force && !s.NeedsRefresh(window, now) then Current(s)
      else Rotate(s)
  }

  datatype Event =
    | Login(session: Session)
    | Begin(stale: Option<Token>, force: bool, window: int, now: int)
    | Finish(access: Token, refresh: Token, expiresAt: Option<int>, user: string)
    | Fail
    | Abandon
    | End

  /** Tokens the backend hands out are taken to be new. */
  predicate NewTokens(issued: set<Session>, s: Session) {
    forall x | x in issued :: x.access != s.access && x.refresh != s.refresh
  }

  function Rotated(from: Session, access: Token, refresh: Token, expiresAt: Option<int>, user: string): Session {
    Session(access, refresh, expiresAt, if user != "" then user else from.user)
  }

  function Step(s: SessionState, event: Event): SessionState {
    match event
    case Login(session) =>
      if !NewTokens(s.issued, session) then s
      else s.(session := Some(session), issued := s.issued + {session})
    case Begin(stale, force, window, now) =>
      if s.rotating.Some? then s
      else
        (match BeginRefresh(s.session, stale, force, window, now)
         case Rotate(session) => s.(rotating := Some(session), presented := s.presented + [session])
         case _ => s)
    case Finish(access, refresh, expiresAt, user) =>
      if s.rotating.None? then s
      else
        var session := Rotated(s.rotating.value, access, refresh, expiresAt, user);
        if !NewTokens(s.issued, session) then s
        else
          s.(session := Some(session), rotating := None, issued := s.issued + {session},
             answered := s.answered + [s.rotating.value])
    case Fail =>
      if s.rotating.None? then s
      else s.(session := None, rotating := None, answered := s.answered + [s.rotating.value])
    case Abandon => if s.rotating.None? then s else s.(rotating := None, abandoned := s.abandoned + [s.rotating.value])
    case End => s.(session := None)
  }

  function Run(s: SessionState, events: seq<Event>): SessionState
    decreases |events|
  {
    if events == [] then s else Run(Step(s, events[0]), events[1..])
  }

  // ------------------------------------------------------------------ one presentation per token

  ghost predicate Distinct(issued: set<Session>) {
    forall a, b | a in issued && b in issued && (a.access == b.access || a.refresh == b.refresh) :: a == b
  }

  ghost predicate Inv(s: SessionState) {
    && Distinct(s.issued)
    && (s.session.Some? ==> s.session.value in s.issued)
    && (s.rotating.Some? ==> s.rotating.value in s.issued)
    && (forall x | x in s.presented :: x in s.issued)
    && (forall x | x in s.abandoned :: x in s.issued)
    && (forall x | x in s.answered :: x in s.issued && s.session != Some(x) && s.rotating != Some(x))
    && (forall x :: Accounted(s, x))
  }

  /** Each presentation was abandoned, answered, or is under way; and a session is answered once. */
  ghost predicate Accounted(s: SessionState, x: Session) {
    && multiset(s.presented)[x]
       == multiset(s.abandoned)[x] + multiset(s.answered)[x] + (if s.rotating == Some(x) then 1 else 0)
    && multiset(s.answered)[x] <= 1
  }

  lemma StepKeepsInv(s: SessionState, event: Event)
    requires Inv(s)
    ensures Inv(Step(s, event))
  {
    forall x ensures Accounted(Step(s, event), x) { assert Accounted(s, x); }
    match event
    case Login(session) =>
      if NewTokens(s.issued, session) { assert session !in s.issued && session !in s.presented; }
    case Begin(stale, force, window, now) =>
    case Finish(access, refresh, expiresAt, user) =>
      if s.rotating.Some? {
        var session := Rotated(s.rotating.value, access, refresh, expiresAt, user);
        if NewTokens(s.issued, session) { assert session !in s.issued && session !in s.presented; }
      }
    case _ =>
  }

  lemma {:induction false} RunKeepsInv(s: SessionState, events: seq<Event>)
    requires Inv(s)
    ensures Inv(Run(s, events))
    decreases |events|
  {
    if events != [] {
      StepKeepsInv(s, events[0]);
      RunKeepsInv(Step(s, events[0]), events[1..]);
    }
  }

  datatype Kind = Access | Refresh

  function TokenOf(s: Session, kind: Kind): Token { if kind.Access? then s.access else s.refresh }

  /** How many entries of the log carry the token. */
  function Times(log: seq<Session>, kind: Kind, token: Token): nat {
    if log == [] then 0
    else Times(log[..|log| - 1], kind, token) + if TokenOf(log[|log| - 1], kind) == token then 1 else 0
  }

  lemma {:induction false} TimesOfToken(log: seq<Session>, kind: Kind, token: Token, issued: set<Session>, x: Session)
    requires Distinct(issued) && x in issued && TokenOf(x, kind) == token
    requires forall y | y in log :: y in issued
    ensures Times(log, kind, token) == multiset(log)[x]
  {
    if log != [] {
      var init := log[..|log| - 1];
      assert log == init + [log[|log| - 1]];
      TimesOfToken(init, kind, token, issued, x);
    }
  }

  lemma {:induction false} TimesOfNothing(log: seq<Session>, kind: Kind, token: Token)
    requires forall y | y in log :: TokenOf(y, kind) != token
    ensures Times(log, kind, token) == 0
  {
    if log != [] { TimesOfNothing(log[..|log| - 1], kind, token); }
  }

  function InFlight(s: SessionState, kind: Kind, token: Token): nat {
    if s.rotating.Some? && TokenOf(s.rotating.value, kind) == token then 1 else 0
  }

  /** Over any run the presentations of a token are exactly its abandoned ones, its answered one and the
      one under way, the last two together at most one. */
  lemma PresentationsAreCounted(events: seq<Event>, kind: Kind, token: Token)
    ensures var s := Run(START, events);
      && Times(s.presented, kind, token)
         == Times(s.abandoned, kind, token) + Times(s.answered, kind, token) + InFlight(s, kind, token)
      && Times(s.answered, kind, token) + InFlight(s, kind, token) <= 1
  {
    var s := Run(START, events);
    RunKeepsInv(START, events);
    if x: Session :| x in s.issued && TokenOf(x, kind) == token {
      TimesOfToken(s.presented, kind, token, s.issued, x);
      TimesOfToken(s.abandoned, kind, token, s.issued, x);
      TimesOfToken(s.answered, kind, token, s.issued, x);
      assert Accounted(s, x);
    } else {
      TimesOfNothing(s.presented, kind, token);
      TimesOfNothing(s.abandoned, kind, token);
      TimesOfNothing(s.answered, kind, token);
    }
  }

  /** A token is presented once at most exactly if none of its rotations was abandoned, or one was and
      the token was never presented again. */
  lemma PresentedOnceExactlyWhen(events: seq<Event>, kind: Kind, token: Token)
    ensures var s := Run(START, events);
      Times(s.presented, kind, token) <= 1 <==>
        || Times(s.abandoned, kind, token) == 0
        || (Times(s.abandoned, kind, token) == 1 && Times(s.answered, kind, token) == 0
            && InFlight(s, kind, token) == 0)
  {
    PresentationsAreCounted(events, kind, token);
  }

  lemma {:induction false} NothingAbandoned(s: SessionState, events: seq<Event>)
    requires Abandon !in events
    ensures Run(s, events).abandoned == s.abandoned
    decreases |events|
  {
    if events != [] { NothingAbandoned(Step(s, events[0]), events[1..]); }
  }

  /** No token is presented twice in any run in which at most `cuts` rotations are cut off. */
  ghost predicate OnceUpTo(cuts: nat) {
    forall events, kind, token | multiset(events)[Abandon] <= cuts :: PresentedOnce(events, kind, token)
  }

  ghost predicate PresentedOnce(events: seq<Event>, kind: Kind, token: Token) {
    Times(Run(START, events).presented, kind, token) <= 1
  }

  /** Tokens are presented once in all runs exactly if no rotation is ever cut off. */
  lemma OnceExactlyWithoutCuts(cuts: nat)
    ensures OnceUpTo(cuts) <==> cuts == 0
  {
    if cuts == 0 {
      forall events, kind, token | multiset(events)[Abandon] <= 0 ensures PresentedOnce(events, kind, token) {
        PresentationsAreCounted(events, kind, token);
        NothingAbandoned(START, events);
      }
    } else {
      var x := Session("a", "r", None, "u");
      var begin := Begin(Some(x.access), true, 60, 0);
      AbandonmentRepeatsAToken(x, begin);
      assert !PresentedOnce([Login(x), begin, Abandon, begin], Refresh, x.refresh);
    }
  }

  /** The exception is real: a rotation cut off before its answer leaves its token in place, and the
      next caller presents it again. */
  lemma AbandonmentRepeatsAToken(x: Session, begin: Event)
    requires begin == Begin(Some(x.access), true, 60, 0)
    ensures Times(Run(START, [Login(x), begin, Abandon, begin]).presented, Refresh, x.refresh) == 2
  {
    FourSteps(START, Login(x), begin, Abandon, begin);
    PresentedTwice(x, begin);
    TimesOfTwo(x);
  }

  lemma PresentedTwice(x: Session, begin: Event)
    requires begin == Begin(Some(x.access), true, 60, 0)
    ensures Step(Step(Step(Step(START, Login(x)), begin), Abandon), begin).presented == [x, x]
  {
    var s1 := Step(START, Login(x));
    assert s1.session == Some(x) && s1.presented == [] && s1.rotating == None;
    var s2 := Step(s1, begin);
    assert s2.session == Some(x) && s2.presented == [x] && s2.rotating == Some(x);
    var s3 := Step(s2, Abandon);
    assert s3.session == Some(x) && s3.presented == [x] && s3.rotating == None;
  }

  lemma TimesOfTwo(x: Session)
    ensures Times([x, x], Refresh, x.refresh) == 2
  {
    assert [x, x][..1] == [x] && [x][..0] == [];
    assert Times([x], Refresh, x.refresh) == 1;
  }

  lemma FourSteps(s: SessionState, a: Event, b: Event, c: Event, d: Event)
    ensures Run(s, [a, b, c, d]) == Step(Step(Step(Step(s, a), b), c), d)
  {
    assert [a, b, c, d][1..] == [b, c, d] && [b, c, d][1..] == [c, d] && [c, d][1..] == [d] && [d][1..] == [];
    var s1 := Step(s, a);
    var s2 := Step(s1, b);
    var s3 := Step(s2, c);
    assert Run(s3, [d]) == Step(s3, d);
    assert Run(s2, [c, d]) == Step(s3, d);
    assert Run(s1, [b, c, d]) == Step(s3, d);
  }

  /** A caller turned away with an access token never gets that token back: it gets another, or starts
      a rotation, or has to sign in. */
  lemma StaleTokensAreNotReturned(session: Option<Session>, stale: Token, window: int, now: int)
    ensures var begun := BeginRefresh(session, Some(stale), true, window, now);
      && (begun.Current? ==> begun.session.access != stale)
      && (begun.Rotate? <==> session.Some? && session.value.access == stale)
  {
  }

  // ------------------------------------------------------------------ ending a session

  predicate IsLogin(event: Event) { event.Login? }

  lemma {:induction false} GoneStaysGone(s: SessionState, events: seq<Event>)
    requires s.session.None? && s.rotating.None?
    requires forall e | e in events :: !IsLogin(e)
    ensures Run(s, events).session.None?
    decreases |events|
  {
    if events != [] {
      assert !IsLogin(events[0]);
      GoneStaysGone(Step(s, events[0]), events[1..]);
    }
  }

  ghost predicate GoneForGood(s: SessionState) {
    forall events | (forall e | e in events :: !IsLogin(e)) :: Run(Step(s, End), events).session.None?
  }

  lemma FreshToken(issued: set<Session>) returns (token: Token)
    ensures forall x | x in issued :: x.access != token && x.refresh != token
  {
    var length := LongerThanAll(issued);
    token := seq(length, _ => 'x');
  }

  lemma {:induction false} LongerThanAll(issued: set<Session>) returns (length: nat)
    ensures forall x | x in issued :: |x.access| < length && |x.refresh| < length
  {
    if issued == {} {
      length := 0;
    } else {
      var one :| one in issued;
      var rest := LongerThanAll(issued - {one});
      length := rest + |one.access| + |one.refresh| + 1;
      forall x | x in issued ensures |x.access| < length && |x.refresh| < length {
        if x != one { assert x in issued - {one}; }
      }
    }
  }

  /** A session that was ended is gone until the next login exactly when no rotation was in flight: one
      in flight saves its result back. */
  lemma EndedSessionsAreGoneIffNotRotating(s: SessionState)
    ensures GoneForGood(s) <==> s.rotating.None?
  {
    if s.rotating.None? {
      forall events | (forall e | e in events :: !IsLogin(e)) ensures Run(Step(s, End), events).session.None? {
        GoneStaysGone(Step(s, End), events);
      }
    } else {
      var token := FreshToken(s.issued);
      var finish := Finish(token, token, None, "");
      assert NewTokens(s.issued, Rotated(s.rotating.value, token, token, None, ""));
      var ended := Step(s, End);
      assert Step(ended, finish).session.Some?;
      assert [finish][1..] == [];
      assert Run(ended, [finish]) == Run(Step(ended, finish), []);
      assert forall e | e in [finish] :: !IsLogin(e);
    }
  }
}
