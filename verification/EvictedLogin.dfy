/**
  The login handler under eviction.  Its HGETALL does see that a session is gone, so what a browser
  gets can depend on eviction: exactly where the session's user is not eligible.
*/
module EvictedLogin {
  import opened Common
  import opened Decimal
  import opened References
  import opened Records
  import opened Answers
  import opened Protocol
  import opened Runs
  import opened RunTheorems
  import opened Eviction
  import opened EvictedExchange
  import S = System
  import I = Identity

  datatype Response = Turn(turn: LoginTurn) | Forbidden

  /** What the request finds in the tables and makes of a session that it reads. */
  datatype Visitor = Visitor(session: string, now: u64, eligible: i32 -> bool, handoff: string, record: CommonSession -> AuthenticationHandoff)

  /** HGETALL in one state, the check of the user, and the script in a later one. */
  function LoginResponse(s1: State, s2: State, v: Visitor): Response {
    match AnswerTo(s1, ReadSession(v.session))
    case SessionRead(session) =>
      if session.expiresAt <= v.now then Turn(StartGoogleLogin)
      else if !v.eligible(session.internalUserId) then Forbidden
      else Turn(IssueTurn(AnswerTo(s2, Issue(v.session, v.handoff, v.record(session)))))
    case Failed(NotFound) => Turn(StartGoogleLogin)
    case _ => Turn(Unavailable)
  }

  lemma SessionFades(full: Store, thin: Store, now: nat, l: string)
    requires Faded(full, thin, now)
    ensures l in thin.sessions ==> l in full.sessions && thin.sessions[l] == full.sessions[l]
    ensures l in full.sessions ==> SafeSession(full.sessions[l])
    ensures l in full.sessions && l !in thin.sessions ==> full.sessions[l].expiresAt <= now
  {
    hide FadedExternals, FadedHandoffs, FadedLogouts;
    FadedAt(full.sessions, thin.sessions, SessionGone(now), SafeSession, l);
  }

  lemma SessionStays(p: seq<Command>, cs: seq<Command>, l: string)
    requires p <= cs && Fresh(cs) && l in After(p).store.sessions && l in After(cs).store.sessions
    ensures After(p).store.sessions[l] == After(cs).store.sessions[l]
  {
    hide LogOf, Fresh, ExternalsAsWritten, HandoffsAsIssued, IssuedForCreated;
    FreshPrefix(p, cs);
    EveryRunIsCoherent(p);
    RecordsOnlyAge(p, cs);
  }

  /** A session that has been evicted has expired for good, for the other server too. */
  lemma EvictedSessionIsExpired(es1: seq<Event>, es2: seq<Event>, l: string)
    requires es1 <= es2 && AllAllowed(es2) && Fresh(Commands(es2, false))
    requires l in Both(es1).full.store.sessions && l !in Both(es1).thin.store.sessions
    ensures var s := Both(es2).full;
            l in s.store.sessions ==> SafeSession(s.store.sessions[l]) && s.store.sessions[l].expiresAt <= s.clock
  {
    hide Faded, Fresh, AllAllowed, Both, SafeSession;
    Earlier(es1, es2);
    EvictionOnlyFades(es1);
    EvictionOnlyFades(es2);
    SessionFades(Both(es1).full.store, Both(es1).thin.store, Both(es1).full.clock, l);
    SessionFades(Both(es2).full.store, Both(es2).thin.store, Both(es2).full.clock, l);
    BothAreRuns(es1);
    BothAreRuns(es2);
    CommandsExtend(es1, es2, false);
    if l in Both(es2).full.store.sessions {
      SessionStays(Commands(es1, false), Commands(es2, false), l);
    }
  }

  lemma ExpiredSessionIsRefused(s: State, l: string, h: string, r: AuthenticationHandoff)
    requires l in s.store.sessions ==> SafeSession(s.store.sessions[l]) && s.store.sessions[l].expiresAt <= s.clock
    ensures IssueTurn(AnswerTo(s, Issue(l, h, r))) == StartGoogleLogin
  {
  }

  lemma SameIssue(full: State, thin: State, c: Command)
    requires full.clock == thin.clock && Faded(full.store, thin.store, full.clock) && c.Issue? && c.handoff !in full.store.handoffs
    ensures IssueTurn(AnswerTo(full, c)) == IssueTurn(AnswerTo(thin, c))
  {
    hide Faded, IssueStep;
    IssueAlike(full.store, thin.store, full.clock, c);
    LooksAlike(AnswerTo(full, c), AnswerTo(thin, c));
  }

  lemma ReadAnswers(s: State, l: string)
    ensures AnswerTo(s, ReadSession(l)) == if l in s.store.sessions then SessionRead(s.store.sessions[l]) else Failed(NotFound)
  {
  }

  /** The session is there and unexpired for the request, evicted on the other server, and its user not eligible. */
  predicate Exposed(full: State, thin: State, v: Visitor) {
    && v.session in full.store.sessions && v.session !in thin.store.sessions
    && v.now < full.store.sessions[v.session].expiresAt && !v.eligible(full.store.sessions[v.session].internalUserId)
  }

  /**
    The login handler responds alike on a server that evicts and on one that does not, except exactly
    that the latter says Forbidden, and the former starts a login with Google, to a user who is not
    eligible and whose session has expired for Redis though not for the request.
  */
  lemma LoginDependsOnEligibility(es1: seq<Event>, es2: seq<Event>, v: Visitor)
    requires es1 <= es2 && AllAllowed(es2) && Fresh(Commands(es2, false)) && v.handoff !in Both(es2).full.store.handoffs
    ensures var full, thin := LoginResponse(Both(es1).full, Both(es2).full, v), LoginResponse(Both(es1).thin, Both(es2).thin, v);
            && (full == thin <==> !Exposed(Both(es1).full, Both(es1).thin, v))
            && (Exposed(Both(es1).full, Both(es1).thin, v) ==> full == Forbidden && thin == Turn(StartGoogleLogin))
  {
    hide Faded, Fresh, AllAllowed, Both, AnswerTo;
    var l := v.session;
    Earlier(es1, es2);
    EvictionOnlyFades(es1);
    EvictionOnlyFades(es2);
    SessionFades(Both(es1).full.store, Both(es1).thin.store, Both(es1).full.clock, l);
    ReadAnswers(Both(es1).full, l);
    ReadAnswers(Both(es1).thin, l);
    if l in Both(es1).full.store.sessions {
      var c := Issue(l, v.handoff, v.record(Both(es1).full.store.sessions[l]));
      if l in Both(es1).thin.store.sessions {
        SameIssue(Both(es2).full, Both(es2).thin, c);
      } else {
        EvictedSessionIsExpired(es1, es2, l);
        ExpiredSessionIsRefused(Both(es2).full, l, v.handoff, c.record);
      }
    }
  }

  /** A session made with its handoff, expired for Redis, and evicted. */
  function Lapsed(l: string, s: CommonSession, h: string, r: AuthenticationHandoff): seq<Event> {
    Made(l, s, h, r) + [Do(Tick(s.expiresAt))] + [Evict(Session, l)]
  }

  lemma LapsedState(l: string, s: CommonSession, h: string, r: AuthenticationHandoff)
    requires SafeSession(s) && Fits(r, l, s) && 0 < r.expiresAt && 0 < s.expiresAt
    ensures var es := Lapsed(l, s, h, r);
            && AllAllowed(es) && Fresh(Commands(es, false))
            && Both(es).full.store == Alone(l, s, h, r) && l !in Both(es).thin.store.sessions
  {
    hide Run, Fits, SafeSession, Both, AllAllowed, Commands, Made, Fresh;
    var t := Tick(s.expiresAt);
    var aged := Made(l, s, h, r) + [Do(t)];
    MadeState(l, s, h, r);
    BothSnoc(Made(l, s, h, r), Do(t));
    Ticked(State(Alone(l, s, h, r), 0), s.expiresAt);
    BothSnoc(aged, Evict(Session, l));
    FreshAlone(Create(l, s, h, r), t);
    assert Commands(Lapsed(l, s, h, r), false) == [Create(l, s, h, r), t];
  }

  /** That happens: a request whose clock is behind that of Redis, for a user who has been disabled. */
  lemma LoginCanDiffer() returns (es: seq<Event>, v: Visitor)
    ensures AllAllowed(es) && Fresh(Commands(es, false)) && v.handoff !in Both(es).full.store.handoffs
    ensures LoginResponse(Both(es).full, Both(es).full, v) == Forbidden
    ensures LoginResponse(Both(es).thin, Both(es).thin, v) == Turn(StartGoogleLogin)
  {
    hide Both, AllAllowed, Fresh, LoginResponse, Lapsed;
    var s, r := CommonSession(1, 0, 0, 10), AuthenticationHandoff("p", 1, "l", "c", 0, 0, 5, Unused);
    es := Lapsed("l", s, "h", r);
    v := Visitor("l", 9, user => false, "other", session => r);
    LapsedState("l", s, "h", r);
    assert "other" != "h";
    LoginDependsOnEligibility(es, es, v);
  }

  // ----- the same, as a login request of the system takes it -----

  /** A login request goes to Google, ends, or is sent back with a handoff exactly as it responds here. */
  lemma RequestsRespondSo(s1: State, s2: State, db: I.Database, q: S.LoginQuery, cookie: string, v: Visitor)
    requires forall user: i32 :: v.eligible(user) <==> user in db.users && db.users[user]
    ensures var response, read := LoginResponse(s1, s2, v), S.AfterRead(q, cookie, v.now, AnswerTo(s1, ReadSession(v.session)));
            && (read.LoginGoogle? || read.LoginExpired? ==> response == Turn(StartGoogleLogin))
            && (read.LoginSession? ==>
                  var checked, a := S.AfterCheck(db, read), AnswerTo(s2, Issue(v.session, v.handoff, v.record(read.session)));
                  && (checked.Over? ==> response == Forbidden)
                  && (checked.LoginChecked? ==>
                        && response == Turn(IssueTurn(a))
                        && (S.AfterIssue(q, v.now, a).LoginGoogle? <==> response == Turn(StartGoogleLogin))
                        && (a.Issued? <==> response == Turn(RedirectToService))))
            && !read.Over?
  {
    hide AnswerTo;
    ReadAnswers(s1, v.session);
  }
}
