/** How a browser arrives at the foundation, and which ways lead to a login with Google. */
module Entries {
  import opened Common
  import opened Decimal
  import opened References
  import opened Records
  import opened Answers
  import opened Protocol
  import opened Runs
  import opened RunTheorems
  import opened System
  import opened Agreement
  import opened EndToEnd
  import opened History
  import opened Progress
  import opened Logins
  import P = Portal
  import I = Identity
  import Utf8

  /**
    Without a cookie; with one that names no session; with a session that has expired on the
    application's clock; or with one that the request reads, and that is lost, or expires on the Redis
    clock, before the script that issues.  The last has drawn a reference by then.
  */
  datatype Entry =
    | NoCookie
    | UnknownCookie(cookie: string)
    | ExpiredCookie(cookie: string, session: CommonSession)
    | LostSession(cookie: string, session: CommonSession, reference: string)
    | LapsedSession(cookie: string, session: CommonSession, reference: string, at: nat)

  function EntryDraws(x: Entry): set<string> {
    if x.LostSession? || x.LapsedSession? then {x.reference} else {}
  }

  predicate HasStored(cfg: Config, s: World, cookie: string, session: CommonSession) {
    LookupOf(cfg.sha, cookie) in s.log.state.store.sessions && s.log.state.store.sessions[LookupOf(cfg.sha, cookie)] == session
  }

  /** The user of the session may log in. */
  predicate Eligible(s: World, session: CommonSession) {
    session.internalUserId in s.identity.users && s.identity.users[session.internalUserId]
  }

  predicate EntryFits(cfg: Config, s: World, x: Entry, requested: u64) {
    match x
    case NoCookie => true
    case UnknownCookie(cookie) => LookupOf(cfg.sha, cookie) !in s.log.state.store.sessions
    case ExpiredCookie(cookie, session) => HasStored(cfg, s, cookie, session) && session.expiresAt <= requested
    case LostSession(cookie, session, _) =>
      HasStored(cfg, s, cookie, session) && requested < session.expiresAt && Eligible(s, session)
    case LapsedSession(cookie, session, _, at) =>
      HasStored(cfg, s, cookie, session) && requested < session.expiresAt && Eligible(s, session)
      && SafeSession(session) && session.expiresAt <= at < requested + 600
  }

  // ----- steps -----

  lemma SaneState(cfg: Config, s: World, l: Login)
    requires Waits(cfg, s, l)
    ensures IsFixedReference(l.state)
  {
    hide IsFixedReference;
  }

  lemma PortalAfterArrival(cfg: Config, s: World, e: Event)
    requires Enabled(cfg, s, e) && e.LoginWithoutSession?
    ensures Do(cfg, s, e).portal == s.portal && Do(cfg, s, e).references == s.references
  {
    hide ValidQuery;
  }

  lemma BrowserArrives(cfg: Config, s: World, l: Login, session: string, requested: u64)
    requires Carries(cfg, s, l, session) && l.pid + 3 !in s.processes && Utf8.Valid(cfg.portalService)
    ensures var e := LoginWithoutSession(l.pid + 3, QueryOf(cfg, l), requested);
            && Enabled(cfg, s, e)
            && var s' := Do(cfg, s, e);
            && Carries(cfg, s', l, session) && s'.log == s.log && s'.identity == s.identity && s'.references == s.references
            && s'.processes == s.processes[l.pid + 3 := LoginGoogle(QueryOf(cfg, l), requested)]
  {
    hide Do, Utf8.Valid, ValidQuery, QueryOf, Free, LookupOf, Waits;
    var e := LoginWithoutSession(l.pid + 3, QueryOf(cfg, l), requested);
    SaneState(cfg, s, l);
    QueryIsValid(cfg, l);
    QuietEffect(cfg, s, e);
    PortalAfterArrival(cfg, s, e);
    StillWaits(cfg, s, Do(cfg, s, e), l, {}, l.pid + 3, LoginGoogle(QueryOf(cfg, l), requested));
    StillFree(s, Do(cfg, s, e), {session, l.code}, {});
  }

  /** A step of the login request that leaves the portal waiting. */
  predicate Stays(cfg: Config, s: World, s': World, l: Login, session: string, p: Process) {
    && Carries(cfg, s', l, session) && s'.identity == s.identity && s'.processes == s.processes[l.pid + 3 := p]
    && s'.log.state.clock == s.log.state.clock
  }

  lemma ReadPlan(cfg: Config, s: World, l: Login, cookie: string, requested: u64)
    requires l.pid + 3 !in s.processes && ValidQuery(QueryOf(cfg, l))
    ensures var e, c := LoginWithCookie(l.pid + 3, QueryOf(cfg, l), cookie, requested), ReadSession(LookupOf(cfg.sha, cookie));
            && Enabled(cfg, s, e)
            && PlanOf(cfg, s, e) == Plan(c, AfterRead(QueryOf(cfg, l), cookie, requested, AnswerTo(s.log.state, c)), {})
            && Next(s.log.state, c) == s.log.state
  {
    hide LookupOf, QueryOf, ValidQuery;
  }

  lemma ReadAnswer(s: State, k: string)
    ensures AnswerTo(s, ReadSession(k)) == if k in s.store.sessions then SessionRead(s.store.sessions[k]) else Failed(NotFound)
  {
  }

  /** The cookie is read: what comes next depends on what is there. */
  lemma CookieIsRead(cfg: Config, ss0: seq<World>, es0: seq<Event>, ss: seq<World>, es: seq<Event>, s: World,
                     l: Login, session: string, cookie: string, requested: u64)
    returns (ss': seq<World>, es': seq<Event>, s': World)
    requires Reaches(cfg, ss0, es0, ss, es, s) && Carries(cfg, s, l, session) && l.pid + 3 !in s.processes && Utf8.Valid(cfg.portalService)
    ensures Reaches(cfg, ss0, es0, ss', es', s') && s'.references == s.references && s'.log.state == s.log.state
    ensures var k, q := LookupOf(cfg.sha, cookie), QueryOf(cfg, l);
            var st := s.log.state.store;
            Stays(cfg, s, s', l, session,
                  if k !in st.sessions then LoginGoogle(q, requested)
                  else if requested < st.sessions[k].expiresAt then LoginSession(q, cookie, st.sessions[k], requested)
                  else LoginExpired(q, cookie, requested))
  {
    hide Do, Enabled, PlanOf, Reaches, Carries, Waits, Free, LookupOf, QueryOf, ValidQuery, Next, AnswerTo, Utf8.Valid;
    var e := LoginWithCookie(l.pid + 3, QueryOf(cfg, l), cookie, requested);
    CarriesWaits(cfg, s, l, session);
    SaneState(cfg, s, l);
    QueryIsValid(cfg, l);
    ReadPlan(cfg, s, l, cookie, requested);
    ReadAnswer(s.log.state, LookupOf(cfg.sha, cookie));
    FoundationGoesOn(cfg, s, e, l, session, PlanOf(cfg, s, e));
    ss', es', s' := Logins.Step(cfg, ss0, es0, ss, es, s, e);
  }

  lemma CarriesWaits(cfg: Config, s: World, l: Login, session: string)
    requires Carries(cfg, s, l, session)
    ensures Waits(cfg, s, l) && LookupOf(cfg.sha, session) !in s.log.state.store.sessions
    ensures LookupOf(cfg.sha, l.code) !in s.log.state.store.handoffs
  {
    hide Waits, Free, LookupOf;
  }

  lemma DeletePlan(cfg: Config, s: World, l: Login, cookie: string, requested: u64)
    requires l.pid + 3 in s.processes && s.processes[l.pid + 3] == LoginExpired(QueryOf(cfg, l), cookie, requested)
    ensures var e, c := LoginDeletes(l.pid + 3), DeleteSession(LookupOf(cfg.sha, cookie));
            Enabled(cfg, s, e) && PlanOf(cfg, s, e) == Plan(c, LoginGoogle(QueryOf(cfg, l), requested), {})
  {
    hide LookupOf, QueryOf;
  }

  lemma DeletedIsGone(s: State, k: string)
    ensures var s' := Next(s, DeleteSession(k));
            && k !in s'.store.sessions && s'.store.sessions.Keys <= s.store.sessions.Keys && s'.store.handoffs == s.store.handoffs
            && s'.clock == s.clock
  {
  }

  /** An expired session is deleted, and the login goes to Google. */
  lemma ExpiredIsDeleted(cfg: Config, ss0: seq<World>, es0: seq<Event>, ss: seq<World>, es: seq<Event>, s: World,
                         l: Login, session: string, cookie: string, requested: u64)
    returns (ss': seq<World>, es': seq<Event>, s': World)
    requires Reaches(cfg, ss0, es0, ss, es, s) && Carries(cfg, s, l, session) && l.pid + 3 in s.processes
    requires s.processes[l.pid + 3] == LoginExpired(QueryOf(cfg, l), cookie, requested)
    ensures Reaches(cfg, ss0, es0, ss', es', s') && s'.references == s.references
    ensures Stays(cfg, s, s', l, session, LoginGoogle(QueryOf(cfg, l), requested))
    ensures LookupOf(cfg.sha, cookie) !in s'.log.state.store.sessions
  {
    hide Do, Enabled, PlanOf, Reaches, Carries, LookupOf, QueryOf, Next;
    var e := LoginDeletes(l.pid + 3);
    CarriesWaits(cfg, s, l, session);
    DeletePlan(cfg, s, l, cookie, requested);
    DeletedIsGone(s.log.state, LookupOf(cfg.sha, cookie));
    FoundationGoesOn(cfg, s, e, l, session, PlanOf(cfg, s, e));
    ss', es', s' := Logins.Step(cfg, ss0, es0, ss, es, s, e);
  }

  lemma CheckCarries(cfg: Config, s: World, s': World, l: Login, session: string, p: Process)
    requires Carries(cfg, s, l, session) && s' == s.(processes := s.processes[l.pid + 3 := p])
    ensures Stays(cfg, s, s', l, session, p)
  {
    hide Waits, Free, LookupOf;
    CarriesWaits(cfg, s, l, session);
    StillWaits(cfg, s, s', l, {}, l.pid + 3, p);
    SameFree(s, s', {session, l.code});
  }

  lemma SameFree(s: World, s': World, references: set<string>)
    requires Free(s, references) && s'.references == s.references
    ensures Free(s', references)
  {
    StillFree(s, s', references, {});
  }

  /** The user is found enabled. */
  lemma UserIsChecked(cfg: Config, ss0: seq<World>, es0: seq<Event>, ss: seq<World>, es: seq<Event>, s: World,
                      l: Login, session: string, cookie: string, r: CommonSession, requested: u64)
    returns (ss': seq<World>, es': seq<Event>, s': World)
    requires Reaches(cfg, ss0, es0, ss, es, s) && Carries(cfg, s, l, session) && Eligible(s, r) && l.pid + 3 in s.processes
    requires s.processes[l.pid + 3] == LoginSession(QueryOf(cfg, l), cookie, r, requested)
    ensures Reaches(cfg, ss0, es0, ss', es', s') && s'.references == s.references && s'.log == s.log
    ensures Stays(cfg, s, s', l, session, LoginChecked(QueryOf(cfg, l), cookie, r, requested))
  {
    hide Reaches, Carries, QueryOf, Stays;
    var e := LoginChecks(l.pid + 3);
    ss', es', s' := Logins.Step(cfg, ss0, es0, ss, es, s, e);
    CheckCarries(cfg, s, s', l, session, LoginChecked(QueryOf(cfg, l), cookie, r, requested));
  }

  lemma LosePlan(cfg: Config, s: World, pid: nat, k: string)
    requires pid !in s.processes
    ensures Enabled(cfg, s, RecordLost(pid, Session, k)) && PlanOf(cfg, s, RecordLost(pid, Session, k)) == Plan(Lose(Session, k), Over, {})
  {
  }

  lemma LostIsGone(s: State, k: string)
    ensures var s' := Next(s, Lose(Session, k));
            && k !in s'.store.sessions && s'.store.sessions.Keys <= s.store.sessions.Keys && s'.store.handoffs == s.store.handoffs
            && s'.clock == s.clock
  {
  }

  lemma SessionIsLost(cfg: Config, ss0: seq<World>, es0: seq<Event>, ss: seq<World>, es: seq<Event>, s: World,
                      l: Login, session: string, k: string)
    returns (ss': seq<World>, es': seq<Event>, s': World)
    requires Reaches(cfg, ss0, es0, ss, es, s) && Carries(cfg, s, l, session) && l.pid + 7 !in s.processes
    ensures Reaches(cfg, ss0, es0, ss', es', s') && s'.references == s.references && Carries(cfg, s', l, session)
    ensures s'.identity == s.identity && s'.processes == s.processes[l.pid + 7 := Over]
    ensures k !in s'.log.state.store.sessions && s'.log.state.clock == s.log.state.clock
  {
    hide Do, Enabled, PlanOf, Reaches, Carries, LookupOf, Next;
    CarriesWaits(cfg, s, l, session);
    LosePlan(cfg, s, l.pid + 7, k);
    LostIsGone(s.log.state, k);
    var e := RecordLost(l.pid + 7, Session, k);
    FoundationGoesOn(cfg, s, e, l, session, PlanOf(cfg, s, e));
    ss', es', s' := Logins.Step(cfg, ss0, es0, ss, es, s, e);
  }

  /** The script finds the session gone, or expired and then deletes it, and issues nothing. */
  lemma IssueFails(s: State, k: string, h: string, r: AuthenticationHandoff)
    requires k in s.store.sessions ==> SafeSession(s.store.sessions[k]) && s.store.sessions[k].expiresAt <= s.clock
    ensures var c := Issue(k, h, r);
            && AnswerTo(s, c) in {Failed(NotFound), Failed(Expired)}
            && k !in Next(s, c).store.sessions && Next(s, c).store.sessions.Keys <= s.store.sessions.Keys
            && Next(s, c).store.handoffs == s.store.handoffs && Next(s, c).clock == s.clock
  {
  }

  lemma IssuePlan(cfg: Config, s: World, l: Login, cookie: string, r: CommonSession, requested: u64, reference: string)
    requires l.pid + 3 in s.processes && s.processes[l.pid + 3] == LoginChecked(QueryOf(cfg, l), cookie, r, requested)
    requires New(s, reference) && requested + 120 <= U64_MAX
    ensures var e := LoginIssues(l.pid + 3, reference);
            var c := Issue(LookupOf(cfg.sha, cookie), LookupOf(cfg.sha, reference), SsoHandoff(cfg, QueryOf(cfg, l), cookie, r, requested));
            && Enabled(cfg, s, e)
            && PlanOf(cfg, s, e) == Plan(c, AfterIssue(QueryOf(cfg, l), requested, AnswerTo(s.log.state, c)), {reference})
  {
    hide LookupOf, QueryOf, New, AnswerTo, SsoHandoff;
  }

  lemma IssueIsRefused(cfg: Config, ss0: seq<World>, es0: seq<Event>, ss: seq<World>, es: seq<Event>, s: World,
                       l: Login, session: string, cookie: string, r: CommonSession, requested: u64, reference: string)
    returns (ss': seq<World>, es': seq<Event>, s': World)
    requires Reaches(cfg, ss0, es0, ss, es, s) && Carries(cfg, s, l, session) && l.pid + 3 in s.processes
    requires s.processes[l.pid + 3] == LoginChecked(QueryOf(cfg, l), cookie, r, requested) && requested + 120 <= U64_MAX
    requires New(s, reference) && reference !in {session, l.code, l.reference, l.csrf}
    requires var k, st := LookupOf(cfg.sha, cookie), s.log.state.store;
             k in st.sessions ==> SafeSession(st.sessions[k]) && st.sessions[k].expiresAt <= s.log.state.clock
    ensures Reaches(cfg, ss0, es0, ss', es', s') && s'.references == s.references + {reference}
    ensures Stays(cfg, s, s', l, session, LoginGoogle(QueryOf(cfg, l), requested))
    ensures LookupOf(cfg.sha, cookie) !in s'.log.state.store.sessions
  {
    hide Do, Enabled, PlanOf, Reaches, Carries, LookupOf, QueryOf, Next, New, AnswerTo, SsoHandoff, SafeSession;
    var e := LoginIssues(l.pid + 3, reference);
    CarriesWaits(cfg, s, l, session);
    IssuePlan(cfg, s, l, cookie, r, requested, reference);
    var c := Issue(LookupOf(cfg.sha, cookie), LookupOf(cfg.sha, reference), SsoHandoff(cfg, QueryOf(cfg, l), cookie, r, requested));
    IssueFails(s.log.state, c.session, c.handoff, c.record);
    FoundationGoesOn(cfg, s, e, l, session, PlanOf(cfg, s, e));
    ss', es', s' := Logins.Step(cfg, ss0, es0, ss, es, s, e);
  }

  // ----- every way to Google -----

  /** A login with Google begins: the request goes on, and no session is under its cookie. */
  predicate AtGoogle(cfg: Config, s: World, l: Login, session: string, x: Entry, requested: u64) {
    && Carries(cfg, s, l, session) && l.pid + 3 in s.processes && s.processes[l.pid + 3] == LoginGoogle(QueryOf(cfg, l), requested)
    && (!x.NoCookie? ==> LookupOf(cfg.sha, x.cookie) !in s.log.state.store.sessions)
  }

  predicate OnlyNew(s: World, s': World, l: Login) {
    forall q | q in s'.processes :: q in s.processes || q == l.pid + 3 || q == l.pid + 7
  }

  lemma EntersWithoutCookie(cfg: Config, ss0: seq<World>, es0: seq<Event>, ss: seq<World>, es: seq<Event>, s: World,
                            l: Login, session: string, requested: u64)
    returns (ss': seq<World>, es': seq<Event>, s': World)
    requires Reaches(cfg, ss0, es0, ss, es, s) && Carries(cfg, s, l, session) && l.pid + 3 !in s.processes && Utf8.Valid(cfg.portalService)
    ensures Reaches(cfg, ss0, es0, ss', es', s') && AtGoogle(cfg, s', l, session, NoCookie, requested) && OnlyNew(s, s', l)
    ensures s'.identity == s.identity && s'.references == s.references && s'.log == s.log
  {
    hide Do, Enabled, Reaches, Carries, LookupOf, QueryOf, Utf8.Valid;
    BrowserArrives(cfg, s, l, session, requested);
    ss', es', s' := Logins.Step(cfg, ss0, es0, ss, es, s, LoginWithoutSession(l.pid + 3, QueryOf(cfg, l), requested));
  }

  lemma EntersUnknown(cfg: Config, ss0: seq<World>, es0: seq<Event>, ss: seq<World>, es: seq<Event>, s: World,
                      l: Login, session: string, x: Entry, requested: u64)
    returns (ss': seq<World>, es': seq<Event>, s': World)
    requires Reaches(cfg, ss0, es0, ss, es, s) && Carries(cfg, s, l, session) && l.pid + 3 !in s.processes && Utf8.Valid(cfg.portalService)
    requires (x.UnknownCookie? || x.ExpiredCookie?) && EntryFits(cfg, s, x, requested)
    ensures Reaches(cfg, ss0, es0, ss', es', s') && AtGoogle(cfg, s', l, session, x, requested) && OnlyNew(s, s', l)
    ensures s'.identity == s.identity && s'.references == s.references && s'.log.state.clock == s.log.state.clock
  {
    hide Do, Enabled, Reaches, Carries, LookupOf, QueryOf, Utf8.Valid;
    ss', es', s' := CookieIsRead(cfg, ss0, es0, ss, es, s, l, session, x.cookie, requested);
    if x.ExpiredCookie? {
      ss', es', s' := ExpiredIsDeleted(cfg, ss0, es0, ss', es', s', l, session, x.cookie, requested);
    }
  }

  /** The session is read, and its user found enabled. */
  lemma SessionIsChecked(cfg: Config, ss0: seq<World>, es0: seq<Event>, ss: seq<World>, es: seq<Event>, s: World,
                         l: Login, session: string, x: Entry, requested: u64)
    returns (ss': seq<World>, es': seq<Event>, s': World)
    requires Reaches(cfg, ss0, es0, ss, es, s) && Carries(cfg, s, l, session) && Utf8.Valid(cfg.portalService) && l.pid + 3 !in s.processes
    requires (x.LostSession? || x.LapsedSession?) && EntryFits(cfg, s, x, requested)
    ensures Reaches(cfg, ss0, es0, ss', es', s') && Carries(cfg, s', l, session) && s'.identity == s.identity
    ensures s'.references == s.references && s'.log.state == s.log.state
    ensures s'.processes == s.processes[l.pid + 3 := LoginChecked(QueryOf(cfg, l), x.cookie, x.session, requested)]
  {
    hide Do, Enabled, Reaches, Carries, LookupOf, QueryOf, SafeSession, Utf8.Valid;
    ss', es', s' := CookieIsRead(cfg, ss0, es0, ss, es, s, l, session, x.cookie, requested);
    ss', es', s' := UserIsChecked(cfg, ss0, es0, ss', es', s', l, session, x.cookie, x.session, requested);
  }

  lemma EntersAndLoses(cfg: Config, ss0: seq<World>, es0: seq<Event>, ss: seq<World>, es: seq<Event>, s: World,
                       l: Login, session: string, x: Entry, requested: u64)
    returns (ss': seq<World>, es': seq<Event>, s': World)
    requires Reaches(cfg, ss0, es0, ss, es, s) && Carries(cfg, s, l, session) && Utf8.Valid(cfg.portalService)
    requires l.pid + 3 !in s.processes && l.pid + 7 !in s.processes && requested + 600 <= LUA_SAFE_MAX
    requires (x.LostSession? || x.LapsedSession?) && EntryFits(cfg, s, x, requested)
    requires New(s, x.reference) && x.reference !in {session, l.code, l.reference, l.csrf}
    ensures Reaches(cfg, ss0, es0, ss', es', s') && AtGoogle(cfg, s', l, session, x, requested) && OnlyNew(s, s', l)
    ensures s'.identity == s.identity && s'.references == s.references + {x.reference}
    ensures s'.log.state.clock == if x.LapsedSession? then x.at else s.log.state.clock
  {
    hide Do, Enabled, Reaches, Carries, LookupOf, QueryOf, New, SafeSession, Utf8.Valid;
    var k := LookupOf(cfg.sha, x.cookie);
    ss', es', s' := SessionIsChecked(cfg, ss0, es0, ss, es, s, l, session, x, requested);
    if x.LostSession? {
      ss', es', s' := SessionIsLost(cfg, ss0, es0, ss', es', s', l, session, k);
    } else {
      TickGoesOn(cfg, s', l, session, l.pid + 7, x.at);
      ss', es', s' := Logins.Step(cfg, ss0, es0, ss', es', s', ClockSet(l.pid + 7, x.at));
    }
    StillNew(s, s', x.reference);
    ss', es', s' := IssueIsRefused(cfg, ss0, es0, ss', es', s', l, session, x.cookie, x.session, requested, x.reference);
  }

  lemma StillNew(s: World, s': World, r: string)
    requires New(s, r) && s'.references == s.references
    ensures New(s', r)
  {
  }

  /** Whichever way the browser arrives, a login with Google begins. */
  lemma Enters(cfg: Config, ss0: seq<World>, es0: seq<Event>, ss: seq<World>, es: seq<Event>, s: World,
               l: Login, session: string, x: Entry, requested: u64)
    returns (ss': seq<World>, es': seq<Event>, s': World)
    requires Reaches(cfg, ss0, es0, ss, es, s) && Carries(cfg, s, l, session) && Utf8.Valid(cfg.portalService)
    requires l.pid + 3 !in s.processes && l.pid + 7 !in s.processes && requested + 600 <= LUA_SAFE_MAX
    requires EntryFits(cfg, s, x, requested) && Free(s, EntryDraws(x)) && EntryDraws(x) !! {session, l.code, l.reference, l.csrf}
    ensures Reaches(cfg, ss0, es0, ss', es', s') && AtGoogle(cfg, s', l, session, x, requested) && OnlyNew(s, s', l)
    ensures s'.identity == s.identity && s'.references == s.references + EntryDraws(x)
    ensures s'.log.state.clock == if x.LapsedSession? then x.at else s.log.state.clock
  {
    hide Do, Enabled, Reaches, Carries, AtGoogle, OnlyNew, New, Utf8.Valid, EntryFits;
    match x
    case NoCookie => ss', es', s' := EntersWithoutCookie(cfg, ss0, es0, ss, es, s, l, session, requested);
    case UnknownCookie(_) => ss', es', s' := EntersUnknown(cfg, ss0, es0, ss, es, s, l, session, x, requested);
    case ExpiredCookie(_, _) => ss', es', s' := EntersUnknown(cfg, ss0, es0, ss, es, s, l, session, x, requested);
    case _ =>
      assert x.reference in EntryDraws(x);
      ss', es', s' := EntersAndLoses(cfg, ss0, es0, ss, es, s, l, session, x, requested);
  }
}
