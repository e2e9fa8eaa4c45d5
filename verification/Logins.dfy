/** Honest logins, carried through both services to the end. */
module Logins {
  import opened Common
  import opened Decimal
  import opened References
  import opened Records
  import opened Answers
  import opened Protocol
  import opened Runs
  import opened RunTheorems
  import opened System
  import opened Agreement
  import opened EndToEnd
  import opened History
  import opened Progress
  import P = Portal
  import I = Identity
  import Utf8

  // ----- continuing a run -----

  ghost predicate Continued(cfg: Config, ss: seq<World>, es: seq<Event>, ss': seq<World>, es': seq<Event>) {
    IsRun(cfg, ss', es') && |ss| == |es| + 1 && |ss'| == |es'| + 1 && es <= es' && ss <= ss'
  }

  lemma Onwards(cfg: Config, ss: seq<World>, es: seq<Event>, ss1: seq<World>, es1: seq<Event>, ss2: seq<World>, es2: seq<Event>)
    requires Continued(cfg, ss, es, ss1, es1) && Continued(cfg, ss1, es1, ss2, es2)
    ensures Continued(cfg, ss, es, ss2, es2)
  {
    hide IsRun;
  }

  lemma Unmoved(cfg: Config, ss: seq<World>, es: seq<Event>)
    requires IsRun(cfg, ss, es)
    ensures |ss| == |es| + 1 && Reaches(cfg, ss, es, ss, es, ss[|es|])
  {
    hide Do, Enabled;
  }

  /** A run that went on from `ss` and `es`, and where it stands. */
  ghost predicate Reaches(cfg: Config, ss: seq<World>, es: seq<Event>, ss': seq<World>, es': seq<Event>, s: World) {
    Continued(cfg, ss, es, ss', es') && |ss'| == |es'| + 1 && ss'[|es'|] == s
  }

  /** One more event. */
  lemma Step(cfg: Config, ss0: seq<World>, es0: seq<Event>, ss: seq<World>, es: seq<Event>, s: World, e: Event)
    returns (ss': seq<World>, es': seq<Event>, s': World)
    requires Reaches(cfg, ss0, es0, ss, es, s) && Enabled(cfg, s, e)
    ensures s' == Do(cfg, s, e) && Reaches(cfg, ss0, es0, ss', es', s') && s'.references == s.references + Draws(e)
  {
    hide Do, Enabled, Draws, IsRun;
    ss', es' := Extend(cfg, ss, es, e);
    s' := Do(cfg, s, e);
    Onwards(cfg, ss0, es0, ss, es, ss', es');
  }

  /** The references that an event generates. */
  function Draws(e: Event): set<string> {
    match e
    case LoginIssues(_, r) => {r}
    case GoogleLoginStarts(_, r) => {r}
    case CallbackCreates(_, _, session, handoff) => {session, handoff}
    case LogoutGet(_, _, _, r, csrf, _) => {r, csrf}
    case PortalLogin(_, state, context, verifier) => {state, context, verifier}
    case PortalReceives(_, _, r, csrf) => {r, csrf}
    case _ => {}
  }

  lemma PlanDraws(cfg: Config, s: World, e: Event)
    requires Enabled(cfg, s, e) && Foundational(e)
    ensures PlanOf(cfg, s, e).drawn == Draws(e)
  {
    hide AnswerTo, LookupOf, Challenge, New, ValidQuery;
  }

  lemma DrawnBy(cfg: Config, s: World, e: Event)
    requires Enabled(cfg, s, e)
    ensures Do(cfg, s, e).references == s.references + Draws(e)
  {
    hide PlanOf, Record, Succeeds, P.Apply, I.Apply, Enabled;
    if Foundational(e) {
      PlanDraws(cfg, s, e);
    }
  }

  lemma Extend(cfg: Config, ss: seq<World>, es: seq<Event>, e: Event) returns (ss': seq<World>, es': seq<Event>)
    requires IsRun(cfg, ss, es) && Enabled(cfg, ss[|es|], e)
    ensures Continued(cfg, ss, es, ss', es') && es' == es + [e] && ss'[|es'|] == Do(cfg, ss[|es|], e)
    ensures ss'[|es'|].references == ss[|es|].references + Draws(e)
  {
    hide Do, Enabled, Draws;
    ss', es' := ss + [Do(cfg, ss[|es|], e)], es + [e];
    DrawnBy(cfg, ss[|es|], e);
  }

  // ----- from the handoff to the portal session -----

  lemma TickedStands(cfg: Config, s: World, s': World, l: Login, g: Grant)
    requires Requested(cfg, s, l) && s.processes[l.pid + 1] == ExchangeStarted(RequestOf(cfg, l))
    requires Grants(cfg, l, g) && Stored(cfg, s.log.state.store, l, g)
    requires s'.log.state == State(s.log.state.store, l.exchanged) && s'.portal == s.portal && s'.references == s.references
    requires s'.processes == s.processes[l.pid + 2 := Over]
    ensures Stands(cfg, s', l, g, ExchangeStarted(RequestOf(cfg, l)))
  {
    hide Grants, Stored, Requested;
    RequestedFacts(cfg, s, l);
    StillRequested(cfg, s, s', l, l.pid + 2, Over);
  }

  lemma ExchangeGoesThrough(cfg: Config, ss0: seq<World>, es0: seq<Event>, ss: seq<World>, es: seq<Event>, s: World, l: Login, g: Grant)
    returns (ss': seq<World>, es': seq<Event>, s': World)
    requires Reaches(cfg, ss0, es0, ss, es, s) && Stands(cfg, s, l, g, ExchangeStarted(RequestOf(cfg, l)))
    ensures Reaches(cfg, ss0, es0, ss', es', s') && s'.identity == s.identity && s'.references == s.references
    ensures Answered(cfg, s', l, g.session.internalUserId, g.session.authenticatedAt)
  {
    hide Do, Enabled, Stands, Answered, Reaches;
    HandoffTyped(cfg, s, l, g);
    ss', es', s' := Step(cfg, ss0, es0, ss, es, s, ExchangeTypes(l.pid + 1));
    LookupIsRead(cfg, s', l, g);
    ss', es', s' := Step(cfg, ss0, es0, ss', es', s', ExchangeReads(l.pid + 1));
    CodeIsExchanged(cfg, s', l, g);
    ss', es', s' := Step(cfg, ss0, es0, ss', es', s', ExchangeRuns(l.pid + 1));
  }

  lemma LoginEnds(cfg: Config, ss0: seq<World>, es0: seq<Event>, ss: seq<World>, es: seq<Event>, s: World, l: Login, g: Grant)
    returns (ss': seq<World>, es': seq<Event>, s': World)
    requires Reaches(cfg, ss0, es0, ss, es, s) && Waits(cfg, s, l) && Grants(cfg, l, g) && Stored(cfg, s.log.state.store, l, g)
    ensures Reaches(cfg, ss0, es0, ss', es', s') && s'.identity == s.identity && s'.references == s.references + {l.reference, l.csrf}
    ensures LoggedIn(cfg, s', l, g.session.internalUserId, g.session.authenticatedAt)
  {
    hide Do, Enabled, Waits, Grants, Stored, Requested, Stands, Answered, LoggedIn, Reaches;
    BrowserReturns(cfg, s, l);
    ss', es', s' := Step(cfg, ss0, es0, ss, es, s, PortalCallback(l.pid, l.pid + 1, l.state, l.context, l.code, l.returned));
    var returned := s';
    Ticks(cfg, s', l.pid + 2, l.exchanged);
    ss', es', s' := Step(cfg, ss0, es0, ss', es', s', ClockSet(l.pid + 2, l.exchanged));
    TickedStands(cfg, returned, s', l, g);
    ss', es', s' := ExchangeGoesThrough(cfg, ss0, es0, ss', es', s', l, g);
    PortalAnswers(cfg, s', l, g.session.internalUserId, g.session.authenticatedAt);
    ss', es', s' := Step(cfg, ss0, es0, ss', es', s', PortalReceives(l.pid, l.admitted, l.reference, l.csrf));
  }

  // ----- the login at the portal -----

  /** The portal has room, and the login's references and requests are new. */
  predicate Ready(cfg: Config, s: World, l: Login) {
    && Sane(l) && Idle(s, l.pid, 8) && SessionRoom(cfg, s, l) && |P.LiveStarts(s.portal.starts, l.started)| < cfg.limits.starts
    && Utf8.Valid(cfg.portalService)
    && Free(s, {l.state, l.context, l.verifier}) && Free(s, {l.reference, l.csrf})
    && l.state != l.context && l.context != l.verifier && l.state != l.verifier
    && {l.state, l.context, l.verifier} !! {l.reference, l.csrf}
  }

  lemma LiveLater(sessions: map<string, P.LocalSession>, now: u64, later: u64)
    ensures |P.LiveSessions(P.LiveSessions(sessions, now), later)| <= |P.LiveSessions(sessions, later)|
  {
    SubsetSize(P.LiveSessions(P.LiveSessions(sessions, now), later).Keys, P.LiveSessions(sessions, later).Keys);
  }

  lemma StartIsMade(cfg: Config, s: World, l: Login)
    requires Sane(l) && SessionRoom(cfg, s, l) && |P.LiveStarts(s.portal.starts, l.started)| < cfg.limits.starts
    ensures var step := P.CreateStartStep(cfg.sha, cfg.limits, s.portal, "/", l.started, l.state, l.context, l.verifier);
            && l.state in step.contents.starts && step.contents.starts[l.state] == StartOf(l)
            && |P.LiveSessions(step.contents.sessions, l.admitted)| < cfg.limits.sessions
  {
    hide P.LiveStarts, P.LiveSessions, Challenge, IsFixedReference;
    assert P.ValidPostLoginPath("/");
    LiveLater(s.portal.sessions, l.started, l.admitted);
  }

  lemma LoginEnabled(cfg: Config, s: World, l: Login)
    requires Ready(cfg, s, l)
    ensures Enabled(cfg, s, PortalLogin(l.started, l.state, l.context, l.verifier))
  {
    hide IsFixedReference;
    assert New(s, l.state) && New(s, l.context) && New(s, l.verifier);
  }

  lemma LoginBegins(cfg: Config, s: World, l: Login)
    requires Ready(cfg, s, l)
    ensures var e := PortalLogin(l.started, l.state, l.context, l.verifier);
            && Enabled(cfg, s, e)
            && var s' := Do(cfg, s, e);
            && Waits(cfg, s', l) && s'.log == s.log && s'.identity == s.identity && s'.processes == s.processes
  {
    hide Do, Enabled, P.CreateStartStep, IsFixedReference, StartsLogin, Free, Sane, P.LiveSessions, P.LiveStarts;
    var e := PortalLogin(l.started, l.state, l.context, l.verifier);
    LoginEnabled(cfg, s, l);
    LoginEffect(cfg, s, e);
    PortalAfterLogin(cfg, s, e);
    StartIsMade(cfg, s, l);
    StillFree(s, Do(cfg, s, e), {l.reference, l.csrf}, {l.state, l.context, l.verifier});
  }

  function QueryOf(cfg: Config, l: Login): LoginQuery {
    LoginQuery(cfg.portalService, l.state, Challenge(cfg.sha, l.verifier))
  }

  lemma QueryIsValid(cfg: Config, l: Login)
    requires IsFixedReference(l.state) && Utf8.Valid(cfg.portalService)
    ensures ValidQuery(QueryOf(cfg, l))
  {
    hide Challenge;
    forall i | 0 <= i < |l.state|
      ensures l.state[i] as int < 0x80
    {
      assert IsBase64UrlChar(l.state[i]);
    }
    Utf8.AsciiIsValid(l.state);
  }

  // ----- steps of the foundation while the portal waits -----

  /** The portal waits, and the references that the foundation will draw have no records. */
  predicate Carries(cfg: Config, s: World, l: Login, session: string) {
    && Waits(cfg, s, l) && Free(s, {session, l.code}) && {session, l.code} !! {l.reference, l.csrf}
    && LookupOf(cfg.sha, session) !in s.log.state.store.sessions && LookupOf(cfg.sha, l.code) !in s.log.state.store.handoffs
  }

  /** A command of the foundation that makes no record under the references to be drawn. */
  lemma FoundationGoesOn(cfg: Config, s: World, e: Event, l: Login, session: string, p: Plan)
    requires Carries(cfg, s, l, session) && Enabled(cfg, s, e) && Foundational(e) && e.pid >= l.pid + 3 && PlanOf(cfg, s, e) == p
    requires p.drawn !! {session, l.code, l.reference, l.csrf}
    requires var st' := Next(s.log.state, p.command).store;
             LookupOf(cfg.sha, session) !in st'.sessions && LookupOf(cfg.sha, l.code) !in st'.handoffs
    ensures var s' := Do(cfg, s, e);
            && Carries(cfg, s', l, session) && s'.processes == s.processes[e.pid := p.next]
            && s'.log.state == Next(s.log.state, p.command) && s'.identity == s.identity
  {
    hide Do, Enabled, PlanOf, Waits, Free, Next, Succeeds, LookupOf;
    var s' := Do(cfg, s, e);
    FoundationEffect(cfg, s, e);
    StillWaits(cfg, s, s', l, p.drawn, e.pid, p.next);
    StillFree(s, s', {session, l.code}, p.drawn);
  }

  lemma TickGoesOn(cfg: Config, s: World, l: Login, session: string, pid: nat, to: nat)
    requires Carries(cfg, s, l, session) && pid !in s.processes && pid >= l.pid + 3
    ensures var e := ClockSet(pid, to);
            && Enabled(cfg, s, e)
            && var s' := Do(cfg, s, e);
            && Carries(cfg, s', l, session) && s'.log.state == State(s.log.state.store, to)
            && s'.processes == s.processes[pid := Over] && s'.identity == s.identity
  {
    hide Do, Enabled, Waits, Free, LookupOf;
    Ticks(cfg, s, pid, to);
    var s' := Do(cfg, s, ClockSet(pid, to));
    StillWaits(cfg, s, s', l, {}, pid, Over);
    StillFree(s, s', {session, l.code}, {});
  }
}
