/**
  From every reachable state, an honest login that is not interrupted ends in a portal session: a
  first login through Google, and a login with a common session.  Each request has its own time,
  and the Redis clock moves in between.
*/
module Progress {
  import opened Common
  import opened Decimal
  import opened References
  import opened Records
  import opened Answers
  import opened Protocol
  import opened Runs
  import opened RunTheorems
  import opened System
  import opened Agreement
  import opened EndToEnd
  import opened History
  import P = Portal

  /** The portal's side of a login, the code it is given, and the first of its three requests. */
  datatype Login = Login(
    pid: nat, state: string, context: string, verifier: string, code: string, reference: string, csrf: string,
    started: u64, returned: u64, admitted: u64,  // portal time: login, callback, session
    exchanged: nat)                            // Redis time of the exchange

  /** The callback returns within ten minutes; the references that it will draw are two. */
  predicate Sane(l: Login) {
    && l.returned < l.started + 600 <= U64_MAX && l.admitted + 28800 <= U64_MAX
    && IsFixedReference(l.state) && IsFixedReference(l.code) && l.reference != l.csrf
  }

  predicate Free(s: World, references: set<string>) {
    forall r | r in references :: New(s, r)
  }

  predicate Idle(s: World, pid: nat, n: nat) {
    forall q | pid <= q < pid + n :: q !in s.processes
  }

  predicate SessionRoom(cfg: Config, s: World, l: Login) {
    |P.LiveSessions(s.portal.sessions, l.admitted)| < cfg.limits.sessions
  }

  function StartOf(l: Login): P.LoginStart
    requires Sane(l)
  {
    P.LoginStart(l.context, l.verifier, "/", l.started, l.started + 600)
  }

  /** The portal waits for the browser to return. */
  predicate Waits(cfg: Config, s: World, l: Login) {
    && Sane(l) && Idle(s, l.pid, 3) && SessionRoom(cfg, s, l) && Free(s, {l.reference, l.csrf})
    && l.state in s.portal.starts && s.portal.starts[l.state] == StartOf(l)
  }

  /** A handoff that the portal can exchange, and the session it is for. */
  datatype Grant = Grant(lookup: string, session: CommonSession, handoff: AuthenticationHandoff)

  predicate Grants(cfg: Config, l: Login, g: Grant) {
    && Fits(g.handoff, g.lookup, g.session) && SafeSession(g.session)
    && g.handoff.serviceId == cfg.portalService && g.handoff.codeChallenge == Challenge(cfg.sha, l.verifier)
    && l.exchanged < g.handoff.expiresAt && l.exchanged < g.session.expiresAt
  }

  predicate Stored(cfg: Config, st: Store, l: Login, g: Grant) {
    var h := LookupOf(cfg.sha, l.code);
    && g.lookup in st.sessions && st.sessions[g.lookup] == g.session
    && h in st.handoffs && st.handoffs[h] == g.handoff
  }

  // ----- frames -----

  lemma StillFree(s: World, s': World, references: set<string>, drawn: set<string>)
    requires Free(s, references) && s'.references == s.references + drawn && drawn !! references
    ensures Free(s', references)
  {
    hide IsFixedReference;
    assert forall r | r in references :: New(s, r);
  }

  lemma StillIdle(s: World, s': World, pid: nat, n: nat, q: nat, p: Process)
    requires Idle(s, pid, n) && s'.processes == s.processes[q := p] && !(pid <= q < pid + n)
    ensures Idle(s', pid, n)
  {
  }

  /** A step of the foundation, by another request, leaves the portal waiting. */
  lemma StillWaits(cfg: Config, s: World, s': World, l: Login, drawn: set<string>, q: nat, p: Process)
    requires Waits(cfg, s, l) && s'.portal == s.portal && s'.references == s.references + drawn && drawn !! {l.reference, l.csrf}
    requires s'.processes == s.processes[q := p] && q >= l.pid + 3
    ensures Waits(cfg, s', l)
  {
    hide Free, Idle, Sane;
    StillFree(s, s', {l.reference, l.csrf}, drawn);
    StillIdle(s, s', l.pid, 3, q, p);
  }

  lemma Ticks(cfg: Config, s: World, pid: nat, to: nat)
    requires pid !in s.processes
    ensures var e := ClockSet(pid, to);
            && Enabled(cfg, s, e)
            && var s' := Do(cfg, s, e);
            && s'.log.state == State(s.log.state.store, to) && s'.portal == s.portal && s'.references == s.references
            && s'.processes == s.processes[pid := Over] && s'.identity == s.identity
  {
    hide Do, LookupOf;
    FoundationEffect(cfg, s, ClockSet(pid, to));
  }

  // ----- the exchange, and the portal's session -----

  /** The portal's callback waits for the answer to its exchange request. */
  predicate Requested(cfg: Config, s: World, l: Login) {
    && Sane(l) && SessionRoom(cfg, s, l) && Free(s, {l.reference, l.csrf})
    && l.pid in s.processes && s.processes[l.pid] == PortalWaiting(StartOf(l), l.code, l.pid + 1)
    && l.pid + 1 in s.processes
  }

  function RequestOf(cfg: Config, l: Login): ExchangeRequest {
    ExchangeRequest(l.code, cfg.portalService, l.verifier)
  }

  lemma ReturnIsClaimed(cfg: Config, s: World, l: Login)
    requires Waits(cfg, s, l)
    ensures var e := PortalCallback(l.pid, l.pid + 1, l.state, l.context, l.code, l.returned);
            && Enabled(cfg, s, e) && ClaimsLogin(s, e) && l.state in s.portal.starts && s.portal.starts[l.state] == StartOf(l)
            && l.pid + 2 !in s.processes && Sane(l) && SessionRoom(cfg, s, l) && Free(s, {l.reference, l.csrf})
  {
    hide IsFixedReference, P.LiveSessions;
  }

  lemma BrowserReturns(cfg: Config, s: World, l: Login)
    requires Waits(cfg, s, l)
    ensures var e := PortalCallback(l.pid, l.pid + 1, l.state, l.context, l.code, l.returned);
            && Enabled(cfg, s, e)
            && var s' := Do(cfg, s, e);
            && Requested(cfg, s', l) && l.pid + 2 !in s'.processes && s'.log == s.log && s'.identity == s.identity
            && s'.processes[l.pid + 1] == ExchangeStarted(RequestOf(cfg, l))
  {
    hide IsFixedReference, P.LiveSessions, Do, Enabled, ClaimsLogin, Waits, Free, Sane;
    var e := PortalCallback(l.pid, l.pid + 1, l.state, l.context, l.code, l.returned);
    ReturnIsClaimed(cfg, s, l);
    CallbackEffect(cfg, s, e);
    PortalAfterClaim(cfg, s, e);
    StillFree(s, Do(cfg, s, e), {l.reference, l.csrf}, {});
  }

  lemma PortalAfterClaim(cfg: Config, s: World, e: Event)
    requires Enabled(cfg, s, e) && e.PortalCallback?
    ensures var s' := Do(cfg, s, e); s'.portal.sessions == s.portal.sessions && s'.references == s.references
  {
    hide IsFixedReference, RequestFor, PlanOf, Execute, Enabled;
  }

  lemma StillRequested(cfg: Config, s: World, s': World, l: Login, q: nat, p: Process)
    requires Requested(cfg, s, l) && s'.portal == s.portal && s'.references == s.references
    requires s'.processes == s.processes[q := p] && q != l.pid
    ensures Requested(cfg, s', l)
  {
    hide IsFixedReference, P.LiveSessions;
  }

  lemma RequestedFacts(cfg: Config, s: World, l: Login)
    requires Requested(cfg, s, l)
    ensures l.pid + 1 in s.processes
  {
  }

  /** The answers of the three commands of the exchange. */
  lemma ExchangeAnswers(cfg: Config, s: State, l: Login, g: Grant)
    requires Grants(cfg, l, g) && Stored(cfg, s.store, l, g) && s.clock == l.exchanged
    ensures var h := LookupOf(cfg.sha, l.code);
            && AnswerTo(s, TypeHandoff(h)) == HandoffThere
            && AnswerTo(s, ReadLookup(h)) == LookupRead(g.lookup)
            && AnswerTo(s, Exchange(h, cfg.portalService, Challenge(cfg.sha, l.verifier), g.lookup))
               == Exchanged(g.session.internalUserId, g.session.authenticatedAt)
            && Next(s, TypeHandoff(h)) == s && Next(s, ReadLookup(h)) == s
  {
    hide LookupOf, Challenge;
  }

  /** One command of the exchange. */
  lemma RequestGoesOn(cfg: Config, s: World, e: Event, l: Login, p: Plan)
    requires Requested(cfg, s, l) && Enabled(cfg, s, e) && Foundational(e) && e.pid == l.pid + 1
    requires PlanOf(cfg, s, e) == p && p.drawn == {}
    ensures var s' := Do(cfg, s, e);
            && Requested(cfg, s', l) && s'.processes[l.pid + 1] == p.next
            && s'.log.state == Next(s.log.state, p.command) && s'.identity == s.identity
  {
    hide Do, Enabled, PlanOf, Requested, Next, Succeeds;
    FoundationEffect(cfg, s, e);
    StillRequested(cfg, s, Do(cfg, s, e), l, l.pid + 1, p.next);
    RequestedFacts(cfg, Do(cfg, s, e), l);
  }

  lemma TypePlan(cfg: Config, s: World, l: Login)
    requires l.pid + 1 in s.processes && s.processes[l.pid + 1] == ExchangeStarted(RequestOf(cfg, l))
    requires AnswerTo(s.log.state, TypeHandoff(LookupOf(cfg.sha, l.code))) == HandoffThere
    ensures var e := ExchangeTypes(l.pid + 1);
            && Enabled(cfg, s, e)
            && PlanOf(cfg, s, e) == Plan(TypeHandoff(LookupOf(cfg.sha, l.code)), ExchangeTyped(RequestOf(cfg, l)), {})
  {
    hide AnswerTo, LookupOf;
  }

  lemma ReadPlan(cfg: Config, s: World, l: Login, lookup: string)
    requires l.pid + 1 in s.processes && s.processes[l.pid + 1] == ExchangeTyped(RequestOf(cfg, l))
    requires AnswerTo(s.log.state, ReadLookup(LookupOf(cfg.sha, l.code))) == LookupRead(lookup)
    ensures var e := ExchangeReads(l.pid + 1);
            && Enabled(cfg, s, e)
            && PlanOf(cfg, s, e) == Plan(ReadLookup(LookupOf(cfg.sha, l.code)), ExchangeLookedUp(RequestOf(cfg, l), lookup), {})
  {
    hide AnswerTo, LookupOf;
  }

  lemma RunPlan(cfg: Config, s: World, l: Login, lookup: string)
    requires l.pid + 1 in s.processes && s.processes[l.pid + 1] == ExchangeLookedUp(RequestOf(cfg, l), lookup)
    ensures var e := ExchangeRuns(l.pid + 1);
            var c := Exchange(LookupOf(cfg.sha, l.code), cfg.portalService, Challenge(cfg.sha, l.verifier), lookup);
            && Enabled(cfg, s, e)
            && PlanOf(cfg, s, e) == Plan(c, ExchangeAnswered(RequestOf(cfg, l), AnswerTo(s.log.state, c)), {})
  {
    hide AnswerTo, LookupOf, Challenge;
  }

  /** The request stands at the given point, and Redis holds what it needs. */
  predicate Stands(cfg: Config, s: World, l: Login, g: Grant, p: Process) {
    && Requested(cfg, s, l) && s.processes[l.pid + 1] == p
    && Grants(cfg, l, g) && Stored(cfg, s.log.state.store, l, g) && s.log.state.clock == l.exchanged
  }

  lemma StandsFacts(cfg: Config, s: World, l: Login, g: Grant, p: Process)
    requires Stands(cfg, s, l, g, p)
    ensures Requested(cfg, s, l) && l.pid + 1 in s.processes && s.processes[l.pid + 1] == p
    ensures var h := LookupOf(cfg.sha, l.code);
            && AnswerTo(s.log.state, TypeHandoff(h)) == HandoffThere && Next(s.log.state, TypeHandoff(h)) == s.log.state
            && AnswerTo(s.log.state, ReadLookup(h)) == LookupRead(g.lookup) && Next(s.log.state, ReadLookup(h)) == s.log.state
            && AnswerTo(s.log.state, Exchange(h, cfg.portalService, Challenge(cfg.sha, l.verifier), g.lookup))
               == Exchanged(g.session.internalUserId, g.session.authenticatedAt)
  {
    hide LookupOf, Challenge, AnswerTo, Next, Grants, Stored;
    ExchangeAnswers(cfg, s.log.state, l, g);
  }

  lemma StillStands(cfg: Config, s: World, s': World, l: Login, g: Grant, p: Process, p': Process)
    requires Stands(cfg, s, l, g, p) && Requested(cfg, s', l) && s'.processes[l.pid + 1] == p' && s'.log.state == s.log.state
    ensures Stands(cfg, s', l, g, p')
  {
    hide Grants, Stored;
  }

  lemma HandoffTyped(cfg: Config, s: World, l: Login, g: Grant)
    requires Stands(cfg, s, l, g, ExchangeStarted(RequestOf(cfg, l)))
    ensures var e := ExchangeTypes(l.pid + 1);
            && Enabled(cfg, s, e)
            && Stands(cfg, Do(cfg, s, e), l, g, ExchangeTyped(RequestOf(cfg, l))) && Do(cfg, s, e).identity == s.identity
  {
    hide Enabled, Do, PlanOf, Stands, Requested, AnswerTo, Next, LookupOf, Challenge;
    var e := ExchangeTypes(l.pid + 1);
    StandsFacts(cfg, s, l, g, ExchangeStarted(RequestOf(cfg, l)));
    TypePlan(cfg, s, l);
    RequestGoesOn(cfg, s, e, l, PlanOf(cfg, s, e));
    StillStands(cfg, s, Do(cfg, s, e), l, g, ExchangeStarted(RequestOf(cfg, l)), ExchangeTyped(RequestOf(cfg, l)));
  }

  lemma LookupIsRead(cfg: Config, s: World, l: Login, g: Grant)
    requires Stands(cfg, s, l, g, ExchangeTyped(RequestOf(cfg, l)))
    ensures var e := ExchangeReads(l.pid + 1);
            && Enabled(cfg, s, e)
            && Stands(cfg, Do(cfg, s, e), l, g, ExchangeLookedUp(RequestOf(cfg, l), g.lookup)) && Do(cfg, s, e).identity == s.identity
  {
    hide Enabled, Do, PlanOf, Stands, Requested, AnswerTo, Next, LookupOf, Challenge;
    var e := ExchangeReads(l.pid + 1);
    StandsFacts(cfg, s, l, g, ExchangeTyped(RequestOf(cfg, l)));
    ReadPlan(cfg, s, l, g.lookup);
    RequestGoesOn(cfg, s, e, l, PlanOf(cfg, s, e));
    StillStands(cfg, s, Do(cfg, s, e), l, g, ExchangeTyped(RequestOf(cfg, l)), ExchangeLookedUp(RequestOf(cfg, l), g.lookup));
  }

  predicate Answered(cfg: Config, s: World, l: Login, user: i32, at: u64) {
    Requested(cfg, s, l) && s.processes[l.pid + 1] == ExchangeAnswered(RequestOf(cfg, l), Exchanged(user, at))
  }

  lemma CodeIsExchanged(cfg: Config, s: World, l: Login, g: Grant)
    requires Stands(cfg, s, l, g, ExchangeLookedUp(RequestOf(cfg, l), g.lookup))
    ensures var e := ExchangeRuns(l.pid + 1);
            && Enabled(cfg, s, e)
            && Answered(cfg, Do(cfg, s, e), l, g.session.internalUserId, g.session.authenticatedAt)
            && Do(cfg, s, e).identity == s.identity
  {
    hide Enabled, Do, PlanOf, Stands, Requested, AnswerTo, Next, LookupOf, Challenge;
    var e := ExchangeRuns(l.pid + 1);
    StandsFacts(cfg, s, l, g, ExchangeLookedUp(RequestOf(cfg, l), g.lookup));
    RunPlan(cfg, s, l, g.lookup);
    RequestGoesOn(cfg, s, e, l, PlanOf(cfg, s, e));
  }

  /** The portal finds the session, with its user, at every time within eight hours of its making, and not later. */
  ghost predicate LoggedIn(cfg: Config, s: World, l: Login, user: i32, at: u64) {
    forall t: u64 ::
      var o := P.GetSessionStep(s.portal, l.reference, t).outcome;
      if t < l.admitted + 28800
      then o.SessionFound? && o.session.internalUserId == user && o.session.authenticatedAt == at && o.session.csrfLookup == cfg.sha(l.csrf)
      else o == P.NoSession
  }

  lemma PortalAnswers(cfg: Config, s: World, l: Login, user: i32, at: u64)
    requires Answered(cfg, s, l, user, at)
    ensures var e := PortalReceives(l.pid, l.admitted, l.reference, l.csrf);
            && Enabled(cfg, s, e)
            && var s' := Do(cfg, s, e); LoggedIn(cfg, s', l, user, at) && s'.identity == s.identity
  {
    hide IsFixedReference, P.LiveSessions, P.LiveStarts;
    assert New(s, l.reference) && New(s, l.csrf);
  }
}
