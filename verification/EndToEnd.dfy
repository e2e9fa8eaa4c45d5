/** Every step of both services keeps the invariant, and so it holds at every moment of every run. */
module EndToEnd {
  import opened Common
  import opened Decimal
  import opened References
  import opened Records
  import opened Answers
  import opened Protocol
  import opened Runs
  import opened RunTheorems
  import opened RunRefinement
  import opened System
  import opened Agreement
  import P = Portal
  import I = Identity

  // ----- what a use of the portal's state can do -----

  lemma LiveIsSubmap(v: P.Contents, now: u64)
    ensures Submap(P.LiveStarts(v.starts, now), v.starts) && Submap(P.LiveSessions(v.sessions, now), v.sessions)
  {
  }

  lemma SameIsSubmap(v: P.Contents)
    ensures Submap(v.starts, v.starts) && Submap(v.sessions, v.sessions)
  {
  }

  lemma PutThenDrop<V>(live: map<string, V>, m: map<string, V>, k: string, x: V)
    requires Submap(live, m)
    ensures Submap(live[k := x] - {k}, m) && Submap(live - {k}, m)
  {
  }

  lemma CreateStartEffect(sha: Hash, lim: P.Limits, v: P.Contents, path: string, now: u64, state: string, context: string, verifier: string)
    ensures var step := P.CreateStartStep(sha, lim, v, path, now, state, context, verifier);
            && Submap(step.contents.sessions, v.sessions)
            && Submap(step.contents.starts - {state}, v.starts)
            && (if step.outcome.Started?
                then state in step.contents.starts && step.contents.starts[state].codeVerifier == verifier
                else Submap(step.contents.starts, v.starts))
  {
    hide P.LiveStarts, P.LiveSessions, Challenge, P.ValidPostLoginPath, Submap;
    LiveIsSubmap(v, now);
    SameIsSubmap(v);
    var step := P.CreateStartStep(sha, lim, v, path, now, state, context, verifier);
    if step.outcome.Started? {
      PutThenDrop(P.LiveStarts(v.starts, now), v.starts, state, step.contents.starts[state]);
    } else {
      PutThenDrop(step.contents.starts, v.starts, state, P.LoginStart("", "", "", 0, 0));
    }
  }

  lemma CreateSessionEffect(sha: Hash, lim: P.Limits, v: P.Contents, user: i32, at: u64, now: u64, reference: string, csrf: string)
    ensures var step := P.CreateSessionStep(sha, lim, v, user, at, now, reference, csrf);
            && Submap(step.contents.starts, v.starts)
            && Submap(step.contents.sessions - {reference}, v.sessions)
            && (if step.outcome.SessionMade?
                then reference in step.contents.sessions && step.contents.sessions[reference].internalUserId == user
                     && step.contents.sessions[reference].authenticatedAt == at
                else Submap(step.contents.sessions, v.sessions))
  {
    hide P.LiveStarts, P.LiveSessions;
    LiveIsSubmap(v, now);
  }

  lemma UseEffect(sha: Hash, lim: P.Limits, v: P.Contents, op: P.Op)
    requires op.GetSession? || op.EndSession? || op.Cleanup?
    ensures var step := P.Apply(sha, lim, v, op);
            Submap(step.contents.starts, v.starts) && Submap(step.contents.sessions, v.sessions)
  {
    LiveIsSubmap(v, op.now);
  }

  // ----- the steps -----

  lemma FoundationKeepsInv(cfg: Config, s: World, e: Event)
    requires Inv(cfg, s) && Enabled(cfg, s, e) && Foundational(e) && CollisionFree(cfg.sha, Do(cfg, s, e).references)
    ensures Inv(cfg, Do(cfg, s, e))
  {
    hide PlanOf, GoodPlan, CollisionFree, Record, Succeeds, RedisOk, ProcessesOk, StartsOk, WaitingOk, RequestsOk, MadeOk, SessionsOk, Enabled;
    var p := PlanOf(cfg, s, e);
    PlanIsGood(cfg, s, e);
    PlanParts(cfg, s, e.pid, p);
    ExecuteKeepsRedis(cfg, s, e.pid, p);
    ExecuteKeepsProcesses(cfg, s, e.pid, p);
    ExecuteKeepsPortal(cfg, s, e.pid, p);
    ExecuteKeepsRequests(cfg, s, e.pid, p);
  }

  lemma PlanParts(cfg: Config, s: World, pid: nat, p: Plan)
    requires RedisOk(cfg, s) && GoodPlan(cfg, s, pid, p)
    ensures Coherent(s.log) && !p.next.PortalWaiting? && (pid in s.processes ==> Continues(s.processes[pid], p.next))
  {
  }

  /** More references, and the same past, leave Redis as it is. */
  lemma OnlyPortalChanges(cfg: Config, s: World, s': World, drawn: set<string>)
    requires RedisOk(cfg, s) && s'.log == s.log && s'.commands == s.commands && s'.consumed == s.consumed
    requires s'.references == s.references + drawn
    ensures RedisOk(cfg, s')
  {
    hide LogOf, Sendable, Coherent, TimesKept, Lookups;
    LookupsGrow(cfg.sha, s.references, drawn);
  }

  /** One process is replaced by one that has nothing to answer for. */
  lemma HarmlessProcess(cfg: Config, s: World, s': World, pid: nat, p: Process)
    requires ProcessesOk(cfg, s) && s'.log == s.log && s'.commands == s.commands && s'.consumed == s.consumed
    requires s'.processes == s.processes[pid := p] && !p.CallbackClaimed?
    requires ProcessOk(cfg, s.log, s.commands, s.consumed, p)
    ensures ProcessesOk(cfg, s')
  {
    hide ProcessOk;
  }

  predicate Harmless(p: Process) {
    p.Over? || p.ExchangeStarted? || ((p.LoginGoogle? || p.LoginChecked?) && ValidQuery(p.query))
  }

  lemma HarmlessIsOk(cfg: Config, g: Log, commands: seq<Command>, consumed: set<string>, p: Process)
    requires Harmless(p) || p.PortalWaiting?
    ensures ProcessOk(cfg, g, commands, consumed, p) && !p.CallbackClaimed?
  {
    hide ValidQuery;
  }

  lemma ArrivalKeepsWaiting(s: World, pid: nat, p: Process)
    requires WaitingOk(s) && !p.PortalWaiting?
    ensures WaitingOk(s.(processes := s.processes[pid := p]))
  {
  }

  lemma ArrivalKeepsRequests(cfg: Config, s: World, pid: nat, p: Process)
    requires RequestsOk(cfg, s) && !p.PortalWaiting? && (pid !in s.processes || p.Over? || s.processes[pid].LoginSession?)
    ensures RequestsOk(cfg, s.(processes := s.processes[pid := p]))
  {
    hide RequestFor;
  }

  lemma ArrivalKeepsInv(cfg: Config, s: World, pid: nat, p: Process)
    requires Inv(cfg, s) && Harmless(p) && (pid !in s.processes || p.Over? || s.processes[pid].LoginSession?)
    ensures Inv(cfg, s.(processes := s.processes[pid := p]))
  {
    hide RedisOk, ProcessesOk, ProcessOk, IsFixedReference, Genuine, ValidQuery, WaitingOk, RequestsOk;
    var s' := s.(processes := s.processes[pid := p]);
    HarmlessIsOk(cfg, s.log, s.commands, s.consumed, p);
    HarmlessProcess(cfg, s, s', pid, p);
    ArrivalKeepsWaiting(s, pid, p);
    ArrivalKeepsRequests(cfg, s, pid, p);
    OnlyPortalChanges(cfg, s, s', {});
  }

  lemma PortalShrinks(cfg: Config, s: World, v: P.Contents)
    requires Inv(cfg, s) && Submap(v.starts, s.portal.starts) && Submap(v.sessions, s.portal.sessions)
    ensures Inv(cfg, s.(portal := v))
  {
    hide RedisOk, ProcessOk, IsFixedReference, Genuine, WaitingOk;
    OnlyPortalChanges(cfg, s, s.(portal := v), {});
    assert WaitingOk(s.(portal := v)) by { SameWaiting(s, s.(portal := v)); }
  }

  lemma SameWaiting(s: World, s': World)
    requires WaitingOk(s) && s'.processes == s.processes && s'.claimed == s.claimed && s'.made == s.made
    requires forall v | v in s.started :: v in s'.started && s'.started[v] == s.started[v]
    ensures WaitingOk(s')
  {
  }

  // ----- a login start is made -----

  lemma NewStartIsOk(s: World, s': World, state: string)
    requires StartsOk(s) && s'.claimed == s.claimed && s.references <= s'.references
    requires state in s'.portal.starts && state in s'.references
    requires var v := s'.portal.starts[state].codeVerifier;
             && v !in s.references && v in s'.references && IsFixedReference(v)
             && s'.started == s.started[v := s'.portal.starts[state]]
    requires Submap(s'.portal.starts - {state}, s.portal.starts)
    ensures StartsOk(s')
  {
    hide IsFixedReference;
    forall k | k in s'.portal.starts && k != state
      ensures k in s.portal.starts && s'.portal.starts[k] == s.portal.starts[k]
    {
      assert k in s'.portal.starts - {state};
    }
  }

  lemma MoreReferences(s: World, s': World)
    requires SessionsOk(s) && s'.made == s.made && s'.owner == s.owner && s.references <= s'.references
    requires Submap(s'.portal.sessions, s.portal.sessions)
    ensures SessionsOk(s')
  {
  }

  lemma VerifierIsNew(s: World, v: string)
    requires StartsOk(s) && v !in s.references
    ensures v !in s.started
  {
  }

  lemma StartingKeepsInv(cfg: Config, s: World, v: P.Contents, state: string, drawn: set<string>)
    requires Inv(cfg, s) && Submap(v.sessions, s.portal.sessions) && Submap(v.starts - {state}, s.portal.starts)
    requires state in v.starts && state in drawn && drawn !! s.references
    requires v.starts[state].codeVerifier in drawn && IsFixedReference(v.starts[state].codeVerifier)
    ensures Inv(cfg, s.(portal := v, references := s.references + drawn, started := s.started[v.starts[state].codeVerifier := v.starts[state]]))
  {
    hide RedisOk, ProcessOk, IsFixedReference, Genuine, WaitingOk, SessionsOk, StartsOk;
    var s' := s.(portal := v, references := s.references + drawn, started := s.started[v.starts[state].codeVerifier := v.starts[state]]);
    NewStartIsOk(s, s', state);
    VerifierIsNew(s, v.starts[state].codeVerifier);
    SameWaiting(s, s');
    OnlyPortalChanges(cfg, s, s', drawn);
    MoreReferences(s, s');
  }

  lemma ReferencesKeepInv(cfg: Config, s: World, drawn: set<string>)
    requires Inv(cfg, s)
    ensures Inv(cfg, s.(references := s.references + drawn))
  {
    var s' := s.(references := s.references + drawn);
    hide RedisOk, ProcessOk, IsFixedReference, Genuine, WaitingOk;
    OnlyPortalChanges(cfg, s, s', drawn);
    assert WaitingOk(s') by { SameWaiting(s, s'); }
  }

  lemma PortalLoginKeepsInv(cfg: Config, s: World, e: Event)
    requires Inv(cfg, s) && e.PortalLogin? && Enabled(cfg, s, e)
    ensures Inv(cfg, DoPortalLogin(cfg, s, e))
  {
    hide Inv, P.CreateStartStep, IsFixedReference;
    var drawn := {e.state, e.browserContext, e.verifier};
    var step := P.CreateStartStep(cfg.sha, cfg.limits, s.portal, "/", e.now, e.state, e.browserContext, e.verifier);
    CreateStartEffect(cfg.sha, cfg.limits, s.portal, "/", e.now, e.state, e.browserContext, e.verifier);
    if step.outcome.Started? {
      StartingKeepsInv(cfg, s, step.contents, e.state, drawn);
    } else {
      PortalShrinks(cfg, s, step.contents);
      ReferencesKeepInv(cfg, s.(portal := step.contents), drawn);
    }
  }

  // ----- a login start is claimed -----

  function AfterClaim(s: World, state: string, pid: nat, code: string, exchange: nat): World
    requires state in s.portal.starts
  {
    var start := s.portal.starts[state];
    s.(portal := s.portal.(starts := s.portal.starts - {state}), claimed := s.claimed + {start.codeVerifier},
       processes := s.processes[pid := PortalWaiting(start, code, exchange)])
  }

  lemma ClaimKeepsStarts(s: World, state: string, pid: nat, code: string, exchange: nat)
    requires StartsOk(s) && state in s.portal.starts
    ensures StartsOk(AfterClaim(s, state, pid, code, exchange))
  {
    hide IsFixedReference;
  }

  lemma ClaimKeepsWaiting(s: World, state: string, pid: nat, code: string, exchange: nat)
    requires StartsOk(s) && WaitingOk(s) && s.made.Keys <= s.claimed && state in s.portal.starts
    ensures WaitingOk(AfterClaim(s, state, pid, code, exchange))
  {
    hide IsFixedReference;
    var start := s.portal.starts[state];
    assert start.codeVerifier !in s.claimed;
  }

  lemma ClaimKeepsRequests(cfg: Config, s: World, state: string, pid: nat, code: string, exchange: nat)
    requires RequestsOk(cfg, s) && state in s.portal.starts && pid !in s.processes && exchange in s.processes
    requires Asks(s.processes[exchange], RequestFor(cfg, s.portal.starts[state], code))
    ensures RequestsOk(cfg, AfterClaim(s, state, pid, code, exchange))
  {
    hide RequestFor;
  }

  lemma ClaimKeepsInv(cfg: Config, s: World, state: string, pid: nat, code: string, exchange: nat)
    requires Inv(cfg, s) && state in s.portal.starts && pid !in s.processes && exchange in s.processes
    requires Asks(s.processes[exchange], RequestFor(cfg, s.portal.starts[state], code))
    ensures Inv(cfg, AfterClaim(s, state, pid, code, exchange))
  {
    hide RedisOk, ProcessesOk, ProcessOk, Genuine, StartsOk, WaitingOk, RequestsOk;
    var s' := AfterClaim(s, state, pid, code, exchange);
    HarmlessIsOk(cfg, s.log, s.commands, s.consumed, s'.processes[pid]);
    HarmlessProcess(cfg, s, s', pid, s'.processes[pid]);
    ClaimKeepsStarts(s, state, pid, code, exchange);
    ClaimKeepsWaiting(s, state, pid, code, exchange);
    ClaimKeepsRequests(cfg, s, state, pid, code, exchange);
    OnlyPortalChanges(cfg, s, s', {});
  }

  lemma PortalCallbackKeepsInv(cfg: Config, s: World, e: Event)
    requires Inv(cfg, s) && e.PortalCallback? && e.pid !in s.processes && e.exchange !in s.processes && e.pid != e.exchange
    ensures Inv(cfg, DoPortalCallback(cfg, s, e))
  {
    hide Inv;
    var step := P.ClaimStartStep(s.portal, e.state, e.browserContext, e.now);
    if step.outcome.StartClaimed? {
      var request := ExchangeStarted(RequestFor(cfg, step.outcome.start, e.code));
      var t := s.(processes := s.processes[e.exchange := request]);
      ArrivalKeepsInv(cfg, s, e.exchange, request);
      ClaimKeepsInv(cfg, t, e.state, e.pid, e.code, e.exchange);
      assert s.processes[e.pid := PortalWaiting(step.outcome.start, e.code, e.exchange)][e.exchange := request]
          == t.processes[e.pid := PortalWaiting(step.outcome.start, e.code, e.exchange)];
    } else {
      PortalShrinks(cfg, s, step.contents);
    }
  }

  // ----- a portal session is made -----

  /** A claimed login start that has led to no session yet, and whose callback is over. */
  ghost predicate Pending(s: World, verifier: string) {
    && verifier in s.claimed && verifier !in s.made
    && (forall p | p in s.processes && s.processes[p].PortalWaiting? :: s.processes[p].start.codeVerifier != verifier)
  }

  function AfterMade(s: World, v: P.Contents, verifier: string, m: Made): World {
    s.(portal := v, made := s.made[verifier := m], owner := s.owner[m.reference := verifier])
  }

  lemma MadeKeepsSessions(s: World, v: P.Contents, verifier: string, m: Made, known: set<string>)
    requires SessionsOk(s.(references := known)) && verifier !in s.made && m.reference in s.references
    requires known <= s.references && m.reference !in known
    requires Submap(v.sessions - {m.reference}, s.portal.sessions) && m.reference in v.sessions
    requires v.sessions[m.reference].internalUserId == m.internalUserId && v.sessions[m.reference].authenticatedAt == m.authenticatedAt
    ensures SessionsOk(AfterMade(s, v, verifier, m))
  {
    forall k | k in v.sessions && k != m.reference
      ensures k in s.portal.sessions && v.sessions[k] == s.portal.sessions[k]
    {
      assert k in v.sessions - {m.reference};
    }
  }

  lemma MadeKeepsPortal(cfg: Config, s: World, v: P.Contents, verifier: string, m: Made)
    requires Pending(s, verifier) && StartsOk(s) && WaitingOk(s) && MadeOk(cfg, s) && Submap(v.starts, s.portal.starts)
    requires Genuine(cfg, s.log, ExchangeRequest(m.code, cfg.portalService, verifier), m.internalUserId, m.authenticatedAt)
    ensures var s' := AfterMade(s, v, verifier, m); StartsOk(s') && WaitingOk(s') && MadeOk(cfg, s')
  {
    hide Genuine, IsFixedReference;
  }

  lemma MadeKeepsInv(cfg: Config, s: World, v: P.Contents, verifier: string, m: Made, drawn: set<string>)
    requires Inv(cfg, s) && Pending(s, verifier) && Submap(v.starts, s.portal.starts)
    requires Genuine(cfg, s.log, ExchangeRequest(m.code, cfg.portalService, verifier), m.internalUserId, m.authenticatedAt)
    requires m.reference in drawn && drawn !! s.references
    requires Submap(v.sessions - {m.reference}, s.portal.sessions) && m.reference in v.sessions
    requires v.sessions[m.reference].internalUserId == m.internalUserId && v.sessions[m.reference].authenticatedAt == m.authenticatedAt
    ensures Inv(cfg, AfterMade(s.(references := s.references + drawn), v, verifier, m))
  {
    hide RedisOk, Genuine, StartsOk, WaitingOk, MadeOk, SessionsOk, ProcessOk, RequestFor;
    var t := s.(references := s.references + drawn);
    ReferencesKeepInv(cfg, s, drawn);
    MadeKeepsPortal(cfg, t, v, verifier, m);
    assert t.(references := s.references) == s;
    MadeKeepsSessions(t, v, verifier, m, s.references);
    OnlyPortalChanges(cfg, t, AfterMade(t, v, verifier, m), {});
  }

  /** The callback that receives the answer is the only one for its login start. */
  lemma WaitingIsPending(s: World, pid: nat)
    requires WaitingOk(s) && pid in s.processes && s.processes[pid].PortalWaiting?
    ensures Pending(s.(processes := s.processes[pid := Over]), s.processes[pid].start.codeVerifier)
  {
  }

  /** The answer that a callback gets is for its own request, and genuine. */
  lemma AnswerIsGenuine(cfg: Config, s: World, pid: nat)
    requires ProcessesOk(cfg, s) && RequestsOk(cfg, s) && pid in s.processes && s.processes[pid].PortalWaiting?
    requires var x := s.processes[pid].exchange;
             x in s.processes && s.processes[x].ExchangeAnswered? && s.processes[x].answer.Exchanged?
    ensures var p := s.processes[s.processes[pid].exchange];
            && p.request == RequestFor(cfg, s.processes[pid].start, s.processes[pid].code)
            && Genuine(cfg, s.log, p.request, p.answer.internalUserId, p.answer.authenticatedAt)
  {
    hide Genuine, RequestFor;
    assert ProcessOk(cfg, s.log, s.commands, s.consumed, s.processes[s.processes[pid].exchange]);
  }

  lemma PortalReceivesKeepsInv(cfg: Config, s: World, e: Event)
    requires Inv(cfg, s) && e.PortalReceives? && Enabled(cfg, s, e)
    ensures Inv(cfg, DoPortalReceives(cfg, s, e))
  {
    hide P.CreateSessionStep, Genuine, IsFixedReference, Pending, RedisOk, ProcessesOk, StartsOk, WaitingOk, RequestsOk, MadeOk, SessionsOk;
    var answer, verifier := s.processes[s.processes[e.pid].exchange].answer, s.processes[e.pid].start.codeVerifier;
    var t := s.(processes := s.processes[e.pid := Over]);
    var step := P.CreateSessionStep(cfg.sha, cfg.limits, s.portal, answer.internalUserId, answer.authenticatedAt, e.now, e.reference, e.csrf);
    var drawn := {e.reference, e.csrf};
    AnswerIsGenuine(cfg, s, e.pid);
    WaitingIsPending(s, e.pid);
    CreateSessionEffect(cfg.sha, cfg.limits, s.portal, answer.internalUserId, answer.authenticatedAt, e.now, e.reference, e.csrf);
    ArrivalKeepsInv(cfg, s, e.pid, Over);
    if step.outcome.SessionMade? {
      var m := Made(e.reference, s.processes[e.pid].code, answer.internalUserId, answer.authenticatedAt);
      MadeKeepsInv(cfg, t, step.contents, verifier, m, drawn);
    } else {
      PortalShrinks(cfg, t, step.contents);
      ReferencesKeepInv(cfg, t.(portal := step.contents), drawn);
    }
  }

  lemma CheckIsHarmless(cfg: Config, s: World, pid: nat)
    requires Inv(cfg, s) && pid in s.processes && s.processes[pid].LoginSession?
    ensures Harmless(AfterCheck(s.identity, s.processes[pid]))
  {
    hide RedisOk, StartsOk, WaitingOk, RequestsOk, MadeOk, SessionsOk, ValidQuery;
    assert ProcessOk(cfg, s.log, s.commands, s.consumed, s.processes[pid]);
  }

  lemma ResolutionKeepsInv(cfg: Config, s: World, db: I.Database)
    requires Inv(cfg, s)
    ensures Inv(cfg, s.(identity := db))
  {
    hide RedisOk, ProcessOk, IsFixedReference, Genuine, WaitingOk;
    OnlyPortalChanges(cfg, s, s.(identity := db), {});
    SameWaiting(s, s.(identity := db));
  }

  lemma StepKeepsInv(cfg: Config, s: World, e: Event)
    requires Inv(cfg, s) && Enabled(cfg, s, e) && CollisionFree(cfg.sha, Do(cfg, s, e).references)
    ensures Inv(cfg, Do(cfg, s, e))
  {
    hide Inv, CollisionFree, I.Apply, I.Enabled, DoPortalLogin, DoPortalCallback, DoPortalReceives, P.Apply, PlanOf, Execute;
    if Foundational(e) {
      FoundationKeepsInv(cfg, s, e);
    } else {
      match e
      case PortalLogin(_, _, _, _) => PortalLoginKeepsInv(cfg, s, e);
      case PortalCallback(_, _, _, _, _, _) => PortalCallbackKeepsInv(cfg, s, e);
      case PortalReceives(_, _, _, _) => PortalReceivesKeepsInv(cfg, s, e);
      case PortalUses(op) =>
        UseEffect(cfg.sha, cfg.limits, s.portal, op);
        PortalShrinks(cfg, s, P.Apply(cfg.sha, cfg.limits, s.portal, op).contents);
      case LoginWithoutSession(pid, q, now) => ArrivalKeepsInv(cfg, s, pid, LoginGoogle(q, now));
      case ExchangeArrives(pid, r) => ArrivalKeepsInv(cfg, s, pid, ExchangeStarted(r));
      case LoginChecks(pid) =>
        CheckIsHarmless(cfg, s, pid);
        ArrivalKeepsInv(cfg, s, pid, AfterCheck(s.identity, s.processes[pid]));
      case Dies(pid) => ArrivalKeepsInv(cfg, s, pid, Over);
      case Resolution(op) => ResolutionKeepsInv(cfg, s, I.Apply(s.identity, op));
    }
  }

  lemma ReferencesGrow(cfg: Config, s: World, e: Event)
    requires Enabled(cfg, s, e)
    ensures s.references <= Do(cfg, s, e).references
  {
    hide PlanOf, Record, Succeeds, P.Apply, I.Apply, Enabled;
  }

  lemma {:induction false} ReferencesStay(cfg: Config, ss: seq<World>, es: seq<Event>, m: nat, n: nat)
    requires IsRun(cfg, ss, es) && m <= n <= |es|
    ensures ss[m].references <= ss[n].references
    decreases n
  {
    hide Do, Enabled;
    if m < n {
      ReferencesStay(cfg, ss, es, m, n - 1);
      ReferencesGrow(cfg, ss[n - 1], es[n - 1]);
    }
  }

  /** The invariant holds at every moment of every run without colliding references. */
  lemma {:induction false} RunKeepsInv(cfg: Config, ss: seq<World>, es: seq<Event>, n: nat)
    requires CollisionFreeRun(cfg, ss, es) && n <= |es|
    ensures Inv(cfg, ss[n])
    decreases n
  {
    hide Do, Enabled, Inv;
    if n == 0 {
      InitialInv(cfg);
    } else {
      RunKeepsInv(cfg, ss, es, n - 1);
      ReferencesStay(cfg, ss, es, n, |es|);
      StepKeepsInv(cfg, ss[n - 1], es[n - 1]);
    }
  }

  lemma InitialInv(cfg: Config)
    ensures Inv(cfg, INITIAL)
  {
  }
}
