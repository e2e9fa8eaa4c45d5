/** What each event of a run does, and which event is behind what a state shows. */
module History {
  import opened Common
  import opened Decimal
  import opened References
  import opened Records
  import opened Answers
  import opened Protocol
  import opened Runs
  import opened RunTheorems
  import opened RunRefinement
  import opened System
  import opened Agreement
  import opened EndToEnd
  import P = Portal
  import I = Identity

  // ----- events that achieve something -----

  predicate StartsLogin(cfg: Config, s: World, e: Event) {
    e.PortalLogin?
    && P.CreateStartStep(cfg.sha, cfg.limits, s.portal, "/", e.now, e.state, e.browserContext, e.verifier).outcome.Started?
  }

  predicate ClaimsLogin(s: World, e: Event) {
    e.PortalCallback? && P.ClaimStartStep(s.portal, e.state, e.browserContext, e.now).outcome.StartClaimed?
  }

  /** The answer that a waiting callback receives. */
  function AnswerFor(s: World, pid: nat): Answer
    requires pid in s.processes && s.processes[pid].PortalWaiting? && s.processes[pid].exchange in s.processes
    requires s.processes[s.processes[pid].exchange].ExchangeAnswered?
  {
    s.processes[s.processes[pid].exchange].answer
  }

  predicate OpensSession(cfg: Config, s: World, e: Event) {
    && e.PortalReceives? && Enabled(cfg, s, e)
    && var a := AnswerFor(s, e.pid);
    P.CreateSessionStep(cfg.sha, cfg.limits, s.portal, a.internalUserId, a.authenticatedAt, e.now, e.reference, e.csrf).outcome.SessionMade?
  }

  /** The Redis command of the event succeeds. */
  predicate SucceedsAt(cfg: Config, s: World, e: Event) {
    Enabled(cfg, s, e) && Foundational(e) && Succeeds(s.log.state, PlanOf(cfg, s, e).command)
  }

  // ----- effects -----

  /** What the two services have on record about the portal's logins. */
  predicate SamePortalPast(s: World, s': World) {
    s'.started == s.started && s'.claimed == s.claimed && s'.made == s.made && s'.owner == s.owner
  }

  lemma StartedContents(sha: Hash, lim: P.Limits, v: P.Contents, now: u64, state: string, context: string, verifier: string)
    ensures var step := P.CreateStartStep(sha, lim, v, "/", now, state, context, verifier);
            step.outcome.Started? ==>
              && now + 600 <= U64_MAX && state in step.contents.starts
              && step.contents.starts[state] == P.LoginStart(context, verifier, "/", now, now + 600)
  {
    hide P.LiveStarts, P.LiveSessions, P.ValidPostLoginPath, Challenge;
  }

  ghost predicate LoginDone(cfg: Config, s: World, e: Event, s': World)
    requires e.PortalLogin?
  {
    && s'.log == s.log && s'.processes == s.processes && s'.identity == s.identity
    && s'.claimed == s.claimed && s'.made == s.made && s'.owner == s.owner
    && (StartsLogin(cfg, s, e) ==>
          && e.now + 600 <= U64_MAX
          && s'.started == s.started[e.verifier := P.LoginStart(e.browserContext, e.verifier, "/", e.now, e.now + 600)])
    && (!StartsLogin(cfg, s, e) ==> s'.started == s.started)
  }

  lemma LoginEffect(cfg: Config, s: World, e: Event)
    requires Enabled(cfg, s, e) && e.PortalLogin?
    ensures LoginDone(cfg, s, e, Do(cfg, s, e))
  {
    hide New, P.CreateStartStep;
    StartedContents(cfg.sha, cfg.limits, s.portal, e.now, e.state, e.browserContext, e.verifier);
  }

  ghost predicate CallbackDone(cfg: Config, s: World, e: Event, s': World)
    requires e.PortalCallback?
  {
    && s'.log == s.log && s'.identity == s.identity
    && s'.started == s.started && s'.made == s.made && s'.owner == s.owner
    && (ClaimsLogin(s, e) ==>
          && e.state in s.portal.starts
          && var start := s.portal.starts[e.state];
          && start.browserContext == e.browserContext && e.now < start.expiresAt
          && s'.claimed == s.claimed + {start.codeVerifier}
          && s'.processes == s.processes[e.pid := PortalWaiting(start, e.code, e.exchange)]
                                        [e.exchange := ExchangeStarted(RequestFor(cfg, start, e.code))])
    && (!ClaimsLogin(s, e) ==> s'.claimed == s.claimed && s'.processes == s.processes)
  }

  lemma CallbackEffect(cfg: Config, s: World, e: Event)
    requires Enabled(cfg, s, e) && e.PortalCallback?
    ensures CallbackDone(cfg, s, e, Do(cfg, s, e))
  {
    hide IsFixedReference, RequestFor;
  }

  ghost predicate ReceiveDone(cfg: Config, s: World, e: Event, s': World)
    requires Enabled(cfg, s, e) && e.PortalReceives?
  {
    var p, a := s.processes[e.pid], AnswerFor(s, e.pid);
    && s'.log == s.log && s'.identity == s.identity && s'.started == s.started && s'.claimed == s.claimed
    && s'.processes == s.processes[e.pid := Over]
    && (OpensSession(cfg, s, e) ==>
          && s'.made == s.made[p.start.codeVerifier := Made(e.reference, p.code, a.internalUserId, a.authenticatedAt)]
          && s'.owner == s.owner[e.reference := p.start.codeVerifier])
    && (!OpensSession(cfg, s, e) ==> s'.made == s.made && s'.owner == s.owner)
  }

  lemma ReceiveEffect(cfg: Config, s: World, e: Event)
    requires Enabled(cfg, s, e) && e.PortalReceives?
    ensures ReceiveDone(cfg, s, e, Do(cfg, s, e))
  {
    hide New, P.CreateSessionStep;
  }

  ghost predicate FoundationDone(cfg: Config, s: World, e: Event, s': World)
    requires Enabled(cfg, s, e) && Foundational(e)
  {
    var p := PlanOf(cfg, s, e);
    && SamePortalPast(s, s') && s'.identity == s.identity && s'.portal == s.portal
    && s'.log == Record(s.log, p.command) && s'.processes == s.processes[e.pid := p.next]
    && s'.references == s.references + p.drawn
  }

  lemma FoundationEffect(cfg: Config, s: World, e: Event)
    requires Enabled(cfg, s, e) && Foundational(e)
    ensures FoundationDone(cfg, s, e, Do(cfg, s, e))
  {
    hide PlanOf, Record, Succeeds, Enabled;
  }

  predicate Quieter(e: Event) {
    e.LoginWithoutSession? || e.LoginChecks? || e.ExchangeArrives? || e.Dies? || e.PortalUses? || e.Resolution?
  }

  ghost predicate QuietDone(s: World, e: Event, s': World)
    requires Quieter(e) && (e.Resolution? ==> I.Enabled(s.identity, e.statement))
    requires e.LoginChecks? ==> e.pid in s.processes && s.processes[e.pid].LoginSession?
  {
    && SamePortalPast(s, s') && s'.log == s.log
    && s'.identity == (if e.Resolution? then I.Apply(s.identity, e.statement) else s.identity)
    && (e.PortalUses? || e.Resolution? ==> s'.processes == s.processes)
    && (e.LoginWithoutSession? ==> s'.processes == s.processes[e.pid := LoginGoogle(e.query, e.now)])
    && (e.ExchangeArrives? ==> s'.processes == s.processes[e.pid := ExchangeStarted(e.request)])
    && (e.Dies? ==> s'.processes == s.processes[e.pid := Over])
    && (e.LoginChecks? ==> s'.processes == s.processes[e.pid := AfterCheck(s.identity, s.processes[e.pid])])
  }

  lemma QuietEffect(cfg: Config, s: World, e: Event)
    requires Enabled(cfg, s, e) && Quieter(e)
    ensures e.Resolution? ==> I.Enabled(s.identity, e.statement)
    ensures e.LoginChecks? ==> e.pid in s.processes && s.processes[e.pid].LoginSession?
    ensures QuietDone(s, e, Do(cfg, s, e))
  {
    hide ValidQuery, P.Apply, I.Apply, I.Enabled;
  }

  /** What any event does: one of the five, and its effect. */
  lemma EventEffect(cfg: Config, s: World, e: Event)
    requires Enabled(cfg, s, e)
    ensures Foundational(e) || e.PortalLogin? || e.PortalCallback? || e.PortalReceives? || Quieter(e)
    ensures Foundational(e) ==> FoundationDone(cfg, s, e, Do(cfg, s, e))
    ensures e.PortalLogin? ==> LoginDone(cfg, s, e, Do(cfg, s, e))
    ensures e.PortalCallback? ==> CallbackDone(cfg, s, e, Do(cfg, s, e))
    ensures e.PortalReceives? ==> ReceiveDone(cfg, s, e, Do(cfg, s, e))
    ensures e.Resolution? ==> I.Enabled(s.identity, e.statement)
    ensures e.LoginChecks? ==> e.pid in s.processes && s.processes[e.pid].LoginSession?
    ensures Quieter(e) ==> QuietDone(s, e, Do(cfg, s, e))
  {
    hide Do, Enabled, LoginDone, CallbackDone, ReceiveDone, FoundationDone, QuietDone;
    if Foundational(e) {
      FoundationEffect(cfg, s, e);
    } else if e.PortalLogin? {
      LoginEffect(cfg, s, e);
    } else if e.PortalCallback? {
      CallbackEffect(cfg, s, e);
    } else if e.PortalReceives? {
      ReceiveEffect(cfg, s, e);
    } else {
      QuietEffect(cfg, s, e);
    }
  }

  // ----- the log -----

  lemma LogStep(cfg: Config, s: World, e: Event)
    requires Enabled(cfg, s, e)
    ensures Do(cfg, s, e).log == if Foundational(e) then Record(s.log, PlanOf(cfg, s, e).command) else s.log
  {
    hide Do, Enabled, PlanOf, Record, StartsLogin, ClaimsLogin, OpensSession;
    EventEffect(cfg, s, e);
  }

  lemma ExpiryIsPending(cfg: Config, s: World, pid: nat)
    requires ProcessesOk(cfg, s) && pid in s.processes && s.processes[pid].ExpirePending?
    ensures s.processes[pid].expire.ExpireExternal? || s.processes[pid].expire.ExpireLogout?
  {
    hide ExpiresWhatWasWritten;
    assert ProcessOk(cfg, s.log, s.commands, s.consumed, s.processes[pid]);
  }

  /** Which events send which commands. */
  lemma CommandOf(cfg: Config, s: World, e: Event)
    requires ProcessesOk(cfg, s) && Enabled(cfg, s, e) && Foundational(e)
    ensures var c := PlanOf(cfg, s, e).command;
            && (c.Issue? ==> e.LoginIssues? && c.session == LookupOf(cfg.sha, s.processes[e.pid].cookie))
            && (c.Create? ==> e.CallbackCreates? && HasUser(s, e.pid) && c.sessionRecord.internalUserId == UserOf(s, e.pid)
                              && c.sessionRecord.authenticatedAt == e.now)
            && (c.Exchange? ==> e.ExchangeRuns? && c.handoff == LookupOf(cfg.sha, s.processes[e.pid].request.code))
            && (c.Claim? ==> e.GoogleCallback?) && (c.WriteExternal? ==> e.GoogleLoginStarts?)
            && (e.LoginIssues? ==> c.Issue?) && (e.CallbackCreates? ==> c.Create?)
  {
    hide IsFixedReference, New, ProcessesOk, AnswerTo, LookupOf, Challenge, ValidQuery;
    if e.Expires? {
      ExpiryIsPending(cfg, s, e.pid);
    }
  }

  // ----- processes -----

  lemma ProcessesGrow(cfg: Config, s: World, e: Event)
    requires Enabled(cfg, s, e)
    ensures s.processes.Keys <= Do(cfg, s, e).processes.Keys
  {
    hide Do, Enabled, PlanOf, Record, StartsLogin, ClaimsLogin, OpensSession, RequestFor;
    EventEffect(cfg, s, e);
  }

  lemma {:induction false} ProcessesStay(cfg: Config, ss: seq<World>, es: seq<Event>, m: nat, n: nat)
    requires IsRun(cfg, ss, es) && m <= n <= |es|
    ensures ss[m].processes.Keys <= ss[n].processes.Keys
    decreases n
  {
    hide Do, Enabled;
    if m < n {
      ProcessesStay(cfg, ss, es, m, n - 1);
      ProcessesGrow(cfg, ss[n - 1], es[n - 1]);
    }
  }

  /** A callback that waits was begun by the claim of its login start. */
  predicate BeginsWaiting(s: World, e: Event, pid: nat, p: Process) {
    && ClaimsLogin(s, e) && e.pid == pid && e.state in s.portal.starts
    && p == PortalWaiting(s.portal.starts[e.state], e.code, e.exchange)
    && e.browserContext == s.portal.starts[e.state].browserContext && e.now < s.portal.starts[e.state].expiresAt
    && e.exchange !in s.processes
  }

  lemma NextIsNotWaiting(cfg: Config, s: World, e: Event)
    requires Inv(cfg, s) && Enabled(cfg, s, e) && Foundational(e)
    ensures !PlanOf(cfg, s, e).next.PortalWaiting?
  {
    hide PlanOf, Enabled, RedisOk, ProcessesOk, StartsOk, WaitingOk, RequestsOk, MadeOk, SessionsOk;
    PlanIsGood(cfg, s, e);
  }

  lemma CallbackIsFresh(cfg: Config, s: World, e: Event)
    requires Enabled(cfg, s, e) && e.PortalCallback?
    ensures e.pid !in s.processes && e.exchange !in s.processes && e.pid != e.exchange
  {
  }

  lemma WaitingStep(cfg: Config, s: World, e: Event, pid: nat)
    requires Inv(cfg, s) && Enabled(cfg, s, e) && pid in Do(cfg, s, e).processes && Do(cfg, s, e).processes[pid].PortalWaiting?
    ensures var p := Do(cfg, s, e).processes[pid];
            (pid in s.processes && s.processes[pid] == p) || BeginsWaiting(s, e, pid, p)
  {
    hide Do, Enabled, PlanOf, Record, StartsLogin, ClaimsLogin, OpensSession, RequestFor, Inv;
    EventEffect(cfg, s, e);
    if Foundational(e) {
      NextIsNotWaiting(cfg, s, e);
    }
    if e.PortalCallback? {
      CallbackIsFresh(cfg, s, e);
    }
  }

  lemma {:induction false} WaitingBy(cfg: Config, ss: seq<World>, es: seq<Event>, n: nat, pid: nat) returns (i: nat)
    requires CollisionFreeRun(cfg, ss, es) && n <= |es| && pid in ss[n].processes && ss[n].processes[pid].PortalWaiting?
    ensures i < n && BeginsWaiting(ss[i], es[i], pid, ss[n].processes[pid])
    decreases n
  {
    hide Do, Enabled, Inv, BeginsWaiting, CollisionFree;
    RunKeepsInv(cfg, ss, es, n - 1);
    WaitingStep(cfg, ss[n - 1], es[n - 1], pid);
    if BeginsWaiting(ss[n - 1], es[n - 1], pid, ss[n].processes[pid]) {
      return n - 1;
    }
    i := WaitingBy(cfg, ss, es, n - 1, pid);
  }

  /** An exchange that is answered with a user was answered so by the script. */
  predicate Exchanges(cfg: Config, s: World, e: Event, pid: nat, r: ExchangeRequest, user: i32, at: u64) {
    && e == ExchangeRuns(pid) && SucceedsAt(cfg, s, e) && s.processes[pid].request == r
    && AnswerTo(s.log.state, PlanOf(cfg, s, e).command) == Exchanged(user, at)
  }

  lemma OnlyScriptsExchange(cfg: Config, s: World, e: Event)
    requires Enabled(cfg, s, e) && Foundational(e)
    requires var q := PlanOf(cfg, s, e).next; q.ExchangeAnswered? && q.answer.Exchanged?
    ensures var q := PlanOf(cfg, s, e).next; Exchanges(cfg, s, e, e.pid, q.request, q.answer.internalUserId, q.answer.authenticatedAt)
  {
    hide LookupOf, Challenge, New, ValidQuery, ExchangeStep;
    assert !e.ExchangeTypes? && !e.ExchangeReads?;
  }

  predicate HasUserAnswer(p: Process) {
    p.ExchangeAnswered? && p.answer.Exchanged?
  }

  lemma AnsweredStep(cfg: Config, s: World, e: Event, pid: nat)
    requires Enabled(cfg, s, e) && pid in Do(cfg, s, e).processes && HasUserAnswer(Do(cfg, s, e).processes[pid])
    ensures var p := Do(cfg, s, e).processes[pid];
            || (pid in s.processes && s.processes[pid] == p)
            || Exchanges(cfg, s, e, pid, p.request, p.answer.internalUserId, p.answer.authenticatedAt)
  {
    hide Do, Enabled, PlanOf, Record, StartsLogin, ClaimsLogin, OpensSession, RequestFor, Exchanges;
    EventEffect(cfg, s, e);
    if Foundational(e) && e.pid == pid {
      OnlyScriptsExchange(cfg, s, e);
    }
  }

  lemma {:induction false} AnsweredBy(cfg: Config, ss: seq<World>, es: seq<Event>, n: nat, pid: nat) returns (i: nat)
    requires IsRun(cfg, ss, es) && n <= |es| && pid in ss[n].processes && HasUserAnswer(ss[n].processes[pid])
    ensures var p := ss[n].processes[pid];
            i < n && Exchanges(cfg, ss[i], es[i], pid, p.request, p.answer.internalUserId, p.answer.authenticatedAt)
    decreases n
  {
    hide Do, Enabled, Exchanges;
    var p := ss[n].processes[pid];
    AnsweredStep(cfg, ss[n - 1], es[n - 1], pid);
    if Exchanges(cfg, ss[n - 1], es[n - 1], pid, p.request, p.answer.internalUserId, p.answer.authenticatedAt) {
      return n - 1;
    }
    i := AnsweredBy(cfg, ss, es, n - 1, pid);
  }

  // ----- the portal's login starts -----

  lemma PortalAfterLogin(cfg: Config, s: World, e: Event)
    requires Enabled(cfg, s, e) && e.PortalLogin?
    ensures Do(cfg, s, e).portal
            == P.CreateStartStep(cfg.sha, cfg.limits, s.portal, "/", e.now, e.state, e.browserContext, e.verifier).contents
    ensures Do(cfg, s, e).references == s.references + {e.state, e.browserContext, e.verifier}
  {
    hide P.CreateStartStep, New;
  }

  /** Only a login adds to the portal's login starts. */
  lemma StartsOnlyShrink(cfg: Config, s: World, e: Event)
    requires Enabled(cfg, s, e) && !e.PortalLogin?
    ensures Submap(Do(cfg, s, e).portal.starts, s.portal.starts)
  {
    hide Submap, PlanOf, Record, Succeeds, P.CreateSessionStep, P.ClaimStartStep, I.Apply, I.Enabled, New, ValidQuery, IsFixedReference, RequestFor;
    SameIsSubmap(s.portal);
    if e.PortalCallback? {
      ClaimShrinks(s.portal, e.state, e.browserContext, e.now);
    } else if e.PortalReceives? {
      var a := AnswerFor(s, e.pid);
      CreateSessionEffect(cfg.sha, cfg.limits, s.portal, a.internalUserId, a.authenticatedAt, e.now, e.reference, e.csrf);
    } else if e.PortalUses? {
      UseEffect(cfg.sha, cfg.limits, s.portal, e.op);
    }
  }

  lemma ClaimShrinks(v: P.Contents, state: string, context: string, now: u64)
    ensures Submap(P.ClaimStartStep(v, state, context, now).contents.starts, v.starts)
  {
  }

  /** A login at the portal made this login start, under this state. */
  predicate MakesStart(cfg: Config, s: World, e: Event, state: string, start: P.LoginStart) {
    && Enabled(cfg, s, e) && StartsLogin(cfg, s, e) && e.state == state
    && e.verifier == start.codeVerifier && e.browserContext == start.browserContext
    && start.createdAt == e.now && start.expiresAt == e.now + 600
  }

  lemma StoredStep(cfg: Config, s: World, e: Event, state: string)
    requires Enabled(cfg, s, e) && state in Do(cfg, s, e).portal.starts
    ensures var start := Do(cfg, s, e).portal.starts[state];
            (state in s.portal.starts && s.portal.starts[state] == start) || MakesStart(cfg, s, e, state, start)
  {
    hide Do, Enabled, P.CreateStartStep;
    if e.PortalLogin? {
      PortalAfterLogin(cfg, s, e);
      CreateStartEffect(cfg.sha, cfg.limits, s.portal, "/", e.now, e.state, e.browserContext, e.verifier);
      StartedContents(cfg.sha, cfg.limits, s.portal, e.now, e.state, e.browserContext, e.verifier);
      var starts := Do(cfg, s, e).portal.starts;
      assert state != e.state ==> state in starts - {e.state};
    } else {
      StartsOnlyShrink(cfg, s, e);
    }
  }

  lemma {:induction false} StoredBy(cfg: Config, ss: seq<World>, es: seq<Event>, n: nat, state: string) returns (i: nat)
    requires IsRun(cfg, ss, es) && n <= |es| && state in ss[n].portal.starts
    ensures i < n && MakesStart(cfg, ss[i], es[i], state, ss[n].portal.starts[state])
    decreases n
  {
    hide Do, Enabled, MakesStart;
    StoredStep(cfg, ss[n - 1], es[n - 1], state);
    if MakesStart(cfg, ss[n - 1], es[n - 1], state, ss[n].portal.starts[state]) {
      return n - 1;
    }
    i := StoredBy(cfg, ss, es, n - 1, state);
  }

  // ----- external transactions -----

  predicate ClaimsTransaction(cfg: Config, s: World, e: Event, pid: nat, l: string, t: ExternalAuthTransaction) {
    && SucceedsAt(cfg, s, e) && e.GoogleCallback? && e.pid == pid && pid !in s.processes && LookupOf(cfg.sha, e.state) == l
    && PlanOf(cfg, s, e).command == Claim(l) && AnswerTo(s.log.state, Claim(l)) == Claimed(t)
  }

  predicate WritesTransaction(cfg: Config, s: World, e: Event, l: string, t: ExternalAuthTransaction) {
    && Enabled(cfg, s, e) && e.GoogleLoginStarts? && LookupOf(cfg.sha, e.reference) == l
    && PlanOf(cfg, s, e).command == WriteExternal(l, t)
  }

  lemma OnlyGoogleClaims(cfg: Config, s: World, e: Event)
    requires Enabled(cfg, s, e) && Foundational(e) && PlanOf(cfg, s, e).next.CallbackClaimed?
    ensures var q := PlanOf(cfg, s, e).next; ClaimsTransaction(cfg, s, e, e.pid, q.external, q.transaction)
  {
    hide LookupOf, Challenge, New, ValidQuery, AnswerTo;
    assert e.GoogleCallback?;
  }

  lemma ClaimedProcessStep(cfg: Config, s: World, e: Event, pid: nat)
    requires Enabled(cfg, s, e) && pid in Do(cfg, s, e).processes && Do(cfg, s, e).processes[pid].CallbackClaimed?
    ensures var p := Do(cfg, s, e).processes[pid];
            (pid in s.processes && s.processes[pid] == p) || ClaimsTransaction(cfg, s, e, pid, p.external, p.transaction)
  {
    hide Do, Enabled, PlanOf, Record, StartsLogin, ClaimsLogin, OpensSession, RequestFor, ClaimsTransaction;
    EventEffect(cfg, s, e);
    if Foundational(e) && e.pid == pid {
      OnlyGoogleClaims(cfg, s, e);
    }
  }

  lemma {:induction false} ClaimedProcessBy(cfg: Config, ss: seq<World>, es: seq<Event>, n: nat, pid: nat) returns (i: nat)
    requires IsRun(cfg, ss, es) && n <= |es| && pid in ss[n].processes && ss[n].processes[pid].CallbackClaimed?
    ensures var p := ss[n].processes[pid]; i < n && ClaimsTransaction(cfg, ss[i], es[i], pid, p.external, p.transaction)
    decreases n
  {
    hide Do, Enabled, ClaimsTransaction;
    ClaimedProcessStep(cfg, ss[n - 1], es[n - 1], pid);
    if ClaimsTransaction(cfg, ss[n - 1], es[n - 1], pid, ss[n].processes[pid].external, ss[n].processes[pid].transaction) {
      return n - 1;
    }
    i := ClaimedProcessBy(cfg, ss, es, n - 1, pid);
  }

  lemma RecordedWrite(g: Log, c: Command, l: string)
    requires l in Record(g, c).written
    ensures (l in g.written && g.written[l] == Record(g, c).written[l]) || c == WriteExternal(l, Record(g, c).written[l])
  {
    hide Succeeds, Next, Introduces;
  }

  lemma OnlyLoginsWrite(cfg: Config, s: World, e: Event, l: string, t: ExternalAuthTransaction)
    requires ProcessesOk(cfg, s) && Enabled(cfg, s, e) && Foundational(e) && PlanOf(cfg, s, e).command == WriteExternal(l, t)
    ensures WritesTransaction(cfg, s, e, l, t)
  {
    hide New, ProcessesOk, AnswerTo, LookupOf, Challenge, ValidQuery;
    CommandOf(cfg, s, e);
  }

  lemma WrittenStep(cfg: Config, s: World, e: Event, l: string)
    requires ProcessesOk(cfg, s) && Enabled(cfg, s, e) && l in Do(cfg, s, e).log.written
    ensures var t := Do(cfg, s, e).log.written[l];
            (l in s.log.written && s.log.written[l] == t) || WritesTransaction(cfg, s, e, l, t)
  {
    hide PlanOf, Record, Do, Enabled, ProcessesOk, WritesTransaction;
    LogStep(cfg, s, e);
    if Foundational(e) {
      RecordedWrite(s.log, PlanOf(cfg, s, e).command, l);
      if PlanOf(cfg, s, e).command == WriteExternal(l, Do(cfg, s, e).log.written[l]) {
        OnlyLoginsWrite(cfg, s, e, l, Do(cfg, s, e).log.written[l]);
      }
    }
  }

  lemma {:induction false} WrittenBy(cfg: Config, ss: seq<World>, es: seq<Event>, n: nat, l: string) returns (i: nat)
    requires CollisionFreeRun(cfg, ss, es) && n <= |es| && l in ss[n].log.written
    ensures i < n && WritesTransaction(cfg, ss[i], es[i], l, ss[n].log.written[l])
    decreases n
  {
    hide Do, Enabled, WritesTransaction, CollisionFree, RedisOk, ProcessesOk, StartsOk, WaitingOk, RequestsOk, MadeOk, SessionsOk;
    RunKeepsInv(cfg, ss, es, n - 1);
    WrittenStep(cfg, ss[n - 1], es[n - 1], l);
    if WritesTransaction(cfg, ss[n - 1], es[n - 1], l, ss[n].log.written[l]) {
      return n - 1;
    }
    i := WrittenBy(cfg, ss, es, n - 1, l);
  }

  /** A claim returns the transaction that was written, but for its status. */
  lemma ClaimFinds(g: Log, l: string, t: ExternalAuthTransaction)
    requires Coherent(g) && AnswerTo(g.state, Claim(l)) == Claimed(t)
    ensures l in g.written && t == g.written[l].(status := Processing)
  {
    hide SessionsAsCreated, HandoffsAsIssued, IssuedForCreated;
    assert ClaimStep(g.state.store, g.state.clock, l).answer == Claimed(t);
  }
}
