/** What holds of every run of portal and foundation: single use, finality of logout, lifetimes, raw Redis. */
module SystemTheorems {
  import opened Common
  import opened Decimal
  import opened References
  import opened Records
  import opened Answers
  import opened Protocol
  import opened Runs
  import opened RunTheorems
  import opened RunRefinement
  import opened Refinement
  import opened System
  import opened Agreement
  import opened EndToEnd
  import opened History

  // ----- single use and finality, across requests -----

  lemma PastStays(cfg: Config, s: World, e: Event)
    requires Enabled(cfg, s, e)
    ensures s.log.ended <= Do(cfg, s, e).log.ended && s.log.exchanged <= Do(cfg, s, e).log.exchanged
  {
    hide PlanOf, Do, Enabled, Succeeds, Next, Introduces;
    LogStep(cfg, s, e);
  }

  lemma {:induction false} PastIsKept(cfg: Config, ss: seq<World>, es: seq<Event>, m: nat, n: nat)
    requires IsRun(cfg, ss, es) && m <= n <= |es|
    ensures ss[m].log.ended <= ss[n].log.ended && ss[m].log.exchanged <= ss[n].log.exchanged
    decreases n
  {
    hide Do, Enabled;
    if m < n {
      PastIsKept(cfg, ss, es, m, n - 1);
      PastStays(cfg, ss[n - 1], es[n - 1]);
    }
  }

  lemma ExchangeIsFirst(cfg: Config, s: World, e: Event)
    requires RedisOk(cfg, s) && e.ExchangeRuns? && SucceedsAt(cfg, s, e)
    ensures var h := LookupOf(cfg.sha, s.processes[e.pid].request.code);
            s.log.exchanged[h] == 0 && h in Do(cfg, s, e).log.exchanged
  {
    hide Sendable, LogOf, Lookups, TimesKept, Coherent, Introduces, Next, Succeeds, LookupOf, Challenge;
    CoherentExchange(s.log, PlanOf(cfg, s, e).command);
    LogStep(cfg, s, e);
  }

  /** Of all requests in a run that present the same code, at most one succeeds. */
  lemma OneExchangePerCode(cfg: Config, ss: seq<World>, es: seq<Event>, m: nat, n: nat)
    requires CollisionFreeRun(cfg, ss, es) && m < n < |es| && es[m].ExchangeRuns? && es[n].ExchangeRuns?
    requires SucceedsAt(cfg, ss[m], es[m]) && SucceedsAt(cfg, ss[n], es[n])
    ensures ss[m].processes[es[m].pid].request.code != ss[n].processes[es[n].pid].request.code
  {
    hide Do, RedisOk, ProcessesOk, StartsOk, WaitingOk, RequestsOk, MadeOk, SessionsOk, PlanOf, Succeeds, LookupOf;
    RunKeepsInv(cfg, ss, es, m);
    RunKeepsInv(cfg, ss, es, n);
    ExchangeIsFirst(cfg, ss[m], es[m]);
    ExchangeIsFirst(cfg, ss[n], es[n]);
    PastIsKept(cfg, ss, es, m + 1, n);
  }

  lemma EndedFacts(cfg: Config, s: World, e: Event, l: string)
    requires RedisOk(cfg, s) && l in s.log.ended && SucceedsAt(cfg, s, e)
    ensures e.LoginIssues? ==> LookupOf(cfg.sha, s.processes[e.pid].cookie) != l
    ensures e.ExchangeRuns? ==>
              var h := LookupOf(cfg.sha, s.processes[e.pid].request.code);
              h in s.log.issued && s.log.issued[h].commonSessionLookup != l
  {
    hide Sendable, LogOf, Lookups, TimesKept, Coherent, Succeeds, LookupOf, Challenge;
    if e.LoginIssues? || e.ExchangeRuns? {
      EndedIsUnusable(s.log, PlanOf(cfg, s, e).command, l);
      if e.ExchangeRuns? {
        CoherentExchange(s.log, PlanOf(cfg, s, e).command);
      }
    }
  }

  /**
    After a logout has ended a session, no request issues a handoff for it, not even a login that
    read the session before, and no request exchanges one that was issued for it.
  */
  lemma LogoutEndsEveryRequest(cfg: Config, ss: seq<World>, es: seq<Event>, m: nat, n: nat, l: string)
    requires CollisionFreeRun(cfg, ss, es) && m <= n < |es| && l in ss[m].log.ended
    requires SucceedsAt(cfg, ss[n], es[n])
    ensures es[n].LoginIssues? ==> LookupOf(cfg.sha, ss[n].processes[es[n].pid].cookie) != l
    ensures es[n].ExchangeRuns? ==>
              var h := LookupOf(cfg.sha, ss[n].processes[es[n].pid].request.code);
              h in ss[n].log.issued && ss[n].log.issued[h].commonSessionLookup != l
  {
    hide Do, RedisOk, ProcessesOk, StartsOk, WaitingOk, RequestsOk, MadeOk, SessionsOk, PlanOf, Succeeds, LookupOf, Enabled;
    RunKeepsInv(cfg, ss, es, n);
    PastIsKept(cfg, ss, es, m, n);
    EndedFacts(cfg, ss[n], es[n], l);
  }

  // ----- the whole system on raw Redis -----

  /** In every run of the system, Redis holds the hashes of exactly the typed records. */
  lemma SystemRunsOnRawRedis(cfg: Config, ss: seq<World>, es: seq<Event>, n: nat)
    requires CollisionFreeRun(cfg, ss, es) && n <= |es|
    ensures Represents(RawAfter(ss[n].commands).db, ss[n].log.state.store)
    ensures RawAfter(ss[n].commands).clock == ss[n].log.state.clock
  {
    hide Do, Enabled, Coherent, TimesKept, Lookups, ProcessesOk, StartsOk, WaitingOk, RequestsOk, MadeOk, SessionsOk, Represents, RawAfter, Sendable, LogOf;
    RunKeepsInv(cfg, ss, es, n);
    RunsRefine(ss[n].commands);
  }

  /** And each request that sends a command gets from those hashes the answer that the typed protocol gives. */
  lemma RequestsGetTypedAnswers(cfg: Config, ss: seq<World>, es: seq<Event>, n: nat)
    requires CollisionFreeRun(cfg, ss, es) && n < |es| && Foundational(es[n]) && Enabled(cfg, ss[n], es[n])
    ensures var raw, c := RawAfter(ss[n].commands), PlanOf(cfg, ss[n], es[n]).command;
            RunRaw(raw.db, raw.clock, c).answer == AnswerTo(ss[n].log.state, c)
  {
    hide Coherent, TimesKept, Lookups, ProcessesOk, StartsOk, WaitingOk, RequestsOk, MadeOk, SessionsOk, RawAfter, Sendable, LogOf, PlanOf, Enabled,
         RunRaw, AnswerTo, Record, Succeeds;
    var c := PlanOf(cfg, ss[n], es[n]).command;
    RunKeepsInv(cfg, ss, es, n);
    RunKeepsInv(cfg, ss, es, n + 1);
    assert ss[n + 1].commands == ss[n].commands + [c];
    AnswersAgree(ss[n].commands, c);
  }

  /** In every run, an exchange that succeeds does so within 120 seconds of issuing and 28800 of authentication. */
  lemma ExchangesAreTimely(cfg: Config, ss: seq<World>, es: seq<Event>, n: nat)
    requires CollisionFreeRun(cfg, ss, es) && n < |es| && es[n].ExchangeRuns? && Enabled(cfg, ss[n], es[n])
    requires Succeeds(ss[n].log.state, PlanOf(cfg, ss[n], es[n]).command)
    ensures var g, h := ss[n].log, PlanOf(cfg, ss[n], es[n]).command.handoff;
            && h in g.issued && g.state.clock < g.issued[h].issuedAt + 120
            && g.state.clock < g.issued[h].authenticatedAt + 28800
  {
    hide Do, Lookups, ProcessesOk, StartsOk, WaitingOk, RequestsOk, MadeOk, SessionsOk, Sendable, LogOf, LookupOf, Challenge, Run;
    RunKeepsInv(cfg, ss, es, n);
    SendableIsFresh(ss[n].commands);
    TimelyExchange(ss[n].commands, PlanOf(cfg, ss[n], es[n]).command);
  }

  lemma TimelyExchange(cs: seq<Command>, c: Command)
    requires Fresh(cs) && TimesKept(LogOf(cs)) && c.Exchange? && Succeeds(After(cs), c)
    ensures c.handoff in LogOf(cs).issued
    ensures var h := LogOf(cs).issued[c.handoff];
            After(cs).clock < h.issuedAt + 120 && After(cs).clock < h.authenticatedAt + 28800
  {
    EveryRunIsCoherent(cs);
    ExchangeIsGenuine(cs, c);
  }
}
