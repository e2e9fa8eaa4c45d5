/** Counting events: nothing is multiplied on its way through the two services. */
module Conservation {
  import opened Common
  import opened Decimal
  import opened References
  import opened Records
  import opened Answers
  import opened Protocol
  import opened Runs
  import opened RunTheorems
  import opened RunRefinement
  import opened System
  import opened Agreement
  import opened EndToEnd
  import opened History
  import P = Portal

  datatype Kind =
    | LoginsStarted | LoginsClaimed | SessionsOpened
    | TransactionsWritten | TransactionsClaimed | SessionsCreated
    | HandoffsIssued | HandoffsExchanged

  predicate Portals(k: Kind) {
    k.LoginsStarted? || k.LoginsClaimed? || k.SessionsOpened?
  }

  /** A command of the given kind that did its work. */
  predicate Works(s: State, c: Command, k: Kind) {
    match k
    case TransactionsWritten => c.WriteExternal?
    case TransactionsClaimed => c.Claim? && Succeeds(s, c)
    case SessionsCreated => c.Create? && Succeeds(s, c)
    case HandoffsIssued => (c.Issue? || c.Create?) && Succeeds(s, c)
    case HandoffsExchanged => c.Exchange? && Succeeds(s, c)
    case _ => false
  }

  predicate Happens(cfg: Config, s: World, e: Event, k: Kind) {
    match k
    case LoginsStarted => StartsLogin(cfg, s, e)
    case LoginsClaimed => ClaimsLogin(s, e)
    case SessionsOpened => OpensSession(cfg, s, e)
    case _ => Enabled(cfg, s, e) && Foundational(e) && Works(s.log.state, PlanOf(cfg, s, e).command, k)
  }

  /** How often it happened among the first `n` events. */
  function Tally(cfg: Config, ss: seq<World>, es: seq<Event>, n: nat, k: Kind): nat
    requires |ss| == |es| + 1 && n <= |es|
  {
    if n == 0 then 0 else Tally(cfg, ss, es, n - 1, k) + if Happens(cfg, ss[n - 1], es[n - 1], k) then 1 else 0
  }

  /** The records that a state has on file of each kind. */
  function Filed(s: World, k: Kind): nat {
    match k
    case LoginsStarted => |s.started|
    case LoginsClaimed => |s.claimed|
    case SessionsOpened => |s.made|
    case _ => FiledAtRedis(s.log, k)
  }

  function FiledAtRedis(g: Log, k: Kind): nat {
    match k
    case TransactionsWritten => |g.written|
    case TransactionsClaimed => |g.claimed|
    case SessionsCreated => |g.created|
    case HandoffsIssued => |g.issued|
    case HandoffsExchanged => |g.exchanged|
    case _ => 0
  }

  /** With new references, every command that does its work adds one record to the file. */
  lemma FiledByCommand(g: Log, c: Command, k: Kind)
    requires Coherent(g) && Introduces(c) !! g.introduced
    ensures FiledAtRedis(Record(g, c), k) == FiledAtRedis(g, k) + if Works(g.state, c, k) then 1 else 0
  {
    hide Succeeds, Next;
    match k
    case TransactionsWritten =>
      if c.WriteExternal? {
        assert (External, c.external) in Introduces(c);
        OneMore(g.written, c.external, c.transaction);
      }
    case SessionsCreated =>
      if c.Create? {
        assert (Session, c.session) in Introduces(c);
        OneMore(g.created, c.session, c.sessionRecord);
      }
    case HandoffsIssued =>
      if c.Issue? || c.Create? {
        assert (Handoff, c.handoff) in Introduces(c);
        OneMore(g.issued, c.handoff, c.record);
      }
    case _ =>
  }

  lemma CommandIsNew(cfg: Config, s: World, e: Event)
    requires Inv(cfg, s) && Enabled(cfg, s, e) && Foundational(e) && CollisionFree(cfg.sha, Do(cfg, s, e).references)
    ensures Introduces(PlanOf(cfg, s, e).command) !! s.log.introduced && Coherent(s.log)
  {
    hide PlanOf, Do, Enabled, LogOf, Sendable, TimesKept, Lookups, Introduces, WellFormedCommand, WellTimed, ExpiresWhatWasWritten,
         ProcessOk, Record, ProcessesOk, StartsOk, WaitingOk, RequestsOk, MadeOk, SessionsOk, Coherent, CollisionFree, Succeeds;
    PlanIsGood(cfg, s, e);
    FoundationEffect(cfg, s, e);
    PlanIntroducesNew(cfg, s, PlanOf(cfg, s, e));
  }

  lemma FiledAtRedisStep(cfg: Config, s: World, e: Event, k: Kind)
    requires Inv(cfg, s) && Enabled(cfg, s, e) && CollisionFree(cfg.sha, Do(cfg, s, e).references) && !Portals(k)
    ensures Filed(Do(cfg, s, e), k) == Filed(s, k) + if Happens(cfg, s, e, k) then 1 else 0
  {
    hide PlanOf, Do, Enabled, Inv, Record, Works, CollisionFree, FiledAtRedis, Coherent, Introduces;
    LogStep(cfg, s, e);
    if Foundational(e) {
      CommandIsNew(cfg, s, e);
      FiledByCommand(s.log, PlanOf(cfg, s, e).command, k);
    }
  }

  lemma VerifierNotStarted(cfg: Config, s: World, e: Event)
    requires StartsOk(s) && Enabled(cfg, s, e) && e.PortalLogin?
    ensures e.verifier !in s.started
  {
    hide IsFixedReference;
  }

  lemma WaitingNotMade(cfg: Config, s: World, e: Event)
    requires WaitingOk(s) && Enabled(cfg, s, e) && e.PortalReceives?
    ensures s.processes[e.pid].start.codeVerifier !in s.made
  {
  }

  /** The file of a portal's kind grows by one exactly when it happens. */
  ghost predicate Counted(cfg: Config, s: World, e: Event, k: Kind)
    requires Enabled(cfg, s, e)
  {
    Filed(Do(cfg, s, e), k) == Filed(s, k) + if Happens(cfg, s, e, k) then 1 else 0
  }

  lemma LoginCounts(cfg: Config, s: World, e: Event, k: Kind)
    requires StartsOk(s) && Enabled(cfg, s, e) && e.PortalLogin? && Portals(k)
    ensures Counted(cfg, s, e, k)
  {
    hide Do, Enabled, PlanOf, P.CreateStartStep, StartsOk;
    LoginEffect(cfg, s, e);
    VerifierNotStarted(cfg, s, e);
    if StartsLogin(cfg, s, e) {
      OneMore(s.started, e.verifier, Do(cfg, s, e).started[e.verifier]);
    }
  }

  lemma CallbackCounts(cfg: Config, s: World, e: Event, k: Kind)
    requires StartsOk(s) && Enabled(cfg, s, e) && e.PortalCallback? && Portals(k)
    ensures Counted(cfg, s, e, k)
  {
    hide Do, Enabled, PlanOf, RequestFor, IsFixedReference;
    CallbackEffect(cfg, s, e);
  }

  lemma ReceiveCounts(cfg: Config, s: World, e: Event, k: Kind)
    requires WaitingOk(s) && Enabled(cfg, s, e) && e.PortalReceives? && Portals(k)
    ensures Counted(cfg, s, e, k)
  {
    hide Do, PlanOf, WaitingOk, New, OpensSession;
    ReceiveEffect(cfg, s, e);
    WaitingNotMade(cfg, s, e);
    if OpensSession(cfg, s, e) {
      var v := s.processes[e.pid].start.codeVerifier;
      OneMore(s.made, v, Do(cfg, s, e).made[v]);
    }
  }

  lemma FiledAtPortalStep(cfg: Config, s: World, e: Event, k: Kind)
    requires StartsOk(s) && WaitingOk(s) && Enabled(cfg, s, e) && Portals(k)
    ensures Counted(cfg, s, e, k)
  {
    hide Do, Enabled, PlanOf, Record, StartsOk, WaitingOk, Works;
    EventEffect(cfg, s, e);
    if e.PortalLogin? {
      LoginCounts(cfg, s, e, k);
    }
    if e.PortalCallback? {
      CallbackCounts(cfg, s, e, k);
    }
    if e.PortalReceives? {
      ReceiveCounts(cfg, s, e, k);
    }
  }

  /** What is on file is what happened: no event is hidden by another. */
  lemma {:induction false} TallyIsFiled(cfg: Config, ss: seq<World>, es: seq<Event>, n: nat, k: Kind)
    requires CollisionFreeRun(cfg, ss, es) && n <= |es|
    ensures Tally(cfg, ss, es, n, k) == Filed(ss[n], k)
    decreases n
  {
    hide Do, Enabled, Happens, CollisionFree, RedisOk, ProcessesOk, StartsOk, WaitingOk, RequestsOk, MadeOk, SessionsOk;
    if n > 0 {
      TallyIsFiled(cfg, ss, es, n - 1, k);
      RunKeepsInv(cfg, ss, es, n - 1);
      FewerCollide(cfg, ss, es, n);
      if Portals(k) {
        FiledAtPortalStep(cfg, ss[n - 1], es[n - 1], k);
      } else {
        FiledAtRedisStep(cfg, ss[n - 1], es[n - 1], k);
      }
    }
  }

  lemma FewerCollide(cfg: Config, ss: seq<World>, es: seq<Event>, n: nat)
    requires CollisionFreeRun(cfg, ss, es) && n <= |es|
    ensures CollisionFree(cfg.sha, ss[n].references)
  {
    hide Do, Enabled;
    ReferencesStay(cfg, ss, es, n, |es|);
  }

  // ----- the pipeline -----

  lemma {:induction false} MadeAtMost(sha: Hash, made: map<string, Made>, ex: multiset<string>)
    requires forall v | v in made :: LookupOf(sha, made[v].code) in ex
    requires forall v, w | v in made && w in made && v != w :: LookupOf(sha, made[v].code) != LookupOf(sha, made[w].code)
    ensures |made| <= |ex|
    decreases |made|
  {
    hide LookupOf;
    if |made| > 0 {
      var v :| v in made;
      var h := LookupOf(sha, made[v].code);
      assert made.Keys == (made - {v}).Keys + {v};
      MadeAtMost(sha, made - {v}, ex - multiset{h});
      assert ex == (ex - multiset{h}) + multiset{h};
    }
  }

  lemma {:induction false} SetWithinMultiset(a: set<string>, m: multiset<string>)
    requires forall x | x in a :: x in m
    ensures |a| <= |m|
    decreases a
  {
    if a != {} {
      var x :| x in a;
      SetWithinMultiset(a - {x}, m - multiset{x});
      assert m == (m - multiset{x}) + multiset{x};
    }
  }

  /** Two sessions are not made from one handoff: its challenge is for one verifier. */
  lemma MadeCount(cfg: Config, s: World)
    requires CollisionFree(cfg.sha, s.references) && StartsOk(s) && MadeOk(cfg, s)
    ensures |s.made| <= |s.log.exchanged|
  {
    hide LookupOf, Challenge, IsFixedReference;
    forall v, w | v in s.made && w in s.made && v != w
      ensures LookupOf(cfg.sha, s.made[v].code) != LookupOf(cfg.sha, s.made[w].code)
    {
      assert v in s.started && w in s.started;
      ChallengeInjective(cfg.sha, v, w);
    }
    MadeAtMost(cfg.sha, s.made, s.log.exchanged);
  }

  lemma {:induction false} OwnersAtMost(owner: map<string, string>, keys: set<string>, made: set<string>)
    requires forall k | k in keys :: k in owner && owner[k] in made
    requires forall k, k' | k in keys && k' in keys && k != k' :: owner[k] != owner[k']
    ensures |keys| <= |made|
    decreases keys
  {
    if keys != {} {
      var k :| k in keys;
      OwnersAtMost(owner, keys - {k}, made - {owner[k]});
    }
  }

  lemma SessionCount(s: World)
    requires SessionsOk(s)
    ensures |s.portal.sessions| <= |s.made|
  {
    OwnersAtMost(s.owner, s.portal.sessions.Keys, s.made.Keys);
  }

  lemma PortalCounts(s: World)
    requires StartsOk(s) && s.made.Keys <= s.claimed
    ensures |s.made| <= |s.claimed| <= |s.started|
  {
    hide IsFixedReference;
    SubsetSize(s.made.Keys, s.claimed);
    SubsetSize(s.claimed, s.started.Keys);
  }

  lemma RedisCounts(cfg: Config, s: World)
    requires RedisOk(cfg, s) && ProcessesOk(cfg, s)
    ensures |s.log.created| <= |s.log.claimed| <= |s.log.written| && |s.log.exchanged| <= |s.log.issued|
  {
    hide LogOf, Sendable, Coherent, TimesKept, Lookups, ProcessOk;
    SendableIsFresh(s.commands);
    NothingIsMultiplied(s.commands, "");
    SetWithinMultiset(s.consumed, s.log.claimed);
  }

  /**
    In every run: sessions opened by callbacks are at most the login starts claimed, and these at
    most the login starts made; they are at most the successful exchanges, and these at most the
    handoffs issued; common sessions created are at most the external transactions claimed, and these
    at most the transactions written.  The portal never holds more sessions than were opened.
  */
  lemma NothingIsMultipliedAnywhere(cfg: Config, ss: seq<World>, es: seq<Event>, n: nat)
    requires CollisionFreeRun(cfg, ss, es) && n <= |es|
    ensures |ss[n].portal.sessions| <= Tally(cfg, ss, es, n, SessionsOpened)
    ensures Tally(cfg, ss, es, n, SessionsOpened) <= Tally(cfg, ss, es, n, LoginsClaimed) <= Tally(cfg, ss, es, n, LoginsStarted)
    ensures Tally(cfg, ss, es, n, SessionsOpened) <= Tally(cfg, ss, es, n, HandoffsExchanged) <= Tally(cfg, ss, es, n, HandoffsIssued)
    ensures Tally(cfg, ss, es, n, SessionsCreated) <= Tally(cfg, ss, es, n, TransactionsClaimed) <= Tally(cfg, ss, es, n, TransactionsWritten)
  {
    hide Do, Enabled, Tally, CollisionFree, RedisOk, ProcessesOk, StartsOk, WaitingOk, RequestsOk, SessionsOk, Genuine;
    RunKeepsInv(cfg, ss, es, n);
    FewerCollide(cfg, ss, es, n);
    SessionCount(ss[n]);
    PortalCounts(ss[n]);
    MadeCount(cfg, ss[n]);
    RedisCounts(cfg, ss[n]);
    TallyIsFiled(cfg, ss, es, n, LoginsStarted);
    TallyIsFiled(cfg, ss, es, n, LoginsClaimed);
    TallyIsFiled(cfg, ss, es, n, SessionsOpened);
    TallyIsFiled(cfg, ss, es, n, TransactionsWritten);
    TallyIsFiled(cfg, ss, es, n, TransactionsClaimed);
    TallyIsFiled(cfg, ss, es, n, SessionsCreated);
    TallyIsFiled(cfg, ss, es, n, HandoffsIssued);
    TallyIsFiled(cfg, ss, es, n, HandoffsExchanged);
  }

  lemma ClaimedGrows(cfg: Config, s: World, e: Event)
    requires Enabled(cfg, s, e)
    ensures s.claimed <= Do(cfg, s, e).claimed
  {
    hide Do, Enabled, PlanOf, Record, RequestFor, StartsLogin, ClaimsLogin, OpensSession;
    EventEffect(cfg, s, e);
  }

  /** A login start that was claimed never returns to the portal's state. */
  lemma {:induction false} ClaimedNeverReturns(cfg: Config, ss: seq<World>, es: seq<Event>, m: nat, n: nat, v: string)
    requires CollisionFreeRun(cfg, ss, es) && m <= n <= |es| && v in ss[m].claimed
    ensures v in ss[n].claimed
    ensures forall k | k in ss[n].portal.starts :: ss[n].portal.starts[k].codeVerifier != v
    decreases n
  {
    hide Do, Enabled, CollisionFree, RedisOk, ProcessesOk, WaitingOk, RequestsOk, MadeOk, SessionsOk, IsFixedReference;
    RunKeepsInv(cfg, ss, es, n);
    if m < n {
      ClaimedNeverReturns(cfg, ss, es, m, n - 1, v);
      ClaimedGrows(cfg, ss[n - 1], es[n - 1]);
    }
  }

  // ----- sessions do not come back -----

  lemma SessionsComeByCreation(s: State, c: Command, k: string)
    requires k in Next(s, c).store.sessions && k !in s.store.sessions
    ensures c.Create? && c.session == k
  {
  }

  lemma SessionStaysGone(cfg: Config, s: World, e: Event, k: string)
    requires Inv(cfg, s) && Enabled(cfg, s, e) && CollisionFree(cfg.sha, Do(cfg, s, e).references)
    requires (Session, k) in s.log.introduced && k !in s.log.state.store.sessions
    ensures (Session, k) in Do(cfg, s, e).log.introduced && k !in Do(cfg, s, e).log.state.store.sessions
  {
    hide PlanOf, Do, Enabled, Inv, CollisionFree, Next, Succeeds, Coherent;
    LogStep(cfg, s, e);
    if Foundational(e) {
      CommandIsNew(cfg, s, e);
      if k in Do(cfg, s, e).log.state.store.sessions {
        SessionsComeByCreation(s.log.state, PlanOf(cfg, s, e).command, k);
      }
    }
  }

  /** A common session that was once there and is gone, lost, deleted, expired or logged out, never comes back. */
  lemma {:induction false} GoneIsGone(cfg: Config, ss: seq<World>, es: seq<Event>, m: nat, n: nat, k: string)
    requires CollisionFreeRun(cfg, ss, es) && m <= n <= |es|
    requires (Session, k) in ss[m].log.introduced && k !in ss[m].log.state.store.sessions
    ensures (Session, k) in ss[n].log.introduced && k !in ss[n].log.state.store.sessions
    decreases n
  {
    hide Do, Enabled, CollisionFree, Inv;
    if m < n {
      GoneIsGone(cfg, ss, es, m, n - 1, k);
      RunKeepsInv(cfg, ss, es, n - 1);
      FewerCollide(cfg, ss, es, n);
      SessionStaysGone(cfg, ss[n - 1], es[n - 1], k);
    }
  }
}
