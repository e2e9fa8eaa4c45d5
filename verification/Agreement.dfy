/** What every run of portal and foundation keeps. */
module Agreement {
  import opened Common
  import opened Decimal
  import opened References
  import opened Records
  import opened Answers
  import opened Protocol
  import opened Runs
  import opened RunTheorems
  import opened RunRefinement
  import opened System
  import P = Portal
  import Utf8

  function Lookups(sha: Hash, references: set<string>): set<string> {
    set r | r in references :: LookupOf(sha, r)
  }

  /** Where digests do not collide, a new reference has a new lookup. */
  lemma NewLookup(sha: Hash, references: set<string>, r: string)
    requires CollisionFree(sha, references + {r}) && r !in references
    ensures LookupOf(sha, r) !in Lookups(sha, references)
  {
    if LookupOf(sha, r) in Lookups(sha, references) {
      var r' :| r' in references && LookupOf(sha, r') == LookupOf(sha, r);
      LookupInjective(sha, r, r');
    }
  }

  // ----- Redis -----

  ghost predicate RedisOk(cfg: Config, s: World) {
    && s.log == LogOf(s.commands) && Sendable(s.commands) && Coherent(s.log) && TimesKept(s.log)
    && (forall x | x in s.log.introduced :: x.1 in Lookups(cfg.sha, s.references))
    && |s.log.created| == |s.consumed|
  }

  /** What a log says about the past is not taken back. */
  ghost predicate Grows(g: Log, g': Log) {
    && (forall h | h in g.issued :: h in g'.issued && g'.issued[h] == g.issued[h])
    && (forall h | h in g.exchanged :: h in g'.exchanged)
    && (forall l | l in g.claimed :: l in g'.claimed)
  }

  lemma RecordGrows(g: Log, c: Command)
    requires Coherent(g) && Introduces(c) !! g.introduced
    ensures Grows(g, Record(g, c))
  {
    hide Succeeds, Next, Coherent;
    forall h | h in g.issued
      ensures h in Record(g, c).issued && Record(g, c).issued[h] == g.issued[h]
    {
      IssuedOnce(g, c, h);
    }
  }

  // ----- processes -----

  /** An exchange that answered with a user: a handoff was issued for this request, and spent. */
  predicate Genuine(cfg: Config, g: Log, r: ExchangeRequest, user: i32, authenticatedAt: u64) {
    var h := LookupOf(cfg.sha, r.code);
    && h in g.issued && h in g.exchanged
    && g.issued[h].serviceId == r.serviceId && g.issued[h].codeChallenge == Challenge(cfg.sha, r.verifier)
    && g.issued[h].internalUserId == user && g.issued[h].authenticatedAt == authenticatedAt
  }

  ghost predicate ProcessOk(cfg: Config, g: Log, commands: seq<Command>, consumed: set<string>, p: Process) {
    match p
    case LoginSession(q, _, _, _) => ValidQuery(q)
    case LoginExpired(q, _, _) => ValidQuery(q)
    case LoginChecked(q, _, _, _) => ValidQuery(q)
    case LoginGoogle(q, _) => ValidQuery(q)
    case ExpirePending(c) => (c.ExpireExternal? || c.ExpireLogout?) && ExpiresWhatWasWritten(commands, c)
    case CallbackClaimed(l, _) => l in g.claimed && l !in consumed
    case ExchangeAnswered(r, a) => a.Exchanged? ==> Genuine(cfg, g, r, a.internalUserId, a.authenticatedAt)
    case _ => true
  }

  ghost predicate ProcessesOk(cfg: Config, s: World) {
    && (forall p | p in s.processes :: ProcessOk(cfg, s.log, s.commands, s.consumed, s.processes[p]))
    && (forall p, q | p in s.processes && q in s.processes && p != q
                      && s.processes[p].CallbackClaimed? && s.processes[q].CallbackClaimed? ::
          s.processes[p].external != s.processes[q].external)
    && (forall l | l in s.consumed :: l in s.log.claimed)
  }

  // ----- the portal -----

  /** A login start of the past: made with a verifier of its own. */
  predicate Known(s: World, start: P.LoginStart) {
    start.codeVerifier in s.started && s.started[start.codeVerifier] == start
  }

  ghost predicate StartsOk(s: World) {
    && (forall k | k in s.portal.starts :: k in s.references && Known(s, s.portal.starts[k]) && s.portal.starts[k].codeVerifier !in s.claimed)
    && (forall k, k' | k in s.portal.starts && k' in s.portal.starts && k != k' ::
          s.portal.starts[k].codeVerifier != s.portal.starts[k'].codeVerifier)
    && (forall v | v in s.started :: v in s.references && s.started[v].codeVerifier == v && IsFixedReference(v))
    && s.claimed <= s.started.Keys
  }

  ghost predicate WaitingOk(s: World) {
    && (forall p | p in s.processes && s.processes[p].PortalWaiting? ::
          Known(s, s.processes[p].start) && s.processes[p].start.codeVerifier in s.claimed
          && s.processes[p].start.codeVerifier !in s.made)
    && (forall p, q | p in s.processes && q in s.processes && p != q
                      && s.processes[p].PortalWaiting? && s.processes[q].PortalWaiting? ::
          s.processes[p].start.codeVerifier != s.processes[q].start.codeVerifier)
  }

  predicate HasRequest(p: Process) {
    p.ExchangeStarted? || p.ExchangeTyped? || p.ExchangeLookedUp? || p.ExchangeAnswered?
  }

  predicate Asks(p: Process, r: ExchangeRequest) {
    p.Over? || (HasRequest(p) && p.request == r)
  }

  /** A waiting callback's exchange is for its own code and its own verifier. */
  ghost predicate RequestsOk(cfg: Config, s: World) {
    forall p | p in s.processes && s.processes[p].PortalWaiting? ::
      && s.processes[p].exchange in s.processes
      && Asks(s.processes[s.processes[p].exchange], RequestFor(cfg, s.processes[p].start, s.processes[p].code))
  }

  /** A process that goes on with a request goes on with the same one. */
  predicate Continues(p: Process, q: Process) {
    !p.Over? && !p.PortalWaiting? && (HasRequest(p) ==> HasRequest(q) && q.request == p.request)
  }

  ghost predicate MadeOk(cfg: Config, s: World) {
    && s.made.Keys <= s.claimed
    && (forall v | v in s.made ::
          Genuine(cfg, s.log, ExchangeRequest(s.made[v].code, cfg.portalService, v), s.made[v].internalUserId, s.made[v].authenticatedAt))
  }

  /** A portal session carries what its callback was told. */
  ghost predicate SessionsOk(s: World) {
    && (forall k | k in s.owner :: k in s.references && s.owner[k] in s.made && s.made[s.owner[k]].reference == k)
    && (forall k | k in s.portal.sessions ::
          && k in s.owner
          && s.portal.sessions[k].internalUserId == s.made[s.owner[k]].internalUserId
          && s.portal.sessions[k].authenticatedAt == s.made[s.owner[k]].authenticatedAt)
  }

  ghost predicate Inv(cfg: Config, s: World) {
    RedisOk(cfg, s) && ProcessesOk(cfg, s) && StartsOk(s) && WaitingOk(s) && RequestsOk(cfg, s) && MadeOk(cfg, s) && SessionsOk(s)
  }

  // ----- one Redis command -----

  ghost predicate GoodPlan(cfg: Config, s: World, pid: nat, p: Plan) {
    && WellFormedCommand(p.command) && WellTimed(p.command) && ExpiresWhatWasWritten(s.commands, p.command)
    && p.drawn !! s.references
    && (forall x | x in Introduces(p.command) :: x.1 in Lookups(cfg.sha, p.drawn))
    && (p.command.Create? ==> pid in s.processes && s.processes[pid].CallbackClaimed?)
    && !p.next.PortalWaiting? && (pid in s.processes ==> Continues(s.processes[pid], p.next))
    && (p.next.CallbackClaimed? ==> p.command == Claim(p.next.external) && Succeeds(s.log.state, p.command))
    && (p.next.CallbackClaimed? || ProcessOk(cfg, Record(s.log, p.command), s.commands + [p.command], s.consumed, p.next))
  }

  lemma PlanIntroducesNew(cfg: Config, s: World, p: Plan)
    requires CollisionFree(cfg.sha, s.references + p.drawn) && p.drawn !! s.references
    requires forall x | x in Introduces(p.command) :: x.1 in Lookups(cfg.sha, p.drawn)
    requires forall x | x in s.log.introduced :: x.1 in Lookups(cfg.sha, s.references)
    ensures Introduces(p.command) !! s.log.introduced
  {
    forall x | x in Introduces(p.command)
      ensures x !in s.log.introduced
    {
      var r :| r in p.drawn && LookupOf(cfg.sha, r) == x.1;
      NewLookup(cfg.sha, s.references, r);
    }
  }

  lemma SendableSnoc(cs: seq<Command>, c: Command)
    requires Sendable(cs) && WellFormedCommand(c) && ExpiresWhatWasWritten(cs, c) && Introduces(c) !! LogOf(cs).introduced
    ensures Sendable(cs + [c]) && LogOf(cs + [c]) == Record(LogOf(cs), c)
  {
    hide Record, WellFormedCommand, ExpiresWhatWasWritten, Introduces;
    assert (cs + [c])[..|cs|] == cs && (cs + [c])[|cs|] == c;
  }

  lemma LookupsGrow(sha: Hash, a: set<string>, b: set<string>)
    ensures Lookups(sha, a) <= Lookups(sha, a + b) && Lookups(sha, b) <= Lookups(sha, a + b)
  {
  }

  lemma CreatedAreIntroduced(g: Log, l: string)
    requires Coherent(g) && (Session, l) !in g.introduced
    ensures l !in g.created
  {
    hide ExternalsAsWritten, HandoffsAsIssued, IssuedForCreated;
  }

  lemma CreatedCount(g: Log, c: Command)
    requires Coherent(g) && Introduces(c) !! g.introduced
    ensures |Record(g, c).created| == |g.created| + if c.Create? && Succeeds(g.state, c) then 1 else 0
  {
    hide Succeeds, Next, Coherent;
    if c.Create? {
      assert (Session, c.session) in Introduces(c);
      CreatedAreIntroduced(g, c.session);
      OneMore(g.created, c.session, c.sessionRecord);
    }
  }

  lemma IntroducedStayKnown(cfg: Config, s: World, p: Plan)
    requires forall x | x in Introduces(p.command) :: x.1 in Lookups(cfg.sha, p.drawn)
    requires forall x | x in s.log.introduced :: x.1 in Lookups(cfg.sha, s.references)
    ensures forall x | x in s.log.introduced + Introduces(p.command) :: x.1 in Lookups(cfg.sha, s.references + p.drawn)
  {
    hide Introduces;
    LookupsGrow(cfg.sha, s.references, p.drawn);
  }

  lemma CountsStayEqual(cfg: Config, s: World, pid: nat, p: Plan)
    requires Coherent(s.log) && ProcessesOk(cfg, s) && Introduces(p.command) !! s.log.introduced
    requires p.command.Create? ==> pid in s.processes && s.processes[pid].CallbackClaimed?
    requires |s.log.created| == |s.consumed|
    ensures |Record(s.log, p.command).created| == |Execute(s, pid, p).consumed|
  {
    hide Record, Succeeds, Coherent, Introduces;
    CreatedCount(s.log, p.command);
    if p.command.Create? {
      assert ProcessOk(cfg, s.log, s.commands, s.consumed, s.processes[pid]);
    }
  }

  lemma TimesRecorded(g: Log, c: Command)
    requires TimesKept(g) && WellTimed(c)
    ensures TimesKept(Record(g, c))
  {
    hide Succeeds, Next, TimesKept, WellTimed;
    TimesStep(g, c, Record(g, c));
  }

  lemma ExecuteKeepsRedis(cfg: Config, s: World, pid: nat, p: Plan)
    requires CollisionFree(cfg.sha, s.references + p.drawn)
    requires RedisOk(cfg, s) && ProcessesOk(cfg, s) && GoodPlan(cfg, s, pid, p)
    ensures RedisOk(cfg, Execute(s, pid, p)) && Grows(s.log, Record(s.log, p.command))
  {
    var c, s' := p.command, Execute(s, pid, p);
    assert s'.log.introduced == s.log.introduced + Introduces(c);
    hide Record, Succeeds, Coherent, LogOf, Sendable, Grows, TimesKept, Lookups, ProcessOk, ProcessesOk, Introduces,
         WellFormedCommand, WellTimed, ExpiresWhatWasWritten;
    PlanIntroducesNew(cfg, s, p);
    SendableSnoc(s.commands, c);
    SendableIsFresh(s.commands + [c]);
    EveryRunIsCoherent(s.commands + [c]);
    TimesRecorded(s.log, c);
    IntroducedStayKnown(cfg, s, p);
    CountsStayEqual(cfg, s, pid, p);
    RecordGrows(s.log, c);
  }

  lemma ProcessStaysOk(cfg: Config, g: Log, g': Log, commands: seq<Command>, c: Command, consumed: set<string>, consumed': set<string>, p: Process)
    requires ProcessOk(cfg, g, commands, consumed, p) && Grows(g, g')
    requires p.CallbackClaimed? ==> p.external !in consumed'
    ensures ProcessOk(cfg, g', commands + [c], consumed', p)
  {
    hide ValidQuery, LookupOf, Challenge;
    if p.ExpirePending? {
      StillWritten(commands, c, p.expire);
    }
  }

  lemma StillWritten(commands: seq<Command>, c: Command, e: Command)
    requires ExpiresWhatWasWritten(commands, e)
    ensures ExpiresWhatWasWritten(commands + [c], e)
  {
    var after := commands + [c];
    assert forall j | 0 <= j < |commands| :: after[j] == commands[j];
  }

  /** A transaction is claimed once, so a new claim is for one that no process has. */
  lemma ClaimIsFirst(g: Log, c: Command)
    requires Coherent(g) && c.Claim? && Succeeds(g.state, c)
    ensures c.external !in g.claimed && c.external in Record(g, c).claimed
  {
    hide HandoffsAsIssued, SessionsAsCreated, IssuedForCreated;
  }

  lemma ProcessesStep(cfg: Config, s: World, s': World, pid: nat, c: Command, next: Process)
    requires ProcessesOk(cfg, s) && Grows(s.log, s'.log)
    requires s'.processes == s.processes[pid := next] && s'.commands == s.commands + [c]
    requires s'.consumed == s.consumed
             || (pid in s.processes && s.processes[pid].CallbackClaimed? && s'.consumed == s.consumed + {s.processes[pid].external})
    requires ProcessOk(cfg, s'.log, s'.commands, s'.consumed, next)
    requires next.CallbackClaimed? ==> next.external !in s.log.claimed
    ensures ProcessesOk(cfg, s')
  {
    hide ValidQuery, ExpiresWhatWasWritten, Genuine;
    forall q | q in s.processes && s.processes[q].CallbackClaimed?
      ensures s.processes[q].external in s.log.claimed
    {
      assert ProcessOk(cfg, s.log, s.commands, s.consumed, s.processes[q]);
    }
    forall q | q in s'.processes && q != pid
      ensures ProcessOk(cfg, s'.log, s'.commands, s'.consumed, s'.processes[q])
    {
      assert ProcessOk(cfg, s.log, s.commands, s.consumed, s.processes[q]);
      ProcessStaysOk(cfg, s.log, s'.log, s.commands, c, s.consumed, s'.consumed, s.processes[q]);
    }
  }

  lemma ConsumedWereClaimed(cfg: Config, s: World, l: string)
    requires ProcessesOk(cfg, s) && l !in s.log.claimed
    ensures l !in s.consumed
  {
  }

  lemma ExecuteKeepsProcesses(cfg: Config, s: World, pid: nat, p: Plan)
    requires Coherent(s.log) && ProcessesOk(cfg, s) && GoodPlan(cfg, s, pid, p) && Grows(s.log, Record(s.log, p.command))
    ensures ProcessesOk(cfg, Execute(s, pid, p))
  {
    hide Record, Succeeds, Coherent, WellFormedCommand, WellTimed, ExpiresWhatWasWritten, Lookups, Genuine, ValidQuery, Grows,
         ProcessesOk, Introduces;
    var s' := Execute(s, pid, p);
    if p.next.CallbackClaimed? {
      ClaimIsFirst(s.log, p.command);
      ConsumedWereClaimed(cfg, s, p.next.external);
    }
    ProcessesStep(cfg, s, s', pid, p.command, p.next);
  }

  lemma ExecuteKeepsPortal(cfg: Config, s: World, pid: nat, p: Plan)
    requires StartsOk(s) && WaitingOk(s) && MadeOk(cfg, s) && SessionsOk(s)
    requires !p.next.PortalWaiting? && Grows(s.log, Record(s.log, p.command))
    ensures var s' := Execute(s, pid, p); StartsOk(s') && WaitingOk(s') && MadeOk(cfg, s') && SessionsOk(s')
  {
    hide Record, Succeeds, IsFixedReference, LookupOf, Challenge;
  }

  lemma ExecuteKeepsRequests(cfg: Config, s: World, pid: nat, p: Plan)
    requires RequestsOk(cfg, s) && !p.next.PortalWaiting? && (pid in s.processes ==> Continues(s.processes[pid], p.next))
    ensures RequestsOk(cfg, Execute(s, pid, p))
  {
    hide Record, Succeeds, RequestFor;
  }

  // ----- every foundation event is a good plan -----

  lemma AsciiTexts(q: LoginQuery)
    requires ValidQuery(q)
    ensures Utf8.Valid(q.codeChallenge)
  {
    forall i | 0 <= i < |q.codeChallenge|
      ensures q.codeChallenge[i] as int < 0x80
    {
      assert IsBase64UrlChar(q.codeChallenge[i]);
    }
    Utf8.AsciiIsValid(q.codeChallenge);
  }

  lemma GoogleIsUtf8(s: string)
    requires s == "google" || s == ""
    ensures Utf8.Valid(s)
  {
    forall i | 0 <= i < |s|
      ensures s[i] as int < 0x80
    {
    }
    Utf8.AsciiIsValid(s);
  }

  ghost predicate GoodEvent(cfg: Config, s: World, e: Event) {
    Foundational(e) && Enabled(cfg, s, e) && GoodPlan(cfg, s, e.pid, PlanOf(cfg, s, e))
  }

  /** The events whose command neither creates a record nor reports a success to a process. */
  predicate Quiet(e: Event) {
    e.LoginWithCookie? || e.LoginDeletes? || e.LogoutPost? || e.RecordLost? || e.ClockSet?
  }

  lemma ReadingPlanIsGood(cfg: Config, s: World, e: Event)
    requires Inv(cfg, s) && Enabled(cfg, s, e) && (e.ExchangeTypes? || e.ExchangeReads?)
    ensures GoodEvent(cfg, s, e)
  {
    hide Record, Succeeds, Coherent, Lookups, LookupOf, Challenge, ValidQuery, IsFixedReference, New,
         RedisOk, ProcessesOk, StartsOk, WaitingOk, RequestsOk, MadeOk, SessionsOk, Genuine;
  }

  lemma QuietPlanIsGood(cfg: Config, s: World, e: Event)
    requires Inv(cfg, s) && Enabled(cfg, s, e) && Quiet(e)
    ensures GoodEvent(cfg, s, e)
  {
    hide Record, Succeeds, Coherent, Lookups, LookupOf, Challenge, ValidQuery, IsFixedReference, New,
         RedisOk, StartsOk, WaitingOk, RequestsOk, MadeOk, SessionsOk, ExchangeStep, LogoutStep, Genuine;
    if e.pid in s.processes {
      assert ProcessOk(cfg, s.log, s.commands, s.consumed, s.processes[e.pid]);
    }
  }

  lemma RunningIsGenuine(cfg: Config, commands: seq<Command>, r: ExchangeRequest, l: string)
    requires Fresh(commands)
    ensures var g := LogOf(commands);
            var c := Exchange(LookupOf(cfg.sha, r.code), r.serviceId, Challenge(cfg.sha, r.verifier), l);
            var a := AnswerTo(g.state, c);
            a.Exchanged? ==> Genuine(cfg, Record(g, c), r, a.internalUserId, a.authenticatedAt)
  {
    var g := LogOf(commands);
    var c := Exchange(LookupOf(cfg.sha, r.code), r.serviceId, Challenge(cfg.sha, r.verifier), l);
    hide Run, LogOf, LookupOf, Challenge;
    if AnswerTo(g.state, c).Exchanged? {
      assert Succeeds(g.state, c);
      ExchangeIsGenuine(commands, c);
    }
  }

  lemma ExchangePlanIsGood(cfg: Config, s: World, e: Event)
    requires Inv(cfg, s) && Enabled(cfg, s, e) && e.ExchangeRuns?
    ensures GoodEvent(cfg, s, e)
  {
    hide Record, Coherent, Lookups, LookupOf, Challenge, ProcessesOk, StartsOk, WaitingOk, RequestsOk, MadeOk, SessionsOk, Run, Genuine, Succeeds, LogOf, Sendable;
    SendableIsFresh(s.commands);
    RunningIsGenuine(cfg, s.commands, s.processes[e.pid].request, s.processes[e.pid].lookup);
  }

  lemma ClaimPlanIsGood(cfg: Config, s: World, e: Event)
    requires Inv(cfg, s) && Enabled(cfg, s, e) && (e.GoogleCallback? || e.Expires?)
    ensures GoodEvent(cfg, s, e)
  {
    hide Record, Coherent, Lookups, LookupOf, RedisOk, StartsOk, WaitingOk, RequestsOk, MadeOk, SessionsOk, Run;
    if e.Expires? {
      assert ProcessOk(cfg, s.log, s.commands, s.consumed, s.processes[e.pid]);
    }
  }

  lemma DrawnLookups(sha: Hash, a: string, b: string)
    ensures LookupOf(sha, a) in Lookups(sha, {a}) && LookupOf(sha, a) in Lookups(sha, {a, b}) && LookupOf(sha, b) in Lookups(sha, {a, b})
  {
    hide LookupOf;
  }

  lemma IssuePlanIsGood(cfg: Config, s: World, e: Event)
    requires Inv(cfg, s) && Enabled(cfg, s, e) && e.LoginIssues?
    ensures GoodEvent(cfg, s, e)
  {
    hide Record, Succeeds, Coherent, Lookups, IsLookup, RedisOk, StartsOk, WaitingOk, RequestsOk, MadeOk, SessionsOk, Run, ValidQuery, IsFixedReference;
    assert ProcessOk(cfg, s.log, s.commands, s.consumed, s.processes[e.pid]);
    DrawnLookups(cfg.sha, e.reference, e.reference);
  }

  lemma CreatePlanIsGood(cfg: Config, s: World, e: Event)
    requires Inv(cfg, s) && Enabled(cfg, s, e) && e.CallbackCreates?
    ensures GoodEvent(cfg, s, e)
  {
    hide Record, Succeeds, Coherent, Lookups, IsLookup, RedisOk, ProcessesOk, StartsOk, WaitingOk, RequestsOk, MadeOk, SessionsOk, Run, IsFixedReference;
    DrawnLookups(cfg.sha, e.session, e.handoff);
  }

  lemma JustWritten(commands: seq<Command>, c: Command, e: Command)
    requires (c.WriteExternal? && e == ExpireExternal(c.external, c.transaction.expiresAt))
             || (c.WriteLogout? && e == ExpireLogout(c.logout, c.logoutRecord.expiresAt))
    ensures ExpiresWhatWasWritten(commands + [c], e)
  {
    assert (commands + [c])[|commands|] == c;
  }

  lemma WritePlanIsGood(cfg: Config, s: World, e: Event)
    requires Inv(cfg, s) && Enabled(cfg, s, e) && (e.GoogleLoginStarts? || e.LogoutGet?)
    ensures GoodEvent(cfg, s, e)
  {
    hide Record, Coherent, Lookups, IsLookup, RedisOk, StartsOk, WaitingOk, RequestsOk, MadeOk, SessionsOk, Run, IsFixedReference, Utf8.Valid;
    var p := PlanOf(cfg, s, e);
    JustWritten(s.commands, p.command, p.next.expire);
    if e.GoogleLoginStarts? {
      assert ProcessOk(cfg, s.log, s.commands, s.consumed, s.processes[e.pid]);
      AsciiTexts(s.processes[e.pid].query);
      GoogleIsUtf8("google");
      GoogleIsUtf8("");
      DrawnLookups(cfg.sha, e.reference, e.reference);
    } else {
      DrawnLookups(cfg.sha, e.reference, e.csrf);
    }
  }

  lemma PlanIsGood(cfg: Config, s: World, e: Event)
    requires Inv(cfg, s) && Enabled(cfg, s, e) && Foundational(e)
    ensures GoodEvent(cfg, s, e)
  {
    hide GoodPlan, PlanOf, Inv;
    if Quiet(e) {
      QuietPlanIsGood(cfg, s, e);
    } else if e.ExchangeTypes? || e.ExchangeReads? {
      ReadingPlanIsGood(cfg, s, e);
    } else if e.ExchangeRuns? {
      ExchangePlanIsGood(cfg, s, e);
    } else if e.GoogleCallback? || e.Expires? {
      ClaimPlanIsGood(cfg, s, e);
    } else if e.LoginIssues? {
      IssuePlanIsGood(cfg, s, e);
    } else if e.CallbackCreates? {
      CreatePlanIsGood(cfg, s, e);
    } else {
      WritePlanIsGood(cfg, s, e);
    }
  }
}
