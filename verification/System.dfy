/**
  Portal and foundation together: any number of requests, each a sequence of steps, interleaved
  with each other, with the portal's cleanup, with loss of records and with process death.
*/
module System {
  import opened Common
  import opened Decimal
  import opened References
  import opened Records
  import opened Answers
  import opened Protocol
  import opened Runs
  import opened RunTheorems
  import opened RunRefinement
  import P = Portal
  import I = Identity
  import Utf8

  datatype Config = Config(sha: Hash, portalService: string, limits: P.Limits)

  /** What a browser brings to the foundation's login endpoint. */
  datatype LoginQuery = LoginQuery(serviceId: string, state: string, codeChallenge: string)

  /** What a service posts to the exchange endpoint, with the service it authenticated as. */
  datatype ExchangeRequest = ExchangeRequest(code: string, serviceId: string, verifier: string)

  /** Where a request stands between two steps. */
  datatype Process =
    | LoginSession(query: LoginQuery, cookie: string, session: CommonSession, now: u64)
    | LoginExpired(query: LoginQuery, cookie: string, now: u64)
    | LoginChecked(query: LoginQuery, cookie: string, session: CommonSession, now: u64)
    | LoginGoogle(query: LoginQuery, now: u64)
    | ExpirePending(expire: Command)
    | CallbackClaimed(external: string, transaction: ExternalAuthTransaction)
    | ExchangeStarted(request: ExchangeRequest)
    | ExchangeTyped(request: ExchangeRequest)
    | ExchangeLookedUp(request: ExchangeRequest, lookup: string)
    | ExchangeAnswered(request: ExchangeRequest, answer: Answer)
    | PortalWaiting(start: P.LoginStart, code: string, exchange: nat)
    | Over

  datatype Made = Made(reference: string, code: string, internalUserId: i32, authenticatedAt: u64)

  datatype World = World(
    log: Log,                              // Redis, and what happened there
    commands: seq<Command>,                // the Redis commands so far
    references: set<string>,               // references generated by either service
    processes: map<nat, Process>,
    consumed: set<string>,                 // external transactions that led to a common session
    identity: I.Database,                  // PostgreSQL, and the resolvers by request
    portal: P.Contents,
    started: map<string, P.LoginStart>,    // login starts ever made, by verifier
    claimed: set<string>,                  // verifiers of claimed login starts
    made: map<string, Made>,               // portal sessions made by callbacks, by verifier
    owner: map<string, string>)            // the verifier behind each portal session reference

  datatype Event =
    // the foundation
    | LoginWithoutSession(pid: nat, query: LoginQuery, now: u64)
    | LoginWithCookie(pid: nat, query: LoginQuery, cookie: string, now: u64)
    | LoginDeletes(pid: nat)
    | LoginChecks(pid: nat)
    | LoginIssues(pid: nat, reference: string)
    | GoogleLoginStarts(pid: nat, reference: string)
    | Expires(pid: nat)
    | GoogleCallback(pid: nat, state: string)
    | Resolution(statement: I.Event)
    | CallbackCreates(pid: nat, now: u64, session: string, handoff: string)
    | ExchangeArrives(pid: nat, request: ExchangeRequest)
    | ExchangeTypes(pid: nat)
    | ExchangeReads(pid: nat)
    | ExchangeRuns(pid: nat)
    | LogoutGet(pid: nat, serviceId: string, returnUri: string, reference: string, csrf: string, now: u64)
    | LogoutPost(pid: nat, reference: string, cookie: string, csrf: string)
    // the portal
    | PortalLogin(now: u64, state: string, browserContext: string, verifier: string)
    | PortalCallback(pid: nat, exchange: nat, state: string, browserContext: string, code: string, now: u64)
    | PortalReceives(pid: nat, now: u64, reference: string, csrf: string)
    | PortalUses(op: P.Op)
    // the environment
    | RecordLost(pid: nat, family: Family, lookup: string)
    | ClockSet(pid: nat, to: nat)
    | Dies(pid: nat)

  predicate ValidQuery(q: LoginQuery) {
    && Utf8.Valid(q.serviceId) && Utf8.Valid(q.state) && 0 < |q.state| <= 256 && IsFixedReference(q.codeChallenge)
  }

  predicate New(s: World, reference: string) {
    reference !in s.references && IsFixedReference(reference)
  }

  // ----- the foundation's steps -----

  /** One Redis command of a process, what the process does next, and the references it generated. */
  datatype Plan = Plan(command: Command, next: Process, drawn: set<string>)

  function TransactionFor(q: LoginQuery, now: u64): ExternalAuthTransaction
    requires now + 600 <= U64_MAX
  {
    ExternalAuthTransaction(q.serviceId, q.state, q.codeChallenge, "google", "", now, now + 600, Waiting)
  }

  function SsoHandoff(cfg: Config, q: LoginQuery, cookie: string, session: CommonSession, now: u64): AuthenticationHandoff
    requires now + 120 <= U64_MAX
  {
    AuthenticationHandoff(q.serviceId, session.internalUserId, LookupOf(cfg.sha, cookie), q.codeChallenge,
                          session.authenticatedAt, now, now + 120, Unused)
  }

  function FirstHandoff(cfg: Config, t: ExternalAuthTransaction, user: i32, session: string, now: u64): AuthenticationHandoff
    requires now + 120 <= U64_MAX
  {
    AuthenticationHandoff(t.serviceId, user, LookupOf(cfg.sha, session), t.handoffCodeChallenge, now, now, now + 120, Unused)
  }

  predicate Foundational(e: Event) {
    !(e.LoginWithoutSession? || e.LoginChecks? || e.ExchangeArrives? || e.PortalLogin? || e.PortalCallback? || e.PortalReceives? || e.PortalUses? || e.Dies? || e.Resolution?)
  }

  /** The identity resolution of a request ended with a user. */
  predicate HasUser(s: World, pid: nat) {
    && pid in s.identity.resolvers && s.identity.resolvers[pid].Finished?
    && s.identity.resolvers[pid].result.Resolved?
  }

  function UserOf(s: World, pid: nat): i32
    requires HasUser(s, pid)
  {
    s.identity.resolvers[pid].result.internalUserId
  }

  predicate Enabled(cfg: Config, s: World, e: Event) {
    match e
    case LoginWithoutSession(pid, q, _) => pid !in s.processes && ValidQuery(q)
    case LoginWithCookie(pid, q, cookie, _) => pid !in s.processes && ValidQuery(q)
    case LoginDeletes(pid) => pid in s.processes && s.processes[pid].LoginExpired?
    case LoginChecks(pid) => pid in s.processes && s.processes[pid].LoginSession?
    case LoginIssues(pid, r) =>
      pid in s.processes && s.processes[pid].LoginChecked? && New(s, r) && s.processes[pid].now + 120 <= U64_MAX
    case GoogleLoginStarts(pid, r) =>
      && pid in s.processes && s.processes[pid].LoginGoogle? && New(s, r) && s.processes[pid].now + 600 <= U64_MAX
    case Expires(pid) => pid in s.processes && s.processes[pid].ExpirePending?
    case GoogleCallback(pid, _) => pid !in s.processes
    case Resolution(op) =>
      && I.Enabled(s.identity, op)
      && (op.Arrive? ==> op.pid in s.processes && s.processes[op.pid].CallbackClaimed?
                         && op.who.provider == "google" && op.who.subject != "")
    case CallbackCreates(pid, now, sr, hr) =>
      && pid in s.processes && s.processes[pid].CallbackClaimed? && HasUser(s, pid) && New(s, sr) && New(s, hr) && sr != hr && now + 28800 <= U64_MAX
    case ExchangeArrives(pid, r) => pid !in s.processes && IsFixedReference(r.code) && IsCodeVerifier(r.verifier)
    case ExchangeTypes(pid) => pid in s.processes && s.processes[pid].ExchangeStarted?
    case ExchangeReads(pid) => pid in s.processes && s.processes[pid].ExchangeTyped?
    case ExchangeRuns(pid) => pid in s.processes && s.processes[pid].ExchangeLookedUp?
    case LogoutGet(pid, _, uri, r, csrf, now) =>
      pid !in s.processes && New(s, r) && New(s, csrf) && r != csrf && now + 600 <= U64_MAX && Utf8.Valid(uri)
    case LogoutPost(pid, _, _, _) => pid !in s.processes
    case PortalLogin(_, state, context, verifier) =>
      New(s, state) && New(s, context) && New(s, verifier) && state != context && context != verifier && state != verifier
    case PortalCallback(pid, exchange, _, _, code, _) =>
      pid !in s.processes && exchange !in s.processes && pid != exchange && IsFixedReference(code)
    case PortalReceives(pid, _, r, csrf) =>
      && pid in s.processes && s.processes[pid].PortalWaiting? && s.processes[pid].exchange in s.processes
      && s.processes[s.processes[pid].exchange].ExchangeAnswered? && s.processes[s.processes[pid].exchange].answer.Exchanged?
      && New(s, r) && New(s, csrf) && r != csrf
    case PortalUses(op) => op.GetSession? || op.EndSession? || op.Cleanup?
    case RecordLost(pid, _, _) => pid !in s.processes
    case ClockSet(pid, _) => pid !in s.processes
    case Dies(pid) => pid in s.processes
  }

  /** After the session was read: expired on the application's clock, or not. */
  function AfterRead(q: LoginQuery, cookie: string, now: u64, a: Answer): Process {
    match a
    case SessionRead(session) =>
      if now < session.expiresAt then LoginSession(q, cookie, session, now) else LoginExpired(q, cookie, now)
    case Failed(NotFound) => LoginGoogle(q, now)
    case _ => Over
  }

  /** The user of the session is enabled, or the request ends with 403. */
  function AfterCheck(db: I.Database, p: Process): Process
    requires p.LoginSession?
  {
    if p.session.internalUserId in db.users && db.users[p.session.internalUserId]
    then LoginChecked(p.query, p.cookie, p.session, p.now) else Over
  }

  function AfterIssue(q: LoginQuery, now: u64, a: Answer): Process {
    match a
    case Failed(NotFound) => LoginGoogle(q, now)
    case Failed(Expired) => LoginGoogle(q, now)
    case _ => Over
  }

  function PlanOf(cfg: Config, s: World, e: Event): Plan
    requires Enabled(cfg, s, e) && Foundational(e)
  {
    var redis := s.log.state;
    match e
    case LoginWithCookie(_, q, cookie, now) =>
      var c := ReadSession(LookupOf(cfg.sha, cookie));
      Plan(c, AfterRead(q, cookie, now, AnswerTo(redis, c)), {})
    case LoginDeletes(pid) =>
      var p := s.processes[pid];
      Plan(DeleteSession(LookupOf(cfg.sha, p.cookie)), LoginGoogle(p.query, p.now), {})
    case LoginIssues(pid, r) =>
      var p := s.processes[pid];
      var c := Issue(LookupOf(cfg.sha, p.cookie), LookupOf(cfg.sha, r), SsoHandoff(cfg, p.query, p.cookie, p.session, p.now));
      Plan(c, AfterIssue(p.query, p.now, AnswerTo(redis, c)), {r})
    case GoogleLoginStarts(pid, r) =>
      var p := s.processes[pid];
      var l := LookupOf(cfg.sha, r);
      Plan(WriteExternal(l, TransactionFor(p.query, p.now)), ExpirePending(ExpireExternal(l, p.now + 600)), {r})
    case Expires(pid) => Plan(s.processes[pid].expire, Over, {})
    case GoogleCallback(_, state) =>
      var c := Claim(LookupOf(cfg.sha, state));
      var a := AnswerTo(redis, c);
      Plan(c, if a.Claimed? then CallbackClaimed(c.external, a.transaction) else Over, {})
    case CallbackCreates(pid, now, sr, hr) =>
      var user := UserOf(s, pid);
      var session := CommonSession(user, now, now, now + 28800);
      Plan(Create(LookupOf(cfg.sha, sr), session, LookupOf(cfg.sha, hr),
                  FirstHandoff(cfg, s.processes[pid].transaction, user, sr, now)), Over, {sr, hr})
    case ExchangeTypes(pid) =>
      var r := s.processes[pid].request;
      var c := TypeHandoff(LookupOf(cfg.sha, r.code));
      var a := AnswerTo(redis, c);
      Plan(c, if a.HandoffThere? then ExchangeTyped(r) else ExchangeAnswered(r, a), {})
    case ExchangeReads(pid) =>
      var r := s.processes[pid].request;
      var c := ReadLookup(LookupOf(cfg.sha, r.code));
      var a := AnswerTo(redis, c);
      Plan(c, if a.LookupRead? then ExchangeLookedUp(r, a.lookup) else ExchangeAnswered(r, a), {})
    case ExchangeRuns(pid) =>
      var p := s.processes[pid];
      var c := Exchange(LookupOf(cfg.sha, p.request.code), p.request.serviceId, Challenge(cfg.sha, p.request.verifier), p.lookup);
      Plan(c, ExchangeAnswered(p.request, AnswerTo(redis, c)), {})
    case LogoutGet(_, service, uri, r, csrf, now) =>
      var l := LookupOf(cfg.sha, r);
      Plan(WriteLogout(l, CommonLogoutTransaction(service, uri, LookupOf(cfg.sha, csrf), now, now + 600, Unused)),
           ExpirePending(ExpireLogout(l, now + 600)), {r, csrf})
    case LogoutPost(_, r, cookie, csrf) =>
      Plan(CompleteLogout(LookupOf(cfg.sha, r), LookupOf(cfg.sha, cookie), LookupOf(cfg.sha, csrf)), Over, {})
    case RecordLost(_, f, l) => Plan(Lose(f, l), Over, {})
    case ClockSet(_, to) => Plan(Tick(to), Over, {})
  }

  /** Where the browser is sent with the code: the service, and the state that the service gave it. */
  datatype Location = Location(serviceId: string, code: string, state: string)

  function LocationOf(cfg: Config, s: World, e: Event): Location
    requires Enabled(cfg, s, e) && (e.LoginIssues? || e.CallbackCreates?)
  {
    if e.LoginIssues? then Location(s.processes[e.pid].query.serviceId, e.reference, s.processes[e.pid].query.state)
    else Location(s.processes[e.pid].transaction.serviceId, e.handoff, s.processes[e.pid].transaction.serviceState)
  }

  function Execute(s: World, pid: nat, p: Plan): World {
    s.(log := Record(s.log, p.command),
       commands := s.commands + [p.command],
       references := s.references + p.drawn,
       processes := s.processes[pid := p.next],
       consumed := if p.command.Create? && Succeeds(s.log.state, p.command) && pid in s.processes && s.processes[pid].CallbackClaimed?
                   then s.consumed + {s.processes[pid].external} else s.consumed)
  }

  // ----- the portal's steps -----

  /** What the callback posts to the exchange endpoint. */
  function RequestFor(cfg: Config, start: P.LoginStart, code: string): ExchangeRequest {
    ExchangeRequest(code, cfg.portalService, start.codeVerifier)
  }

  function DoPortalLogin(cfg: Config, s: World, e: Event): World
    requires e.PortalLogin?
  {
    var step := P.Apply(cfg.sha, cfg.limits, s.portal, P.CreateStart("/", e.now, e.state, e.browserContext, e.verifier));
    var t := s.(portal := step.contents, references := s.references + {e.state, e.browserContext, e.verifier});
    if step.outcome.Started? && e.state in step.contents.starts
    then t.(started := s.started[e.verifier := step.contents.starts[e.state]]) else t
  }

  function DoPortalCallback(cfg: Config, s: World, e: Event): World
    requires e.PortalCallback?
  {
    var step := P.Apply(cfg.sha, cfg.limits, s.portal, P.ClaimStart(e.state, e.browserContext, e.now));
    if step.outcome.StartClaimed? then
      var start := step.outcome.start;
      s.(portal := step.contents, claimed := s.claimed + {start.codeVerifier},
         processes := s.processes[e.pid := PortalWaiting(start, e.code, e.exchange)]
                                 [e.exchange := ExchangeStarted(RequestFor(cfg, start, e.code))])
    else s.(portal := step.contents)
  }

  function DoPortalReceives(cfg: Config, s: World, e: Event): World
    requires e.PortalReceives? && Enabled(cfg, s, e)
  {
    var answer := s.processes[s.processes[e.pid].exchange].answer;
    var verifier := s.processes[e.pid].start.codeVerifier;
    var step := P.Apply(cfg.sha, cfg.limits, s.portal,
                        P.CreateSession(answer.internalUserId, answer.authenticatedAt, e.now, e.reference, e.csrf));
    var t := s.(portal := step.contents, references := s.references + {e.reference, e.csrf},
                processes := s.processes[e.pid := Over]);
    if step.outcome.SessionMade? then
      t.(made := s.made[verifier := Made(e.reference, s.processes[e.pid].code, answer.internalUserId, answer.authenticatedAt)],
         owner := s.owner[e.reference := verifier])
    else t
  }

  function Do(cfg: Config, s: World, e: Event): World
    requires Enabled(cfg, s, e)
  {
    if Foundational(e) then Execute(s, e.pid, PlanOf(cfg, s, e)) else
    match e
    case LoginWithoutSession(pid, q, now) => s.(processes := s.processes[pid := LoginGoogle(q, now)])
    case ExchangeArrives(pid, r) => s.(processes := s.processes[pid := ExchangeStarted(r)])
    case Dies(pid) => s.(processes := s.processes[pid := Over])
    case LoginChecks(pid) => s.(processes := s.processes[pid := AfterCheck(s.identity, s.processes[pid])])
    case Resolution(op) => s.(identity := I.Apply(s.identity, op))
    case PortalLogin(_, _, _, _) => DoPortalLogin(cfg, s, e)
    case PortalCallback(_, _, _, _, _, _) => DoPortalCallback(cfg, s, e)
    case PortalReceives(_, _, _, _) => DoPortalReceives(cfg, s, e)
    case PortalUses(op) => s.(portal := P.Apply(cfg.sha, cfg.limits, s.portal, op).contents)
  }

  const INITIAL: World := World(START, [], {}, map[], {}, I.EMPTY, P.Contents(map[], map[]), map[], {}, map[], map[])

  /** A run: the states that the events lead through. */
  ghost predicate IsRun(cfg: Config, ss: seq<World>, es: seq<Event>) {
    && |ss| == |es| + 1 && ss[0] == INITIAL
    && (forall i | 0 <= i < |es| :: Enabled(cfg, ss[i], es[i]) && ss[i + 1] == Do(cfg, ss[i], es[i]))
  }

  /** A run in which no two generated references have the same digest. */
  ghost predicate CollisionFreeRun(cfg: Config, ss: seq<World>, es: seq<Event>) {
    IsRun(cfg, ss, es) && CollisionFree(cfg.sha, ss[|es|].references)
  }
}
