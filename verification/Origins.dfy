/** Where portal sessions come from: agreement between the portal, the foundation and the identity tables. */
module Origins {
  import opened Common
  import opened Decimal
  import opened References
  import opened Records
  import opened Answers
  import opened Protocol
  import opened Runs
  import opened RunTheorems
  import opened RunRefinement
  import opened System
  import opened Agreement
  import opened EndToEnd
  import opened History
  import P = Portal
  import I = Identity

  // ----- the events behind what a state shows -----

  /** The callback for `m` is answered with a user, and opens the portal session `m.reference`. */
  predicate MakesSession(cfg: Config, s: World, e: Event, verifier: string, m: Made) {
    && OpensSession(cfg, s, e) && e.reference == m.reference
    && s.processes[e.pid].start.codeVerifier == verifier && s.processes[e.pid].code == m.code
    && AnswerFor(s, e.pid) == Exchanged(m.internalUserId, m.authenticatedAt)
  }

  predicate IssuesHandoff(cfg: Config, s: World, e: Event, h: string, r: AuthenticationHandoff) {
    && SucceedsAt(cfg, s, e) && (e.LoginIssues? || e.CallbackCreates?)
    && PlanOf(cfg, s, e).command.handoff == h && PlanOf(cfg, s, e).command.record == r
  }

  predicate CreatesSession(cfg: Config, s: World, e: Event, l: string, r: CommonSession) {
    && SucceedsAt(cfg, s, e) && e.CallbackCreates?
    && PlanOf(cfg, s, e).command.session == l && PlanOf(cfg, s, e).command.sessionRecord == r
    && HasUser(s, e.pid) && r.internalUserId == UserOf(s, e.pid) && r.authenticatedAt == e.now
  }

  lemma MadeStep(cfg: Config, s: World, e: Event, v: string)
    requires Enabled(cfg, s, e) && v in Do(cfg, s, e).made
    ensures var m := Do(cfg, s, e).made[v]; (v in s.made && m == s.made[v]) || MakesSession(cfg, s, e, v, m)
  {
    hide Do, PlanOf, Record, StartsLogin, ClaimsLogin, OpensSession, RequestFor, New;
    EventEffect(cfg, s, e);
  }

  lemma RecordedIssue(g: Log, c: Command, h: string)
    requires h in Record(g, c).issued
    ensures (h in g.issued && g.issued[h] == Record(g, c).issued[h])
            || ((c.Issue? || c.Create?) && c.handoff == h && c.record == Record(g, c).issued[h] && Succeeds(g.state, c))
  {
    hide Succeeds, Next, Introduces;
  }

  lemma RecordedCreation(g: Log, c: Command, l: string)
    requires l in Record(g, c).created
    ensures (l in g.created && g.created[l] == Record(g, c).created[l])
            || (c.Create? && c.session == l && c.sessionRecord == Record(g, c).created[l] && Succeeds(g.state, c))
  {
    hide Succeeds, Next, Introduces;
  }

  lemma IssuedStep(cfg: Config, s: World, e: Event, h: string)
    requires ProcessesOk(cfg, s) && Enabled(cfg, s, e) && h in Do(cfg, s, e).log.issued
    ensures var r := Do(cfg, s, e).log.issued[h];
            (h in s.log.issued && s.log.issued[h] == r) || IssuesHandoff(cfg, s, e, h, r)
  {
    hide PlanOf, Record, Do, Enabled, Succeeds, ProcessesOk, LookupOf;
    LogStep(cfg, s, e);
    if Foundational(e) {
      CommandOf(cfg, s, e);
      RecordedIssue(s.log, PlanOf(cfg, s, e).command, h);
    }
  }

  lemma CreatedStep(cfg: Config, s: World, e: Event, l: string)
    requires ProcessesOk(cfg, s) && Enabled(cfg, s, e) && l in Do(cfg, s, e).log.created
    ensures var r := Do(cfg, s, e).log.created[l];
            (l in s.log.created && s.log.created[l] == r) || CreatesSession(cfg, s, e, l, r)
  {
    hide PlanOf, Record, Do, Enabled, Succeeds, ProcessesOk, LookupOf, HasUser;
    LogStep(cfg, s, e);
    if Foundational(e) {
      CommandOf(cfg, s, e);
      RecordedCreation(s.log, PlanOf(cfg, s, e).command, l);
    }
  }

  lemma {:induction false} MadeBy(cfg: Config, ss: seq<World>, es: seq<Event>, n: nat, v: string) returns (i: nat)
    requires IsRun(cfg, ss, es) && n <= |es| && v in ss[n].made
    ensures i < n && MakesSession(cfg, ss[i], es[i], v, ss[n].made[v])
    decreases n
  {
    hide Do, Enabled, MakesSession;
    MadeStep(cfg, ss[n - 1], es[n - 1], v);
    if MakesSession(cfg, ss[n - 1], es[n - 1], v, ss[n].made[v]) {
      return n - 1;
    }
    i := MadeBy(cfg, ss, es, n - 1, v);
  }

  lemma {:induction false} IssuedBy(cfg: Config, ss: seq<World>, es: seq<Event>, n: nat, h: string) returns (i: nat)
    requires CollisionFreeRun(cfg, ss, es) && n <= |es| && h in ss[n].log.issued
    ensures i < n && IssuesHandoff(cfg, ss[i], es[i], h, ss[n].log.issued[h])
    decreases n
  {
    hide Do, Enabled, IssuesHandoff, CollisionFree, RedisOk, ProcessesOk, StartsOk, WaitingOk, RequestsOk, MadeOk, SessionsOk;
    RunKeepsInv(cfg, ss, es, n - 1);
    IssuedStep(cfg, ss[n - 1], es[n - 1], h);
    if IssuesHandoff(cfg, ss[n - 1], es[n - 1], h, ss[n].log.issued[h]) {
      return n - 1;
    }
    i := IssuedBy(cfg, ss, es, n - 1, h);
  }

  lemma {:induction false} CreatedBy(cfg: Config, ss: seq<World>, es: seq<Event>, n: nat, l: string) returns (i: nat)
    requires CollisionFreeRun(cfg, ss, es) && n <= |es| && l in ss[n].log.created
    ensures i < n && CreatesSession(cfg, ss[i], es[i], l, ss[n].log.created[l])
    decreases n
  {
    hide Do, Enabled, CreatesSession, CollisionFree, RedisOk, ProcessesOk, StartsOk, WaitingOk, RequestsOk, MadeOk, SessionsOk;
    RunKeepsInv(cfg, ss, es, n - 1);
    CreatedStep(cfg, ss[n - 1], es[n - 1], l);
    if CreatesSession(cfg, ss[n - 1], es[n - 1], l, ss[n].log.created[l]) {
      return n - 1;
    }
    i := CreatedBy(cfg, ss, es, n - 1, l);
  }

  // ----- identities -----

  lemma IdentityStep(cfg: Config, s: World, e: Event)
    requires Enabled(cfg, s, e)
    ensures e.Resolution? ==> I.Enabled(s.identity, e.statement)
    ensures Do(cfg, s, e).identity == if e.Resolution? then I.Apply(s.identity, e.statement) else s.identity
  {
    hide Do, PlanOf, Record, StartsLogin, ClaimsLogin, OpensSession, RequestFor, New, I.Apply, I.Enabled;
    EventEffect(cfg, s, e);
  }

  lemma {:induction false} IdentityInv(cfg: Config, ss: seq<World>, es: seq<Event>, n: nat)
    requires IsRun(cfg, ss, es) && n <= |es|
    ensures I.Inv(ss[n].identity)
    decreases n
  {
    hide Do, Enabled, I.Inv, I.Enabled, I.Apply;
    if n == 0 {
      I.EmptyInv();
    } else {
      IdentityInv(cfg, ss, es, n - 1);
      IdentityStep(cfg, ss[n - 1], es[n - 1]);
      if es[n - 1].Resolution? {
        I.StepKeepsInv(ss[n - 1].identity, es[n - 1].statement);
      }
    }
  }

  lemma {:induction false} IdentityStaysKnown(cfg: Config, ss: seq<World>, es: seq<Event>, m: nat, n: nat, w: I.Identifier)
    requires IsRun(cfg, ss, es) && m <= n <= |es| && w in ss[m].identity.identities
    ensures w in ss[n].identity.identities && ss[n].identity.identities[w] == ss[m].identity.identities[w]
    decreases n
  {
    hide Do, Enabled, I.Inv, I.Enabled, I.Apply;
    if m < n {
      IdentityStaysKnown(cfg, ss, es, m, n - 1, w);
      IdentityInv(cfg, ss, es, n - 1);
      IdentityStep(cfg, ss[n - 1], es[n - 1]);
      if es[n - 1].Resolution? {
        I.IdentityStays(ss[n - 1].identity, es[n - 1].statement, w);
      }
    }
  }

  /** A resolution was begun by the request, with the identity that Google gave. */
  lemma {:induction false} ArrivedBy(cfg: Config, ss: seq<World>, es: seq<Event>, n: nat, p: nat) returns (i: nat)
    requires IsRun(cfg, ss, es) && n <= |es| && p in ss[n].identity.resolvers
    ensures i < n && es[i] == Resolution(I.Arrive(p, ss[n].identity.resolvers[p].who))
    decreases n
  {
    hide Do, Enabled, I.Enabled, I.Apply;
    IdentityStep(cfg, ss[n - 1], es[n - 1]);
    if es[n - 1].Resolution? {
      I.ResolverKeepsIdentity(ss[n - 1].identity, es[n - 1].statement, p);
      if es[n - 1].statement == I.Arrive(p, ss[n].identity.resolvers[p].who) {
        return n - 1;
      }
    }
    i := ArrivedBy(cfg, ss, es, n - 1, p);
  }

  /** In every run, two requests that were given a user were given the same one exactly for the same Google subject. */
  lemma UsersAreSubjects(cfg: Config, ss: seq<World>, es: seq<Event>, m: nat, n: nat, p: nat, q: nat)
    requires IsRun(cfg, ss, es) && m <= n <= |es| && HasUser(ss[m], p) && HasUser(ss[n], q)
    ensures UserOf(ss[m], p) == UserOf(ss[n], q) <==> ss[m].identity.resolvers[p].who == ss[n].identity.resolvers[q].who
  {
    hide Do, Enabled;
    IdentityInv(cfg, ss, es, m);
    IdentityInv(cfg, ss, es, n);
    IdentityStaysKnown(cfg, ss, es, m, n, ss[m].identity.resolvers[p].who);
  }

  // ----- origins -----

  /** The events behind a portal session, and what passed between them. */
  datatype Origin = Origin(
    loginStart: P.LoginStart, code: string, transaction: ExternalAuthTransaction, subject: I.Identifier,
    session: CommonSession, handoff: AuthenticationHandoff,
    start: nat, claim: nat, request: nat, google: nat, arrival: nat, authentication: nat, issue: nat, exchange: nat, receive: nat)

  /**
    The external transaction behind an authentication: a login at the foundation wrote it, and Google's
    callback, the request that goes on to authenticate, claimed it.
  */
  ghost predicate TransactionPart(cfg: Config, ss: seq<World>, es: seq<Event>, pid: nat, o: Origin)
    requires |ss| == |es| + 1 && o.authentication < |es|
  {
    && o.request < o.google < o.authentication
    && pid in ss[o.authentication].processes && ss[o.authentication].processes[pid].CallbackClaimed?
    && var p := ss[o.authentication].processes[pid];
    && p.transaction == o.transaction.(status := Processing)
    && WritesTransaction(cfg, ss[o.request], es[o.request], p.external, o.transaction)
    && ClaimsTransaction(cfg, ss[o.google], es[o.google], pid, p.external, p.transaction)
  }

  /** The foundation's part: who authenticated, and for what the handoff was issued and spent. */
  ghost predicate FoundationPart(cfg: Config, ss: seq<World>, es: seq<Event>, user: i32, at: u64, o: Origin)
    requires |ss| == |es| + 1 && o.exchange < |es|
  {
    && o.google < o.arrival < o.authentication <= o.issue < o.exchange
    && CreatesSession(cfg, ss[o.authentication], es[o.authentication], o.handoff.commonSessionLookup, o.session)
    && o.session.internalUserId == user && o.session.authenticatedAt == at
    && ss[o.authentication].identity.resolvers[es[o.authentication].pid].who == o.subject
    && es[o.arrival] == Resolution(I.Arrive(es[o.authentication].pid, o.subject))
    && TransactionPart(cfg, ss, es, es[o.authentication].pid, o)
    && (o.authentication == o.issue ==>
          o.handoff.serviceId == o.transaction.serviceId && o.handoff.codeChallenge == o.transaction.handoffCodeChallenge)
    && IssuesHandoff(cfg, ss[o.issue], es[o.issue], LookupOf(cfg.sha, o.code), o.handoff)
    && o.handoff.serviceId == cfg.portalService && o.handoff.codeChallenge == Challenge(cfg.sha, o.loginStart.codeVerifier)
    && o.handoff.internalUserId == user && o.handoff.authenticatedAt == at
  }

  /**
    Behind the portal session `k`: a login at the portal made a login start; a callback with its
    state, from the browser of that login, claimed it before it expired and asked for an exchange of
    its code; a login at the foundation wrote an external transaction, which Google's callback claimed;
    Google named a subject to that callback, which resolved it to a user and created a common session;
    from that session the foundation issued, under that code, a handoff to the portal's service for the
    challenge of that login start's verifier, which for the first handoff of the session are those of
    the transaction; the portal callback's own exchange spent it; and it was answered with the user and
    time that the portal session carries.
  */
  ghost predicate IsOrigin(cfg: Config, ss: seq<World>, es: seq<Event>, k: string, session: P.LocalSession, o: Origin)
    requires |ss| == |es| + 1
  {
    var user, at, v := session.internalUserId, session.authenticatedAt, o.loginStart.codeVerifier;
    && o.start < o.claim < o.exchange < o.receive < |es| && es[o.claim].PortalCallback? && es[o.receive].PortalReceives?
    && MakesStart(cfg, ss[o.start], es[o.start], es[o.claim].state, o.loginStart) && IsCodeVerifier(v)
    && BeginsWaiting(ss[o.claim], es[o.claim], es[o.receive].pid, PortalWaiting(o.loginStart, o.code, es[o.claim].exchange))
    && FoundationPart(cfg, ss, es, user, at, o)
    && Exchanges(cfg, ss[o.exchange], es[o.exchange], es[o.claim].exchange, RequestFor(cfg, o.loginStart, o.code), user, at)
    && MakesSession(cfg, ss[o.receive], es[o.receive], v, Made(k, o.code, user, at))
  }

  lemma SessionFacts(cfg: Config, s: World, k: string)
    requires Inv(cfg, s) && k in s.portal.sessions
    ensures k in s.owner && s.owner[k] in s.made && s.made[s.owner[k]].reference == k
    ensures var m := s.made[s.owner[k]];
            s.portal.sessions[k].internalUserId == m.internalUserId && s.portal.sessions[k].authenticatedAt == m.authenticatedAt
  {
    hide RedisOk, ProcessesOk, StartsOk, WaitingOk, RequestsOk, MadeOk;
  }

  lemma FixedIsVerifier(r: string)
    requires IsFixedReference(r)
    ensures IsCodeVerifier(r)
  {
    forall i | 0 <= i < |r|
      ensures IsBase64UrlChar(r[i])
    {
    }
  }

  /** A claim takes a login start that some earlier login made, under the same state. */
  lemma ClaimFollowsStart(cfg: Config, ss: seq<World>, es: seq<Event>, claim: nat, pid: nat, p: Process) returns (start: nat)
    requires IsRun(cfg, ss, es) && claim < |es| && p.PortalWaiting? && BeginsWaiting(ss[claim], es[claim], pid, p)
    ensures start < claim && MakesStart(cfg, ss[start], es[start], es[claim].state, p.start) && IsCodeVerifier(p.start.codeVerifier)
  {
    hide Do, Enabled, IsFixedReference, IsCodeVerifier, P.ClaimStartStep;
    start := StoredBy(cfg, ss, es, claim, es[claim].state);
    VerifierIsFixed(cfg, ss[start], es[start]);
    FixedIsVerifier(p.start.codeVerifier);
  }

  lemma VerifierIsFixed(cfg: Config, s: World, e: Event)
    requires Enabled(cfg, s, e) && e.PortalLogin?
    ensures IsFixedReference(e.verifier)
  {
    hide IsFixedReference;
  }

  /** The exchange of a callback comes after its claim. */
  lemma ExchangeFollowsClaim(cfg: Config, ss: seq<World>, es: seq<Event>, claim: nat, exchange: nat, pid: nat, p: Process)
    requires IsRun(cfg, ss, es) && claim < |es| && exchange < |es| && p.PortalWaiting?
    requires BeginsWaiting(ss[claim], es[claim], pid, p) && es[exchange] == ExchangeRuns(p.exchange) && Enabled(cfg, ss[exchange], es[exchange])
    ensures claim < exchange
  {
    hide Do, ClaimsLogin;
    if exchange <= claim {
      ProcessesStay(cfg, ss, es, exchange, claim);
    }
  }

  /** A success of issuing finds the session it is for, and a success of creating makes it. */
  lemma IssueSucceeds(s: State, c: Command)
    requires (c.Issue? || c.Create?) && Succeeds(s, c)
    ensures SessionFor(s.store, c).Some? && Fits(c.record, c.session, SessionFor(s.store, c).value)
  {
    CreatingMoves(s, c);
  }

  /** Behind an issued handoff there is an authentication, of its user and at its time. */
  lemma AuthenticationBehind(cfg: Config, ss: seq<World>, es: seq<Event>, issue: nat, h: string, r: AuthenticationHandoff)
    returns (authentication: nat, record: CommonSession)
    requires CollisionFreeRun(cfg, ss, es) && issue < |es| && IssuesHandoff(cfg, ss[issue], es[issue], h, r)
    ensures authentication <= issue
    ensures CreatesSession(cfg, ss[authentication], es[authentication], r.commonSessionLookup, record)
    ensures record.internalUserId == r.internalUserId && record.authenticatedAt == r.authenticatedAt
  {
    hide Do, Enabled, PlanOf, CollisionFree, RedisOk, ProcessesOk, StartsOk, WaitingOk, RequestsOk, MadeOk, SessionsOk,
         IssuesHandoff, CreatesSession;
    RunKeepsInv(cfg, ss, es, issue);
    var l;
    l, record := IssuingFinds(cfg, ss[issue], es[issue], h, r);
    if CreatesSession(cfg, ss[issue], es[issue], l, record) {
      return issue, record;
    }
    authentication := CreatedBy(cfg, ss, es, issue, l);
  }

  /** A handoff is issued with the session it names, or for one created before. */
  lemma IssuingFinds(cfg: Config, s: World, e: Event, h: string, r: AuthenticationHandoff) returns (l: string, record: CommonSession)
    requires RedisOk(cfg, s) && ProcessesOk(cfg, s) && IssuesHandoff(cfg, s, e, h, r)
    ensures l == r.commonSessionLookup && record.internalUserId == r.internalUserId && record.authenticatedAt == r.authenticatedAt
    ensures CreatesSession(cfg, s, e, l, record) || (l in s.log.created && s.log.created[l] == record)
  {
    hide Enabled, PlanOf, Succeeds, RedisOk, ProcessesOk, LookupOf, HasUser;
    var c := PlanOf(cfg, s, e).command;
    CommandOf(cfg, s, e);
    IssueSucceeds(s.log.state, c);
    l, record := c.session, SessionFor(s.log.state.store, c).value;
    if c.Issue? {
      StoredIsCreated(cfg, s, l);
    }
  }

  lemma StoredIsCreated(cfg: Config, s: World, l: string)
    requires RedisOk(cfg, s) && l in s.log.state.store.sessions
    ensures l in s.log.created && s.log.state.store.sessions[l] == s.log.created[l]
  {
    hide LogOf, Sendable, TimesKept, Lookups, ExternalsAsWritten, HandoffsAsIssued, IssuedForCreated;
  }

  /** What a successful exchange was for. */
  lemma ExchangeFacts(cfg: Config, s: World, e: Event, pid: nat, r: ExchangeRequest, user: i32, at: u64)
    requires RedisOk(cfg, s) && Exchanges(cfg, s, e, pid, r, user, at)
    ensures var h, g := LookupOf(cfg.sha, r.code), s.log;
            && h in g.issued && g.issued[h].serviceId == r.serviceId && g.issued[h].codeChallenge == Challenge(cfg.sha, r.verifier)
            && g.issued[h].internalUserId == user && g.issued[h].authenticatedAt == at
  {
    hide LogOf, Sendable, TimesKept, Lookups, Coherent, Succeeds, AnswerTo, LookupOf, Challenge;
    CoherentExchange(s.log, PlanOf(cfg, s, e).command);
  }

  lemma FoundationBehind(cfg: Config, ss: seq<World>, es: seq<Event>, exchange: nat, pid: nat, start: P.LoginStart, code: string, user: i32, at: u64)
    returns (o: Origin)
    requires CollisionFreeRun(cfg, ss, es) && exchange < |es|
    requires Exchanges(cfg, ss[exchange], es[exchange], pid, RequestFor(cfg, start, code), user, at)
    ensures o.exchange == exchange && o.loginStart == start && o.code == code && FoundationPart(cfg, ss, es, user, at, o)
  {
    hide Do, Enabled, PlanOf, CollisionFree, RedisOk, ProcessesOk, StartsOk, WaitingOk, RequestsOk, MadeOk, SessionsOk,
         LookupOf, Challenge, IssuesHandoff, Exchanges, SucceedsAt;
    RunKeepsInv(cfg, ss, es, exchange);
    ExchangeFacts(cfg, ss[exchange], es[exchange], pid, RequestFor(cfg, start, code), user, at);
    var h := LookupOf(cfg.sha, code);
    var r := ss[exchange].log.issued[h];
    var issue := IssuedBy(cfg, ss, es, exchange, h);
    var authentication, record := AuthenticationBehind(cfg, ss, es, issue, h, r);
    var request := es[authentication].pid;
    var subject := ss[authentication].identity.resolvers[request].who;
    var arrival := ArrivedBy(cfg, ss, es, authentication, request);
    var login, google, transaction := TransactionBehind(cfg, ss, es, authentication, r.commonSessionLookup, record);
    ArrivalFollowsClaim(cfg, ss, es, google, arrival, request, subject);
    if authentication == issue {
      FirstHandoffTerms(cfg, ss[issue], es[issue], h, r);
    }
    o := Origin(start, code, transaction, subject, record, r, 0, 0, login, google, arrival, authentication, issue, exchange, 0);
  }

  lemma TransactionBehind(cfg: Config, ss: seq<World>, es: seq<Event>, n: nat, l: string, record: CommonSession)
    returns (login: nat, google: nat, transaction: ExternalAuthTransaction)
    requires CollisionFreeRun(cfg, ss, es) && n < |es| && CreatesSession(cfg, ss[n], es[n], l, record)
    ensures login < google < n && es[n].pid in ss[n].processes && ss[n].processes[es[n].pid].CallbackClaimed?
    ensures var p := ss[n].processes[es[n].pid];
            && p.transaction == transaction.(status := Processing)
            && WritesTransaction(cfg, ss[login], es[login], p.external, transaction)
            && ClaimsTransaction(cfg, ss[google], es[google], es[n].pid, p.external, p.transaction)
  {
    hide Do, Enabled, PlanOf, CollisionFree, ProcessesOk, StartsOk, WaitingOk, RequestsOk, MadeOk, SessionsOk, WritesTransaction,
         LookupOf, AnswerTo, Succeeds, RedisOk;
    CreatorIsClaimed(cfg, ss[n], es[n]);
    var p := ss[n].processes[es[n].pid];
    google := ClaimedProcessBy(cfg, ss, es, n, es[n].pid);
    RunKeepsInv(cfg, ss, es, google);
    RedisIsCoherent(cfg, ss[google]);
    ClaimFinds(ss[google].log, p.external, p.transaction);
    login := WrittenBy(cfg, ss, es, google, p.external);
    transaction := ss[google].log.written[p.external];
  }

  lemma RedisIsCoherent(cfg: Config, s: World)
    requires RedisOk(cfg, s)
    ensures Coherent(s.log)
  {
    hide LogOf, Sendable, Coherent, TimesKept, Lookups;
  }

  lemma CreatorIsClaimed(cfg: Config, s: World, e: Event)
    requires Enabled(cfg, s, e) && e.CallbackCreates?
    ensures e.pid in s.processes && s.processes[e.pid].CallbackClaimed?
  {
    hide New;
  }

  /** Google names the subject to the request after it has claimed its transaction. */
  lemma ArrivalFollowsClaim(cfg: Config, ss: seq<World>, es: seq<Event>, google: nat, arrival: nat, pid: nat, who: I.Identifier)
    requires IsRun(cfg, ss, es) && google < |es| && arrival < |es|
    requires pid !in ss[google].processes && es[arrival] == Resolution(I.Arrive(pid, who))
    ensures google < arrival
  {
    hide Do, I.Enabled;
    assert Enabled(cfg, ss[arrival], es[arrival]);
    if arrival <= google {
      ProcessesStay(cfg, ss, es, arrival, google);
    }
  }

  /** The first handoff of a session has the terms of the transaction. */
  lemma FirstHandoffTerms(cfg: Config, s: World, e: Event, h: string, r: AuthenticationHandoff)
    requires IssuesHandoff(cfg, s, e, h, r) && e.CallbackCreates?
    ensures e.pid in s.processes && s.processes[e.pid].CallbackClaimed?
    ensures r.serviceId == s.processes[e.pid].transaction.serviceId
    ensures r.codeChallenge == s.processes[e.pid].transaction.handoffCodeChallenge
  {
    hide New, LookupOf, Succeeds;
  }

  /** Agreement: in every run, every portal session has an origin. */
  lemma PortalSessionOrigin(cfg: Config, ss: seq<World>, es: seq<Event>, n: nat, k: string) returns (o: Origin)
    requires CollisionFreeRun(cfg, ss, es) && n <= |es| && k in ss[n].portal.sessions
    ensures IsOrigin(cfg, ss, es, k, ss[n].portal.sessions[k], o) && o.receive < n
  {
    hide Do, Enabled, PlanOf, CollisionFree, Inv, MakesSession, FoundationPart, MakesStart, Exchanges, IsCodeVerifier, BeginsWaiting;
    RunKeepsInv(cfg, ss, es, n);
    SessionFacts(cfg, ss[n], k);
    var v := ss[n].owner[k];
    var m := ss[n].made[v];
    var receive := MadeBy(cfg, ss, es, n, v);
    var p, exchange := ReceiverFacts(cfg, ss, es, receive, v, m);
    var claim := WaitingBy(cfg, ss, es, receive, es[receive].pid);
    ExchangeFollowsClaim'(cfg, ss, es, claim, exchange, es[receive].pid, p, m.internalUserId, m.authenticatedAt);
    var start := ClaimFollowsStart(cfg, ss, es, claim, es[receive].pid, p);
    var f := FoundationBehind(cfg, ss, es, exchange, p.exchange, p.start, p.code, m.internalUserId, m.authenticatedAt);
    o := f.(start := start, claim := claim, receive := receive);
    SameFoundation(cfg, ss, es, m.internalUserId, m.authenticatedAt, f, o);
  }

  lemma SameFoundation(cfg: Config, ss: seq<World>, es: seq<Event>, user: i32, at: u64, f: Origin, o: Origin)
    requires |ss| == |es| + 1 && f.exchange < |es| && FoundationPart(cfg, ss, es, user, at, f)
    requires o == f.(start := o.start, claim := o.claim, receive := o.receive)
    ensures FoundationPart(cfg, ss, es, user, at, o)
  {
    hide IssuesHandoff, PlanOf, Enabled, LookupOf, Challenge, SucceedsAt;
  }

  lemma ExchangeFollowsClaim'(cfg: Config, ss: seq<World>, es: seq<Event>, claim: nat, exchange: nat, pid: nat, p: Process, user: i32, at: u64)
    requires IsRun(cfg, ss, es) && claim < |es| && exchange < |es| && p.PortalWaiting?
    requires BeginsWaiting(ss[claim], es[claim], pid, p)
    requires Exchanges(cfg, ss[exchange], es[exchange], p.exchange, RequestFor(cfg, p.start, p.code), user, at)
    ensures claim < exchange && es[claim].PortalCallback? && p == PortalWaiting(p.start, p.code, es[claim].exchange)
  {
    hide Do, Enabled, PlanOf, AnswerTo, Succeeds, RequestFor;
    ExchangeFollowsClaim(cfg, ss, es, claim, exchange, pid, p);
  }

  /** The callback that opens a session was waiting for its own exchange, and the script had answered that. */
  lemma ReceiverFacts(cfg: Config, ss: seq<World>, es: seq<Event>, i: nat, v: string, m: Made) returns (p: Process, exchange: nat)
    requires CollisionFreeRun(cfg, ss, es) && i < |es| && MakesSession(cfg, ss[i], es[i], v, m)
    ensures es[i].PortalReceives? && es[i].pid in ss[i].processes && p == ss[i].processes[es[i].pid] && p.PortalWaiting?
    ensures p.start.codeVerifier == v && p.code == m.code
    ensures exchange < i
    ensures Exchanges(cfg, ss[exchange], es[exchange], p.exchange, RequestFor(cfg, p.start, p.code), m.internalUserId, m.authenticatedAt)
  {
    hide Do, PlanOf, CollisionFree, RedisOk, StartsOk, WaitingOk, MadeOk, SessionsOk, Exchanges, RequestFor, New, ProcessesOk, RequestsOk, Genuine,
         P.CreateSessionStep;
    RunKeepsInv(cfg, ss, es, i);
    p := ss[i].processes[es[i].pid];
    AnswerIsGenuine(cfg, ss[i], es[i].pid);
    exchange := AnsweredBy(cfg, ss, es, i, p.exchange);
  }

  // ----- one to one -----

  /** What a portal session was made from stays on record. */
  lemma MadeStays(cfg: Config, s: World, e: Event, v: string)
    requires WaitingOk(s) && Enabled(cfg, s, e) && v in s.made
    ensures v in Do(cfg, s, e).made && Do(cfg, s, e).made[v] == s.made[v]
  {
    hide Do, PlanOf, Record, StartsLogin, ClaimsLogin, OpensSession, RequestFor, New;
    EventEffect(cfg, s, e);
    if e.PortalReceives? {
      assert s.processes[e.pid].start.codeVerifier !in s.made;
    }
  }

  lemma SessionIsRecorded(cfg: Config, s: World, e: Event, v: string, m: Made)
    requires MakesSession(cfg, s, e, v, m)
    ensures Enabled(cfg, s, e) && v in Do(cfg, s, e).made && Do(cfg, s, e).made[v] == m
  {
    hide Do, P.CreateSessionStep, New;
    ReceiveEffect(cfg, s, e);
  }

  lemma {:induction false} MadeOnce(cfg: Config, ss: seq<World>, es: seq<Event>, i: nat, n: nat, v: string, m: Made)
    requires CollisionFreeRun(cfg, ss, es) && i < n <= |es| && MakesSession(cfg, ss[i], es[i], v, m)
    ensures v in ss[n].made && ss[n].made[v] == m
    decreases n
  {
    hide Do, Enabled, MakesSession, CollisionFree, RedisOk, ProcessesOk, StartsOk, WaitingOk, RequestsOk, MadeOk, SessionsOk;
    if n == i + 1 {
      SessionIsRecorded(cfg, ss[i], es[i], v, m);
    } else {
      MadeOnce(cfg, ss, es, i, n - 1, v, m);
      RunKeepsInv(cfg, ss, es, n - 1);
      MadeStays(cfg, ss[n - 1], es[n - 1], v);
    }
  }

  lemma OneSessionPerVerifier(cfg: Config, ss: seq<World>, es: seq<Event>, i: nat, i': nat, v: string, m: Made, m': Made)
    requires CollisionFreeRun(cfg, ss, es) && i < |es| && i' < |es|
    requires MakesSession(cfg, ss[i], es[i], v, m) && MakesSession(cfg, ss[i'], es[i'], v, m')
    ensures m == m'
  {
    hide Do, Enabled, MakesSession, CollisionFree;
    MadeOnce(cfg, ss, es, i, |es|, v, m);
    MadeOnce(cfg, ss, es, i', |es|, v, m');
  }

  lemma OneHandoffPerEvent(cfg: Config, s: World, e: Event, h: string, h': string, r: AuthenticationHandoff, r': AuthenticationHandoff)
    requires IssuesHandoff(cfg, s, e, h, r) && IssuesHandoff(cfg, s, e, h', r')
    ensures h == h' && r == r'
  {
    hide Enabled, PlanOf, Succeeds;
  }

  lemma OneSessionPerEvent(cfg: Config, s: World, e: Event, v: string, v': string, m: Made, m': Made)
    requires MakesSession(cfg, s, e, v, m) && MakesSession(cfg, s, e, v', m')
    ensures m.reference == m'.reference
  {
    hide P.CreateSessionStep, Enabled;
  }

  /** Verifiers are generated references. */
  lemma VerifierIsGenerated(cfg: Config, ss: seq<World>, es: seq<Event>, i: nat)
    requires IsRun(cfg, ss, es) && i < |es| && es[i].PortalLogin?
    ensures es[i].verifier in ss[|es|].references
  {
    hide New, P.CreateStartStep;
    assert es[i].verifier in ss[i + 1].references;
    ReferencesStay(cfg, ss, es, i + 1, |es|);
  }

  lemma SameIssueSameVerifier(cfg: Config, ss: seq<World>, es: seq<Event>, o: Origin, o': Origin)
    requires CollisionFreeRun(cfg, ss, es) && o.start < |es| && o'.start < |es| && o.issue == o'.issue < |es|
    requires es[o.start].PortalLogin? && es[o.start].verifier == o.loginStart.codeVerifier
    requires es[o'.start].PortalLogin? && es[o'.start].verifier == o'.loginStart.codeVerifier
    requires IssuesHandoff(cfg, ss[o.issue], es[o.issue], LookupOf(cfg.sha, o.code), o.handoff)
    requires IssuesHandoff(cfg, ss[o.issue], es[o.issue], LookupOf(cfg.sha, o'.code), o'.handoff)
    requires o.handoff.codeChallenge == Challenge(cfg.sha, o.loginStart.codeVerifier)
    requires o'.handoff.codeChallenge == Challenge(cfg.sha, o'.loginStart.codeVerifier)
    ensures o.loginStart.codeVerifier == o'.loginStart.codeVerifier
  {
    hide Do, Enabled, PlanOf, IssuesHandoff, Challenge, LookupOf;
    OneHandoffPerEvent(cfg, ss[o.issue], es[o.issue], LookupOf(cfg.sha, o.code), LookupOf(cfg.sha, o'.code), o.handoff, o'.handoff);
    ChallengeInjective(cfg.sha, o.loginStart.codeVerifier, o'.loginStart.codeVerifier);
    VerifierIsGenerated(cfg, ss, es, o.start);
    VerifierIsGenerated(cfg, ss, es, o'.start);
  }

  lemma OneRequestPerExchange(cfg: Config, s: World, e: Event, p: nat, p': nat, r: ExchangeRequest, r': ExchangeRequest, user: i32, user': i32, at: u64, at': u64)
    requires Exchanges(cfg, s, e, p, r, user, at) && Exchanges(cfg, s, e, p', r', user', at')
    ensures r == r'
  {
    hide Enabled, PlanOf, AnswerTo, Succeeds;
  }

  lemma OriginFacts(cfg: Config, ss: seq<World>, es: seq<Event>, k: string, session: P.LocalSession, o: Origin)
    requires |ss| == |es| + 1 && IsOrigin(cfg, ss, es, k, session, o)
    ensures o.start < |es| && o.claim < |es| && o.issue < |es| && o.exchange < |es| && o.receive < |es|
    ensures es[o.start].PortalLogin? && es[o.start].verifier == o.loginStart.codeVerifier
    ensures es[o.claim].PortalCallback? && es[o.claim].state in ss[o.claim].portal.starts
            && ss[o.claim].portal.starts[es[o.claim].state] == o.loginStart
    ensures IssuesHandoff(cfg, ss[o.issue], es[o.issue], LookupOf(cfg.sha, o.code), o.handoff)
    ensures o.handoff.codeChallenge == Challenge(cfg.sha, o.loginStart.codeVerifier)
    ensures Exchanges(cfg, ss[o.exchange], es[o.exchange], es[o.claim].exchange, RequestFor(cfg, o.loginStart, o.code),
                      session.internalUserId, session.authenticatedAt)
    ensures MakesSession(cfg, ss[o.receive], es[o.receive], o.loginStart.codeVerifier,
                         Made(k, o.code, session.internalUserId, session.authenticatedAt))
  {
    hide Do, Enabled, MakesSession, IssuesHandoff, Challenge, LookupOf, IsCodeVerifier, PlanOf, CreatesSession, Exchanges,
         TransactionPart, P.ClaimStartStep, P.CreateStartStep, RequestFor;
  }

  /** The agreement is one to one: two portal sessions share no login, no claim, no handoff and no exchange. */
  lemma OriginsAreDistinct(cfg: Config, ss: seq<World>, es: seq<Event>, k: string, k': string,
                           session: P.LocalSession, session': P.LocalSession, o: Origin, o': Origin)
    requires CollisionFreeRun(cfg, ss, es) && k != k'
    requires IsOrigin(cfg, ss, es, k, session, o) && IsOrigin(cfg, ss, es, k', session', o')
    ensures o.loginStart.codeVerifier != o'.loginStart.codeVerifier
    ensures o.start != o'.start && o.claim != o'.claim && o.issue != o'.issue && o.exchange != o'.exchange && o.receive != o'.receive
  {
    hide Do, Enabled, MakesSession, IssuesHandoff, Challenge, LookupOf, PlanOf, Exchanges, CollisionFree, IsOrigin;
    OriginFacts(cfg, ss, es, k, session, o);
    OriginFacts(cfg, ss, es, k', session', o');
    var v, v' := o.loginStart.codeVerifier, o'.loginStart.codeVerifier;
    var m := Made(k, o.code, session.internalUserId, session.authenticatedAt);
    var m' := Made(k', o'.code, session'.internalUserId, session'.authenticatedAt);
    if v == v' {
      OneSessionPerVerifier(cfg, ss, es, o.receive, o'.receive, v, m, m');
      assert false;
    }
    if o.issue == o'.issue {
      SameIssueSameVerifier(cfg, ss, es, o, o');
      assert false;
    }
    if o.exchange == o'.exchange {
      OneRequestPerExchange(cfg, ss[o.exchange], es[o.exchange], es[o.claim].exchange, es[o'.claim].exchange,
                            RequestFor(cfg, o.loginStart, o.code), RequestFor(cfg, o'.loginStart, o'.code),
                            session.internalUserId, session'.internalUserId, session.authenticatedAt, session'.authenticatedAt);
      assert false;
    }
    if o.receive == o'.receive {
      OneSessionPerEvent(cfg, ss[o.receive], es[o.receive], v, v', m, m');
      assert false;
    }
  }

  /** Two portal sessions are for the same user exactly when Google named the same subject for both. */
  lemma SameUserSameSubject(cfg: Config, ss: seq<World>, es: seq<Event>, k: string, k': string,
                            session: P.LocalSession, session': P.LocalSession, o: Origin, o': Origin)
    requires IsRun(cfg, ss, es) && IsOrigin(cfg, ss, es, k, session, o) && IsOrigin(cfg, ss, es, k', session', o')
    ensures session.internalUserId == session'.internalUserId <==> o.subject == o'.subject
  {
    hide Do, Enabled, MakesSession, IssuesHandoff, Challenge, LookupOf, IsCodeVerifier, PlanOf, Exchanges, ClaimsLogin, StartsLogin,
         SucceedsAt, IsRun;
    var m, n := o.authentication, o'.authentication;
    if m <= n {
      UsersAreSubjects(cfg, ss, es, m, n, es[m].pid, es[n].pid);
    } else {
      UsersAreSubjects(cfg, ss, es, n, m, es[n].pid, es[m].pid);
    }
  }
}
