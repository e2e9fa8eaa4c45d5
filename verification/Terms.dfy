/**
  On what terms the foundation issues: each handoff is for the service and the challenge that some
  request brought, goes back with that request's state, and, with a common session, only after the
  user was found enabled.
*/
module Terms {
  import opened Common
  import opened Decimal
  import opened References
  import opened Records
  import opened Answers
  import opened Protocol
  import opened Runs
  import opened RunTheorems
  import opened RunRefinement
  import opened System
  import opened Agreement
  import opened EndToEnd
  import opened History
  import opened Origins
  import P = Portal
  import I = Identity
  import Utf8

  // ----- a login request keeps its query -----

  predicate IsLogin(p: Process) {
    p.LoginSession? || p.LoginExpired? || p.LoginChecked? || p.LoginGoogle?
  }

  /** The request arrives, with a cookie or without. */
  predicate Arrives(e: Event, pid: nat, q: LoginQuery, now: u64) {
    (e.LoginWithoutSession? || e.LoginWithCookie?) && e.pid == pid && e.query == q && e.now == now
  }

  lemma NextLogin(cfg: Config, s: World, e: Event)
    requires Enabled(cfg, s, e) && Foundational(e) && IsLogin(PlanOf(cfg, s, e).next)
    ensures var p := PlanOf(cfg, s, e).next;
            || Arrives(e, e.pid, p.query, p.now)
            || (e.pid in s.processes && IsLogin(s.processes[e.pid])
                && s.processes[e.pid].query == p.query && s.processes[e.pid].now == p.now)
  {
    hide LookupOf, Challenge, New, ValidQuery, AnswerTo;
  }

  lemma LoginStep(cfg: Config, s: World, e: Event, pid: nat)
    requires Enabled(cfg, s, e) && pid in Do(cfg, s, e).processes && IsLogin(Do(cfg, s, e).processes[pid])
    ensures var p := Do(cfg, s, e).processes[pid];
            || (pid in s.processes && IsLogin(s.processes[pid]) && s.processes[pid].query == p.query && s.processes[pid].now == p.now)
            || Arrives(e, pid, p.query, p.now)
  {
    hide Do, Enabled, PlanOf, Record, StartsLogin, ClaimsLogin, OpensSession, RequestFor;
    EventEffect(cfg, s, e);
    if Foundational(e) && e.pid == pid {
      NextLogin(cfg, s, e);
    }
  }

  lemma {:induction false} ArrivedLogin(cfg: Config, ss: seq<World>, es: seq<Event>, n: nat, pid: nat) returns (i: nat)
    requires IsRun(cfg, ss, es) && n <= |es| && pid in ss[n].processes && IsLogin(ss[n].processes[pid])
    ensures i < n && Arrives(es[i], pid, ss[n].processes[pid].query, ss[n].processes[pid].now)
    decreases n
  {
    hide Do, Enabled, Arrives;
    LoginStep(cfg, ss[n - 1], es[n - 1], pid);
    if Arrives(es[n - 1], pid, ss[n].processes[pid].query, ss[n].processes[pid].now) {
      return n - 1;
    }
    i := ArrivedLogin(cfg, ss, es, n - 1, pid);
  }

  // ----- with a common session -----

  /** The request read this session, unexpired on its own clock, under its cookie. */
  predicate Reads(cfg: Config, s: World, e: Event, p: Process) {
    && p.LoginSession? && e.LoginWithCookie? && e.query == p.query && e.cookie == p.cookie && e.now == p.now
    && AnswerTo(s.log.state, ReadSession(LookupOf(cfg.sha, p.cookie))) == SessionRead(p.session) && p.now < p.session.expiresAt
  }

  /** The user of the session that the request read was enabled. */
  predicate Checks(s: World, e: Event, p: Process) {
    && p.LoginChecked? && e.LoginChecks? && e.pid in s.processes && s.processes[e.pid] == LoginSession(p.query, p.cookie, p.session, p.now)
    && p.session.internalUserId in s.identity.users && s.identity.users[p.session.internalUserId]
  }

  lemma NextSession(cfg: Config, s: World, e: Event)
    requires Enabled(cfg, s, e) && Foundational(e)
    ensures var p := PlanOf(cfg, s, e).next; (p.LoginSession? ==> Reads(cfg, s, e, p)) && !p.LoginChecked?
  {
    hide LookupOf, Challenge, New, ValidQuery, AnswerTo;
  }

  lemma SessionStep(cfg: Config, s: World, e: Event, pid: nat)
    requires Enabled(cfg, s, e) && pid in Do(cfg, s, e).processes
    ensures var p := Do(cfg, s, e).processes[pid];
            && (p.LoginSession? ==> (pid in s.processes && s.processes[pid] == p) || (Reads(cfg, s, e, p) && e.pid == pid))
            && (p.LoginChecked? ==> (pid in s.processes && s.processes[pid] == p) || (Checks(s, e, p) && e.pid == pid))
  {
    hide Do, Enabled, PlanOf, Record, StartsLogin, ClaimsLogin, OpensSession, RequestFor, Reads;
    EventEffect(cfg, s, e);
    if Foundational(e) && e.pid == pid {
      NextSession(cfg, s, e);
    }
  }

  lemma {:induction false} ReadBy(cfg: Config, ss: seq<World>, es: seq<Event>, n: nat, pid: nat) returns (i: nat)
    requires IsRun(cfg, ss, es) && n <= |es| && pid in ss[n].processes && ss[n].processes[pid].LoginSession?
    ensures i < n && Reads(cfg, ss[i], es[i], ss[n].processes[pid]) && es[i].pid == pid
    decreases n
  {
    hide Do, Enabled, AnswerTo, LookupOf;
    SessionStep(cfg, ss[n - 1], es[n - 1], pid);
    if Reads(cfg, ss[n - 1], es[n - 1], ss[n].processes[pid]) && es[n - 1].pid == pid {
      return n - 1;
    }
    i := ReadBy(cfg, ss, es, n - 1, pid);
  }

  lemma {:induction false} CheckedBy(cfg: Config, ss: seq<World>, es: seq<Event>, n: nat, pid: nat) returns (i: nat)
    requires IsRun(cfg, ss, es) && n <= |es| && pid in ss[n].processes && ss[n].processes[pid].LoginChecked?
    ensures i < n && Checks(ss[i], es[i], ss[n].processes[pid]) && es[i].pid == pid
    decreases n
  {
    hide Do, Enabled;
    SessionStep(cfg, ss[n - 1], es[n - 1], pid);
    if Checks(ss[n - 1], es[n - 1], ss[n].processes[pid]) && es[n - 1].pid == pid {
      return n - 1;
    }
    i := CheckedBy(cfg, ss, es, n - 1, pid);
  }

  lemma SsoRecord(cfg: Config, s: World, e: Event)
    requires Enabled(cfg, s, e) && e.LoginIssues?
    ensures e.pid in s.processes && s.processes[e.pid].LoginChecked?
    ensures var p := s.processes[e.pid];
            && p.now + 120 <= U64_MAX
            && PlanOf(cfg, s, e).command
               == Issue(LookupOf(cfg.sha, p.cookie), LookupOf(cfg.sha, e.reference),
                        AuthenticationHandoff(p.query.serviceId, p.session.internalUserId, LookupOf(cfg.sha, p.cookie), p.query.codeChallenge,
                                              p.session.authenticatedAt, p.now, p.now + 120, Unused))
            && LocationOf(cfg, s, e) == Location(p.query.serviceId, e.reference, p.query.state)
  {
    hide New, LookupOf;
  }

  /**
    Behind every handoff that is issued with a common session: a request brought the cookie, read the
    session, unexpired on its own clock, and found its user enabled; the handoff is on that request's
    terms, for 120 seconds from its arrival, and the browser goes back with its state.
  */
  lemma SsoTerms(cfg: Config, ss: seq<World>, es: seq<Event>, n: nat) returns (read: nat, check: nat)
    requires IsRun(cfg, ss, es) && n < |es| && es[n].LoginIssues? && Enabled(cfg, ss[n], es[n])
    ensures read < check < n && es[read].LoginWithCookie? && es[check].LoginChecks? && es[read].pid == es[check].pid == es[n].pid
    ensures es[n].pid in ss[n].processes && ss[n].processes[es[n].pid].LoginChecked?
    ensures var p, q, now := ss[n].processes[es[n].pid], es[read].query, es[read].now;
            && AnswerTo(ss[read].log.state, ReadSession(LookupOf(cfg.sha, es[read].cookie))) == SessionRead(p.session)
            && now < p.session.expiresAt
            && p.session.internalUserId in ss[check].identity.users && ss[check].identity.users[p.session.internalUserId]
            && now + 120 <= U64_MAX
            && PlanOf(cfg, ss[n], es[n]).command
               == Issue(LookupOf(cfg.sha, es[read].cookie), LookupOf(cfg.sha, es[n].reference),
                        AuthenticationHandoff(q.serviceId, p.session.internalUserId, LookupOf(cfg.sha, es[read].cookie), q.codeChallenge,
                                              p.session.authenticatedAt, now, now + 120, Unused))
            && LocationOf(cfg, ss[n], es[n]) == Location(q.serviceId, es[n].reference, q.state)
  {
    hide Do, Enabled, PlanOf, LocationOf, AnswerTo, LookupOf;
    SsoRecord(cfg, ss[n], es[n]);
    check := CheckedBy(cfg, ss, es, n, es[n].pid);
    read := ReadBy(cfg, ss, es, check, es[n].pid);
  }

  // ----- through Google -----

  lemma TransactionRecord(cfg: Config, s: World, e: Event, l: string, t: ExternalAuthTransaction)
    requires WritesTransaction(cfg, s, e, l, t)
    ensures e.pid in s.processes && s.processes[e.pid].LoginGoogle?
    ensures var p := s.processes[e.pid];
            && p.now + 600 <= U64_MAX
            && t == ExternalAuthTransaction(p.query.serviceId, p.query.state, p.query.codeChallenge, "google", "", p.now, p.now + 600, Waiting)
  {
    hide New, LookupOf;
  }

  /** A written transaction holds what some request brought, for 600 seconds from its arrival. */
  lemma TransactionTerms(cfg: Config, ss: seq<World>, es: seq<Event>, n: nat, l: string, t: ExternalAuthTransaction) returns (arrive: nat)
    requires IsRun(cfg, ss, es) && n < |es| && WritesTransaction(cfg, ss[n], es[n], l, t)
    ensures arrive < n && (es[arrive].LoginWithoutSession? || es[arrive].LoginWithCookie?) && es[arrive].pid == es[n].pid
    ensures var q, now := es[arrive].query, es[arrive].now;
            && now + 600 <= U64_MAX
            && t == ExternalAuthTransaction(q.serviceId, q.state, q.codeChallenge, "google", "", now, now + 600, Waiting)
  {
    hide Do, Enabled, PlanOf, LookupOf;
    TransactionRecord(cfg, ss[n], es[n], l, t);
    arrive := ArrivedLogin(cfg, ss, es, n, es[n].pid);
  }

  lemma FirstRecord(cfg: Config, s: World, e: Event)
    requires Enabled(cfg, s, e) && e.CallbackCreates?
    ensures e.pid in s.processes && s.processes[e.pid].CallbackClaimed? && HasUser(s, e.pid) && e.now + 28800 <= U64_MAX
    ensures var t, user, now := s.processes[e.pid].transaction, UserOf(s, e.pid), e.now;
            && PlanOf(cfg, s, e).command
               == Create(LookupOf(cfg.sha, e.session), CommonSession(user, now, now, now + 28800), LookupOf(cfg.sha, e.handoff),
                         AuthenticationHandoff(t.serviceId, user, LookupOf(cfg.sha, e.session), t.handoffCodeChallenge, now, now, now + 120, Unused))
            && LocationOf(cfg, s, e) == Location(t.serviceId, e.handoff, t.serviceState)
  {
    hide New, LookupOf;
  }

  /**
    Behind every common session and its first handoff: a request arrived, a transaction with its terms
    was written and claimed, by Redis within 600 seconds of that arrival; the handoff is on those terms,
    and the browser goes back with that request's state.
  */
  lemma FirstTerms(cfg: Config, ss: seq<World>, es: seq<Event>, n: nat) returns (arrive: nat, write: nat, google: nat)
    requires CollisionFreeRun(cfg, ss, es) && n < |es| && es[n].CallbackCreates? && SucceedsAt(cfg, ss[n], es[n])
    ensures arrive < write < google < n && (es[arrive].LoginWithoutSession? || es[arrive].LoginWithCookie?)
    ensures es[write].GoogleLoginStarts? && es[write].pid == es[arrive].pid && es[google].GoogleCallback? && es[google].pid == es[n].pid
    ensures LookupOf(cfg.sha, es[google].state) == LookupOf(cfg.sha, es[write].reference)
    ensures ss[google].log.state.clock < es[arrive].now + 600
    ensures HasUser(ss[n], es[n].pid) && es[n].now + 28800 <= U64_MAX
    ensures var q, user, now := es[arrive].query, UserOf(ss[n], es[n].pid), es[n].now;
            && PlanOf(cfg, ss[n], es[n]).command
               == Create(LookupOf(cfg.sha, es[n].session), CommonSession(user, now, now, now + 28800), LookupOf(cfg.sha, es[n].handoff),
                         AuthenticationHandoff(q.serviceId, user, LookupOf(cfg.sha, es[n].session), q.codeChallenge, now, now, now + 120, Unused))
            && LocationOf(cfg, ss[n], es[n]) == Location(q.serviceId, es[n].handoff, q.state)
  {
    hide Do, Enabled, PlanOf, LocationOf, AnswerTo, LookupOf, Succeeds, CollisionFree, HasUser, UserOf;
    FirstRecord(cfg, ss[n], es[n]);
    var c := PlanOf(cfg, ss[n], es[n]).command;
    var transaction;
    write, google, transaction := TransactionBehind(cfg, ss, es, n, c.session, c.sessionRecord);
    var p := ss[n].processes[es[n].pid];
    arrive := TransactionTerms(cfg, ss, es, write, p.external, transaction);
    ClaimIsTimely(ss[google].log.state, p.external, p.transaction);
  }

  lemma ClaimIsTimely(s: State, l: string, t: ExternalAuthTransaction)
    requires AnswerTo(s, Claim(l)) == Claimed(t)
    ensures s.clock < t.expiresAt
  {
  }

  /** So no transaction is claimed 600 seconds after the request that it is for. */
  lemma ClaimsAreTimely(cfg: Config, ss: seq<World>, es: seq<Event>, n: nat, l: string, t: ExternalAuthTransaction)
    returns (arrive: nat, write: nat)
    requires CollisionFreeRun(cfg, ss, es) && n < |es| && es[n].GoogleCallback? && ClaimsTransaction(cfg, ss[n], es[n], es[n].pid, l, t)
    ensures arrive < write < n && WritesTransaction(cfg, ss[write], es[write], l, t.(status := Waiting))
    ensures (es[arrive].LoginWithoutSession? || es[arrive].LoginWithCookie?) && ss[n].log.state.clock < es[arrive].now + 600
  {
    hide Do, Enabled, PlanOf, AnswerTo, LookupOf, Succeeds, CollisionFree, WritesTransaction,
         RedisOk, ProcessesOk, StartsOk, WaitingOk, RequestsOk, MadeOk, SessionsOk;
    RunKeepsInv(cfg, ss, es, n);
    RedisIsCoherent(cfg, ss[n]);
    ClaimFinds(ss[n].log, l, t);
    ClaimIsTimely(ss[n].log.state, l, t);
    write := WrittenBy(cfg, ss, es, n, l);
    arrive := TransactionTerms(cfg, ss, es, write, l, ss[n].log.written[l]);
    assert ss[n].log.written[l] == t.(status := Waiting);
  }

  // ----- disabled users -----

  lemma {:induction false} StaysBarred(cfg: Config, ss: seq<World>, es: seq<Event>, m: nat, n: nat, who: I.Identifier, id: i32, p: nat)
    requires IsRun(cfg, ss, es) && m <= n <= |es| && I.Barred(ss[m].identity, who, id, p)
    requires forall i | m <= i < n :: es[i] != Resolution(I.SetEnabled(id, true))
    ensures I.Barred(ss[n].identity, who, id, p)
    decreases n
  {
    hide Do, Enabled, I.Inv, I.Enabled, I.Apply, I.Barred;
    if m < n {
      StaysBarred(cfg, ss, es, m, n - 1, who, id, p);
      IdentityInv(cfg, ss, es, n - 1);
      IdentityStep(cfg, ss[n - 1], es[n - 1]);
      if es[n - 1].Resolution? {
        I.StaysBarred(ss[n - 1].identity, es[n - 1].statement, who, id, p);
      }
    }
  }

  lemma CheckRefuses(cfg: Config, s: World, e: Event)
    requires Enabled(cfg, s, e) && e.LoginChecks?
    ensures e.pid in s.processes && s.processes[e.pid].LoginSession?
    ensures var user := s.processes[e.pid].session.internalUserId;
            user in s.identity.users && !s.identity.users[user] ==> Do(cfg, s, e).processes[e.pid] == Over
  {
  }

  /**
    From a moment at which a user is disabled until it is enabled again: no request that Google sends
    the user's subject to is given the user, and no login that has read a session of the user goes on.
  */
  lemma DisabledUsersDoNotLogIn(cfg: Config, ss: seq<World>, es: seq<Event>, m: nat, n: nat, who: I.Identifier, p: nat)
    requires IsRun(cfg, ss, es) && m <= n <= |es| && who in ss[m].identity.identities
    requires var db, id := ss[m].identity, ss[m].identity.identities[who];
             && id in db.users && !db.users[id] && p !in db.resolvers
             && forall i | m <= i < n :: es[i] != Resolution(I.SetEnabled(id, true))
    ensures HasUser(ss[n], p) ==> ss[n].identity.resolvers[p].who != who
    ensures n < |es| && es[n].LoginChecks? && Enabled(cfg, ss[n], es[n]) ==>
              && es[n].pid in ss[n].processes && ss[n].processes[es[n].pid].LoginSession?
              && (ss[n].processes[es[n].pid].session.internalUserId == ss[m].identity.identities[who]
                  ==> ss[n + 1].processes[es[n].pid] == Over)
  {
    hide Do, Enabled;
    StaysBarred(cfg, ss, es, m, n, who, ss[m].identity.identities[who], p);
    if n < |es| && es[n].LoginChecks? {
      CheckRefuses(cfg, ss[n], es[n]);
    }
  }

  /** The foundation takes states of 1 to 256 bytes from a service, and no others. */
  lemma StateLengths(n: nat)
    ensures (exists q: LoginQuery :: |q.state| == n && ValidQuery(q)) <==> 1 <= n <= 256
  {
    var q := LoginQuery("", seq(n, i => 'a'), seq(43, i => 'a'));
    Utf8.AsciiIsValid(q.state);
    assert 1 <= n <= 256 ==> |q.state| == n && ValidQuery(q);
  }
}
