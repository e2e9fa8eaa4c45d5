/** Logging out: at the foundation, which session a logout ends; at the portal, that it is the end. */
module Logouts {
  import opened Common
  import opened Decimal
  import opened References
  import opened Records
  import opened Answers
  import opened Protocol
  import opened Runs
  import opened RunTheorems
  import opened RunRefinement
  import opened System
  import opened Agreement
  import opened EndToEnd
  import opened History
  import opened Progress
  import opened Logins
  import opened FirstLogin
  import P = Portal
  import I = Identity
  import Utf8

  // ----- what a logout ends -----

  predicate SameLogout(a: CommonLogoutTransaction, b: CommonLogoutTransaction) {
    a == b.(status := a.status)
  }

  /** A logout page was shown, with this reference and this token, and its transaction stored. */
  predicate Offers(cfg: Config, e: Event, o: string, r: CommonLogoutTransaction) {
    && e.LogoutGet? && LookupOf(cfg.sha, e.reference) == o && e.now + 600 <= U64_MAX
    && SameLogout(r, CommonLogoutTransaction(e.serviceId, e.returnUri, LookupOf(cfg.sha, e.csrf), e.now, e.now + 600, Unused))
  }

  lemma LogoutsMove(s: State, c: Command, o: string)
    requires o in Next(s, c).store.logouts
    ensures var r := Next(s, c).store.logouts[o];
            (o in s.store.logouts && SameLogout(r, s.store.logouts[o])) || c == WriteLogout(o, r)
  {
  }

  lemma OnlyOffersWrite(cfg: Config, s: World, e: Event, o: string, r: CommonLogoutTransaction)
    requires ProcessesOk(cfg, s) && Enabled(cfg, s, e) && Foundational(e) && PlanOf(cfg, s, e).command == WriteLogout(o, r)
    ensures Offers(cfg, e, o, r)
  {
    hide New, ProcessesOk, AnswerTo, LookupOf, Challenge, ValidQuery, Utf8.Valid;
    if e.Expires? {
      ExpiryIsPending(cfg, s, e.pid);
    }
  }

  lemma OfferedStep(cfg: Config, s: World, e: Event, o: string)
    requires ProcessesOk(cfg, s) && Enabled(cfg, s, e) && o in Do(cfg, s, e).log.state.store.logouts
    ensures var r := Do(cfg, s, e).log.state.store.logouts[o];
            (o in s.log.state.store.logouts && SameLogout(r, s.log.state.store.logouts[o])) || Offers(cfg, e, o, r)
  {
    hide PlanOf, Do, Enabled, ProcessesOk, Offers, Next, Succeeds, Introduces, SameLogout;
    LogStep(cfg, s, e);
    if Foundational(e) {
      var c := PlanOf(cfg, s, e).command;
      LogoutsMove(s.log.state, c, o);
      if c == WriteLogout(o, Do(cfg, s, e).log.state.store.logouts[o]) {
        OnlyOffersWrite(cfg, s, e, o, Do(cfg, s, e).log.state.store.logouts[o]);
      }
    } else {
      SameAsItself(s.log.state.store, o);
    }
  }

  lemma SameAsItself(st: Store, o: string)
    ensures o in st.logouts ==> SameLogout(st.logouts[o], st.logouts[o])
  {
  }

  lemma {:induction false} OfferedBy(cfg: Config, ss: seq<World>, es: seq<Event>, n: nat, o: string) returns (i: nat)
    requires CollisionFreeRun(cfg, ss, es) && n <= |es| && o in ss[n].log.state.store.logouts
    ensures i < n && Offers(cfg, es[i], o, ss[n].log.state.store.logouts[o])
    decreases n
  {
    hide Do, Enabled, CollisionFree, LookupOf, RedisOk, ProcessesOk, StartsOk, WaitingOk, RequestsOk, MadeOk, SessionsOk;
    RunKeepsInv(cfg, ss, es, n - 1);
    OfferedStep(cfg, ss[n - 1], es[n - 1], o);
    if Offers(cfg, es[n - 1], o, ss[n].log.state.store.logouts[o]) {
      return n - 1;
    }
    i := OfferedBy(cfg, ss, es, n - 1, o);
  }

  predicate EndsSession(cfg: Config, s: World, e: Event, k: string) {
    && SucceedsAt(cfg, s, e) && e.LogoutPost? && LookupOf(cfg.sha, e.cookie) == k && k in s.log.state.store.sessions
    && PlanOf(cfg, s, e).command == CompleteLogout(LookupOf(cfg.sha, e.reference), k, LookupOf(cfg.sha, e.csrf))
  }

  lemma RecordedEnd(g: Log, c: Command, k: string)
    requires k in Record(g, c).ended && k !in g.ended
    ensures c.CompleteLogout? && c.session == k && k in g.state.store.sessions && Succeeds(g.state, c)
  {
    hide Succeeds, Next, Introduces;
  }

  lemma OnlyPostsComplete(cfg: Config, s: World, e: Event)
    requires ProcessesOk(cfg, s) && Enabled(cfg, s, e) && Foundational(e) && PlanOf(cfg, s, e).command.CompleteLogout?
    ensures e.LogoutPost?
    ensures PlanOf(cfg, s, e).command
            == CompleteLogout(LookupOf(cfg.sha, e.reference), LookupOf(cfg.sha, e.cookie), LookupOf(cfg.sha, e.csrf))
  {
    hide New, ProcessesOk, AnswerTo, LookupOf, Challenge, ValidQuery, Utf8.Valid;
    if e.Expires? {
      ExpiryIsPending(cfg, s, e.pid);
    }
  }

  lemma EndedStep(cfg: Config, s: World, e: Event, k: string)
    requires ProcessesOk(cfg, s) && Enabled(cfg, s, e) && k in Do(cfg, s, e).log.ended
    ensures k in s.log.ended || EndsSession(cfg, s, e, k)
  {
    hide PlanOf, Do, Enabled, ProcessesOk, Record, Succeeds, LookupOf;
    LogStep(cfg, s, e);
    if Foundational(e) && k !in s.log.ended {
      RecordedEnd(s.log, PlanOf(cfg, s, e).command, k);
      OnlyPostsComplete(cfg, s, e);
    }
  }

  lemma {:induction false} EndedBy(cfg: Config, ss: seq<World>, es: seq<Event>, n: nat, k: string) returns (i: nat)
    requires CollisionFreeRun(cfg, ss, es) && n <= |es| && k in ss[n].log.ended
    ensures i < n && EndsSession(cfg, ss[i], es[i], k)
    decreases n
  {
    hide Do, Enabled, CollisionFree, EndsSession, RedisOk, ProcessesOk, StartsOk, WaitingOk, RequestsOk, MadeOk, SessionsOk;
    if k in ss[n - 1].log.ended {
      i := EndedBy(cfg, ss, es, n - 1, k);
    } else {
      RunKeepsInv(cfg, ss, es, n - 1);
      EndedStep(cfg, ss[n - 1], es[n - 1], k);
      i := n - 1;
    }
  }

  lemma CompletedLogout(s: State, o: string, k: string, csrf: string)
    requires Succeeds(s, CompleteLogout(o, k, csrf))
    ensures o in s.store.logouts && s.store.logouts[o].csrfLookup == csrf && s.clock < s.store.logouts[o].expiresAt
    ensures AnswerTo(s, CompleteLogout(o, k, csrf)) == LoggedOut(s.store.logouts[o].logoutReturnUri)
  {
  }

  /**
    A session is ended only by a logout whose cookie names it, within 600 seconds of a logout page that
    drew the reference and the token that it posts; and the answer is that page's return address.
  */
  lemma SessionsEndByLogout(cfg: Config, ss: seq<World>, es: seq<Event>, n: nat, k: string) returns (page: nat, post: nat)
    requires CollisionFreeRun(cfg, ss, es) && n <= |es| && k in ss[n].log.ended
    ensures page < post < n && es[page].LogoutGet? && es[post].LogoutPost? && LookupOf(cfg.sha, es[post].cookie) == k
    ensures LookupOf(cfg.sha, es[post].reference) == LookupOf(cfg.sha, es[page].reference)
    ensures LookupOf(cfg.sha, es[post].csrf) == LookupOf(cfg.sha, es[page].csrf)
    ensures k in ss[post].log.state.store.sessions && ss[post].log.state.clock < es[page].now + 600
    ensures Enabled(cfg, ss[post], es[post])
            && AnswerTo(ss[post].log.state, PlanOf(cfg, ss[post], es[post]).command) == LoggedOut(es[page].returnUri)
  {
    hide Do, Enabled, PlanOf, CollisionFree, LookupOf, AnswerTo, Succeeds;
    post := EndedBy(cfg, ss, es, n, k);
    CompletedLogout(ss[post].log.state, LookupOf(cfg.sha, es[post].reference), k, LookupOf(cfg.sha, es[post].csrf));
    page := OfferedBy(cfg, ss, es, post, LookupOf(cfg.sha, es[post].reference));
  }

  // ----- and that it can -----

  /** A logout: its first request, what the page draws, the browser's cookie, and the times. */
  datatype Departure = Departure(
    pid: nat, reference: string, csrf: string, cookie: string, serviceId: string, returnUri: string, now: u64, posted: nat)

  /** The browser's session is there, and it posts the form within ten minutes. */
  predicate CanLeave(cfg: Config, s: World, d: Departure) {
    && Idle(s, d.pid, 3) && Free(s, {d.reference, d.csrf}) && d.reference != d.csrf && Utf8.Valid(d.returnUri)
    && d.now + 600 <= LUA_SAFE_MAX && s.log.state.clock < d.now + 600 && d.posted < d.now + 600
    && LookupOf(cfg.sha, d.cookie) in s.log.state.store.sessions
  }

  function OfferOf(cfg: Config, d: Departure): CommonLogoutTransaction
    requires d.now + 600 <= LUA_SAFE_MAX
  {
    CommonLogoutTransaction(d.serviceId, d.returnUri, LookupOf(cfg.sha, d.csrf), d.now, d.now + 600, Unused)
  }

  /** The form waits to be posted, and the session is there. */
  predicate Offered(cfg: Config, s: World, d: Departure) {
    && d.now + 600 <= LUA_SAFE_MAX && d.posted < d.now + 600
    && LookupOf(cfg.sha, d.cookie) in s.log.state.store.sessions
    && LookupOf(cfg.sha, d.reference) in s.log.state.store.logouts
    && s.log.state.store.logouts[LookupOf(cfg.sha, d.reference)] == OfferOf(cfg, d)
  }

  lemma OfferPlan(cfg: Config, s: World, d: Departure)
    requires CanLeave(cfg, s, d)
    ensures var e, o := LogoutGet(d.pid, d.serviceId, d.returnUri, d.reference, d.csrf, d.now), LookupOf(cfg.sha, d.reference);
            && Enabled(cfg, s, e) && s.log.state.clock < d.now + 600 && d.pid + 1 !in s.processes && d.pid + 2 !in s.processes
            && PlanOf(cfg, s, e) == Plan(WriteLogout(o, OfferOf(cfg, d)), ExpirePending(ExpireLogout(o, d.now + 600)), {d.reference, d.csrf})
  {
    hide LookupOf, IsFixedReference, Utf8.Valid;
    assert New(s, d.reference) && New(s, d.csrf);
  }

  lemma OfferStores(cfg: Config, s: World, s': World, d: Departure)
    requires CanLeave(cfg, s, d) && s'.log.state == Next(s.log.state, WriteLogout(LookupOf(cfg.sha, d.reference), OfferOf(cfg, d)))
    ensures Offered(cfg, s', d) && s'.log.state.clock == s.log.state.clock
  {
    hide LookupOf, Utf8.Valid, Free;
  }

  lemma StillOffered(cfg: Config, s: World, s': World, d: Departure)
    requires Offered(cfg, s, d) && s'.log.state.store == s.log.state.store
    ensures Offered(cfg, s', d)
  {
    hide LookupOf;
  }

  lemma ExpiryIsLater(s: State, o: string, at: nat)
    requires s.clock < at
    ensures Next(s, ExpireLogout(o, at)) == s
  {
  }

  lemma PostPlan(cfg: Config, s: World, d: Departure)
    requires d.pid + 2 !in s.processes
    ensures var e := LogoutPost(d.pid + 2, d.reference, d.cookie, d.csrf);
            && Enabled(cfg, s, e)
            && PlanOf(cfg, s, e) == Plan(CompleteLogout(LookupOf(cfg.sha, d.reference), LookupOf(cfg.sha, d.cookie), LookupOf(cfg.sha, d.csrf)), Over, {})
  {
    hide LookupOf;
  }

  lemma PostEnds(cfg: Config, s: World, d: Departure)
    requires Offered(cfg, s, d) && s.log.state.clock == d.posted
    ensures var c := CompleteLogout(LookupOf(cfg.sha, d.reference), LookupOf(cfg.sha, d.cookie), LookupOf(cfg.sha, d.csrf));
            var g, k := Record(s.log, c), LookupOf(cfg.sha, d.cookie);
            && AnswerTo(s.log.state, c) == LoggedOut(d.returnUri)
            && k in g.ended && k !in g.state.store.sessions
            && forall j | j in s.log.state.store.sessions && j != k :: j in g.state.store.sessions && g.state.store.sessions[j] == s.log.state.store.sessions[j]
  {
    hide LookupOf;
  }

  /** The page is shown, and its transaction stored with its expiry. */
  lemma PageIsShown(cfg: Config, ss0: seq<World>, es0: seq<Event>, ss: seq<World>, es: seq<Event>, s: World, d: Departure)
    returns (ss': seq<World>, es': seq<Event>, s': World)
    requires Reaches(cfg, ss0, es0, ss, es, s) && CanLeave(cfg, s, d)
    ensures Reaches(cfg, ss0, es0, ss', es', s') && Offered(cfg, s', d) && s'.references == s.references + {d.reference, d.csrf}
    ensures d.pid + 1 !in s'.processes && d.pid + 2 !in s'.processes
    ensures s'.log.state.store.sessions == s.log.state.store.sessions
  {
    hide Do, Enabled, PlanOf, Reaches, Offered, CanLeave, LookupOf, Next, Succeeds, Introduces, OfferOf;
    var e, o := LogoutGet(d.pid, d.serviceId, d.returnUri, d.reference, d.csrf, d.now), LookupOf(cfg.sha, d.reference);
    OfferPlan(cfg, s, d);
    FoundationEffect(cfg, s, e);
    ss', es', s' := Logins.Step(cfg, ss0, es0, ss, es, s, e);
    WriteKeepsSessions(s.log.state, PlanOf(cfg, s, e).command);
    OfferStores(cfg, s, s', d);
    var offered := s';
    ExpirePlan(cfg, s', d.pid, ExpireLogout(o, d.now + 600));
    ExpiryIsLater(s'.log.state, o, d.now + 600);
    FoundationEffect(cfg, s', Expires(d.pid));
    ss', es', s' := Logins.Step(cfg, ss0, es0, ss', es', s', Expires(d.pid));
    StillOffered(cfg, offered, s', d);
  }

  lemma WriteKeepsSessions(s: State, c: Command)
    requires c.WriteLogout?
    ensures Next(s, c).store.sessions == s.store.sessions
  {
  }

  /**
    Every run in which a browser's common session is stored can be continued by its logout: the page,
    its transaction's expiry, the clock and the post, with the browser's own cookie and the page's
    reference and token, to a state in which that session has ended and is gone, and no other; and the
    answer is the service's return address.
  */
  lemma LogoutSucceeds(cfg: Config, ss: seq<World>, es: seq<Event>, d: Departure) returns (ss': seq<World>, es': seq<Event>)
    requires IsRun(cfg, ss, es) && CollisionFree(cfg.sha, ss[|es|].references + {d.reference, d.csrf})
    requires CanLeave(cfg, ss[|es|], d)
    ensures CollisionFreeRun(cfg, ss', es') && es <= es' && ss <= ss' && |ss'| == |es'| + 1 && |es'| > |es|
    ensures var s, k := ss'[|es'|], LookupOf(cfg.sha, d.cookie);
            && k in s.log.ended && k !in s.log.state.store.sessions
            && forall j | j in ss[|es|].log.state.store.sessions && j != k :: j in s.log.state.store.sessions
    ensures var e := es'[|es'| - 1];
            && e == LogoutPost(d.pid + 2, d.reference, d.cookie, d.csrf) && Enabled(cfg, ss'[|es'| - 1], e)
            && AnswerTo(ss'[|es'| - 1].log.state, PlanOf(cfg, ss'[|es'| - 1], e).command) == LoggedOut(d.returnUri)
  {
    hide Do, Enabled, PlanOf, Reaches, Offered, CanLeave, LookupOf, Next, Succeeds, Introduces, Record, AnswerTo, CollisionFree;
    Unmoved(cfg, ss, es);
    var s0, s := ss[|es|], ss[|es|];
    ss', es', s := PageIsShown(cfg, ss, es, ss, es, s0, d);
    var shown := s;
    Ticks(cfg, s, d.pid + 1, d.posted);
    ss', es', s := Logins.Step(cfg, ss, es, ss', es', s, ClockSet(d.pid + 1, d.posted));
    StillOffered(cfg, shown, s, d);
    PostPlan(cfg, s, d);
    PostEnds(cfg, s, d);
    var e := LogoutPost(d.pid + 2, d.reference, d.cookie, d.csrf);
    FoundationEffect(cfg, s, e);
    Arrived(cfg, ss, es, ss', es', s);
    var ss1, es1 := ss', es';
    ss', es' := Extend(cfg, ss1, es1, e);
    Onwards(cfg, ss, es, ss1, es1, ss', es');
    assert ss'[|es1|] == s && es'[|es'| - 1] == e;
  }

  lemma Arrived(cfg: Config, ss: seq<World>, es: seq<Event>, ss': seq<World>, es': seq<Event>, s: World)
    requires Reaches(cfg, ss, es, ss', es', s)
    ensures Continued(cfg, ss, es, ss', es') && |ss'| == |es'| + 1 && ss'[|es'|] == s
  {
    hide IsRun;
  }

  // ----- the portal's logout -----

  lemma PortalStep(cfg: Config, s: World, e: Event)
    requires Enabled(cfg, s, e) && e.PortalUses?
    ensures Do(cfg, s, e).portal == P.Apply(cfg.sha, cfg.limits, s.portal, e.op).contents && Do(cfg, s, e).references == s.references
  {
    hide P.Apply;
  }

  /** A portal session appears only under a new reference. */
  lemma SessionsAppearNew(cfg: Config, s: World, e: Event, k: string)
    requires Enabled(cfg, s, e) && k in s.references && k !in s.portal.sessions
    ensures k !in Do(cfg, s, e).portal.sessions
  {
    hide PlanOf, Record, Succeeds, P.CreateStartStep, P.ClaimStartStep, I.Apply, I.Enabled, ValidQuery, IsFixedReference, RequestFor;
    if e.PortalLogin? {
      CreateStartEffect(cfg.sha, cfg.limits, s.portal, "/", e.now, e.state, e.browserContext, e.verifier);
    } else if e.PortalCallback? {
      PortalAfterClaim(cfg, s, e);
    } else if e.PortalUses? {
      UseEffect(cfg.sha, cfg.limits, s.portal, e.op);
    }
  }

  lemma {:induction false} GoneSessionsStayGone(cfg: Config, ss: seq<World>, es: seq<Event>, m: nat, n: nat, k: string)
    requires IsRun(cfg, ss, es) && m <= n <= |es| && k in ss[m].references && k !in ss[m].portal.sessions
    ensures k !in ss[n].portal.sessions
    decreases n
  {
    hide Do, Enabled;
    if m < n {
      GoneSessionsStayGone(cfg, ss, es, m, n - 1, k);
      ReferencesStay(cfg, ss, es, m, n - 1);
      SessionsAppearNew(cfg, ss[n - 1], es[n - 1], k);
    }
  }

  /**
    A logout at the portal, with a session that is live and its token in cookie and header, succeeds,
    and from then on, in every run, nobody finds that session again.
  */
  lemma PortalLogoutIsFinal(cfg: Config, ss: seq<World>, es: seq<Event>, m: nat, n: nat, k: string, token: string, now: u64)
    requires CollisionFreeRun(cfg, ss, es) && m < n <= |es| && es[m] == PortalUses(P.EndSession(k, token, token, now))
    requires k in ss[m].portal.sessions && now < ss[m].portal.sessions[k].expiresAt && ss[m].portal.sessions[k].csrfLookup == cfg.sha(token)
    ensures P.Apply(cfg.sha, cfg.limits, ss[m].portal, es[m].op).outcome == P.LoggedOut
    ensures k !in ss[n].portal.sessions
    ensures forall t: u64 :: P.GetSessionStep(ss[n].portal, k, t).outcome == P.NoSession
  {
    hide Do, Enabled, CollisionFree, RedisOk, ProcessesOk, StartsOk, WaitingOk, RequestsOk, MadeOk;
    RunKeepsInv(cfg, ss, es, m);
    assert k in ss[m].references;
    PortalStep(cfg, ss[m], es[m]);
    GoneSessionsStayGone(cfg, ss, es, m + 1, n, k);
  }

  /** No other token ends a session: with a wrong one, or none of two alike, it stays. */
  lemma WrongTokenEndsNothing(sha: Hash, v: P.Contents, k: string, cookie: string, header: string, now: u64)
    requires k in v.sessions && now < v.sessions[k].expiresAt && (cookie != header || sha(cookie) != v.sessions[k].csrfLookup)
    ensures P.EndSessionStep(sha, v, k, cookie, header, now) == P.Step(v, P.NoSession)
  {
  }

  /** And every run in which such a session is there can be continued by its logout, at any time that it lives. */
  lemma PortalLogoutSucceeds(cfg: Config, ss: seq<World>, es: seq<Event>, k: string, token: string, now: u64)
    returns (ss': seq<World>, es': seq<Event>)
    requires CollisionFreeRun(cfg, ss, es)
    requires var sessions := ss[|es|].portal.sessions;
             k in sessions && now < sessions[k].expiresAt && sessions[k].csrfLookup == cfg.sha(token)
    ensures CollisionFreeRun(cfg, ss', es') && es' == es + [PortalUses(P.EndSession(k, token, token, now))]
    ensures ss' == ss + [ss'[|es'|]] && k !in ss'[|es'|].portal.sessions
    ensures forall j | j in ss[|es|].portal.sessions && j != k :: j in ss'[|es'|].portal.sessions
    ensures ss'[|es'|].log == ss[|es|].log
  {
    var op := P.EndSession(k, token, token, now);
    var s, e := ss[|es|], PortalUses(op);
    assert Enabled(cfg, s, e);
    hide Do, CollisionFree, Enabled;
    PortalStep(cfg, s, e);
    QuietEffect(cfg, s, e);
    ss', es' := ss + [Do(cfg, s, e)], es + [e];
    assert IsRun(cfg, ss', es');
  }

  /** The portal also looks sessions up and cleans up at any time. */
  lemma PortalAlwaysServes(cfg: Config, s: World, reference: string, now: u64)
    ensures Enabled(cfg, s, PortalUses(P.GetSession(reference, now))) && Enabled(cfg, s, PortalUses(P.Cleanup(now)))
    ensures Do(cfg, s, PortalUses(P.Cleanup(now))).portal == P.Live(s.portal, now)
  {
  }
}
