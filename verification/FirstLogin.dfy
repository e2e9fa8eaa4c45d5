/** A first login: through Google and the identity tables to a common session, and on to the portal. */
module FirstLogin {
  import opened Common
  import opened Decimal
  import opened References
  import opened Records
  import opened Answers
  import opened Protocol
  import opened Runs
  import opened RunTheorems
  import opened RunRefinement
  import opened System
  import opened Agreement
  import opened EndToEnd
  import opened History
  import opened Progress
  import opened Logins
  import opened Entries
  import opened Conservation
  import P = Portal
  import I = Identity
  import Utf8

  /** The foundation's side: the references it draws, the Google subject, and its times. */
  datatype Authentication = Authentication(
    oauth: string, session: string, who: I.Identifier,
    requested: u64, authenticated: u64,   // foundation time: login, Google callback
    claimed: nat, created: nat)           // Redis time: claim, creation

  /** Google returns within ten minutes and the code is exchanged within two, by the Redis clock. */
  predicate Windows(l: Login, a: Authentication) {
    && a.claimed < a.requested + 600 <= LUA_SAFE_MAX
    && a.created < a.authenticated + 120 && l.exchanged < a.authenticated + 120 && a.authenticated + 28800 <= LUA_SAFE_MAX
  }

  predicate InTime(s: World, l: Login, a: Authentication) {
    s.log.state.clock < a.requested + 600 && Windows(l, a)
  }

  /** The subject is known and enabled, or it can be entered: nobody else is at it and ids are left. */
  predicate Resolvable(db: I.Database, who: I.Identifier) {
    && who.provider == "google" && who.subject != ""
    && (if who in db.identities then db.identities[who] in db.users && db.users[db.identities[who]]
        else !I.KeyHeld(db, who) && db.nextId <= I32_MAX)
  }

  predicate CanAuthenticate(cfg: Config, s: World, l: Login, a: Authentication) {
    && InTime(s, l, a) && Resolvable(s.identity, a.who) && l.pid + 5 !in s.identity.resolvers
    && Free(s, {a.oauth}) && Free(s, {a.session, l.code}) && a.session != l.code
    && {l.state, l.context, l.verifier} !! {a.oauth} && {l.state, l.context, l.verifier, a.oauth} !! {a.session, l.code}
    && {a.oauth, a.session, l.code} !! {l.reference, l.csrf}
  }

  // ----- the request to the foundation -----

  function TransactionOf(cfg: Config, l: Login, a: Authentication): ExternalAuthTransaction
    requires a.requested + 600 <= LUA_SAFE_MAX
  {
    TransactionFor(QueryOf(cfg, l), a.requested)
  }

  lemma WritePlan(cfg: Config, s: World, l: Login, a: Authentication)
    requires a.requested + 600 <= LUA_SAFE_MAX && New(s, a.oauth)
    requires l.pid + 3 in s.processes && s.processes[l.pid + 3] == LoginGoogle(QueryOf(cfg, l), a.requested)
    ensures var e, lo := GoogleLoginStarts(l.pid + 3, a.oauth), LookupOf(cfg.sha, a.oauth);
            && Enabled(cfg, s, e)
            && PlanOf(cfg, s, e) == Plan(WriteExternal(lo, TransactionOf(cfg, l, a)),
                                         ExpirePending(ExpireExternal(lo, a.requested + 600)), {a.oauth})
  {
    hide LookupOf, QueryOf, New;
  }

  lemma ExpirePlan(cfg: Config, s: World, pid: nat, c: Command)
    requires pid in s.processes && s.processes[pid] == ExpirePending(c)
    ensures Enabled(cfg, s, Expires(pid)) && PlanOf(cfg, s, Expires(pid)) == Plan(c, Over, {})
  {
  }

  lemma ClaimAnswers(s: State, lo: string, t: ExternalAuthTransaction)
    requires lo in s.store.externals && s.store.externals[lo] == t && t.status == Waiting
    requires t.createdAt <= LUA_SAFE_MAX && t.expiresAt <= LUA_SAFE_MAX && s.clock < t.expiresAt
    ensures AnswerTo(s, Claim(lo)) == Claimed(t.(status := Processing))
    ensures Next(s, Claim(lo)).store.sessions == s.store.sessions && Next(s, Claim(lo)).store.handoffs == s.store.handoffs
  {
  }

  lemma TransactionFacts(cfg: Config, l: Login, a: Authentication)
    requires a.requested + 600 <= LUA_SAFE_MAX
    ensures var t := TransactionOf(cfg, l, a);
            t.status == Waiting && t.createdAt <= LUA_SAFE_MAX && t.expiresAt == a.requested + 600
  {
  }

  lemma ClaimPlan(cfg: Config, s: World, pid: nat, oauth: string, t: ExternalAuthTransaction)
    requires pid !in s.processes && AnswerTo(s.log.state, Claim(LookupOf(cfg.sha, oauth))) == Claimed(t)
    ensures var e, lo := GoogleCallback(pid, oauth), LookupOf(cfg.sha, oauth);
            Enabled(cfg, s, e) && PlanOf(cfg, s, e) == Plan(Claim(lo), CallbackClaimed(lo, t), {})
  {
    hide LookupOf, AnswerTo;
  }

  lemma WindowsFacts(l: Login, a: Authentication)
    requires Windows(l, a)
    ensures a.requested + 600 <= LUA_SAFE_MAX
  {
  }

  lemma WriteMakesNoSession(s: State, lo: string, t: ExternalAuthTransaction)
    ensures var s' := Next(s, WriteExternal(lo, t));
            s'.store.sessions == s.store.sessions && s'.store.handoffs == s.store.handoffs && s'.clock == s.clock
            && lo in s'.store.externals && s'.store.externals[lo] == t
  {
  }

  lemma ExpiryMakesNoSession(s: State, lo: string, at: nat)
    requires s.clock < at
    ensures Next(s, ExpireExternal(lo, at)) == s
  {
  }

  /** Google's login is begun: the transaction is stored and will expire in ten minutes. */
  lemma TransactionIsWritten(cfg: Config, ss0: seq<World>, es0: seq<Event>, ss: seq<World>, es: seq<Event>, s: World, l: Login, a: Authentication)
    returns (ss': seq<World>, es': seq<Event>, s': World)
    requires Reaches(cfg, ss0, es0, ss, es, s) && Carries(cfg, s, l, a.session) && InTime(s, l, a)
    requires New(s, a.oauth) && {a.oauth} !! {a.session, l.code, l.reference, l.csrf}
    requires l.pid + 3 in s.processes && s.processes[l.pid + 3] == LoginGoogle(QueryOf(cfg, l), a.requested)
    ensures Reaches(cfg, ss0, es0, ss', es', s') && Carries(cfg, s', l, a.session) && s'.identity == s.identity
    ensures s'.references == s.references + {a.oauth} && s'.processes == s.processes[l.pid + 3 := Over]
    ensures var lo, st := LookupOf(cfg.sha, a.oauth), s'.log.state.store;
            lo in st.externals && st.externals[lo] == TransactionOf(cfg, l, a)
  {
    hide Do, Enabled, PlanOf, Reaches, Carries, LookupOf, QueryOf, New, Next, TransactionOf, Windows;
    var lo := LookupOf(cfg.sha, a.oauth);
    WindowsFacts(l, a);
    WritePlan(cfg, s, l, a);
    WriteMakesNoSession(s.log.state, lo, TransactionOf(cfg, l, a));
    CarriesWaits(cfg, s, l, a.session);
    var e := GoogleLoginStarts(l.pid + 3, a.oauth);
    FoundationGoesOn(cfg, s, e, l, a.session, PlanOf(cfg, s, e));
    ss', es', s' := Logins.Step(cfg, ss0, es0, ss, es, s, e);
    ExpirePlan(cfg, s', l.pid + 3, ExpireExternal(lo, a.requested + 600));
    ExpiryMakesNoSession(s'.log.state, lo, a.requested + 600);
    CarriesWaits(cfg, s', l, a.session);
    FoundationGoesOn(cfg, s', Expires(l.pid + 3), l, a.session, PlanOf(cfg, s', Expires(l.pid + 3)));
    var written := s';
    ss', es', s' := Logins.Step(cfg, ss0, es0, ss', es', s', Expires(l.pid + 3));
    assert s'.processes == s.processes[l.pid + 3 := Over] by {
      assert written.processes == s.processes[l.pid + 3 := ExpirePending(ExpireExternal(lo, a.requested + 600))];
    }
  }

  /** Google's callback claims the transaction, at its own Redis time. */
  lemma GoogleReturns(cfg: Config, ss0: seq<World>, es0: seq<Event>, ss: seq<World>, es: seq<Event>, s: World, l: Login, a: Authentication)
    returns (ss': seq<World>, es': seq<Event>, s': World)
    requires Reaches(cfg, ss0, es0, ss, es, s) && Carries(cfg, s, l, a.session)
    requires a.claimed < a.requested + 600 <= LUA_SAFE_MAX && l.pid + 4 !in s.processes && l.pid + 5 !in s.processes
    requires var lo, st := LookupOf(cfg.sha, a.oauth), s.log.state.store;
             lo in st.externals && st.externals[lo] == TransactionOf(cfg, l, a)
    ensures Reaches(cfg, ss0, es0, ss', es', s') && Carries(cfg, s', l, a.session) && s'.identity == s.identity
    ensures s'.references == s.references && l.pid + 5 in s'.processes
    ensures s'.processes[l.pid + 5] == CallbackClaimed(LookupOf(cfg.sha, a.oauth), TransactionOf(cfg, l, a).(status := Processing))
    ensures forall q | q in s'.processes :: q in s.processes || q == l.pid + 4 || q == l.pid + 5
  {
    hide Do, Enabled, PlanOf, Reaches, Carries, LookupOf, QueryOf, Next, AnswerTo, TransactionOf;
    var lo := LookupOf(cfg.sha, a.oauth);
    TransactionFacts(cfg, l, a);
    TickGoesOn(cfg, s, l, a.session, l.pid + 4, a.claimed);
    ss', es', s' := Logins.Step(cfg, ss0, es0, ss, es, s, ClockSet(l.pid + 4, a.claimed));
    ClaimAnswers(s'.log.state, lo, TransactionOf(cfg, l, a));
    CarriesWaits(cfg, s', l, a.session);
    ClaimPlan(cfg, s', l.pid + 5, a.oauth, TransactionOf(cfg, l, a).(status := Processing));
    var e := GoogleCallback(l.pid + 5, a.oauth);
    FoundationGoesOn(cfg, s', e, l, a.session, PlanOf(cfg, s', e));
    ss', es', s' := Logins.Step(cfg, ss0, es0, ss', es', s', e);
  }

  // ----- resolving the identity -----

  /** A statement of a resolver changes the identity tables only. */
  lemma Resolve(cfg: Config, ss0: seq<World>, es0: seq<Event>, ss: seq<World>, es: seq<Event>, s: World, op: I.Event)
    returns (ss': seq<World>, es': seq<Event>, s': World)
    requires Reaches(cfg, ss0, es0, ss, es, s) && I.Enabled(s.identity, op) && !op.Arrive?
    ensures Reaches(cfg, ss0, es0, ss', es', s') && s' == s.(identity := I.Apply(s.identity, op))
  {
    hide I.Enabled, I.Apply, Reaches;
    ss', es', s' := Logins.Step(cfg, ss0, es0, ss, es, s, Resolution(op));
  }

  lemma Introduce(cfg: Config, ss0: seq<World>, es0: seq<Event>, ss: seq<World>, es: seq<Event>, s: World, pid: nat, who: I.Identifier)
    returns (ss': seq<World>, es': seq<Event>, s': World)
    requires Reaches(cfg, ss0, es0, ss, es, s) && pid !in s.identity.resolvers && who.provider == "google" && who.subject != ""
    requires pid in s.processes && s.processes[pid].CallbackClaimed?
    ensures Reaches(cfg, ss0, es0, ss', es', s') && s' == s.(identity := I.Put(s.identity, pid, I.Reading(who)))
  {
    hide Reaches;
    ss', es', s' := Logins.Step(cfg, ss0, es0, ss, es, s, Resolution(I.Arrive(pid, who)));
  }

  /** A resolver that is alone at its subject comes to an end with the user of that subject. */
  lemma UserIsResolved(cfg: Config, ss0: seq<World>, es0: seq<Event>, ss: seq<World>, es: seq<Event>, s: World, pid: nat, who: I.Identifier)
    returns (ss': seq<World>, es': seq<Event>, s': World)
    requires Reaches(cfg, ss0, es0, ss, es, s) && pid !in s.identity.resolvers && Resolvable(s.identity, who)
    requires pid in s.processes && s.processes[pid].CallbackClaimed?
    ensures Reaches(cfg, ss0, es0, ss', es', s') && s' == s.(identity := s'.identity)
    ensures HasUser(s', pid) && who in s'.identity.identities && UserOf(s', pid) == s'.identity.identities[who]
  {
    hide Reaches, I.KeyHeld;
    ss', es', s' := Introduce(cfg, ss0, es0, ss, es, s, pid, who);
    ss', es', s' := Resolve(cfg, ss0, es0, ss', es', s', I.Read(pid));
    if who !in s.identity.identities {
      ss', es', s' := Resolve(cfg, ss0, es0, ss', es', s', I.InsertUser(pid));
      NotHeld(s.identity, s'.identity, pid, who);
      ss', es', s' := Resolve(cfg, ss0, es0, ss', es', s', I.InsertIdentity(pid));
      ss', es', s' := Resolve(cfg, ss0, es0, ss', es', s', I.Commit(pid));
    }
  }

  lemma NotHeld(db: I.Database, db': I.Database, pid: nat, who: I.Identifier)
    requires !I.KeyHeld(db, who) && pid in db'.resolvers && !db'.resolvers[pid].IdentityInserted?
    requires forall q | q in db'.resolvers && q != pid :: q in db.resolvers && db'.resolvers[q] == db.resolvers[q]
    ensures !I.KeyHeld(db', who)
  {
  }

  // ----- the common session and its first handoff -----

  function GrantOf(cfg: Config, l: Login, a: Authentication, user: i32): Grant
    requires a.requested + 600 <= LUA_SAFE_MAX && a.authenticated + 28800 <= LUA_SAFE_MAX
  {
    Grant(LookupOf(cfg.sha, a.session), CommonSession(user, a.authenticated, a.authenticated, a.authenticated + 28800),
          FirstHandoff(cfg, TransactionOf(cfg, l, a), user, a.session, a.authenticated))
  }

  lemma GrantIsGood(cfg: Config, l: Login, a: Authentication, user: i32)
    requires a.requested + 600 <= LUA_SAFE_MAX && a.authenticated + 28800 <= LUA_SAFE_MAX && l.exchanged < a.authenticated + 120
    ensures Grants(cfg, l, GrantOf(cfg, l, a, user))
  {
    hide LookupOf, Challenge;
  }

  lemma CreateStores(cfg: Config, s: State, l: Login, g: Grant)
    requires Fits(g.handoff, g.lookup, g.session) && SafeSession(g.session)
    requires s.clock < g.handoff.expiresAt && s.clock < g.session.expiresAt
    requires g.lookup !in s.store.sessions && LookupOf(cfg.sha, l.code) !in s.store.handoffs
    ensures Stored(cfg, Next(s, Create(g.lookup, g.session, LookupOf(cfg.sha, l.code), g.handoff)).store, l, g)
  {
    hide LookupOf;
  }

  lemma CreatePlan(cfg: Config, s: World, l: Login, a: Authentication)
    requires a.requested + 600 <= LUA_SAFE_MAX && a.authenticated + 28800 <= LUA_SAFE_MAX
    requires Free(s, {a.session, l.code}) && a.session != l.code && HasUser(s, l.pid + 5) && l.pid + 5 in s.processes
    requires s.processes[l.pid + 5] == CallbackClaimed(LookupOf(cfg.sha, a.oauth), TransactionOf(cfg, l, a).(status := Processing))
    ensures var e := CallbackCreates(l.pid + 5, a.authenticated, a.session, l.code);
            var g := GrantOf(cfg, l, a, UserOf(s, l.pid + 5));
            && Enabled(cfg, s, e)
            && PlanOf(cfg, s, e) == Plan(Create(g.lookup, g.session, LookupOf(cfg.sha, l.code), g.handoff), Over, {a.session, l.code})
  {
    hide LookupOf, QueryOf, IsFixedReference;
    assert New(s, a.session) && New(s, l.code);
  }

  lemma CarriesFacts(cfg: Config, s: World, l: Login, session: string)
    requires Carries(cfg, s, l, session)
    ensures Waits(cfg, s, l) && Free(s, {session, l.code}) && {session, l.code} !! {l.reference, l.csrf}
    ensures LookupOf(cfg.sha, session) !in s.log.state.store.sessions && LookupOf(cfg.sha, l.code) !in s.log.state.store.handoffs
  {
    hide Waits, Free, LookupOf;
  }

  lemma SessionIsCreated(cfg: Config, ss0: seq<World>, es0: seq<Event>, ss: seq<World>, es: seq<Event>, s: World, l: Login, a: Authentication)
    returns (ss': seq<World>, es': seq<Event>, s': World)
    requires a.requested + 600 <= LUA_SAFE_MAX && a.authenticated + 28800 <= LUA_SAFE_MAX && a.session != l.code
    requires Reaches(cfg, ss0, es0, ss, es, s) && Carries(cfg, s, l, a.session) && s.log.state.clock < a.authenticated + 120
    requires HasUser(s, l.pid + 5) && l.pid + 5 in s.processes
    requires s.processes[l.pid + 5] == CallbackClaimed(LookupOf(cfg.sha, a.oauth), TransactionOf(cfg, l, a).(status := Processing))
    ensures Reaches(cfg, ss0, es0, ss', es', s') && Waits(cfg, s', l) && s'.identity == s.identity
    ensures s'.references == s.references + {a.session, l.code}
    ensures Stored(cfg, s'.log.state.store, l, GrantOf(cfg, l, a, UserOf(s, l.pid + 5)))
  {
    hide Do, Enabled, PlanOf, Reaches, Carries, Waits, Stored, LookupOf, QueryOf, Next, Succeeds, Free, HasUser;
    var e := CallbackCreates(l.pid + 5, a.authenticated, a.session, l.code);
    CarriesFacts(cfg, s, l, a.session);
    CreatePlan(cfg, s, l, a);
    FoundationEffect(cfg, s, e);
    ss', es', s' := Logins.Step(cfg, ss0, es0, ss, es, s, e);
    StillWaits(cfg, s, s', l, {a.session, l.code}, l.pid + 5, Over);
    CreateStores(cfg, s.log.state, l, GrantOf(cfg, l, a, UserOf(s, l.pid + 5)));
  }

  // ----- the whole login -----

  lemma NothingStored(cfg: Config, s: World, r: string)
    requires CollisionFree(cfg.sha, s.references + {r}) && RedisOk(cfg, s) && r !in s.references
    ensures LookupOf(cfg.sha, r) !in s.log.state.store.sessions && LookupOf(cfg.sha, r) !in s.log.state.store.handoffs
  {
    hide LookupOf, LogOf, Sendable, TimesKept, Lookups, CollisionFree;
    var x, g := LookupOf(cfg.sha, r), s.log;
    NewLookup(cfg.sha, s.references, r);
    assert (Session, x) !in g.introduced && (Handoff, x) !in g.introduced;
  }

  lemma NewFacts(s: World, references: set<string>, r: string)
    requires Free(s, references) && r in references
    ensures New(s, r) && r !in s.references
  {
    hide IsFixedReference;
  }

  lemma BeginningCarries(cfg: Config, s: World, s': World, l: Login, session: string)
    requires RedisOk(cfg, s) && CollisionFree(cfg.sha, s.references + {session, l.code})
    requires Free(s, {session, l.code}) && {session, l.code} !! {l.reference, l.csrf} && {l.state, l.context, l.verifier} !! {session, l.code}
    requires Waits(cfg, s', l) && s'.log == s.log && s'.references == s.references + {l.state, l.context, l.verifier}
    ensures Carries(cfg, s', l, session)
  {
    hide RedisOk, Free, Waits, LookupOf;
    NewFacts(s, {session, l.code}, session);
    NewFacts(s, {session, l.code}, l.code);
    NothingStored(cfg, s, session);
    NothingStored(cfg, s, l.code);
    StillFree(s, s', {session, l.code}, {l.state, l.context, l.verifier});
  }

  /** The login begins at the portal. */
  lemma Beginning(cfg: Config, ss: seq<World>, es: seq<Event>, l: Login, session: string)
    returns (ss': seq<World>, es': seq<Event>, s': World)
    requires IsRun(cfg, ss, es) && CollisionFree(cfg.sha, ss[|es|].references + {session, l.code})
    requires Ready(cfg, ss[|es|], l) && Free(ss[|es|], {session, l.code})
    requires {session, l.code} !! {l.reference, l.csrf} && {l.state, l.context, l.verifier} !! {session, l.code}
    ensures |ss| == |es| + 1 && Reaches(cfg, ss, es, ss', es', s') && Carries(cfg, s', l, session)
    ensures s'.log == ss[|es|].log && s'.identity == ss[|es|].identity && s'.processes == ss[|es|].processes
    ensures s'.references == ss[|es|].references + {l.state, l.context, l.verifier}
  {
    hide Do, Enabled, Reaches, Carries, Waits, Ready, Free, RedisOk, ProcessesOk, StartsOk, WaitingOk, RequestsOk, MadeOk, SessionsOk;
    Unmoved(cfg, ss, es);
    RunKeepsInv(cfg, ss, es, |es|);
    LoginBegins(cfg, ss[|es|], l);
    ss', es', s' := Logins.Step(cfg, ss, es, ss, es, ss[|es|], PortalLogin(l.started, l.state, l.context, l.verifier));
    BeginningCarries(cfg, ss[|es|], s', l, session);
  }

  lemma IdentityAside(cfg: Config, s: World, l: Login, session: string, db: I.Database)
    requires Carries(cfg, s, l, session)
    ensures Carries(cfg, s.(identity := db), l, session)
  {
    hide LookupOf, IsFixedReference, P.LiveSessions;
  }

  /** From the request at the foundation to the stored handoff. */
  lemma Authenticated(cfg: Config, ss0: seq<World>, es0: seq<Event>, ss: seq<World>, es: seq<Event>, s: World, l: Login, a: Authentication)
    returns (ss': seq<World>, es': seq<Event>, s': World, user: i32)
    requires Reaches(cfg, ss0, es0, ss, es, s) && Carries(cfg, s, l, a.session) && Windows(l, a) && a.session != l.code
    requires l.pid + 4 !in s.processes && l.pid + 5 !in s.processes && l.pid + 6 !in s.processes
    requires l.pid + 5 !in s.identity.resolvers && Resolvable(s.identity, a.who)
    requires var lo, st := LookupOf(cfg.sha, a.oauth), s.log.state.store;
             lo in st.externals && st.externals[lo] == TransactionOf(cfg, l, a)
    ensures Reaches(cfg, ss0, es0, ss', es', s') && Waits(cfg, s', l) && s'.references == s.references + {a.session, l.code}
    ensures Stored(cfg, s'.log.state.store, l, GrantOf(cfg, l, a, user))
    ensures a.who in s'.identity.identities && s'.identity.identities[a.who] == user
  {
    hide Do, Enabled, PlanOf, Reaches, Carries, Waits, Stored, LookupOf, QueryOf, Resolvable, GrantOf;
    ss', es', s' := GoogleReturns(cfg, ss0, es0, ss, es, s, l, a);
    var claimed := s';
    ss', es', s' := UserIsResolved(cfg, ss0, es0, ss', es', s', l.pid + 5, a.who);
    IdentityAside(cfg, claimed, l, a.session, s'.identity);
    user := UserOf(s', l.pid + 5);
    TickGoesOn(cfg, s', l, a.session, l.pid + 6, a.created);
    ss', es', s' := Logins.Step(cfg, ss0, es0, ss', es', s', ClockSet(l.pid + 6, a.created));
    ss', es', s' := SessionIsCreated(cfg, ss0, es0, ss', es', s', l, a);
  }

  function AllDrawn(l: Login, a: Authentication): set<string> {
    {l.state, l.context, l.verifier, a.oauth, a.session, l.code, l.reference, l.csrf}
  }

  /**
    Every run can be continued by a login through Google to a portal session for the user of its Google
    subject, new or known, whichever way the browser arrives at the foundation, if the portal has room,
    the subject can be resolved, and the windows are kept: Google returns and the browser returns within
    ten minutes, and the code is exchanged, by the Redis clock, within two minutes of the authentication.
    A session that the browser had when it arrived is gone in the end.
  */
  lemma FirstLoginSucceeds(cfg: Config, ss: seq<World>, es: seq<Event>, l: Login, a: Authentication, x: Entry)
    returns (ss': seq<World>, es': seq<Event>)
    requires IsRun(cfg, ss, es) && CollisionFree(cfg.sha, ss[|es|].references + AllDrawn(l, a) + EntryDraws(x))
    requires Ready(cfg, ss[|es|], l) && CanAuthenticate(cfg, ss[|es|], l, a)
    requires EntryFits(cfg, ss[|es|], x, a.requested) && Free(ss[|es|], EntryDraws(x)) && EntryDraws(x) !! AllDrawn(l, a)
    ensures CollisionFreeRun(cfg, ss', es') && es <= es' && ss <= ss' && |ss'| == |es'| + 1
    ensures var s' := ss'[|es'|];
            && a.who in s'.identity.identities && LoggedIn(cfg, s', l, s'.identity.identities[a.who], a.authenticated)
            && (x.ExpiredCookie? || x.LostSession? || x.LapsedSession? ==> LookupOf(cfg.sha, x.cookie) !in s'.log.state.store.sessions)
  {
    hide Do, Enabled, Reaches, Carries, Waits, Free, LoggedIn, Resolvable, CollisionFree, Ready, InTime, AtGoogle, EntryFits, Inv,
         Coherent, LookupOf, IsRun;
    var s0 := Last(cfg, ss, es);
    var all := s0.references + AllDrawn(l, a) + EntryDraws(x);
    FewerCollisions(cfg.sha, all, s0.references + {a.session, l.code});
    var s1, ss1, es1;
    ss1, es1, s1 := Arriving(cfg, ss, es, l, a, x);
    Restart(cfg, ss, es, ss1, es1, s1);
    var s2;
    ss', es', s2 := LoginGoesOn(cfg, ss1, es1, ss1, es1, s1, l, a, x);
    assert s2.references == all;
    Finished(cfg, ss1, es1, ss', es', s2);
    Joined(cfg, ss, es, ss1, es1, s1, ss', es', s2);
    if x.ExpiredCookie? || x.LostSession? || x.LapsedSession? {
      StaysGone(cfg, ss, es, ss1, es1, s1, ss', es', s2, l, a, x);
    }
  }

  lemma Last(cfg: Config, ss: seq<World>, es: seq<Event>) returns (s: World)
    requires IsRun(cfg, ss, es)
    ensures |ss| == |es| + 1 && s == ss[|es|]
  {
    hide Do, Enabled;
    s := ss[|es|];
  }

  lemma Restart(cfg: Config, ss: seq<World>, es: seq<Event>, ss1: seq<World>, es1: seq<Event>, s1: World)
    requires Reaches(cfg, ss, es, ss1, es1, s1)
    ensures |ss1| == |es1| + 1 && ss1[|es1|] == s1 && Reaches(cfg, ss1, es1, ss1, es1, s1)
  {
    hide Do, Enabled;
    Unmoved(cfg, ss1, es1);
  }

  lemma Joined(cfg: Config, ss: seq<World>, es: seq<Event>, ss1: seq<World>, es1: seq<Event>, s1: World,
               ss2: seq<World>, es2: seq<Event>, s2: World)
    requires Reaches(cfg, ss, es, ss1, es1, s1) && Reaches(cfg, ss1, es1, ss2, es2, s2)
    ensures es <= es1 <= es2 && ss <= ss1 <= ss2 && |ss| == |es| + 1 && |ss1| == |es1| + 1 && |ss2| == |es2| + 1
    ensures ss2[|es|] == ss[|es|] && ss2[|es1|] == s1 && ss2[|es2|] == s2
  {
    hide IsRun;
  }

  /** The session that the browser had was once introduced, so it does not come back. */
  lemma StaysGone(cfg: Config, ss: seq<World>, es: seq<Event>, ss1: seq<World>, es1: seq<Event>, s1: World,
                  ss2: seq<World>, es2: seq<Event>, s2: World, l: Login, a: Authentication, x: Entry)
    requires Reaches(cfg, ss, es, ss1, es1, s1) && Reaches(cfg, ss1, es1, ss2, es2, s2) && CollisionFreeRun(cfg, ss2, es2)
    requires x.ExpiredCookie? || x.LostSession? || x.LapsedSession?
    requires |ss| == |es| + 1 && EntryFits(cfg, ss[|es|], x, a.requested) && AtGoogle(cfg, s1, l, a.session, x, a.requested)
    ensures LookupOf(cfg.sha, x.cookie) !in s2.log.state.store.sessions
  {
    hide Do, Enabled, Reaches, Carries, CollisionFree, LookupOf, IsRun, QueryOf, RedisOk, ProcessesOk, StartsOk, WaitingOk, RequestsOk, MadeOk, SessionsOk;
    var k := LookupOf(cfg.sha, x.cookie);
    Joined(cfg, ss, es, ss1, es1, s1, ss2, es2, s2);
    RunKeepsInv(cfg, ss2, es2, |es|);
    StoredIsIntroduced(cfg, ss2[|es|], k);
    IntroducedStays(cfg, ss2, es2, |es|, |es1|, k);
    GoneIsGone(cfg, ss2, es2, |es1|, |es2|, k);
  }

  lemma StoredIsIntroduced(cfg: Config, s: World, k: string)
    requires RedisOk(cfg, s) && k in s.log.state.store.sessions
    ensures (Session, k) in s.log.introduced
  {
    hide LogOf, Sendable, TimesKept, Lookups, ExternalsAsWritten, HandoffsAsIssued, IssuedForCreated;
  }

  lemma IntroducedStep(cfg: Config, s: World, e: Event)
    requires Enabled(cfg, s, e)
    ensures s.log.introduced <= Do(cfg, s, e).log.introduced
  {
    hide Do, Enabled, PlanOf, Succeeds, Next, Introduces;
    LogStep(cfg, s, e);
  }

  lemma {:induction false} IntroducedStays(cfg: Config, ss: seq<World>, es: seq<Event>, m: nat, n: nat, k: string)
    requires IsRun(cfg, ss, es) && m <= n <= |es| && (Session, k) in ss[m].log.introduced
    ensures (Session, k) in ss[n].log.introduced
    decreases n
  {
    hide Do, Enabled;
    if m < n {
      IntroducedStays(cfg, ss, es, m, n - 1, k);
      IntroducedStep(cfg, ss[n - 1], es[n - 1]);
    }
  }

  /** From the login at the portal to the beginning of a login with Google. */
  lemma Arriving(cfg: Config, ss: seq<World>, es: seq<Event>, l: Login, a: Authentication, x: Entry)
    returns (ss': seq<World>, es': seq<Event>, s': World)
    requires IsRun(cfg, ss, es) && CollisionFree(cfg.sha, ss[|es|].references + {a.session, l.code})
    requires Ready(cfg, ss[|es|], l) && CanAuthenticate(cfg, ss[|es|], l, a)
    requires EntryFits(cfg, ss[|es|], x, a.requested) && Free(ss[|es|], EntryDraws(x)) && EntryDraws(x) !! AllDrawn(l, a)
    ensures |ss| == |es| + 1 && Reaches(cfg, ss, es, ss', es', s') && AtGoogle(cfg, s', l, a.session, x, a.requested) && InTime(s', l, a)
    ensures s'.identity == ss[|es|].identity
    ensures s'.references == ss[|es|].references + {l.state, l.context, l.verifier} + EntryDraws(x)
    ensures Free(s', {a.oauth}) && l.pid + 4 !in s'.processes && l.pid + 5 !in s'.processes && l.pid + 6 !in s'.processes
  {
    hide Do, Enabled, Reaches, Carries, Waits, Free, Resolvable, CollisionFree, Ready, AtGoogle, EntryFits, EntryDraws, Utf8.Valid;
    var s0 := ss[|es|];
    ReadyFacts(cfg, s0, l);
    ss', es', s' := Beginning(cfg, ss, es, l, a.session);
    var begun := s';
    SameEntry(cfg, s0, begun, x, a.requested);
    StillFree(s0, begun, EntryDraws(x), {l.state, l.context, l.verifier});
    StillFree(s0, begun, {a.oauth}, {l.state, l.context, l.verifier});
    EntryInTime(cfg, begun, x, a.requested);
    ss', es', s' := Enters(cfg, ss, es, ss', es', s', l, a.session, x, a.requested);
    StillFree(begun, s', {a.oauth}, EntryDraws(x));
  }

  lemma SameEntry(cfg: Config, s: World, s': World, x: Entry, requested: u64)
    requires EntryFits(cfg, s, x, requested) && s'.log == s.log && s'.identity == s.identity
    ensures EntryFits(cfg, s', x, requested)
  {
    hide LookupOf;
  }

  lemma EntryInTime(cfg: Config, s: World, x: Entry, requested: u64)
    requires EntryFits(cfg, s, x, requested)
    ensures x.LapsedSession? ==> x.at < requested + 600
  {
    hide LookupOf;
  }

  lemma ReadyFacts(cfg: Config, s: World, l: Login)
    requires Ready(cfg, s, l)
    ensures Utf8.Valid(cfg.portalService) && l.pid + 3 !in s.processes && l.pid + 4 !in s.processes
    ensures l.pid + 5 !in s.processes && l.pid + 6 !in s.processes && l.pid + 7 !in s.processes
  {
    hide Sane, Free, Utf8.Valid;
  }

  /** From the beginning of a login with Google to the portal session. */
  lemma LoginGoesOn(cfg: Config, ss0: seq<World>, es0: seq<Event>, ss: seq<World>, es: seq<Event>, s: World, l: Login, a: Authentication, x: Entry)
    returns (ss': seq<World>, es': seq<Event>, s': World)
    requires Reaches(cfg, ss0, es0, ss, es, s) && AtGoogle(cfg, s, l, a.session, x, a.requested) && InTime(s, l, a)
    requires Free(s, {a.oauth}) && {a.oauth} !! {a.session, l.code, l.reference, l.csrf} && a.session != l.code
    requires l.pid + 4 !in s.processes && l.pid + 5 !in s.processes && l.pid + 6 !in s.processes
    requires l.pid + 5 !in s.identity.resolvers && Resolvable(s.identity, a.who)
    ensures Reaches(cfg, ss0, es0, ss', es', s') && s'.references == s.references + {a.oauth, a.session, l.code, l.reference, l.csrf}
    ensures a.who in s'.identity.identities && LoggedIn(cfg, s', l, s'.identity.identities[a.who], a.authenticated)
  {
    hide Do, Enabled, Reaches, Carries, Waits, Free, Stored, LookupOf, QueryOf, LoggedIn, Resolvable, GrantOf, Grants;
    NewFacts(s, {a.oauth}, a.oauth);
    ss', es', s' := TransactionIsWritten(cfg, ss0, es0, ss, es, s, l, a);
    var user;
    ss', es', s', user := Authenticated(cfg, ss0, es0, ss', es', s', l, a);
    GrantIsGood(cfg, l, a, user);
    GrantUser(cfg, l, a, user);
    ss', es', s' := LoginEnds(cfg, ss0, es0, ss', es', s', l, GrantOf(cfg, l, a, user));
  }

  lemma GrantUser(cfg: Config, l: Login, a: Authentication, user: i32)
    requires a.requested + 600 <= LUA_SAFE_MAX && a.authenticated + 28800 <= LUA_SAFE_MAX
    ensures var g := GrantOf(cfg, l, a, user); g.session.internalUserId == user && g.session.authenticatedAt == a.authenticated
  {
  }

  lemma FewerCollisions(sha: Hash, all: set<string>, some: set<string>)
    requires CollisionFree(sha, all) && some <= all
    ensures CollisionFree(sha, some)
  {
  }

  lemma Finished(cfg: Config, ss: seq<World>, es: seq<Event>, ss': seq<World>, es': seq<Event>, s: World)
    requires Reaches(cfg, ss, es, ss', es', s) && CollisionFree(cfg.sha, s.references)
    ensures CollisionFreeRun(cfg, ss', es') && es <= es' && ss <= ss' && |ss'| == |es'| + 1 && ss'[|es'|] == s
  {
    hide IsRun, CollisionFree;
  }
}
