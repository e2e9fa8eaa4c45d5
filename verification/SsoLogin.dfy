/** A login with a common session, and a run that shows that none of this is empty. */
module SsoLogin {
  import opened Common
  import opened Decimal
  import opened References
  import opened Records
  import opened Answers
  import opened Protocol
  import opened Runs
  import opened RunTheorems
  import opened RunRefinement
  import opened System
  import opened Agreement
  import opened EndToEnd
  import opened History
  import opened Progress
  import opened Logins
  import opened Entries
  import opened FirstLogin
  import P = Portal
  import I = Identity
  import Utf8

  /** The browser's cookie, the session it stands for, the foundation's time and the Redis time of issuing. */
  datatype Visit = Visit(cookie: string, session: CommonSession, requested: u64, issued: nat)

  /** The session lives on both clocks until the code is exchanged, within two minutes. */
  predicate SessionLives(l: Login, v: Visit) {
    && v.requested < v.session.expiresAt && v.issued < v.session.expiresAt && l.exchanged < v.session.expiresAt
    && v.issued < v.requested + 120 && l.exchanged < v.requested + 120 <= LUA_SAFE_MAX
  }

  predicate HasSession(cfg: Config, s: World, v: Visit) {
    var k := LookupOf(cfg.sha, v.cookie);
    k in s.log.state.store.sessions && s.log.state.store.sessions[k] == v.session
  }

  function GrantFor(cfg: Config, l: Login, v: Visit): Grant
    requires v.requested + 120 <= LUA_SAFE_MAX
  {
    Grant(LookupOf(cfg.sha, v.cookie), v.session, SsoHandoff(cfg, QueryOf(cfg, l), v.cookie, v.session, v.requested))
  }

  lemma GrantIsFine(cfg: Config, l: Login, v: Visit)
    requires SessionLives(l, v) && SafeSession(v.session)
    ensures Grants(cfg, l, GrantFor(cfg, l, v))
  {
    hide LookupOf, Challenge;
  }

  lemma StoredIsSafe(cfg: Config, s: World, v: Visit)
    requires RedisOk(cfg, s) && HasSession(cfg, s, v)
    ensures SafeSession(v.session)
  {
    hide LogOf, Sendable, TimesKept, Lookups, LookupOf;
  }

  lemma IssueStores(cfg: Config, s: State, l: Login, g: Grant)
    requires Fits(g.handoff, g.lookup, g.session) && SafeSession(g.session) && s.clock < g.handoff.expiresAt && s.clock < g.session.expiresAt
    requires g.lookup in s.store.sessions && s.store.sessions[g.lookup] == g.session && LookupOf(cfg.sha, l.code) !in s.store.handoffs
    ensures var c := Issue(g.lookup, LookupOf(cfg.sha, l.code), g.handoff);
            Stored(cfg, Next(s, c).store, l, g) && AnswerTo(s, c) == Issued
  {
    hide LookupOf;
  }

  lemma IssuePlanned(cfg: Config, s: World, l: Login, v: Visit)
    requires v.requested + 120 <= LUA_SAFE_MAX && New(s, l.code) && l.pid + 3 in s.processes
    requires s.processes[l.pid + 3] == LoginChecked(QueryOf(cfg, l), v.cookie, v.session, v.requested)
    requires var g := GrantFor(cfg, l, v); AnswerTo(s.log.state, Issue(g.lookup, LookupOf(cfg.sha, l.code), g.handoff)) == Issued
    ensures var e, g := LoginIssues(l.pid + 3, l.code), GrantFor(cfg, l, v);
            && Enabled(cfg, s, e)
            && PlanOf(cfg, s, e) == Plan(Issue(g.lookup, LookupOf(cfg.sha, l.code), g.handoff), Over, {l.code})
  {
    hide LookupOf, QueryOf, AnswerTo, New;
  }

  lemma VisitIsRead(cfg: Config, ss0: seq<World>, es0: seq<Event>, ss: seq<World>, es: seq<Event>, s: World, l: Login, v: Visit)
    returns (ss': seq<World>, es': seq<Event>, s': World)
    requires Reaches(cfg, ss0, es0, ss, es, s) && Carries(cfg, s, l, l.code) && HasSession(cfg, s, v) && SessionLives(l, v)
    requires Eligible(s, v.session) && Utf8.Valid(cfg.portalService) && l.pid + 3 !in s.processes && l.pid + 4 !in s.processes
    ensures Reaches(cfg, ss0, es0, ss', es', s') && Carries(cfg, s', l, l.code) && HasSession(cfg, s', v) && s'.references == s.references
    ensures s'.log.state.clock == v.issued && l.pid + 3 in s'.processes
    ensures s'.processes[l.pid + 3] == LoginChecked(QueryOf(cfg, l), v.cookie, v.session, v.requested)
  {
    hide Do, Enabled, PlanOf, Reaches, Carries, LookupOf, QueryOf, Utf8.Valid;
    ss', es', s' := CookieIsRead(cfg, ss0, es0, ss, es, s, l, l.code, v.cookie, v.requested);
    ss', es', s' := UserIsChecked(cfg, ss0, es0, ss', es', s', l, l.code, v.cookie, v.session, v.requested);
    TickGoesOn(cfg, s', l, l.code, l.pid + 4, v.issued);
    ss', es', s' := Logins.Step(cfg, ss0, es0, ss', es', s', ClockSet(l.pid + 4, v.issued));
  }

  lemma HandoffIsIssued(cfg: Config, ss0: seq<World>, es0: seq<Event>, ss: seq<World>, es: seq<Event>, s: World, l: Login, v: Visit)
    returns (ss': seq<World>, es': seq<Event>, s': World)
    requires Reaches(cfg, ss0, es0, ss, es, s) && Carries(cfg, s, l, l.code) && HasSession(cfg, s, v) && SessionLives(l, v)
    requires SafeSession(v.session) && s.log.state.clock == v.issued && l.pid + 3 in s.processes
    requires s.processes[l.pid + 3] == LoginChecked(QueryOf(cfg, l), v.cookie, v.session, v.requested)
    ensures Reaches(cfg, ss0, es0, ss', es', s') && Waits(cfg, s', l) && s'.references == s.references + {l.code}
    ensures Stored(cfg, s'.log.state.store, l, GrantFor(cfg, l, v))
  {
    hide Do, Enabled, PlanOf, Reaches, Carries, Waits, Free, Stored, LookupOf, QueryOf, Next, Succeeds, AnswerTo, New;
    var e, g := LoginIssues(l.pid + 3, l.code), GrantFor(cfg, l, v);
    CarriesFacts(cfg, s, l, l.code);
    NewFacts(s, {l.code, l.code}, l.code);
    IssueStores(cfg, s.log.state, l, g);
    IssuePlanned(cfg, s, l, v);
    FoundationEffect(cfg, s, e);
    ss', es', s' := Logins.Step(cfg, ss0, es0, ss, es, s, e);
    StillWaits(cfg, s, s', l, {l.code}, l.pid + 3, Over);
  }

  lemma VisitGoesOn(cfg: Config, ss0: seq<World>, es0: seq<Event>, ss: seq<World>, es: seq<Event>, s: World, l: Login, v: Visit)
    returns (ss': seq<World>, es': seq<Event>, s': World)
    requires Reaches(cfg, ss0, es0, ss, es, s) && Carries(cfg, s, l, l.code) && HasSession(cfg, s, v) && SessionLives(l, v)
    requires SafeSession(v.session) && Eligible(s, v.session) && Utf8.Valid(cfg.portalService) && l.pid + 3 !in s.processes && l.pid + 4 !in s.processes
    ensures Reaches(cfg, ss0, es0, ss', es', s') && s'.references == s.references + {l.code, l.reference, l.csrf}
    ensures LoggedIn(cfg, s', l, v.session.internalUserId, v.session.authenticatedAt)
  {
    hide Do, Enabled, Reaches, Carries, Waits, Stored, LookupOf, QueryOf, LoggedIn, Grants, ValidQuery, HasSession, Utf8.Valid;
    ss', es', s' := VisitIsRead(cfg, ss0, es0, ss, es, s, l, v);
    ss', es', s' := HandoffIsIssued(cfg, ss0, es0, ss', es', s', l, v);
    GrantIsFine(cfg, l, v);
    ss', es', s' := LoginEnds(cfg, ss0, es0, ss', es', s', l, GrantFor(cfg, l, v));
  }

  lemma SameSession(cfg: Config, s: World, s': World, v: Visit)
    requires HasSession(cfg, s, v) && s'.log == s.log
    ensures HasSession(cfg, s', v)
  {
  }

  /**
    Every run in which a browser has a common session of an enabled user can be continued by a login
    with it, without Google, to a portal session for that user and with its time of authentication.
  */
  lemma SsoLoginSucceeds(cfg: Config, ss: seq<World>, es: seq<Event>, l: Login, v: Visit)
    returns (ss': seq<World>, es': seq<Event>)
    requires IsRun(cfg, ss, es) && CollisionFree(cfg.sha, ss[|es|].references + {l.state, l.context, l.verifier, l.code, l.reference, l.csrf})
    requires Ready(cfg, ss[|es|], l) && Free(ss[|es|], {l.code})
    requires {l.state, l.context, l.verifier} !! {l.code} && {l.code} !! {l.reference, l.csrf}
    requires HasSession(cfg, ss[|es|], v) && SessionLives(l, v) && Eligible(ss[|es|], v.session)
    ensures CollisionFreeRun(cfg, ss', es') && es <= es' && ss <= ss' && |ss'| == |es'| + 1
    ensures LoggedIn(cfg, ss'[|es'|], l, v.session.internalUserId, v.session.authenticatedAt)
  {
    hide Do, Enabled, Reaches, Carries, Waits, Free, LoggedIn, CollisionFree, Ready, SessionLives, HasSession,
         RedisOk, ProcessesOk, StartsOk, WaitingOk, RequestsOk, MadeOk, SessionsOk;
    var s0, s, all := ss[|es|], ss[|es|], {l.state, l.context, l.verifier, l.code, l.reference, l.csrf};
    FewerCollisions(cfg.sha, s0.references + all, s0.references + {l.code, l.code});
    FewerCollisions(cfg.sha, s0.references + all, s0.references);
    RunKeepsInv(cfg, ss, es, |es|);
    StoredIsSafe(cfg, s0, v);
    ReadyFacts(cfg, s0, l);
    assert {l.code, l.code} == {l.code};
    ss', es', s := Beginning(cfg, ss, es, l, l.code);
    SameSession(cfg, s0, s, v);
    ss', es', s := VisitGoesOn(cfg, ss, es, ss', es', s, l, v);
    assert s.references == s0.references + all;
    Finished(cfg, ss, es, ss', es', s);
  }

  // ----- the hypotheses can be met -----

  /** A hash that tells references apart by their first character. */
  function FirstCharacter(s: string): Digest {
    seq(32, i => if s == "" then 0 else s[0] as int % 256)
  }

  function Repeated(c: char): string {
    seq(43, i => c)
  }

  lemma RepeatedIsReference(c: char)
    requires IsBase64UrlChar(c)
    ensures IsFixedReference(Repeated(c)) && Repeated(c)[0] == c
  {
  }

  lemma FirstCharactersDiffer(a: string, b: string)
    requires a != "" && b != "" && a[0] < 128 as char && b[0] < 128 as char && FirstCharacter(a) == FirstCharacter(b)
    ensures a[0] == b[0]
  {
    assert FirstCharacter(a)[0] == FirstCharacter(b)[0];
  }

  const SAMPLE: Config := Config(FirstCharacter, "portal", P.Limits(1, 1))

  const LOGIN: Login := Login(
    0, Repeated('a'), Repeated('b'), Repeated('c'), Repeated('d'), Repeated('e'), Repeated('f'), 1000, 1300, 1310, 1290)

  const AUTHENTICATION: Authentication := Authentication(
    Repeated('g'), Repeated('h'), I.Identifier("google", "1"), 1005, 1200, 1190, 1210)

  /** There is a run without collisions that ends with a portal session: the statements above are about something. */
  lemma SomeRunLogsIn() returns (ss: seq<World>, es: seq<Event>)
    ensures CollisionFreeRun(SAMPLE, ss, es) && ss[|es|].portal.sessions != map[]
  {
    hide Do, Enabled, IsFixedReference, Repeated, FirstCharacter, IsRun, Ready, CanAuthenticate, CollisionFree, LoggedIn, LookupOf;
    SampleIsCollisionFree();
    SampleIsReady();
    InitialRun();
    ss, es := FirstLoginSucceeds(SAMPLE, [INITIAL], [], LOGIN, AUTHENTICATION, NoCookie);
    SessionIsThere(SAMPLE, ss[|es|], LOGIN, ss[|es|].identity.identities[AUTHENTICATION.who], AUTHENTICATION.authenticated);
  }

  lemma InitialRun()
    ensures IsRun(SAMPLE, [INITIAL], [])
  {
  }

  lemma SessionIsThere(cfg: Config, s: World, l: Login, user: i32, at: u64)
    requires LoggedIn(cfg, s, l, user, at)
    ensures s.portal.sessions != map[]
  {
    assert P.GetSessionStep(s.portal, l.reference, 0).outcome.SessionFound?;
  }

  lemma SampleIsCollisionFree()
    ensures CollisionFree(SAMPLE.sha, INITIAL.references + AllDrawn(LOGIN, AUTHENTICATION) + EntryDraws(NoCookie))
  {
    var all := INITIAL.references + AllDrawn(LOGIN, AUTHENTICATION) + EntryDraws(NoCookie);
    forall a, b | a in all && b in all && SAMPLE.sha(a) == SAMPLE.sha(b)
      ensures a == b
    {
      FirstCharactersDiffer(a, b);
    }
  }

  lemma SampleIsReady()
    ensures Ready(SAMPLE, INITIAL, LOGIN) && CanAuthenticate(SAMPLE, INITIAL, LOGIN, AUTHENTICATION)
  {
    hide Ready, CanAuthenticate;
    PortalIsReady();
    FoundationIsReady();
  }

  /** The eight references are references, and differ. */
  lemma SampleReferences()
    ensures forall c, d | 'a' <= c <= 'h' && 'a' <= d <= 'h' && c != d :: Repeated(c) != Repeated(d)
    ensures forall c | 'a' <= c <= 'h' :: IsFixedReference(Repeated(c))
  {
    forall c | 'a' <= c <= 'h'
      ensures IsFixedReference(Repeated(c)) && Repeated(c)[0] == c
    {
      RepeatedIsReference(c);
    }
  }

  lemma PortalIsReady()
    ensures Ready(SAMPLE, INITIAL, LOGIN)
  {
    hide Repeated, IsFixedReference, Utf8.Valid;
    SampleReferences();
    PortalIsText();
    assert P.LiveStarts(map[], 1000) == map[] && P.LiveSessions(map[], 1310) == map[];
  }

  lemma PortalIsText()
    ensures Utf8.Valid("portal")
  {
    forall i | 0 <= i < |"portal"|
      ensures "portal"[i] as int < 0x80
    {
    }
    Utf8.AsciiIsValid("portal");
  }

  lemma FoundationIsReady()
    ensures CanAuthenticate(SAMPLE, INITIAL, LOGIN, AUTHENTICATION)
  {
    hide Repeated, IsFixedReference;
    SampleReferences();
  }
}
