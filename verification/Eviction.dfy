/**
  Redis may drop an expired record at any moment, or never.  The scripts cannot tell: two servers
  that get the same commands, one of which drops expired records whenever it likes, give the same
  answers up to the difference between NotFound and Expired, which no handler shows.
*/
module Eviction {
  import opened Common
  import opened Decimal
  import opened References
  import opened Records
  import opened Answers
  import opened Protocol

  /** All that `m'` lacks of `m` is gone in any case; and everything in `m` is safe. */
  ghost predicate FadedMap<V(!new)>(m: map<string, V>, m': map<string, V>, gone: V -> bool, safe: V -> bool) {
    && (forall l | l in m' :: l in m && m'[l] == m[l])
    && (forall l | l in m && l !in m' :: gone(m[l]))
    && (forall l | l in m :: safe(m[l]))
  }

  lemma FadedAt<V(!new)>(m: map<string, V>, m': map<string, V>, gone: V -> bool, safe: V -> bool, l: string)
    requires FadedMap(m, m', gone, safe)
    ensures l in m' ==> l in m && m'[l] == m[l]
    ensures l in m ==> safe(m[l]) && (l !in m' ==> gone(m[l]))
  {
  }

  lemma FadedPut<V(!new)>(m: map<string, V>, m': map<string, V>, gone: V -> bool, safe: V -> bool, l: string, v: V)
    requires FadedMap(m, m', gone, safe) && safe(v)
    ensures FadedMap(m[l := v], m'[l := v], gone, safe)
  {
  }

  lemma FadedDrop<V(!new)>(m: map<string, V>, m': map<string, V>, gone: V -> bool, safe: V -> bool, l: string)
    requires FadedMap(m, m', gone, safe)
    ensures FadedMap(m - {l}, m' - {l}, gone, safe)
    ensures l !in m' ==> FadedMap(m - {l}, m', gone, safe)
    ensures l in m && gone(m[l]) ==> FadedMap(m, m' - {l}, gone, safe)
  {
    if l !in m' {
      assert m' - {l} == m';
    }
  }

  /** Times that the scripts can hold exactly. */
  predicate SafeTimes(createdAt: u64, expiresAt: u64) {
    createdAt <= LUA_SAFE_MAX && expiresAt <= LUA_SAFE_MAX
  }

  function ExternalGone(now: nat): ExternalAuthTransaction -> bool { (r: ExternalAuthTransaction) => r.expiresAt <= now }
  function SessionGone(now: nat): CommonSession -> bool { (r: CommonSession) => r.expiresAt <= now }
  function HandoffGone(now: nat): AuthenticationHandoff -> bool { (r: AuthenticationHandoff) => r.expiresAt <= now }
  function LogoutGone(now: nat): CommonLogoutTransaction -> bool { (r: CommonLogoutTransaction) => r.expiresAt <= now }

  predicate ExternalSafe(r: ExternalAuthTransaction) { SafeTimes(r.createdAt, r.expiresAt) }
  predicate LogoutSafe(r: CommonLogoutTransaction) { SafeTimes(r.createdAt, r.expiresAt) }

  ghost predicate FadedExternals(full: Store, thin: Store, now: nat) {
    FadedMap(full.externals, thin.externals, ExternalGone(now), ExternalSafe)
  }

  ghost predicate FadedSessions(full: Store, thin: Store, now: nat) {
    FadedMap(full.sessions, thin.sessions, SessionGone(now), SafeSession)
  }

  ghost predicate FadedHandoffs(full: Store, thin: Store, now: nat) {
    FadedMap(full.handoffs, thin.handoffs, HandoffGone(now), SafeHandoff)
  }

  ghost predicate FadedLogouts(full: Store, thin: Store, now: nat) {
    FadedMap(full.logouts, thin.logouts, LogoutGone(now), LogoutSafe)
  }

  /** `thin` lacks nothing of `full` but records that have expired; all times are safe. */
  ghost predicate Faded(full: Store, thin: Store, now: nat) {
    FadedExternals(full, thin, now) && FadedSessions(full, thin, now) && FadedHandoffs(full, thin, now) && FadedLogouts(full, thin, now)
  }

  /** A command creates its records under keys that are free, with safe times. */
  predicate Unused(st: Store, c: Command) {
    && (c.WriteExternal? ==> c.external !in st.externals && SafeTimes(c.transaction.createdAt, c.transaction.expiresAt))
    && (c.WriteLogout? ==> c.logout !in st.logouts && SafeTimes(c.logoutRecord.createdAt, c.logoutRecord.expiresAt))
    && (c.Issue? ==> c.handoff !in st.handoffs)
    && (c.Create? ==> c.session !in st.sessions && c.handoff !in st.handoffs)
  }

  /** The scripts, the writes and the clock; plain reads do see what has been dropped. */
  predicate Blind(c: Command) {
    !c.ReadSession? && !c.TypeHandoff? && !c.ReadLookup?
  }

  ghost predicate Alike(full: Store, thin: Store, now: nat, c: Command) {
    && Blurred(Run(full, now, c).answer) == Blurred(Run(thin, now, c).answer)
    && Faded(Run(full, now, c).store, Run(thin, now, c).store, now)
  }

  lemma ClaimAlike(full: Store, thin: Store, now: nat, l: string)
    requires Faded(full, thin, now)
    ensures Alike(full, thin, now, Claim(l))
  {
    hide FadedMap;
    var gone := ExternalGone(now);
    FadedAt(full.externals, thin.externals, gone, ExternalSafe, l);
    FadedDrop(full.externals, thin.externals, gone, ExternalSafe, l);
    if l in full.externals {
      FadedPut(full.externals, thin.externals, gone, ExternalSafe, l, full.externals[l].(status := Processing));
    }
  }

  lemma IssueAlike(full: Store, thin: Store, now: nat, c: Command)
    requires Faded(full, thin, now) && c.Issue? && Unused(full, c)
    ensures Alike(full, thin, now, c)
  {
    hide FadedMap;
    FadedAt(full.sessions, thin.sessions, SessionGone(now), SafeSession, c.session);
    FadedDrop(full.sessions, thin.sessions, SessionGone(now), SafeSession, c.session);
    FadedAt(full.handoffs, thin.handoffs, HandoffGone(now), SafeHandoff, c.handoff);
    if SafeHandoff(c.record) {
      FadedPut(full.handoffs, thin.handoffs, HandoffGone(now), SafeHandoff, c.handoff, c.record);
    }
  }

  lemma CreateAlike(full: Store, thin: Store, now: nat, c: Command)
    requires Faded(full, thin, now) && c.Create? && Unused(full, c)
    ensures Alike(full, thin, now, c)
  {
    hide FadedMap;
    FadedAt(full.sessions, thin.sessions, SessionGone(now), SafeSession, c.session);
    FadedAt(full.handoffs, thin.handoffs, HandoffGone(now), SafeHandoff, c.handoff);
    if SafeHandoff(c.record) && SafeSession(c.sessionRecord) {
      FadedPut(full.sessions, thin.sessions, SessionGone(now), SafeSession, c.session, c.sessionRecord);
      FadedPut(full.handoffs, thin.handoffs, HandoffGone(now), SafeHandoff, c.handoff, c.record);
    }
  }

  lemma ExchangeAlike(full: Store, thin: Store, now: nat, c: Command)
    requires Faded(full, thin, now) && c.Exchange?
    ensures Alike(full, thin, now, c)
  {
    hide FadedMap;
    FadedAt(full.sessions, thin.sessions, SessionGone(now), SafeSession, c.session);
    FadedDrop(full.sessions, thin.sessions, SessionGone(now), SafeSession, c.session);
    FadedAt(full.handoffs, thin.handoffs, HandoffGone(now), SafeHandoff, c.handoff);
    FadedDrop(full.handoffs, thin.handoffs, HandoffGone(now), SafeHandoff, c.handoff);
    if c.handoff in full.handoffs {
      FadedPut(full.handoffs, thin.handoffs, HandoffGone(now), SafeHandoff, c.handoff, full.handoffs[c.handoff].(status := Used));
    }
  }

  lemma LogoutAlike(full: Store, thin: Store, now: nat, c: Command)
    requires Faded(full, thin, now) && c.CompleteLogout?
    ensures Alike(full, thin, now, c)
  {
    hide FadedMap;
    FadedDrop(full.sessions, thin.sessions, SessionGone(now), SafeSession, c.session);
    FadedAt(full.logouts, thin.logouts, LogoutGone(now), LogoutSafe, c.logout);
    FadedDrop(full.logouts, thin.logouts, LogoutGone(now), LogoutSafe, c.logout);
    if c.logout in full.logouts {
      FadedPut(full.logouts, thin.logouts, LogoutGone(now), LogoutSafe, c.logout, full.logouts[c.logout].(status := Used));
    }
  }

  lemma WritingAlike(full: Store, thin: Store, now: nat, c: Command)
    requires Faded(full, thin, now) && Unused(full, c) && (c.WriteExternal? || c.WriteLogout?)
    ensures Alike(full, thin, now, c)
  {
    hide FadedMap;
    if c.WriteExternal? {
      FadedPut(full.externals, thin.externals, ExternalGone(now), ExternalSafe, c.external, c.transaction);
    } else {
      FadedPut(full.logouts, thin.logouts, LogoutGone(now), LogoutSafe, c.logout, c.logoutRecord);
    }
  }

  lemma LosingAlike(full: Store, thin: Store, now: nat, f: Family, l: string)
    requires Faded(full, thin, now)
    ensures Faded(Without(full, f, l), Without(thin, f, l), now)
    ensures Expiry(thin, f, l).Some? && Expiry(thin, f, l).value <= now ==> Faded(full, Without(thin, f, l), now)
  {
    hide FadedMap;
    match f
    case External =>
      FadedAt(full.externals, thin.externals, ExternalGone(now), ExternalSafe, l);
      FadedDrop(full.externals, thin.externals, ExternalGone(now), ExternalSafe, l);
    case Session =>
      FadedAt(full.sessions, thin.sessions, SessionGone(now), SafeSession, l);
      FadedDrop(full.sessions, thin.sessions, SessionGone(now), SafeSession, l);
    case Handoff =>
      FadedAt(full.handoffs, thin.handoffs, HandoffGone(now), SafeHandoff, l);
      FadedDrop(full.handoffs, thin.handoffs, HandoffGone(now), SafeHandoff, l);
    case Logout =>
      FadedAt(full.logouts, thin.logouts, LogoutGone(now), LogoutSafe, l);
      FadedDrop(full.logouts, thin.logouts, LogoutGone(now), LogoutSafe, l);
  }

  lemma CommandAlike(full: Store, thin: Store, now: nat, c: Command)
    requires Faded(full, thin, now) && Unused(full, c) && Blind(c)
    ensures Alike(full, thin, now, c)
  {
    match c
    case Claim(l) => ClaimAlike(full, thin, now, l);
    case Issue(_, _, _) => IssueAlike(full, thin, now, c);
    case Create(_, _, _, _) => CreateAlike(full, thin, now, c);
    case Exchange(_, _, _, _) => ExchangeAlike(full, thin, now, c);
    case CompleteLogout(_, _, _) => LogoutAlike(full, thin, now, c);
    case WriteExternal(_, _) => WritingAlike(full, thin, now, c);
    case WriteLogout(_, _) => WritingAlike(full, thin, now, c);
    case ExpireExternal(l, _) => LosingAlike(full, thin, now, External, l);
    case ExpireLogout(l, _) => LosingAlike(full, thin, now, Logout, l);
    case DeleteSession(l) => LosingAlike(full, thin, now, Session, l);
    case Lose(f, l) => LosingAlike(full, thin, now, f, l);
    case Tick(_) =>
  }

  // ----- whole runs -----

  datatype Event = Do(command: Command) | Evict(family: Family, lookup: string)

  datatype Pair = Pair(full: State, thin: State)

  function Expiry(st: Store, f: Family, l: string): Option<nat> {
    match f
    case External => if l in st.externals then Some(st.externals[l].expiresAt) else None
    case Session => if l in st.sessions then Some(st.sessions[l].expiresAt) else None
    case Handoff => if l in st.handoffs then Some(st.handoffs[l].expiresAt) else None
    case Logout => if l in st.logouts then Some(st.logouts[l].expiresAt) else None
  }

  /** The server that evicts next to the server that never does. */
  function Both(es: seq<Event>): Pair {
    if es == [] then Pair(State(EMPTY, 0), State(EMPTY, 0)) else
    var p := Both(es[..|es| - 1]);
    match es[|es| - 1]
    case Do(c) => Pair(Next(p.full, c), Next(p.thin, c))
    case Evict(f, l) => Pair(p.full, State(Without(p.thin.store, f, l), p.thin.clock))
  }

  /** The clock does not go back, only expired records are evicted, and creations use free keys. */
  predicate Allowed(p: Pair, e: Event) {
    match e
    case Do(c) => Blind(c) && Unused(p.full.store, c) && (c.Tick? ==> p.full.clock <= c.now)
    case Evict(f, l) => Expiry(p.thin.store, f, l).Some? ==> Expiry(p.thin.store, f, l).value <= p.thin.clock
  }

  predicate AllAllowed(es: seq<Event>) {
    es == [] || (AllAllowed(es[..|es| - 1]) && Allowed(Both(es[..|es| - 1]), es[|es| - 1]))
  }

  lemma FadedLater(full: Store, thin: Store, now: nat, later: nat)
    requires Faded(full, thin, now) && now <= later
    ensures Faded(full, thin, later)
  {
  }

  lemma WithoutAbsent(st: Store, f: Family, l: string)
    requires Expiry(st, f, l).None?
    ensures Without(st, f, l) == st
  {
    assert f == External ==> st.externals - {l} == st.externals;
    assert f == Session ==> st.sessions - {l} == st.sessions;
    assert f == Handoff ==> st.handoffs - {l} == st.handoffs;
    assert f == Logout ==> st.logouts - {l} == st.logouts;
  }

  /** At every moment of every run, the evicting server lacks only expired records. */
  lemma {:induction false} EvictionOnlyFades(es: seq<Event>)
    requires AllAllowed(es)
    ensures var p := Both(es); p.full.clock == p.thin.clock && Faded(p.full.store, p.thin.store, p.full.clock)
    decreases |es|
  {
    if es != [] {
      var p := Both(es[..|es| - 1]);
      EvictionOnlyFades(es[..|es| - 1]);
      match es[|es| - 1]
      case Do(c) =>
        CommandAlike(p.full.store, p.thin.store, p.full.clock, c);
        FadedLater(Run(p.full.store, p.full.clock, c).store, Run(p.thin.store, p.full.clock, c).store,
                   p.full.clock, Next(p.full, c).clock);
      case Evict(f, l) =>
        LosingAlike(p.full.store, p.thin.store, p.full.clock, f, l);
        if Expiry(p.thin.store, f, l).None? {
          WithoutAbsent(p.thin.store, f, l);
        }
    }
  }

  /** And whatever comes next is answered alike, successes included. */
  lemma EvictionIsInvisible(es: seq<Event>, c: Command)
    requires AllAllowed(es) && Allowed(Both(es), Do(c))
    ensures Blurred(AnswerTo(Both(es).full, c)) == Blurred(AnswerTo(Both(es).thin, c))
  {
    EvictionOnlyFades(es);
    CommandAlike(Both(es).full.store, Both(es).thin.store, Both(es).full.clock, c);
  }

  // ----- what the handlers show -----

  /** The HTTP status of the Google callback when the claim did not succeed, and of the other endpoints. */
  function ClaimStatus(a: Answer): nat {
    match a
    case Claimed(_) => 302
    case Failed(NotFound) => 400
    case Failed(Expired) => 400
    case Failed(AlreadyClaimed) => 400
    case _ => 503
  }

  function ExchangeStatus(a: Answer): nat {
    match a
    case Exchanged(_, _) => 200
    case Failed(NotFound) => 400
    case Failed(Expired) => 400
    case Failed(AlreadyUsed) => 400
    case Failed(ServiceMismatch) => 400
    case Failed(ChallengeMismatch) => 400
    case _ => 503
  }

  function LogoutStatus(a: Answer): nat {
    match a
    case LoggedOut(_) => 303
    case Failed(NotFound) => 400
    case Failed(Expired) => 400
    case Failed(AlreadyUsed) => 400
    case Failed(CsrfMismatch) => 403
    case _ => 503
  }

  datatype LoginTurn = RedirectToService | StartGoogleLogin | Unavailable

  function IssueTurn(a: Answer): LoginTurn {
    match a
    case Issued => RedirectToService
    case Failed(NotFound) => StartGoogleLogin
    case Failed(Expired) => StartGoogleLogin
    case _ => Unavailable
  }

  /** So no answer of a script is shown differently because of eviction. */
  lemma ResponsesAgree(es: seq<Event>, c: Command)
    requires AllAllowed(es) && Allowed(Both(es), Do(c))
    ensures var a, b := AnswerTo(Both(es).full, c), AnswerTo(Both(es).thin, c);
            ClaimStatus(a) == ClaimStatus(b) && ExchangeStatus(a) == ExchangeStatus(b)
            && LogoutStatus(a) == LogoutStatus(b) && IssueTurn(a) == IssueTurn(b)
  {
    var a, b := AnswerTo(Both(es).full, c), AnswerTo(Both(es).thin, c);
    EvictionIsInvisible(es, c);
    LooksAlike(a, b);
  }

  lemma LooksAlike(a: Answer, b: Answer)
    requires Blurred(a) == Blurred(b)
    ensures ClaimStatus(a) == ClaimStatus(b) && ExchangeStatus(a) == ExchangeStatus(b)
    ensures LogoutStatus(a) == LogoutStatus(b) && IssueTurn(a) == IssueTurn(b)
  {
  }
}
