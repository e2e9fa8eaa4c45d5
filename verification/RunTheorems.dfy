/** Consequences of coherence: single use, finality of logout, lifetimes, atomicity, conservation. */
module RunTheorems {
  import opened Common
  import opened Decimal
  import opened References
  import opened Records
  import opened Answers
  import opened Protocol
  import opened Runs

  /** However a run goes on, a handoff is exchanged at most once, and only if it was issued. */
  lemma AtMostOneExchange(cs: seq<Command>, h: string)
    requires Fresh(cs)
    ensures LogOf(cs).exchanged[h] <= if h in LogOf(cs).issued then 1 else 0
  {
    EveryRunIsCoherent(cs);
    assert h in LogOf(cs).exchanged || LogOf(cs).exchanged[h] == 0;
  }

  /**
    A successful exchange returns what was issued, to the service and for the challenge it was
    issued to, while the session it came from is there, unexpired and not logged out.
  */
  lemma ExchangeIsGenuine(cs: seq<Command>, c: Command)
    requires Fresh(cs) && c.Exchange? && Succeeds(After(cs), c)
    ensures var g := LogOf(cs);
            && c.handoff in g.issued
            && var h := g.issued[c.handoff];
            && h.serviceId == c.serviceId && h.codeChallenge == c.challenge && h.commonSessionLookup == c.session
            && AnswerTo(After(cs), c) == Exchanged(h.internalUserId, h.authenticatedAt)
            && g.state.clock < h.expiresAt
            && c.session in g.created && c.session in g.state.store.sessions && c.session !in g.ended
            && g.state.clock < g.created[c.session].expiresAt
            && g.exchanged[c.handoff] == 0
  {
    hide LogOf, Succeeds, AnswerTo;
    EveryRunIsCoherent(cs);
    CoherentExchange(LogOf(cs), c);
  }

  lemma CoherentExchange(g: Log, c: Command)
    requires Coherent(g) && c.Exchange? && Succeeds(g.state, c)
    ensures c.handoff in g.issued
    ensures var h := g.issued[c.handoff];
            && h.serviceId == c.serviceId && h.codeChallenge == c.challenge && h.commonSessionLookup == c.session
            && AnswerTo(g.state, c) == Exchanged(h.internalUserId, h.authenticatedAt)
            && g.state.clock < h.expiresAt
            && c.session in g.created && c.session in g.state.store.sessions && c.session !in g.ended
            && g.state.clock < g.created[c.session].expiresAt
            && g.exchanged[c.handoff] == 0
  {
    hide ExternalsAsWritten;
    var st := g.state.store;
    assert ExchangeStep(st, g.state.clock, c.handoff, c.serviceId, c.challenge, c.session).answer.Exchanged?;
    assert SameButStatus(st.handoffs[c.handoff], g.issued[c.handoff]);
    assert st.sessions[c.session] == g.created[c.session];
  }

  /** The field values that the handlers give to the records they create. */
  predicate WellTimed(c: Command) {
    && (c.Issue? || c.Create? ==> c.record.expiresAt == c.record.issuedAt + 120)
    && (c.Create? ==> c.sessionRecord.expiresAt == c.sessionRecord.authenticatedAt + 28800)
  }

  ghost predicate TimesKept(g: Log) {
    && (forall h | h in g.issued :: g.issued[h].expiresAt == g.issued[h].issuedAt + 120)
    && (forall l | l in g.created :: g.created[l].expiresAt == g.created[l].authenticatedAt + 28800)
  }

  lemma {:induction false} TimesAreKept(cs: seq<Command>)
    requires forall c | c in cs :: WellTimed(c)
    ensures TimesKept(LogOf(cs))
    decreases |cs|
  {
    if cs != [] {
      assert WellTimed(cs[|cs| - 1]);
      TimesAreKept(cs[..|cs| - 1]);
      TimesStep(LogOf(cs[..|cs| - 1]), cs[|cs| - 1], LogOf(cs));
    }
  }

  lemma TimesStep(g: Log, c: Command, g': Log)
    requires TimesKept(g) && WellTimed(c)
    requires g'.issued == g.issued || ((c.Issue? || c.Create?) && g'.issued == g.issued[c.handoff := c.record])
    requires g'.created == g.created || (c.Create? && g'.created == g.created[c.session := c.sessionRecord])
    ensures TimesKept(g')
  {
  }

  /** No exchange succeeds 120 seconds after issuing or 28800 seconds after authentication. */
  lemma AbsoluteLifetime(cs: seq<Command>, c: Command)
    requires Fresh(cs) && (forall c | c in cs :: WellTimed(c))
    requires c.Exchange? && Succeeds(After(cs), c)
    ensures c.handoff in LogOf(cs).issued
    ensures var h := LogOf(cs).issued[c.handoff];
            After(cs).clock < h.issuedAt + 120 && After(cs).clock < h.authenticatedAt + 28800
  {
    EveryRunIsCoherent(cs);
    TimesAreKept(cs);
    ExchangeIsGenuine(cs, c);
  }

  lemma EndedIsUnusable(g: Log, c: Command, l: string)
    requires Coherent(g) && l in g.ended
    ensures c.Issue? && c.session == l ==> !Succeeds(g.state, c)
    ensures c.Exchange? && c.handoff in g.issued && g.issued[c.handoff].commonSessionLookup == l
            ==> !Succeeds(g.state, c)
  {
  }

  /**
    Once a logout has deleted a session, no later command issues a handoff for it or exchanges one
    that was issued for it, and no fresh command brings it back.
  */
  lemma LogoutIsFinal(cs: seq<Command>, c: Command, l: string)
    requires Fresh(cs + [c]) && l in LogOf(cs).ended
    ensures c.Issue? && c.session == l ==> !Succeeds(After(cs), c)
    ensures c.Exchange? && c.handoff in LogOf(cs).issued && LogOf(cs).issued[c.handoff].commonSessionLookup == l
            ==> !Succeeds(After(cs), c)
    ensures l in LogOf(cs + [c]).ended && l !in After(cs + [c]).store.sessions
  {
    var g' := LogOf(cs + [c]);
    assert (cs + [c])[..|cs|] == cs;
    EveryRunIsCoherent(cs);
    EndedIsUnusable(LogOf(cs), c, l);
    assert l in g'.ended;
    EveryRunIsCoherent(cs + [c]);
  }

  // ----- the exchange as the service performs it: TYPE, HGET, script -----

  /** The exchange done in one piece: the script reads the session lookup from the handoff itself. */
  function AtomicExchange(s: State, h: string, serviceId: string, challenge: string): (State, Answer) {
    if h !in s.store.handoffs then (s, Failed(NotFound)) else
    var c := Exchange(h, serviceId, challenge, s.store.handoffs[h].commonSessionLookup);
    (Next(s, c), AnswerTo(s, c))
  }

  /** The three commands, each sent to the state it happens to find: the state that the last one leaves, and the answer. */
  function SplitExchange(s1: State, s2: State, s3: State, h: string, serviceId: string, challenge: string): (State, Answer) {
    match AnswerTo(s1, TypeHandoff(h))
    case HandoffThere =>
      match AnswerTo(s2, ReadLookup(h)) {
        case LookupRead(l) =>
          var c := Exchange(h, serviceId, challenge, l);
          (Next(s3, c), AnswerTo(s3, c))
        case other => (Next(s2, ReadLookup(h)), other)
      }
    case other => (Next(s1, TypeHandoff(h)), other)
  }

  lemma IssuedOnce(g: Log, c: Command, h: string)
    requires Coherent(g) && Introduces(c) !! g.introduced && h in g.issued
    ensures h in Record(g, c).issued && Record(g, c).issued[h] == g.issued[h]
  {
    if c.Issue? || c.Create? {
      assert (Handoff, c.handoff) in Introduces(c);
    }
  }

  lemma {:induction false} IssuedOnceForAll(p: seq<Command>, cs: seq<Command>, h: string)
    requires p <= cs && Fresh(cs) && h in LogOf(p).issued
    ensures h in LogOf(cs).issued && LogOf(cs).issued[h] == LogOf(p).issued[h]
    decreases |cs|
  {
    if |p| < |cs| {
      var before := cs[..|cs| - 1];
      IssuedOnceForAll(p, before, h);
      EveryRunIsCoherent(before);
      IssuedOnce(LogOf(before), cs[|cs| - 1], h);
    } else {
      assert p == cs;
    }
  }

  /** A lookup read earlier is the right one for as long as the handoff lives. */
  lemma LookupStaysRight(p: seq<Command>, cs: seq<Command>, h: string)
    requires p <= cs && Fresh(cs) && h in After(p).store.handoffs && h in After(cs).store.handoffs
    ensures After(p).store.handoffs[h].commonSessionLookup == After(cs).store.handoffs[h].commonSessionLookup
  {
    FreshPrefix(p, cs);
    EveryRunIsCoherent(p);
    EveryRunIsCoherent(cs);
    IssuedOnceForAll(p, cs, h);
  }

  lemma {:induction false} FreshPrefix(p: seq<Command>, cs: seq<Command>)
    requires p <= cs && Fresh(cs)
    ensures Fresh(p)
    decreases |cs|
  {
    if |p| < |cs| {
      FreshPrefix(p, cs[..|cs| - 1]);
    } else {
      assert p == cs;
    }
  }

  /** The mismatch exits of the exchange script are unreachable with the handoff's own lookup. */
  lemma OwnLookupIsNeverInvalid(g: Log, h: string, serviceId: string, challenge: string)
    requires Coherent(g)
    ensures AtomicExchange(g.state, h, serviceId, challenge).1 != Failed(InvalidStoredState)
  {
    if h in g.state.store.handoffs {
      var r := g.state.store.handoffs[h];
      var l := r.commonSessionLookup;
      assert SameButStatus(r, g.issued[h]) && Fits(g.issued[h], l, g.created[l]);
      if l in g.state.store.sessions {
        assert g.state.store.sessions[l] == g.created[l];
      }
      assert ExchangeStep(g.state.store, g.state.clock, h, serviceId, challenge, l).answer != Failed(InvalidStoredState);
    }
  }

  lemma SplitAnswers(s1: State, s2: State, s3: State, h: string, serviceId: string, challenge: string)
    requires h in s2.store.handoffs && h in s3.store.handoffs
             ==> s2.store.handoffs[h].commonSessionLookup == s3.store.handoffs[h].commonSessionLookup
    ensures SplitExchange(s1, s2, s3, h, serviceId, challenge) ==
            if h !in s1.store.handoffs then (s1, Failed(NotFound))
            else if h !in s2.store.handoffs then (s2, Failed(InvalidStoredState))
            else AtomicExchange(s3, h, serviceId, challenge)
  {
  }

  /**
    The three commands, with anything happening in between, change the store and answer as one
    atomic exchange at the instant of the script, unless a read before it found nothing, and then
    they change nothing: NotFound if the handoff was absent at TYPE, InvalidStoredState exactly if
    it was there at TYPE and gone at HGET.
  */
  lemma SplitExchangeIsAtomic(p1: seq<Command>, p2: seq<Command>, cs: seq<Command>, h: string, serviceId: string, challenge: string)
    requires p1 <= p2 <= cs && Fresh(cs)
    ensures var s1, s2, s3 := After(p1), After(p2), After(cs);
            var split := SplitExchange(s1, s2, s3, h, serviceId, challenge);
            && split == (if h !in s1.store.handoffs then (s1, Failed(NotFound))
                         else if h !in s2.store.handoffs then (s2, Failed(InvalidStoredState))
                         else AtomicExchange(s3, h, serviceId, challenge))
            && (split.1 == Failed(InvalidStoredState) <==> h in s1.store.handoffs && h !in s2.store.handoffs)
  {
    var s1, s2, s3 := After(p1), After(p2), After(cs);
    EveryRunIsCoherent(cs);
    OwnLookupIsNeverInvalid(LogOf(cs), h, serviceId, challenge);
    if h in s2.store.handoffs && h in s3.store.handoffs {
      LookupStaysRight(p2, cs, h);
    }
    SplitAnswers(s1, s2, s3, h, serviceId, challenge);
  }

  // ----- records only age -----

  ghost predicate Ages(known: set<(Family, string)>, st: Store, st': Store) {
    && (forall l | l in st'.externals && (External, l) in known ::
          && l in st.externals && st'.externals[l] == st.externals[l].(status := st'.externals[l].status)
          && (st.externals[l].status == Processing ==> st'.externals[l].status == Processing))
    && (forall l | l in st'.sessions && (Session, l) in known ::
          l in st.sessions && st'.sessions[l] == st.sessions[l])
    && (forall l | l in st'.handoffs && (Handoff, l) in known ::
          && l in st.handoffs && st'.handoffs[l] == st.handoffs[l].(status := st'.handoffs[l].status)
          && (st.handoffs[l].status == Used ==> st'.handoffs[l].status == Used))
    && (forall l | l in st'.logouts && (Logout, l) in known ::
          && l in st.logouts && st'.logouts[l] == st.logouts[l].(status := st'.logouts[l].status)
          && (st.logouts[l].status == Used ==> st'.logouts[l].status == Used))
  }

  lemma CreatingAges(known: set<(Family, string)>, s: State, c: Command)
    requires Introduces(c) !! known && (c.Issue? || c.Create? || c.WriteExternal? || c.WriteLogout?)
    ensures Ages(known, s.store, Next(s, c).store)
  {
    match c
    case WriteExternal(l, _) => assert (External, l) in Introduces(c);
    case WriteLogout(l, _) => assert (Logout, l) in Introduces(c);
    case Issue(_, h, _) => assert (Handoff, h) in Introduces(c);
    case Create(l, _, h, _) => assert (Session, l) in Introduces(c) && (Handoff, h) in Introduces(c);
  }

  lemma UsingAges(known: set<(Family, string)>, s: State, c: Command)
    requires c.Claim? || c.Exchange? || c.CompleteLogout?
    ensures Ages(known, s.store, Next(s, c).store)
  {
    hide Ages, ClaimStep, ExchangeStep, LogoutStep;
    match c
    case Claim(l) => ClaimAges(known, s.store, s.clock, l);
    case Exchange(h, service, challenge, l) => ExchangeAges(known, s.store, s.clock, h, service, challenge, l);
    case CompleteLogout(o, l, csrf) => LogoutAges(known, s.store, s.clock, o, l, csrf);
  }

  lemma ClaimAges(known: set<(Family, string)>, st: Store, now: nat, l: string)
    ensures Ages(known, st, ClaimStep(st, now, l).store)
  {
  }

  lemma ExchangeAges(known: set<(Family, string)>, st: Store, now: nat, h: string, serviceId: string, challenge: string, l: string)
    ensures Ages(known, st, ExchangeStep(st, now, h, serviceId, challenge, l).store)
  {
  }

  lemma LogoutAges(known: set<(Family, string)>, st: Store, now: nat, o: string, l: string, csrf: string)
    ensures Ages(known, st, LogoutStep(st, now, o, l, csrf).store)
  {
  }

  lemma WithoutAges(known: set<(Family, string)>, st: Store, f: Family, l: string)
    ensures Ages(known, st, Without(st, f, l)) && Ages(known, st, st)
  {
  }

  lemma LosingAges(known: set<(Family, string)>, s: State, c: Command)
    requires c.ExpireExternal? || c.ExpireLogout? || c.DeleteSession? || c.Lose?
    ensures Ages(known, s.store, Next(s, c).store)
  {
    hide Ages, Without;
    match c
    case ExpireExternal(l, _) => WithoutAges(known, s.store, External, l);
    case ExpireLogout(l, _) => WithoutAges(known, s.store, Logout, l);
    case DeleteSession(l) => WithoutAges(known, s.store, Session, l);
    case Lose(f, l) => WithoutAges(known, s.store, f, l);
  }

  lemma CommandAges(known: set<(Family, string)>, s: State, c: Command)
    requires Introduces(c) !! known
    ensures Ages(known, s.store, Next(s, c).store)
  {
    if c.Issue? || c.Create? || c.WriteExternal? || c.WriteLogout? {
      CreatingAges(known, s, c);
    } else if c.Claim? || c.Exchange? || c.CompleteLogout? {
      UsingAges(known, s, c);
    } else if c.ExpireExternal? || c.ExpireLogout? || c.DeleteSession? || c.Lose? {
      LosingAges(known, s, c);
    } else {
      assert Next(s, c).store == s.store;
    }
  }

  lemma AgesTransitive(known: set<(Family, string)>, a: Store, b: Store, c: Store)
    requires Ages(known, a, b) && Ages(known, b, c)
    ensures Ages(known, a, c)
  {
  }

  /**
    Between any two moments of a run, a record that was known at the first is at the second the
    same but for its status, which has only moved forward; and one that was gone has not returned.
  */
  lemma {:induction false} RecordsOnlyAge(p: seq<Command>, cs: seq<Command>)
    requires p <= cs && Fresh(cs)
    ensures LogOf(p).introduced <= LogOf(cs).introduced
    ensures Ages(LogOf(p).introduced, After(p).store, After(cs).store)
    decreases |cs|
  {
    if |p| < |cs| {
      var before, c := cs[..|cs| - 1], cs[|cs| - 1];
      RecordsOnlyAge(p, before);
      CommandAges(LogOf(p).introduced, After(before), c);
      AgesTransitive(LogOf(p).introduced, After(p).store, After(before).store, After(cs).store);
    } else {
      assert p == cs;
    }
  }

  ghost predicate LogoutsIntroduced(g: Log) {
    forall l | l in g.state.store.logouts :: (Logout, l) in g.introduced
  }

  lemma LogoutsStep(g: Log, c: Command)
    requires LogoutsIntroduced(g)
    ensures LogoutsIntroduced(Record(g, c))
  {
    var st' := Next(g.state, c).store;
    if c.WriteLogout? {
      assert (Logout, c.logout) in Introduces(c);
    } else {
      assert forall l | l in st'.logouts :: l in g.state.store.logouts;
    }
  }

  lemma {:induction false} LogoutsAreIntroduced(cs: seq<Command>)
    ensures LogoutsIntroduced(LogOf(cs))
    decreases |cs|
  {
    if cs != [] {
      LogoutsAreIntroduced(cs[..|cs| - 1]);
      LogoutsStep(LogOf(cs[..|cs| - 1]), cs[|cs| - 1]);
    }
  }

  /** A logout transaction completes at most once: after a success, every later attempt with it fails. */
  lemma LogoutCompletesOnce(p: seq<Command>, cs: seq<Command>, c: Command, c': Command)
    requires p + [c] <= cs && Fresh(cs) && c.CompleteLogout? && c'.CompleteLogout? && c.logout == c'.logout
    requires Succeeds(After(p), c)
    ensures !Succeeds(After(cs), c')
  {
    hide Fresh, Succeeds, Next, Introduces;
    assert (p + [c])[..|p|] == p && (p + [c])[|p|] == c;
    LogoutIsUsedUp(After(p), c);
    LogoutsAreIntroduced(p + [c]);
    RecordsOnlyAge(p + [c], cs);
    UsedUpIsRefused(After(cs), c');
  }

  lemma LogoutIsUsedUp(s: State, c: Command)
    requires c.CompleteLogout? && Succeeds(s, c)
    ensures c.logout in Next(s, c).store.logouts && Next(s, c).store.logouts[c.logout].status == Used
  {
  }

  lemma UsedUpIsRefused(s: State, c: Command)
    requires c.CompleteLogout? && (c.logout in s.store.logouts ==> s.store.logouts[c.logout].status == Used)
    ensures !Succeeds(s, c)
  {
  }

  // ----- conservation -----

  lemma {:induction false} OnceEach(m: multiset<string>, s: set<string>)
    requires forall x | x in m :: m[x] == 1 && x in s
    ensures |m| <= |s|
    decreases s
  {
    if m != multiset{} {
      var x :| x in m;
      var m' := m - multiset{x};
      OnceEach(m', s - {x});
      assert m == m' + multiset{x};
    }
  }

  /** A transaction is claimed at most once; claims never outnumber writes, nor exchanges issues. */
  lemma NothingIsMultiplied(cs: seq<Command>, l: string)
    requires Fresh(cs)
    ensures LogOf(cs).claimed[l] <= if l in LogOf(cs).written then 1 else 0
    ensures |LogOf(cs).claimed| <= |LogOf(cs).written|
    ensures |LogOf(cs).exchanged| <= |LogOf(cs).issued|
  {
    var g := LogOf(cs);
    EveryRunIsCoherent(cs);
    assert l in g.claimed || g.claimed[l] == 0;
    OnceEach(g.claimed, g.written.Keys);
    OnceEach(g.exchanged, g.issued.Keys);
  }

  // ----- without fresh references -----

  function Writes(cs: seq<Command>, l: string): nat {
    if cs == [] then 0 else
    var c := cs[|cs| - 1];
    Writes(cs[..|cs| - 1], l) + if c.WriteExternal? && c.external == l then 1 else 0
  }

  function Issues(cs: seq<Command>, h: string): nat {
    if cs == [] then 0 else
    var before, c := cs[..|cs| - 1], cs[|cs| - 1];
    Issues(before, h) + if (c.Issue? || c.Create?) && c.handoff == h && Succeeds(After(before), c) then 1 else 0
  }

  /** Whether a claim may still come. */
  function Claimable(st: Store, l: string): nat {
    if l in st.externals && st.externals[l].status == Waiting then 1 else 0
  }

  function Exchangeable(st: Store, h: string): nat {
    if h in st.handoffs && st.handoffs[h].status == Unused then 1 else 0
  }

  lemma ClaimableStep(g: Log, c: Command, l: string)
    ensures var g' := Record(g, c);
            g'.claimed[l] + Claimable(g'.state.store, l)
            <= g.claimed[l] + Claimable(g.state.store, l) + if c.WriteExternal? && c.external == l then 1 else 0
  {
    hide Succeeds, Next, Introduces, SessionMove, HandoffMove;
    RecordIsRecorded(g, c);
  }

  lemma ExchangeableStep(g: Log, c: Command, h: string)
    ensures var g' := Record(g, c);
            g'.exchanged[h] + Exchangeable(g'.state.store, h)
            <= g.exchanged[h] + Exchangeable(g.state.store, h)
               + if (c.Issue? || c.Create?) && c.handoff == h && Succeeds(g.state, c) then 1 else 0
  {
    hide Succeeds, Next, Introduces, SessionMove, ExternalMove;
    RecordIsRecorded(g, c);
  }

  /**
    Every run, with references reused or not: each claim and each exchange uses up one write or one
    issue of its own record, and one that may still come is covered by one more.
  */
  lemma {:induction false} EachUseIsPaidFor(cs: seq<Command>, l: string, h: string)
    ensures LogOf(cs).claimed[l] + Claimable(After(cs).store, l) <= Writes(cs, l)
    ensures LogOf(cs).exchanged[h] + Exchangeable(After(cs).store, h) <= Issues(cs, h)
    decreases |cs|
  {
    hide Record, Succeeds, Claimable, Exchangeable;
    if cs == [] {
      NothingAtFirst(l, h);
    } else {
      var before, c := cs[..|cs| - 1], cs[|cs| - 1];
      EachUseIsPaidFor(before, l, h);
      ClaimableStep(LogOf(before), c, l);
      ExchangeableStep(LogOf(before), c, h);
    }
  }

  lemma NothingAtFirst(l: string, h: string)
    ensures Claimable(EMPTY, l) == 0 && Exchangeable(EMPTY, h) == 0
  {
  }

  /** And fresh references are needed: a transaction that is written twice can be claimed twice. */
  lemma RewritingAllowsAnotherClaim(l: string, r: ExternalAuthTransaction)
    requires r.status == Waiting && r.createdAt <= LUA_SAFE_MAX && 0 < r.expiresAt <= LUA_SAFE_MAX
    ensures var cs := [WriteExternal(l, r), Claim(l), WriteExternal(l, r), Claim(l)];
            LogOf(cs).claimed[l] == 2 && !Fresh(cs)
  {
    hide Record, Introduces;
    var w, c := WriteExternal(l, r), Claim(l);
    var one, two, three := [w], [w, c], [w, c, w];
    LogSnoc([], w);
    LogSnoc(one, c);
    LogSnoc(two, w);
    LogSnoc(three, c);
    assert [] + [w] == one && one + [c] == two && two + [w] == three && three + [c] == [w, c, w, c];
    WriteThenClaim(LogOf([]), l, r);
    WriteThenClaim(LogOf(two), l, r);
    assert three[..2] == two && three[2] == w && [w, c, w, c][..3] == three;
  }

  lemma LogSnoc(cs: seq<Command>, c: Command)
    ensures LogOf(cs + [c]) == Record(LogOf(cs), c)
  {
    assert (cs + [c])[..|cs|] == cs;
  }

  lemma WriteThenClaim(g: Log, l: string, r: ExternalAuthTransaction)
    requires r.status == Waiting && r.createdAt <= LUA_SAFE_MAX && 0 < r.expiresAt <= LUA_SAFE_MAX && g.state.clock == 0
    ensures var g' := Record(Record(g, WriteExternal(l, r)), Claim(l));
            g'.claimed[l] == g.claimed[l] + 1 && g'.state.clock == 0
            && (External, l) in g'.introduced && (External, l) in Introduces(WriteExternal(l, r))
  {
    assert (External, l) in Introduces(WriteExternal(l, r));
  }
}
