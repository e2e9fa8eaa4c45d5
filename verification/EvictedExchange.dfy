/**
  The exchange handler under eviction.  Its TYPE and HGET do see that a key is gone, so its response
  can depend on eviction.  When it does is said exactly; whether it succeeds never does.
*/
module EvictedExchange {
  import opened Common
  import opened Decimal
  import opened References
  import opened Records
  import opened Answers
  import opened Protocol
  import opened Runs
  import opened RunTheorems
  import opened Eviction

  /** The commands of the server that never evicts, and of the one that does: an eviction loses a record. */
  function Commands(es: seq<Event>, evicting: bool): seq<Command> {
    if es == [] then [] else
    var before := Commands(es[..|es| - 1], evicting);
    match es[|es| - 1]
    case Do(c) => before + [c]
    case Evict(f, l) => if evicting then before + [Lose(f, l)] else before
  }

  lemma {:induction false} BothAreRuns(es: seq<Event>)
    ensures After(Commands(es, false)) == Both(es).full && After(Commands(es, true)) == Both(es).thin
    ensures LogOf(Commands(es, false)).introduced == LogOf(Commands(es, true)).introduced
    decreases |es|
  {
    hide Introduces, Run, Succeeds;
    if es != [] {
      var before := es[..|es| - 1];
      BothAreRuns(before);
      match es[|es| - 1]
      case Do(c) =>
        LogSnoc(Commands(before, false), c);
        LogSnoc(Commands(before, true), c);
      case Evict(f, l) =>
        LogSnoc(Commands(before, true), Lose(f, l));
        LosingIsQuiet(Both(before).thin, f, l);
    }
  }

  lemma LosingIsQuiet(s: State, f: Family, l: string)
    ensures Next(s, Lose(f, l)) == State(Without(s.store, f, l), s.clock) && Introduces(Lose(f, l)) == {}
  {
  }

  lemma {:induction false} BothAreFresh(es: seq<Event>)
    requires Fresh(Commands(es, false))
    ensures Fresh(Commands(es, true))
    decreases |es|
  {
    hide LogOf, Introduces;
    if es != [] {
      var before := es[..|es| - 1];
      match es[|es| - 1]
      case Do(c) =>
        assert (Commands(before, false) + [c])[..|Commands(before, false)|] == Commands(before, false);
        assert (Commands(before, true) + [c])[..|Commands(before, true)|] == Commands(before, true);
        BothAreFresh(before);
        BothAreRuns(before);
      case Evict(f, l) =>
        assert (Commands(before, true) + [Lose(f, l)])[..|Commands(before, true)|] == Commands(before, true);
        BothAreFresh(before);
        LosingIsQuiet(Both(before).thin, f, l);
    }
  }

  lemma {:induction false} CommandsExtend(p: seq<Event>, es: seq<Event>, evicting: bool)
    requires p <= es
    ensures Commands(p, evicting) <= Commands(es, evicting)
    decreases |es|
  {
    if |p| < |es| {
      CommandsExtend(p, es[..|es| - 1], evicting);
    } else {
      assert p == es;
    }
  }

  /** Any earlier moment was allowed too, and its clock was not ahead. */
  lemma {:induction false} Earlier(p: seq<Event>, es: seq<Event>)
    requires p <= es && AllAllowed(es)
    ensures AllAllowed(p) && Both(p).full.clock <= Both(es).full.clock
    decreases |es|
  {
    hide Run, Eviction.Unused;
    if |p| < |es| {
      Earlier(p, es[..|es| - 1]);
    } else {
      assert p == es;
    }
  }

  lemma ExpiryStays(p: seq<Command>, cs: seq<Command>, h: string)
    requires p <= cs && Fresh(cs) && h in After(p).store.handoffs && h in After(cs).store.handoffs
    ensures After(p).store.handoffs[h].expiresAt == After(cs).store.handoffs[h].expiresAt
  {
    hide LogOf, Fresh, ExternalsAsWritten, SessionsAsCreated, IssuedForCreated;
    FreshPrefix(p, cs);
    EveryRunIsCoherent(p);
    EveryRunIsCoherent(cs);
    IssuedOnceForAll(p, cs, h);
  }

  /** An expired handoff is refused, and so is an absent one, in a way that handlers show alike. */
  lemma ExpiredIsRefused(full: Store, thin: Store, s: State, h: string, serviceId: string, challenge: string)
    requires s.store == full && Faded(full, thin, s.clock)
    requires h in full.handoffs ==> full.handoffs[h].expiresAt <= s.clock
    ensures AtomicExchange(s, h, serviceId, challenge).1 in {Failed(NotFound), Failed(Expired)}
  {
    hide FadedExternals, FadedSessions, FadedLogouts;
    if h in full.handoffs {
      FadedAt(full.handoffs, thin.handoffs, HandoffGone(s.clock), SafeHandoff, h);
    }
  }

  lemma HandoffFades(full: Store, thin: Store, now: nat, h: string)
    requires Faded(full, thin, now)
    ensures h in thin.handoffs ==> h in full.handoffs && thin.handoffs[h] == full.handoffs[h]
    ensures h in full.handoffs && h !in thin.handoffs ==> full.handoffs[h].expiresAt <= now
  {
    hide FadedExternals, FadedSessions, FadedLogouts;
    FadedAt(full.handoffs, thin.handoffs, HandoffGone(now), SafeHandoff, h);
  }

  /** With the handoff there for both, the two servers run the same script. */
  lemma ScriptsAlike(full: State, thin: State, h: string, serviceId: string, challenge: string)
    requires full.clock == thin.clock && Faded(full.store, thin.store, full.clock) && h in thin.store.handoffs
    ensures Blurred(AtomicExchange(full, h, serviceId, challenge).1) == Blurred(AtomicExchange(thin, h, serviceId, challenge).1)
  {
    hide Faded, ExchangeStep;
    HandoffFades(full.store, thin.store, full.clock, h);
    ExchangeAlike(full.store, thin.store, full.clock, Exchange(h, serviceId, challenge, full.store.handoffs[h].commonSessionLookup));
  }

  /** A handoff that the evicting server has lost by `es`, while the other has it, has expired for good. */
  lemma LostIsExpired(es: seq<Event>, es3: seq<Event>, h: string)
    requires es <= es3 && AllAllowed(es3) && Fresh(Commands(es3, false))
    requires h in Both(es).full.store.handoffs && h !in Both(es).thin.store.handoffs
    ensures h in Both(es3).full.store.handoffs ==> Both(es3).full.store.handoffs[h].expiresAt <= Both(es3).full.clock
  {
    hide Faded, Fresh, AllAllowed;
    Earlier(es, es3);
    EvictionOnlyFades(es);
    HandoffFades(Both(es).full.store, Both(es).thin.store, Both(es).full.clock, h);
    BothAreRuns(es);
    BothAreRuns(es3);
    CommandsExtend(es, es3, false);
    if h in Both(es3).full.store.handoffs {
      ExpiryStays(Commands(es, false), Commands(es3, false), h);
    }
  }

  /** The answers of the exchange handler at the three moments, from each of the two servers. */
  function FullAnswer(es1: seq<Event>, es2: seq<Event>, es3: seq<Event>, h: string, serviceId: string, challenge: string): Answer {
    SplitExchange(Both(es1).full, Both(es2).full, Both(es3).full, h, serviceId, challenge).1
  }

  function ThinAnswer(es1: seq<Event>, es2: seq<Event>, es3: seq<Event>, h: string, serviceId: string, challenge: string): Answer {
    SplitExchange(Both(es1).thin, Both(es2).thin, Both(es3).thin, h, serviceId, challenge).1
  }

  /** The handoff was there at TYPE and gone at HGET. */
  predicate Slipped(s1: State, s2: State, h: string) {
    h in s1.store.handoffs && h !in s2.store.handoffs
  }

  lemma AnswersAreAtomic(es1: seq<Event>, es2: seq<Event>, es3: seq<Event>, h: string, serviceId: string, challenge: string)
    requires es1 <= es2 <= es3 && Fresh(Commands(es3, false))
    ensures var full := FullAnswer(es1, es2, es3, h, serviceId, challenge);
            && (full == Failed(InvalidStoredState) <==> Slipped(Both(es1).full, Both(es2).full, h))
            && (full == if h !in Both(es1).full.store.handoffs then Failed(NotFound)
                        else if h !in Both(es2).full.store.handoffs then Failed(InvalidStoredState)
                        else AtomicExchange(Both(es3).full, h, serviceId, challenge).1)
    ensures var thin := ThinAnswer(es1, es2, es3, h, serviceId, challenge);
            && (thin == Failed(InvalidStoredState) <==> Slipped(Both(es1).thin, Both(es2).thin, h))
            && (thin == if h !in Both(es1).thin.store.handoffs then Failed(NotFound)
                        else if h !in Both(es2).thin.store.handoffs then Failed(InvalidStoredState)
                        else AtomicExchange(Both(es3).thin, h, serviceId, challenge).1)
  {
    hide Fresh, AtomicExchange, SplitExchange, LogOf;
    BothAreRuns(es1);
    BothAreRuns(es2);
    BothAreRuns(es3);
    BothAreFresh(es3);
    CommandsExtend(es1, es2, false);
    CommandsExtend(es2, es3, false);
    CommandsExtend(es1, es2, true);
    CommandsExtend(es2, es3, true);
    SplitExchangeIsAtomic(Commands(es1, false), Commands(es2, false), Commands(es3, false), h, serviceId, challenge);
    SplitExchangeIsAtomic(Commands(es1, true), Commands(es2, true), Commands(es3, true), h, serviceId, challenge);
  }

  /** If the handoff slipped away from neither server, or from both, the handler's answers look alike. */
  lemma AlikeUnlessSlipped(es1: seq<Event>, es2: seq<Event>, es3: seq<Event>, h: string, serviceId: string, challenge: string)
    requires es1 <= es2 <= es3 && AllAllowed(es3) && Fresh(Commands(es3, false))
    requires Slipped(Both(es1).full, Both(es2).full, h) <==> Slipped(Both(es1).thin, Both(es2).thin, h)
    ensures Blurred(FullAnswer(es1, es2, es3, h, serviceId, challenge)) == Blurred(ThinAnswer(es1, es2, es3, h, serviceId, challenge))
  {
    hide Faded, Fresh, AllAllowed, AtomicExchange, SplitExchange, FullAnswer, ThinAnswer, Both;
    AnswersAreAtomic(es1, es2, es3, h, serviceId, challenge);
    Earlier(es1, es3);
    Earlier(es2, es3);
    EvictionOnlyFades(es1);
    EvictionOnlyFades(es2);
    EvictionOnlyFades(es3);
    HandoffFades(Both(es1).full.store, Both(es1).thin.store, Both(es1).full.clock, h);
    HandoffFades(Both(es2).full.store, Both(es2).thin.store, Both(es2).full.clock, h);
    HandoffFades(Both(es3).full.store, Both(es3).thin.store, Both(es3).full.clock, h);
    var full, thin := Both(es3).full, Both(es3).thin;
    if h in Both(es1).full.store.handoffs && h !in Both(es1).thin.store.handoffs {
      LostIsExpired(es1, es3, h);
      ExpiredIsRefused(full.store, thin.store, full, h, serviceId, challenge);
    } else if h in Both(es2).thin.store.handoffs {
      if h in thin.store.handoffs {
        ScriptsAlike(full, thin, h, serviceId, challenge);
      } else {
        ExpiredIsRefused(full.store, thin.store, full, h, serviceId, challenge);
        AbsentIsRefused(thin, h, serviceId, challenge);
      }
    }
  }

  lemma AbsentIsRefused(s: State, h: string, serviceId: string, challenge: string)
    requires h !in s.store.handoffs
    ensures AtomicExchange(s, h, serviceId, challenge).1 == Failed(NotFound)
  {
  }

  /**
    The exchange handler responds alike on both servers if and only if the handoff slipped away
    between TYPE and HGET on both or on neither.
  */
  lemma ResponseDependsOnSlipping(es1: seq<Event>, es2: seq<Event>, es3: seq<Event>, h: string, serviceId: string, challenge: string)
    requires es1 <= es2 <= es3 && AllAllowed(es3) && Fresh(Commands(es3, false))
    ensures ExchangeStatus(FullAnswer(es1, es2, es3, h, serviceId, challenge)) == ExchangeStatus(ThinAnswer(es1, es2, es3, h, serviceId, challenge))
            <==> (Slipped(Both(es1).full, Both(es2).full, h) <==> Slipped(Both(es1).thin, Both(es2).thin, h))
  {
    hide Faded, Fresh, AllAllowed, SplitExchange, FullAnswer, ThinAnswer, Both, Slipped;
    AnswersAreAtomic(es1, es2, es3, h, serviceId, challenge);
    if Slipped(Both(es1).full, Both(es2).full, h) <==> Slipped(Both(es1).thin, Both(es2).thin, h) {
      AlikeUnlessSlipped(es1, es2, es3, h, serviceId, challenge);
      LooksAlike(FullAnswer(es1, es2, es3, h, serviceId, challenge), ThinAnswer(es1, es2, es3, h, serviceId, challenge));
    } else {
      NeverUnavailable(Both(es3).full, h, serviceId, challenge);
      NeverUnavailable(Both(es3).thin, h, serviceId, challenge);
    }
  }

  /** Whether the exchange succeeds, and with what, never depends on eviction. */
  lemma SuccessIsUnaffected(es1: seq<Event>, es2: seq<Event>, es3: seq<Event>, h: string, serviceId: string, challenge: string)
    requires es1 <= es2 <= es3 && AllAllowed(es3) && Fresh(Commands(es3, false))
    ensures var full, thin := FullAnswer(es1, es2, es3, h, serviceId, challenge), ThinAnswer(es1, es2, es3, h, serviceId, challenge);
            full.Exchanged? || thin.Exchanged? ==> full == thin
  {
    hide Faded, Fresh, AllAllowed, AtomicExchange, SplitExchange, FullAnswer, ThinAnswer, Both;
    AnswersAreAtomic(es1, es2, es3, h, serviceId, challenge);
    if Slipped(Both(es1).full, Both(es2).full, h) <==> Slipped(Both(es1).thin, Both(es2).thin, h) {
      AlikeUnlessSlipped(es1, es2, es3, h, serviceId, challenge);
    } else {
      Earlier(es2, es3);
      EvictionOnlyFades(es2);
      EvictionOnlyFades(es3);
      HandoffFades(Both(es2).full.store, Both(es2).thin.store, Both(es2).full.clock, h);
      if h in Both(es2).full.store.handoffs {
        LostIsExpired(es2, es3, h);
        ExpiredIsRefused(Both(es3).full.store, Both(es3).thin.store, Both(es3).full, h, serviceId, challenge);
      }
    }
  }

  /** The script answers with 503 only for an invalid record. */
  lemma NeverUnavailable(s: State, h: string, serviceId: string, challenge: string)
    ensures ExchangeStatus(AtomicExchange(s, h, serviceId, challenge).1) == 503
            ==> AtomicExchange(s, h, serviceId, challenge).1 == Failed(InvalidStoredState)
  {
  }

  // ----- slipping happens -----

  /** A session and its handoff are made, time passes the handoff's expiry, and only then is it evicted. */
  function Made(l: string, s: CommonSession, h: string, r: AuthenticationHandoff): seq<Event> {
    [Do(Create(l, s, h, r))]
  }

  function Aged(l: string, s: CommonSession, h: string, r: AuthenticationHandoff): seq<Event> {
    Made(l, s, h, r) + [Do(Tick(r.expiresAt))]
  }

  function Gone(l: string, s: CommonSession, h: string, r: AuthenticationHandoff): seq<Event> {
    Aged(l, s, h, r) + [Evict(Handoff, h)]
  }

  lemma BothSnoc(es: seq<Event>, e: Event)
    ensures Both(es + [e]) == (match e
                               case Do(c) => Pair(Next(Both(es).full, c), Next(Both(es).thin, c))
                               case Evict(f, l) => Pair(Both(es).full, State(Without(Both(es).thin.store, f, l), Both(es).thin.clock)))
    ensures AllAllowed(es + [e]) <==> AllAllowed(es) && Allowed(Both(es), e)
    ensures Commands(es + [e], false) == Commands(es, false) + if e.Do? then [e.command] else []
  {
    assert (es + [e])[..|es|] == es;
  }

  lemma CreatedAlone(l: string, s: CommonSession, h: string, r: AuthenticationHandoff)
    requires SafeSession(s) && Fits(r, l, s) && 0 < r.expiresAt && 0 < s.expiresAt
    ensures Next(State(EMPTY, 0), Create(l, s, h, r)) == State(Store(map[], map[l := s], map[h := r], map[]), 0)
  {
  }

  lemma FreshAlone(c: Command, t: Command)
    requires Introduces(t) == {}
    ensures Fresh([c, t])
  {
    assert [c, t][..1] == [c] && [c][..0] == [];
  }

  /** A store with one session and its handoff. */
  function Alone(l: string, s: CommonSession, h: string, r: AuthenticationHandoff): Store {
    Store(map[], map[l := s], map[h := r], map[])
  }

  lemma MadeState(l: string, s: CommonSession, h: string, r: AuthenticationHandoff)
    requires SafeSession(s) && Fits(r, l, s) && 0 < r.expiresAt && 0 < s.expiresAt
    ensures Both(Made(l, s, h, r)) == Pair(State(Alone(l, s, h, r), 0), State(Alone(l, s, h, r), 0))
    ensures AllAllowed(Made(l, s, h, r)) && Commands(Made(l, s, h, r), false) == [Create(l, s, h, r)]
  {
    hide Run, Fits, SafeSession;
    assert [] + [Do(Create(l, s, h, r))] == Made(l, s, h, r);
    BothSnoc([], Do(Create(l, s, h, r)));
    CreatedAlone(l, s, h, r);
  }

  lemma AgedState(l: string, s: CommonSession, h: string, r: AuthenticationHandoff)
    requires SafeSession(s) && Fits(r, l, s) && 0 < r.expiresAt && 0 < s.expiresAt
    ensures Both(Aged(l, s, h, r)) == Pair(State(Alone(l, s, h, r), r.expiresAt), State(Alone(l, s, h, r), r.expiresAt))
    ensures AllAllowed(Aged(l, s, h, r)) && Commands(Aged(l, s, h, r), false) == [Create(l, s, h, r), Tick(r.expiresAt)]
  {
    hide Run, Fits, SafeSession, Both, AllAllowed, Commands, Made, Alone;
    MadeState(l, s, h, r);
    BothSnoc(Made(l, s, h, r), Do(Tick(r.expiresAt)));
    Ticked(State(Alone(l, s, h, r), 0), r.expiresAt);
  }

  /** Every handoff that expires can slip away so: its session and its handoff, a clock, an eviction. */
  lemma HandoffSlips(l: string, s: CommonSession, h: string, r: AuthenticationHandoff)
    requires SafeSession(s) && Fits(r, l, s) && 0 < r.expiresAt && 0 < s.expiresAt
    ensures var es1, es2 := Aged(l, s, h, r), Gone(l, s, h, r);
            && es1 <= es2 && AllAllowed(es2) && Fresh(Commands(es2, false))
            && Slipped(Both(es1).thin, Both(es2).thin, h) && !Slipped(Both(es1).full, Both(es2).full, h)
  {
    hide Run, Fits, Fresh, SafeSession, Both, AllAllowed, Commands, Aged;
    AgedState(l, s, h, r);
    BothSnoc(Aged(l, s, h, r), Evict(Handoff, h));
    FreshAlone(Create(l, s, h, r), Tick(r.expiresAt));
    assert Commands(Gone(l, s, h, r), false) == [Create(l, s, h, r), Tick(r.expiresAt)];
  }

  lemma Ticked(s: State, to: nat)
    ensures Next(s, Tick(to)) == State(s.store, to)
  {
  }

  /**
    Then the exchange handler that read the TYPE before the eviction answers with an invalid record,
    503, where the server that does not evict lets the script find the handoff expired, 400.
  */
  lemma SlippingChangesTheResponse(l: string, s: CommonSession, h: string, r: AuthenticationHandoff, serviceId: string, challenge: string)
    requires SafeSession(s) && Fits(r, l, s) && 0 < r.expiresAt && 0 < s.expiresAt
    ensures var es1, es2 := Aged(l, s, h, r), Gone(l, s, h, r);
            && ThinAnswer(es1, es2, es2, h, serviceId, challenge) == Failed(InvalidStoredState)
            && ExchangeStatus(ThinAnswer(es1, es2, es2, h, serviceId, challenge)) == 503
            && ExchangeStatus(FullAnswer(es1, es2, es2, h, serviceId, challenge)) != 503
  {
    hide Fits, Fresh, AllAllowed, FullAnswer, ThinAnswer, Both, Slipped, Aged, Gone, SafeSession;
    var es1, es2 := Aged(l, s, h, r), Gone(l, s, h, r);
    HandoffSlips(l, s, h, r);
    AnswersAreAtomic(es1, es2, es2, h, serviceId, challenge);
    ResponseDependsOnSlipping(es1, es2, es2, h, serviceId, challenge);
  }

  /** There are such a session and handoff. */
  lemma SlippingHappens() returns (l: string, s: CommonSession, h: string, r: AuthenticationHandoff)
    ensures var es1, es2 := Aged(l, s, h, r), Gone(l, s, h, r);
            && es1 <= es2 && AllAllowed(es2) && Fresh(Commands(es2, false))
            && SplitExchange(Both(es1).thin, Both(es2).thin, Both(es2).thin, h, "p", "c").1 == Failed(InvalidStoredState)
            && ExchangeStatus(FullAnswer(es1, es2, es2, h, "p", "c")) != ExchangeStatus(ThinAnswer(es1, es2, es2, h, "p", "c"))
  {
    hide Fresh, AllAllowed, Both, FullAnswer, Aged, Gone, SplitExchange;
    l, h := "l", "h";
    s, r := CommonSession(1, 0, 0, 10), AuthenticationHandoff("p", 1, l, "c", 0, 0, 5, Unused);
    HandoffSlips(l, s, h, r);
    SlippingChangesTheResponse(l, s, h, r, "p", "c");
  }
}
