/** Whole runs on raw hashes answer exactly as whole runs of the typed protocol. */
module RunRefinement {
  import opened Common
  import opened Decimal
  import opened References
  import opened Records
  import opened RawRedis
  import opened Answers
  import opened ScriptCalls
  import opened Protocol
  import opened Runs
  import opened RunTheorems
  import opened Refinement
  import opened ScriptRefinement
  import Utf8

  datatype RawState = RawState(db: Db, clock: nat)

  function RawAfter(cs: seq<Command>): RawState {
    if cs == [] then RawState(map[], 0) else
    var s, c := RawAfter(cs[..|cs| - 1]), cs[|cs| - 1];
    RawState(RunRaw(s.db, s.clock, c).db, if c.Tick? then c.now else s.clock)
  }

  /** Texts are Rust strings and session references are lookups. */
  predicate WellFormedCommand(c: Command) {
    && (c.WriteExternal? ==> TextsAreUtf8'(c.transaction))
    && (c.WriteLogout? ==> IsLookup(c.logoutRecord.csrfLookup) && Utf8.Valid(c.logoutRecord.logoutReturnUri))
    && (c.Issue? || c.Create? ==> IsLookup(c.session))
  }

  /** `write_state` sends EXPIREAT with the expiry of the record that it wrote. */
  ghost predicate ExpiresWhatWasWritten(before: seq<Command>, c: Command) {
    && (c.ExpireExternal? ==>
          exists j | 0 <= j < |before| ::
            before[j].WriteExternal? && before[j].external == c.external && before[j].transaction.expiresAt == c.at)
    && (c.ExpireLogout? ==>
          exists j | 0 <= j < |before| ::
            before[j].WriteLogout? && before[j].logout == c.logout && before[j].logoutRecord.expiresAt == c.at)
  }

  /** A run as the service can send it. */
  ghost predicate Sendable(cs: seq<Command>) {
    cs == [] ||
    var before, c := cs[..|cs| - 1], cs[|cs| - 1];
    && Sendable(before) && WellFormedCommand(c) && ExpiresWhatWasWritten(before, c)
    && Introduces(c) !! LogOf(before).introduced
  }

  lemma {:induction false} SendableIsFresh(cs: seq<Command>)
    requires Sendable(cs)
    ensures Fresh(cs)
    decreases |cs|
  {
    if cs != [] {
      SendableIsFresh(cs[..|cs| - 1]);
    }
  }

  // ----- single commands -----

  /** What a state must offer to a plain write and to its EXPIREAT. */
  predicate Admits(st: Store, c: Command) {
    && (c.WriteExternal? ==> c.external !in st.externals)
    && (c.WriteLogout? ==> c.logout !in st.logouts)
    && (c.ExpireExternal? && c.external in st.externals ==> st.externals[c.external].expiresAt == c.at)
    && (c.ExpireLogout? && c.logout in st.logouts ==> st.logouts[c.logout].expiresAt == c.at)
  }

  lemma WritingRefines(db: Db, st: Store, now: nat, c: Command)
    requires Represents(db, st) && Admits(st, c) && (c.WriteExternal? || c.WriteLogout?)
    ensures Refines(db, st, now, c)
  {
    hide EncodeExternal, EncodeLogout, EncodeSession, EncodeHandoff;
    var f := if c.WriteExternal? then External else Logout;
    var l := if c.WriteExternal? then c.external else c.logout;
    assert Holds(Fetch(db, KeyOf(f, l)), At(st, f, l));
    OneChange(db, st, RunRaw(db, now, c).db, Run(st, now, c).store, f, l);
  }

  lemma ExpiringRefines(db: Db, st: Store, now: nat, c: Command)
    requires Represents(db, st) && Admits(st, c) && (c.ExpireExternal? || c.ExpireLogout?)
    ensures Refines(db, st, now, c)
  {
    hide EncodeExternal, EncodeLogout, EncodeSession, EncodeHandoff;
    var f := if c.ExpireExternal? then External else Logout;
    var l := if c.ExpireExternal? then c.external else c.logout;
    assert Holds(Fetch(db, KeyOf(f, l)), At(st, f, l));
    OneChange(db, st, RunRaw(db, now, c).db, Run(st, now, c).store, f, l);
  }

  lemma ReadingRefines(db: Db, st: Store, now: nat, c: Command)
    requires Represents(db, st) && WellFormed(st) && (c.ReadSession? || c.TypeHandoff? || c.ReadLookup?)
    ensures Refines(db, st, now, c)
  {
    hide DecodeHandoff, DecodeExternal, DecodeLogout, EncodeExternal, EncodeLogout, DecodeSession, EncodeSession;
    match c
    case ReadSession(l) =>
      assert Holds(Fetch(db, KeyOf(Session, l)), At(st, Session, l));
      if l in st.sessions {
        SessionRoundTrip(st.sessions[l]);
      }
    case TypeHandoff(h) => assert Holds(Fetch(db, KeyOf(Handoff, h)), At(st, Handoff, h));
    case ReadLookup(h) => assert Holds(Fetch(db, KeyOf(Handoff, h)), At(st, Handoff, h));
  }

  /** Every command, on a database that represents a store, is the typed command on that store. */
  lemma CommandRefines(db: Db, st: Store, now: nat, c: Command)
    requires Represents(db, st) && WellFormed(st) && WellFormedCommand(c) && Admits(st, c)
    ensures Refines(db, st, now, c)
  {
    match c
    case WriteExternal(_, _) => WritingRefines(db, st, now, c);
    case WriteLogout(_, _) => WritingRefines(db, st, now, c);
    case ExpireExternal(_, _) => ExpiringRefines(db, st, now, c);
    case ExpireLogout(_, _) => ExpiringRefines(db, st, now, c);
    case Claim(l) => ClaimRefines(db, st, now, l);
    case Issue(l, h, r) => IssueRefines(db, st, now, l, h, r);
    case Create(l, s, h, r) => CreateRefines(db, st, now, l, s, h, r);
    case Exchange(h, service, challenge, l) => ExchangeRefines(db, st, now, h, service, challenge, l);
    case CompleteLogout(k, l, csrf) => LogoutRefines(db, st, now, k, l, csrf);
    case ReadSession(_) => ReadingRefines(db, st, now, c);
    case TypeHandoff(_) => ReadingRefines(db, st, now, c);
    case ReadLookup(_) => ReadingRefines(db, st, now, c);
    case DeleteSession(l) => DeletingRefines(db, st, Session, l);
    case Lose(f, l) => DeletingRefines(db, st, f, l);
    case Tick(_) =>
  }

  // ----- whole runs -----

  lemma CreatingStaysWellFormed(st: Store, now: nat, c: Command)
    requires WellFormed(st) && WellFormedCommand(c)
    requires c.WriteExternal? || c.WriteLogout? || c.Issue? || c.Create?
    ensures WellFormed(Run(st, now, c).store)
  {
    hide Utf8.Valid, IsLookup;
  }

  lemma UsingStaysWellFormed(st: Store, now: nat, c: Command)
    requires WellFormed(st) && !(c.WriteExternal? || c.WriteLogout? || c.Issue? || c.Create?)
    ensures WellFormed(Run(st, now, c).store)
  {
    hide Utf8.Valid, IsLookup, WellFormed, ClaimStep, ExchangeStep, LogoutStep, Without;
    match c
    case Claim(l) => ClaimStaysWellFormed(st, now, l);
    case Exchange(h, service, challenge, l) => ExchangeStaysWellFormed(st, now, h, service, challenge, l);
    case CompleteLogout(o, l, csrf) => LogoutStaysWellFormed(st, now, o, l, csrf);
    case ExpireExternal(l, _) => WithoutStaysWellFormed(st, External, l);
    case ExpireLogout(l, _) => WithoutStaysWellFormed(st, Logout, l);
    case DeleteSession(l) => WithoutStaysWellFormed(st, Session, l);
    case Lose(f, l) => WithoutStaysWellFormed(st, f, l);
    case _ =>
  }

  lemma ClaimStaysWellFormed(st: Store, now: nat, l: string)
    requires WellFormed(st)
    ensures WellFormed(ClaimStep(st, now, l).store)
  {
    hide Utf8.Valid, IsLookup;
  }

  lemma ExchangeStaysWellFormed(st: Store, now: nat, h: string, serviceId: string, challenge: string, l: string)
    requires WellFormed(st)
    ensures WellFormed(ExchangeStep(st, now, h, serviceId, challenge, l).store)
  {
    hide Utf8.Valid, IsLookup;
  }

  lemma LogoutStaysWellFormed(st: Store, now: nat, o: string, l: string, csrf: string)
    requires WellFormed(st)
    ensures WellFormed(LogoutStep(st, now, o, l, csrf).store)
  {
    hide Utf8.Valid, IsLookup;
  }

  lemma WithoutStaysWellFormed(st: Store, f: Family, l: string)
    requires WellFormed(st)
    ensures WellFormed(Without(st, f, l))
  {
    hide Utf8.Valid, IsLookup;
  }

  lemma WrittenExpiry(before: seq<Command>, j: nat)
    requires Fresh(before) && j < |before|
    ensures var st, w := After(before).store, before[j];
            && (w.WriteExternal? && w.external in st.externals ==> st.externals[w.external].expiresAt == w.transaction.expiresAt)
            && (w.WriteLogout? && w.logout in st.logouts ==> st.logouts[w.logout].expiresAt == w.logoutRecord.expiresAt)
  {
    var p, w := before[..j + 1], before[j];
    assert p[..|p| - 1] == before[..j] && p[|p| - 1] == w;
    if w.WriteExternal? {
      assert (External, w.external) in Introduces(w);
      assert (External, w.external) in LogOf(p).introduced && After(p).store.externals[w.external] == w.transaction;
    } else if w.WriteLogout? {
      assert (Logout, w.logout) in Introduces(w);
      assert (Logout, w.logout) in LogOf(p).introduced && After(p).store.logouts[w.logout] == w.logoutRecord;
    }
    RecordsOnlyAge(p, before);
  }

  lemma SendableIsAdmitted(before: seq<Command>, c: Command)
    requires Fresh(before) && ExpiresWhatWasWritten(before, c) && Introduces(c) !! LogOf(before).introduced
    ensures Admits(After(before).store, c)
  {
    if c.WriteExternal? {
      assert (External, c.external) in Introduces(c);
      EveryRunIsCoherent(before);
    } else if c.WriteLogout? {
      assert (Logout, c.logout) in Introduces(c);
      LogoutsAreIntroduced(before);
    } else if c.ExpireExternal? {
      var j :| 0 <= j < |before| && before[j].WriteExternal? && before[j].external == c.external && before[j].transaction.expiresAt == c.at;
      WrittenExpiry(before, j);
    } else if c.ExpireLogout? {
      var j :| 0 <= j < |before| && before[j].WriteLogout? && before[j].logout == c.logout && before[j].logoutRecord.expiresAt == c.at;
      WrittenExpiry(before, j);
    }
  }

  /** After every run that the service can send, Redis holds exactly the typed store, and no TTL but expiries. */
  lemma {:induction false} RunsRefine(cs: seq<Command>)
    requires Sendable(cs)
    ensures Represents(RawAfter(cs).db, After(cs).store) && RawAfter(cs).clock == After(cs).clock
    ensures WellFormed(After(cs).store)
    decreases |cs|
  {
    if cs != [] {
      var before, c := cs[..|cs| - 1], cs[|cs| - 1];
      RunsRefine(before);
      SendableIsFresh(before);
      SendableIsAdmitted(before, c);
      var s := After(before);
      CommandRefines(RawAfter(before).db, s.store, s.clock, c);
      if c.WriteExternal? || c.WriteLogout? || c.Issue? || c.Create? {
        CreatingStaysWellFormed(s.store, s.clock, c);
      } else {
        UsingStaysWellFormed(s.store, s.clock, c);
      }
    }
  }

  /** And the next command, whatever it is, gets the same answer from both. */
  lemma AnswersAgree(cs: seq<Command>, c: Command)
    requires Sendable(cs + [c])
    ensures RunRaw(RawAfter(cs).db, RawAfter(cs).clock, c).answer == AnswerTo(After(cs), c)
  {
    assert (cs + [c])[..|cs|] == cs && (cs + [c])[|cs|] == c;
    RunsRefine(cs);
    SendableIsFresh(cs);
    SendableIsAdmitted(cs, c);
    CommandRefines(RawAfter(cs).db, After(cs).store, After(cs).clock, c);
  }

  /** Redis evicts a key only when its TTL has passed, and then the record has expired. */
  lemma EvictionIsExpiry(cs: seq<Command>, f: Family, l: string)
    requires Sendable(cs) && KeyOf(f, l) in RawAfter(cs).db
    ensures At(After(cs).store, f, l).Some?
    ensures var ttl := RawAfter(cs).db[KeyOf(f, l)].ttl;
            ttl.Some? && ttl.value <= After(cs).clock ==> At(After(cs).store, f, l).value.expiresAt <= After(cs).clock
  {
    RunsRefine(cs);
    assert Holds(Fetch(RawAfter(cs).db, KeyOf(f, l)), At(After(cs).store, f, l));
  }
}
