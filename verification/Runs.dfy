/** What holds over every run of the protocol, from an empty store. */
module Runs {
  import opened Common
  import opened Decimal
  import opened References
  import opened Records
  import opened Answers
  import opened Protocol

  predicate Succeeds(s: State, c: Command) {
    var a := AnswerTo(s, c);
    a.Claimed? || a.Issued? || a.Exchanged? || a.LoggedOut?
  }

  /** A state together with what happened on the way to it. */
  datatype Log = Log(
    state: State,
    introduced: set<(Family, string)>,          // references generated so far
    written: map<string, ExternalAuthTransaction>, // external transactions, as they were written
    claimed: multiset<string>,                  // external transactions, once per successful claim
    issued: map<string, AuthenticationHandoff>, // handoffs, as they were issued
    created: map<string, CommonSession>,         // sessions, as they were created
    exchanged: multiset<string>,                // handoffs, once per successful exchange
    ended: set<string>)                         // sessions that a logout deleted

  const START: Log := Log(State(EMPTY, 0), {}, map[], multiset{}, map[], map[], multiset{}, {})

  function Record(log: Log, c: Command): Log {
    var ok := Succeeds(log.state, c);
    Log(Next(log.state, c),
        log.introduced + Introduces(c),
        if c.WriteExternal? then log.written[c.external := c.transaction] else log.written,
        if ok && c.Claim? then log.claimed + multiset{c.external} else log.claimed,
        if ok && (c.Issue? || c.Create?) then log.issued[c.handoff := c.record] else log.issued,
        if ok && c.Create? then log.created[c.session := c.sessionRecord] else log.created,
        if ok && c.Exchange? then log.exchanged + multiset{c.handoff} else log.exchanged,
        if ok && c.CompleteLogout? && c.session in log.state.store.sessions
        then log.ended + {c.session} else log.ended)
  }

  function LogOf(cs: seq<Command>): Log {
    if cs == [] then START else Record(LogOf(cs[..|cs| - 1]), cs[|cs| - 1])
  }

  function After(cs: seq<Command>): State {
    LogOf(cs).state
  }

  /** No reference is generated twice. */
  predicate Fresh(cs: seq<Command>) {
    cs == [] || (Fresh(cs[..|cs| - 1]) && Introduces(cs[|cs| - 1]) !! LogOf(cs[..|cs| - 1]).introduced)
  }

  // ----- the invariant -----

  /** Stored transactions are as written but for their status, and a claimed one is not waiting. */
  ghost predicate ExternalsAsWritten(g: Log) {
    && (forall l | l in g.state.store.externals ::
          && l in g.written && g.state.store.externals[l] == g.written[l].(status := g.state.store.externals[l].status)
          && (l in g.claimed ==> g.state.store.externals[l].status == Processing))
    && (forall l | l in g.written :: (External, l) in g.introduced)
    && (forall l | l in g.claimed :: g.claimed[l] == 1 && l in g.written)
  }

  /** Stored sessions are exactly as created; a deleted one stays deleted. */
  ghost predicate SessionsAsCreated(g: Log) {
    && (forall l | l in g.state.store.sessions :: l in g.created && g.state.store.sessions[l] == g.created[l])
    && (forall l | l in g.created :: (Session, l) in g.introduced && SafeSession(g.created[l]))
    && (forall l | l in g.ended :: l in g.created && l !in g.state.store.sessions)
  }

  /** A handoff as stored against the handoff as issued: all but the status is immutable. */
  predicate SameButStatus(a: AuthenticationHandoff, b: AuthenticationHandoff) {
    a == b.(status := a.status)
  }

  /** Stored handoffs are as issued, and an exchanged one is not unused. */
  ghost predicate HandoffsAsIssued(g: Log) {
    && (forall h | h in g.state.store.handoffs ::
          && h in g.issued && SameButStatus(g.state.store.handoffs[h], g.issued[h])
          && (h in g.exchanged ==> g.state.store.handoffs[h].status == Used))
    && (forall h | h in g.issued :: (Handoff, h) in g.introduced)
    && (forall h | h in g.exchanged :: g.exchanged[h] == 1 && h in g.issued)
  }

  /** An issued handoff names a session that was created, with its user and authentication time. */
  ghost predicate IssuedForCreated(g: Log) {
    forall h | h in g.issued ::
      && g.issued[h].commonSessionLookup in g.created
      && Fits(g.issued[h], g.issued[h].commonSessionLookup, g.created[g.issued[h].commonSessionLookup])
  }

  ghost predicate Coherent(g: Log) {
    ExternalsAsWritten(g) && SessionsAsCreated(g) && HandoffsAsIssued(g) && IssuedForCreated(g)
  }

  // ----- what one command can do to sessions and to handoffs -----

  ghost predicate Submap<K, V>(a: map<K, V>, b: map<K, V>) {
    forall k | k in a :: k in b && a[k] == b[k]
  }

  /** The session a creating command makes its handoff for. */
  function SessionFor(st: Store, c: Command): Option<CommonSession>
    requires c.Issue? || c.Create?
  {
    if c.Create? then Some(c.sessionRecord)
    else if c.session in st.sessions then Some(st.sessions[c.session]) else None
  }

  ghost predicate ExternalMove(m: map<string, ExternalAuthTransaction>, m': map<string, ExternalAuthTransaction>, c: Command, ok: bool) {
    if c.WriteExternal? then m' == m[c.external := c.transaction]
    else if c.Claim? && ok then
      c.external in m && m[c.external].status == Waiting && m' == m[c.external := m[c.external].(status := Processing)]
    else Submap(m', m)
  }

  ghost predicate SessionMove(m: map<string, CommonSession>, m': map<string, CommonSession>, c: Command, ok: bool) {
    if c.Create? && ok
    then c.session !in m && SafeSession(c.sessionRecord) && m' == m[c.session := c.sessionRecord]
    else Submap(m', m) && (c.CompleteLogout? && ok ==> c.session !in m')
  }

  ghost predicate HandoffMove(st: Store, m': map<string, AuthenticationHandoff>, c: Command, ok: bool) {
    var m := st.handoffs;
    if (c.Issue? || c.Create?) && ok then
      && c.handoff !in m && m' == m[c.handoff := c.record]
      && SessionFor(st, c).Some? && Fits(c.record, c.session, SessionFor(st, c).value)
    else if c.Exchange? && ok then
      c.handoff in m && m[c.handoff].status == Unused && m' == m[c.handoff := m[c.handoff].(status := Used)]
    else Submap(m', m)
  }

  ghost predicate Moves(s: State, c: Command) {
    && ExternalMove(s.store.externals, Next(s, c).store.externals, c, Succeeds(s, c))
    && SessionMove(s.store.sessions, Next(s, c).store.sessions, c, Succeeds(s, c))
    && HandoffMove(s.store, Next(s, c).store.handoffs, c, Succeeds(s, c))
  }

  lemma CreatingMoves(s: State, c: Command)
    requires c.Issue? || c.Create?
    ensures Moves(s, c)
  {
  }

  lemma ExchangingMoves(s: State, c: Command)
    requires c.Exchange?
    ensures Moves(s, c)
  {
  }

  lemma LeavingMoves(s: State, c: Command)
    requires c.CompleteLogout? || c.DeleteSession? || c.Lose?
    ensures Moves(s, c)
  {
  }

  lemma ExternalMoves(s: State, c: Command)
    requires c.WriteExternal? || c.ExpireExternal? || c.Claim?
    ensures Moves(s, c)
  {
    assert Next(s, c).store.sessions == s.store.sessions;
    assert Next(s, c).store.handoffs == s.store.handoffs;
  }

  lemma OtherwiseMoves(s: State, c: Command)
    requires c.WriteLogout? || c.ExpireLogout? || c.ReadSession? || c.TypeHandoff? || c.ReadLookup? || c.Tick?
    ensures Moves(s, c)
  {
    assert Next(s, c).store.externals == s.store.externals;
    assert Next(s, c).store.sessions == s.store.sessions;
    assert Next(s, c).store.handoffs == s.store.handoffs;
  }

  lemma EveryCommandMoves(s: State, c: Command)
    ensures Moves(s, c)
  {
    if c.Issue? || c.Create? {
      CreatingMoves(s, c);
    } else if c.Exchange? {
      ExchangingMoves(s, c);
    } else if c.CompleteLogout? || c.DeleteSession? || c.Lose? {
      LeavingMoves(s, c);
    } else if c.WriteExternal? || c.ExpireExternal? || c.Claim? {
      ExternalMoves(s, c);
    } else {
      OtherwiseMoves(s, c);
    }
  }

  /** The bookkeeping of `Record`, given the new state. */
  ghost predicate Recorded(g: Log, c: Command, g': Log, ok: bool) {
    && g'.introduced == g.introduced + Introduces(c)
    && g'.written == (if c.WriteExternal? then g.written[c.external := c.transaction] else g.written)
    && g'.claimed == (if ok && c.Claim? then g.claimed + multiset{c.external} else g.claimed)
    && g'.issued == (if ok && (c.Issue? || c.Create?) then g.issued[c.handoff := c.record] else g.issued)
    && g'.created == (if ok && c.Create? then g.created[c.session := c.sessionRecord] else g.created)
    && g'.exchanged == (if ok && c.Exchange? then g.exchanged + multiset{c.handoff} else g.exchanged)
    && g'.ended == (if ok && c.CompleteLogout? && c.session in g.state.store.sessions
                    then g.ended + {c.session} else g.ended)
    && ExternalMove(g.state.store.externals, g'.state.store.externals, c, ok)
    && SessionMove(g.state.store.sessions, g'.state.store.sessions, c, ok)
    && HandoffMove(g.state.store, g'.state.store.handoffs, c, ok)
  }

  lemma ExternalsStay(g: Log, c: Command, g': Log, ok: bool)
    requires Coherent(g) && Introduces(c) !! g.introduced && Recorded(g, c, g', ok)
    ensures ExternalsAsWritten(g')
  {
    if c.WriteExternal? {
      assert (External, c.external) in Introduces(c);
    }
  }

  lemma SessionsStay(g: Log, c: Command, g': Log, ok: bool)
    requires Coherent(g) && Introduces(c) !! g.introduced && Recorded(g, c, g', ok)
    ensures SessionsAsCreated(g')
  {
    if c.Create? {
      assert (Session, c.session) in Introduces(c);
    }
  }

  lemma HandoffIssued(g: Log, g': Log, h: string, r: AuthenticationHandoff)
    requires HandoffsAsIssued(g) && g.introduced <= g'.introduced && (Handoff, h) !in g.introduced && (Handoff, h) in g'.introduced
    requires g'.issued == g.issued[h := r] && g'.exchanged == g.exchanged
    requires g'.state.store.handoffs == g.state.store.handoffs[h := r]
    ensures HandoffsAsIssued(g')
  {
  }

  lemma HandoffExchanged(g: Log, g': Log, h: string)
    requires HandoffsAsIssued(g) && g.introduced <= g'.introduced
    requires g'.issued == g.issued && g'.exchanged == g.exchanged + multiset{h}
    requires var m := g.state.store.handoffs;
             h in m && m[h].status == Unused && g'.state.store.handoffs == m[h := m[h].(status := Used)]
    ensures HandoffsAsIssued(g')
  {
  }

  lemma HandoffsRemoved(g: Log, g': Log)
    requires HandoffsAsIssued(g) && g.introduced <= g'.introduced
    requires g'.issued == g.issued && g'.exchanged == g.exchanged && Submap(g'.state.store.handoffs, g.state.store.handoffs)
    ensures HandoffsAsIssued(g')
  {
  }

  lemma HandoffsStay(g: Log, c: Command, g': Log, ok: bool)
    requires Coherent(g) && Introduces(c) !! g.introduced && Recorded(g, c, g', ok)
    ensures HandoffsAsIssued(g')
  {
    hide ExternalsAsWritten, SessionsAsCreated, IssuedForCreated, HandoffsAsIssued, ExternalMove, SessionMove, Fits;
    if ok && (c.Create? || c.Issue?) {
      assert (Handoff, c.handoff) in Introduces(c);
      HandoffIssued(g, g', c.handoff, c.record);
    } else if ok && c.Exchange? {
      HandoffExchanged(g, g', c.handoff);
    } else {
      HandoffsRemoved(g, g');
    }
  }

  lemma IssuedStay(g: Log, c: Command, g': Log, ok: bool)
    requires Coherent(g) && Introduces(c) !! g.introduced && Recorded(g, c, g', ok)
    ensures IssuedForCreated(g')
  {
    if c.Create? {
      assert (Session, c.session) in Introduces(c);
    }
  }

  lemma RecordIsRecorded(g: Log, c: Command)
    ensures Recorded(g, c, Record(g, c), Succeeds(g.state, c))
  {
    hide Succeeds, Next, Introduces, ExternalMove, SessionMove, HandoffMove;
    EveryCommandMoves(g.state, c);
  }

  lemma RecordKeepsCoherent(g: Log, c: Command)
    requires Coherent(g) && Introduces(c) !! g.introduced
    ensures Coherent(Record(g, c))
  {
    hide ExternalsAsWritten, SessionsAsCreated, HandoffsAsIssued, IssuedForCreated, Succeeds, Record, Recorded, Introduces;
    var g', ok := Record(g, c), Succeeds(g.state, c);
    RecordIsRecorded(g, c);
    ExternalsStay(g, c, g', ok);
    SessionsStay(g, c, g', ok);
    HandoffsStay(g, c, g', ok);
    IssuedStay(g, c, g', ok);
  }

  /** Every run with fresh references is coherent, whatever is lost and whatever the clock does. */
  lemma {:induction false} EveryRunIsCoherent(cs: seq<Command>)
    requires Fresh(cs)
    ensures Coherent(LogOf(cs))
    decreases |cs|
  {
    hide Record, Introduces;
    if cs != [] {
      var g, c := LogOf(cs[..|cs| - 1]), cs[|cs| - 1];
      EveryRunIsCoherent(cs[..|cs| - 1]);
      RecordKeepsCoherent(g, c);
    }
  }
}
