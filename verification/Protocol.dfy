/**
  The protocol on typed records.  Every Redis command that the service sends is one atomic step;
  records may also disappear at any moment and the Redis clock may be set to anything.
*/
module Protocol {
  import opened Common
  import opened Decimal
  import opened References
  import opened Records
  import opened Answers

  datatype Store = Store(
    externals: map<string, ExternalAuthTransaction>,
    sessions: map<string, CommonSession>,
    handoffs: map<string, AuthenticationHandoff>,
    logouts: map<string, CommonLogoutTransaction>)

  datatype State = State(store: Store, clock: nat)

  datatype Command =
    | WriteExternal(external: string, transaction: ExternalAuthTransaction)
    | ExpireExternal(external: string, at: nat)
    | WriteLogout(logout: string, logoutRecord: CommonLogoutTransaction)
    | ExpireLogout(logout: string, at: nat)
    | Claim(external: string)
    | Issue(session: string, handoff: string, record: AuthenticationHandoff)
    | Create(session: string, sessionRecord: CommonSession, handoff: string, record: AuthenticationHandoff)
    | Exchange(handoff: string, serviceId: string, challenge: string, session: string)
    | CompleteLogout(logout: string, session: string, csrf: string)
    | ReadSession(session: string)
    | DeleteSession(session: string)
    | TypeHandoff(handoff: string)
    | ReadLookup(handoff: string)
    | Lose(family: Family, lookup: string)
    | Tick(now: nat)

  datatype Step = Step(store: Store, answer: Answer)

  function Fail(st: Store, e: RedisStateError): Step {
    Step(st, Failed(e))
  }

  predicate SafeSession(s: CommonSession) {
    s.authenticatedAt <= LUA_SAFE_MAX && s.createdAt <= LUA_SAFE_MAX && s.expiresAt <= LUA_SAFE_MAX
  }

  predicate SafeHandoff(h: AuthenticationHandoff) {
    h.authenticatedAt <= LUA_SAFE_MAX && h.issuedAt <= LUA_SAFE_MAX && h.expiresAt <= LUA_SAFE_MAX
  }

  function ClaimStep(st: Store, now: nat, l: string): Step {
    if l !in st.externals then Fail(st, NotFound) else
    var r := st.externals[l];
    if r.createdAt > LUA_SAFE_MAX || r.expiresAt > LUA_SAFE_MAX then Fail(st, InvalidStoredState)
    else if now >= r.expiresAt then Fail(st.(externals := st.externals - {l}), Expired)
    else if r.status == Processing then Fail(st, AlreadyClaimed)
    else
      var claimed := r.(status := Processing);
      Step(st.(externals := st.externals[l := claimed]), Claimed(claimed))
  }

  /** A handoff may be made for a session: same session, user and authentication time, not used. */
  predicate Fits(h: AuthenticationHandoff, lookup: string, s: CommonSession) {
    && h.status == Unused && SafeHandoff(h) && h.commonSessionLookup == lookup
    && h.internalUserId == s.internalUserId && h.authenticatedAt == s.authenticatedAt
  }

  function IssueStep(st: Store, now: nat, l: string, h: string, record: AuthenticationHandoff): Step {
    if l !in st.sessions then Fail(st, NotFound) else
    var session := st.sessions[l];
    if !SafeSession(session) then Fail(st, InvalidStoredState)
    else if now >= session.expiresAt then Fail(st.(sessions := st.sessions - {l}), Expired)
    else if h in st.handoffs then Fail(st, KeyConflict)
    else if !Fits(record, l, session) then Fail(st, InvalidStoredState)
    else if record.expiresAt <= now then Fail(st, Expired)
    else Step(st.(handoffs := st.handoffs[h := record]), Issued)
  }

  function CreateStep(st: Store, now: nat, l: string, session: CommonSession, h: string, record: AuthenticationHandoff): Step {
    if l in st.sessions || h in st.handoffs then Fail(st, KeyConflict)
    else if !SafeSession(session) || !Fits(record, l, session) then Fail(st, InvalidStoredState)
    else if session.expiresAt <= now || record.expiresAt <= now then Fail(st, Expired)
    else Step(st.(sessions := st.sessions[l := session], handoffs := st.handoffs[h := record]), Issued)
  }

  function ExchangeStep(st: Store, now: nat, h: string, serviceId: string, challenge: string, l: string): Step {
    if h !in st.handoffs then Fail(st, NotFound) else
    var r := st.handoffs[h];
    if !SafeHandoff(r) then Fail(st, InvalidStoredState)
    else if now >= r.expiresAt then Fail(st.(handoffs := st.handoffs - {h}), Expired)
    else if r.status == Used then Fail(st, AlreadyUsed)
    else if r.serviceId != serviceId then Fail(st, ServiceMismatch)
    else if r.codeChallenge != challenge then Fail(st, ChallengeMismatch)
    else if r.commonSessionLookup != l then Fail(st, InvalidStoredState)
    else if l !in st.sessions then Fail(st, NotFound)
    else
      var s := st.sessions[l];
      if !SafeSession(s) then Fail(st, InvalidStoredState)
      else if now >= s.expiresAt then Fail(st.(sessions := st.sessions - {l}), Expired)
      else if r.internalUserId != s.internalUserId || r.authenticatedAt != s.authenticatedAt
      then Fail(st, InvalidStoredState)
      else Step(st.(handoffs := st.handoffs[h := r.(status := Used)]), Exchanged(r.internalUserId, r.authenticatedAt))
  }

  function LogoutStep(st: Store, now: nat, o: string, l: string, csrf: string): Step {
    if o !in st.logouts then Fail(st, NotFound) else
    var r := st.logouts[o];
    if r.createdAt > LUA_SAFE_MAX || r.expiresAt > LUA_SAFE_MAX then Fail(st, InvalidStoredState)
    else if now >= r.expiresAt then Fail(st.(logouts := st.logouts - {o}), Expired)
    else if r.status == Used then Fail(st, AlreadyUsed)
    else if r.csrfLookup != csrf then Fail(st, CsrfMismatch)
    else Step(st.(logouts := st.logouts[o := r.(status := Used)], sessions := st.sessions - {l}),
              LoggedOut(r.logoutReturnUri))
  }

  function Without(st: Store, f: Family, l: string): Store {
    match f
    case External => st.(externals := st.externals - {l})
    case Session => st.(sessions := st.sessions - {l})
    case Handoff => st.(handoffs := st.handoffs - {l})
    case Logout => st.(logouts := st.logouts - {l})
  }

  function Run(st: Store, now: nat, c: Command): Step {
    match c
    case WriteExternal(l, r) => Step(st.(externals := st.externals[l := r]), Done)
    case ExpireExternal(l, at) => Step(if at <= now then Without(st, External, l) else st, Done)
    case WriteLogout(l, r) => Step(st.(logouts := st.logouts[l := r]), Done)
    case ExpireLogout(l, at) => Step(if at <= now then Without(st, Logout, l) else st, Done)
    case Claim(l) => ClaimStep(st, now, l)
    case Issue(l, h, r) => IssueStep(st, now, l, h, r)
    case Create(l, s, h, r) => CreateStep(st, now, l, s, h, r)
    case Exchange(h, service, challenge, l) => ExchangeStep(st, now, h, service, challenge, l)
    case CompleteLogout(o, l, csrf) => LogoutStep(st, now, o, l, csrf)
    case ReadSession(l) => if l in st.sessions then Step(st, SessionRead(st.sessions[l])) else Fail(st, NotFound)
    case DeleteSession(l) => Step(Without(st, Session, l), Done)
    case TypeHandoff(h) => if h in st.handoffs then Step(st, HandoffThere) else Fail(st, NotFound)
    case ReadLookup(h) =>
      if h in st.handoffs then Step(st, LookupRead(st.handoffs[h].commonSessionLookup))
      else Fail(st, InvalidStoredState)
    case Lose(f, l) => Step(Without(st, f, l), Done)
    case Tick(_) => Step(st, Done)
  }

  const EMPTY: Store := Store(map[], map[], map[], map[])

  function Next(s: State, c: Command): State {
    State(Run(s.store, s.clock, c).store, if c.Tick? then c.now else s.clock)
  }

  function AnswerTo(s: State, c: Command): Answer {
    Run(s.store, s.clock, c).answer
  }

  /** The references that a command is the first to use, whether it succeeds or not. */
  function Introduces(c: Command): set<(Family, string)> {
    match c
    case WriteExternal(l, _) => {(External, l)}
    case WriteLogout(l, _) => {(Logout, l)}
    case Issue(_, h, _) => {(Handoff, h)}
    case Create(l, _, h, _) => {(Session, l), (Handoff, h)}
    case _ => {}
  }
}
