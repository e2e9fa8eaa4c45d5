/** The service on raw hashes does what the typed protocol does. */
module Refinement {
  import opened Common
  import opened Decimal
  import opened References
  import opened Records
  import opened RawRedis
  import opened Scripts
  import opened Answers
  import opened ScriptCalls
  import opened Protocol
  import Utf8

  // ----- the commands on the wire -----

  function IssueArgv(l: string, r: AuthenticationHandoff): seq<string> {
    [l, r.serviceId, PrintInt(r.internalUserId), r.commonSessionLookup, r.codeChallenge,
     PrintNat(r.authenticatedAt), PrintNat(r.issuedAt), PrintNat(r.expiresAt), UsageStatusText(r.status)]
  }

  function CreateArgv(l: string, s: CommonSession, r: AuthenticationHandoff): seq<string> {
    [PrintInt(s.internalUserId), PrintNat(s.authenticatedAt), PrintNat(s.createdAt), PrintNat(s.expiresAt),
     l, r.serviceId, PrintInt(r.internalUserId), r.commonSessionLookup, r.codeChallenge,
     PrintNat(r.authenticatedAt), PrintNat(r.issuedAt), PrintNat(r.expiresAt), UsageStatusText(r.status)]
  }

  datatype RawStep = RawStep(db: Db, answer: Answer)

  /** HGETALL and `decode_session`. */
  function ReadRawSession(e: Option<Entry>): Answer {
    match e
    case None => Failed(NotFound)
    case Some(Entry(NotAHash, _)) => Failed(RedisFailure)
    case Some(Entry(Hash(f), _)) =>
      match DecodeSession(f)
      case Some(s) => SessionRead(s)
      case None => Failed(InvalidStoredState)
  }

  /** HGET of the session lookup, and its check. */
  function ReadRawLookup(e: Option<Entry>): Answer {
    match e
    case None => Failed(InvalidStoredState)
    case Some(Entry(NotAHash, _)) => Failed(RedisFailure)
    case Some(Entry(Hash(f), _)) =>
      if COMMON_SESSION_LOOKUP in f && IsLookup(f[COMMON_SESSION_LOOKUP])
      then LookupRead(f[COMMON_SESSION_LOOKUP]) else Failed(InvalidStoredState)
  }

  function TypeRaw(e: Option<Entry>): Answer {
    match e
    case None => Failed(NotFound)
    case Some(Entry(NotAHash, _)) => Failed(InvalidStoredState)
    case Some(Entry(Hash(_), _)) => HandoffThere
  }

  function RunRaw(db: Db, now: nat, c: Command): RawStep {
    match c
    case WriteExternal(l, r) => RawStep(HSet(db, KeyOf(External, l), EncodeExternal(r)), Done)
    case ExpireExternal(l, at) => RawStep(ExpireAt(db, now, KeyOf(External, l), at), Done)
    case WriteLogout(l, r) => RawStep(HSet(db, KeyOf(Logout, l), EncodeLogout(r)), Done)
    case ExpireLogout(l, at) => RawStep(ExpireAt(db, now, KeyOf(Logout, l), at), Done)
    case Claim(l) =>
      var o := ClaimScript(db, now, KeyOf(External, l));
      RawStep(o.db, ClaimAnswer(o.reply))
    case Issue(l, h, r) =>
      var o := IssueScript(db, now, KeyOf(Session, l), KeyOf(Handoff, h), IssueArgv(l, r));
      RawStep(o.db, IssueAnswer(o.reply))
    case Create(l, s, h, r) =>
      var o := CreateScript(db, now, KeyOf(Session, l), KeyOf(Handoff, h), CreateArgv(l, s, r));
      RawStep(o.db, IssueAnswer(o.reply))
    case Exchange(h, service, challenge, l) =>
      var o := ExchangeScript(db, now, KeyOf(Handoff, h), KeyOf(Session, l), [service, challenge, l]);
      RawStep(o.db, ExchangeAnswer(o.reply))
    case CompleteLogout(k, l, csrf) =>
      var o := LogoutScript(db, now, KeyOf(Logout, k), KeyOf(Session, l), csrf);
      RawStep(o.db, LogoutAnswer(o.reply))
    case ReadSession(l) => RawStep(db, ReadRawSession(Fetch(db, KeyOf(Session, l))))
    case DeleteSession(l) => RawStep(Del(db, KeyOf(Session, l)), Done)
    case TypeHandoff(h) => RawStep(db, TypeRaw(Fetch(db, KeyOf(Handoff, h))))
    case ReadLookup(h) => RawStep(db, ReadRawLookup(Fetch(db, KeyOf(Handoff, h))))
    case Lose(f, l) => RawStep(Del(db, KeyOf(f, l)), Done)
    case Tick(_) => RawStep(db, Done)
  }

  // ----- representation -----

  /** A record as it should look in Redis: its hash, and the TTL it may have been given. */
  datatype Image = Image(fields: Fields, expiresAt: nat)

  function At(st: Store, f: Family, l: string): Option<Image> {
    match f
    case External => if l in st.externals then Some(Image(EncodeExternal(st.externals[l]), st.externals[l].expiresAt)) else None
    case Session => if l in st.sessions then Some(Image(EncodeSession(st.sessions[l]), st.sessions[l].expiresAt)) else None
    case Handoff => if l in st.handoffs then Some(Image(EncodeHandoff(st.handoffs[l]), st.handoffs[l].expiresAt)) else None
    case Logout => if l in st.logouts then Some(Image(EncodeLogout(st.logouts[l]), st.logouts[l].expiresAt)) else None
  }

  /** A key holds an image: the same hash, and no TTL other than the record's own expiry. */
  predicate Holds(e: Option<Entry>, i: Option<Image>) {
    match (e, i)
    case (None, None) => true
    case (Some(e), Some(i)) => e.value == Hash(i.fields) && (e.ttl.None? || e.ttl.value == i.expiresAt)
    case _ => false
  }

  /** Texts in the store come from Rust strings, and lookups from `reference_value_lookup`. */
  ghost predicate WellFormed(st: Store) {
    && (forall l | l in st.externals :: TextsAreUtf8'(st.externals[l]))
    && (forall h | h in st.handoffs :: IsLookup(st.handoffs[h].commonSessionLookup))
    && (forall o | o in st.logouts :: IsLookup(st.logouts[o].csrfLookup) && Utf8.Valid(st.logouts[o].logoutReturnUri))
  }

  predicate TextsAreUtf8'(r: ExternalAuthTransaction) {
    && Utf8.Valid(r.serviceId) && Utf8.Valid(r.serviceState) && Utf8.Valid(r.handoffCodeChallenge)
    && Utf8.Valid(r.provider) && Utf8.Valid(r.providerVerificationData)
  }

  /** Under every key of the four families, the database holds what the store has; other keys are free. */
  ghost predicate Represents(db: Db, st: Store) {
    forall f: Family, l: string :: Holds(Fetch(db, KeyOf(f, l)), At(st, f, l))
  }

  /** One key and one record change together. */
  lemma OneChange(db: Db, st: Store, db': Db, st': Store, f: Family, l: string)
    requires Represents(db, st)
    requires forall k: string | k != KeyOf(f, l) :: Fetch(db', k) == Fetch(db, k)
    requires forall g: Family, m: string | g != f || m != l :: At(st', g, m) == At(st, g, m)
    requires Holds(Fetch(db', KeyOf(f, l)), At(st', f, l))
    ensures Represents(db', st')
  {
    forall g: Family, m: string
      ensures Holds(Fetch(db', KeyOf(g, m)), At(st', g, m))
    {
      if g != f || m != l {
        if KeyOf(g, m) == KeyOf(f, l) {
          KeyInjective(g, m, f, l);
        }
        assert Holds(Fetch(db, KeyOf(g, m)), At(st, g, m));
      }
    }
  }

  lemma DeletingRefines(db: Db, st: Store, f: Family, l: string)
    requires Represents(db, st)
    ensures Represents(Del(db, KeyOf(f, l)), Without(st, f, l))
  {
    OneChange(db, st, Del(db, KeyOf(f, l)), Without(st, f, l), f, l);
  }

  // ----- encoded records, as the scripts read them -----

  lemma StampOfPrint(n: u64)
    ensures Stamp(PrintNat(n)) == if n <= LUA_SAFE_MAX then Some(n) else None
  {
    ParsePrintU64(n);
  }

  lemma ReadEncodedExternal(r: ExternalAuthTransaction, ttl: Option<nat>)
    ensures ExternalExpiry(Entry(Hash(EncodeExternal(r)), ttl)) ==
            if r.createdAt <= LUA_SAFE_MAX && r.expiresAt <= LUA_SAFE_MAX then Some(r.expiresAt) else None
    ensures EncodeExternal(r)[STATUS := "processing"] == EncodeExternal(r.(status := Processing))
  {
    ExternalRoundTrip(r);
    StampOfPrint(r.createdAt);
    StampOfPrint(r.expiresAt);
  }

  lemma ReadEncodedSession(s: CommonSession, ttl: Option<nat>)
    ensures SessionIn(Entry(Hash(EncodeSession(s)), ttl)) == if SafeSession(s) then Some(s) else None
  {
    SessionRoundTrip(s);
    ParsePrintI32(s.internalUserId);
    StampOfPrint(s.authenticatedAt);
    StampOfPrint(s.createdAt);
    StampOfPrint(s.expiresAt);
  }

  lemma ReadEncodedHandoff(r: AuthenticationHandoff)
    ensures HandoffHeadIn(EncodeHandoff(r)) ==
            if IsLookup(r.commonSessionLookup) && SafeHandoff(r)
            then Some(HandoffHead(r.internalUserId, r.commonSessionLookup, r.authenticatedAt, r.issuedAt, r.expiresAt))
            else None
    ensures EncodeHandoff(r)[STATUS := "used"] == EncodeHandoff(r.(status := Used))
  {
    HandoffRoundTrip(r);
    ParsePrintI32(r.internalUserId);
    StampOfPrint(r.authenticatedAt);
    StampOfPrint(r.issuedAt);
    StampOfPrint(r.expiresAt);
  }

  lemma ReadEncodedLogout(r: CommonLogoutTransaction, ttl: Option<nat>)
    ensures LogoutExpiry(Entry(Hash(EncodeLogout(r)), ttl)) ==
            if IsLookup(r.csrfLookup) && r.createdAt <= LUA_SAFE_MAX && r.expiresAt <= LUA_SAFE_MAX
            then Some(r.expiresAt) else None
    ensures EncodeLogout(r)[STATUS := "used"] == EncodeLogout(r.(status := Used))
  {
    LogoutRoundTrip(r);
    StampOfPrint(r.createdAt);
    StampOfPrint(r.expiresAt);
  }
}
