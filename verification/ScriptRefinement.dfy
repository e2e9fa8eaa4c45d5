/** Each script, on encoded records, is one typed step. */
module ScriptRefinement {
  import opened Common
  import opened Decimal
  import opened References
  import opened Records
  import opened RawRedis
  import opened Scripts
  import opened Answers
  import opened ScriptCalls
  import opened Protocol
  import opened Refinement
  import Utf8

  ghost predicate Refines(db: Db, st: Store, now: nat, c: Command) {
    && RunRaw(db, now, c).answer == Run(st, now, c).answer
    && Represents(RunRaw(db, now, c).db, Run(st, now, c).store)
  }

  /** A key is free, or holds the hash of a record. */
  predicate Stored(db: Db, key: string, f: Option<Fields>) {
    match f
    case None => key !in db
    case Some(fields) => key in db && db[key].value == Hash(fields)
  }

  function Overwritten(db: Db, key: string, f: Fields): Db
    requires key in db
  {
    db[key := Entry(Hash(f), db[key].ttl)]
  }

  /** Overwriting a stored record by one with the same expiry. */
  lemma OverwritingRefines(db: Db, st: Store, st': Store, f: Family, l: string, i: Image)
    requires Represents(db, st) && KeyOf(f, l) in db
    requires At(st, f, l).Some? && At(st', f, l) == Some(i) && i.expiresAt == At(st, f, l).value.expiresAt
    requires forall g: Family, m: string | g != f || m != l :: At(st', g, m) == At(st, g, m)
    ensures Represents(Overwritten(db, KeyOf(f, l), i.fields), st')
  {
    assert Holds(Fetch(db, KeyOf(f, l)), At(st, f, l));
    OneChange(db, st, Overwritten(db, KeyOf(f, l), i.fields), st', f, l);
  }

  // ----- claim -----

  /** The typed claim, told in terms of the database. */
  ghost predicate ClaimFacts(db: Db, key: string, x: Option<ExternalAuthTransaction>, now: nat, db': Db, a: Answer) {
    match x
    case None => db' == db && a == Failed(NotFound)
    case Some(r) =>
      if r.createdAt > LUA_SAFE_MAX || r.expiresAt > LUA_SAFE_MAX then db' == db && a == Failed(InvalidStoredState)
      else if now >= r.expiresAt then db' == Del(db, key) && a == Failed(Expired)
      else if r.status == Processing then db' == db && a == Failed(AlreadyClaimed)
      else
        && key in db && db' == Overwritten(db, key, EncodeExternal(r.(status := Processing)))
        && a == Claimed(r.(status := Processing))
  }

  lemma ClaimWaiting(db: Db, now: nat, key: string, r: ExternalAuthTransaction)
    requires key in db && db[key].value == Hash(EncodeExternal(r)) && TextsAreUtf8'(r)
    requires r.createdAt <= LUA_SAFE_MAX && r.expiresAt <= LUA_SAFE_MAX && now < r.expiresAt && r.status == Waiting
    ensures ClaimScript(db, now, key).db == Overwritten(db, key, EncodeExternal(r.(status := Processing)))
    ensures ClaimAnswer(ClaimScript(db, now, key).reply) == Claimed(r.(status := Processing))
  {
    var claimed := r.(status := Processing);
    var o := ClaimScript(db, now, key);
    assert o.reply[0] == Int(OK) && o.db == Overwritten(db, key, EncodeExternal(claimed)) by {
      ReadEncodedExternal(r, db[key].ttl);
      StatusTexts();
      assert EncodeExternal(r) + map[STATUS := "processing"] == EncodeExternal(claimed);
    }
    ClaimIsReported(db, now, key);
    ExternalRoundTrip(claimed);
  }

  lemma ClaimRefused(db: Db, now: nat, key: string, r: ExternalAuthTransaction)
    requires key in db && db[key].value == Hash(EncodeExternal(r))
    ensures var o := ClaimScript(db, now, key);
            if r.createdAt > LUA_SAFE_MAX || r.expiresAt > LUA_SAFE_MAX then o == Refuse(db, INVALID)
            else if now >= r.expiresAt then o == Refuse(Del(db, key), EXPIRED)
            else r.status == Processing ==> o == Refuse(db, ALREADY_CLAIMED)
  {
    ReadEncodedExternal(r, db[key].ttl);
    StatusTexts();
  }

  lemma ClaimOnEncoded(db: Db, now: nat, key: string, x: Option<ExternalAuthTransaction>)
    requires Stored(db, key, if x.Some? then Some(EncodeExternal(x.value)) else None)
    requires x.Some? ==> TextsAreUtf8'(x.value)
    ensures ClaimFacts(db, key, x, now, ClaimScript(db, now, key).db, ClaimAnswer(ClaimScript(db, now, key).reply))
  {
    if x.Some? {
      var r := x.value;
      if r.createdAt <= LUA_SAFE_MAX && r.expiresAt <= LUA_SAFE_MAX && now < r.expiresAt && r.status == Waiting {
        ClaimWaiting(db, now, key, r);
      } else {
        ClaimRefused(db, now, key, r);
      }
    }
  }

  lemma ClaimLifts(db: Db, st: Store, now: nat, l: string, db': Db, a: Answer)
    requires Represents(db, st)
    requires ClaimFacts(db, KeyOf(External, l), if l in st.externals then Some(st.externals[l]) else None, now, db', a)
    ensures a == ClaimStep(st, now, l).answer && Represents(db', ClaimStep(st, now, l).store)
  {
    hide EncodeHandoff, EncodeSession, EncodeLogout, EncodeExternal;
    if a == Failed(Expired) {
      DeletingRefines(db, st, External, l);
    } else if a.Claimed? {
      var r := st.externals[l].(status := Processing);
      OverwritingRefines(db, st, ClaimStep(st, now, l).store, External, l, Image(EncodeExternal(r), r.expiresAt));
    }
  }

  lemma ClaimRefines(db: Db, st: Store, now: nat, l: string)
    requires Represents(db, st) && WellFormed(st)
    ensures Refines(db, st, now, Claim(l))
  {
    var o := ClaimScript(db, now, KeyOf(External, l));
    assert Holds(Fetch(db, KeyOf(External, l)), At(st, External, l));
    ClaimOnEncoded(db, now, KeyOf(External, l), if l in st.externals then Some(st.externals[l]) else None);
    ClaimLifts(db, st, now, l, o.db, ClaimAnswer(o.reply));
  }

  // ----- logout -----

  /** The logout script's outcome, told in terms of the record. */
  function LogoutExpected(db: Db, k1: string, k2: string, r: CommonLogoutTransaction, now: nat, csrf: string): Outcome
    requires k1 in db
  {
    if r.createdAt > LUA_SAFE_MAX || r.expiresAt > LUA_SAFE_MAX then Refuse(db, INVALID)
    else if now >= r.expiresAt then Refuse(Del(db, k1), EXPIRED)
    else if r.status == Used then Refuse(db, ALREADY_USED)
    else if r.csrfLookup != csrf then Refuse(db, CSRF_MISMATCH)
    else Outcome(Del(Overwritten(db, k1, EncodeLogout(r.(status := Used))), k2), [Int(OK), Bulk(r.logoutReturnUri)])
  }

  lemma LogoutOnEncoded(db: Db, now: nat, k1: string, k2: string, csrf: string, r: CommonLogoutTransaction)
    requires k1 in db && db[k1].value == Hash(EncodeLogout(r)) && IsLookup(r.csrfLookup)
    ensures LogoutScript(db, now, k1, k2, csrf) == LogoutExpected(db, k1, k2, r, now, csrf)
  {
    ReadEncodedLogout(r, db[k1].ttl);
    StatusTexts();
    assert EncodeLogout(r) + map[STATUS := "used"] == EncodeLogout(r)[STATUS := "used"];
  }

  lemma LogoutLifts(db: Db, st: Store, now: nat, k: string, l: string, csrf: string, o: Outcome)
    requires Represents(db, st) && k in st.logouts && KeyOf(Logout, k) in db && Utf8.Valid(st.logouts[k].logoutReturnUri)
    requires o == LogoutExpected(db, KeyOf(Logout, k), KeyOf(Session, l), st.logouts[k], now, csrf)
    ensures LogoutAnswer(o.reply) == LogoutStep(st, now, k, l, csrf).answer
    ensures Represents(o.db, LogoutStep(st, now, k, l, csrf).store)
  {
    hide EncodeHandoff, EncodeSession, EncodeLogout, EncodeExternal;
    var t := LogoutStep(st, now, k, l, csrf);
    if t.answer.LoggedOut? {
      var r := st.logouts[k].(status := Used);
      var st1 := st.(logouts := st.logouts[k := r]);
      OverwritingRefines(db, st, st1, Logout, k, Image(EncodeLogout(r), r.expiresAt));
      DeletingRefines(Overwritten(db, KeyOf(Logout, k), EncodeLogout(r)), st1, Session, l);
    } else if t.answer == Failed(Expired) {
      DeletingRefines(db, st, Logout, k);
    }
  }

  lemma LogoutRefines(db: Db, st: Store, now: nat, k: string, l: string, csrf: string)
    requires Represents(db, st) && WellFormed(st)
    ensures Refines(db, st, now, CompleteLogout(k, l, csrf))
  {
    assert Holds(Fetch(db, KeyOf(Logout, k)), At(st, Logout, k));
    if k in st.logouts {
      var o := LogoutScript(db, now, KeyOf(Logout, k), KeyOf(Session, l), csrf);
      LogoutOnEncoded(db, now, KeyOf(Logout, k), KeyOf(Session, l), csrf, st.logouts[k]);
      LogoutLifts(db, st, now, k, l, csrf, o);
    }
  }

  // ----- exchange -----

  function ExchangeExpected(db: Db, k1: string, k2: string, r: AuthenticationHandoff, y: Option<CommonSession>, now: nat,
                            service: string, challenge: string, l: string): Outcome
    requires k1 in db
  {
    if !SafeHandoff(r) then Refuse(db, INVALID)
    else if now >= r.expiresAt then Refuse(Del(db, k1), EXPIRED)
    else if r.status == Used then Refuse(db, ALREADY_USED)
    else if r.serviceId != service then Refuse(db, SERVICE_MISMATCH)
    else if r.codeChallenge != challenge then Refuse(db, CHALLENGE_MISMATCH)
    else if r.commonSessionLookup != l then Refuse(db, INVALID)
    else if y.None? then Refuse(db, NOT_FOUND)
    else if !SafeSession(y.value) then Refuse(db, INVALID)
    else if now >= y.value.expiresAt then Refuse(Del(db, k2), EXPIRED)
    else if r.internalUserId != y.value.internalUserId || r.authenticatedAt != y.value.authenticatedAt
    then Refuse(db, INVALID)
    else Outcome(Overwritten(db, k1, EncodeHandoff(r.(status := Used))),
                 [Int(OK), Int(r.internalUserId), Int(r.authenticatedAt)])
  }

  lemma ExchangeOnEncoded(db: Db, now: nat, h: string, l: string, service: string, challenge: string,
                          r: AuthenticationHandoff, y: Option<CommonSession>)
    requires KeyOf(Handoff, h) in db && db[KeyOf(Handoff, h)].value == Hash(EncodeHandoff(r)) && IsLookup(r.commonSessionLookup)
    requires Stored(db, KeyOf(Session, l), if y.Some? then Some(EncodeSession(y.value)) else None)
    ensures ExchangeScript(db, now, KeyOf(Handoff, h), KeyOf(Session, l), [service, challenge, l])
         == ExchangeExpected(db, KeyOf(Handoff, h), KeyOf(Session, l), r, y, now, service, challenge, l)
  {
    hide HandoffHeadIn, SessionIn, EncodeSession, IsLookup;
    ReadEncodedHandoff(r);
    StatusTexts();
    if y.Some? {
      ReadEncodedSession(y.value, db[KeyOf(Session, l)].ttl);
    }
    assert EncodeHandoff(r) + map[STATUS := "used"] == EncodeHandoff(r)[STATUS := "used"];
  }

  lemma ExchangeLifts(db: Db, st: Store, now: nat, h: string, service: string, challenge: string, l: string, o: Outcome)
    requires Represents(db, st) && h in st.handoffs && KeyOf(Handoff, h) in db
    requires o == ExchangeExpected(db, KeyOf(Handoff, h), KeyOf(Session, l), st.handoffs[h],
                                   if l in st.sessions then Some(st.sessions[l]) else None, now, service, challenge, l)
    ensures ExchangeAnswer(o.reply) == ExchangeStep(st, now, h, service, challenge, l).answer
    ensures Represents(o.db, ExchangeStep(st, now, h, service, challenge, l).store)
  {
    hide EncodeHandoff, EncodeSession, EncodeLogout, EncodeExternal;
    var t := ExchangeStep(st, now, h, service, challenge, l);
    if t.answer.Exchanged? {
      var r := st.handoffs[h].(status := Used);
      OverwritingRefines(db, st, t.store, Handoff, h, Image(EncodeHandoff(r), r.expiresAt));
    } else if t.answer == Failed(Expired) {
      DeletingRefines(db, st, Handoff, h);
      DeletingRefines(db, st, Session, l);
    }
  }

  lemma ExchangeRefines(db: Db, st: Store, now: nat, h: string, service: string, challenge: string, l: string)
    requires Represents(db, st) && WellFormed(st)
    ensures Refines(db, st, now, Exchange(h, service, challenge, l))
  {
    assert Holds(Fetch(db, KeyOf(Handoff, h)), At(st, Handoff, h));
    assert Holds(Fetch(db, KeyOf(Session, l)), At(st, Session, l));
    if h in st.handoffs {
      var o := ExchangeScript(db, now, KeyOf(Handoff, h), KeyOf(Session, l), [service, challenge, l]);
      var y := if l in st.sessions then Some(st.sessions[l]) else None;
      ExchangeOnEncoded(db, now, h, l, service, challenge, st.handoffs[h], y);
      ExchangeLifts(db, st, now, h, service, challenge, l, o);
    }
  }

  // ----- issue and create -----

  lemma IssueArguments(l: string, r: AuthenticationHandoff)
    ensures HandoffFields(IssueArgv(l, r)[1..9]) == EncodeHandoff(r)
  {
  }

  /** The wrappers print their expiries, so EXPIREAT takes them. */
  lemma ExpiriesArePrinted(s: CommonSession, r: AuthenticationHandoff)
    ensures EXPIRES_AT in EncodeSession(s) && IsIntegerArgument(EncodeSession(s)[EXPIRES_AT])
    ensures EXPIRES_AT in EncodeHandoff(r) && IsIntegerArgument(EncodeHandoff(r)[EXPIRES_AT])
  {
    PrintIsCanonical(s.expiresAt);
    PrintIsCanonical(r.expiresAt);
  }

  lemma CreateArguments(l: string, s: CommonSession, r: AuthenticationHandoff)
    ensures SessionFields(CreateArgv(l, s, r)[0..4]) == EncodeSession(s)
    ensures HandoffFields(CreateArgv(l, s, r)[5..13]) == EncodeHandoff(r)
  {
    hide PrintNat, PrintInt, UsageStatusText;
    var b := CreateArgv(l, s, r)[0..4];
    assert b == [PrintInt(s.internalUserId), PrintNat(s.authenticatedAt), PrintNat(s.createdAt), PrintNat(s.expiresAt)];
    var a := CreateArgv(l, s, r)[5..13];
    assert a == [r.serviceId, PrintInt(r.internalUserId), r.commonSessionLookup, r.codeChallenge,
                 PrintNat(r.authenticatedAt), PrintNat(r.issuedAt), PrintNat(r.expiresAt), UsageStatusText(r.status)];
  }

  /** A hash with a TTL under a free key. */
  function Placed(db: Db, key: string, f: Fields, at: nat): Db {
    db[key := Entry(Hash(f), Some(at))]
  }

  lemma PlacedBySteps(db: Db, key: string, f: Fields, now: nat, at: nat)
    requires key !in db && now < at
    ensures ExpireAt(HSet(db, key, f), now, key, at) == Placed(db, key, f, at)
  {
  }

  lemma PlacingRefines(db: Db, st: Store, st': Store, f: Family, l: string, i: Image)
    requires Represents(db, st) && At(st, f, l).None? && At(st', f, l) == Some(i)
    requires forall g: Family, m: string | g != f || m != l :: At(st', g, m) == At(st, g, m)
    ensures Represents(Placed(db, KeyOf(f, l), i.fields, i.expiresAt), st')
  {
    OneChange(db, st, Placed(db, KeyOf(f, l), i.fields, i.expiresAt), st', f, l);
  }

  function IssueExpected(db: Db, k1: string, k2: string, s: CommonSession, taken: bool, now: nat, l: string, r: AuthenticationHandoff): Outcome {
    if !SafeSession(s) then Refuse(db, INVALID)
    else if now >= s.expiresAt then Refuse(Del(db, k1), EXPIRED)
    else if taken then Refuse(db, KEY_CONFLICT)
    else if !Fits(r, l, s) then Refuse(db, INVALID)
    else if r.expiresAt <= now then Refuse(db, EXPIRED)
    else Outcome(Placed(db, k2, EncodeHandoff(r), r.expiresAt), [Int(OK)])
  }

  lemma IssueOnEncoded(db: Db, now: nat, l: string, h: string, r: AuthenticationHandoff, s: CommonSession)
    requires KeyOf(Session, l) in db && db[KeyOf(Session, l)].value == Hash(EncodeSession(s)) && IsLookup(l)
    ensures IssueScript(db, now, KeyOf(Session, l), KeyOf(Handoff, h), IssueArgv(l, r))
         == IssueExpected(db, KeyOf(Session, l), KeyOf(Handoff, h), s, KeyOf(Handoff, h) in db, now, l, r)
  {
    hide HandoffHeadIn, SessionIn, HandoffFields, EncodeHandoff, EncodeSession, EncodeLogout, EncodeExternal, IsLookup, IsIntegerArgument;
    ReadEncodedSession(s, db[KeyOf(Session, l)].ttl);
    ReadEncodedHandoff(r);
    IssueArguments(l, r);
    ExpiriesArePrinted(s, r);
    StatusTexts();
  }

  lemma IssueLifts(db: Db, st: Store, now: nat, l: string, h: string, r: AuthenticationHandoff, o: Outcome)
    requires Represents(db, st) && l in st.sessions
    requires o == IssueExpected(db, KeyOf(Session, l), KeyOf(Handoff, h), st.sessions[l], h in st.handoffs, now, l, r)
    ensures IssueAnswer(o.reply) == IssueStep(st, now, l, h, r).answer
    ensures Represents(o.db, IssueStep(st, now, l, h, r).store)
  {
    hide EncodeHandoff, EncodeSession, EncodeLogout, EncodeExternal;
    var t := IssueStep(st, now, l, h, r);
    if t.answer.Issued? {
      PlacingRefines(db, st, t.store, Handoff, h, Image(EncodeHandoff(r), r.expiresAt));
    } else if t.answer == Failed(Expired) {
      DeletingRefines(db, st, Session, l);
    }
  }

  lemma IssueRefines(db: Db, st: Store, now: nat, l: string, h: string, r: AuthenticationHandoff)
    requires Represents(db, st) && IsLookup(l)
    ensures Refines(db, st, now, Issue(l, h, r))
  {
    assert Holds(Fetch(db, KeyOf(Session, l)), At(st, Session, l));
    assert Holds(Fetch(db, KeyOf(Handoff, h)), At(st, Handoff, h));
    if l in st.sessions {
      var o := IssueScript(db, now, KeyOf(Session, l), KeyOf(Handoff, h), IssueArgv(l, r));
      IssueOnEncoded(db, now, l, h, r, st.sessions[l]);
      IssueLifts(db, st, now, l, h, r, o);
    }
  }

  function CreateExpected(db: Db, k1: string, k2: string, now: nat, l: string, s: CommonSession, r: AuthenticationHandoff): Outcome {
    if k1 in db || k2 in db then Refuse(db, KEY_CONFLICT)
    else if !SafeSession(s) || !Fits(r, l, s) then Refuse(db, INVALID)
    else if s.expiresAt <= now || r.expiresAt <= now then Refuse(db, EXPIRED)
    else Outcome(Placed(Placed(db, k1, EncodeSession(s), s.expiresAt), k2, EncodeHandoff(r), r.expiresAt), [Int(OK)])
  }

  lemma CreateOnEncoded(db: Db, now: nat, l: string, s: CommonSession, h: string, r: AuthenticationHandoff)
    requires IsLookup(l)
    ensures CreateScript(db, now, KeyOf(Session, l), KeyOf(Handoff, h), CreateArgv(l, s, r))
         == CreateExpected(db, KeyOf(Session, l), KeyOf(Handoff, h), now, l, s, r)
  {
    hide HandoffHeadIn, SessionIn, HandoffFields, SessionFields, HSet, ExpireAt, EncodeHandoff, EncodeSession, EncodeLogout, EncodeExternal, IsLookup, IsIntegerArgument;
    ReadEncodedSession(s, None);
    ReadEncodedHandoff(r);
    CreateArguments(l, s, r);
    ExpiriesArePrinted(s, r);
    StatusTexts();
    var k1, k2 := KeyOf(Session, l), KeyOf(Handoff, h);
    if k1 == k2 {
      KeyInjective(Session, l, Handoff, h);
    }
    if k1 !in db && k2 !in db && now < s.expiresAt && now < r.expiresAt {
      PlacedBySteps(db, k1, EncodeSession(s), now, s.expiresAt);
      PlacedBySteps(Placed(db, k1, EncodeSession(s), s.expiresAt), k2, EncodeHandoff(r), now, r.expiresAt);
    }
  }

  lemma CreateLifts(db: Db, st: Store, now: nat, l: string, s: CommonSession, h: string, r: AuthenticationHandoff, o: Outcome)
    requires Represents(db, st)
    requires o == CreateExpected(db, KeyOf(Session, l), KeyOf(Handoff, h), now, l, s, r)
    ensures IssueAnswer(o.reply) == CreateStep(st, now, l, s, h, r).answer
    ensures Represents(o.db, CreateStep(st, now, l, s, h, r).store)
  {
    hide EncodeHandoff, EncodeSession, EncodeLogout, EncodeExternal;
    assert Holds(Fetch(db, KeyOf(Session, l)), At(st, Session, l));
    assert Holds(Fetch(db, KeyOf(Handoff, h)), At(st, Handoff, h));
    var t := CreateStep(st, now, l, s, h, r);
    if t.answer.Issued? {
      var st1 := st.(sessions := st.sessions[l := s]);
      PlacingRefines(db, st, st1, Session, l, Image(EncodeSession(s), s.expiresAt));
      PlacingRefines(Placed(db, KeyOf(Session, l), EncodeSession(s), s.expiresAt), st1, t.store, Handoff, h,
                     Image(EncodeHandoff(r), r.expiresAt));
    }
  }

  lemma CreateRefines(db: Db, st: Store, now: nat, l: string, s: CommonSession, h: string, r: AuthenticationHandoff)
    requires Represents(db, st) && IsLookup(l)
    ensures Refines(db, st, now, Create(l, s, h, r))
  {
    hide CreateScript, CreateStep, CreateExpected, IssueAnswer, Represents;
    var o := CreateScript(db, now, KeyOf(Session, l), KeyOf(Handoff, h), CreateArgv(l, s, r));
    CreateOnEncoded(db, now, l, s, h, r);
    CreateLifts(db, st, now, l, s, h, r, o);
  }
}
