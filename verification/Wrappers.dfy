/** The outcomes that the Rust functions around the Redis commands return. */
module Answers {
  import opened Decimal
  import opened Records

  datatype RedisStateError =
    | NotFound | Expired | RedisFailure | InvalidStoredState | AlreadyClaimed | AlreadyUsed
    | ServiceMismatch | ChallengeMismatch | CsrfMismatch | KeyConflict

  datatype Answer =
    | Done
    | Claimed(transaction: ExternalAuthTransaction)
    | Issued
    | Exchanged(internalUserId: i32, authenticatedAt: u64)
    | LoggedOut(returnUri: string)
    | SessionRead(session: CommonSession)
    | HandoffThere
    | LookupRead(lookup: string)
    | Failed(error: RedisStateError)

  /** Every refusal that the handlers answer alike when a record is simply gone. */
  function Blurred(a: Answer): Answer {
    if a == Failed(Expired) then Failed(NotFound) else a
  }
}

/** The Rust wrappers: what they pass to a script and how they read its reply. */
module ScriptCalls {
  import opened Common
  import opened Decimal
  import opened References
  import opened Records
  import opened RawRedis
  import opened Scripts
  import opened Answers
  import Utf8

  function ScriptError(code: int): RedisStateError {
    match code
    case 1 => NotFound
    case 2 => Expired
    case 4 => AlreadyClaimed
    case 5 => AlreadyUsed
    case 6 => ServiceMismatch
    case 7 => ChallengeMismatch
    case 8 => CsrfMismatch
    case 9 => KeyConflict
    case _ => InvalidStoredState
  }

  /** A reply that is not a success: an error, a lone code, or nonsense. */
  function Refusal(reply: Reply): Answer {
    if reply == [Fault] then Failed(RedisFailure)
    else if |reply| == 1 && reply[0].Int? then Failed(ScriptError(reply[0].n)) else Failed(InvalidStoredState)
  }

  predicate IsText(item: Item) {
    item.Bulk? && Utf8.Valid(item.bytes)
  }

  /** The field map that the claim wrapper rebuilds from the reply. */
  function ClaimFields(reply: Reply): Option<Fields>
    requires |reply| == 9
  {
    if IsText(reply[1]) && IsText(reply[2]) && IsText(reply[3]) && IsText(reply[4])
       && IsText(reply[5]) && IsText(reply[6]) && IsText(reply[7]) && IsText(reply[8]) then
      Some(map[SERVICE_ID := reply[1].bytes, SERVICE_STATE := reply[2].bytes,
               HANDOFF_CODE_CHALLENGE := reply[3].bytes, PROVIDER := reply[4].bytes,
               PROVIDER_VERIFICATION_DATA := reply[5].bytes, CREATED_AT := reply[6].bytes,
               EXPIRES_AT := reply[7].bytes, STATUS := reply[8].bytes])
    else None
  }

  function ClaimAnswer(reply: Reply): Answer {
    if |reply| == 9 && reply[0] == Int(OK) then
      match ClaimFields(reply)
      case None => Failed(InvalidStoredState)
      case Some(fields) =>
        match DecodeExternal(fields)
        case Some(state) => if state.status == Processing then Claimed(state) else Failed(InvalidStoredState)
        case None => Failed(InvalidStoredState)
    else Refusal(reply)
  }

  function IssueAnswer(reply: Reply): Answer {
    if reply == [Int(OK)] then Issued else Refusal(reply)
  }

  function ExchangeAnswer(reply: Reply): Answer {
    if |reply| == 3 && reply[0] == Int(OK) && reply[1].Int? && reply[2].Int? then
      if I32_MIN <= reply[1].n <= I32_MAX && 0 <= reply[2].n <= U64_MAX
      then Exchanged(reply[1].n, reply[2].n) else Failed(InvalidStoredState)
    else Refusal(reply)
  }

  function LogoutAnswer(reply: Reply): Answer {
    if |reply| == 2 && reply[0] == Int(OK) then
      if IsText(reply[1]) then LoggedOut(reply[1].bytes) else Failed(InvalidStoredState)
    else Refusal(reply)
  }

  /** The strings of a transaction that a claim sends back verbatim. */
  predicate TextsAreUtf8(f: Fields)
    requires f.Keys == EXTERNAL_FIELDS
  {
    && Utf8.Valid(f[SERVICE_ID]) && Utf8.Valid(f[SERVICE_STATE]) && Utf8.Valid(f[HANDOFF_CODE_CHALLENGE])
    && Utf8.Valid(f[PROVIDER]) && Utf8.Valid(f[PROVIDER_VERIFICATION_DATA])
  }

  lemma StampIsUtf8(s: string)
    requires Stamp(s).Some?
    ensures Utf8.Valid(s)
  {
    var digits := if |s| > 0 && s[0] == '+' then s[1..] else s;
    CheckedFromZero(digits, U64_MAX);
    forall i | 0 <= i < |s|
      ensures s[i] as int < 0x80
    {
      if s[0] == '+' && i > 0 {
        assert s[i] == digits[i - 1] && IsDigit(digits[i - 1]);
      } else if s[0] != '+' {
        assert IsDigit(digits[i]);
      }
    }
    Utf8.AsciiIsValid(s);
  }

  lemma ProcessingIsUtf8(s: string)
    requires s == "processing"
    ensures Utf8.Valid(s)
  {
    forall i | 0 <= i < |s|
      ensures s[i] as int < 0x80
    {
    }
    Utf8.AsciiIsValid(s);
  }

  /**
    A claim that changed the store is reported as the record now stored, exactly when the five
    texts are UTF-8; otherwise the change is reported as an invalid record.
  */
  lemma ClaimIsReported(db: Db, now: nat, key: string)
    ensures var o := ClaimScript(db, now, key);
            o.reply[0] == Int(OK) ==>
              && key in db && HasExactly(db[key], EXTERNAL_FIELDS) && HasExactly(o.db[key], EXTERNAL_FIELDS)
              && DecodeExternal(o.db[key].value.fields).Some?
              && ClaimAnswer(o.reply) ==
                 if TextsAreUtf8(db[key].value.fields)
                 then Claimed(DecodeExternal(o.db[key].value.fields).value)
                 else Failed(InvalidStoredState)
  {
    hide Utf8.Valid, TextsAreUtf8, DecodeExternal, ClaimFields, Stamp;
    var o := ClaimScript(db, now, key);
    if o.reply[0] == Int(OK) {
      var f, f', status := db[key].value.fields, o.db[key].value.fields, o.reply[8].bytes;
      assert f' == f[STATUS := status];
      assert ClaimFields(o.reply) == if TextsAreUtf8(f) then Some(f[STATUS := status]) else None by {
        StampIsUtf8(f[CREATED_AT]);
        StampIsUtf8(f[EXPIRES_AT]);
        ProcessingIsUtf8(status);
        ClaimRebuilds(o.reply, f, status);
      }
      DecodesAsProcessing(f, status);
    }
  }

  lemma DecodesAsProcessing(f: Fields, status: string)
    requires f.Keys == EXTERNAL_FIELDS && Stamp(f[CREATED_AT]).Some? && Stamp(f[EXPIRES_AT]).Some?
    requires status == "processing"
    ensures DecodeExternal(f[STATUS := status]).Some? && DecodeExternal(f[STATUS := status]).value.status == Processing
  {
    StatusTexts();
    assert f[STATUS := status].Keys == EXTERNAL_FIELDS;
  }

  lemma ClaimRebuilds(r: Reply, f: Fields, status: string)
    requires f.Keys == EXTERNAL_FIELDS && |r| == 9
    requires r[1..] == [Bulk(f[SERVICE_ID]), Bulk(f[SERVICE_STATE]), Bulk(f[HANDOFF_CODE_CHALLENGE]),
                        Bulk(f[PROVIDER]), Bulk(f[PROVIDER_VERIFICATION_DATA]), Bulk(f[CREATED_AT]),
                        Bulk(f[EXPIRES_AT]), Bulk(status)]
    requires Utf8.Valid(f[CREATED_AT]) && Utf8.Valid(f[EXPIRES_AT]) && Utf8.Valid(status)
    ensures ClaimFields(r) == if TextsAreUtf8(f) then Some(f[STATUS := status]) else None
  {
    var t := r[1..];
    assert r[1] == t[0] && r[2] == t[1] && r[3] == t[2] && r[4] == t[3];
    assert r[5] == t[4] && r[6] == t[5] && r[7] == t[6] && r[8] == t[7];
    if TextsAreUtf8(f) {
      assert ClaimFields(r).value == f[STATUS := status];
    }
  }

  /** An exchange that changed the store is always reported, with the numbers that are stored. */
  lemma ExchangeIsReported(db: Db, now: nat, k1: string, k2: string, argv: seq<string>)
    requires |argv| == 3
    ensures var o := ExchangeScript(db, now, k1, k2, argv);
            o.reply[0] == Int(OK) ==>
              && k1 in db && db[k1].value.Hash? && HandoffHeadIn(db[k1].value.fields).Some?
              && var h := HandoffHeadIn(db[k1].value.fields).value;
              && ExchangeAnswer(o.reply) == Exchanged(h.user, h.authenticated)
  {
  }

  /** A logout that changed the store is reported exactly when the return address is UTF-8. */
  lemma LogoutIsReported(db: Db, now: nat, k1: string, k2: string, csrf: string)
    ensures var o := LogoutScript(db, now, k1, k2, csrf);
            o.reply[0] == Int(OK) ==>
              && k1 in db && HasExactly(db[k1], LOGOUT_FIELDS)
              && var uri := db[k1].value.fields[LOGOUT_RETURN_URI];
              && LogoutAnswer(o.reply) == if Utf8.Valid(uri) then LoggedOut(uri) else Failed(InvalidStoredState)
  {
  }

  /** Bytes that are not UTF-8, which only something other than this code could have stored. */
  lemma ClaimCanGoUnreported()
    ensures exists db: Db, key: string ::
              && ClaimScript(db, 5, key).db != db
              && ClaimAnswer(ClaimScript(db, 5, key).reply) == Failed(InvalidStoredState)
              && ClaimScript(db, 5, key).reply[0] == Int(OK)
  {
    var raw: string := [0xFF as char];
    assert !Utf8.Valid(raw);
    var r := ExternalAuthTransaction(raw, "", "", "", "", 1, 9, Waiting);
    var f := EncodeExternal(r);
    var db: Db := map["k" := Entry(Hash(f), None)];
    ExternalRoundTrip(r);
    StatusTexts();
    ClaimIsReported(db, 5, "k");
    assert ClaimScript(db, 5, "k").reply[0] == Int(OK);
    assert ClaimScript(db, 5, "k").db["k"].value.fields[STATUS] == "processing";
  }

  /**
    An issue that Redis aborts, exactly for an expiry with a sign or leading zeros, which the script's
    own test accepts, has stored the handoff without a TTL, and is reported as a failure of Redis.
  */
  lemma IssueAborts(db: Db, now: nat, k1: string, k2: string, argv: seq<string>)
    requires |argv| == 9
    ensures var o := IssueScript(db, now, k1, k2, argv);
            && (o.reply == [Fault] ==>
                  && !Canonical(argv[7]) && Stamp(argv[7]).Some? && IssueAnswer(o.reply) == Failed(RedisFailure)
                  && k2 !in db && o.db == db[k2 := Entry(Hash(HandoffFields(argv[1..9])), None)])
            && (o.reply == [Int(OK)] ==> Canonical(argv[7]))
  {
    assert argv[1..9][6] == argv[7];
  }

  /** A creation likewise; if it is the handoff's expiry, the session has been made with its TTL. */
  lemma CreateAborts(db: Db, now: nat, k1: string, k2: string, argv: seq<string>)
    requires |argv| == 13 && k1 != k2
    ensures var o := CreateScript(db, now, k1, k2, argv);
            && (o.reply == [Fault] ==>
                  && !(Canonical(argv[3]) && Canonical(argv[11])) && IssueAnswer(o.reply) == Failed(RedisFailure)
                  && k1 !in db && k2 !in db
                  && if Canonical(argv[3]) then k1 in o.db && o.db[k1].ttl.Some? && k2 in o.db && o.db[k2].ttl.None?
                     else k1 in o.db && o.db[k1].ttl.None? && k2 !in o.db)
            && (o.reply == [Int(OK)] ==> Canonical(argv[3]) && Canonical(argv[11]))
  {
    hide SessionIn, HandoffHeadIn, IsLookup, Canonical;
    assert argv[0..4][3] == argv[3] && argv[5..13][6] == argv[11];
  }

  /** Such an expiry passes the script's test. */
  lemma SignedExpiryAborts() returns (db: Db, argv: seq<string>)
    ensures |argv| == 9 && IssueScript(db, 0, SESSION_PREFIX + argv[0], "k", argv).reply == [Fault]
  {
    var l := seq(64, i => '0');
    var s, r := CommonSession(1, 2, 2, 9), AuthenticationHandoff("p", 1, l, "c", 2, 2, 5, Unused);
    var k1 := SESSION_PREFIX + l;
    db := map[k1 := Entry(Hash(EncodeSession(s)), None)];
    argv := [l, "p", PrintInt(1), l, "c", PrintNat(2), PrintNat(2), "+" + PrintNat(5), "unused"];
    SignedHead(l, argv);
    StoredSession(s);
    assert k1 != "k" by { assert |k1| > 1; }
  }

  lemma StoredSession(s: CommonSession)
    requires s == CommonSession(1, 2, 2, 9)
    ensures SessionIn(Entry(Hash(EncodeSession(s)), None)) == Some(s)
  {
    SessionRoundTrip(s);
  }

  lemma SignedHead(l: string, argv: seq<string>)
    requires IsLookup(l) && argv == [l, "p", PrintInt(1), l, "c", PrintNat(2), PrintNat(2), "+" + PrintNat(5), "unused"]
    ensures var f := HandoffFields(argv[1..9]);
            HandoffHeadIn(f) == Some(HandoffHead(1, l, 2, 2, 5)) && !Canonical(f[EXPIRES_AT])
  {
    var text := "+" + PrintNat(5);
    assert text[0] == '+' && text[1..] == PrintNat(5);
    ParsePrintI32(1);
    ParsePrintU64(2);
    CheckedFromZero(PrintNat(5), U64_MAX);
    var a := argv[1..9];
    assert a[1] == PrintInt(1) && a[2] == l && a[4] == PrintNat(2) && a[5] == PrintNat(2) && a[6] == text;
  }
}
