/**
  The scripts themselves, command by command, on a mutable database.  Each one is proved to do what
  its function in `Scripts` says, for every database, key and argument, an EXPIREAT that Redis refuses
  and that aborts the script included.
*/
module LuaServer {
  import opened Common
  import opened Decimal
  import opened References
  import opened Records
  import opened RawRedis
  import opened Scripts

  /** `bit.bxor`, bit by bit. */
  function BitXor(x: nat, y: nat): nat {
    if x == 0 && y == 0 then 0
    else (if x % 2 == y % 2 then 0 else 1) + 2 * BitXor(x / 2, y / 2)
  }

  /** `bit.bor`, bit by bit. */
  function BitOr(x: nat, y: nat): nat {
    if x == 0 && y == 0 then 0
    else (if x % 2 == 0 && y % 2 == 0 then 0 else 1) + 2 * BitOr(x / 2, y / 2)
  }

  lemma {:induction false} BitXorZero(x: nat, y: nat)
    ensures BitXor(x, y) == 0 <==> x == y
  {
    if x != 0 || y != 0 {
      BitXorZero(x / 2, y / 2);
    }
  }

  lemma {:induction false} BitOrZero(x: nat, y: nat)
    ensures BitOr(x, y) == 0 <==> x == 0 && y == 0
  {
    if x != 0 || y != 0 {
      BitOrZero(x / 2, y / 2);
    }
  }

  /** `fixed_work_equal_lookup`: all 64 positions are visited, whatever they hold. */
  method FixedWorkEqualLookup(a: string, b: string) returns (equal: bool)
    ensures equal <==> IsLookup(a) && IsLookup(b) && a == b
  {
    LuaLookupAgrees(a);
    LuaLookupAgrees(b);
    if !LuaLookup(a) || !LuaLookup(b) {
      return false;
    }
    var diff: nat := 0;
    for i := 0 to 64
      invariant diff == 0 <==> a[..i] == b[..i]
    {
      var x := BitXor(a[i] as int, b[i] as int);
      BitXorZero(a[i] as int, b[i] as int);
      BitOrZero(diff, x);
      assert a[..i + 1] == a[..i] + [a[i]] && b[..i + 1] == b[..i] + [b[i]];
      diff := BitOr(diff, x);
    }
    assert a == a[..64] && b == b[..64];
    return diff == 0;
  }

  class Server {
    var db: Db
    var clock: nat
    const round: nat -> nat   // how Lua's `tonumber` rounds to a double

    ghost predicate Valid() {
      IsDoubleRounding(round)
    }

    constructor (round: nat -> nat)
      requires IsDoubleRounding(round)
      ensures Valid() && db == map[] && clock == 0 && this.round == round
    {
      this.round := round;
      db := map[];
      clock := 0;
    }

    function HLen(key: string): nat
      requires key in db && db[key].value.Hash?
      reads this
    {
      |db[key].value.fields|
    }

    /** Read and validate the eight fields of an external transaction. */
    method ReadExternal(key: string) returns (expiry: Option<u64>)
      requires Valid()
      requires key in db
      ensures expiry == ExternalExpiry(db[key])
    {
      if !db[key].value.Hash? { return None; }
      var f := db[key].value.fields;
      ExactFields(f, EXTERNAL_FIELDS);
      if HLen(key) != 8 { return None; }
      if SERVICE_ID !in f || SERVICE_STATE !in f || HANDOFF_CODE_CHALLENGE !in f || PROVIDER !in f
         || PROVIDER_VERIFICATION_DATA !in f || CREATED_AT !in f || EXPIRES_AT !in f || STATUS !in f { return None; }
      assert f.Keys == EXTERNAL_FIELDS;
      LuaUintAgrees(round, f[CREATED_AT]);
      LuaUintAgrees(round, f[EXPIRES_AT]);
      if !LuaUint(round, f[CREATED_AT]) || !LuaUint(round, f[EXPIRES_AT]) { return None; }
      return Some(LuaNumber(round, f[EXPIRES_AT]));
    }

    /** Read and validate the four fields of a common session. */
    method ReadSession(key: string) returns (session: Option<CommonSession>)
      requires Valid()
      requires key in db
      ensures session == SessionIn(db[key])
    {
      if !db[key].value.Hash? { return None; }
      var f := db[key].value.fields;
      ExactFields(f, SESSION_FIELDS);
      if HLen(key) != 4 { return None; }
      if INTERNAL_USER_ID !in f || AUTHENTICATED_AT !in f || CREATED_AT !in f || EXPIRES_AT !in f { return None; }
      assert f.Keys == SESSION_FIELDS;
      session := ReadSessionNumbers(f);
    }

    /** Read and validate the eight fields of a handoff. */
    method ReadHandoff(key: string) returns (head: Option<HandoffHead>)
      requires Valid()
      requires key in db && db[key].value.Hash?
      ensures head == HandoffHeadIn(db[key].value.fields)
    {
      var f := db[key].value.fields;
      ExactFields(f, HANDOFF_FIELDS);
      if HLen(key) != 8 { return None; }
      if SERVICE_ID !in f || INTERNAL_USER_ID !in f || COMMON_SESSION_LOOKUP !in f || CODE_CHALLENGE !in f
         || AUTHENTICATED_AT !in f || ISSUED_AT !in f || EXPIRES_AT !in f || STATUS !in f { return None; }
      assert f.Keys == HANDOFF_FIELDS;
      head := ReadHandoffNumbers(f);
    }

    /** The checks that a stored handoff and the handoff arguments of a script go through alike. */
    method ReadHandoffNumbers(f: Fields) returns (head: Option<HandoffHead>)
      requires Valid()
      requires f.Keys == HANDOFF_FIELDS
      ensures head == HandoffHeadIn(f)
    {
      var user, lookup := f[INTERNAL_USER_ID], f[COMMON_SESSION_LOOKUP];
      var authenticated, issued, expires := f[AUTHENTICATED_AT], f[ISSUED_AT], f[EXPIRES_AT];
      LuaIntAgrees(round, user);
      LuaLookupAgrees(lookup);
      LuaUintAgrees(round, authenticated);
      LuaUintAgrees(round, issued);
      LuaUintAgrees(round, expires);
      if !LuaInt(round, user) || !LuaLookup(lookup) || !LuaUint(round, authenticated)
         || !LuaUint(round, issued) || !LuaUint(round, expires) { return None; }
      return Some(HandoffHead(LuaNumber(round, user), lookup, LuaNumber(round, authenticated), LuaNumber(round, issued), LuaNumber(round, expires)));
    }

    /** The checks that a stored session and the session arguments of a script go through alike. */
    method ReadSessionNumbers(f: Fields) returns (session: Option<CommonSession>)
      requires Valid()
      requires f.Keys == SESSION_FIELDS
      ensures session == SessionIn(Entry(Hash(f), None))
    {
      var user, authenticated, created, expires :=
        f[INTERNAL_USER_ID], f[AUTHENTICATED_AT], f[CREATED_AT], f[EXPIRES_AT];
      LuaIntAgrees(round, user);
      LuaUintAgrees(round, authenticated);
      LuaUintAgrees(round, created);
      LuaUintAgrees(round, expires);
      if !LuaInt(round, user) || !LuaUint(round, authenticated) || !LuaUint(round, created) || !LuaUint(round, expires) {
        return None;
      }
      return Some(CommonSession(LuaNumber(round, user), LuaNumber(round, authenticated), LuaNumber(round, created), LuaNumber(round, expires)));
    }

    /** Read and validate the six fields of a logout transaction. */
    method ReadLogout(key: string) returns (expiry: Option<u64>)
      requires Valid()
      requires key in db
      ensures expiry == LogoutExpiry(db[key])
    {
      if !db[key].value.Hash? { return None; }
      var f := db[key].value.fields;
      ExactFields(f, LOGOUT_FIELDS);
      if HLen(key) != 6 { return None; }
      if SERVICE_ID !in f || LOGOUT_RETURN_URI !in f || CSRF_LOOKUP !in f || CREATED_AT !in f
         || EXPIRES_AT !in f || STATUS !in f { return None; }
      assert f.Keys == LOGOUT_FIELDS;
      LuaLookupAgrees(f[CSRF_LOOKUP]);
      LuaUintAgrees(round, f[CREATED_AT]);
      LuaUintAgrees(round, f[EXPIRES_AT]);
      if !LuaLookup(f[CSRF_LOOKUP]) || !LuaUint(round, f[CREATED_AT]) || !LuaUint(round, f[EXPIRES_AT]) { return None; }
      return Some(LuaNumber(round, f[EXPIRES_AT]));
    }

    /** CALLBACK_CLAIM_SCRIPT. */
    method Claim(key: string) returns (reply: Reply)
      requires Valid()
      modifies this`db
      ensures Outcome(db, reply) == ClaimScript(old(db), clock, key)
    {
      if key !in db { return [Int(1)]; }
      var expiry := ReadExternal(key);
      if expiry.None? { return [Int(3)]; }
      var f := db[key].value.fields;
      if clock >= expiry.value {
        db := Del(db, key);
        return [Int(2)];
      }
      if f[STATUS] == "processing" { return [Int(4)]; }
      if f[STATUS] != "waiting" { return [Int(3)]; }
      db := HSet(db, key, map[STATUS := "processing"]);
      return [Int(0), Bulk(f[SERVICE_ID]), Bulk(f[SERVICE_STATE]), Bulk(f[HANDOFF_CODE_CHALLENGE]),
              Bulk(f[PROVIDER]), Bulk(f[PROVIDER_VERIFICATION_DATA]), Bulk(f[CREATED_AT]),
              Bulk(f[EXPIRES_AT]), Bulk("processing")];
    }

    /** ISSUE_SSO_HANDOFF_SCRIPT. */
    method Issue(k1: string, k2: string, argv: seq<string>) returns (reply: Reply)
      requires Valid()
      requires |argv| == 9
      modifies this`db
      ensures Outcome(db, reply) == IssueScript(old(db), clock, k1, k2, argv)
    {
      if k1 !in db { return [Int(1)]; }
      var session := ReadSession(k1);
      if session.None? { return [Int(3)]; }
      if clock >= session.value.expiresAt {
        db := Del(db, k1);
        return [Int(2)];
      }
      if k2 in db { return [Int(9)]; }
      LuaLookupAgrees(argv[0]);
      if !LuaLookup(argv[0]) || k1 != "auth:session:" + argv[0] || argv[8] != "unused" { return [Int(3)]; }
      var f := HandoffFields(argv[1..9]);
      assert f.Keys == HANDOFF_FIELDS;
      var h := ReadHandoffNumbers(f);
      if h.None? || h.value.lookup != argv[0] || h.value.user != session.value.internalUserId
         || h.value.authenticated != session.value.authenticatedAt { return [Int(3)]; }
      if h.value.expires <= clock { return [Int(2)]; }
      db := HSet(db, k2, f);
      if !IsIntegerArgument(argv[7]) { return [Fault]; }
      db := ExpireAt(db, clock, k2, h.value.expires);
      return [Int(0)];
    }

    /** CREATE_SESSION_AND_HANDOFF_SCRIPT. */
    method Create(k1: string, k2: string, argv: seq<string>) returns (reply: Reply)
      requires Valid()
      requires |argv| == 13
      modifies this`db
      ensures Outcome(db, reply) == CreateScript(old(db), clock, k1, k2, argv)
    {
      if k1 in db || k2 in db { return [Int(9)]; }
      var g, f := SessionFields(argv[0..4]), HandoffFields(argv[5..13]);
      assert g.Keys == SESSION_FIELDS && f.Keys == HANDOFF_FIELDS;
      var session := ReadSessionNumbers(g);
      LuaLookupAgrees(argv[4]);
      if session.None? || !LuaLookup(argv[4]) || k1 != "auth:session:" + argv[4] { return [Int(3)]; }
      var h := ReadHandoffNumbers(f);
      if argv[12] != "unused" || h.None? { return [Int(3)]; }
      if h.value.lookup != argv[4] || h.value.user != session.value.internalUserId
         || h.value.authenticated != session.value.authenticatedAt { return [Int(3)]; }
      if session.value.expiresAt <= clock || h.value.expires <= clock { return [Int(2)]; }
      db := HSet(db, k1, g);
      if !IsIntegerArgument(argv[3]) { return [Fault]; }
      db := ExpireAt(db, clock, k1, session.value.expiresAt);
      db := HSet(db, k2, f);
      if !IsIntegerArgument(argv[11]) { return [Fault]; }
      db := ExpireAt(db, clock, k2, h.value.expires);
      return [Int(0)];
    }

    /** EXCHANGE_HANDOFF_SCRIPT. */
    method Exchange(k1: string, k2: string, argv: seq<string>) returns (reply: Reply)
      requires Valid()
      requires |argv| == 3
      modifies this`db
      ensures Outcome(db, reply) == ExchangeScript(old(db), clock, k1, k2, argv)
    {
      if k1 !in db { return [Int(1)]; }
      if !db[k1].value.Hash? { return [Int(3)]; }
      var head := ReadHandoff(k1);
      if head.None? { return [Int(3)]; }
      var f := db[k1].value.fields;
      if clock >= head.value.expires {
        db := Del(db, k1);
        return [Int(2)];
      }
      if f[STATUS] == "used" { return [Int(5)]; }
      if f[STATUS] != "unused" { return [Int(3)]; }
      if f[SERVICE_ID] != argv[0] { return [Int(6)]; }
      if f[CODE_CHALLENGE] != argv[1] { return [Int(7)]; }
      LuaLookupAgrees(argv[2]);
      if !LuaLookup(argv[2]) || head.value.lookup != argv[2] || k2 != "auth:session:" + argv[2] { return [Int(3)]; }
      if k2 !in db { return [Int(1)]; }
      var session := ReadSession(k2);
      if session.None? { return [Int(3)]; }
      if clock >= session.value.expiresAt {
        db := Del(db, k2);
        return [Int(2)];
      }
      if head.value.user != session.value.internalUserId
         || head.value.authenticated != session.value.authenticatedAt { return [Int(3)]; }
      db := HSet(db, k1, map[STATUS := "used"]);
      return [Int(0), Int(head.value.user), Int(head.value.authenticated)];
    }

    /** COMPLETE_COMMON_LOGOUT_SCRIPT. */
    method CompleteLogout(k1: string, k2: string, csrf: string) returns (reply: Reply)
      requires Valid()
      modifies this`db
      ensures Outcome(db, reply) == LogoutScript(old(db), clock, k1, k2, csrf)
    {
      if k1 !in db { return [Int(1)]; }
      var expiry := ReadLogout(k1);
      if expiry.None? { return [Int(3)]; }
      var f := db[k1].value.fields;
      if clock >= expiry.value {
        db := Del(db, k1);
        return [Int(2)];
      }
      if f[STATUS] == "used" { return [Int(5)]; }
      if f[STATUS] != "unused" { return [Int(3)]; }
      LuaLookupAgrees(csrf);
      if !LuaLookup(csrf) { return [Int(8)]; }
      var same := FixedWorkEqualLookup(f[CSRF_LOOKUP], csrf);
      if !same { return [Int(8)]; }
      db := HSet(db, k1, map[STATUS := "used"]);
      db := Del(db, k2);
      return [Int(0), Bulk(f[LOGOUT_RETURN_URI])];
    }
  }
}
