/** A Redis database as the scripts see it: keys holding hashes of strings, with an optional TTL. */
module RawRedis {
  import opened Common
  import opened Decimal
  import opened Records

  datatype Value = Hash(fields: Fields) | NotAHash

  datatype Entry = Entry(value: Value, ttl: Option<nat>)

  type Db = map<string, Entry>

  /** Elements of a script's reply array; a lone `Fault` is the error reply of a script that Redis aborted. */
  datatype Item = Int(n: int) | Bulk(bytes: string) | Fault

  type Reply = seq<Item>

  /** HSET merges into a hash that is there and keeps its TTL; otherwise it makes one without TTL. */
  function HSet(db: Db, key: string, fields: Fields): Db {
    if key in db && db[key].value.Hash?
    then db[key := Entry(Hash(db[key].value.fields + fields), db[key].ttl)]
    else db[key := Entry(Hash(fields), None)]
  }

  function Del(db: Db, key: string): Db {
    db - {key}
  }

  /** EXPIREAT with a time that is not in the future deletes the key at once. */
  function ExpireAt(db: Db, clock: nat, key: string, at: nat): Db {
    if key !in db then db
    else if at <= clock then Del(db, key)
    else db[key := db[key].(ttl := Some(at))]
  }

  /** The integer texts that Redis takes as an argument: digits without a plus sign or leading zeros. */
  predicate IsIntegerArgument(text: string) {
    Canonical(text)
  }

  function Fetch(db: Db, key: string): Option<Entry> {
    if key in db then Some(db[key]) else None
  }
}

/**
  What the five scripts do to any database, on hashes of any content: the result in terms of the
  numbers that Rust parsing finds in the fields.
*/
module Scripts {
  import opened Common
  import opened Decimal
  import opened References
  import opened Records
  import opened RawRedis

  const OK := 0
  const NOT_FOUND := 1
  const EXPIRED := 2
  const INVALID := 3
  const ALREADY_CLAIMED := 4
  const ALREADY_USED := 5
  const SERVICE_MISMATCH := 6
  const CHALLENGE_MISMATCH := 7
  const CSRF_MISMATCH := 8
  const KEY_CONFLICT := 9

  datatype Outcome = Outcome(db: Db, reply: Reply)

  function Refuse(db: Db, code: int): Outcome {
    Outcome(db, [Int(code)])
  }

  predicate HasExactly(e: Entry, names: set<Field>) {
    e.value.Hash? && e.value.fields.Keys == names
  }

  function SessionIn(e: Entry): Option<CommonSession> {
    if !HasExactly(e, SESSION_FIELDS) then None else
    var f := e.value.fields;
    match (ParseI32(f[INTERNAL_USER_ID]), Stamp(f[AUTHENTICATED_AT]), Stamp(f[CREATED_AT]), Stamp(f[EXPIRES_AT]))
    case (Some(user), Some(authenticated), Some(created), Some(expires)) =>
      Some(CommonSession(user, authenticated, created, expires))
    case _ => None
  }

  /** The validated part of a handoff hash; its status is looked at later. */
  datatype HandoffHead = HandoffHead(user: i32, lookup: string, authenticated: u64, issued: u64, expires: u64)

  function HandoffHeadIn(f: Fields): Option<HandoffHead> {
    if f.Keys != HANDOFF_FIELDS || !IsLookup(f[COMMON_SESSION_LOOKUP]) then None else
    match (ParseI32(f[INTERNAL_USER_ID]), Stamp(f[AUTHENTICATED_AT]), Stamp(f[ISSUED_AT]), Stamp(f[EXPIRES_AT]))
    case (Some(user), Some(authenticated), Some(issued), Some(expires)) =>
      Some(HandoffHead(user, f[COMMON_SESSION_LOOKUP], authenticated, issued, expires))
    case _ => None
  }

  /** The eight handoff arguments, in the order both creating scripts take them. */
  function HandoffFields(a: seq<string>): Fields
    requires |a| == 8
  {
    map[SERVICE_ID := a[0], INTERNAL_USER_ID := a[1], COMMON_SESSION_LOOKUP := a[2],
        CODE_CHALLENGE := a[3], AUTHENTICATED_AT := a[4], ISSUED_AT := a[5], EXPIRES_AT := a[6],
        STATUS := a[7]]
  }

  function SessionFields(a: seq<string>): Fields
    requires |a| == 4
  {
    map[INTERNAL_USER_ID := a[0], AUTHENTICATED_AT := a[1], CREATED_AT := a[2], EXPIRES_AT := a[3]]
  }

  /** The expiry of a hash that passes for an external transaction, status aside. */
  function ExternalExpiry(e: Entry): Option<u64> {
    if !HasExactly(e, EXTERNAL_FIELDS) || Stamp(e.value.fields[CREATED_AT]).None? then None
    else Stamp(e.value.fields[EXPIRES_AT])
  }

  /** The expiry of a hash that passes for a logout transaction, status aside. */
  function LogoutExpiry(e: Entry): Option<u64> {
    if !HasExactly(e, LOGOUT_FIELDS) || !IsLookup(e.value.fields[CSRF_LOOKUP])
       || Stamp(e.value.fields[CREATED_AT]).None? then None
    else Stamp(e.value.fields[EXPIRES_AT])
  }

  function ClaimScript(db: Db, now: nat, key: string): Outcome {
    if key !in db then Refuse(db, NOT_FOUND) else
    match ExternalExpiry(db[key])
    case None => Refuse(db, INVALID)
    case Some(expires) =>
      var f := db[key].value.fields;
      if now >= expires then Refuse(Del(db, key), EXPIRED)
      else if f[STATUS] == "processing" then Refuse(db, ALREADY_CLAIMED)
      else if f[STATUS] != "waiting" then Refuse(db, INVALID)
      else
        Outcome(
          HSet(db, key, map[STATUS := "processing"]),
          [Int(OK), Bulk(f[SERVICE_ID]), Bulk(f[SERVICE_STATE]), Bulk(f[HANDOFF_CODE_CHALLENGE]),
           Bulk(f[PROVIDER]), Bulk(f[PROVIDER_VERIFICATION_DATA]), Bulk(f[CREATED_AT]),
           Bulk(f[EXPIRES_AT]), Bulk("processing")])
  }

  function IssueScript(db: Db, now: nat, k1: string, k2: string, argv: seq<string>): Outcome
    requires |argv| == 9
  {
    if k1 !in db then Refuse(db, NOT_FOUND) else
    match SessionIn(db[k1])
    case None => Refuse(db, INVALID)
    case Some(session) =>
      if now >= session.expiresAt then Refuse(Del(db, k1), EXPIRED)
      else if k2 in db then Refuse(db, KEY_CONFLICT)
      else if !IsLookup(argv[0]) || k1 != SESSION_PREFIX + argv[0] || argv[8] != "unused" then Refuse(db, INVALID)
      else
        var f := HandoffFields(argv[1..9]);
        match HandoffHeadIn(f)
        case None => Refuse(db, INVALID)
        case Some(h) =>
          if h.lookup != argv[0] || h.user != session.internalUserId || h.authenticated != session.authenticatedAt
          then Refuse(db, INVALID)
          else if h.expires <= now then Refuse(db, EXPIRED)
          else if !IsIntegerArgument(f[EXPIRES_AT]) then Outcome(HSet(db, k2, f), [Fault])
          else Outcome(ExpireAt(HSet(db, k2, f), now, k2, h.expires), [Int(OK)])
  }

  function CreateScript(db: Db, now: nat, k1: string, k2: string, argv: seq<string>): Outcome
    requires |argv| == 13
  {
    if k1 in db || k2 in db then Refuse(db, KEY_CONFLICT) else
    var g := SessionFields(argv[0..4]);
    var f := HandoffFields(argv[5..13]);
    match (SessionIn(Entry(Hash(g), None)), HandoffHeadIn(f))
    case (Some(session), Some(h)) =>
      if !IsLookup(argv[4]) || k1 != SESSION_PREFIX + argv[4] || argv[12] != "unused"
         || h.lookup != argv[4] || h.user != session.internalUserId || h.authenticated != session.authenticatedAt
      then Refuse(db, INVALID)
      else if session.expiresAt <= now || h.expires <= now then Refuse(db, EXPIRED)
      else
        if !IsIntegerArgument(g[EXPIRES_AT]) then Outcome(HSet(db, k1, g), [Fault]) else
        var made := ExpireAt(HSet(db, k1, g), now, k1, session.expiresAt);
        if !IsIntegerArgument(f[EXPIRES_AT]) then Outcome(HSet(made, k2, f), [Fault])
        else Outcome(ExpireAt(HSet(made, k2, f), now, k2, h.expires), [Int(OK)])
    case _ => Refuse(db, INVALID)
  }

  function ExchangeScript(db: Db, now: nat, k1: string, k2: string, argv: seq<string>): Outcome
    requires |argv| == 3
  {
    if k1 !in db then Refuse(db, NOT_FOUND)
    else if !db[k1].value.Hash? then Refuse(db, INVALID)
    else
      var f := db[k1].value.fields;
      match HandoffHeadIn(f)
      case None => Refuse(db, INVALID)
      case Some(h) =>
        if now >= h.expires then Refuse(Del(db, k1), EXPIRED)
        else if f[STATUS] == "used" then Refuse(db, ALREADY_USED)
        else if f[STATUS] != "unused" then Refuse(db, INVALID)
        else if f[SERVICE_ID] != argv[0] then Refuse(db, SERVICE_MISMATCH)
        else if f[CODE_CHALLENGE] != argv[1] then Refuse(db, CHALLENGE_MISMATCH)
        else if h.lookup != argv[2] || k2 != SESSION_PREFIX + argv[2] then Refuse(db, INVALID)
        else if k2 !in db then Refuse(db, NOT_FOUND)
        else
          match SessionIn(db[k2])
          case None => Refuse(db, INVALID)
          case Some(session) =>
            if now >= session.expiresAt then Refuse(Del(db, k2), EXPIRED)
            else if h.user != session.internalUserId || h.authenticated != session.authenticatedAt
            then Refuse(db, INVALID)
            else Outcome(HSet(db, k1, map[STATUS := "used"]), [Int(OK), Int(h.user), Int(h.authenticated)])
  }

  function LogoutScript(db: Db, now: nat, k1: string, k2: string, csrf: string): Outcome {
    if k1 !in db then Refuse(db, NOT_FOUND) else
    match LogoutExpiry(db[k1])
    case None => Refuse(db, INVALID)
    case Some(expires) =>
      var f := db[k1].value.fields;
      if now >= expires then Refuse(Del(db, k1), EXPIRED)
      else if f[STATUS] == "used" then Refuse(db, ALREADY_USED)
      else if f[STATUS] != "unused" then Refuse(db, INVALID)
      else if f[CSRF_LOOKUP] != csrf then Refuse(db, CSRF_MISMATCH)
      else Outcome(Del(HSet(db, k1, map[STATUS := "used"]), k2), [Int(OK), Bulk(f[LOGOUT_RETURN_URI])])
  }
}
